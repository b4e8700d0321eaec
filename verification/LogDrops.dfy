// What a connection lost during a write leads to, over all runs of the log
// client's handlers: which frames are written, which are nowhere any more, and
// from which states pop_front can come to be called on the empty queue
// (src/log/client.cpp).
module LogDrops {
  import opened LogClient

  // ----- The order of completed writes -----

  // What is still queued is the rest of what was queued: a handler pops the
  // front, once for each completed write, until there is nothing to pop.
  predicate Rest(s: State) {
    && |s.queue| <= |s.queued| && s.queue == s.queued[|s.queued| - |s.queue|..]
    && |s.done| + |s.queue| == |s.queued| + (if s.corrupt then 1 else 0)
    && (s.corrupt ==> s.queue == [])
  }

  lemma StepKeepsRest(s: State, e: Event)
    requires Enabled(s, e) && Rest(s)
    ensures Rest(Next(s, e))
  {
    var s' := Next(s, e);
    var n := |s.queued| - |s.queue|;
    match e
    case RunQueued => assert (s.queued + [s.posted[0]])[n..] == s.queued[n..] + [s.posted[0]];
    case Write(ok) => assert s.queue != [] ==> s.queued[n..][1..] == s.queued[n + 1..];
    case _ =>
  }

  // Over every run at all.
  lemma {:induction false} QueueIsTheRest(es: seq<Event>)
    requires CanRun(Init(), es)
    ensures Rest(After(Init(), es))
    decreases |es|
  {
    if es != [] {
      QueueIsTheRest(es[..|es| - 1]);
      StepKeepsRest(After(Init(), es[..|es| - 1]), es[|es| - 1]);
    }
  }

  // How many frames were popped, which is the number of the front one.
  function Popped(s: State): nat {
    if |s.queue| <= |s.queued| then |s.queued| - |s.queue| else 0
  }

  // The frame whose write completes is the one that is popped.
  predicate PopsWhatWasWritten(s: State, e: Event)
    requires Enabled(s, e)
  {
    e == Write(true) ==> s.queue != [] && s.writes[0] == s.queue[0]
  }

  predicate AlwaysPopsWhatWasWritten(s: State, es: seq<Event>)
    requires CanRun(s, es)
    decreases |es|
  {
    es == [] ||
      (AlwaysPopsWhatWasWritten(s, es[..|es| - 1])
       && PopsWhatWasWritten(After(s, es[..|es| - 1]), es[|es| - 1]))
  }

  lemma StepKeepsPrefixExactly(s: State, e: Event)
    requires Enabled(s, e) && |s.done| <= |s.queued| && s.queue == s.queued[|s.done|..]
    ensures Next(s, e).done <= Next(s, e).queued <==> s.done <= s.queued && PopsWhatWasWritten(s, e)
  {
    var s' := Next(s, e);
    if e == Write(true) {
      assert s.queue != [] ==> s.queue[0] == s.queued[|s.done|];
      assert s'.done == s.done + [s.writes[0]] && s'.queued == s.queued;
      assert s'.done[..|s.done|] == s.done && s'.done[|s.done|] == s.writes[0];
    } else if e == RunQueued {
      assert s'.done == s.done && s'.queued == s.queued + [s.posted[0]];
      assert s'.queued[..|s.done|] == s.queued[..|s.done|];
    }
  }

  lemma PrefixConserves(done: seq<string>, queue: seq<string>, queued: seq<string>)
    requires |queue| <= |queued| && queue == queued[|queued| - |queue|..]
    ensures done + queue == queued <==> done <= queued && |done| + |queue| == |queued|
  {
    if done + queue == queued {
      assert (done + queue)[..|done|] == done;
    }
  }

  // Over every run at all, the completed writes are the first frames queued,
  // in order, and make up with the queue all that was queued, exactly if each
  // pop was of the frame just written.
  lemma {:induction false} WritesInOrderExactly(es: seq<Event>)
    requires CanRun(Init(), es)
    ensures var s := After(Init(), es);
      && (s.done <= s.queued <==> AlwaysPopsWhatWasWritten(Init(), es))
      && (s.done + s.queue == s.queued <==> AlwaysPopsWhatWasWritten(Init(), es))
    decreases |es|
  {
    QueueIsTheRest(es);
    PrefixConserves(After(Init(), es).done, After(Init(), es).queue, After(Init(), es).queued);
    if es != [] {
      var before := es[..|es| - 1];
      WritesInOrderExactly(before);
      QueueIsTheRest(before);
      StepKeepsPrefixExactly(After(Init(), before), es[|es| - 1]);
    }
  }

  // ----- Which frames are nowhere -----

  // The numbers of the frames whose texts are in `writes` and in `done`.
  datatype Track = Track(under: seq<nat>, completed: seq<nat>)

  function Follow(t: Track, s: State, e: Event): Track
    requires Enabled(s, e)
  {
    var s' := Next(s, e);
    var kept := if e.Write? && t.under != [] then t.under[1..] else t.under;
    Track(
      if |s'.writes| > |kept| then kept + [Popped(s')] else kept,
      if e == Write(true) && t.under != [] then t.completed + [t.under[0]] else t.completed)
  }

  function Tracks(es: seq<Event>): Track
    requires CanRun(Init(), es)
    decreases |es|
  {
    if es == [] then Track([], [])
    else Follow(Tracks(es[..|es| - 1]), After(Init(), es[..|es| - 1]), es[|es| - 1])
  }

  predicate Numbers(numbers: seq<nat>, frames: seq<string>, queued: seq<string>) {
    && |numbers| == |frames|
    && forall i :: 0 <= i < |numbers| ==> numbers[i] < |queued| && frames[i] == queued[numbers[i]]
  }

  predicate Tracked(t: Track, s: State) {
    Numbers(t.under, s.writes, s.queued) && Numbers(t.completed, s.done, s.queued)
  }

  // What a handler does to the writes: the first may end, and the front of
  // the queue may start.
  lemma WritesAfter(s: State, e: Event)
    requires Enabled(s, e)
    ensures var s' := Next(s, e);
      var kept := if e.Write? then s.writes[1..] else s.writes;
      && (s'.writes == kept || (s'.queue != [] && s'.writes == kept + [s'.queue[0]]))
      && s'.done == (if e == Write(true) then s.done + [s.writes[0]] else s.done)
      && s.queued <= s'.queued
  {}

  lemma PoppedAfter(s: State, e: Event)
    requires Enabled(s, e) && Rest(s)
    ensures Popped(Next(s, e)) == Popped(s) + if e == Write(true) && s.queue != [] then 1 else 0
  {}

  lemma NumbersGrow(numbers: seq<nat>, frames: seq<string>, queued: seq<string>, queued': seq<string>)
    requires Numbers(numbers, frames, queued) && queued <= queued'
    ensures Numbers(numbers, frames, queued')
  {}

  lemma NumbersPush(numbers: seq<nat>, frames: seq<string>, queued: seq<string>, p: nat)
    requires Numbers(numbers, frames, queued) && p < |queued|
    ensures Numbers(numbers + [p], frames + [queued[p]], queued)
  {}

  lemma NumbersDrop(numbers: seq<nat>, frames: seq<string>, queued: seq<string>)
    requires Numbers(numbers, frames, queued) && numbers != []
    ensures Numbers(numbers[1..], frames[1..], queued)
  {}

  lemma UnderWayTracked(under: seq<nat>, s: State, e: Event)
    requires Enabled(s, e) && Rest(s) && Numbers(under, s.writes, s.queued)
    ensures Numbers(Follow(Track(under, []), s, e).under, Next(s, e).writes, Next(s, e).queued)
  {
    var s' := Next(s, e);
    StepKeepsRest(s, e);
    WritesAfter(s, e);
    NumbersGrow(under, s.writes, s.queued, s'.queued);
    if e.Write? {
      NumbersDrop(under, s.writes, s'.queued);
    }
    if s'.queue != [] {
      NumbersPush(if e.Write? then under[1..] else under, if e.Write? then s.writes[1..] else s.writes,
                  s'.queued, Popped(s'));
    }
  }

  lemma StepKeepsTracked(t: Track, s: State, e: Event)
    requires Enabled(s, e) && Rest(s) && Tracked(t, s)
    ensures Tracked(Follow(t, s, e), Next(s, e))
  {
    UnderWayTracked(t.under, s, e);
    WritesAfter(s, e);
    NumbersGrow(t.completed, s.done, s.queued, Next(s, e).queued);
    if e == Write(true) {
      NumbersPush(t.completed, s.done, Next(s, e).queued, t.under[0]);
    }
  }

  // The numbers are those of the frames.
  lemma {:induction false} RunKeepsTracked(es: seq<Event>)
    requires CanRun(Init(), es)
    ensures Tracked(Tracks(es), After(Init(), es))
    decreases |es|
  {
    if es != [] {
      RunKeepsTracked(es[..|es| - 1]);
      QueueIsTheRest(es[..|es| - 1]);
      StepKeepsTracked(Tracks(es[..|es| - 1]), After(Init(), es[..|es| - 1]), es[|es| - 1]);
    }
  }

  // Frame p was popped, and it was not written and is not being written.
  predicate Nowhere(t: Track, s: State, p: nat) {
    p < Popped(s) && p !in t.under && p !in t.completed
  }

  // Frame p is popped for the last time it could be written: its last write
  // fails after it was popped, or the write of another frame completes and
  // pops it while no write of it is under way.
  predicate Loses(t: Track, s: State, e: Event, p: nat) {
    && e.Write? && t.under != [] && p !in t.under[1..] && p !in t.completed
    && if e.ok then t.under[0] != p && s.queue != [] && p == Popped(s)
       else t.under[0] == p && p < Popped(s)
  }

  lemma TrackAfter(t: Track, s: State, e: Event)
    requires Enabled(s, e) && Rest(s) && Tracked(t, s)
    ensures var t' := Follow(t, s, e);
      var kept := if e.Write? then t.under[1..] else t.under;
      && (t'.under == kept || t'.under == kept + [Popped(Next(s, e))])
      && t'.completed == (if e == Write(true) then t.completed + [t.under[0]] else t.completed)
      && (e.Write? ==> t.under == [t.under[0]] + t.under[1..])
  {
    WritesAfter(s, e);
  }

  lemma StepLosesExactly(t: Track, s: State, e: Event, p: nat)
    requires Enabled(s, e) && Rest(s) && Tracked(t, s)
    ensures Nowhere(Follow(t, s, e), Next(s, e), p) <==> Nowhere(t, s, p) || Loses(t, s, e, p)
  {
    PoppedAfter(s, e);
    TrackAfter(t, s, e);
  }

  predicate EverLoses(es: seq<Event>, p: nat)
    requires CanRun(Init(), es)
    decreases |es|
  {
    es != [] &&
      (EverLoses(es[..|es| - 1], p)
       || Loses(Tracks(es[..|es| - 1]), After(Init(), es[..|es| - 1]), es[|es| - 1], p))
  }

  // Over every run at all, a frame is nowhere exactly if some handler lost it
  // in one of the two ways; and it is then never written any more.
  lemma {:induction false} NowhereExactlyWhenLost(es: seq<Event>, p: nat)
    requires CanRun(Init(), es)
    ensures Nowhere(Tracks(es), After(Init(), es), p) <==> EverLoses(es, p)
    decreases |es|
  {
    if es != [] {
      var before := es[..|es| - 1];
      NowhereExactlyWhenLost(before, p);
      QueueIsTheRest(before);
      RunKeepsTracked(before);
      StepLosesExactly(Tracks(before), After(Init(), before), es[|es| - 1], p);
    }
  }

  // Each frame popped was written once, in order.
  predicate InStep(t: Track, s: State) {
    && t.under == (if s.writes == [] then [] else [Popped(s)])
    && |t.completed| == Popped(s)
    && forall p :: 0 <= p < |t.completed| ==> t.completed[p] == p
  }

  lemma StepStaysInStep(t: Track, s: State, e: Event)
    requires Inv(s) && Rest(s) && Enabled(s, e) && DropsOnlyWhenIdle(s, e) && InStep(t, s)
    ensures InStep(Follow(t, s, e), Next(s, e))
  {
    var t', s' := Follow(t, s, e), Next(s, e);
    StepKeepsInvExactlyWhenIdle(s, e);
    PoppedAfter(s, e);
    WritesAfter(s, e);
    assert |t.under| == |s.writes| <= 1 && |s'.writes| <= 1;
    assert t'.under == if s'.writes == [] then [] else [Popped(s')];
  }

  // With drops only while idle, no frame is ever nowhere, and pop_front always
  // has a frame to pop.
  lemma {:induction false} IdleDropsLoseNothing(es: seq<Event>)
    requires CanRun(Init(), es) && IdleDropsOnly(Init(), es)
    ensures var s := After(Init(), es);
      && InStep(Tracks(es), s) && !s.corrupt && (s.writes != [] ==> s.queue != [])
      && forall p: nat :: !Nowhere(Tracks(es), s, p)
    decreases |es|
  {
    var s := After(Init(), es);
    QueueSurvivesReconnects(es);
    if es != [] {
      IdleDropsLoseNothing(es[..|es| - 1]);
      QueueSurvivesReconnects(es[..|es| - 1]);
      QueueIsTheRest(es[..|es| - 1]);
      StepStaysInStep(Tracks(es[..|es| - 1]), After(Init(), es[..|es| - 1]), es[|es| - 1]);
    }
    forall p: nat | p < Popped(s) ensures p in Tracks(es).completed {
      assert Tracks(es).completed[p] == p;
    }
  }

  // ----- When pop_front can meet the empty queue -----

  function FailedWrites(es: seq<Event>): nat {
    if es == [] then 0 else FailedWrites(es[..|es| - 1]) + if es[|es| - 1] == Write(false) then 1 else 0
  }

  // Monitors and connection attempts turn into each other; a failed write adds
  // one, and nothing ever takes one away.
  lemma {:induction false} EachFailedWriteAddsALoop(es: seq<Event>)
    requires CanRun(Init(), es)
    ensures var s := After(Init(), es); s.monitors + s.connects == 1 + FailedWrites(es)
    decreases |es|
  {
    if es != [] {
      EachFailedWriteAddsALoop(es[..|es| - 1]);
    }
  }

  // With one loop left, what is connected writes its queue.
  predicate Regular(s: State) {
    && s.monitors + s.connects >= 1
    && (s.monitors + s.connects == 1 ==>
          && (s.connected <==> s.monitors == 1)
          && (s.connected && s.queue != [] && !s.corrupt ==>
                s.writes != [] && (|s.writes| == 1 ==> s.writes[0] == s.queue[0])))
  }

  lemma StepKeepsRegular(s: State, e: Event)
    requires Enabled(s, e) && Regular(s)
    ensures Regular(Next(s, e))
  {}

  lemma {:induction false} RunKeepsRegular(es: seq<Event>)
    requires CanRun(Init(), es)
    ensures Regular(After(Init(), es))
    decreases |es|
  {
    if es != [] {
      RunKeepsRegular(es[..|es| - 1]);
      StepKeepsRegular(After(Init(), es[..|es| - 1]), es[|es| - 1]);
    }
  }

  // A run from s0 to s with drops only while idle.
  ghost predicate Calmly(s0: State, es: seq<Event>, s: State) {
    CanRun(s0, es) && IdleDropsOnly(s0, es) && After(s0, es) == s
  }

  lemma Go(s0: State, es: seq<Event>, s: State, e: Event) returns (es': seq<Event>, s': State)
    requires Calmly(s0, es, s) && Enabled(s, e) && DropsOnlyWhenIdle(s, e)
    ensures s' == Next(s, e) && Calmly(s0, es', s')
  {
    es', s' := es + [e], Next(s, e);
    assert es'[..|es|] == es;
  }

  // From here the empty queue can be popped, without any further drop during
  // a write.
  ghost predicate MayPopEmpty(s: State) {
    exists es :: CanRun(s, es) && IdleDropsOnly(s, es) && After(s, es).corrupt
  }

  // More writes under way than frames to pop.
  lemma {:induction false} WriteOut(s0: State, es: seq<Event>, s: State)
    requires Calmly(s0, es, s) && !s.corrupt && s.writes != [] && (|s.writes| >= 2 || s.queue == [])
    ensures MayPopEmpty(s0)
    decreases |s.queue|
  {
    var es', s' := Go(s0, es, s, Write(true));
    if !s'.corrupt {
      WriteOut(s0, es', s');
    }
  }

  // A write under way and a connection attempt beside it.
  lemma ConnectBeside(s0: State, es: seq<Event>, s: State)
    requires Calmly(s0, es, s) && !s.corrupt && s.writes != [] && s.connects >= 1
    ensures MayPopEmpty(s0)
  {
    var es', s' := es, s;
    if s.queue != [] {
      es', s' := Go(s0, es, s, Connect(true));
    }
    WriteOut(s0, es', s');
  }

  lemma TwoAttempts(s0: State, es: seq<Event>, s: State)
    requires Calmly(s0, es, s) && !s.corrupt && s.connects >= 2
    ensures MayPopEmpty(s0)
  {
    var es', s' := es, s;
    if s.queue == [] {
      es', s' := Go(s0, es, s, Send(""));
      es', s' := Go(s0, es', s', RunQueued);
    }
    if s'.writes == [] {
      es', s' := Go(s0, es', s', Connect(true));
    }
    ConnectBeside(s0, es', s');
  }

  // Two loops: losing the idle connection turns them into two attempts.
  lemma {:induction false} TwoLoops(s0: State, es: seq<Event>, s: State)
    requires Calmly(s0, es, s) && !s.corrupt && s.monitors + s.connects >= 2
    ensures MayPopEmpty(s0)
    decreases |s.queue|, s.monitors
  {
    if s.writes != [] && (|s.writes| >= 2 || s.queue == []) {
      WriteOut(s0, es, s);
    } else if s.writes != [] && s.connects >= 1 {
      ConnectBeside(s0, es, s);
    } else if s.connects >= 2 {
      TwoAttempts(s0, es, s);
    } else {
      var es', s' := Go(s0, es, s, if s.writes != [] then Write(true) else Read(false));
      TwoLoops(s0, es', s');
    }
  }

  lemma {:induction false} StaysTidy(s: State, es: seq<Event>)
    requires Tidy(s) && CanRun(s, es) && IdleDropsOnly(s, es)
    ensures Tidy(After(s, es))
    decreases |es|
  {
    if es != [] {
      StaysTidy(s, es[..|es| - 1]);
    }
  }

  // At any moment of any run, pop_front can come to meet the empty queue, even
  // if no connection is lost during a write any more, exactly if the client is
  // not tidy: not one monitor with the write of the front, nor one attempt.
  lemma PopsEmptyExactlyWhenUntidy(past: seq<Event>)
    requires CanRun(Init(), past) && !After(Init(), past).corrupt
    ensures MayPopEmpty(After(Init(), past)) <==> !Tidy(After(Init(), past))
  {
    var s := After(Init(), past);
    RunKeepsRegular(past);
    if Tidy(s) {
      forall es | CanRun(s, es) && IdleDropsOnly(s, es) ensures !After(s, es).corrupt {
        StaysTidy(s, es);
      }
    } else {
      assert Calmly(s, [], s);
      if s.monitors + s.connects >= 2 {
        TwoLoops(s, [], s);
      } else if s.connected {
        WriteOut(s, [], s);
      } else {
        ConnectBeside(s, [], s);
      }
    }
  }

  // ----- Runs with a drop during a write -----

  ghost predicate At(es: seq<Event>, s: State) {
    CanRun(Init(), es) && After(Init(), es) == s
  }

  lemma Do(es: seq<Event>, s: State, e: Event) returns (es': seq<Event>, s': State)
    requires At(es, s) && Enabled(s, e)
    ensures s' == Next(s, e) && At(es', s')
  {
    es', s' := es + [e], Next(s, e);
    assert es'[..|es|] == es;
  }

  // The write and the monitor both see the loss and both start a connection
  // attempt; each attempt then starts a write of the same frame.
  lemma WriteTwice(es: seq<Event>, s: State, front: string) returns (es': seq<Event>, s': State)
    requires At(es, s) && s.queue != [] && s.queue[0] == front
    requires s.connected && s.connects == 0 && s.monitors == 1 && s.writes == [front] && !s.corrupt
    ensures At(es', s') && s' == s.(monitors := 2, writes := [front, front])
  {
    es', s' := Do(es, s, Write(false));
    es', s' := Do(es', s', Read(false));
    es', s' := Do(es', s', Connect(true));
    es', s' := Do(es', s', Connect(true));
  }

  lemma FirstWrite(a: string) returns (es: seq<Event>, s: State)
    ensures At(es, s) && s == State(true, [a], 0, 1, [a], [], [a], [], false)
  {
    es, s := Do([], Init(), Connect(true));
    es, s := Do(es, s, Send(a));
    es, s := Do(es, s, RunQueued);
  }

  // One frame is enough: both its writes complete, and the second one pops the
  // empty queue.
  lemma EmptyQueueIsPopped(a: string) returns (es: seq<Event>)
    ensures CanRun(Init(), es) && After(Init(), es).corrupt && After(Init(), es).done == [a, a]
  {
    var s;
    es, s := FirstWrite(a);
    es, s := WriteTwice(es, s, a);
    es, s := Do(es, s, Write(true));
    es, s := Do(es, s, Write(true));
  }

  // With two frames the first is written twice; its second write has popped
  // the other frame while that is still being written.
  lemma DropDuringWriteRepeats(a: string, b: string) returns (es: seq<Event>, s: State)
    ensures At(es, s) && s == State(true, [], 0, 2, [b], [], [a, b], [a, a], false)
  {
    es, s := FirstWrite(a);
    es, s := Do(es, s, Send(b));
    es, s := Do(es, s, RunQueued);
    es, s := WriteTwice(es, s, a);
    es, s := Do(es, s, Write(true));
    es, s := Do(es, s, Write(true));
  }

  // If that write then fails, the frame is lost: nothing has it any more.
  lemma SecondDropLoses(a: string, b: string) returns (es: seq<Event>, s: State)
    ensures CanRun(Init(), es) && s == After(Init(), es)
    ensures s.queued == [a, b] && s.done == [a, a] && s.queue == [] && s.writes == [] && s.posted == []
  {
    es, s := DropDuringWriteRepeats(a, b);
    es, s := Do(es, s, Write(false));
  }

  // No write needs to fail: the monitor sees the loss during a write that
  // completes all the same, twice over. The client ends tidy, with the first
  // frame written twice and the second one never started.
  lemma StaleWriteLoses(a: string, b: string) returns (es: seq<Event>, s: State)
    ensures CanRun(Init(), es) && s == After(Init(), es) && FailedWrites(es) == 0
    ensures s.queued == [a, b] && s.done == [a, a] && Tidy(s) && s.queue == [] && s.posted == []
  {
    es, s := FirstWrite(a);
    es, s := Do(es, s, Read(false));
    es, s := Do(es, s, Connect(true));
    es, s := Do(es, s, Write(true));
    es, s := Do(es, s, Read(false));
    es, s := Do(es, s, Send(b));
    es, s := Do(es, s, RunQueued);
    es, s := Do(es, s, Write(true));
    EachFailedWriteAddsALoop(es);
  }
}
