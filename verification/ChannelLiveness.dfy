// Without shutdown the channel gets stuck only by a throw: every complete run
// of k sends takes exactly 11 k steps if all messages fit, and ends with a
// throw if one does not.
module ChannelLiveness {
  import opened Wrappers
  import opened Sums
  import opened SendProtocol
  import opened Channel
  import opened ChannelFifo

  // Steps of senders and of the receiver; no new thread, no destructor.
  predicate Traffic(e: Event) {
    e.SendStep? || e.ReceiveStep?
  }

  // Five sender steps and six receiver steps per message.
  function Work(c: Sender): nat {
    var left := if c.next < |c.program| then 11 * (|c.program| - c.next) else 0;
    match c.pc
    case Ready => left
    case HasSlot => if left == 0 then 0 else left - 1
    case InLock => if left == 0 then 0 else left - 2
    case Copied => left + 8
    case Unlocked => left + 7
  }

  function RecvWork(r: RecvPc): nat {
    match r
    case Waiting => 0
    case Woken => 5
    case Checking => 4
    case Handling => 3
    case Leaving(_) => 2
    case Releasing(_) => 1
    case Exited => 0
  }

  ghost function Measure(s: State): nat {
    Sum(Work, s.senders) + 6 * s.buf.full + RecvWork(s.recv)
  }

  // Every step of every thread brings the end nearer: by one, unless it is a
  // throw.
  lemma StepDropsMeasure(s: State, e: Event)
    requires Inv(s) && s.dtor == Alive && Traffic(e) && Enabled(s, e)
    ensures var s' := Next(s, e);
      && s'.dtor == Alive && s.past.throws <= s'.past.throws
      && if s'.past.throws == s.past.throws then Measure(s') + 1 == Measure(s) else Measure(s') < Measure(s)
  {
    if e.SendStep? {
      SumUpdate(Work, s.senders, e.thread, Next(s, e).senders[e.thread]);
    }
  }

  // If a thread waits for the lock, the thread holding it can go on.
  lemma LockHolderCanStep(s: State) returns (t: nat)
    requires Inv(s) && s.past.throws == 0 && s.buf.mutex == 0 && RecvHolding(s.recv) == 0
    ensures t < |s.senders| && Holding(s.senders[t]) == 1 && SendEnabled(s, t)
  {
    t := SumWitness(Holding, s.senders);
  }

  lemma SenderInFlightCanStep(s: State, t: nat) returns (e: Event)
    requires Inv(s) && s.past.throws == 0 && RecvHolding(s.recv) == 0
    requires t < |s.senders| && s.senders[t].pc != Ready
    ensures Traffic(e) && Enabled(s, e)
  {
    e := SendStep(t);
    if s.senders[t].pc == HasSlot && s.buf.mutex == 0 {
      var holder := LockHolderCanStep(s);
      e := SendStep(holder);
    }
  }

  // No deadlock: as long as anything is left to do and nothing has thrown,
  // some thread can step.
  lemma NeverStuck(s: State) returns (e: Event)
    requires Inv(s) && s.past.throws == 0 && s.dtor == Alive && Measure(s) > 0
    ensures Traffic(e) && Enabled(s, e)
  {
    e := ReceiveStep;
    if !ReceiveEnabled(s) {
      if s.recv == Woken {
        var holder := LockHolderCanStep(s);
        e := SendStep(holder);
      } else if Sum(Unwritten, s.senders) > 0 {
        var t := SumWitness(Unwritten, s.senders);
        e := SenderInFlightCanStep(s, t);
      } else if Sum(Written, s.senders) > 0 {
        var t := SumWitness(Written, s.senders);
        e := SenderInFlightCanStep(s, t);
      } else {
        var t := SumWitness(Work, s.senders);
        SumAt(Unwritten, s.senders, t);
        SumAt(Written, s.senders, t);
        assert s.senders[t].pc == Ready;
        assert s.buf.empty > 0;
        e := SendStep(t);
      }
    }
  }

  // ----- Whole runs -----

  predicate AllTraffic(es: seq<Event>) {
    forall k :: 0 <= k < |es| ==> Traffic(es[k])
  }

  lemma {:induction false} RunLength(s: State, es: seq<Event>)
    requires Inv(s) && s.dtor == Alive && AllTraffic(es) && CanRun(s, es)
    ensures var s' := After(s, es);
      && Inv(s') && s'.dtor == Alive && s'.past.posts == s.past.posts
      && s.past.throws <= s'.past.throws
      && Measure(s') + |es| <= Measure(s)
      && (s'.past.throws == s.past.throws ==> Measure(s') + |es| == Measure(s))
      && |s'.senders| == |s.senders|
      && forall t :: 0 <= t < |s.senders| ==> s'.senders[t].program == s.senders[t].program
    decreases |es|
  {
    RunKeepsInv(s, es);
    if es != [] {
      var before := es[..|es| - 1];
      RunLength(s, before);
      StepDropsMeasure(After(s, before), es[|es| - 1]);
    }
  }

  function MessageCount(programs: seq<seq<Packet>>): nat {
    if programs == [] then 0
    else MessageCount(programs[..|programs| - 1]) + |programs[|programs| - 1]|
  }

  lemma {:induction false} StartWork(programs: seq<seq<Packet>>)
    ensures Sum(Work, Start(programs)) == 11 * MessageCount(programs)
  {
    if programs != [] {
      var init := programs[..|programs| - 1];
      StartWork(init);
      SumToSame(Work, Start(programs), Start(init), |init|);
    }
  }

  // ----- The exact cause of a throw -----

  // Every packet that was copied in or thrown did fit.
  ghost predicate DoneFit(s: State) {
    forall t, k :: 0 <= t < |s.senders| && 0 <= k < s.senders[t].next && k < |s.senders[t].program| ==>
      Fits(s.senders[t].program[k])
  }

  // A throw happened exactly if a packet that some thread has tried to send
  // does not fit.
  ghost predicate Explained(s: State) {
    s.past.throws == 0 <==> DoneFit(s)
  }

  lemma SendKeepsCause(s: State, t: nat)
    requires SendEnabled(s, t) && Explained(s)
    ensures Explained(SendNext(s, t))
  {
    var s' := SendNext(s, t);
    var me := s.senders[t];
    if me.pc == InLock {
      assert s'.senders[t].program[me.next] == me.program[me.next];
      if Fits(me.program[me.next]) && !DoneFit(s) {
        var u, k :| 0 <= u < |s.senders| && 0 <= k < s.senders[u].next && k < |s.senders[u].program|
                    && !Fits(s.senders[u].program[k]);
        assert !Fits(s'.senders[u].program[k]);
      }
    } else {
      assert forall u :: 0 <= u < |s.senders| ==>
        s'.senders[u].next == s.senders[u].next && s'.senders[u].program == s.senders[u].program;
    }
  }

  lemma StepKeepsExplained(s: State, e: Event)
    requires Explained(s) && Enabled(s, e)
    ensures Explained(Next(s, e))
  {
    match e
    case SendStep(t) => SendKeepsCause(s, t);
    case Spawn(program) => assert s.senders == (s.senders + [Sender(Ready, program, 0)])[..|s.senders|];
    case _ =>
  }

  lemma {:induction false} RunKeepsExplained(programs: seq<seq<Packet>>, es: seq<Event>)
    requires CanRun(Init(programs), es)
    ensures Explained(After(Init(programs), es))
    decreases |es|
  {
    if es != [] {
      RunKeepsExplained(programs, es[..|es| - 1]);
      StepKeepsExplained(After(Init(programs), es[..|es| - 1]), es[|es| - 1]);
    }
  }

  // ----- Every complete run -----

  predicate AllFit(programs: seq<seq<Packet>>) {
    forall t, k :: 0 <= t < |programs| && 0 <= k < |programs[t]| ==> Fits(programs[t][k])
  }

  // No sender and no receiver can go on.
  ghost predicate Complete(s: State) {
    forall e :: Traffic(e) ==> !Enabled(s, e)
  }

  // For all programs: a run has at most 11 steps per message, and one that no
  // thread can extend has ended in a throw exactly if some packet of some
  // program does not fit.
  lemma CompleteRunThrowsExactlyWhenUnfit(programs: seq<seq<Packet>>, es: seq<Event>)
    requires AllTraffic(es) && CanRun(Init(programs), es)
    ensures |es| <= 11 * MessageCount(programs)
    ensures Complete(After(Init(programs), es)) ==>
      (After(Init(programs), es).past.throws == 1 <==> !AllFit(programs))
  {
    var s0 := Init(programs);
    var s := After(s0, es);
    InitInv(programs);
    RunLength(s0, es);
    StartWork(programs);
    RunKeepsExplained(programs, es);
    if s.past.throws == 0 && Complete(s) {
      if Measure(s) > 0 {
        var e := NeverStuck(s);
      }
      NothingLeft(s);
      assert forall t :: 0 <= t < |programs| ==> s.senders[t].program == programs[t];
    } else if s.past.throws != 0 {
      assert s.past.throws == 1;
      FitsProgram(s, programs);
    }
  }

  lemma FitsProgram(s: State, programs: seq<seq<Packet>>)
    requires |s.senders| == |programs|
    requires forall t :: 0 <= t < |programs| ==> s.senders[t].program == programs[t]
    ensures AllFit(programs) ==> DoneFit(s)
  {}

  // With messages that fit: a run is complete exactly when it has 11 steps
  // per message, and it has then delivered every message of every thread, in
  // that thread's order, exactly once.
  lemma EveryRunDelivers(programs: seq<seq<Packet>>, es: seq<Event>)
    requires AllFit(programs)
    requires AllTraffic(es) && CanRun(Init(programs), es)
    ensures |es| <= 11 * MessageCount(programs)
    ensures Complete(After(Init(programs), es)) <==> |es| == 11 * MessageCount(programs)
    ensures Complete(After(Init(programs), es)) ==>
      var s := After(Init(programs), es);
      && |s.senders| == |programs|
      && s.past.delivered == Texts(s.past.written)
      && forall t :: 0 <= t < |programs| ==> FromThread(s.past.written, t) == FittingTexts(programs[t])
  {
    var s0 := Init(programs);
    var s := After(s0, es);
    InitFifo(programs);
    RunLength(s0, es);
    StartWork(programs);
    RunKeepsExplained(programs, es);
    FitsProgram(s, programs);
    if Measure(s) > 0 {
      var e := NeverStuck(s);
    } else {
      NothingLeft(s);
      RunKeepsFifo(s0, es);
      ProgramOrder(programs, es);
      assert s.past.written[..|s.past.delivered|] == s.past.written;
      forall t | 0 <= t < |programs| ensures FromThread(s.past.written, t) == FittingTexts(programs[t]) {
        assert s.senders[t].program == s0.senders[t].program;
        assert s.senders[t].program[..s.senders[t].next] == programs[t];
      }
    }
  }

  // A throw ends all traffic: one thread's packet cannot be serialized, and
  // the "a" of another thread is never sent.
  lemma ThrowStopsTheOthers() returns (es: seq<Event>)
    ensures var s0 := Init([[None], [Some("a")]]);
      && AllTraffic(es) && CanRun(s0, es)
      && After(s0, es).past.throws == 1 && Complete(After(s0, es))
      && |After(s0, es).senders| == 2 && After(s0, es).senders[1].next == 0 && After(s0, es).past.written == []
  {
    var s0 := Init([[None], [Some("a")]]);
    var s;
    es, s := Do(s0, [], s0, SendStep(0));
    es, s := Do(s0, es, s, SendStep(0));
    es, s := Do(s0, es, s, SendStep(0));
    assert s.senders[1] == Sender(Ready, [Some("a")], 0);
  }

  lemma NothingLeft(s: State)
    requires Inv(s) && s.dtor == Alive && Measure(s) == 0
    ensures forall t :: 0 <= t < |s.senders| ==>
      s.senders[t].pc == Ready && s.senders[t].next == |s.senders[t].program|
    ensures s.buf.full == 0 && s.recv == Waiting && Sum(Written, s.senders) == 0
    ensures Complete(s)
  {
    forall t | 0 <= t < |s.senders|
      ensures s.senders[t].pc == Ready && s.senders[t].next == |s.senders[t].program|
    {
      SumAt(Work, s.senders, t);
    }
    SumZero(Written, s.senders);
  }
}
