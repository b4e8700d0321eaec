// What a shutdown leaves behind for the next endpoint on the same memory.
// The receiver returns the slot token of the wake-up it used to stop, so an
// unread message can be overwritten, and the spare sem_full token makes the
// receiver read one message twice. Losses and repeats match each other.
module ChannelReopen {
  import opened Wrappers
  import opened Sums
  import opened Wire
  import opened SendProtocol
  import opened Channel
  import opened ChannelFifo

  // ----- Accounting for losses and repeats -----

  // Whether the latest text copied in is still unread, how many texts were
  // overwritten unread, and how many reads found a text already read.
  datatype Account = Account(unread: bool, overwritten: nat, repeated: nat)

  function Book(a: Account, s: State, e: Event): Account
    requires Enabled(s, e)
  {
    var s' := Next(s, e);
    if |s'.past.written| > |s.past.written| then
      a.(unread := true, overwritten := a.overwritten + if a.unread then 1 else 0)
    else if |s'.past.delivered| > |s.past.delivered| then
      a.(unread := false, repeated := a.repeated + if a.unread then 0 else 1)
    else a
  }

  function Accounts(s: State, es: seq<Event>): Account
    requires CanRun(s, es)
    decreases |es|
  {
    if es == [] then Account(false, 0, 0)
    else Book(Accounts(s, es[..|es| - 1]), After(s, es[..|es| - 1]), es[|es| - 1])
  }

  function DestructorPosted(d: DtorPc): nat { if d == Posted || d == Joined || d == Gone then 1 else 0 }

  function Stopped(r: RecvPc): nat { if r == Leaving(true) || r == Releasing(true) || r == Exited then 1 else 0 }

  // Every sem_full token stands for a text copied in or for the destructor at
  // work, whatever destructors ran before; and the buffer shows the latest
  // text.
  ghost predicate Flow(s: State) {
    && |s.past.written| + DestructorPosted(s.dtor)
       == |s.past.delivered| + s.buf.full + Sum(Written, s.senders) + RecvUnread(s.recv) + Stopped(s.recv)
    && (s.past.written != [] ==> Cut(s.buf.buffer) == Cut(s.past.written[|s.past.written| - 1].1))
  }

  lemma SendKeepsFlow(s: State, t: nat)
    requires Inv(s) && Flow(s) && SendEnabled(s, t)
    ensures Flow(SendNext(s, t))
  {
    var me := s.senders[t];
    SumUpdate(Written, s.senders, t, SendNext(s, t).senders[t]);
    if me.pc == InLock && Fits(me.program[me.next]) {
      TransferExact(s.buf.buffer, me.program[me.next].value);
    }
  }

  lemma ReceiveKeepsFlow(s: State)
    requires Inv(s) && Flow(s) && ReceiveEnabled(s)
    ensures Flow(ReceiveNext(s))
  {}

  lemma StepKeepsFlow(s: State, e: Event)
    requires Inv(s) && Flow(s) && Enabled(s, e)
    ensures Flow(Next(s, e))
  {
    match e
    case SendStep(t) => SendKeepsFlow(s, t);
    case ReceiveStep => ReceiveKeepsFlow(s);
    case Spawn(program) => SumAppend(Written, s.senders, Sender(Ready, program, 0));
    case _ =>
  }

  lemma {:induction false} RunKeepsFlow(programs: seq<seq<Packet>>, es: seq<Event>)
    requires CanRun(Init(programs), es)
    ensures Inv(After(Init(programs), es)) && Flow(After(Init(programs), es))
    decreases |es|
  {
    InitFifo(programs);
    if es != [] {
      RunKeepsFlow(programs, es[..|es| - 1]);
      StepKeepsFlow(After(Init(programs), es[..|es| - 1]), es[|es| - 1]);
      StepKeepsInv(After(Init(programs), es[..|es| - 1]), es[|es| - 1]);
    }
  }

  // Over every run, with any number of destructors, reopenings and throws:
  // deliveries never exceed writes, and each one is of the latest text.
  lemma DeliveriesNeverExceedWrites(programs: seq<seq<Packet>>, es: seq<Event>)
    requires CanRun(Init(programs), es)
    ensures var s := After(Init(programs), es);
      && |s.past.delivered| <= |s.past.written|
      && (s.recv == Handling ==>
            && |s.past.delivered| < |s.past.written|
            && Cut(s.buf.buffer) == Cut(s.past.written[|s.past.written| - 1].1))
  {
    RunKeepsFlow(programs, es);
  }

  // A text copied in is lost by being overwritten, or read once, or again.
  predicate Balanced(a: Account, past: Past) {
    && |past.written| + a.repeated == |past.delivered| + a.overwritten + (if a.unread then 1 else 0)
    && |past.delivered| <= |past.written|
    && (a.unread ==> |past.written| > |past.delivered|)
  }

  lemma StepKeepsBalance(a: Account, s: State, e: Event)
    requires Enabled(s, e) && Balanced(a, s.past)
    requires Inv(Next(s, e)) && Flow(Next(s, e))
    ensures Balanced(Book(a, s, e), Next(s, e).past)
  {}

  lemma {:induction false} RunKeepsBalance(programs: seq<seq<Packet>>, es: seq<Event>)
    requires CanRun(Init(programs), es)
    ensures Balanced(Accounts(Init(programs), es), After(Init(programs), es).past)
    decreases |es|
  {
    if es != [] {
      var before := es[..|es| - 1];
      RunKeepsBalance(programs, before);
      RunKeepsFlow(programs, es);
      StepKeepsBalance(Accounts(Init(programs), before), After(Init(programs), before), es[|es| - 1]);
    }
  }

  // Over every run, once all has come to rest, there were exactly as many
  // repeats as losses and the latest text was read.
  lemma LossesMatchRepeats(programs: seq<seq<Packet>>, es: seq<Event>)
    requires CanRun(Init(programs), es)
    ensures var s, a := After(Init(programs), es), Accounts(Init(programs), es);
      && Balanced(a, s.past)
      && (Settled(s) && s.buf.full == 0 ==>
            a.overwritten == a.repeated && !a.unread && |s.past.written| == |s.past.delivered|)
  {
    RunKeepsBalance(programs, es);
    RunKeepsFlow(programs, es);
    if Settled(After(Init(programs), es)) {
      SumZero(Written, After(Init(programs), es).senders);
    }
  }

  // Before any destructor begins, neither happens.
  lemma {:induction false} QuietLosesNothing(programs: seq<seq<Packet>>, es: seq<Event>)
    requires CanRun(Init(programs), es) && Quiet(After(Init(programs), es))
    ensures Accounts(Init(programs), es).overwritten == 0 && Accounts(Init(programs), es).repeated == 0
    decreases |es|
  {
    if es != [] {
      var before := es[..|es| - 1];
      var s := After(Init(programs), before);
      InitFifo(programs);
      RunKeepsInv(Init(programs), before);
      QuietBefore(s, es[|es| - 1]);
      QuietLosesNothing(programs, before);
      RunKeepsFifo(Init(programs), before);
      RunKeepsBalance(programs, before);
      match es[|es| - 1] {
        case SendStep(t) =>
          if s.senders[t].pc == InLock {
            WriterFindsBufferFree(s, t);
          }
        case _ =>
      }
    }
  }

  // ----- A run that loses and repeats -----

  function SendEvents(t: nat): seq<Event> {
    [SendStep(t), SendStep(t), SendStep(t), SendStep(t), SendStep(t)]
  }

  const RECEIVE_EVENTS := [ReceiveStep, ReceiveStep, ReceiveStep, ReceiveStep, ReceiveStep, ReceiveStep]

  // A call of send by thread t up to the copy.
  lemma SendCopies(s0: State, es: seq<Event>, s: State, t: nat) returns (es': seq<Event>, s': State)
    requires At(s0, es, s)
    requires t < |s.senders| && s.senders[t].pc == Ready && s.senders[t].next < |s.senders[t].program|
    requires Fits(s.senders[t].program[s.senders[t].next])
    requires s.buf.empty > 0 && s.buf.mutex == 1 && |s.buf.buffer| == MAX_MESSAGE_SIZE
    ensures At(s0, es', s') && es' == es + [SendStep(t), SendStep(t), SendStep(t)]
    ensures var me := s.senders[t];
      var text := me.program[me.next].value;
      s' == s.(buf := s.buf.(empty := s.buf.empty - 1, mutex := 0, buffer := CopyIn(s.buf.buffer, text)),
               past := s.past.(written := s.past.written + [(t, text)]),
               senders := s.senders[t := me.(pc := Copied, next := me.next + 1)])
  {
    es', s' := Do(s0, es, s, SendStep(t));
    es', s' := Do(s0, es', s', SendStep(t));
    es', s' := Do(s0, es', s', SendStep(t));
  }

  // A whole call of send by thread t.
  lemma SendCall(s0: State, es: seq<Event>, s: State, t: nat) returns (es': seq<Event>, s': State)
    requires At(s0, es, s)
    requires t < |s.senders| && s.senders[t].pc == Ready && s.senders[t].next < |s.senders[t].program|
    requires Fits(s.senders[t].program[s.senders[t].next])
    requires s.buf.empty > 0 && s.buf.mutex == 1 && |s.buf.buffer| == MAX_MESSAGE_SIZE
    ensures At(s0, es', s') && es' == es + SendEvents(t)
    ensures var me := s.senders[t];
      var text := me.program[me.next].value;
      s' == s.(buf := s.buf.(empty := s.buf.empty - 1, full := s.buf.full + 1, buffer := CopyIn(s.buf.buffer, text)),
               past := s.past.(written := s.past.written + [(t, text)]),
               senders := s.senders[t := me.(next := me.next + 1)])
  {
    es', s' := SendCopies(s0, es, s, t);
    es', s' := Do(s0, es', s', SendStep(t));
    es', s' := Do(s0, es', s', SendStep(t));
  }

  // A whole pass of the receive loop.
  lemma ReceivePass(s0: State, es: seq<Event>, s: State) returns (es': seq<Event>, s': State)
    requires At(s0, es, s)
    requires s.recv == Waiting && s.buf.full > 0 && s.buf.mutex == 1 && !s.buf.shutdown
    ensures At(s0, es', s') && es' == es + RECEIVE_EVENTS
    ensures s' == s.(buf := s.buf.(full := s.buf.full - 1, empty := s.buf.empty + 1),
                     past := s.past.(delivered := s.past.delivered + [Cut(s.buf.buffer)]))
  {
    es', s' := Do(s0, es, s, ReceiveStep);
    es', s' := Do(s0, es', s', ReceiveStep);
    es', s' := Do(s0, es', s', ReceiveStep);
    es', s' := Do(s0, es', s', ReceiveStep);
    es', s' := Do(s0, es', s', ReceiveStep);
    es', s' := Do(s0, es', s', ReceiveStep);
  }

  // The receiver's last pass, with the flag up.
  lemma StopPass(s0: State, es: seq<Event>, s: State) returns (es': seq<Event>, s': State)
    requires At(s0, es, s)
    requires s.recv == Waiting && s.buf.full > 0 && s.buf.mutex == 1 && s.buf.shutdown
    ensures At(s0, es', s')
    ensures s' == s.(buf := s.buf.(full := s.buf.full - 1, empty := s.buf.empty + 1), recv := Exited)
  {
    es', s' := Do(s0, es, s, ReceiveStep);
    es', s' := Do(s0, es', s', ReceiveStep);
    es', s' := Do(s0, es', s', ReceiveStep);
    es', s' := Do(s0, es', s', ReceiveStep);
    es', s' := Do(s0, es', s', ReceiveStep);
  }

  // Destruction of an idle endpoint and construction of the next one.
  lemma Replace(s0: State, es: seq<Event>, s: State) returns (es': seq<Event>, s': State)
    requires At(s0, es, s)
    requires s.dtor == Alive && s.recv == Waiting && s.buf.mutex == 1 && !s.buf.shutdown
    ensures At(s0, es', s')
    ensures s' == s.(buf := s.buf.(empty := s.buf.empty + 1), past := s.past.(posts := s.past.posts + 1))
  {
    es', s' := Do(s0, es, s, DestroyStep);
    es', s' := Do(s0, es', s', DestroyStep);
    es', s' := StopPass(s0, es', s');
    es', s' := Do(s0, es', s', DestroyStep);
    es', s' := Do(s0, es', s', DestroyStep);
    es', s' := Do(s0, es', s', Reopen);
  }

  // One thread sends "a" and then "b"; between the two the receiving endpoint
  // is replaced. "a" is lost and "b" is received twice.
  lemma ReplacingLosesAndDuplicates() returns (es: seq<Event>)
    ensures var s0 := Init([[Some("a"), Some("b")]]);
      && CanRun(s0, es)
      && After(s0, es).past.written == [(0, "a"), (0, "b")]
      && After(s0, es).past.delivered == ["b", "b"]
  {
    var s0 := Init([[Some("a"), Some("b")]]);
    var s;
    es, s := SendCall(s0, [], s0, 0);
    es, s := Replace(s0, es, s);
    es, s := SendCall(s0, es, s, 0);
    TransferExact(CopyIn(s0.buf.buffer, "a"), "b");
    es, s := ReceivePass(s0, es, s);
    es, s := ReceivePass(s0, es, s);
  }

  // If the next receiver gets to read "a" before "b" is copied in, the same
  // replacement loses nothing.
  lemma ReplacingCanBeHarmless() returns (es: seq<Event>)
    ensures var s0 := Init([[Some("a"), Some("b")]]);
      && CanRun(s0, es)
      && After(s0, es).past.posts == 1
      && After(s0, es).past.written == [(0, "a"), (0, "b")]
      && After(s0, es).past.delivered == ["a", "b"]
  {
    var s0 := Init([[Some("a"), Some("b")]]);
    var s;
    es, s := SendCall(s0, [], s0, 0);
    es, s := Replace(s0, es, s);
    TransferExact(s0.buf.buffer, "a");
    es, s := ReceivePass(s0, es, s);
    TransferExact(s.buf.buffer, "b");
    es, s := SendCall(s0, es, s, 0);
    es, s := ReceivePass(s0, es, s);
  }

  // ----- When an unread message can be overwritten -----

  // No thread is inside send, the receiver waits, no destructor is at work.
  predicate Settled(s: State) {
    && s.dtor == Alive && s.recv == Waiting
    && forall t :: 0 <= t < |s.senders| ==> s.senders[t].pc == Ready
  }

  predicate NoDestructor(es: seq<Event>) {
    forall k :: 0 <= k < |es| ==> es[k].SendStep? || es[k].ReceiveStep? || es[k].Spawn?
  }

  lemma Unroll(s0: State, past: seq<Event>, es: seq<Event>)
    requires es != [] && CanRun(s0, past + es)
    ensures CanRun(s0, past + es[..|es| - 1])
    ensures var s := After(s0, past + es[..|es| - 1]);
      && Enabled(s, es[|es| - 1])
      && After(s0, past + es) == Next(s, es[|es| - 1])
      && Accounts(s0, past + es) == Book(Accounts(s0, past + es[..|es| - 1]), s, es[|es| - 1])
  {
    assert (past + es)[..|past + es| - 1] == past + es[..|es| - 1];
  }

  lemma QuietGoesOn(s: State, e: Event)
    requires Quiet(s) && Enabled(s, e) && (e.SendStep? || e.ReceiveStep? || e.Spawn?)
    ensures Quiet(Next(s, e))
  {}

  lemma {:induction false} StaysQuiet(s0: State, past: seq<Event>, es: seq<Event>)
    requires CanRun(s0, past) && Quiet(After(s0, past))
    requires NoDestructor(es) && CanRun(s0, past + es)
    ensures Quiet(After(s0, past + es))
    decreases |es|
  {
    if es == [] {
      assert past + es == past;
    } else {
      Unroll(s0, past, es);
      StaysQuiet(s0, past, es[..|es| - 1]);
      QuietGoesOn(After(s0, past + es[..|es| - 1]), es[|es| - 1]);
    }
  }

  lemma {:induction false} StaysFrozen(s0: State, past: seq<Event>, es: seq<Event>)
    requires Inv(s0) && CanRun(s0, past) && After(s0, past).past.throws == 1 && CanRun(s0, past + es)
    ensures After(s0, past + es).past.throws == 1 && Accounts(s0, past + es) == Accounts(s0, past)
    decreases |es|
  {
    if es == [] {
      assert past + es == past;
    } else {
      Unroll(s0, past, es);
      StaysFrozen(s0, past, es[..|es| - 1]);
      RunKeepsInv(s0, past + es[..|es| - 1]);
      ThrownStep(After(s0, past + es[..|es| - 1]), es[|es| - 1]);
    }
  }

  // An idle buffer has one slot token for each message it can take, and one
  // more for every destructor that ran on it.
  lemma SettledTokens(s: State)
    requires Inv(s) && Settled(s) && s.past.throws == 0
    ensures s.buf.empty + s.buf.full == 1 + s.past.posts && s.buf.mutex == 1 && !s.buf.shutdown
  {
    SumZero(Unwritten, s.senders);
    SumZero(Written, s.senders);
    SumZero(Holding, s.senders);
  }

  lemma SettledPass(programs: seq<seq<Packet>>, es: seq<Event>, s: State)
    returns (es': seq<Event>, s': State)
    requires At(Init(programs), es, s) && Settled(s) && s.past.throws == 0 && s.buf.full > 0
    ensures At(Init(programs), es', s') && es' == es + RECEIVE_EVENTS
    ensures Settled(s') && s'.past.throws == 0 && s'.past.posts == s.past.posts && s'.buf.full == s.buf.full - 1
  {
    RunKeepsFlow(programs, es);
    SettledTokens(s);
    es', s' := ReceivePass(Init(programs), es, s);
  }

  // The receiver reads until no token is left.
  lemma {:induction false} Drain(programs: seq<seq<Packet>>, es: seq<Event>, s: State)
    returns (more: seq<Event>, s': State)
    requires At(Init(programs), es, s) && Settled(s) && s.past.throws == 0
    ensures NoDestructor(more) && At(Init(programs), es + more, s')
    ensures Settled(s') && s'.past.throws == 0 && s'.past.posts == s.past.posts && s'.buf.full == 0
    decreases s.buf.full
  {
    if s.buf.full == 0 {
      more, s' := [], s;
      assert es + more == es;
    } else {
      var es1, s1 := SettledPass(programs, es, s);
      var rest;
      rest, s' := Drain(programs, es1, s1);
      more := RECEIVE_EVENTS + rest;
      assert es + more == es1 + rest;
    }
  }

  // A new thread then sends twice before the receiver reads.
  lemma SendTwice(s0: State, es: seq<Event>, s: State) returns (more: seq<Event>)
    requires At(s0, es, s) && s.buf.empty >= 2 && s.buf.mutex == 1 && |s.buf.buffer| == MAX_MESSAGE_SIZE
    ensures NoDestructor(more) && CanRun(s0, es + more)
    ensures |After(s0, es + more).past.written| == |s.past.written| + 2
    ensures After(s0, es + more).past.delivered == s.past.delivered
  {
    var t := |s.senders|;
    var es', s' := Do(s0, es, s, Spawn([Some("a"), Some("b")]));
    es', s' := SendCall(s0, es', s', t);
    es', s' := SendCall(s0, es', s', t);
    more := [Spawn([Some("a"), Some("b")])] + SendEvents(t) + SendEvents(t);
    assert es + more == es';
  }

  lemma {:induction false} AccountsGrow(s0: State, past: seq<Event>, es: seq<Event>)
    requires CanRun(s0, past) && CanRun(s0, past + es)
    ensures Accounts(s0, past).overwritten <= Accounts(s0, past + es).overwritten
    ensures Accounts(s0, past).repeated <= Accounts(s0, past + es).repeated
    decreases |es|
  {
    if es == [] {
      assert past + es == past;
    } else {
      Unroll(s0, past, es);
      AccountsGrow(s0, past, es[..|es| - 1]);
    }
  }

  lemma OverwriteRun(programs: seq<seq<Packet>>, past: seq<Event>, s: State) returns (es: seq<Event>)
    requires At(Init(programs), past, s) && Settled(s) && s.past.throws == 0 && s.past.posts > 0
    ensures NoDestructor(es) && CanRun(Init(programs), past + es)
    ensures Accounts(Init(programs), past + es).overwritten > Accounts(Init(programs), past).overwritten
    ensures var s' := After(Init(programs), past + es); |s'.past.written| >= |s'.past.delivered| + 2
  {
    var more, drained := Drain(programs, past, s);
    RunKeepsFlow(programs, past + more);
    SettledTokens(drained);
    var twice := SendTwice(Init(programs), past + more, drained);
    es := more + twice;
    assert past + es == past + more + twice;
    LossesMatchRepeats(programs, past + more);
    RunKeepsBalance(programs, past + es);
    AccountsGrow(Init(programs), past, more);
    AccountsGrow(Init(programs), past + more, twice);
  }

  // From every state in which no thread is inside send, whatever was sent,
  // read or left behind before: without a further destructor an unread
  // message can be overwritten exactly when an endpoint on this buffer was
  // destroyed before and no send has thrown.
  lemma OverwriteExactlyAfterDestructor(programs: seq<seq<Packet>>, past: seq<Event>)
    requires CanRun(Init(programs), past) && Settled(After(Init(programs), past))
    ensures var s0, s := Init(programs), After(Init(programs), past);
      (exists es :: NoDestructor(es) && CanRun(s0, past + es)
                    && Accounts(s0, past + es).overwritten > Accounts(s0, past).overwritten)
      <==> s.past.posts > 0 && s.past.throws == 0
  {
    var s0, s := Init(programs), After(Init(programs), past);
    RunKeepsFlow(programs, past);
    InitInv(programs);
    if s.past.throws > 0 {
      forall es | NoDestructor(es) && CanRun(s0, past + es)
        ensures Accounts(s0, past + es) == Accounts(s0, past)
      {
        StaysFrozen(s0, past, es);
      }
    } else if s.past.posts == 0 {
      forall es | NoDestructor(es) && CanRun(s0, past + es)
        ensures Accounts(s0, past + es).overwritten == 0
      {
        StaysQuiet(s0, past, es);
        QuietLosesNothing(programs, past + es);
      }
    } else {
      var es := OverwriteRun(programs, past, s);
    }
  }

  // The same for two messages in flight: the buffer of one message can hold
  // two undelivered ones exactly when a destructor ran before.
  lemma TwoPendingExactlyAfterDestructor(programs: seq<seq<Packet>>, past: seq<Event>)
    requires CanRun(Init(programs), past) && Settled(After(Init(programs), past))
    requires After(Init(programs), past).past.throws == 0
    ensures var s0, s := Init(programs), After(Init(programs), past);
      (exists es :: NoDestructor(es) && CanRun(s0, past + es)
                    && |After(s0, past + es).past.written| >= |After(s0, past + es).past.delivered| + 2)
      <==> s.past.posts > 0
  {
    var s0, s := Init(programs), After(Init(programs), past);
    RunKeepsFlow(programs, past);
    InitFifo(programs);
    if s.past.posts == 0 {
      forall es | NoDestructor(es) && CanRun(s0, past + es)
        ensures |After(s0, past + es).past.written| < |After(s0, past + es).past.delivered| + 2
      {
        StaysQuiet(s0, past, es);
        RunKeepsFifo(s0, past + es);
      }
    } else {
      var es := OverwriteRun(programs, past, s);
    }
  }
}
