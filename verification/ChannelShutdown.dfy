// ~Endpoint against concurrent senders: after the flag is set and sem_full is
// posted, the receive loop ends and join returns; a throw inside send is the
// one thing that can prevent it.
module ChannelShutdown {
  import opened Wrappers
  import opened Sums
  import opened Channel
  import opened ChannelLiveness

  // The receiver's own steps to its loop exit, with the flag up.
  function OwnSteps(r: RecvPc): nat {
    match r
    case Waiting => 5
    case Woken => 4
    case Checking => 3
    case Handling => 8
    case Leaving(stop) => if stop then 2 else 7
    case Releasing(stop) => if stop then 1 else 6
    case Exited => 0
  }

  lemma {:induction false} FlagStaysUp(s: State, es: seq<Event>)
    requires Inv(s) && s.dtor == Posted && AllTraffic(es) && CanRun(s, es)
    ensures Inv(After(s, es))
    ensures After(s, es).dtor == Posted && After(s, es).past.posts == s.past.posts
    decreases |es|
  {
    RunKeepsInv(s, es);
    if es != [] {
      FlagStaysUp(s, es[..|es| - 1]);
    }
  }

  function OwnStepsIn(es: seq<Event>): nat {
    if es == [] then 0
    else OwnStepsIn(es[..|es| - 1]) + if es[|es| - 1] == ReceiveStep then 1 else 0
  }

  lemma WindDownStep(s: State, e: Event)
    requires Inv(s) && s.dtor == Posted && Traffic(e) && Enabled(s, e)
    ensures OwnSteps(Next(s, e).recv) + (if e == ReceiveStep then 1 else 0) == OwnSteps(s.recv)
    ensures Next(s, e).recv == Handling ==> s.recv == Handling && e != ReceiveStep
    ensures s.recv == Handling && e == ReceiveStep ==>
      |Next(s, e).past.delivered| == |s.past.delivered| + 1 && Next(s, e).recv != Handling
    ensures s.recv != Handling || e != ReceiveStep ==> Next(s, e).past.delivered == s.past.delivered
  {}

  // Whatever the senders do, each step of the receiver takes it one step
  // nearer its exit, at most eight in all, and it delivers at most the one
  // message it was already handling.
  lemma {:induction false} ReceiverWindsDown(s: State, es: seq<Event>)
    requires Inv(s) && s.dtor == Posted && AllTraffic(es) && CanRun(s, es)
    ensures OwnSteps(After(s, es).recv) + OwnStepsIn(es) == OwnSteps(s.recv) <= 8
    ensures After(s, es).past.delivered == s.past.delivered
            || (s.recv == Handling && |After(s, es).past.delivered| == |s.past.delivered| + 1)
    ensures After(s, es).recv == Handling ==>
      s.recv == Handling && After(s, es).past.delivered == s.past.delivered
    decreases |es|
  {
    if es != [] {
      var before := es[..|es| - 1];
      ReceiverWindsDown(s, before);
      FlagStaysUp(s, before);
      WindDownStep(After(s, before), es[|es| - 1]);
    }
  }

  // ----- Termination under every schedule -----

  function SendLeft(c: Sender): nat {
    match c.pc
    case Ready => 0
    case HasSlot => 4
    case InLock => 3
    case Copied => 2
    case Unlocked => 1
  }

  // Each free slot lets some sender make five steps, and each further pass
  // of the receiver frees one slot.
  function RecvLeft(r: RecvPc): nat {
    match r
    case Waiting => 10
    case Woken => 9
    case Checking => 8
    case Handling => 18
    case Leaving(stop) => if stop then 7 else 17
    case Releasing(stop) => if stop then 6 else 16
    case Exited => 0
  }

  ghost function StepsLeft(s: State): nat {
    5 * s.buf.empty + Sum(SendLeft, s.senders) + RecvLeft(s.recv)
  }

  lemma StepUsesUp(s: State, e: Event)
    requires Inv(s) && s.dtor == Posted && Traffic(e) && Enabled(s, e)
    ensures StepsLeft(Next(s, e)) < StepsLeft(s)
  {
    if e.SendStep? {
      SumUpdate(SendLeft, s.senders, e.thread, Next(s, e).senders[e.thread]);
    }
  }

  lemma {:induction false} SendLeftBound(ss: seq<Sender>, n: nat)
    requires n <= |ss|
    ensures SumTo(SendLeft, ss, n) <= 4 * (SumTo(Unwritten, ss, n) + SumTo(Written, ss, n))
  {
    if n > 0 {
      SendLeftBound(ss, n - 1);
    }
  }

  lemma {:induction false} RunUsesUp(s: State, es: seq<Event>)
    requires Inv(s) && s.dtor == Posted && AllTraffic(es) && CanRun(s, es)
    ensures StepsLeft(After(s, es)) + |es| <= StepsLeft(s)
    decreases |es|
  {
    if es != [] {
      var before := es[..|es| - 1];
      RunUsesUp(s, before);
      FlagStaysUp(s, before);
      StepUsesUp(After(s, before), es[|es| - 1]);
    }
  }

  // A posted shutdown that no throw has spoilt is never blocked: until the
  // receiver has left its loop, some thread can step.
  lemma ShutdownNotStuck(s: State) returns (e: Event)
    requires Inv(s) && s.dtor == Posted && s.past.throws == 0 && s.recv != Exited
    ensures Traffic(e) && Enabled(s, e)
  {
    e := ReceiveStep;
    if !ReceiveEnabled(s) {
      var holder := LockHolderCanStep(s);
      e := SendStep(holder);
    }
  }

  // From every reachable state of a posted shutdown, under every schedule of
  // any number of senders, the run is bounded; once no thread can step and
  // no send has thrown, the loop has ended and join returns.
  lemma JoinReturns(s: State, es: seq<Event>)
    requires Inv(s) && s.dtor == Posted && AllTraffic(es) && CanRun(s, es)
    ensures |es| <= 5 * (1 + s.past.posts) + 18
    ensures var s' := After(s, es);
      (forall e :: Traffic(e) ==> !Enabled(s', e)) && s'.past.throws == 0
      ==> s'.recv == Exited && Enabled(s', DestroyStep)
  {
    RunUsesUp(s, es);
    FlagStaysUp(s, es);
    SendLeftBound(s.senders, |s.senders|);
    var s' := After(s, es);
    if s'.past.throws == 0 && s'.recv != Exited {
      var e := ShutdownNotStuck(s');
    }
  }

  // ----- A throw and the shutdown -----

  lemma StuckAtTheLockStep(s: State, e: Event)
    requires Inv(s) && s.past.throws == 1 && Enabled(s, e)
    requires s.recv != Releasing(true) && s.recv != Exited
    ensures Next(s, e).recv != Releasing(true) && Next(s, e).recv != Exited
  {}

  lemma {:induction false} StuckAtTheLock(s: State, es: seq<Event>)
    requires Inv(s) && s.dtor == Posted && s.past.throws == 1
    requires s.recv != Releasing(true) && s.recv != Exited
    requires AllTraffic(es) && CanRun(s, es)
    ensures After(s, es).past.throws == 1 && After(s, es).recv != Releasing(true) && After(s, es).recv != Exited
    decreases |es|
  {
    if es != [] {
      var before := es[..|es| - 1];
      StuckAtTheLock(s, before);
      FlagStaysUp(s, before);
      StuckAtTheLockStep(After(s, before), es[|es| - 1]);
      ThrownStep(After(s, before), es[|es| - 1]);
    }
  }

  lemma ExitInOneStep(s: State)
    requires s.recv == Releasing(true)
    ensures AllTraffic([ReceiveStep]) && CanRun(s, [ReceiveStep]) && After(s, [ReceiveStep]).recv == Exited
  {
    assert [ReceiveStep][..0] == [];
    assert CanRun(s, []) && After(s, []) == s;
  }

  ghost predicate CanExit(s: State) {
    exists es :: AllTraffic(es) && CanRun(s, es) && After(s, es).recv == Exited
  }

  // After a throw, join can return exactly when the receiver had already
  // seen the flag: otherwise it waits for the lost mutex token for ever.
  lemma JoinAfterThrow(s: State)
    requires Inv(s) && s.dtor == Posted && s.past.throws == 1
    ensures CanExit(s) <==> s.recv == Releasing(true) || s.recv == Exited
  {
    if s.recv == Releasing(true) {
      ExitInOneStep(s);
    } else if s.recv == Exited {
      assert AllTraffic([]) && CanRun(s, []) && After(s, []).recv == Exited;
    } else {
      forall es | AllTraffic(es) && CanRun(s, es) ensures After(s, es).recv != Exited {
        StuckAtTheLock(s, es);
      }
    }
  }

  // And it does happen: a packet that cannot be serialized, then the
  // destructor, and join never returns.
  lemma ThrowMakesJoinHang() returns (es: seq<Event>)
    ensures var s0 := Init([[None]]);
      && CanRun(s0, es) && Inv(After(s0, es)) && After(s0, es).dtor == Posted
      && After(s0, es).past.throws == 1 && !CanExit(After(s0, es))
  {
    var s0 := Init([[None]]);
    var s;
    es, s := Do(s0, [], s0, SendStep(0));
    es, s := Do(s0, es, s, SendStep(0));
    es, s := Do(s0, es, s, SendStep(0));
    es, s := Do(s0, es, s, DestroyStep);
    es, s := Do(s0, es, s, DestroyStep);
    InitInv([[None]]);
    RunKeepsInv(s0, es);
    JoinAfterThrow(s);
  }
}
