// When a program can make ~Endpoint hang: exactly when one of its packets
// does not fit. Programs whose packets all fit always get their destructor
// back, under every schedule.
module ChannelHang {
  import opened SendProtocol
  import opened Channel
  import opened ChannelLiveness
  import opened ChannelShutdown

  // ----- Packets that fit never throw -----

  // Every packet of every thread there is, sent or still to be sent.
  ghost predicate PacketsFit(s: State) {
    forall t, k :: 0 <= t < |s.senders| && 0 <= k < |s.senders[t].program| ==>
      Fits(s.senders[t].program[k])
  }

  // No throw so far, and none to come from the threads there are.
  ghost predicate Safe(s: State) {
    s.past.throws == 0 && PacketsFit(s)
  }

  // Threads that join later send packets that fit as well.
  predicate SpawnsFit(e: Event) {
    e.Spawn? ==> forall k :: 0 <= k < |e.program| ==> Fits(e.program[k])
  }

  predicate AllSpawnsFit(es: seq<Event>) {
    forall k :: 0 <= k < |es| ==> SpawnsFit(es[k])
  }

  lemma StepStaysSafe(s: State, e: Event)
    requires Safe(s) && SpawnsFit(e) && Enabled(s, e)
    ensures Safe(Next(s, e))
  {
    if e.SendStep? {
      var me := s.senders[e.thread];
      assert me.pc == InLock ==> Fits(me.program[me.next]);
    }
  }

  lemma {:induction false} RunStaysSafe(s: State, es: seq<Event>)
    requires Safe(s) && AllSpawnsFit(es) && CanRun(s, es)
    ensures Safe(After(s, es))
    decreases |es|
  {
    if es != [] {
      RunStaysSafe(s, es[..|es| - 1]);
      StepStaysSafe(After(s, es[..|es| - 1]), es[|es| - 1]);
    }
  }

  // The shutdown of a safe state can be driven to its end.
  lemma {:induction false} DriveToExit(s0: State, es: seq<Event>, s: State)
    requires At(s0, es, s) && AllTraffic(es)
    requires Inv(s) && Safe(s) && s.dtor == Posted
    ensures CanExit(s0)
    decreases StepsLeft(s)
  {
    if s.recv != Exited {
      var e := ShutdownNotStuck(s);
      StepUsesUp(s, e);
      StepStaysSafe(s, e);
      StepKeepsInv(s, e);
      var es', s' := Do(s0, es, s, e);
      DriveToExit(s0, es', s');
    }
  }

  // For a caller whose packets all fit, whatever threads, destructors and
  // endpoints came before: after the destructor has posted, join can return,
  // and in every continuation nobody can extend it has returned.
  lemma FittingAlwaysJoins(programs: seq<seq<Packet>>, es: seq<Event>, more: seq<Event>)
    requires AllFit(programs) && AllSpawnsFit(es) && CanRun(Init(programs), es)
    requires After(Init(programs), es).dtor == Posted
    requires AllTraffic(more) && CanRun(After(Init(programs), es), more)
    ensures CanExit(After(Init(programs), es))
    ensures Complete(After(After(Init(programs), es), more)) ==>
      After(After(Init(programs), es), more).recv == Exited
  {
    var s := After(Init(programs), es);
    InitInv(programs);
    RunKeepsInv(Init(programs), es);
    RunStaysSafe(Init(programs), es);
    assert At(s, [], s);
    DriveToExit(s, [], s);
    RunStaysSafe(s, more);
    JoinReturns(s, more);
  }

  // ----- A packet that does not fit -----

  // Traffic can be driven to the throw.
  lemma {:induction false} DriveToThrow(s0: State, es: seq<Event>, s: State)
    returns (es': seq<Event>, s': State)
    requires AllTraffic(es) && At(s0, es, s)
    requires Inv(s) && Explained(s) && s.dtor == Alive && !PacketsFit(s)
    ensures AllTraffic(es') && At(s0, es', s')
    ensures Inv(s') && s'.dtor == Alive && s'.past.throws == 1
    decreases Measure(s)
  {
    es', s' := es, s;
    if s.past.throws == 0 {
      if Measure(s) == 0 {
        NothingLeft(s);
      }
      var e := NeverStuck(s);
      StepDropsMeasure(s, e);
      StepKeepsInv(s, e);
      StepKeepsExplained(s, e);
      TrafficKeepsPackets(s, e);
      es', s' := Do(s0, es, s, e);
      es', s' := DriveToThrow(s0, es', s');
    }
  }

  lemma TrafficKeepsPackets(s: State, e: Event)
    requires Traffic(e) && Enabled(s, e)
    ensures PacketsFit(Next(s, e)) <==> PacketsFit(s)
  {
    var s' := Next(s, e);
    assert forall t :: 0 <= t < |s.senders| ==> s'.senders[t].program == s.senders[t].program;
  }

  predicate NoSpawn(es: seq<Event>) {
    forall k :: 0 <= k < |es| ==> !es[k].Spawn?
  }

  // From here the threads there are can make a destructor hang.
  ghost predicate MayHang(s: State) {
    exists es :: NoSpawn(es) && CanRun(s, es) && After(s, es).dtor == Posted && !CanExit(After(s, es))
  }

  lemma DriveToHang(s: State)
    requires Inv(s) && Explained(s) && s.dtor == Alive && !PacketsFit(s)
    ensures MayHang(s)
  {
    assert At(s, [], s);
    var es, s' := DriveToThrow(s, [], s);
    es, s' := Do(s, es, s', DestroyStep);
    es, s' := Do(s, es, s', DestroyStep);
    RunKeepsInv(s, es);
    JoinAfterThrow(s');
    assert NoSpawn(es);
  }

  // At any moment before the destructor is called, whatever happened before,
  // calling it can hang exactly if some packet of some thread, sent or still
  // to be sent, does not fit.
  lemma MayHangExactlyWhenUnfit(programs: seq<seq<Packet>>, past: seq<Event>)
    requires CanRun(Init(programs), past) && After(Init(programs), past).dtor == Alive
    ensures MayHang(After(Init(programs), past)) <==> !PacketsFit(After(Init(programs), past))
  {
    var s := After(Init(programs), past);
    InitInv(programs);
    RunKeepsInv(Init(programs), past);
    RunKeepsExplained(programs, past);
    if PacketsFit(s) {
      forall es | NoSpawn(es) && CanRun(s, es) && After(s, es).dtor == Posted
        ensures CanExit(After(s, es))
      {
        RunStaysSafe(s, es);
        RunKeepsInv(s, es);
        assert At(After(s, es), [], After(s, es));
        DriveToExit(After(s, es), [], After(s, es));
      }
    } else {
      DriveToHang(s);
    }
  }

  // The programs of the threads decide it from the start.
  lemma HangExactlyWhenUnfit(programs: seq<seq<Packet>>)
    ensures MayHang(Init(programs)) <==> !AllFit(programs)
  {
    assert CanRun(Init(programs), []) && After(Init(programs), []) == Init(programs);
    MayHangExactlyWhenUnfit(programs, []);
    assert forall t :: 0 <= t < |programs| ==> Init(programs).senders[t].program == programs[t];
  }

  // ----- A throw before the destructor -----

  // Once send has thrown, a destructor that had not begun never gets its
  // receiver back, whatever anybody does.
  lemma {:induction false} ThrowBeforeDestructorHangs(s: State, es: seq<Event>)
    requires Inv(s) && s.dtor == Alive && s.past.throws == 1 && CanRun(s, es)
    ensures After(s, es).recv != Releasing(true) && After(s, es).recv != Exited
    ensures After(s, es).past.throws == 1 && After(s, es).dtor != Joined && After(s, es).dtor != Gone
    decreases |es|
  {
    RunKeepsInv(s, es);
    if es != [] {
      var before := es[..|es| - 1];
      ThrowBeforeDestructorHangs(s, before);
      RunKeepsInv(s, before);
      StuckAtTheLockStep(After(s, before), es[|es| - 1]);
      ThrownStep(After(s, before), es[|es| - 1]);
    }
  }
}
