// Progress of the whole request/response protocol: no deadlock, although
// async holds m_mutex across a blocking send and the client's receiver takes
// m_mutex inside its receive critical section. Workers wait for the client's
// receiver, which waits for an m_mutex, whose owner waits in send for the
// server's receiver, which never waits for any of them.
module RpcProgress {
  import opened Sums
  import opened Responses
  import opened SendProtocol
  import opened Rpc
  import opened RpcInvariant
  import opened RpcIds
  import opened RpcCompletion

  // The own steps left to each thread, counting the receiver steps and the
  // worker its message will cause: 29 steps for a whole call.
  function ClientWork(c: Client): nat {
    var left := if c.next < |c.calls| then 29 * (|c.calls| - c.next) else 0;
    if left == 0 then 0 else
      match c.pc
      case Outside => left
      case Locked => left - 1
      case Sending(Ready) => left - 2
      case Sending(HasSlot) => left - 3
      case Sending(InLock) => left - 4
      case Sending(Copied) => left - 5
      case Sending(Unlocked) => left - 6
      case Unlocking => left - 28
  }

  function ServerWork(p: ServerPc): nat {
    match p
    case SWaiting => 0
    case SWoken => 20
    case SHandling => 19
    case SLeaving => 2
    case SReleasing => 1
  }

  function WorkerWork(w: Worker): nat {
    match w.pc
    case Running => 16
    case Replying(Ready) => 15
    case Replying(HasSlot) => 14
    case Replying(InLock) => 13
    case Replying(Copied) => 12
    case Replying(Unlocked) => 11
    case Finished => 0
  }

  function ReceiverWork(p: ReceiverPc): nat {
    match p
    case CWaiting => 0
    case CWoken => 9
    case CHandling => 8
    case CLocking(_) => 7
    case CFinding(_) => 6
    case CCalling(_) => 5
    case CErasing(_) => 4
    case CUnlocking(_) => 3
    case CLeaving => 2
    case CReleasing => 1
  }

  ghost function Measure(s: State): nat {
    Sum(ClientWork, s.clients) + 21 * s.req.full + ServerWork(s.server)
    + Sum(WorkerWork, s.workers) + 10 * s.resp.full + ReceiverWork(s.receiver)
  }

  lemma ClientDropsMeasure(s: State, i: nat, id: Id)
    requires ClientEnabled(s, i, id)
    ensures Measure(ClientNext(s, i, id)) < Measure(s)
  {
    SumUpdate(ClientWork, s.clients, i, ClientNext(s, i, id).clients[i]);
  }

  lemma ServerDropsMeasure(s: State)
    requires ServerEnabled(s)
    ensures Measure(ServerNext(s)) < Measure(s)
  {
    if s.server.SHandling? {
      SumAppend(WorkerWork, s.workers, Worker(Running, s.req.buffer.value, Response("")));
    }
  }

  lemma WorkerDropsMeasure(s: State, j: nat, answer: Answer)
    requires WorkerEnabled(s, j)
    ensures Measure(WorkerNext(s, j, answer)) < Measure(s)
  {
    SumUpdate(WorkerWork, s.workers, j, WorkerNext(s, j, answer).workers[j]);
  }

  lemma ReceiverDropsMeasure(s: State)
    requires ReceiverEnabled(s)
    ensures Measure(ReceiverNext(s)) < Measure(s)
  {
    ReceiverMovesOnly(s);
  }

  lemma ReceiverMovesOnly(s: State)
    requires ReceiverEnabled(s)
    ensures var s' := ReceiverNext(s);
      && s'.clients == s.clients && s'.workers == s.workers && s'.req == s.req && s'.server == s.server
      && 10 * s'.resp.full + ReceiverWork(s'.receiver) < 10 * s.resp.full + ReceiverWork(s.receiver)
  {}

  lemma {:induction false} RunDropsMeasure(s: State, es: seq<Event>)
    requires CanRun(s, es)
    ensures Measure(After(s, es)) + |es| <= Measure(s)
    decreases |es|
  {
    if es != [] {
      var before := After(s, es[..|es| - 1]);
      RunDropsMeasure(s, es[..|es| - 1]);
      match es[|es| - 1] {
        case ClientStep(i, id) => ClientDropsMeasure(before, i, id);
        case ServerStep => ServerDropsMeasure(before);
        case WorkerStep(j, answer) => WorkerDropsMeasure(before, j, answer);
        case ReceiverStep => ReceiverDropsMeasure(before);
      }
    }
  }

  // ----- No deadlock -----

  lemma {:induction false} FreshId(used: set<Id>) returns (id: Id)
    ensures id !in used && forall u :: u in used ==> u < id
    decreases |used|
  {
    if used == {} {
      id := 0;
    } else {
      var u :| u in used;
      var rest := used - {u};
      id := FreshId(rest);
      assert used == rest + {u};
      if u >= id {
        id := u + 1;
      }
    }
  }

  // A client in the middle of send can go on, or the thread it waits for can:
  // the server's receiver, or the client holding the buffer.
  lemma SendingClientProgress(s: State, i: nat) returns (e: Event)
    requires RequestTokens(s) && Ownership(s) && s.req.lost == 0
    requires i < |s.clients| && s.clients[i].pc.Sending?
    requires s.server.SHandling? ==> s.req.buffer.Some?
    ensures Enabled(s, e)
  {
    assert ClientOk(s, i);
    if ClientEnabled(s, i, 0) {
      e := ClientStep(i, 0);
    } else if ServerEnabled(s) {
      e := ServerStep;
    } else if s.clients[i].pc.at == Ready {
      // Nobody has the free slot, so a client in flight has it.
      e := SlotHolderProgress(s);
    } else {
      e := RequestLockProgress(s);
    }
  }

  lemma RequestLockProgress(s: State) returns (e: Event)
    requires RequestTokens(s) && Ownership(s) && s.req.lost == 0 && s.req.mutex == 0 && ServerHolding(s.server) == 0
    ensures Enabled(s, e)
  {
    var h := SumWitness(ClientHolding, s.clients);
    assert ClientOk(s, h);
    e := ClientStep(h, 0);
  }

  lemma SlotHolderProgress(s: State) returns (e: Event)
    requires RequestTokens(s) && Ownership(s) && s.req.lost == 0 && s.req.empty == 0 && !ServerEnabled(s)
    requires s.server.SHandling? ==> s.req.buffer.Some?
    ensures Enabled(s, e)
  {
    if s.server == SWoken {
      e := RequestLockProgress(s);
    } else {
      var h;
      if Sum(ClientUnwritten, s.clients) > 0 {
        h := SumWitness(ClientUnwritten, s.clients);
      } else {
        h := SumWitness(ClientWritten, s.clients);
      }
      assert ClientOk(s, h);
      if ClientEnabled(s, h, 0) {
        e := ClientStep(h, 0);
      } else {
        e := RequestLockProgress(s);
      }
    }
  }

  // If nothing has thrown: whoever owns an m_mutex, some thread can step.
  lemma OwnerProgress(s: State, a: Act) returns (e: Event)
    requires Inv(s) && s.req.lost == 0 && a in s.owner
    ensures Enabled(s, e)
  {
    assert OwnerOk(s, a);
    match s.owner[a] {
      case ByReceiver => e := ReceiverStep;
      case ByClient(i) =>
        match s.clients[i].pc {
          case Locked =>
            var id := FreshId(s.past.issued.Keys);
            e := ClientStep(i, id);
          case Sending(_) =>
            if s.server.SHandling? {
              ServerReadsUnread(s);
            }
            e := SendingClientProgress(s, i);
          case Unlocking => e := ClientStep(i, 0);
        }
    }
  }

  // The same for the response buffer: what waits there waits for a worker or
  // for the client's receiver, which waits at most for an m_mutex.
  lemma ReceiverProgress(s: State) returns (e: Event)
    requires Inv(s) && (s.req.lost == 0 || !s.receiver.CLocking?) && s.receiver != CWaiting
    ensures Enabled(s, e)
  {
    if ReceiverEnabled(s) {
      e := ReceiverStep;
    } else if s.receiver.CLocking? {
      e := OwnerProgress(s, s.receiver.reply.act);
    } else if s.receiver.CHandling? {
      ReceiverReadsUnread(s);
      e := ReceiverStep;
    } else {
      var h := SumWitness(WorkerHolding, s.workers);
      e := WorkerStep(h, Response(""));
    }
  }

  lemma WorkerProgress(s: State, j: nat) returns (e: Event)
    requires Inv(s) && (s.req.lost == 0 || s.receiver == CWaiting)
    requires j < |s.workers| && s.workers[j].pc != Finished
    ensures Enabled(s, e)
  {
    if s.receiver != CWaiting {
      e := ReceiverProgress(s);
    } else if s.resp.full > 0 {
      e := ReceiverStep;
    } else if Sum(WorkerHolding, s.workers) > 0 {
      var h := SumWitness(WorkerHolding, s.workers);
      e := WorkerStep(h, Response(""));
    } else if Sum(WorkerUnwritten, s.workers) > 0 {
      var h := SumWitness(WorkerUnwritten, s.workers);
      e := WorkerStep(h, Response(""));
    } else if Sum(WorkerWritten, s.workers) > 0 {
      var h := SumWitness(WorkerWritten, s.workers);
      e := WorkerStep(h, Response(""));
    } else {
      e := WorkerStep(j, Response(""));
    }
  }

  lemma ServerProgress(s: State) returns (e: Event)
    requires Inv(s) && s.req.lost == 0 && s.server != SWaiting
    ensures Enabled(s, e)
  {
    if ServerEnabled(s) {
      e := ServerStep;
    } else if s.server.SHandling? {
      ServerReadsUnread(s);
      e := ServerStep;
    } else {
      e := RequestLockProgress(s);
    }
  }

  // As long as anything is left to do and nothing has thrown, some thread can
  // step.
  lemma NeverStuck(s: State) returns (e: Event)
    requires Inv(s) && s.req.lost == 0 && Measure(s) > 0
    ensures Enabled(s, e)
  {
    if s.server != SWaiting {
      e := ServerProgress(s);
    } else if s.req.full > 0 {
      e := ServerStep;
    } else if s.receiver != CWaiting {
      e := ReceiverProgress(s);
    } else if s.resp.full > 0 {
      e := ReceiverStep;
    } else if Sum(WorkerWork, s.workers) > 0 {
      var j := SumWitness(WorkerWork, s.workers);
      e := WorkerProgress(s, j);
    } else {
      var i := SumWitness(ClientWork, s.clients);
      e := ClientProgress(s, i);
    }
  }

  lemma ClientProgress(s: State, i: nat) returns (e: Event)
    requires Inv(s) && s.req.lost == 0 && i < |s.clients| && s.clients[i].next < |s.clients[i].calls|
    ensures Enabled(s, e)
  {
    assert ClientOk(s, i);
    var a := Current(s.clients[i]).act;
    if a in s.owner {
      e := OwnerProgress(s, a);
    } else {
      e := ClientStep(i, 0);
    }
  }

  // ----- Whole runs -----

  function CallCount(programs: seq<seq<Call>>): nat {
    if programs == [] then 0
    else CallCount(programs[..|programs| - 1]) + |programs[|programs| - 1]|
  }

  lemma {:induction false} BeginWork(programs: seq<seq<Call>>)
    ensures Sum(ClientWork, Begin(programs)) == 29 * CallCount(programs)
  {
    if programs != [] {
      var init := programs[..|programs| - 1];
      BeginWork(init);
      SumToSame(ClientWork, Begin(programs), Begin(init), |init|);
    }
  }

  lemma {:induction false} CompletedWitness(log: seq<(Id, Answer)>, x: Id) returns (k: nat)
    requires TimesCompleted(log, x) > 0
    ensures k < |log| && log[k].0 == x
  {
    if log[|log| - 1].0 == x {
      k := |log| - 1;
    } else {
      k := CompletedWitness(log[..|log| - 1], x);
    }
  }

  lemma ClientsFinished(s: State)
    requires Ownership(s) && Faithful(s) && Sum(ClientWork, s.clients) == 0
    ensures forall i :: 0 <= i < |s.clients| ==>
      s.clients[i].pc == Outside && |s.clients[i].ids| == |s.clients[i].calls|
  {
    forall i | 0 <= i < |s.clients|
      ensures s.clients[i].pc == Outside && |s.clients[i].ids| == |s.clients[i].calls|
    {
      SumAt(ClientWork, s.clients, i);
      assert ClientOk(s, i) && ClientFaithful(s, s.clients[i]);
    }
  }

  lemma WorkersFinished(s: State)
    requires Sum(WorkerWork, s.workers) == 0
    ensures forall j :: 0 <= j < |s.workers| ==> s.workers[j].pc == Finished
  {
    forall j | 0 <= j < |s.workers| ensures s.workers[j].pc == Finished {
      SumAt(WorkerWork, s.workers, j);
    }
  }

  lemma NothingLeft(s: State)
    requires Inv(s) && Measure(s) == 0
    ensures s.server == SWaiting && s.receiver == CWaiting
    ensures forall i :: 0 <= i < |s.clients| ==>
      s.clients[i].pc == Outside && |s.clients[i].ids| == |s.clients[i].calls|
    ensures forall x :: x in s.tables.active <==> x in s.past.dropped || x in s.past.thrown
  {
    ClientsFinished(s);
    WorkersFinished(s);
    SumZero(ClientWritten, s.clients);
    SumZero(WorkerWritten, s.workers);
    forall x ensures x in s.tables.active <==> x in s.past.dropped || x in s.past.thrown {
      assert Places(s, x) == if x in s.tables.active then 1 else 0;
      SumZero(WithClient(x), s.clients);
      SumZero(WithWorker(x), s.workers);
    }
  }

  lemma NothingEnabled(s: State)
    requires Inv(s) && Measure(s) == 0
    ensures forall e :: !Enabled(s, e)
  {
    NothingLeft(s);
    forall i: nat, id ensures !ClientEnabled(s, i, id) {
      if i < |s.clients| {
        assert ClientFaithful(s, s.clients[i]);
      }
    }
    forall j: nat ensures !WorkerEnabled(s, j) {
      if j < |s.workers| {
        SumAt(WorkerWork, s.workers, j);
      }
    }
  }

  // In a state where nothing is left, the response handler of a call has run
  // exactly once if the server registered the action; otherwise it has not
  // run and stays in active_handlers.
  lemma FinalOutcome(s: State, x: Id)
    requires Inv(s) && Measure(s) == 0 && s.past.thrown == {} && x in s.past.issued
    ensures TimesCompleted(s.past.completed, x) == if s.past.issued[x].act in s.tables.registered then 1 else 0
    ensures x in s.tables.active <==> s.past.issued[x].act !in s.tables.registered
  {
    NothingLeft(s);
    assert OnceFor(s, x);
    if TimesCompleted(s.past.completed, x) > 0 {
      var k := CompletedWitness(s.past.completed, x);
      assert s.past.completed[k].0 in s.past.answers;
    }
  }

  // ----- The exact cause of a throw -----

  // The calls of a thread whose request was copied in, or thrown.
  function Tried(c: Client): nat {
    if c.pc == Unlocking || (c.pc.Sending? && c.pc.at.Written() == 1) then c.next + 1 else c.next
  }

  ghost predicate TriedFit(s: State) {
    forall i, k :: 0 <= i < |s.clients| && 0 <= k < Tried(s.clients[i]) && k < |s.clients[i].calls| ==>
      s.clients[i].calls[k].fits
  }

  // A throw happened exactly if a call that was tried does not fit.
  ghost predicate Explained(s: State) {
    && (s.req.lost == 0 <==> TriedFit(s))
    && (s.req.lost == 0 <==> s.past.thrown == {})
  }

  lemma ClientTries(s: State, i: nat, id: Id)
    requires ClientEnabled(s, i, id)
    ensures var c, c' := s.clients[i], ClientNext(s, i, id).clients[i];
      && c'.calls == c.calls
      && if c.pc == Sending(InLock) then Tried(c) == c.next && Tried(c') == c.next + 1 else Tried(c') == Tried(c)
  {}

  lemma ClientKeepsExplained(s: State, i: nat, id: Id)
    requires ClientEnabled(s, i, id) && Explained(s)
    ensures Explained(ClientNext(s, i, id))
  {
    var s' := ClientNext(s, i, id);
    var c := s.clients[i];
    ClientTries(s, i, id);
    if c.pc == Sending(InLock) {
      assert s'.clients[i].calls[c.next] == Current(c);
      if Current(c).fits && !TriedFit(s) {
        var u, k :| 0 <= u < |s.clients| && 0 <= k < Tried(s.clients[u]) && k < |s.clients[u].calls|
                    && !s.clients[u].calls[k].fits;
        assert !s'.clients[u].calls[k].fits;
      }
    } else {
      assert forall u :: 0 <= u < |s.clients| ==>
        Tried(s'.clients[u]) == Tried(s.clients[u]) && s'.clients[u].calls == s.clients[u].calls;
    }
  }

  lemma StepKeepsExplained(s: State, e: Event)
    requires Enabled(s, e) && Explained(s)
    ensures Explained(Next(s, e))
  {
    if e.ClientStep? {
      ClientKeepsExplained(s, e.i, e.id);
    }
  }

  lemma {:induction false} RunKeepsExplained(programs: seq<seq<Call>>, registered: set<Act>, es: seq<Event>)
    requires CanRun(Init(programs, registered), es)
    ensures Explained(After(Init(programs, registered), es))
    decreases |es|
  {
    if es != [] {
      RunKeepsExplained(programs, registered, es[..|es| - 1]);
      StepKeepsExplained(After(Init(programs, registered), es[..|es| - 1]), es[|es| - 1]);
    }
  }

  // ----- Every complete run -----

  predicate AllFit(programs: seq<seq<Call>>) {
    forall i, k :: 0 <= i < |programs| && 0 <= k < |programs[i]| ==> programs[i][k].fits
  }

  // No thread can go on.
  ghost predicate Complete(s: State) {
    forall e :: !Enabled(s, e)
  }

  lemma FitsProgram(s: State, programs: seq<seq<Call>>)
    requires |s.clients| == |programs|
    requires forall i :: 0 <= i < |programs| ==> s.clients[i].calls == programs[i]
    ensures AllFit(programs) ==> TriedFit(s)
    ensures (forall i :: 0 <= i < |programs| ==> s.clients[i].next == |programs[i]|) && TriedFit(s) ==> AllFit(programs)
  {}

  // For all programs of calls: a run has at most 29 steps per call, and one
  // that no thread can extend has seen a throw exactly if some call of some
  // program does not fit.
  lemma CompleteRunThrowsExactlyWhenUnfit(programs: seq<seq<Call>>, registered: set<Act>, es: seq<Event>)
    requires CanRun(Init(programs, registered), es)
    ensures |es| <= 29 * CallCount(programs)
    ensures var s := After(Init(programs, registered), es);
      && (AllFit(programs) ==> s.past.thrown == {})
      && (Complete(s) ==> (s.past.thrown == {} <==> AllFit(programs)))
  {
    var s0 := Init(programs, registered);
    var s := After(s0, es);
    InitInv(programs, registered);
    RunKeepsInv(s0, es);
    RunDropsMeasure(s0, es);
    RegisteredStays(s0, es);
    BeginWork(programs);
    RunKeepsExplained(programs, registered, es);
    FitsProgram(s, programs);
    if s.req.lost == 0 && Complete(s) {
      if Measure(s) > 0 {
        var e := NeverStuck(s);
      }
      ClientsFinished(s);
    }
  }

  // Finitely many calls of async that fit, from any number of threads, for any
  // set of registered actions, under every schedule: a run that no thread can
  // extend has given every call an id, has run the response handler of every
  // call of a registered action exactly once, and has left in active_handlers
  // exactly the calls of the others.
  lemma EveryRunCompletes(programs: seq<seq<Call>>, registered: set<Act>, es: seq<Event>)
    requires AllFit(programs) && CanRun(Init(programs, registered), es)
    ensures |es| <= 29 * CallCount(programs)
    ensures var s := After(Init(programs, registered), es); Complete(s) <==> Measure(s) == 0
    ensures var s := After(Init(programs, registered), es);
      Complete(s) ==>
        && |s.clients| == |programs|
        && (forall x :: x in s.tables.active ==> x in s.past.issued)
        && forall i, k :: 0 <= i < |programs| && 0 <= k < |programs[i]| ==>
           && |s.clients[i].ids| == |programs[i]|
           && var x := s.clients[i].ids[k];
              && x in s.past.issued
              && s.past.issued[x] == Request(programs[i][k].act, x, programs[i][k].params)
              && (x in s.tables.active <==> programs[i][k].act !in registered)
              && TimesCompleted(s.past.completed, x) == if programs[i][k].act in registered then 1 else 0
  {
    var s0 := Init(programs, registered);
    var s := After(s0, es);
    InitInv(programs, registered);
    RunKeepsInv(s0, es);
    RegisteredStays(s0, es);
    CompleteRunThrowsExactlyWhenUnfit(programs, registered, es);
    RunKeepsExplained(programs, registered, es);
    if Measure(s) > 0 {
      var e := NeverStuck(s);
    } else {
      NothingLeft(s);
      NothingEnabled(s);
      forall i, k | 0 <= i < |programs| && 0 <= k < |programs[i]|
        ensures |s.clients[i].ids| == |programs[i]|
        ensures var x := s.clients[i].ids[k];
          && x in s.past.issued
          && s.past.issued[x] == Request(programs[i][k].act, x, programs[i][k].params)
          && (x in s.tables.active <==> programs[i][k].act !in registered)
          && TimesCompleted(s.past.completed, x) == if programs[i][k].act in registered then 1 else 0
      {
        assert s.clients[i].calls == s0.clients[i].calls == programs[i];
        assert ClientFaithful(s, s.clients[i]);
        FinalOutcome(s, s.clients[i].ids[k]);
      }
    }
  }
}
