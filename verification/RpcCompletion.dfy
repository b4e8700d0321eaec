// Exactly-once completion: no reply is lost, repeated or mixed up, and every
// reachable state of the request/response protocol keeps the whole invariant.
module RpcCompletion {
  import opened Sums
  import opened Responses
  import opened Rpc
  import opened RpcInvariant
  import opened RpcIds

  // ----- Every id is outstanding or completed, once -----

  function TimesCompleted(log: seq<(Id, Answer)>, x: Id): nat {
    if log == [] then 0
    else TimesCompleted(log[..|log| - 1], x) + if log[|log| - 1].0 == x then 1 else 0
  }

  function BeingErased(s: State, x: Id): nat {
    if s.receiver.CErasing? && s.receiver.reply.data.id == x then 1 else 0
  }

  predicate OnceFor(s: State, x: Id) {
    TimesCompleted(s.past.completed, x) + (if x in s.tables.active then 1 else 0)
    == (if x in s.past.issued then 1 else 0) + BeingErased(s, x)
  }

  ghost predicate Once(s: State) {
    forall x :: OnceFor(s, x)
  }

  // What user handlers were given, and which requests the server refuses.
  ghost predicate Honest(s: State) {
    && (forall k :: 0 <= k < |s.past.completed| ==>
          var (id, given) := s.past.completed[k];
          id in s.past.answers && given == Decode(Encode(id, s.past.answers[id])))
    && (forall id :: id in s.past.answers ==>
          id in s.past.issued && s.past.issued[id].act in s.tables.registered)
    && (forall id :: id in s.past.dropped ==>
          id in s.past.issued && s.past.issued[id].act !in s.tables.registered)
    && (forall j :: 0 <= j < |s.workers| ==> s.workers[j].req.act in s.tables.registered)
  }

  ghost predicate Inv(s: State) {
    && RequestTokens(s) && ResponseTokens(s) && Ownership(s)
    && Faithful(s) && OnePlace(s) && s.past.badIds == 0
    && Once(s) && Honest(s)
  }

  lemma InitInv(programs: seq<seq<Call>>, registered: set<Act>)
    ensures Inv(Init(programs, registered))
  {
    var s := Init(programs, registered);
    SumZero(ClientUnwritten, s.clients);
    SumZero(ClientWritten, s.clients);
    SumZero(ClientHolding, s.clients);
    forall x ensures Places(s, x) == 0 {
      SumZero(WithClient(x), s.clients);
    }
  }

  lemma ClientKeepsOnce(s: State, i: nat, id: Id, x: Id)
    requires OnceFor(s, x) && ClientEnabled(s, i, id)
    requires s.tables.active.Keys <= s.past.issued.Keys
    ensures OnceFor(ClientNext(s, i, id), x)
  {}

  lemma ServerKeepsOnce(s: State, x: Id)
    requires OnceFor(s, x) && ServerEnabled(s)
    ensures OnceFor(ServerNext(s), x)
  {}

  lemma WorkerKeepsOnce(s: State, j: nat, answer: Answer, x: Id)
    requires OnceFor(s, x) && WorkerEnabled(s, j)
    ensures OnceFor(WorkerNext(s, j, answer), x)
  {}

  lemma ReceiverKeepsOnce(s: State, x: Id)
    requires OnceFor(s, x) && ReceiverEnabled(s)
    requires InHand(s.receiver).Some? ==>
      var r := InHand(s.receiver).value; r.data.id in s.tables.active && s.tables.active[r.data.id] == r.act
    ensures OnceFor(ReceiverNext(s), x)
  {
    if s.receiver.CCalling? {
      assert ReceiverNext(s).past.completed[..|s.past.completed|] == s.past.completed;
    }
  }

  lemma StepKeepsOnce(s: State, e: Event, x: Id)
    requires Faithful(s) && OnePlace(s) && Once(s) && Enabled(s, e)
    ensures OnceFor(Next(s, e), x)
  {
    match e {
      case ClientStep(i, id) => ClientKeepsOnce(s, i, id, x);
      case ServerStep => ServerKeepsOnce(s, x);
      case WorkerStep(j, answer) => WorkerKeepsOnce(s, j, answer, x);
      case ReceiverStep =>
        if InHand(s.receiver).Some? {
          HandlerIsFound(s);
        }
        ReceiverKeepsOnce(s, x);
    }
  }

  lemma ServerKeepsHonest(s: State)
    requires Faithful(s) && Honest(s) && ServerEnabled(s)
    requires s.server.SHandling? ==> s.req.unread == s.req.buffer
    ensures Honest(ServerNext(s))
  {
    ServerGrows(s);
  }

  lemma ClientKeepsHonest(s: State, i: nat, id: Id)
    requires Faithful(s) && Honest(s) && ClientEnabled(s, i, id)
    ensures Honest(ClientNext(s, i, id))
  {
    ClientGrows(s, i, id);
  }

  lemma ReceiverKeepsHonest(s: State)
    requires Faithful(s) && Honest(s) && ReceiverEnabled(s)
    ensures Honest(ReceiverNext(s))
  {
    ReceiverGrows(s);
  }

  lemma StepKeepsHonest(s: State, e: Event)
    requires RequestTokens(s) && Faithful(s) && Honest(s) && Enabled(s, e)
    ensures Honest(Next(s, e))
  {
    match e {
      case ClientStep(i, id) => ClientKeepsHonest(s, i, id);
      case ServerStep =>
        if s.server.SHandling? {
          ServerReadsUnread(s);
        }
        ServerKeepsHonest(s);
      case WorkerStep(j, answer) => WorkerKeepsHonest(s, j, answer);
      case ReceiverStep => ReceiverKeepsHonest(s);
    }
  }

  lemma WorkerKeepsHonest(s: State, j: nat, answer: Answer)
    requires Faithful(s) && Honest(s) && WorkerEnabled(s, j)
    ensures Honest(WorkerNext(s, j, answer))
  {
    assert WorkerFaithful(s, s.workers[j]);
    WorkerGrows(s, j, answer);
  }

  lemma StepKeepsInv(s: State, e: Event)
    requires Inv(s) && Enabled(s, e)
    ensures Inv(Next(s, e))
  {
    StepKeepsTokens(s, e);
    StepKeepsOwnership(s, e);
    StepKeepsIds(s, e);
    StepKeepsHonest(s, e);
    forall x ensures OnceFor(Next(s, e), x) {
      StepKeepsOnce(s, e, x);
    }
  }

  lemma {:induction false} RunKeepsInv(s: State, es: seq<Event>)
    requires Inv(s) && CanRun(s, es)
    ensures Inv(After(s, es))
    decreases |es|
  {
    if es != [] {
      RunKeepsInv(s, es[..|es| - 1]);
      StepKeepsInv(After(s, es[..|es| - 1]), es[|es| - 1]);
    }
  }

  // In every reachable state each id outstanding in active_handlers is in
  // exactly one place, no other id is anywhere, BadActionId was never thrown,
  // and no handler ran twice or was given anything but what the server's
  // handler returned for the request of that id.
  lemma CorrelatedExactlyOnce(programs: seq<seq<Call>>, registered: set<Act>, es: seq<Event>)
    requires CanRun(Init(programs, registered), es)
    ensures var s := After(Init(programs, registered), es);
      && (forall x :: Places(s, x) == if x in s.tables.active then 1 else 0)
      && s.past.badIds == 0
      && (forall x :: TimesCompleted(s.past.completed, x) <= 1)
      && (forall k :: 0 <= k < |s.past.completed| ==>
            var (id, given) := s.past.completed[k];
            && id in s.past.issued && id in s.past.answers
            && given == Decode(Encode(id, s.past.answers[id]))
            && (given == s.past.answers[id]
                <==> (s.past.answers[id].Fault? ==> s.past.answers[id].error.isSet)))
  {
    InitInv(programs, registered);
    RunKeepsInv(Init(programs, registered), es);
    var s := After(Init(programs, registered), es);
    forall x ensures TimesCompleted(s.past.completed, x) <= 1 {
      assert OnceFor(s, x);
      if BeingErased(s, x) == 1 {
        HandlerIsFound(s);
      }
    }
    forall k | 0 <= k < |s.past.completed|
      ensures var (id, given) := s.past.completed[k];
        && id in s.past.issued && id in s.past.answers
        && given == Decode(Encode(id, s.past.answers[id]))
        && (given == s.past.answers[id]
            <==> (s.past.answers[id].Fault? ==> s.past.answers[id].error.isSet))
    {
      var (id, given) := s.past.completed[k];
      AnswerRoundTrip(id, s.past.answers[id]);
    }
  }

  // The server's handler runs on the very request that was issued under its
  // id, and at most once for it.
  lemma HandlerRunsOnIssuedRequest(programs: seq<seq<Call>>, registered: set<Act>, es: seq<Event>, j: nat)
    requires CanRun(Init(programs, registered), es)
    requires var s := After(Init(programs, registered), es); j < |s.workers| && s.workers[j].pc == Running
    ensures var s := After(Init(programs, registered), es);
      var req := s.workers[j].req;
      && req.id in s.past.issued && s.past.issued[req.id] == req
      && req.id !in s.past.answers && req.act in registered
  {
    InitInv(programs, registered);
    RunKeepsInv(Init(programs, registered), es);
    RegisteredStays(Init(programs, registered), es);
    assert WorkerFaithful(After(Init(programs, registered), es), After(Init(programs, registered), es).workers[j]);
  }

  lemma StepKeepsPrograms(s: State, e: Event)
    requires Enabled(s, e)
    ensures Next(s, e).tables.registered == s.tables.registered
    ensures |Next(s, e).clients| == |s.clients|
    ensures forall i :: 0 <= i < |s.clients| ==> Next(s, e).clients[i].calls == s.clients[i].calls
  {}

  lemma {:induction false} RegisteredStays(s: State, es: seq<Event>)
    requires CanRun(s, es)
    ensures After(s, es).tables.registered == s.tables.registered
    ensures |After(s, es).clients| == |s.clients|
    ensures forall i :: 0 <= i < |s.clients| ==> After(s, es).clients[i].calls == s.clients[i].calls
    decreases |es|
  {
    if es != [] {
      RegisteredStays(s, es[..|es| - 1]);
      StepKeepsPrograms(After(s, es[..|es| - 1]), es[|es| - 1]);
    }
  }
}
