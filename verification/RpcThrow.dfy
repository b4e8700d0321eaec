// What an oversized request does to the rest of the protocol. Its throw keeps
// the request buffer for ever, so nothing sent later reaches the server; and a
// thread that calls async of any action after it waits in send with that
// action's m_mutex, where the client's receiver may come to wait for it.
module RpcThrow {
  import opened Wrappers
  import opened Sums
  import opened Responses
  import opened SendProtocol
  import opened Rpc
  import opened RpcInvariant
  import opened RpcIds
  import opened RpcCompletion
  import opened RpcProgress

  // ----- The request buffer after a throw -----

  // The tokens are gone: nobody is past the first wait of send, and the server
  // waits.
  lemma NobodyInSend(s: State)
    requires Inv(s) && s.req.lost > 0
    ensures s.req.lost == 1 && s.req.empty == 0 && s.req.full == 0 && s.req.mutex == 0
    ensures s.server == SWaiting && s.req.unread == None
    ensures forall i :: 0 <= i < |s.clients| && s.clients[i].pc.Sending? ==> s.clients[i].pc == Sending(Ready)
  {
    forall i | 0 <= i < |s.clients| && s.clients[i].pc.Sending? ensures s.clients[i].pc == Sending(Ready) {
      SumAt(ClientUnwritten, s.clients, i);
      SumAt(ClientWritten, s.clients, i);
    }
  }

  // The requests the server has taken so far, and their answers.
  predicate SameWork(s: State, s': State) {
    && s'.req == s.req && s'.past.thrown == s.past.thrown && s'.past.dropped == s.past.dropped
    && |s'.workers| == |s.workers|
    && (forall j :: 0 <= j < |s.workers| ==> s'.workers[j].req == s.workers[j].req)
    && forall x :: x in s'.past.answers ==>
         x in s.past.answers || exists j :: 0 <= j < |s.workers| && s.workers[j].req.id == x
  }

  lemma ClientKeepsWork(s: State, i: nat, id: Id)
    requires Inv(s) && s.req.lost > 0 && ClientEnabled(s, i, id)
    ensures SameWork(s, ClientNext(s, i, id))
  {
    NobodyInSend(s);
  }

  lemma WorkerKeepsWork(s: State, j: nat, answer: Answer)
    requires WorkerEnabled(s, j)
    ensures SameWork(s, WorkerNext(s, j, answer))
  {}

  lemma StepKeepsWork(s: State, e: Event)
    requires Inv(s) && s.req.lost > 0 && Enabled(s, e)
    ensures SameWork(s, Next(s, e))
  {
    match e
    case ClientStep(i, id) => ClientKeepsWork(s, i, id);
    case WorkerStep(j, answer) => WorkerKeepsWork(s, j, answer);
    case ServerStep => NobodyInSend(s);
    case ReceiverStep => ReceiverMovesOnly(s);
  }

  // After a throw the server gets no further request: only what it had taken
  // before is ever answered.
  lemma {:induction false} NothingReachesTheServer(s: State, es: seq<Event>)
    requires Inv(s) && s.req.lost > 0 && CanRun(s, es)
    ensures Inv(After(s, es)) && SameWork(s, After(s, es))
    decreases |es|
  {
    if es != [] {
      var before := After(s, es[..|es| - 1]);
      NothingReachesTheServer(s, es[..|es| - 1]);
      StepKeepsWork(before, es[|es| - 1]);
      StepKeepsInv(before, es[|es| - 1]);
    }
  }

  // ----- How such a run ends -----

  lemma ClientsStuck(s: State)
    requires Inv(s) && s.req.lost > 0 && Complete(s)
    ensures forall i :: 0 <= i < |s.clients| ==> s.clients[i].pc == Outside || s.clients[i].pc == Sending(Ready)
    ensures forall a :: a in s.owner ==>
      && s.owner[a].ByClient? && s.owner[a].i < |s.clients| && s.clients[s.owner[a].i].pc == Sending(Ready)
  {
    NobodyInSend(s);
    forall i | 0 <= i < |s.clients| ensures s.clients[i].pc == Outside || s.clients[i].pc == Sending(Ready) {
      assert ClientOk(s, i);
      var id := FreshId(s.past.issued.Keys);
      assert !Enabled(s, ClientStep(i, id));
    }
    forall a | a in s.owner
      ensures s.owner[a].ByClient? && s.owner[a].i < |s.clients| && s.clients[s.owner[a].i].pc == Sending(Ready)
    {
      assert OwnerOk(s, a);
      assert !Enabled(s, ReceiverStep);
    }
  }

  // In the end the client's receiver waits for a message, with all workers
  // finished, or for an m_mutex whose owner waits in send for ever.
  lemma EndsWaiting(s: State)
    requires Inv(s) && s.req.lost > 0 && Complete(s)
    ensures if s.receiver.CLocking? then s.receiver.reply.act in s.owner
            else s.receiver == CWaiting && s.resp.full == 0
                 && forall j :: 0 <= j < |s.workers| ==> s.workers[j].pc == Finished
  {
    ClientsStuck(s);
    assert !Enabled(s, ReceiverStep);
    if !s.receiver.CLocking? && s.receiver != CWaiting {
      var e := ReceiverProgress(s);
    } else if s.receiver == CWaiting {
      forall j | 0 <= j < |s.workers| ensures s.workers[j].pc == Finished {
        if s.workers[j].pc != Finished {
          var e := WorkerProgress(s, j);
        }
      }
    }
  }

  // A call the server took and has a handler for.
  predicate Accepted(s: State, x: Id) {
    && x in s.past.issued && x !in s.past.thrown && x !in s.past.dropped
    && forall i :: 0 <= i < |s.clients| ==> WithClient(x)(s.clients[i]) == 0
  }

  // Every accepted call has been answered to the user exactly if the receiver
  // is not waiting for an m_mutex.
  lemma AcceptedAnsweredExactly(s: State)
    requires Inv(s) && s.req.lost > 0 && Complete(s)
    ensures (forall x :: Accepted(s, x) ==> TimesCompleted(s.past.completed, x) == 1) <==> s.receiver == CWaiting
  {
    EndsWaiting(s);
    NobodyInSend(s);
    if s.receiver == CWaiting {
      forall x | Accepted(s, x) ensures TimesCompleted(s.past.completed, x) == 1 {
        AllPlacesEmpty(s, x);
      }
    } else {
      HeldReplyIsOpen(s);
    }
  }

  lemma AllPlacesEmpty(s: State, x: Id)
    requires Inv(s) && s.req.lost > 0 && s.receiver == CWaiting && s.resp.full == 0
    requires forall j :: 0 <= j < |s.workers| ==> s.workers[j].pc == Finished
    requires Accepted(s, x)
    ensures TimesCompleted(s.past.completed, x) == 1
  {
    NobodyInSend(s);
    SumZero(WorkerWritten, s.workers);
    SumZero(WithClient(x), s.clients);
    SumZero(WithWorker(x), s.workers);
    assert Places(s, x) == if x in s.tables.active then 1 else 0;
    assert OnceFor(s, x);
  }

  lemma HeldReplyIsOpen(s: State)
    requires Inv(s) && s.receiver.CLocking?
    ensures Accepted(s, s.receiver.reply.data.id)
    ensures TimesCompleted(s.past.completed, s.receiver.reply.data.id) == 0
  {
    var x := s.receiver.reply.data.id;
    HandlerIsFound(s);
    assert OnceFor(s, x);
    assert Places(s, x) == 1;
    forall i | 0 <= i < |s.clients| ensures WithClient(x)(s.clients[i]) == 0 {
      SumAt(WithClient(x), s.clients, i);
    }
  }

  // ----- When an accepted call can go unanswered -----

  // The receiver has found the handler of x and will call it, or has.
  predicate PastLock(p: ReceiverPc, x: Id) {
    (p.CFinding? || p.CCalling? || p.CErasing?) && p.reply.data.id == x
  }

  // An accepted call whose reply still has to get its action's m_mutex.
  predicate Pending(s: State, x: Id) {
    Accepted(s, x) && TimesCompleted(s.past.completed, x) == 0 && !PastLock(s.receiver, x)
  }

  // The thread is in async of action a, or that is what it calls next. After
  // a throw it will not get any further.
  predicate WillHold(c: Client, a: Act) {
    match c.pc
    case Outside => c.next < |c.calls| && c.calls[c.next].act == a
    case Unlocking => c.next + 1 < |c.calls| && c.calls[c.next + 1].act == a
    case _ => c.next < |c.calls| && c.calls[c.next].act == a
  }

  predicate Threatened(s: State, x: Id, i: nat) {
    Pending(s, x) && i < |s.clients| && WillHold(s.clients[i], s.past.issued[x].act)
  }

  ghost predicate MayStarve(s: State) {
    exists es :: CanRun(s, es) && Complete(After(s, es)) && Starved(After(s, es))
  }

  // A call was accepted but the user's handler was not called.
  ghost predicate Starved(s: State) {
    exists x :: Accepted(s, x) && TimesCompleted(s.past.completed, x) == 0
  }

  // What threatens a call at the end has done so all along.
  lemma ClientThreatBefore(s: State, i: nat, id: Id, x: Id, k: nat)
    requires Inv(s) && s.req.lost > 0 && ClientEnabled(s, i, id) && Threatened(ClientNext(s, i, id), x, k)
    ensures Threatened(s, x, k)
  {
    var s' := ClientNext(s, i, id);
    NobodyInSend(s);
    assert ClientOk(s, i) && ClientFaithful(s, s.clients[i]);
    assert WithClient(x)(s'.clients[i]) == 0;
    assert WithClient(x)(s.clients[i]) == 0;
    forall u | 0 <= u < |s.clients| ensures WithClient(x)(s.clients[u]) == 0 {
      assert u != i ==> s'.clients[u] == s.clients[u];
    }
  }

  lemma ReceiverThreatBefore(s: State, x: Id, k: nat)
    requires Inv(s) && s.req.lost > 0 && ReceiverEnabled(s) && Threatened(ReceiverNext(s), x, k)
    ensures Threatened(s, x, k)
  {
    var s' := ReceiverNext(s);
    assert OnceFor(s, x);
    if InHand(s.receiver).Some? {
      HandlerIsFound(s);
    }
    if s.receiver.CCalling? {
      assert s'.past.completed[..|s.past.completed|] == s.past.completed;
    }
  }

  lemma WorkerThreatBefore(s: State, j: nat, answer: Answer, x: Id, k: nat)
    requires WorkerEnabled(s, j) && Threatened(WorkerNext(s, j, answer), x, k)
    ensures Threatened(s, x, k)
  {}

  lemma ThreatBefore(s: State, e: Event, x: Id, k: nat)
    requires Inv(s) && s.req.lost > 0 && Enabled(s, e) && Threatened(Next(s, e), x, k)
    ensures Threatened(s, x, k)
  {
    match e
    case ClientStep(i, id) => ClientThreatBefore(s, i, id, x, k);
    case ReceiverStep => ReceiverThreatBefore(s, x, k);
    case WorkerStep(j, answer) => WorkerThreatBefore(s, j, answer, x, k);
    case ServerStep => NobodyInSend(s);
  }

  lemma {:induction false} ThreatAllAlong(s: State, es: seq<Event>, x: Id, k: nat)
    requires Inv(s) && s.req.lost > 0 && CanRun(s, es) && Threatened(After(s, es), x, k)
    ensures Threatened(s, x, k)
    decreases |es|
  {
    if es != [] {
      NothingReachesTheServer(s, es[..|es| - 1]);
      ThreatBefore(After(s, es[..|es| - 1]), es[|es| - 1], x, k);
      ThreatAllAlong(s, es[..|es| - 1], x, k);
    }
  }

  // In the end somebody threatens what was not answered.
  lemma StarvedIsThreatened(s: State) returns (x: Id, k: nat)
    requires Inv(s) && s.req.lost > 0 && Complete(s) && Starved(s)
    ensures Threatened(s, x, k)
  {
    EndsWaiting(s);
    AcceptedAnsweredExactly(s);
    x := s.receiver.reply.data.id;
    HeldReplyIsOpen(s);
    ClientsStuck(s);
    k := s.owner[s.receiver.reply.act].i;
    assert OwnerOk(s, s.receiver.reply.act);
  }

  // ----- Driving a run to it -----

  // A thread holds the m_mutex that the reply to x needs, and will not get
  // past send.
  predicate Held(s: State, x: Id, k: nat) {
    && Pending(s, x) && k < |s.clients|
    && (s.clients[k].pc == Locked || s.clients[k].pc == Sending(Ready))
    && s.past.issued[x].act in s.owner && s.owner[s.past.issued[x].act] == ByClient(k)
  }

  ghost predicate At(s0: State, es: seq<Event>, s: State) {
    CanRun(s0, es) && After(s0, es) == s
  }

  lemma Do(s0: State, es: seq<Event>, s: State, e: Event) returns (es': seq<Event>, s': State)
    requires At(s0, es, s) && Enabled(s, e)
    ensures s' == Next(s, e) && At(s0, es', s')
  {
    es', s' := es + [e], Next(s, e);
    assert es'[..|es|] == es;
  }

  lemma DropsMeasure(s: State, e: Event)
    requires Enabled(s, e)
    ensures Measure(Next(s, e)) < Measure(s)
  {
    match e
    case ClientStep(i, id) => ClientDropsMeasure(s, i, id);
    case ServerStep => ServerDropsMeasure(s);
    case WorkerStep(j, answer) => WorkerDropsMeasure(s, j, answer);
    case ReceiverStep => ReceiverDropsMeasure(s);
  }

  lemma ClientStaysAccepted(s: State, i: nat, id: Id, x: Id)
    requires ClientEnabled(s, i, id) && IdsMatchCalls(s, s.clients[i]) && Accepted(s, x)
    requires s.clients[i].pc.Sending? ==> s.clients[i].pc == Sending(Ready)
    ensures Accepted(ClientNext(s, i, id), x) && ClientNext(s, i, id).past.issued[x] == s.past.issued[x]
  {
    var s' := ClientNext(s, i, id);
    assert WithClient(x)(s.clients[i]) == 0;
    forall u | 0 <= u < |s'.clients| ensures WithClient(x)(s'.clients[u]) == 0 {
      assert u != i ==> s'.clients[u] == s.clients[u];
    }
  }

  lemma OthersStayAccepted(s: State, e: Event, x: Id)
    requires Enabled(s, e) && (e.WorkerStep? || e.ReceiverStep?) && Accepted(s, x)
    ensures Accepted(Next(s, e), x) && Next(s, e).past.issued[x] == s.past.issued[x]
  {}

  // An accepted call stays one.
  lemma StaysAccepted(s: State, e: Event, x: Id)
    requires Inv(s) && s.req.lost > 0 && Enabled(s, e) && Accepted(s, x)
    ensures Accepted(Next(s, e), x) && Next(s, e).past.issued[x] == s.past.issued[x]
  {
    NobodyInSend(s);
    if e.ClientStep? {
      assert ClientFaithful(s, s.clients[e.i]);
      ClientStaysAccepted(s, e.i, e.id, x);
    } else if !e.ServerStep? {
      OthersStayAccepted(s, e, x);
    }
  }

  lemma ClientStaysHeld(s: State, i: nat, id: Id, x: Id, k: nat)
    requires ClientEnabled(s, i, id) && ClientOk(s, i) && Held(s, x, k) && s.req.empty == 0
    requires Accepted(ClientNext(s, i, id), x) && ClientNext(s, i, id).past.issued[x] == s.past.issued[x]
    ensures Held(ClientNext(s, i, id), x, k)
  {}

  // While the m_mutex is held, its reply stays pending.
  lemma StepStaysHeld(s: State, e: Event, x: Id, k: nat)
    requires Inv(s) && s.req.lost > 0 && Enabled(s, e) && Held(s, x, k)
    ensures Held(Next(s, e), x, k)
  {
    StaysAccepted(s, e, x);
    NobodyInSend(s);
    match e
    case ClientStep(i, id) =>
      assert ClientOk(s, i);
      ClientStaysHeld(s, i, id, x, k);
    case ReceiverStep => HeldReceiverStep(s, x, k);
    case WorkerStep(_, _) =>
    case ServerStep =>
  }

  lemma HeldReceiverStep(s: State, x: Id, k: nat)
    requires Inv(s) && s.req.lost > 0 && ReceiverEnabled(s) && Held(s, x, k)
    ensures s.past.issued[x].act in ReceiverNext(s).owner && ReceiverNext(s).owner[s.past.issued[x].act] == ByClient(k)
    ensures TimesCompleted(ReceiverNext(s).past.completed, x) == 0 && !PastLock(ReceiverNext(s).receiver, x)
  {
    var s' := ReceiverNext(s);
    if s.receiver.CCalling? {
      assert s'.past.completed[..|s.past.completed|] == s.past.completed;
    }
  }

  // Whatever happens then, the call is not answered.
  lemma {:induction false} HeldStarves(s0: State, es: seq<Event>, s: State, x: Id, k: nat)
    requires At(s0, es, s) && Inv(s) && s.req.lost > 0 && Held(s, x, k)
    ensures MayStarve(s0)
    decreases Measure(s)
  {
    if Complete(s) {
      assert Accepted(s, x) && TimesCompleted(s.past.completed, x) == 0;
    } else {
      var e :| Enabled(s, e);
      DropsMeasure(s, e);
      StepStaysHeld(s, e, x, k);
      StepKeepsWork(s, e);
      StepKeepsInv(s, e);
      var es', s' := Do(s0, es, s, e);
      HeldStarves(s0, es', s', x, k);
    }
  }

  // The step to take so that a thread gets hold of the m_mutex.
  function NextToHold(s: State, x: Id, i: nat): Event
    requires Threatened(s, x, i)
  {
    var a := s.past.issued[x].act;
    if s.clients[i].pc == Outside && a in s.owner then
      match s.owner[a]
      case ByReceiver => ReceiverStep
      case ByClient(k) => ClientStep(k, 0)
    else ClientStep(i, 0)
  }

  predicate SomeoneHolds(s: State, x: Id, i: nat)
    requires Threatened(s, x, i)
  {
    var a := s.past.issued[x].act;
    Held(s, x, i) || (a in s.owner && s.owner[a].ByClient? && Held(s, x, s.owner[a].i))
  }

  lemma CanGoOn(s: State, x: Id, i: nat)
    requires Inv(s) && s.req.lost > 0 && Threatened(s, x, i) && !SomeoneHolds(s, x, i)
    ensures Enabled(s, NextToHold(s, x, i))
  {
    var a := s.past.issued[x].act;
    NobodyInSend(s);
    assert ClientOk(s, i);
    if s.clients[i].pc == Outside && a in s.owner {
      assert OwnerOk(s, a);
    }
  }

  // A thread on its way in stays on its way when another one leaves async.
  lemma ClientGoesOn(s: State, x: Id, i: nat, k: nat)
    requires Inv(s) && s.req.lost > 0 && Threatened(s, x, i) && ClientEnabled(s, k, 0)
    requires k == i || s.clients[k].pc == Unlocking
    requires !(s.clients[i].pc == Locked) && !s.clients[i].pc.Sending?
    ensures Threatened(ClientNext(s, k, 0), x, i)
  {
    StaysAccepted(s, ClientStep(k, 0), x);
  }

  lemma ReceiverGoesOn(s: State, x: Id, i: nat)
    requires Inv(s) && s.req.lost > 0 && Threatened(s, x, i) && ReceiverEnabled(s)
    requires s.past.issued[x].act in s.owner && s.owner[s.past.issued[x].act] == ByReceiver
    ensures Threatened(ReceiverNext(s), x, i)
  {
    var s' := ReceiverNext(s);
    StaysAccepted(s, ReceiverStep, x);
    assert OwnerOk(s, s.past.issued[x].act);
    if s.receiver.CCalling? {
      assert s'.past.completed[..|s.past.completed|] == s.past.completed;
    }
  }

  lemma GoesOn(s: State, x: Id, i: nat)
    requires Inv(s) && s.req.lost > 0 && Threatened(s, x, i) && !SomeoneHolds(s, x, i)
    requires Enabled(s, NextToHold(s, x, i))
    ensures Threatened(Next(s, NextToHold(s, x, i)), x, i)
  {
    var a := s.past.issued[x].act;
    NobodyInSend(s);
    assert ClientOk(s, i);
    if s.clients[i].pc == Outside && a in s.owner {
      assert OwnerOk(s, a);
      match s.owner[a]
      case ByReceiver => ReceiverGoesOn(s, x, i);
      case ByClient(k) => ClientGoesOn(s, x, i, k);
    } else {
      ClientGoesOn(s, x, i, i);
    }
  }

  lemma {:induction false} ThreatStarves(s0: State, es: seq<Event>, s: State, x: Id, i: nat)
    requires At(s0, es, s) && Inv(s) && s.req.lost > 0 && Threatened(s, x, i)
    ensures MayStarve(s0)
    decreases Measure(s)
  {
    var a := s.past.issued[x].act;
    if Held(s, x, i) {
      HeldStarves(s0, es, s, x, i);
    } else if SomeoneHolds(s, x, i) {
      HeldStarves(s0, es, s, x, s.owner[a].i);
    } else {
      var e := NextToHold(s, x, i);
      CanGoOn(s, x, i);
      GoesOn(s, x, i);
      DropsMeasure(s, e);
      StepKeepsWork(s, e);
      StepKeepsInv(s, e);
      var es', s' := Do(s0, es, s, e);
      ThreatStarves(s0, es', s', x, i);
    }
  }

  // At any moment after a throw: a call that the server has accepted can be
  // left unanswered for ever exactly if its reply has yet to get the m_mutex
  // of its action and some thread is in async of that action or calls it next.
  lemma MayStarveExactlyWhenThreatened(programs: seq<seq<Call>>, registered: set<Act>, past: seq<Event>)
    requires CanRun(Init(programs, registered), past)
    requires After(Init(programs, registered), past).past.thrown != {}
    ensures var s := After(Init(programs, registered), past);
      MayStarve(s) <==> exists x, i :: Threatened(s, x, i)
  {
    var s := After(Init(programs, registered), past);
    InitInv(programs, registered);
    RunKeepsInv(Init(programs, registered), past);
    RunKeepsExplained(programs, registered, past);
    if MayStarve(s) {
      var es :| CanRun(s, es) && Complete(After(s, es)) && Starved(After(s, es));
      NothingReachesTheServer(s, es);
      var x, i := StarvedIsThreatened(After(s, es));
      ThreatAllAlong(s, es, x, i);
    }
    if x, i :| Threatened(s, x, i) {
      assert At(s, [], s);
      ThreatStarves(s, [], s, x, i);
    }
  }

  // ----- A run in which it happens -----

  // Two threads call action 1, one action 0 with a request too long.
  const LONG := Call(0, "", false)
  const SHORT := Call(1, "", true)
  const START := Init([[LONG], [SHORT], [SHORT]], {1})
  const REQUEST := Request(1, 0, "")

  // A thread enters async and comes to send.
  lemma CallBegins(s0: State, es: seq<Event>, s: State, i: nat, id: Id) returns (es': seq<Event>, s': State)
    requires At(s0, es, s) && i < |s.clients| && s.clients[i].pc == Outside
    requires s.clients[i].next < |s.clients[i].calls| && Current(s.clients[i]).act !in s.owner && id !in s.past.issued
    ensures At(s0, es', s')
    ensures var c := s.clients[i];
      var call := Current(c);
      s' == s.(owner := s.owner[call.act := ByClient(i)],
               tables := s.tables.(slots := s.tables.slots + {call.act}, active := s.tables.active[id := call.act]),
               past := s.past.(issued := s.past.issued[id := Request(call.act, id, call.params)]),
               clients := s.clients[i := c.(pc := Sending(Ready), ids := c.ids + [id])])
  {
    es', s' := Do(s0, es, s, ClientStep(i, id));
    es', s' := Do(s0, es', s', ClientStep(i, id));
  }

  // It gets both tokens.
  lemma CallEnters(s0: State, es: seq<Event>, s: State, i: nat) returns (es': seq<Event>, s': State)
    requires At(s0, es, s) && i < |s.clients| && s.clients[i].pc == Sending(Ready)
    requires s.clients[i].next < |s.clients[i].calls| && s.req.empty > 0 && s.req.mutex > 0
    ensures At(s0, es', s')
    ensures s' == s.(req := s.req.(empty := s.req.empty - 1, mutex := s.req.mutex - 1),
                     clients := s.clients[i := s.clients[i].(pc := Sending(InLock))])
  {
    es', s' := Do(s0, es, s, ClientStep(i, 0));
    es', s' := Do(s0, es', s', ClientStep(i, 0));
  }

  // It copies its request in.
  lemma CallCopies(s0: State, es: seq<Event>, s: State, i: nat) returns (es': seq<Event>, s': State)
    requires At(s0, es, s) && i < |s.clients| && s.clients[i].pc == Sending(InLock)
    requires s.clients[i].next < |s.clients[i].calls| && Current(s.clients[i]).fits
    ensures At(s0, es', s')
    ensures var c := s.clients[i];
      var m := Some(Request(Current(c).act, CurrentId(c), Current(c).params));
      s' == s.(req := s.req.(mutex := s.req.mutex + 1, buffer := m, unread := m),
               clients := s.clients[i := c.(pc := Sending(Unlocked))])
  {
    es', s' := Do(s0, es, s, ClientStep(i, 0));
    es', s' := Do(s0, es', s', ClientStep(i, 0));
  }

  // It leaves send and async.
  lemma CallLeaves(s0: State, es: seq<Event>, s: State, i: nat) returns (es': seq<Event>, s': State)
    requires At(s0, es, s) && i < |s.clients| && s.clients[i].pc == Sending(Unlocked)
    requires s.clients[i].next < |s.clients[i].calls|
    ensures At(s0, es', s')
    ensures var c := s.clients[i];
      s' == s.(req := s.req.(full := s.req.full + 1), owner := s.owner - {Current(c).act},
               clients := s.clients[i := c.(pc := Outside, next := c.next + 1)])
  {
    es', s' := Do(s0, es, s, ClientStep(i, 0));
    es', s' := Do(s0, es', s', ClientStep(i, 0));
  }

  // The second thread's call of action 1 is sent.
  lemma OneCallSent() returns (es: seq<Event>, s: State)
    ensures At(START, es, s)
    ensures s == START.(
      req := Duct(1, 0, 1, Some(REQUEST), Some(REQUEST), 0),
      clients := [Client(Outside, [LONG], 0, []), Client(Outside, [SHORT], 1, [0]), Client(Outside, [SHORT], 0, [])],
      tables := Tables(map[0 := 1], {1}, {1}),
      past := Past(map[0 := REQUEST], map[], [], {}, {}, 0))
  {
    assert START.clients == [Client(Outside, [LONG], 0, []), Client(Outside, [SHORT], 0, []),
                             Client(Outside, [SHORT], 0, [])];
    es, s := CallBegins(START, [], START, 1, 0);
    es, s := CallEnters(START, es, s, 1);
    es, s := CallCopies(START, es, s, 1);
    es, s := CallLeaves(START, es, s, 1);
    assert s.owner == map[] && s.clients[1].ids == [0];
    assert s.clients == [Client(Outside, [LONG], 0, []), Client(Outside, [SHORT], 1, [0]),
                         Client(Outside, [SHORT], 0, [])];
    assert s.tables == Tables(map[0 := 1], {1}, {1});
  }

  // The server takes it.
  lemma OneCallTaken() returns (es: seq<Event>, s: State)
    ensures At(START, es, s)
    ensures s == START.(
      req := Duct(1, 1, 0, Some(REQUEST), None, 0),
      clients := [Client(Outside, [LONG], 0, []), Client(Outside, [SHORT], 1, [0]), Client(Outside, [SHORT], 0, [])],
      workers := [Worker(Running, REQUEST, Response(""))],
      tables := Tables(map[0 := 1], {1}, {1}),
      past := Past(map[0 := REQUEST], map[], [], {}, {}, 0))
  {
    es, s := OneCallSent();
    es, s := Do(START, es, s, ServerStep);
    es, s := Do(START, es, s, ServerStep);
    es, s := Do(START, es, s, ServerStep);
    es, s := Do(START, es, s, ServerStep);
    es, s := Do(START, es, s, ServerStep);
  }

  // The first thread's call of action 0 throws.
  lemma OneCallThrown() returns (es: seq<Event>, s: State)
    ensures At(START, es, s)
    ensures s == START.(
      req := Duct(0, 0, 0, Some(REQUEST), None, 1),
      clients := [Client(Unlocking, [LONG], 0, [1]), Client(Outside, [SHORT], 1, [0]), Client(Outside, [SHORT], 0, [])],
      workers := [Worker(Running, REQUEST, Response(""))],
      owner := map[0 := ByClient(0)],
      tables := Tables(map[0 := 1, 1 := 0], {0, 1}, {1}),
      past := Past(map[0 := REQUEST, 1 := Request(0, 1, "")], map[], [], {}, {1}, 0))
  {
    es, s := OneCallTaken();
    es, s := CallBegins(START, es, s, 0, 1);
    es, s := CallEnters(START, es, s, 0);
    es, s := Do(START, es, s, ClientStep(0, 0));
    assert s.clients[0].ids == [1];
    assert s.clients == [Client(Unlocking, [LONG], 0, [1]), Client(Outside, [SHORT], 1, [0]),
                         Client(Outside, [SHORT], 0, [])];
    assert s.tables == Tables(map[0 := 1, 1 := 0], {0, 1}, {1});
    assert s.past == Past(map[0 := REQUEST, 1 := Request(0, 1, "")], map[], [], {}, {1}, 0);
  }

  // The call of action 1, which the server has taken before, can now go
  // unanswered for ever.
  lemma OversizedStarvesAnotherAction() returns (es: seq<Event>, s: State)
    ensures CanRun(START, es) && s == After(START, es)
    ensures s.past.thrown == {1} && 1 in s.past.issued && s.past.issued[1].act == 0
    ensures Accepted(s, 0) && s.past.issued[0].act == 1 && MayStarve(s)
  {
    es, s := OneCallThrown();
    InitInv([[LONG], [SHORT], [SHORT]], {1});
    RunKeepsInv(START, es);
    assert Threatened(s, 0, 2);
    assert At(s, [], s);
    ThreatStarves(s, [], s, 0, 2);
  }
}
