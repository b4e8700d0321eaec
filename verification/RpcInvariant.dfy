// What every step of the request/response protocol keeps: the tokens of both
// buffers, the ownership of each action's m_mutex, and the place of every
// outstanding id.
module RpcInvariant {
  import opened Wrappers
  import opened Sums
  import opened Responses
  import opened SendProtocol
  import opened Rpc

  // ----- Tokens of the two buffers -----

  function ClientUnwritten(c: Client): nat { if c.pc.Sending? then c.pc.at.Unwritten() else 0 }
  function ClientWritten(c: Client): nat { if c.pc.Sending? then c.pc.at.Written() else 0 }
  function ClientHolding(c: Client): nat { if c.pc.Sending? then c.pc.at.Holding() else 0 }

  function WorkerUnwritten(w: Worker): nat { if w.pc.Replying? then w.pc.at.Unwritten() else 0 }
  function WorkerWritten(w: Worker): nat { if w.pc.Replying? then w.pc.at.Written() else 0 }
  function WorkerHolding(w: Worker): nat { if w.pc.Replying? then w.pc.at.Holding() else 0 }

  function ServerUnread(p: ServerPc): nat { if p.SWoken? || p.SHandling? then 1 else 0 }
  function ServerRead(p: ServerPc): nat { if p.SLeaving? || p.SReleasing? then 1 else 0 }
  function ServerHolding(p: ServerPc): nat { if p.SHandling? || p.SLeaving? then 1 else 0 }

  function ReceiverUnread(p: ReceiverPc): nat { if p.CWoken? || p.CHandling? then 1 else 0 }
  function ReceiverRead(p: ReceiverPc): nat { if p.CWaiting? then 0 else 1 - ReceiverUnread(p) }
  function ReceiverHolding(p: ReceiverPc): nat {
    if p.CWaiting? || p.CWoken? || p.CReleasing? then 0 else 1
  }

  function Count<M>(m: Option<M>): nat { if m.Some? then 1 else 0 }

  ghost predicate RequestTokens(s: State) {
    && s.req.empty + s.req.full + Sum(ClientUnwritten, s.clients) + Sum(ClientWritten, s.clients)
       + ServerUnread(s.server) + ServerRead(s.server) + s.req.lost == 1
    && s.req.mutex + Sum(ClientHolding, s.clients) + ServerHolding(s.server) + s.req.lost == 1
    && Count(s.req.unread) == s.req.full + Sum(ClientWritten, s.clients) + ServerUnread(s.server)
    && (s.req.unread.Some? ==> s.req.buffer == s.req.unread)
  }

  ghost predicate ResponseTokens(s: State) {
    && s.resp.empty + s.resp.full + Sum(WorkerUnwritten, s.workers) + Sum(WorkerWritten, s.workers)
       + ReceiverUnread(s.receiver) + ReceiverRead(s.receiver) == 1
    && s.resp.mutex + Sum(WorkerHolding, s.workers) + ReceiverHolding(s.receiver) == 1
    && Count(s.resp.unread) == s.resp.full + Sum(WorkerWritten, s.workers) + ReceiverUnread(s.receiver)
    && (s.resp.unread.Some? ==> s.resp.buffer == s.resp.unread)
  }

  // Replacing one thread moves every total by that thread's own weights.
  lemma ClientSums(cs: seq<Client>, i: nat, c: Client)
    requires i < |cs|
    ensures Sum(ClientUnwritten, cs[i := c]) + ClientUnwritten(cs[i]) == Sum(ClientUnwritten, cs) + ClientUnwritten(c)
    ensures Sum(ClientWritten, cs[i := c]) + ClientWritten(cs[i]) == Sum(ClientWritten, cs) + ClientWritten(c)
    ensures Sum(ClientHolding, cs[i := c]) + ClientHolding(cs[i]) == Sum(ClientHolding, cs) + ClientHolding(c)
  {
    SumUpdate(ClientUnwritten, cs, i, c);
    SumUpdate(ClientWritten, cs, i, c);
    SumUpdate(ClientHolding, cs, i, c);
  }

  lemma ClientKeepsRequestTokens(s: State, i: nat, id: Id)
    requires RequestTokens(s) && ClientEnabled(s, i, id)
    ensures RequestTokens(ClientNext(s, i, id))
    ensures s.clients[i].pc == Sending(InLock) ==> s.req.unread == None
  {
    var c' := ClientNext(s, i, id).clients[i];
    ClientSums(s.clients, i, c');
    SumAt(ClientUnwritten, s.clients, i);
  }

  lemma ClientKeepsResponseTokens(s: State, i: nat, id: Id)
    requires ResponseTokens(s) && ClientEnabled(s, i, id)
    ensures ResponseTokens(ClientNext(s, i, id))
  {}

  lemma ServerKeepsRequestTokens(s: State)
    requires RequestTokens(s) && ServerEnabled(s)
    ensures RequestTokens(ServerNext(s))
  {}

  lemma ServerKeepsResponseTokens(s: State)
    requires ResponseTokens(s) && ServerEnabled(s)
    ensures ResponseTokens(ServerNext(s))
  {
    if s.server.SHandling? {
      var w := Worker(Running, s.req.buffer.value, Response(""));
      SumAppend(WorkerUnwritten, s.workers, w);
      SumAppend(WorkerWritten, s.workers, w);
      SumAppend(WorkerHolding, s.workers, w);
    }
  }

  lemma WorkerKeepsRequestTokens(s: State, j: nat, answer: Answer)
    requires RequestTokens(s) && WorkerEnabled(s, j)
    ensures RequestTokens(WorkerNext(s, j, answer))
  {}

  lemma WorkerKeepsResponseTokens(s: State, j: nat, answer: Answer)
    requires ResponseTokens(s) && WorkerEnabled(s, j)
    ensures ResponseTokens(WorkerNext(s, j, answer))
    ensures s.workers[j].pc == Replying(InLock) ==> s.resp.unread == None
  {
    var w' := WorkerNext(s, j, answer).workers[j];
    SumUpdate(WorkerUnwritten, s.workers, j, w');
    SumUpdate(WorkerWritten, s.workers, j, w');
    SumUpdate(WorkerHolding, s.workers, j, w');
    SumAt(WorkerUnwritten, s.workers, j);
  }

  lemma ReceiverKeepsRequestTokens(s: State)
    requires RequestTokens(s) && ReceiverEnabled(s)
    ensures RequestTokens(ReceiverNext(s))
  {}

  lemma ReceiverKeepsResponseTokens(s: State)
    requires ResponseTokens(s) && ReceiverEnabled(s)
    ensures ResponseTokens(ReceiverNext(s))
  {}

  lemma StepKeepsTokens(s: State, e: Event)
    requires RequestTokens(s) && ResponseTokens(s) && Enabled(s, e)
    ensures RequestTokens(Next(s, e)) && ResponseTokens(Next(s, e))
  {
    match e
    case ClientStep(i, id) =>
      ClientKeepsRequestTokens(s, i, id);
      ClientKeepsResponseTokens(s, i, id);
    case ServerStep =>
      ServerKeepsRequestTokens(s);
      ServerKeepsResponseTokens(s);
    case WorkerStep(j, answer) =>
      WorkerKeepsRequestTokens(s, j, answer);
      WorkerKeepsResponseTokens(s, j, answer);
    case ReceiverStep =>
      ReceiverKeepsRequestTokens(s);
      ReceiverKeepsResponseTokens(s);
  }

  // ----- Ownership of m_mutex -----

  function ReceiverAct(p: ReceiverPc): Option<Act> {
    match p
    case CFinding(r) => Some(r.act)
    case CCalling(r) => Some(r.act)
    case CErasing(r) => Some(r.act)
    case CUnlocking(a) => Some(a)
    case _ => None
  }

  predicate ClientOk(s: State, i: nat)
    requires i < |s.clients|
  {
    var c := s.clients[i];
    c.pc != Outside ==>
      && c.next < |c.calls|
      && Current(c).act in s.owner && s.owner[Current(c).act] == ByClient(i)
  }

  predicate OwnerOk(s: State, a: Act)
    requires a in s.owner
  {
    match s.owner[a]
    case ByClient(i) =>
      && i < |s.clients| && s.clients[i].pc != Outside
      && s.clients[i].next < |s.clients[i].calls| && Current(s.clients[i]).act == a
    case ByReceiver => ReceiverAct(s.receiver) == Some(a)
  }

  // A thread is inside async or M_responseHandler exactly when it owns the
  // mutex of that action.
  ghost predicate Ownership(s: State) {
    && (forall i :: 0 <= i < |s.clients| ==> ClientOk(s, i))
    && (forall a :: a in s.owner ==> OwnerOk(s, a))
    && (ReceiverAct(s.receiver).Some? ==>
          ReceiverAct(s.receiver).value in s.owner && s.owner[ReceiverAct(s.receiver).value] == ByReceiver)
  }

  lemma OwnersStay(s: State, i: nat, id: Id, a: Act)
    requires ClientEnabled(s, i, id) && ClientOk(s, i) && (a in s.owner ==> OwnerOk(s, a))
    requires a in ClientNext(s, i, id).owner
    ensures OwnerOk(ClientNext(s, i, id), a)
  {}

  lemma ClientsStay(s: State, i: nat, id: Id, k: nat)
    requires ClientEnabled(s, i, id) && k < |s.clients| && ClientOk(s, i) && ClientOk(s, k)
    ensures ClientOk(ClientNext(s, i, id), k)
  {}

  lemma ClientKeepsOwnership(s: State, i: nat, id: Id)
    requires Ownership(s) && ClientEnabled(s, i, id)
    ensures Ownership(ClientNext(s, i, id))
  {
    var s' := ClientNext(s, i, id);
    assert ClientOk(s, i);
    forall k | 0 <= k < |s'.clients| ensures ClientOk(s', k) {
      assert ClientOk(s, k);
      ClientsStay(s, i, id, k);
    }
    forall a | a in s'.owner ensures OwnerOk(s', a) {
      OwnersStay(s, i, id, a);
    }
  }

  lemma OthersKeepOwnership(s: State, e: Event)
    requires Ownership(s) && Enabled(s, e) && (e.ServerStep? || e.WorkerStep?)
    ensures Ownership(Next(s, e))
  {
    var s' := Next(s, e);
    forall k | 0 <= k < |s'.clients| ensures ClientOk(s', k) {
      assert ClientOk(s, k);
    }
    forall a | a in s'.owner ensures OwnerOk(s', a) {
      assert OwnerOk(s, a);
    }
  }

  lemma ReceiverKeepsOwnership(s: State)
    requires Ownership(s) && ReceiverEnabled(s)
    ensures Ownership(ReceiverNext(s))
  {
    var s' := ReceiverNext(s);
    forall k | 0 <= k < |s'.clients| ensures ClientOk(s', k) {
      assert ClientOk(s, k);
    }
    forall a | a in s'.owner ensures OwnerOk(s', a) {
      assert a in s.owner ==> OwnerOk(s, a);
    }
  }

  lemma StepKeepsOwnership(s: State, e: Event)
    requires Ownership(s) && Enabled(s, e)
    ensures Ownership(Next(s, e))
  {
    match e
    case ClientStep(i, id) => ClientKeepsOwnership(s, i, id);
    case ReceiverStep => ReceiverKeepsOwnership(s);
    case _ => OthersKeepOwnership(s, e);
  }
}
