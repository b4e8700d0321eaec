// Each outstanding id is in exactly one place and every reply matches its
// request: the correlation that active_handlers relies on.
module RpcIds {
  import opened Wrappers
  import opened Sums
  import opened Responses
  import opened SendProtocol
  import opened Rpc
  import opened RpcInvariant

  // ----- The place of every outstanding id -----

  // Does this thread, message or receiver hold id x? 1 or 0.
  function WithClient(x: Id): Client -> nat {
    (c: Client) => if c.pc.Sending? && c.pc.at.Written() == 0 && CurrentId(c) == x then 1 else 0
  }

  function WithWorker(x: Id): Worker -> nat {
    (w: Worker) =>
      if (w.pc.Running? || (w.pc.Replying? && w.pc.at.Written() == 0)) && w.req.id == x then 1 else 0
  }

  function InRequest(x: Id, m: Option<Request>): nat {
    if m.Some? && m.value.id == x then 1 else 0
  }

  function InReply(x: Id, m: Option<Reply>): nat {
    if m.Some? && m.value.data.id == x then 1 else 0
  }

  // The response M_responseHandler is working on.
  function InHand(p: ReceiverPc): Option<Reply> {
    match p
    case CLocking(r) => Some(r)
    case CFinding(r) => Some(r)
    case CCalling(r) => Some(r)
    case CErasing(r) => Some(r)
    case _ => None
  }

  // In how many places id x is: with clients that have not copied their
  // request in, in the request buffer, with workers, in the response buffer,
  // with the client's receiver, dropped by the server, or thrown out of send.
  ghost function Places(s: State, x: Id): nat {
    Sum(WithClient(x), s.clients) + InRequest(x, s.req.unread) + Sum(WithWorker(x), s.workers)
    + InReply(x, s.resp.unread) + InReply(x, InHand(s.receiver))
    + (if x in s.past.dropped then 1 else 0) + (if x in s.past.thrown then 1 else 0)
  }

  ghost predicate OnePlace(s: State) {
    forall x :: Places(s, x) == if x in s.tables.active then 1 else 0
  }

  // ----- What the messages on their way say -----

  // A request that is nowhere but here: issued, registered in
  // active_handlers under its action, response slot connected, not answered.
  predicate FreshRequest(s: State, q: Request) {
    && q.id in s.past.issued && s.past.issued[q.id] == q
    && q.act in s.tables.slots
    && q.id !in s.past.answers
    && (q.id in s.tables.active ==> s.tables.active[q.id] == q.act)
  }

  // A reply carries the server handler's answer to the request of its id.
  predicate GenuineReply(s: State, r: Reply) {
    && r.data.id in s.past.issued && s.past.issued[r.data.id].act == r.act
    && s.past.issued[r.data.id].id == r.data.id
    && r.act in s.tables.slots
    && r.data.id in s.past.answers && r.data == Encode(r.data.id, s.past.answers[r.data.id])
    && (r.data.id in s.tables.active ==> s.tables.active[r.data.id] == r.act)
  }

  // Each id async returned to this thread was issued for that very call.
  predicate IdsMatchCalls(s: State, c: Client) {
    && |c.ids| == (if c.pc.Sending? || c.pc.Unlocking? then c.next + 1 else c.next)
    && |c.ids| <= |c.calls|
    && forall k :: 0 <= k < |c.ids| ==>
         && c.ids[k] in s.past.issued
         && s.past.issued[c.ids[k]] == Request(c.calls[k].act, c.ids[k], c.calls[k].params)
  }

  predicate ClientFaithful(s: State, c: Client) {
    && IdsMatchCalls(s, c)
    && (c.pc.Sending? && c.pc.at.Written() == 0 ==>
          FreshRequest(s, Request(Current(c).act, CurrentId(c), Current(c).params)))
  }

  predicate WorkerFaithful(s: State, w: Worker) {
    && (w.pc.Running? ==> FreshRequest(s, w.req))
    && (w.pc.Replying? && w.pc.at.Written() == 0 ==> GenuineReply(s, Reply(w.req.act, Encode(w.req.id, w.answer))))
  }

  ghost predicate Faithful(s: State) {
    && (forall i :: 0 <= i < |s.clients| ==> ClientFaithful(s, s.clients[i]))
    && (s.req.unread.Some? ==> FreshRequest(s, s.req.unread.value))
    && (forall j :: 0 <= j < |s.workers| ==> WorkerFaithful(s, s.workers[j]))
    && (s.resp.unread.Some? ==> GenuineReply(s, s.resp.unread.value))
    && (InHand(s.receiver).Some? ==> GenuineReply(s, InHand(s.receiver).value))
    && s.tables.active.Keys <= s.past.issued.Keys
    && s.past.answers.Keys <= s.past.issued.Keys
  }

  // What a step can do to the books: add fresh ids, slots and answers, and
  // remove active ids.
  predicate Grows(s: State, s': State) {
    && (forall id :: id in s.past.issued ==> id in s'.past.issued && s'.past.issued[id] == s.past.issued[id])
    && s.tables.slots <= s'.tables.slots
    && (forall id :: id in s.past.answers ==> id in s'.past.answers && s'.past.answers[id] == s.past.answers[id])
    && (forall id :: id in s'.tables.active && id in s.past.issued ==>
          id in s.tables.active && s'.tables.active[id] == s.tables.active[id])
  }

  // With no new answer, everything on its way stays as it should be.
  lemma FaithfulStays(s: State, s': State)
    requires Faithful(s) && Grows(s, s') && s'.past.answers == s.past.answers
    ensures forall i :: 0 <= i < |s.clients| ==> ClientFaithful(s', s.clients[i])
    ensures s.req.unread.Some? ==> FreshRequest(s', s.req.unread.value)
    ensures forall j :: 0 <= j < |s.workers| ==> WorkerFaithful(s', s.workers[j])
    ensures s.resp.unread.Some? ==> GenuineReply(s', s.resp.unread.value)
    ensures InHand(s.receiver).Some? ==> GenuineReply(s', InHand(s.receiver).value)
  {
    forall i | 0 <= i < |s.clients| ensures ClientFaithful(s', s.clients[i]) {
      assert ClientFaithful(s, s.clients[i]);
    }
    forall j | 0 <= j < |s.workers| ensures WorkerFaithful(s', s.workers[j]) {
      assert WorkerFaithful(s, s.workers[j]);
    }
  }

  // ----- Client steps -----

  lemma ClientGrows(s: State, i: nat, id: Id)
    requires Faithful(s) && ClientEnabled(s, i, id)
    ensures Grows(s, ClientNext(s, i, id))
    ensures ClientNext(s, i, id).past.answers == s.past.answers
  {}

  // A new call is registered under a new id.
  lemma ClientIssuesFaithful(s: State, i: nat, id: Id)
    requires ClientEnabled(s, i, id) && ClientFaithful(s, s.clients[i]) && s.clients[i].pc == Locked
    requires s.past.answers.Keys <= s.past.issued.Keys
    ensures ClientFaithful(ClientNext(s, i, id), ClientNext(s, i, id).clients[i])
  {
    var c := s.clients[i];
    assert ClientNext(s, i, id).clients[i].ids[..c.next] == c.ids;
  }

  // The thread that moved; the request it copies in stays fresh.
  lemma ClientMovedFaithful(s: State, i: nat, id: Id)
    requires ClientEnabled(s, i, id) && ClientFaithful(s, s.clients[i])
    requires s.past.answers.Keys <= s.past.issued.Keys
    ensures ClientFaithful(ClientNext(s, i, id), ClientNext(s, i, id).clients[i])
    ensures s.clients[i].pc == Sending(InLock) && Current(s.clients[i]).fits ==>
      FreshRequest(ClientNext(s, i, id), ClientNext(s, i, id).req.unread.value)
  {
    if s.clients[i].pc == Locked {
      ClientIssuesFaithful(s, i, id);
    }
  }

  lemma ClientKeepsFaithful(s: State, i: nat, id: Id)
    requires Faithful(s) && ClientEnabled(s, i, id)
    ensures Faithful(ClientNext(s, i, id))
  {
    var s' := ClientNext(s, i, id);
    ClientGrows(s, i, id);
    FaithfulStays(s, s');
    ClientMovedFaithful(s, i, id);
    forall k | 0 <= k < |s'.clients| ensures ClientFaithful(s', s'.clients[k]) {
      assert k != i ==> s'.clients[k] == s.clients[k];
    }
  }

  // A client takes an id into its hands when it registers the handler, and
  // into the buffer when it copies the request in.
  lemma ClientMoves(s: State, i: nat, id: Id, x: Id)
    requires ClientEnabled(s, i, id) && IdsMatchCalls(s, s.clients[i])
    requires s.clients[i].pc == Sending(InLock) ==> s.req.unread == None
    requires s.tables.active.Keys <= s.past.issued.Keys
    requires WithClient(x)(s.clients[i]) == 1 ==> x !in s.past.thrown
    ensures var s' := ClientNext(s, i, id);
      var c, c' := s.clients[i], s'.clients[i];
      var added := if c.pc == Locked && id == x then 1 else 0;
      && s'.clients == s.clients[i := c']
      && WithClient(x)(c') + InRequest(x, s'.req.unread) + (if x in s'.past.thrown then 1 else 0)
         == WithClient(x)(c) + InRequest(x, s.req.unread) + (if x in s.past.thrown then 1 else 0) + added
      && (added == 1 ==> x !in s.tables.active)
      && (x in s'.tables.active <==> x in s.tables.active || added == 1)
      && s'.workers == s.workers && s'.resp == s.resp && s'.receiver == s.receiver
      && s'.past.dropped == s.past.dropped
  {}

  lemma ClientKeepsOnePlace(s: State, i: nat, id: Id, x: Id)
    requires Faithful(s) && OnePlace(s) && ClientEnabled(s, i, id)
    requires s.clients[i].pc == Sending(InLock) ==> s.req.unread == None
    ensures var s' := ClientNext(s, i, id); Places(s', x) == if x in s'.tables.active then 1 else 0
  {
    assert ClientFaithful(s, s.clients[i]);
    assert Places(s, x) == if x in s.tables.active then 1 else 0;
    SumUpdate(WithClient(x), s.clients, i, ClientNext(s, i, id).clients[i]);
    SumAt(WithClient(x), s.clients, i);
    ClientMoves(s, i, id, x);
  }

  // ----- Server steps -----

  lemma ServerGrows(s: State)
    requires ServerEnabled(s)
    ensures Grows(s, ServerNext(s)) && ServerNext(s).past.answers == s.past.answers
    ensures ServerNext(s).past.issued == s.past.issued && ServerNext(s).tables == s.tables
  {}

  // The server reads the message that is in the buffer, and is the only one
  // to have read it.
  lemma ServerReadsUnread(s: State)
    requires RequestTokens(s) && s.server.SHandling?
    ensures s.req.unread.Some? && s.req.unread == s.req.buffer
  {}

  lemma ServerKeepsFaithful(s: State)
    requires Faithful(s) && ServerEnabled(s)
    requires s.server.SHandling? ==> s.req.unread == s.req.buffer
    ensures Faithful(ServerNext(s))
  {
    ServerGrows(s);
    FaithfulStays(s, ServerNext(s));
  }

  lemma ServerTakes(s: State, x: Id)
    requires ServerEnabled(s) && s.server.SHandling? && s.req.unread == s.req.buffer
    requires s.req.buffer.value.id == x ==> x !in s.past.dropped
    ensures var s' := ServerNext(s);
      && s'.clients == s.clients && s'.resp == s.resp && s'.receiver == s.receiver
      && s'.past.thrown == s.past.thrown && s'.req.unread == None
      && Sum(WithWorker(x), s'.workers) + (if x in s'.past.dropped then 1 else 0)
         == Sum(WithWorker(x), s.workers) + (if x in s.past.dropped then 1 else 0) + InRequest(x, s.req.unread)
  {
    SumAppend(WithWorker(x), s.workers, Worker(Running, s.req.buffer.value, Response("")));
  }

  // A request moves from the buffer to its worker, or is dropped.
  lemma ServerMovesPlace(s: State, x: Id)
    requires ServerEnabled(s)
    requires s.server.SHandling? ==> s.req.unread == s.req.buffer
    requires s.server.SHandling? && s.req.buffer.value.id == x ==> x !in s.past.dropped
    ensures Places(ServerNext(s), x) == Places(s, x)
  {
    if s.server.SHandling? {
      ServerTakes(s, x);
    }
  }

  lemma ServerKeepsOnePlace(s: State, x: Id)
    requires OnePlace(s) && ServerEnabled(s)
    requires s.server.SHandling? ==> s.req.unread == s.req.buffer
    ensures var s' := ServerNext(s); Places(s', x) == if x in s'.tables.active then 1 else 0
  {
    assert Places(s, x) == if x in s.tables.active then 1 else 0;
    ServerMovesPlace(s, x);
  }

  // ----- Worker steps -----

  // The id of a running worker is nowhere else.
  lemma RunningIdIsAlone(s: State, j: nat)
    requires OnePlace(s) && j < |s.workers| && s.workers[j].pc.Running?
    ensures var id := s.workers[j].req.id;
      && (forall i :: 0 <= i < |s.clients| ==> WithClient(id)(s.clients[i]) == 0)
      && (s.req.unread.Some? ==> s.req.unread.value.id != id)
      && (forall k :: 0 <= k < |s.workers| && k != j ==> WithWorker(id)(s.workers[k]) == 0)
  {
    var id := s.workers[j].req.id;
    assert Places(s, id) <= 1;
    SumAt(WithWorker(id), s.workers, j);
    forall i | 0 <= i < |s.clients| ensures WithClient(id)(s.clients[i]) == 0 {
      SumAt(WithClient(id), s.clients, i);
    }
    forall k | 0 <= k < |s.workers| && k != j ensures WithWorker(id)(s.workers[k]) == 0 {
      if k < j {
        SumAtTwo(WithWorker(id), s.workers, k, j);
      } else {
        SumAtTwo(WithWorker(id), s.workers, j, k);
      }
    }
  }

  lemma WorkerGrows(s: State, j: nat, answer: Answer)
    requires Faithful(s) && WorkerEnabled(s, j)
    ensures Grows(s, WorkerNext(s, j, answer))
  {
    assert WorkerFaithful(s, s.workers[j]);
  }

  lemma AnswerKeepsFaithful(s: State, j: nat, answer: Answer)
    requires Faithful(s) && OnePlace(s) && j < |s.workers| && s.workers[j].pc.Running?
    ensures Faithful(WorkerNext(s, j, answer))
  {
    var s' := WorkerNext(s, j, answer);
    var id := s.workers[j].req.id;
    WorkerGrows(s, j, answer);
    RunningIdIsAlone(s, j);
    assert WorkerFaithful(s, s.workers[j]);
    forall i | 0 <= i < |s'.clients| ensures ClientFaithful(s', s'.clients[i]) {
      assert ClientFaithful(s, s.clients[i]) && WithClient(id)(s.clients[i]) == 0;
    }
    forall k | 0 <= k < |s'.workers| ensures WorkerFaithful(s', s'.workers[k]) {
      assert WorkerFaithful(s, s.workers[k]);
      assert k != j ==> WithWorker(id)(s.workers[k]) == 0;
    }
  }

  lemma ReplyKeepsFaithful(s: State, j: nat, answer: Answer)
    requires Faithful(s) && WorkerEnabled(s, j) && s.workers[j].pc.Replying?
    ensures Faithful(WorkerNext(s, j, answer))
  {
    var s' := WorkerNext(s, j, answer);
    WorkerGrows(s, j, answer);
    FaithfulStays(s, s');
    assert WorkerFaithful(s, s.workers[j]);
    forall k | 0 <= k < |s'.workers| ensures WorkerFaithful(s', s'.workers[k]) {
      assert k != j ==> s'.workers[k] == s.workers[k];
    }
  }

  lemma WorkerKeepsFaithful(s: State, j: nat, answer: Answer)
    requires Faithful(s) && OnePlace(s) && WorkerEnabled(s, j)
    ensures Faithful(WorkerNext(s, j, answer))
  {
    if s.workers[j].pc.Running? {
      AnswerKeepsFaithful(s, j, answer);
    } else {
      ReplyKeepsFaithful(s, j, answer);
    }
  }

  lemma WorkerKeepsOnePlace(s: State, j: nat, answer: Answer, x: Id)
    requires OnePlace(s) && WorkerEnabled(s, j)
    requires s.workers[j].pc == Replying(InLock) ==> s.resp.unread == None
    ensures var s' := WorkerNext(s, j, answer); Places(s', x) == if x in s'.tables.active then 1 else 0
  {
    assert Places(s, x) == if x in s.tables.active then 1 else 0;
    SumUpdate(WithWorker(x), s.workers, j, WorkerNext(s, j, answer).workers[j]);
    var w := s.workers[j];
    if w.pc == Replying(InLock) {
      AnswerRoundTrip(w.req.id, w.answer);
    }
  }

  // ----- Receiver steps -----

  lemma ReceiverReadsUnread(s: State)
    requires ResponseTokens(s) && s.receiver.CHandling?
    ensures s.resp.unread.Some? && s.resp.unread == s.resp.buffer
  {}

  lemma ReceiverGrows(s: State)
    requires ReceiverEnabled(s)
    ensures Grows(s, ReceiverNext(s)) && ReceiverNext(s).past.answers == s.past.answers
    ensures ReceiverNext(s).past.issued == s.past.issued
  {}

  lemma ReceiverKeepsFaithful(s: State)
    requires Faithful(s) && ReceiverEnabled(s)
    requires s.receiver.CHandling? ==> s.resp.unread == s.resp.buffer
    ensures Faithful(ReceiverNext(s))
  {
    ReceiverGrows(s);
    FaithfulStays(s, ReceiverNext(s));
  }

  // The id in M_responseHandler's hand is a key of active_handlers under its
  // own action: BadActionId is never thrown.
  lemma HandlerIsFound(s: State)
    requires Faithful(s) && OnePlace(s) && InHand(s.receiver).Some?
    ensures var r := InHand(s.receiver).value;
      r.data.id in s.tables.active && s.tables.active[r.data.id] == r.act
  {
    var id := InHand(s.receiver).value.data.id;
    assert Places(s, id) >= 1;
  }

  // What counts as BadActionId: looking up an id that is not among the
  // handlers of the reply's action. The handler runs otherwise.
  lemma BadIdsAreCounted(s: State)
    requires ReceiverEnabled(s) && s.receiver.CFinding?
    ensures var r := s.receiver.reply;
      var found := r.data.id in s.tables.active && s.tables.active[r.data.id] == r.act;
      && ReceiverNext(s).past.badIds == s.past.badIds + (if found then 0 else 1)
      && ReceiverNext(s).receiver == (if found then CCalling(r) else CUnlocking(r.act))
  {}

  lemma NoBadActionId(s: State)
    requires Faithful(s) && OnePlace(s) && ReceiverEnabled(s)
    ensures ReceiverNext(s).past.badIds == s.past.badIds
  {
    if s.receiver.CFinding? {
      HandlerIsFound(s);
    }
  }

  // The receiver takes the id out of the buffer, keeps it in hand, and lets
  // go of it when it erases the handler.
  lemma ReceiverMoves(s: State, x: Id)
    requires ReceiverEnabled(s)
    requires s.receiver.CHandling? ==> s.resp.unread == s.resp.buffer && s.resp.buffer.value.act in s.tables.slots
    requires s.receiver.CFinding? ==>
      var r := s.receiver.reply; r.data.id in s.tables.active && s.tables.active[r.data.id] == r.act
    ensures var s' := ReceiverNext(s);
      var erased := if s.receiver.CErasing? && s.receiver.reply.data.id == x then 1 else 0;
      && InReply(x, s'.resp.unread) + InReply(x, InHand(s'.receiver)) + erased
         == InReply(x, s.resp.unread) + InReply(x, InHand(s.receiver))
      && (x in s'.tables.active <==> x in s.tables.active && erased == 0)
      && s'.clients == s.clients && s'.workers == s.workers && s'.req == s.req
      && s'.past.dropped == s.past.dropped
  {}

  lemma ReceiverKeepsOnePlace(s: State, x: Id)
    requires Faithful(s) && OnePlace(s) && ReceiverEnabled(s)
    requires s.receiver.CHandling? ==> s.resp.unread == s.resp.buffer
    ensures var s' := ReceiverNext(s); Places(s', x) == if x in s'.tables.active then 1 else 0
  {
    assert Places(s, x) == if x in s.tables.active then 1 else 0;
    if InHand(s.receiver).Some? {
      HandlerIsFound(s);
    }
    ReceiverMoves(s, x);
  }

  // ----- Every step -----

  lemma StepKeepsIds(s: State, e: Event)
    requires RequestTokens(s) && ResponseTokens(s) && Faithful(s) && OnePlace(s) && Enabled(s, e)
    ensures Faithful(Next(s, e)) && OnePlace(Next(s, e))
    ensures Next(s, e).past.badIds == s.past.badIds
  {
    var s' := Next(s, e);
    match e {
      case ClientStep(i, id) =>
        ClientKeepsRequestTokens(s, i, id);
        ClientKeepsFaithful(s, i, id);
        forall x ensures Places(s', x) == if x in s'.tables.active then 1 else 0 {
          ClientKeepsOnePlace(s, i, id, x);
        }
      case ServerStep =>
        if s.server.SHandling? {
          ServerReadsUnread(s);
        }
        ServerKeepsFaithful(s);
        forall x ensures Places(s', x) == if x in s'.tables.active then 1 else 0 {
          ServerKeepsOnePlace(s, x);
        }
      case WorkerStep(j, answer) =>
        WorkerKeepsResponseTokens(s, j, answer);
        WorkerKeepsFaithful(s, j, answer);
        forall x ensures Places(s', x) == if x in s'.tables.active then 1 else 0 {
          WorkerKeepsOnePlace(s, j, answer, x);
        }
      case ReceiverStep =>
        if s.receiver.CHandling? {
          ReceiverReadsUnread(s);
        }
        ReceiverKeepsFaithful(s);
        forall x ensures Places(s', x) == if x in s'.tables.active then 1 else 0 {
          ReceiverKeepsOnePlace(s, x);
        }
        NoBadActionId(s);
    }
  }
}
