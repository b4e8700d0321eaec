// The request/response state as one object updated in place: the endpoint
// buffers, the static m_mutex and active_handlers of the actions, the slot
// tables, and the threads. Each method is the next atomic action of one
// thread, proved against the step system of module Rpc, and keeps the whole
// invariant of the protocol.
module ActionObject {
  import opened Wrappers
  import opened Responses
  import opened SendProtocol
  import opened Rpc
  import opened RpcIds
  import opened RpcCompletion

  // What the invariant tells each thread about its own step.
  predicate HandlersStay(s: State, s': State) {
    forall x :: x in s.tables.active ==> x in s'.tables.active && s'.tables.active[x] == s.tables.active[x]
  }

  lemma AsyncKeepsHandlers(s: State, i: nat, id: Id)
    requires ClientEnabled(s, i, id) && s.tables.active.Keys <= s.past.issued.Keys
    ensures HandlersStay(s, ClientNext(s, i, id))
  {}

  lemma KnowsItsIds(s: State, i: nat)
    requires Faithful(s) && i < |s.clients|
    ensures IdsMatchCalls(s, s.clients[i])
  {
    assert ClientFaithful(s, s.clients[i]);
  }

  lemma AsyncKeeps(s: State, i: nat, id: Id)
    requires Inv(s) && ClientEnabled(s, i, id)
    ensures var s' := ClientNext(s, i, id);
      Inv(s') && IdsMatchCalls(s', s'.clients[i]) && HandlersStay(s, s')
  {
    StepKeepsInv(s, ClientStep(i, id));
    AsyncKeepsHandlers(s, i, id);
    KnowsItsIds(ClientNext(s, i, id), i);
  }

  predicate StartedFresh(s: State, s': State) {
    forall j :: |s.workers| <= j < |s'.workers| ==> FreshRequest(s', s'.workers[j].req)
  }

  lemma RequestKeeps(s: State)
    requires Inv(s) && ServerEnabled(s)
    ensures Inv(ServerNext(s)) && StartedFresh(s, ServerNext(s))
  {
    var s' := ServerNext(s);
    StepKeepsInv(s, ServerStep);
    forall j | |s.workers| <= j < |s'.workers| ensures FreshRequest(s', s'.workers[j].req) {
      assert WorkerFaithful(s', s'.workers[j]);
    }
  }

  // The server's handler is called for an issued request without an answer.
  predicate AnswersOne(s: State, s': State, req: Request, answer: Answer) {
    && req.id in s.past.issued && s.past.issued[req.id] == req
    && req.id !in s.past.answers && s'.past.answers == s.past.answers[req.id := answer]
  }

  lemma WorkKeeps(s: State, j: nat, answer: Answer)
    requires Inv(s) && WorkerEnabled(s, j)
    ensures Inv(WorkerNext(s, j, answer))
    ensures s.workers[j].pc == Running ==> AnswersOne(s, WorkerNext(s, j, answer), s.workers[j].req, answer)
  {
    StepKeepsInv(s, WorkerStep(j, answer));
    assert WorkerFaithful(s, s.workers[j]);
  }

  // A handler that is called was not called before, and is given the answer
  // to its own id.
  predicate CallsOnce(s: State, s': State) {
    && s.past.completed <= s'.past.completed && |s'.past.completed| <= |s.past.completed| + 1
    && (|s'.past.completed| > |s.past.completed| ==>
          var (id, given) := s'.past.completed[|s.past.completed|];
          && TimesCompleted(s.past.completed, id) == 0
          && id in s.past.answers && given == Decode(Encode(id, s.past.answers[id])))
  }

  lemma ResponseKeeps(s: State)
    requires Inv(s) && ReceiverEnabled(s)
    ensures Inv(ReceiverNext(s)) && ReceiverNext(s).past.badIds == 0
    ensures CallsOnce(s, ReceiverNext(s))
  {
    StepKeepsInv(s, ReceiverStep);
    if s.receiver.CCalling? {
      HandlerIsFound(s);
      assert OnceFor(s, s.receiver.reply.data.id);
    }
  }

  class ActionEndpoints {
    var request: Duct<Request>
    var response: Duct<Reply>
    var clients: seq<Client>
    var workers: seq<Worker>
    var server: ServerPc
    var receiver: ReceiverPc
    var mutexOwner: map<Act, Owner>
    var activeHandlers: map<Id, Act>
    var responseSlots: set<Act>
    var actionSlots: set<Act>
    ghost var past: Past

    ghost function View(): State
      reads this
    {
      State(request, response, clients, workers, server, receiver, mutexOwner,
            Tables(activeHandlers, responseSlots, actionSlots), past)
    }

    constructor (programs: seq<seq<Call>>, registered: set<Act>)
      ensures View() == Init(programs, registered)
      ensures Inv(View())
    {
      request, response := Duct(1, 1, 0, None, None, 0), Duct(1, 1, 0, None, None, 0);
      clients, workers := Begin(programs), [];
      server, receiver := SWaiting, CWaiting;
      mutexOwner, activeHandlers, responseSlots, actionSlots := map[], map[], {}, registered;
      past := Past(map[], map[], [], {}, {}, 0);
      new;
      InitInv(programs, registered);
    }

    // async, with what generateId returns. The handlers of other calls stay
    // where they are, and every id this thread was given is that of its call.
    method Async(i: nat, id: Id)
      requires ClientEnabled(View(), i, id)
      modifies this
      ensures View() == ClientNext(old(View()), i, id)
      ensures old(Inv(View())) ==> Inv(View()) && IdsMatchCalls(View(), clients[i])
      ensures old(Inv(View())) ==> HandlersStay(old(View()), View())
    {
      ghost var before := View();
      var c := clients[i];
      var call := Current(c);
      match c.pc {
        case Outside =>
          mutexOwner := mutexOwner[call.act := ByClient(i)];
          clients := clients[i := c.(pc := Locked)];
        case Locked =>
          responseSlots := responseSlots + {call.act};
          activeHandlers := activeHandlers[id := call.act];
          past := past.(issued := past.issued[id := Request(call.act, id, call.params)]);
          clients := clients[i := c.(pc := Sending(Ready), ids := c.ids + [id])];
        case Sending(Ready) =>
          request := request.(empty := request.empty - 1);
          clients := clients[i := c.(pc := Sending(HasSlot))];
        case Sending(HasSlot) =>
          request := request.(mutex := request.mutex - 1);
          clients := clients[i := c.(pc := Sending(InLock))];
        case Sending(InLock) =>
          if call.fits {
            var m := Some(Request(call.act, CurrentId(c), call.params));
            request := request.(buffer := m, unread := m);
            clients := clients[i := c.(pc := Sending(Copied))];
          } else {
            request := request.(lost := request.lost + 1);
            past := past.(thrown := past.thrown + {CurrentId(c)});
            clients := clients[i := c.(pc := Unlocking)];
          }
        case Sending(Copied) =>
          request := request.(mutex := request.mutex + 1);
          clients := clients[i := c.(pc := Sending(Unlocked))];
        case Sending(Unlocked) =>
          request := request.(full := request.full + 1);
          clients := clients[i := c.(pc := Unlocking)];
        case Unlocking =>
          mutexOwner := mutexOwner - {call.act};
          clients := clients[i := c.(pc := Outside, next := c.next + 1)];
      }
      assert View() == ClientNext(before, i, id);
      if Inv(before) {
        AsyncKeeps(before, i, id);
      }
    }

    // The server's receive thread with the slots registerAction installed. A
    // worker it starts has a request that was issued and not yet answered.
    method ReceiveRequest()
      requires ServerEnabled(View())
      modifies this
      ensures View() == ServerNext(old(View()))
      ensures old(Inv(View())) ==> Inv(View())
      ensures old(workers) <= workers && |workers| <= |old(workers)| + 1
      ensures old(Inv(View())) ==> StartedFresh(old(View()), View())
    {
      ghost var before := View();
      match server {
        case SWaiting =>
          request := request.(full := request.full - 1);
          server := SWoken;
        case SWoken =>
          request := request.(mutex := request.mutex - 1);
          server := SHandling;
        case SHandling =>
          var m := request.buffer.value;
          request := request.(unread := None);
          if m.act in actionSlots {
            workers := workers + [Worker(Running, m, Response(""))];
          } else {
            past := past.(dropped := past.dropped + {m.id});
          }
          server := SLeaving;
        case SLeaving =>
          request := request.(mutex := request.mutex + 1);
          server := SReleasing;
        case SReleasing =>
          request := request.(empty := request.empty + 1);
          server := SWaiting;
      }
      assert View() == ServerNext(before);
      if Inv(before) {
        RequestKeeps(before);
      }
    }

    // The detached thread of one request, with what the user's handler returns:
    // it is called for an issued request that had no answer.
    method Work(j: nat, answer: Answer)
      requires WorkerEnabled(View(), j)
      modifies this
      ensures View() == WorkerNext(old(View()), j, answer)
      ensures old(Inv(View())) ==> Inv(View())
      ensures old(Inv(View()) && workers[j].pc == Running) ==>
        AnswersOne(old(View()), View(), old(workers[j].req), answer)
    {
      ghost var before := View();
      var w := workers[j];
      match w.pc {
        case Running =>
          past := past.(answers := past.answers[w.req.id := answer]);
          workers := workers[j := w.(pc := Replying(Ready), answer := answer)];
        case Replying(Ready) =>
          response := response.(empty := response.empty - 1);
          workers := workers[j := w.(pc := Replying(HasSlot))];
        case Replying(HasSlot) =>
          response := response.(mutex := response.mutex - 1);
          workers := workers[j := w.(pc := Replying(InLock))];
        case Replying(InLock) =>
          var m := Some(Reply(w.req.act, Encode(w.req.id, w.answer)));
          response := response.(buffer := m, unread := m);
          workers := workers[j := w.(pc := Replying(Copied))];
        case Replying(Copied) =>
          response := response.(mutex := response.mutex + 1);
          workers := workers[j := w.(pc := Replying(Unlocked))];
        case Replying(Unlocked) =>
          response := response.(full := response.full + 1);
          workers := workers[j := w.(pc := Finished)];
      }
      assert View() == WorkerNext(before, j, answer);
      if Inv(before) {
        WorkKeeps(before, j, answer);
      }
    }

    // The client's receive thread with M_responseHandler. In a reachable
    // state it never finds an unknown id, and a handler it calls was not called
    // before and is given the answer to its own id.
    method ReceiveResponse() returns (badActionId: bool)
      requires ReceiverEnabled(View())
      modifies this
      ensures View() == ReceiverNext(old(View()))
      ensures badActionId <==> past.badIds > old(past.badIds)
      ensures old(Inv(View())) ==> Inv(View()) && !badActionId && CallsOnce(old(View()), View())
    {
      badActionId := false;
      ghost var before := View();
      match receiver {
        case CWaiting =>
          response := response.(full := response.full - 1);
          receiver := CWoken;
        case CWoken =>
          response := response.(mutex := response.mutex - 1);
          receiver := CHandling;
        case CHandling =>
          var m := response.buffer.value;
          response := response.(unread := None);
          receiver := if m.act in responseSlots then CLocking(m) else CLeaving;
        case CLocking(r) =>
          mutexOwner := mutexOwner[r.act := ByReceiver];
          receiver := CFinding(r);
        case CFinding(r) =>
          if r.data.id in activeHandlers && activeHandlers[r.data.id] == r.act {
            receiver := CCalling(r);
          } else {
            badActionId := true;
            past := past.(badIds := past.badIds + 1);
            receiver := CUnlocking(r.act);
          }
        case CCalling(r) =>
          past := past.(completed := past.completed + [(r.data.id, Decode(r.data))]);
          receiver := CErasing(r);
        case CErasing(r) =>
          activeHandlers := activeHandlers - {r.data.id};
          receiver := CUnlocking(r.act);
        case CUnlocking(a) =>
          mutexOwner := mutexOwner - {a};
          receiver := CLeaving;
        case CLeaving =>
          response := response.(mutex := response.mutex + 1);
          receiver := CReleasing;
        case CReleasing =>
          response := response.(empty := response.empty + 1);
          receiver := CWaiting;
      }
      assert View() == ReceiverNext(before);
      assert badActionId <==> past.badIds > before.past.badIds;
      if Inv(before) {
        ResponseKeeps(before);
      }
    }
  }
}
