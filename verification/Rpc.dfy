// The request/response protocol over one full-duplex endpoint pair: client
// threads call async, the server's receive thread spawns one worker per
// request, and the client's receive thread runs M_responseHandler inside its
// receive critical section (inc/lesf/ipc/user_actions.h,
// inc/lesf/ipc/action_server.h, src/ipc/endpoint.cpp).
//
// One step is one semaphore or mutex operation, one buffer access, or one
// call of user code. No shutdown happens, every response fits, and user
// handlers return without calling async themselves.
module Rpc {
  import opened Wrappers
  import opened Responses
  import opened SendProtocol

  type Act = nat

  // `fits` says whether the request of the call fits the buffer.
  datatype Call = Call(act: Act, params: string, fits: bool)

  // ActionData and ResponseData; the type of the message names the action.
  datatype Request = Request(act: Act, id: Id, params: string)
  datatype Reply = Reply(act: Act, data: ResponseData)

  // A one-way buffer. `unread` is its message until the receiver reads it, and
  // `lost` counts the throws out of send, each of which kept a slot token and
  // the mutex.
  datatype Duct<M> = Duct(mutex: nat, empty: nat, full: nat, buffer: Option<M>, unread: Option<M>, lost: nat)

  // async: before the lock, holding m_mutex, in Endpoint::send, about to
  // release m_mutex.
  datatype ClientPc = Outside | Locked | Sending(at: SendPc) | Unlocking

  // A client thread makes the calls of its program in order; `ids` are the
  // ids its calls of async got.
  datatype Client = Client(pc: ClientPc, calls: seq<Call>, next: nat, ids: seq<Id>)

  datatype WorkerPc = Running | Replying(at: SendPc) | Finished
  datatype Worker = Worker(pc: WorkerPc, req: Request, answer: Answer)

  datatype ServerPc = SWaiting | SWoken | SHandling | SLeaving | SReleasing

  // The client's receive thread; from CLocking to CUnlocking it is inside
  // M_responseHandler.
  datatype ReceiverPc = CWaiting | CWoken | CHandling
                      | CLocking(reply: Reply) | CFinding(reply: Reply)
                      | CCalling(reply: Reply) | CErasing(reply: Reply)
                      | CUnlocking(act: Act)
                      | CLeaving | CReleasing

  // Who holds the static m_mutex of an action.
  datatype Owner = ByClient(i: nat) | ByReceiver

  // active_handlers and the registered response slots, for every action, and
  // the actions the server registered.
  datatype Tables = Tables(active: map<Id, Act>, slots: set<Act>, registered: set<Act>)

  // The run so far: requests issued, what server handlers returned, user
  // handler calls, requests the server could not dispatch, requests whose send
  // threw, BadActionId throws.
  datatype Past = Past(issued: map<Id, Request>, answers: map<Id, Answer>,
                       completed: seq<(Id, Answer)>, dropped: set<Id>, thrown: set<Id>, badIds: nat)

  datatype State = State(
    req: Duct<Request>, resp: Duct<Reply>,
    clients: seq<Client>, workers: seq<Worker>, server: ServerPc, receiver: ReceiverPc,
    owner: map<Act, Owner>, tables: Tables, past: Past)

  function Begin(programs: seq<seq<Call>>): (r: seq<Client>)
    ensures |r| == |programs|
    ensures forall i :: 0 <= i < |r| ==> r[i] == Client(Outside, programs[i], 0, [])
  {
    seq(|programs|, i requires 0 <= i < |programs| => Client(Outside, programs[i], 0, []))
  }

  function Init(programs: seq<seq<Call>>, registered: set<Act>): State {
    State(Duct(1, 1, 0, None, None, 0), Duct(1, 1, 0, None, None, 0), Begin(programs), [],
          SWaiting, CWaiting, map[], Tables(map[], {}, registered), Past(map[], map[], [], {}, {}, 0))
  }

  // ----- Steps -----

  // `id` is what generateId returns and `answer` what the server's handler
  // returns, in the steps that need one.
  datatype Event = ClientStep(i: nat, id: Id) | ServerStep
                 | WorkerStep(j: nat, answer: Answer) | ReceiverStep

  function Current(c: Client): Call
    requires c.next < |c.calls|
  {
    c.calls[c.next]
  }

  function CurrentId(c: Client): Id {
    if c.next < |c.ids| then c.ids[c.next] else 0
  }

  predicate ClientEnabled(s: State, i: nat, id: Id) {
    && i < |s.clients|
    && s.clients[i].next < |s.clients[i].calls|
    && match s.clients[i].pc
       case Outside => Current(s.clients[i]).act !in s.owner
       case Locked => id !in s.past.issued
       case Sending(Ready) => s.req.empty > 0
       case Sending(HasSlot) => s.req.mutex > 0
       case _ => true
  }

  function ClientNext(s: State, i: nat, id: Id): State
    requires ClientEnabled(s, i, id)
  {
    var c := s.clients[i];
    var call := Current(c);
    match c.pc
    case Outside =>
      s.(owner := s.owner[call.act := ByClient(i)], clients := s.clients[i := c.(pc := Locked)])
    case Locked =>
      s.(tables := s.tables.(slots := s.tables.slots + {call.act}, active := s.tables.active[id := call.act]),
         past := s.past.(issued := s.past.issued[id := Request(call.act, id, call.params)]),
         clients := s.clients[i := c.(pc := Sending(Ready), ids := c.ids + [id])])
    case Sending(Ready) =>
      s.(req := s.req.(empty := s.req.empty - 1), clients := s.clients[i := c.(pc := Sending(HasSlot))])
    case Sending(HasSlot) =>
      s.(req := s.req.(mutex := s.req.mutex - 1), clients := s.clients[i := c.(pc := Sending(InLock))])
    case Sending(InLock) =>
      if call.fits then
        var m := Some(Request(call.act, CurrentId(c), call.params));
        s.(req := s.req.(buffer := m, unread := m), clients := s.clients[i := c.(pc := Sending(Copied))])
      else
        // The exception leaves send with both tokens; m_mutex is unlocked on
        // the way out of async, and the handler stays registered.
        s.(req := s.req.(lost := s.req.lost + 1), clients := s.clients[i := c.(pc := Unlocking)],
           past := s.past.(thrown := s.past.thrown + {CurrentId(c)}))
    case Sending(Copied) =>
      s.(req := s.req.(mutex := s.req.mutex + 1), clients := s.clients[i := c.(pc := Sending(Unlocked))])
    case Sending(Unlocked) =>
      s.(req := s.req.(full := s.req.full + 1), clients := s.clients[i := c.(pc := Unlocking)])
    case Unlocking =>
      s.(owner := s.owner - {call.act}, clients := s.clients[i := c.(pc := Outside, next := c.next + 1)])
  }

  predicate ServerEnabled(s: State) {
    match s.server
    case SWaiting => s.req.full > 0
    case SWoken => s.req.mutex > 0
    case SHandling => s.req.buffer.Some?
    case _ => true
  }

  function ServerNext(s: State): State
    requires ServerEnabled(s)
  {
    match s.server
    case SWaiting => s.(req := s.req.(full := s.req.full - 1), server := SWoken)
    case SWoken => s.(req := s.req.(mutex := s.req.mutex - 1), server := SHandling)
    case SHandling =>
      var m := s.req.buffer.value;
      if m.act in s.tables.registered then
        s.(req := s.req.(unread := None), server := SLeaving,
           workers := s.workers + [Worker(Running, m, Response(""))])
      else
        // No slot: the exception is caught and the request forgotten.
        s.(req := s.req.(unread := None), server := SLeaving, past := s.past.(dropped := s.past.dropped + {m.id}))
    case SLeaving => s.(req := s.req.(mutex := s.req.mutex + 1), server := SReleasing)
    case SReleasing => s.(req := s.req.(empty := s.req.empty + 1), server := SWaiting)
  }

  predicate WorkerEnabled(s: State, j: nat) {
    && j < |s.workers|
    && match s.workers[j].pc
       case Replying(Ready) => s.resp.empty > 0
       case Replying(HasSlot) => s.resp.mutex > 0
       case Finished => false
       case _ => true
  }

  function WorkerNext(s: State, j: nat, answer: Answer): State
    requires WorkerEnabled(s, j)
  {
    var w := s.workers[j];
    match w.pc
    case Running =>
      s.(past := s.past.(answers := s.past.answers[w.req.id := answer]),
         workers := s.workers[j := w.(pc := Replying(Ready), answer := answer)])
    case Replying(Ready) =>
      s.(resp := s.resp.(empty := s.resp.empty - 1), workers := s.workers[j := w.(pc := Replying(HasSlot))])
    case Replying(HasSlot) =>
      s.(resp := s.resp.(mutex := s.resp.mutex - 1), workers := s.workers[j := w.(pc := Replying(InLock))])
    case Replying(InLock) =>
      var m := Some(Reply(w.req.act, Encode(w.req.id, w.answer)));
      s.(resp := s.resp.(buffer := m, unread := m), workers := s.workers[j := w.(pc := Replying(Copied))])
    case Replying(Copied) =>
      s.(resp := s.resp.(mutex := s.resp.mutex + 1), workers := s.workers[j := w.(pc := Replying(Unlocked))])
    case Replying(Unlocked) =>
      s.(resp := s.resp.(full := s.resp.full + 1), workers := s.workers[j := w.(pc := Finished)])
  }

  predicate ReceiverEnabled(s: State) {
    match s.receiver
    case CWaiting => s.resp.full > 0
    case CWoken => s.resp.mutex > 0
    case CHandling => s.resp.buffer.Some?
    case CLocking(r) => r.act !in s.owner
    case _ => true
  }

  function ReceiverNext(s: State): State
    requires ReceiverEnabled(s)
  {
    match s.receiver
    case CWaiting => s.(resp := s.resp.(full := s.resp.full - 1), receiver := CWoken)
    case CWoken => s.(resp := s.resp.(mutex := s.resp.mutex - 1), receiver := CHandling)
    case CHandling =>
      var m := s.resp.buffer.value;
      s.(resp := s.resp.(unread := None), receiver := if m.act in s.tables.slots then CLocking(m) else CLeaving)
    case CLocking(r) => s.(owner := s.owner[r.act := ByReceiver], receiver := CFinding(r))
    case CFinding(r) =>
      if r.data.id in s.tables.active && s.tables.active[r.data.id] == r.act then
        s.(receiver := CCalling(r))
      else
        s.(past := s.past.(badIds := s.past.badIds + 1), receiver := CUnlocking(r.act))
    case CCalling(r) =>
      s.(past := s.past.(completed := s.past.completed + [(r.data.id, Decode(r.data))]), receiver := CErasing(r))
    case CErasing(r) => s.(tables := s.tables.(active := s.tables.active - {r.data.id}), receiver := CUnlocking(r.act))
    case CUnlocking(a) => s.(owner := s.owner - {a}, receiver := CLeaving)
    case CLeaving => s.(resp := s.resp.(mutex := s.resp.mutex + 1), receiver := CReleasing)
    case CReleasing => s.(resp := s.resp.(empty := s.resp.empty + 1), receiver := CWaiting)
  }

  predicate Enabled(s: State, e: Event) {
    match e
    case ClientStep(i, id) => ClientEnabled(s, i, id)
    case ServerStep => ServerEnabled(s)
    case WorkerStep(j, _) => WorkerEnabled(s, j)
    case ReceiverStep => ReceiverEnabled(s)
  }

  function Next(s: State, e: Event): State
    requires Enabled(s, e)
  {
    match e
    case ClientStep(i, id) => ClientNext(s, i, id)
    case ServerStep => ServerNext(s)
    case WorkerStep(j, answer) => WorkerNext(s, j, answer)
    case ReceiverStep => ReceiverNext(s)
  }

  predicate CanRun(s: State, es: seq<Event>)
    decreases |es|, 0
  {
    es == [] || (CanRun(s, es[..|es| - 1]) && Enabled(After(s, es[..|es| - 1]), es[|es| - 1]))
  }

  function After(s: State, es: seq<Event>): State
    requires CanRun(s, es)
    decreases |es|, 1
  {
    if es == [] then s else Next(After(s, es[..|es| - 1]), es[|es| - 1])
  }
}
