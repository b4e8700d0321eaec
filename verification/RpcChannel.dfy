// The two buffers of the request/response protocol are two channels: every
// step of the protocol is, on each of them, at most two steps of the channel
// of module Channel or none at all, with the messages as their texts. So what
// is proved of a channel holds of the protocol's buffers.
module RpcChannel {
  import opened Wrappers
  import opened Wire
  import opened SendProtocol
  import opened Responses
  import Ch = Channel
  import F = ChannelFifo
  import opened Rpc
  import opened RpcIds
  import opened RpcCompletion

  // One buffer as the protocol sees it: its counts, its message, the throws,
  // the threads inside send with what each of them sends and whether it fits,
  // and the receive thread.
  datatype Carrier<M> = Carrier(at: SendPc, msg: M, fits: bool)
  datatype Port<M> = Port(mutex: nat, empty: nat, full: nat, buffer: Option<M>, lost: nat,
                          threads: seq<Option<Carrier<M>>>, recv: Ch.RecvPc)

  // What a step of the protocol does to it: nothing, a thread more, a call of
  // send beginning, a step inside send, a step of the receive thread.
  datatype Label<M> = Idle | Join | Begin(i: nat, msg: M, fits: bool) | Move(i: nat) | Receive

  predicate PortEnabled<M>(p: Port<M>, l: Label<M>) {
    match l
    case Idle => true
    case Join => true
    case Begin(i, _, _) => i < |p.threads| && p.threads[i].None?
    case Move(i) =>
      && i < |p.threads| && p.threads[i].Some?
      && (match p.threads[i].value.at
          case Ready => p.empty > 0
          case HasSlot => p.mutex > 0
          case _ => true)
    case Receive =>
      match p.recv
      case Waiting => p.full > 0
      case Woken => p.mutex > 0
      case Handling => p.buffer.Some?
      case Leaving(stop) => !stop
      case Releasing(stop) => !stop
      case _ => false
  }

  function PortNext<M>(p: Port<M>, l: Label<M>): Port<M>
    requires PortEnabled(p, l)
  {
    match l
    case Idle => p
    case Join => p.(threads := p.threads + [None])
    case Begin(i, msg, fits) => p.(threads := p.threads[i := Some(Carrier(Ready, msg, fits))])
    case Move(i) =>
      var c := p.threads[i].value;
      (match c.at
       case Ready => p.(empty := p.empty - 1, threads := p.threads[i := Some(c.(at := HasSlot))])
       case HasSlot => p.(mutex := p.mutex - 1, threads := p.threads[i := Some(c.(at := InLock))])
       case InLock =>
         if c.fits then p.(buffer := Some(c.msg), threads := p.threads[i := Some(c.(at := Copied))])
         else p.(lost := p.lost + 1, threads := p.threads[i := None])
       case Copied => p.(mutex := p.mutex + 1, threads := p.threads[i := Some(c.(at := Unlocked))])
       case Unlocked => p.(full := p.full + 1, threads := p.threads[i := None]))
    case Receive =>
      match p.recv
      case Waiting => p.(full := p.full - 1, recv := Ch.Woken)
      case Woken => p.(mutex := p.mutex - 1, recv := Ch.Handling)
      case Handling => p.(recv := Ch.Leaving(false))
      case Leaving(_) => p.(mutex := p.mutex + 1, recv := Ch.Releasing(false))
      case Releasing(_) => p.(empty := p.empty + 1, recv := Ch.Waiting)
  }

  // The messages a step copies in and takes out.
  function CopiedBy<M>(p: Port<M>, l: Label<M>): seq<M>
    requires PortEnabled(p, l)
  {
    if l.Move? && p.threads[l.i].value.at == InLock && p.threads[l.i].value.fits then [p.threads[l.i].value.msg] else []
  }

  function TakenBy<M>(p: Port<M>, l: Label<M>): seq<M>
    requires PortEnabled(p, l)
  {
    if l.Receive? && p.recv == Ch.Handling then [p.buffer.value] else []
  }

  // ----- A port is a channel -----

  function Texts<M>(text: M -> string, msgs: seq<M>): (r: seq<string>)
    ensures |r| == |msgs|
  {
    if msgs == [] then [] else Texts(text, msgs[..|msgs| - 1]) + [Cut(text(msgs[|msgs| - 1]))]
  }

  function PacketOf<M>(msg: M, fits: bool, text: M -> string): Ch.Packet {
    if fits then Some(text(msg)) else None
  }

  predicate SendsAs<M>(c: Carrier<M>, sender: Ch.Sender, text: M -> string) {
    sender == Ch.Sender(c.at, [PacketOf(c.msg, c.fits, text)], c.at.Written())
  }

  // `thread` says which thread of the channel sends for which of the port.
  predicate Sim<M>(p: Port<M>, ch: Ch.State, thread: seq<nat>, text: M -> string) {
    && ch.buf.mutex == p.mutex && ch.buf.empty == p.empty && ch.buf.full == p.full
    && !ch.buf.shutdown && |ch.buf.buffer| == Ch.MAX_MESSAGE_SIZE
    && F.Quiet(ch) && ch.past.throws == p.lost
    && ch.recv == p.recv
    && (p.buffer.Some? ==> Cut(ch.buf.buffer) == Cut(text(p.buffer.value)))
    && |thread| == |p.threads|
    && (forall i :: 0 <= i < |thread| && p.threads[i].Some? ==>
          thread[i] < |ch.senders| && SendsAs(p.threads[i].value, ch.senders[thread[i]], text))
    && (forall i, j :: 0 <= i < j < |thread| && p.threads[i].Some? && p.threads[j].Some? ==> thread[i] != thread[j])
  }

  // What the step of the port is on the channel.
  function EventsOf<M>(p: Port<M>, l: Label<M>, thread: seq<nat>, text: M -> string): seq<Ch.Event>
    requires PortEnabled(p, l) && |thread| == |p.threads|
  {
    match l
    case Idle => []
    case Join => []
    case Begin(_, msg, fits) => [Ch.Spawn([PacketOf(msg, fits, text)])]
    case Move(i) => [Ch.SendStep(thread[i])]
    case Receive => if p.recv == Ch.Woken then [Ch.ReceiveStep, Ch.ReceiveStep] else [Ch.ReceiveStep]
  }

  function ThreadsAfter<M>(l: Label<M>, ch: Ch.State, thread: seq<nat>): seq<nat>
    requires l.Begin? ==> l.i < |thread|
  {
    match l
    case Join => thread + [0]
    case Begin(i, _, _) => thread[i := |ch.senders|]
    case _ => thread
  }

  // The step inside the lock: the copy, or the throw.
  lemma LockedSimulated<M>(p: Port<M>, i: nat, ch: Ch.State, thread: seq<nat>, text: M -> string)
    requires Sim(p, ch, thread, text) && PortEnabled(p, Move(i)) && p.threads[i].value.at == InLock
    requires p.threads[i].value.fits ==> Ch.Fits(Some(text(p.threads[i].value.msg)))
    ensures Ch.SendEnabled(ch, thread[i])
    ensures Sim(PortNext(p, Move(i)), Ch.SendNext(ch, thread[i]), thread, text)
  {
    var c := p.threads[i].value;
    assert SendsAs(c, ch.senders[thread[i]], text);
    if c.fits {
      TransferExact(ch.buf.buffer, text(c.msg));
    }
  }

  lemma MoveSimulated<M>(p: Port<M>, i: nat, ch: Ch.State, thread: seq<nat>, text: M -> string)
    requires Sim(p, ch, thread, text) && PortEnabled(p, Move(i))
    requires p.threads[i].value.at == InLock && p.threads[i].value.fits ==>
      Ch.Fits(Some(text(p.threads[i].value.msg)))
    ensures Ch.SendEnabled(ch, thread[i])
    ensures Sim(PortNext(p, Move(i)), Ch.SendNext(ch, thread[i]), thread, text)
  {
    var c := p.threads[i].value;
    assert SendsAs(c, ch.senders[thread[i]], text);
    if c.at == InLock {
      LockedSimulated(p, i, ch, thread, text);
    }
  }

  lemma BeginSimulated<M>(p: Port<M>, l: Label<M>, ch: Ch.State, thread: seq<nat>, text: M -> string)
    requires l.Begin? && Sim(p, ch, thread, text) && PortEnabled(p, l)
    ensures Sim(PortNext(p, l), Ch.Next(ch, Ch.Spawn([PacketOf(l.msg, l.fits, text)])),
                thread[l.i := |ch.senders|], text)
  {}

  // What was written and delivered, as texts.
  predicate SameTexts<M>(text: M -> string, copied: seq<M>, taken: seq<M>, past: Ch.Past) {
    F.Texts(past.written) == Texts(text, copied) && past.delivered == Texts(text, taken)
  }

  lemma MoveTexts<M>(p: Port<M>, i: nat, ch: Ch.State, thread: seq<nat>,
                     text: M -> string, copied: seq<M>, taken: seq<M>)
    requires Sim(p, ch, thread, text) && PortEnabled(p, Move(i)) && Ch.SendEnabled(ch, thread[i])
    requires p.threads[i].value.at == InLock && p.threads[i].value.fits ==>
      Ch.Fits(Some(text(p.threads[i].value.msg)))
    requires SameTexts(text, copied, taken, ch.past)
    ensures SameTexts(text, copied + CopiedBy(p, Move(i)), taken, Ch.SendNext(ch, thread[i]).past)
  {
    var c := p.threads[i].value;
    var ch' := Ch.SendNext(ch, thread[i]);
    assert SendsAs(c, ch.senders[thread[i]], text);
    if c.at == InLock && c.fits {
      assert ch'.past.written[..|ch.past.written|] == ch.past.written;
      assert (copied + [c.msg])[..|copied|] == copied;
    } else {
      assert copied + [] == copied;
    }
  }

  lemma ReceiveSimulated<M>(p: Port<M>, s0: Ch.State, ces: seq<Ch.Event>, ch: Ch.State, thread: seq<nat>,
                            text: M -> string)
    returns (ces': seq<Ch.Event>, ch': Ch.State)
    requires Ch.At(s0, ces, ch) && Sim(p, ch, thread, text) && PortEnabled(p, Receive)
    ensures Ch.At(s0, ces', ch') && ces' == ces + EventsOf(p, Receive, thread, text)
    ensures Sim(PortNext(p, Receive), ch', thread, text)
    ensures ch'.past == ch.past.(delivered := ch.past.delivered + Texts(text, TakenBy(p, Receive)))
  {
    assert ch.past.delivered + [] == ch.past.delivered;
    ces', ch' := Ch.Do(s0, ces, ch, Ch.ReceiveStep);
    if p.recv == Ch.Woken {
      ces', ch' := Ch.Do(s0, ces', ch', Ch.ReceiveStep);
    }
    if p.recv == Ch.Handling {
      assert [p.buffer.value][..0] == [];
    }
  }

  lemma {:induction false} TextsAppend<M>(text: M -> string, a: seq<M>, b: seq<M>)
    ensures Texts(text, a + b) == Texts(text, a) + Texts(text, b)
  {
    if b == [] {
      assert a + b == a;
    } else {
      assert (a + b)[..|a + b| - 1] == a + b[..|b| - 1];
      TextsAppend(text, a, b[..|b| - 1]);
    }
  }

  // Every step of a port is the named steps of the channel, copies the same
  // text in and takes the same text out.
  lemma StepSimulated<M>(p: Port<M>, l: Label<M>, s0: Ch.State, ces: seq<Ch.Event>, ch: Ch.State, thread: seq<nat>,
                         text: M -> string, copied: seq<M>, taken: seq<M>)
    returns (ces': seq<Ch.Event>, ch': Ch.State)
    requires Ch.At(s0, ces, ch) && Sim(p, ch, thread, text) && PortEnabled(p, l)
    requires forall m :: m in CopiedBy(p, l) ==> Ch.Fits(Some(text(m)))
    requires SameTexts(text, copied, taken, ch.past)
    ensures Ch.At(s0, ces', ch') && ces' == ces + EventsOf(p, l, thread, text)
    ensures Sim(PortNext(p, l), ch', ThreadsAfter(l, ch, thread), text)
    ensures SameTexts(text, copied + CopiedBy(p, l), taken + TakenBy(p, l), ch'.past)
  {
    ces', ch' := ces + [], ch;
    assert ces + [] == ces;
    assert copied + [] == copied && taken + [] == taken;
    match l {
      case Idle =>
      case Join =>
      case Begin(_, msg, fits) =>
        BeginSimulated(p, l, ch, thread, text);
        ces', ch' := Ch.Do(s0, ces, ch, Ch.Spawn([PacketOf(msg, fits, text)]));
      case Move(i) =>
        assert p.threads[i].value.at == InLock && p.threads[i].value.fits ==>
          p.threads[i].value.msg in CopiedBy(p, l);
        MoveSimulated(p, i, ch, thread, text);
        MoveTexts(p, i, ch, thread, text, copied, taken);
        ces', ch' := Ch.Do(s0, ces, ch, Ch.SendStep(thread[i]));
      case Receive =>
        TextsAppend(text, taken, TakenBy(p, l));
        ces', ch' := ReceiveSimulated(p, s0, ces, ch, thread, text);
    }
  }

  // ----- The request buffer -----

  function RequestCarrier(c: Client): Option<Carrier<Request>> {
    if c.pc.Sending? && c.next < |c.calls|
      then Some(Carrier(c.pc.at, Request(Current(c).act, CurrentId(c), Current(c).params), Current(c).fits))
      else None
  }

  function ServerAt(p: ServerPc): Ch.RecvPc {
    match p
    case SWaiting => Ch.Waiting
    case SWoken => Ch.Woken
    case SHandling => Ch.Handling
    case SLeaving => Ch.Leaving(false)
    case SReleasing => Ch.Releasing(false)
  }

  function RequestPort(s: State): Port<Request> {
    Port(s.req.mutex, s.req.empty, s.req.full, s.req.buffer, s.req.lost,
         seq(|s.clients|, i requires 0 <= i < |s.clients| => RequestCarrier(s.clients[i])), ServerAt(s.server))
  }

  function RequestLabel(s: State, e: Event): Label<Request>
    requires Enabled(s, e)
  {
    match e
    case ClientStep(i, id) =>
      var c := s.clients[i];
      if c.pc.Locked? then Begin(i, Request(Current(c).act, id, Current(c).params), Current(c).fits)
      else if c.pc.Sending? then Move(i)
      else Idle
    case ServerStep => Receive
    case _ => Idle
  }

  predicate AllIdsMatch(s: State) {
    forall i :: 0 <= i < |s.clients| ==> IdsMatchCalls(s, s.clients[i])
  }

  lemma ClientCarries(s: State, i: nat, id: Id)
    requires ClientEnabled(s, i, id) && IdsMatchCalls(s, s.clients[i])
    ensures var p, l := RequestPort(s), RequestLabel(s, ClientStep(i, id));
      && PortEnabled(p, l)
      && RequestCarrier(ClientNext(s, i, id).clients[i]) == PortNext(p, l).threads[i]
  {}

  // Every step of the protocol is a step of its request buffer.
  lemma RequestStep(s: State, e: Event)
    requires Enabled(s, e) && AllIdsMatch(s)
    ensures PortEnabled(RequestPort(s), RequestLabel(s, e))
    ensures RequestPort(Next(s, e)) == PortNext(RequestPort(s), RequestLabel(s, e))
    ensures RequestCopied(s, e) == CopiedBy(RequestPort(s), RequestLabel(s, e))
    ensures RequestTaken(s, e) == TakenBy(RequestPort(s), RequestLabel(s, e))
  {
    if e.ClientStep? {
      ClientCarries(s, e.i, e.id);
    }
    assert RequestPort(Next(s, e)).threads == PortNext(RequestPort(s), RequestLabel(s, e)).threads;
  }

  // ----- The response buffer -----

  function ReplyCarrier(w: Worker): Option<Carrier<Reply>> {
    if w.pc.Replying? then Some(Carrier(w.pc.at, Reply(w.req.act, Encode(w.req.id, w.answer)), true)) else None
  }

  function ReceiverAt(p: ReceiverPc): Ch.RecvPc {
    match p
    case CWaiting => Ch.Waiting
    case CWoken => Ch.Woken
    case CHandling => Ch.Handling
    case CReleasing => Ch.Releasing(false)
    case _ => Ch.Leaving(false)
  }

  function ReplyPort(s: State): Port<Reply> {
    Port(s.resp.mutex, s.resp.empty, s.resp.full, s.resp.buffer, s.resp.lost,
         seq(|s.workers|, j requires 0 <= j < |s.workers| => ReplyCarrier(s.workers[j])), ReceiverAt(s.receiver))
  }

  // From CLocking to CUnlocking the receive thread is still in its critical
  // section, with the message taken.
  function ReplyLabel(s: State, e: Event): Label<Reply>
    requires Enabled(s, e)
  {
    match e
    case ClientStep(_, _) => Idle
    case ServerStep =>
      if s.server.SHandling? && s.req.buffer.value.act in s.tables.registered then Join else Idle
    case WorkerStep(j, answer) =>
      var w := s.workers[j];
      if w.pc.Running? then Begin(j, Reply(w.req.act, Encode(w.req.id, answer)), true) else Move(j)
    case ReceiverStep =>
      if s.receiver.CWaiting? || s.receiver.CWoken? || s.receiver.CHandling? || s.receiver.CLeaving?
         || s.receiver.CReleasing?
        then Receive else Idle
  }

  lemma ReplyStep(s: State, e: Event)
    requires Enabled(s, e)
    ensures PortEnabled(ReplyPort(s), ReplyLabel(s, e))
    ensures ReplyPort(Next(s, e)) == PortNext(ReplyPort(s), ReplyLabel(s, e))
    ensures ReplyCopied(s, e) == CopiedBy(ReplyPort(s), ReplyLabel(s, e))
    ensures ReplyTaken(s, e) == TakenBy(ReplyPort(s), ReplyLabel(s, e))
  {
    var p' := PortNext(ReplyPort(s), ReplyLabel(s, e));
    assert ReplyPort(Next(s, e)).threads == p'.threads;
  }

  // ----- Whole runs -----

  // The requests a step copies into the buffer and takes out of it; and the
  // same for replies.
  function RequestCopied(s: State, e: Event): seq<Request>
    requires Enabled(s, e)
  {
    if e.ClientStep? && s.clients[e.i].pc == Sending(InLock) && Current(s.clients[e.i]).fits then
      var c := s.clients[e.i];
      [Request(Current(c).act, CurrentId(c), Current(c).params)]
    else []
  }

  function RequestTaken(s: State, e: Event): seq<Request>
    requires Enabled(s, e)
  {
    if e.ServerStep? && s.server.SHandling? then [s.req.buffer.value] else []
  }

  function ReplyCopied(s: State, e: Event): seq<Reply>
    requires Enabled(s, e)
  {
    if e.WorkerStep? && s.workers[e.j].pc == Replying(InLock) then
      var w := s.workers[e.j];
      [Reply(w.req.act, Encode(w.req.id, w.answer))]
    else []
  }

  function ReplyTaken(s: State, e: Event): seq<Reply>
    requires Enabled(s, e)
  {
    if e.ReceiverStep? && s.receiver.CHandling? then [s.resp.buffer.value] else []
  }

  function RequestsCopied(s: State, es: seq<Event>): seq<Request>
    requires CanRun(s, es)
    decreases |es|
  {
    if es == [] then []
    else RequestsCopied(s, es[..|es| - 1]) + RequestCopied(After(s, es[..|es| - 1]), es[|es| - 1])
  }

  function RequestsTaken(s: State, es: seq<Event>): seq<Request>
    requires CanRun(s, es)
    decreases |es|
  {
    if es == [] then []
    else RequestsTaken(s, es[..|es| - 1]) + RequestTaken(After(s, es[..|es| - 1]), es[|es| - 1])
  }

  function RepliesCopied(s: State, es: seq<Event>): seq<Reply>
    requires CanRun(s, es)
    decreases |es|
  {
    if es == [] then []
    else RepliesCopied(s, es[..|es| - 1]) + ReplyCopied(After(s, es[..|es| - 1]), es[|es| - 1])
  }

  function RepliesTaken(s: State, es: seq<Event>): seq<Reply>
    requires CanRun(s, es)
    decreases |es|
  {
    if es == [] then []
    else RepliesTaken(s, es[..|es| - 1]) + ReplyTaken(After(s, es[..|es| - 1]), es[|es| - 1])
  }

  lemma PortStarts<M>(p: Port<M>, text: M -> string) returns (thread: seq<nat>)
    requires p.mutex == 1 && p.empty == 1 && p.full == 0 && p.buffer.None? && p.lost == 0 && p.recv == Ch.Waiting
    requires forall i :: 0 <= i < |p.threads| ==> p.threads[i].None?
    ensures Sim(p, Ch.Init([]), thread, text)
    ensures SameTexts(text, [], [], Ch.Init([]).past)
  {
    thread := seq(|p.threads|, i => 0);
  }

  lemma IdsAreKnown(programs: seq<seq<Call>>, registered: set<Act>, es: seq<Event>)
    requires CanRun(Init(programs, registered), es)
    ensures AllIdsMatch(After(Init(programs, registered), es))
  {
    InitInv(programs, registered);
    RunKeepsInv(Init(programs, registered), es);
    var s := After(Init(programs, registered), es);
    forall i | 0 <= i < |s.clients| ensures IdsMatchCalls(s, s.clients[i]) {
      assert ClientFaithful(s, s.clients[i]);
    }
  }

  // A run of the channel that has come to the port p, with the same texts.
  ghost predicate Follows<M>(ces: seq<Ch.Event>, ch: Ch.State, thread: seq<nat>, p: Port<M>,
                             text: M -> string, copied: seq<M>, taken: seq<M>) {
    Ch.At(Ch.Init([]), ces, ch) && Sim(p, ch, thread, text) && SameTexts(text, copied, taken, ch.past)
  }

  lemma FollowStep<M>(ces: seq<Ch.Event>, ch: Ch.State, thread: seq<nat>, p: Port<M>, l: Label<M>,
                      text: M -> string, copied: seq<M>, taken: seq<M>)
    returns (ces': seq<Ch.Event>, ch': Ch.State, thread': seq<nat>)
    requires Follows(ces, ch, thread, p, text, copied, taken) && PortEnabled(p, l)
    requires forall m :: m in CopiedBy(p, l) ==> Ch.Fits(Some(text(m)))
    ensures Follows(ces', ch', thread', PortNext(p, l), text, copied + CopiedBy(p, l), taken + TakenBy(p, l))
  {
    ces', ch' := StepSimulated(p, l, Ch.Init([]), ces, ch, thread, text, copied, taken);
    thread' := ThreadsAfter(l, ch, thread);
  }

  // Every run of the protocol is, on its request buffer, a run of the channel
  // that copies in and delivers the texts of the same requests.
  lemma {:induction false} RequestsSimulated(programs: seq<seq<Call>>, registered: set<Act>, es: seq<Event>,
                                             text: Request -> string)
    returns (ces: seq<Ch.Event>, ch: Ch.State, thread: seq<nat>)
    requires CanRun(Init(programs, registered), es)
    requires forall m :: m in RequestsCopied(Init(programs, registered), es) ==> Ch.Fits(Some(text(m)))
    ensures Follows(ces, ch, thread, RequestPort(After(Init(programs, registered), es)), text,
                    RequestsCopied(Init(programs, registered), es), RequestsTaken(Init(programs, registered), es))
    decreases |es|
  {
    var s0 := Init(programs, registered);
    if es == [] {
      ces, ch := [], Ch.Init([]);
      thread := PortStarts(RequestPort(s0), text);
    } else {
      var before := es[..|es| - 1];
      var s, e := After(s0, before), es[|es| - 1];
      IdsAreKnown(programs, registered, before);
      RequestStep(s, e);
      ces, ch, thread := RequestsSimulated(programs, registered, before, text);
      ces, ch, thread := FollowStep(ces, ch, thread, RequestPort(s), RequestLabel(s, e), text,
                                    RequestsCopied(s0, before), RequestsTaken(s0, before));
    }
  }

  // And on its response buffer.
  lemma {:induction false} RepliesSimulated(programs: seq<seq<Call>>, registered: set<Act>, es: seq<Event>,
                                             text: Reply -> string)
    returns (ces: seq<Ch.Event>, ch: Ch.State, thread: seq<nat>)
    requires CanRun(Init(programs, registered), es)
    requires forall m :: m in RepliesCopied(Init(programs, registered), es) ==> Ch.Fits(Some(text(m)))
    ensures Follows(ces, ch, thread, ReplyPort(After(Init(programs, registered), es)), text,
                    RepliesCopied(Init(programs, registered), es), RepliesTaken(Init(programs, registered), es))
    decreases |es|
  {
    var s0 := Init(programs, registered);
    if es == [] {
      ces, ch := [], Ch.Init([]);
      thread := PortStarts(ReplyPort(s0), text);
    } else {
      var before := es[..|es| - 1];
      var s, e := After(s0, before), es[|es| - 1];
      ReplyStep(s, e);
      ces, ch, thread := RepliesSimulated(programs, registered, before, text);
      ces, ch, thread := FollowStep(ces, ch, thread, ReplyPort(s), ReplyLabel(s, e), text,
                                    RepliesCopied(s0, before), RepliesTaken(s0, before));
    }
  }

  // ----- What the channel gives the protocol -----

  lemma FifoTexts<M>(text: M -> string, copied: seq<M>, taken: seq<M>, ces: seq<Ch.Event>, ch: Ch.State)
    requires Ch.At(Ch.Init([]), ces, ch) && F.Quiet(ch) && SameTexts(text, copied, taken, ch.past)
    ensures Texts(text, taken) <= Texts(text, copied) && |copied| <= |taken| + 1
  {
    F.ChannelIsFifo([], ces);
  }

  lemma {:induction false} TextsAt<M>(text: M -> string, msgs: seq<M>, k: nat)
    requires k < |msgs|
    ensures Texts(text, msgs)[k] == Cut(text(msgs[k]))
  {
    if k < |msgs| - 1 {
      TextsAt(text, msgs[..|msgs| - 1], k);
    }
  }

  // A text by which one message is told from all others.
  function Mark<M(==)>(m: M): M -> string {
    x => if x == m then "a" else "b"
  }

  lemma MarkTells<M>(copied: seq<M>, taken: seq<M>, k: nat)
    requires k < |taken| <= |copied| && Texts(Mark(copied[k]), taken) <= Texts(Mark(copied[k]), copied)
    ensures taken[k] == copied[k]
  {
    TextsAt(Mark(copied[k]), taken, k);
    TextsAt(Mark(copied[k]), copied, k);
    assert Cut("a") == "a" && Cut("b") == "b";
  }

  lemma RequestTextsAreFifo(programs: seq<seq<Call>>, registered: set<Act>, es: seq<Event>, text: Request -> string)
    requires CanRun(Init(programs, registered), es)
    requires forall m :: m in RequestsCopied(Init(programs, registered), es) ==> Ch.Fits(Some(text(m)))
    ensures var s0 := Init(programs, registered);
      && Texts(text, RequestsTaken(s0, es)) <= Texts(text, RequestsCopied(s0, es))
      && |RequestsCopied(s0, es)| <= |RequestsTaken(s0, es)| + 1
  {
    var s0 := Init(programs, registered);
    var ces, ch, thread := RequestsSimulated(programs, registered, es, text);
    FifoTexts(text, RequestsCopied(s0, es), RequestsTaken(s0, es), ces, ch);
  }

  // Requests reach the server in the order in which they were copied in, each
  // once and unchanged, with at most one on its way.
  lemma RequestsAreFifo(programs: seq<seq<Call>>, registered: set<Act>, es: seq<Event>)
    requires CanRun(Init(programs, registered), es)
    ensures var s0 := Init(programs, registered);
      && RequestsTaken(s0, es) <= RequestsCopied(s0, es)
      && |RequestsCopied(s0, es)| <= |RequestsTaken(s0, es)| + 1
  {
    var s0 := Init(programs, registered);
    var copied, taken := RequestsCopied(s0, es), RequestsTaken(s0, es);
    RequestTextsAreFifo(programs, registered, es, m => "");
    forall k | 0 <= k < |taken| ensures taken[k] == copied[k] {
      RequestTextsAreFifo(programs, registered, es, Mark(copied[k]));
      MarkTells(copied, taken, k);
    }
  }

  lemma ReplyTextsAreFifo(programs: seq<seq<Call>>, registered: set<Act>, es: seq<Event>, text: Reply -> string)
    requires CanRun(Init(programs, registered), es)
    requires forall m :: m in RepliesCopied(Init(programs, registered), es) ==> Ch.Fits(Some(text(m)))
    ensures var s0 := Init(programs, registered);
      && Texts(text, RepliesTaken(s0, es)) <= Texts(text, RepliesCopied(s0, es))
      && |RepliesCopied(s0, es)| <= |RepliesTaken(s0, es)| + 1
  {
    var s0 := Init(programs, registered);
    var ces, ch, thread := RepliesSimulated(programs, registered, es, text);
    FifoTexts(text, RepliesCopied(s0, es), RepliesTaken(s0, es), ces, ch);
  }

  // And so do replies reach the client.
  lemma RepliesAreFifo(programs: seq<seq<Call>>, registered: set<Act>, es: seq<Event>)
    requires CanRun(Init(programs, registered), es)
    ensures var s0 := Init(programs, registered);
      && RepliesTaken(s0, es) <= RepliesCopied(s0, es)
      && |RepliesCopied(s0, es)| <= |RepliesTaken(s0, es)| + 1
  {
    var s0 := Init(programs, registered);
    var copied, taken := RepliesCopied(s0, es), RepliesTaken(s0, es);
    ReplyTextsAreFifo(programs, registered, es, m => "");
    forall k | 0 <= k < |taken| ensures taken[k] == copied[k] {
      ReplyTextsAreFifo(programs, registered, es, Mark(copied[k]));
      MarkTells(copied, taken, k);
    }
  }
}
