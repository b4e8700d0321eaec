// A log client and the server sessions of its successive connections. Each
// session reads its own connection at its own pace, also after the client has
// seen the loss and opened the next one, until it ends; whatever they do, each
// notifies a beginning of the messages of its connection (src/log/client.cpp,
// src/log/session.cpp).
module LogTransport {
  import opened Header
  import S = Session
  import C = LogClient

  // `wire` are the frames whose write was started on a connection, the first
  // of them being the frame of message number `base`. Its session has received
  // `received` of their bytes, and reads on while it is `open`.
  datatype Conn = Conn(base: nat, wire: seq<string>, received: nat, session: S.State, open: bool)

  // A call of M_notifyMessageReceived, and the connection it came from.
  datatype Note = Note(conn: nat, text: string)

  // `sent` are the messages given to Client::send so far, `conns` the
  // connections in the order they were made, and `log` what the server was
  // notified of, in the order it was.
  datatype State = State(client: C.State, sent: seq<string>, conns: seq<Conn>, log: seq<Note>)

  function Init(): State {
    State(C.Init(), [], [], [])
  }

  // Calls of send, handlers of the client, bytes reaching a session, and the
  // end of a session.
  datatype Event = Send(msg: string) | Handler(h: C.Event) | Deliver(conn: nat, n: nat) | Close(conn: nat)

  predicate Enabled(s: State, e: Event) {
    match e
    case Send(msg) => |msg| < FRAME_LIMIT && !s.client.corrupt
    case Handler(h) => !h.Send? && C.Enabled(s.client, h)
    case Deliver(c, n) =>
      c < |s.conns| && s.conns[c].open && s.conns[c].received + n <= |S.Joined(s.conns[c].wire)|
    case Close(c) => c < |s.conns|
  }

  // The writes a handler started: those that were not under way before it.
  function NewWrites(before: seq<string>, h: C.Event, after: seq<string>): seq<string> {
    var kept := if h.Write? && before != [] then |before| - 1 else |before|;
    if kept <= |after| then after[kept..] else []
  }

  // How many messages were started on the first c connections, and on all.
  function StartedBefore(conns: seq<Conn>, c: nat): nat
    requires c <= |conns|
  {
    if c == 0 then 0 else conns[c - 1].base + |conns[c - 1].wire|
  }

  function Started(conns: seq<Conn>): nat {
    StartedBefore(conns, |conns|)
  }

  // Writes go to the latest connection.
  function Written(conns: seq<Conn>, more: seq<string>): seq<Conn> {
    if conns == [] then []
    else
      var last := conns[|conns| - 1];
      conns[|conns| - 1 := last.(wire := last.wire + more)]
  }

  function Opened(conns: seq<Conn>, h: C.Event): seq<Conn> {
    if h == C.Connect(true) then conns + [Conn(Started(conns), [], 0, S.FRESH, true)] else conns
  }

  function Receive(conn: Conn, n: nat): Conn
    requires conn.received + n <= |S.Joined(conn.wire)|
  {
    conn.(received := conn.received + n,
          session := S.Feed(conn.session, S.Joined(conn.wire)[conn.received..conn.received + n]))
  }

  // What a session notifies while it gets from one state to the next.
  function News(before: S.State, after: S.State): seq<string> {
    if |before.notified| <= |after.notified| then after.notified[|before.notified|..] else []
  }

  function Tagged(c: nat, texts: seq<string>): (r: seq<Note>)
    ensures |r| == |texts|
    ensures forall i :: 0 <= i < |r| ==> r[i] == Note(c, texts[i])
  {
    seq(|texts|, i requires 0 <= i < |texts| => Note(c, texts[i]))
  }

  function Next(s: State, e: Event): State
    requires Enabled(s, e)
  {
    match e
    case Send(msg) =>
      s.(client := C.Next(s.client, C.Send(S.Frame(msg))), sent := s.sent + [msg])
    case Deliver(c, n) =>
      var conn := Receive(s.conns[c], n);
      s.(conns := s.conns[c := conn],
         log := s.log + Tagged(c, News(s.conns[c].session, conn.session)))
    case Close(c) =>
      s.(conns := s.conns[c := s.conns[c].(open := false)])
    case Handler(h) =>
      var client := C.Next(s.client, h);
      s.(client := client, conns := Written(Opened(s.conns, h), NewWrites(s.client.writes, h, client.writes)))
  }

  // The connection is not lost during a write.
  predicate Orderly(s: State, e: Event) {
    e.Handler? ==> C.DropsOnlyWhenIdle(s.client, e.h)
  }

  // ----- The invariant -----

  predicate AreFrames(frames: seq<string>, msgs: seq<string>) {
    |frames| == |msgs| && forall k :: 0 <= k < |frames| ==> frames[k] == S.Frame(msgs[k])
  }

  // The connections share the messages out among them, without gaps.
  predicate Chained(conns: seq<Conn>) {
    forall c {:trigger StartedBefore(conns, c)} :: 0 <= c < |conns| ==> conns[c].base == StartedBefore(conns, c)
  }

  predicate ClientSide(s: State) {
    && C.Inv(s.client)
    && S.Sendable(s.sent)
    && AreFrames(s.client.queued + s.client.posted, s.sent)
    && Started(s.conns) == |s.client.done| + |s.client.writes|
    && (s.client.connected ==> s.conns != [])
  }

  // A connection carries its share of what was queued, and its session has
  // come as far as the bytes it received take it.
  predicate ConnOk(queued: seq<string>, conn: Conn) {
    && conn.base + |conn.wire| <= |queued|
    && conn.wire == queued[conn.base..conn.base + |conn.wire|]
    && conn.received <= |S.Joined(conn.wire)|
    && conn.session == S.Feed(S.FRESH, S.Joined(conn.wire)[..conn.received])
  }

  predicate ConnsOk(queued: seq<string>, conns: seq<Conn>) {
    Chained(conns) && forall c :: 0 <= c < |conns| ==> ConnOk(queued, conns[c])
  }

  // The notifications that came from one connection.
  function FromConn(log: seq<Note>, c: nat): seq<string> {
    if log == [] then []
    else
      var last := log[|log| - 1];
      FromConn(log[..|log| - 1], c) + if last.conn == c then [last.text] else []
  }

  predicate LogOk(conns: seq<Conn>, log: seq<Note>) {
    && (forall i :: 0 <= i < |log| ==> log[i].conn < |conns|)
    && forall c :: 0 <= c < |conns| ==> FromConn(log, c) == conns[c].session.notified
  }

  predicate Inv(s: State) {
    ClientSide(s) && ConnsOk(s.client.queued, s.conns) && LogOk(s.conns, s.log)
  }

  // ----- One connection -----

  lemma {:induction false} FramesMakeStream(frames: seq<string>, msgs: seq<string>)
    requires AreFrames(frames, msgs)
    ensures S.Joined(frames) == S.Stream(msgs)
  {
    if frames != [] {
      FramesMakeStream(frames[..|frames| - 1], msgs[..|msgs| - 1]);
    }
  }

  lemma {:induction false} JoinedConcat(a: seq<string>, b: seq<string>)
    ensures S.Joined(a + b) == S.Joined(a) + S.Joined(b)
  {
    if b == [] {
      assert a + b == a;
      assert S.Joined(a) + [] == S.Joined(a);
    } else {
      var n := |b| - 1;
      assert (a + b)[..|a + b| - 1] == a + b[..n];
      JoinedConcat(a, b[..n]);
      assert S.Joined(a + b) == S.Joined(a + b[..n]) + b[n];
    }
  }

  lemma Extend(bytes: string, read: nat, n: nat)
    requires read + n <= |bytes|
    ensures bytes[..read] + bytes[read..read + n] == bytes[..read + n]
  {}

  lemma QueueGrows(queued: seq<string>, queued': seq<string>, conn: Conn)
    requires ConnOk(queued, conn) && queued <= queued'
    ensures ConnOk(queued', conn)
  {}

  lemma ReceiveKeepsConn(queued: seq<string>, conn: Conn, n: nat)
    requires ConnOk(queued, conn) && conn.received + n <= |S.Joined(conn.wire)|
    ensures ConnOk(queued, Receive(conn, n))
  {
    var bytes := S.Joined(conn.wire);
    S.FeedConcat(S.FRESH, bytes[..conn.received], bytes[conn.received..conn.received + n]);
    Extend(bytes, conn.received, n);
  }

  // Two adjacent pieces of a growing sequence are one piece of it.
  lemma Adjoin(q: seq<string>, q': seq<string>, a: nat, b: nat, more: seq<string>)
    requires a <= b <= |q| && q <= q' && b + |more| <= |q'| && more == q'[b..b + |more|]
    ensures q[a..b] + more == q'[a..b + |more|]
  {}

  lemma WriteKeepsConn(queued: seq<string>, queued': seq<string>, conn: Conn, more: seq<string>)
    requires ConnOk(queued, conn) && queued <= queued'
    requires var from := conn.base + |conn.wire|;
      from + |more| <= |queued'| && more == queued'[from..from + |more|]
    ensures ConnOk(queued', conn.(wire := conn.wire + more))
  {
    Adjoin(queued, queued', conn.base, conn.base + |conn.wire|, more);
    JoinedConcat(conn.wire, more);
    assert S.Joined(conn.wire + more)[..conn.received] == S.Joined(conn.wire)[..conn.received];
  }

  // ----- The client's handlers -----

  // A handler took the client from c to c' and started the writes `more`,
  // which continue the queue where the earlier ones ended.
  predicate Continues(c: C.State, c': C.State, more: seq<string>) {
    var from := |c.done| + |c.writes|;
    && c.queued <= c'.queued
    && from + |more| == |c'.done| + |c'.writes| <= |c'.queued|
    && more == c'.queued[from..from + |more|]
  }

  lemma QueuedContinues(c: C.State)
    requires C.Inv(c) && c.posted != []
    ensures var c' := C.OnQueued(c);
      && c'.queued + c'.posted == c.queued + c.posted
      && Continues(c, c', NewWrites(c.writes, C.RunQueued, c'.writes))
  {
    var c' := C.OnQueued(c);
    assert [c.posted[0]] + c.posted[1..] == c.posted;
    assert c'.queued == c.queued + [c.posted[0]];
  }

  lemma ConnectContinues(c: C.State, ok: bool)
    requires C.Inv(c) && c.connects > 0
    ensures var c' := C.OnConnect(c, ok); Continues(c, c', NewWrites(c.writes, C.Connect(ok), c'.writes))
  {
    assert c.queue != [] ==> c.queued[|c.done|] == c.queue[0];
  }

  lemma WriteContinues(c: C.State)
    requires C.Inv(c) && c.writes != [] && c.queue != []
    ensures var c' := C.OnWrite(c, true); Continues(c, c', NewWrites(c.writes, C.Write(true), c'.writes))
  {
    assert |c.queue| > 1 ==> c.queued[|c.done| + 1] == c.queue[1];
  }

  lemma NewWritesContinue(c: C.State, h: C.Event)
    requires C.Inv(c) && C.Enabled(c, h) && C.DropsOnlyWhenIdle(c, h) && !h.Send?
    ensures var c' := C.Next(c, h);
      && C.Inv(c') && c'.queued + c'.posted == c.queued + c.posted
      && Continues(c, c', NewWrites(c.writes, h, c'.writes))
    ensures !c.connected && h != C.Connect(true) ==>
      !C.Next(c, h).connected && NewWrites(c.writes, h, C.Next(c, h).writes) == []
  {
    C.StepKeepsInvExactlyWhenIdle(c, h);
    match h
    case RunQueued => QueuedContinues(c);
    case Connect(ok) => ConnectContinues(c, ok);
    case Write(ok) => WriteContinues(c);
    case Read(ok) =>
  }

  lemma WrittenChained(conns: seq<Conn>, more: seq<string>)
    requires Chained(conns)
    ensures Chained(Written(conns, more))
    ensures conns != [] ==> Started(Written(conns, more)) == Started(conns) + |more|
  {
    if conns != [] {
      var conns' := Written(conns, more);
      forall c | 0 <= c < |conns'| ensures conns'[c].base == StartedBefore(conns', c) {
        assert StartedBefore(conns', c) == StartedBefore(conns, c);
      }
    }
  }

  lemma OpenedChained(conns: seq<Conn>, h: C.Event)
    requires Chained(conns)
    ensures Chained(Opened(conns, h)) && Started(Opened(conns, h)) == Started(conns)
  {
    var conns' := Opened(conns, h);
    forall c | 0 <= c < |conns'| ensures conns'[c].base == StartedBefore(conns', c) {
      assert StartedBefore(conns', c) == StartedBefore(conns, c);
    }
  }

  lemma OpenedOk(queued: seq<string>, conns: seq<Conn>, h: C.Event)
    requires ConnsOk(queued, conns) && Started(conns) <= |queued|
    ensures ConnsOk(queued, Opened(conns, h))
  {
    OpenedChained(conns, h);
    assert S.Joined([])[..0] == [];
  }

  lemma WrittenOk(queued: seq<string>, queued': seq<string>, conns: seq<Conn>, more: seq<string>)
    requires ConnsOk(queued, conns) && queued <= queued'
    requires conns != [] ==>
      Started(conns) + |more| <= |queued'| && more == queued'[Started(conns)..Started(conns) + |more|]
    ensures ConnsOk(queued', Written(conns, more))
  {
    var conns' := Written(conns, more);
    WrittenChained(conns, more);
    forall c | 0 <= c < |conns'| ensures ConnOk(queued', conns'[c]) {
      if c == |conns| - 1 {
        WriteKeepsConn(queued, queued', conns[c], more);
      } else {
        QueueGrows(queued, queued', conns[c]);
      }
    }
  }

  lemma ConnsContinue(queued: seq<string>, queued': seq<string>, conns: seq<Conn>, h: C.Event, more: seq<string>)
    requires ConnsOk(queued, conns) && queued <= queued' && Started(conns) <= |queued|
    requires Started(conns) + |more| <= |queued'| && more == queued'[Started(conns)..Started(conns) + |more|]
    requires conns == [] && h != C.Connect(true) ==> more == []
    ensures var conns' := Written(Opened(conns, h), more);
      && ConnsOk(queued', conns') && Started(conns') == Started(conns) + |more|
      && (conns != [] || h == C.Connect(true) ==> conns' != [])
  {
    OpenedChained(conns, h);
    OpenedOk(queued, conns, h);
    WrittenChained(Opened(conns, h), more);
    WrittenOk(queued, queued', Opened(conns, h), more);
  }

  lemma HandlerKeepsConns(s: State, h: C.Event)
    requires ClientSide(s) && ConnsOk(s.client.queued, s.conns)
    requires Enabled(s, Handler(h)) && C.DropsOnlyWhenIdle(s.client, h)
    ensures var s' := Next(s, Handler(h)); ClientSide(s') && ConnsOk(s'.client.queued, s'.conns)
  {
    var c' := C.Next(s.client, h);
    var more := NewWrites(s.client.writes, h, c'.writes);
    NewWritesContinue(s.client, h);
    ConnsContinue(s.client.queued, c'.queued, s.conns, h, more);
  }

  lemma SendKeepsClientSide(s: State, msg: string)
    requires ClientSide(s) && |msg| < FRAME_LIMIT
    ensures ClientSide(Next(s, Send(msg)))
  {
    var s' := Next(s, Send(msg));
    C.StepKeepsInvExactlyWhenIdle(s.client, C.Send(S.Frame(msg)));
    assert s'.client.queued + s'.client.posted == (s.client.queued + s.client.posted) + [S.Frame(msg)];
  }

  // ----- The log -----

  lemma {:induction false} FromConnAppend(log: seq<Note>, c: nat, texts: seq<string>, d: nat)
    ensures FromConn(log + Tagged(c, texts), d) == FromConn(log, d) + if d == c then texts else []
  {
    if texts == [] {
      assert log + Tagged(c, texts) == log;
    } else {
      var n := |texts| - 1;
      assert (log + Tagged(c, texts))[..|log| + n] == log + Tagged(c, texts[..n]);
      assert texts == texts[..n] + [texts[n]];
      FromConnAppend(log, c, texts[..n], d);
    }
  }

  lemma {:induction false} FromNobody(log: seq<Note>, c: nat)
    requires forall i :: 0 <= i < |log| ==> log[i].conn != c
    ensures FromConn(log, c) == []
  {
    if log != [] {
      FromNobody(log[..|log| - 1], c);
    }
  }

  lemma {:induction false} NotifiedGrows(s: S.State, bytes: string)
    ensures s.notified <= S.Feed(s, bytes).notified
  {
    if bytes != [] {
      NotifiedGrows(s, bytes[..|bytes| - 1]);
    }
  }

  lemma AppendKeepsLog(conns: seq<Conn>, log: seq<Note>, c: nat, conn: Conn, news: seq<string>)
    requires LogOk(conns, log) && c < |conns|
    requires conn.session.notified == conns[c].session.notified + news
    ensures LogOk(conns[c := conn], log + Tagged(c, news))
  {
    var conns', log' := conns[c := conn], log + Tagged(c, news);
    forall d | 0 <= d < |conns'| ensures FromConn(log', d) == conns'[d].session.notified {
      FromConnAppend(log, c, news, d);
    }
  }

  lemma NewsAreNew(conn: Conn, n: nat)
    requires conn.received + n <= |S.Joined(conn.wire)|
    ensures conn.session.notified + News(conn.session, Receive(conn, n).session)
            == Receive(conn, n).session.notified
  {
    NotifiedGrows(conn.session, S.Joined(conn.wire)[conn.received..conn.received + n]);
  }

  lemma DeliverKeepsLog(s: State, c: nat, n: nat)
    requires LogOk(s.conns, s.log) && Enabled(s, Deliver(c, n))
    ensures var s' := Next(s, Deliver(c, n)); LogOk(s'.conns, s'.log)
  {
    var conn' := Receive(s.conns[c], n);
    NewsAreNew(s.conns[c], n);
    AppendKeepsLog(s.conns, s.log, c, conn', News(s.conns[c].session, conn'.session));
  }

  lemma HandlerKeepsLog(s: State, h: C.Event)
    requires LogOk(s.conns, s.log) && Enabled(s, Handler(h))
    ensures var s' := Next(s, Handler(h)); LogOk(s'.conns, s'.log)
  {
    FromNobody(s.log, |s.conns|);
  }

  lemma UpdateChained(conns: seq<Conn>, c: nat, conn: Conn)
    requires Chained(conns) && c < |conns|
    requires conn.base == conns[c].base && conn.wire == conns[c].wire
    ensures Chained(conns[c := conn]) && Started(conns[c := conn]) == Started(conns)
  {
    var conns' := conns[c := conn];
    forall d | 0 <= d < |conns'| ensures conns'[d].base == StartedBefore(conns', d) {
      assert StartedBefore(conns', d) == StartedBefore(conns, d);
    }
  }

  lemma UpdateKeepsConns(queued: seq<string>, conns: seq<Conn>, c: nat, conn: Conn)
    requires ConnsOk(queued, conns) && c < |conns| && ConnOk(queued, conn)
    requires conn.base == conns[c].base && conn.wire == conns[c].wire
    ensures ConnsOk(queued, conns[c := conn]) && Started(conns[c := conn]) == Started(conns)
  {
    var conns' := conns[c := conn];
    UpdateChained(conns, c, conn);
    forall d | 0 <= d < |conns'| ensures ConnOk(queued, conns'[d]) {
      assert d != c ==> conns'[d] == conns[d];
    }
  }

  lemma DeliverKeepsConns(s: State, c: nat, n: nat)
    requires ClientSide(s) && ConnsOk(s.client.queued, s.conns) && Enabled(s, Deliver(c, n))
    ensures var s' := Next(s, Deliver(c, n)); ClientSide(s') && ConnsOk(s'.client.queued, s'.conns)
  {
    ReceiveKeepsConn(s.client.queued, s.conns[c], n);
    UpdateKeepsConns(s.client.queued, s.conns, c, Receive(s.conns[c], n));
  }

  lemma CloseKeepsInv(s: State, c: nat)
    requires Inv(s) && Enabled(s, Close(c))
    ensures Inv(Next(s, Close(c)))
  {
    UpdateKeepsConns(s.client.queued, s.conns, c, s.conns[c].(open := false));
  }

  lemma StepKeepsInv(s: State, e: Event)
    requires Inv(s) && Enabled(s, e) && Orderly(s, e)
    ensures Inv(Next(s, e))
  {
    match e
    case Send(msg) => SendKeepsClientSide(s, msg);
    case Handler(h) =>
      HandlerKeepsConns(s, h);
      HandlerKeepsLog(s, h);
    case Deliver(c, n) =>
      DeliverKeepsConns(s, c, n);
      DeliverKeepsLog(s, c, n);
    case Close(c) => CloseKeepsInv(s, c);
  }

  // ----- Whole runs -----

  // Any calls, handlers, deliveries and ends of sessions, with the connection
  // lost only while no write is under way.
  predicate CanRun(s: State, es: seq<Event>)
    decreases |es|, 0
  {
    es == [] ||
      (CanRun(s, es[..|es| - 1])
       && Enabled(After(s, es[..|es| - 1]), es[|es| - 1])
       && Orderly(After(s, es[..|es| - 1]), es[|es| - 1]))
  }

  function After(s: State, es: seq<Event>): State
    requires CanRun(s, es)
    decreases |es|, 1
  {
    if es == [] then s else Next(After(s, es[..|es| - 1]), es[|es| - 1])
  }

  lemma {:induction false} RunKeepsInv(es: seq<Event>)
    requires CanRun(Init(), es)
    ensures Inv(After(Init(), es))
    decreases |es|
  {
    if es != [] {
      RunKeepsInv(es[..|es| - 1]);
      StepKeepsInv(After(Init(), es[..|es| - 1]), es[|es| - 1]);
    }
  }

  // ----- What each session notifies -----

  // The messages of one connection.
  function Share(sent: seq<string>, conn: Conn): seq<string>
    requires conn.base + |conn.wire| <= |sent|
  {
    sent[conn.base..conn.base + |conn.wire|]
  }

  lemma FramesOfShare(queued: seq<string>, posted: seq<string>, sent: seq<string>, conn: Conn)
    requires AreFrames(queued + posted, sent) && S.Sendable(sent)
    requires conn.base + |conn.wire| <= |queued|
    requires conn.wire == queued[conn.base..conn.base + |conn.wire|]
    ensures conn.base + |conn.wire| <= |sent|
    ensures AreFrames(conn.wire, Share(sent, conn)) && S.Sendable(Share(sent, conn))
  {
    forall k | 0 <= k < |conn.wire| ensures conn.wire[k] == S.Frame(Share(sent, conn)[k]) {
      assert conn.wire[k] == (queued + posted)[conn.base + k];
    }
  }

  // The bytes on the wire are the stream of these messages.
  lemma WireIsStream(s: State, conn: Conn)
    requires ClientSide(s) && ConnOk(s.client.queued, conn)
    ensures conn.base + |conn.wire| <= |s.sent|
    ensures S.Joined(conn.wire) == S.Stream(Share(s.sent, conn)) && S.Sendable(Share(s.sent, conn))
  {
    FramesOfShare(s.client.queued, s.client.posted, s.sent, conn);
    FramesMakeStream(conn.wire, Share(s.sent, conn));
  }

  lemma ConnNotifies(s: State, conn: Conn)
    requires ClientSide(s) && ConnOk(s.client.queued, conn)
    ensures conn.base + |conn.wire| <= |s.sent|
    ensures conn.session.notified
            == Share(s.sent, conn)[..S.WholeFrames(Share(s.sent, conn), conn.received)]
    ensures |conn.session.notified| == |conn.wire| <==> conn.received == |S.Joined(conn.wire)|
  {
    WireIsStream(s, conn);
    S.FreshSessionNotifies(Share(s.sent, conn), conn.received);
    S.AllWhole(Share(s.sent, conn), conn.received);
  }

  // Each session notifies exactly the messages of its connection whose frames
  // it has received in full, in order: a beginning of them, and all of them
  // exactly if it has read all that was written.
  lemma SessionNotifies(s: State, c: nat)
    requires Inv(s) && c < |s.conns|
    ensures var conn := s.conns[c];
      && conn.base + |conn.wire| <= |s.sent|
      && FromConn(s.log, c) == conn.session.notified
         == Share(s.sent, conn)[..S.WholeFrames(Share(s.sent, conn), conn.received)]
      && (|conn.session.notified| == |conn.wire| <==> conn.received == |S.Joined(conn.wire)|)
  {
    ConnNotifies(s, s.conns[c]);
  }

  predicate Unread(conn: Conn) { conn.received != |S.Joined(conn.wire)| }

  // What the log and the connections say about the messages sent.
  predicate Reports(sent: seq<string>, conn: Conn) {
    && |conn.session.notified| <= |conn.wire| && conn.base + |conn.wire| <= |sent|
    && (|conn.session.notified| == |conn.wire| <==> !Unread(conn))
    && forall k :: 0 <= k < |conn.session.notified| ==> conn.session.notified[k] == sent[conn.base + k]
  }

  predicate Reported(s: State) {
    && Chained(s.conns) && LogOk(s.conns, s.log)
    && forall c :: 0 <= c < |s.conns| ==> Reports(s.sent, s.conns[c])
  }

  lemma ConnReports(s: State, conn: Conn)
    requires ClientSide(s) && ConnOk(s.client.queued, conn)
    ensures Reports(s.sent, conn)
  {
    ConnNotifies(s, conn);
    PrefixOfSlice(s.sent, conn.base, |conn.wire|, conn.session.notified);
  }

  lemma PrefixOfSlice(sent: seq<string>, base: nat, n: nat, part: seq<string>)
    requires base + n <= |sent| && part <= sent[base..base + n]
    ensures forall k :: 0 <= k < |part| ==> part[k] == sent[base + k]
  {}

  lemma InvReports(s: State)
    requires Inv(s)
    ensures Reported(s)
  {
    forall c | 0 <= c < |s.conns| ensures Reports(s.sent, s.conns[c]) {
      ConnReports(s, s.conns[c]);
    }
  }

  lemma ClosedStep(s: State, e: Event, c: nat)
    requires Enabled(s, e) && c < |s.conns| && !s.conns[c].open
    ensures c < |Next(s, e).conns| && !Next(s, e).conns[c].open
    ensures Next(s, e).conns[c].session == s.conns[c].session
  {}

  // A session that has ended is never heard of again.
  lemma {:induction false} ClosedStaysSilent(s: State, es: seq<Event>, c: nat)
    requires Inv(s) && CanRun(s, es) && c < |s.conns| && !s.conns[c].open
    ensures Inv(After(s, es)) && c < |After(s, es).conns| && !After(s, es).conns[c].open
    ensures FromConn(After(s, es).log, c) == After(s, es).conns[c].session.notified == s.conns[c].session.notified
    decreases |es|
  {
    if es != [] {
      ClosedStaysSilent(s, es[..|es| - 1], c);
      ClosedStep(After(s, es[..|es| - 1]), es[|es| - 1], c);
      StepKeepsInv(After(s, es[..|es| - 1]), es[|es| - 1]);
    }
  }
}
