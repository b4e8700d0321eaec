// What the server is notified of, over all sessions together: every
// notification is of its own message. Their order is that of sending exactly
// if no session notifies after a later one has, and nothing is skipped exactly
// if each session waits until the earlier ones have read to their end.
module LogOrder {
  import opened Header
  import S = Session
  import C = LogClient
  import opened LogTransport

  // The number, among all messages sent, of the message a notification is of.
  function Position(s: State, i: nat): nat
    requires i < |s.log| && s.log[i].conn < |s.conns|
  {
    s.conns[s.log[i].conn].base + |FromConn(s.log[..i], s.log[i].conn)|
  }

  // ----- Every notification is of its own message -----

  // A notification is the next one of its connection.
  lemma {:induction false} NoteInConn(log: seq<Note>, i: nat)
    requires i < |log|
    ensures var c := log[i].conn;
      var k := |FromConn(log[..i], c)|;
      k < |FromConn(log, c)| && FromConn(log, c)[k] == log[i].text
  {
    if i == |log| - 1 {
      assert log[..|log| - 1] == log[..i];
    } else {
      assert log[..|log| - 1][..i] == log[..i];
      NoteInConn(log[..|log| - 1], i);
    }
  }

  lemma {:induction false} FromConnGrows(log: seq<Note>, c: nat, i: nat)
    requires i <= |log|
    ensures |FromConn(log[..i], c)| <= |FromConn(log, c)|
  {
    if i < |log| {
      assert log[..|log| - 1][..i] == log[..i];
      FromConnGrows(log[..|log| - 1], c, i);
    } else {
      assert log[..i] == log;
    }
  }

  // The k-th notification of a connection is somewhere in the log.
  lemma {:induction false} NoteAt(log: seq<Note>, c: nat, k: nat) returns (i: nat)
    requires k < |FromConn(log, c)|
    ensures i < |log| && log[i].conn == c && |FromConn(log[..i], c)| == k
  {
    var n := |log| - 1;
    if k < |FromConn(log[..n], c)| {
      i := NoteAt(log[..n], c, k);
      assert log[..n][..i] == log[..i];
    } else {
      i := n;
    }
  }

  lemma {:induction false} ConnsApart(conns: seq<Conn>, c: nat, d: nat)
    requires Chained(conns) && c < d < |conns|
    ensures conns[c].base + |conns[c].wire| <= conns[d].base
  {
    assert conns[d].base == StartedBefore(conns, d);
    if c < d - 1 {
      ConnsApart(conns, c, d - 1);
    }
  }

  // A notification of connection c is of one of its messages, and of the one
  // at its position.
  lemma PositionInConn(s: State, i: nat)
    requires Reported(s) && i < |s.log|
    ensures s.log[i].conn < |s.conns|
    ensures var conn := s.conns[s.log[i].conn];
      && conn.base <= Position(s, i) < conn.base + |conn.session.notified| <= conn.base + |conn.wire| <= |s.sent|
      && s.log[i].text == s.sent[Position(s, i)]
  {
    NoteInConn(s.log, i);
    assert Reports(s.sent, s.conns[s.log[i].conn]);
  }

  // No two notifications are of the same message.
  lemma PositionsDiffer(s: State, i: nat, j: nat)
    requires Reported(s) && i < j < |s.log|
    ensures s.log[i].conn < |s.conns| && s.log[j].conn < |s.conns|
    ensures Position(s, i) != Position(s, j)
    ensures Position(s, i) < Position(s, j) <==> s.log[i].conn <= s.log[j].conn
  {
    PositionInConn(s, i);
    PositionInConn(s, j);
    var c, d := s.log[i].conn, s.log[j].conn;
    if c < d {
      ConnsApart(s.conns, c, d);
    } else if d < c {
      ConnsApart(s.conns, d, c);
    } else {
      assert s.log[..j][..i] == s.log[..i];
      NoteInConn(s.log[..j], i);
    }
  }

  // Over every run, whatever sessions read when: each notification is of a
  // message that was sent, and no message is notified twice.
  lemma NotifiedOnceEach(es: seq<Event>)
    requires CanRun(Init(), es)
    ensures var s := After(Init(), es);
      && (forall i :: 0 <= i < |s.log| ==> s.log[i].conn < |s.conns|)
      && (forall i :: 0 <= i < |s.log| ==> Position(s, i) < |s.sent| && s.log[i].text == s.sent[Position(s, i)])
      && forall i, j :: 0 <= i < j < |s.log| ==> Position(s, i) != Position(s, j)
  {
    RunKeepsInv(es);
    var s := After(Init(), es);
    InvReports(s);
    forall i | 0 <= i < |s.log|
      ensures s.log[i].conn < |s.conns| && Position(s, i) < |s.sent| && s.log[i].text == s.sent[Position(s, i)]
    {
      PositionInConn(s, i);
    }
    forall i, j | 0 <= i < j < |s.log| ensures Position(s, i) != Position(s, j) {
      PositionsDiffer(s, i, j);
    }
  }

  // ----- When the order is that of sending -----

  // What an event makes the server notify.
  function NewsOf(s: State, e: Event): seq<string>
    requires Enabled(s, e)
  {
    if e.Deliver? then News(s.conns[e.conn].session, Receive(s.conns[e.conn], e.n).session) else []
  }

  // No later session has notified anything yet.
  predicate OnTime(s: State, e: Event)
    requires Enabled(s, e)
  {
    NewsOf(s, e) != [] ==> forall i :: 0 <= i < |s.log| ==> s.log[i].conn <= e.conn
  }

  predicate AlwaysOnTime(s: State, es: seq<Event>)
    requires CanRun(s, es)
    decreases |es|
  {
    es == [] || (AlwaysOnTime(s, es[..|es| - 1]) && OnTime(After(s, es[..|es| - 1]), es[|es| - 1]))
  }

  predicate Ascending(log: seq<Note>) {
    forall i, j :: 0 <= i < j < |log| ==> log[i].conn <= log[j].conn
  }

  lemma AscendingAppend(log: seq<Note>, c: nat, texts: seq<string>)
    ensures Ascending(log + Tagged(c, texts))
            <==> Ascending(log) && (texts != [] ==> forall i :: 0 <= i < |log| ==> log[i].conn <= c)
  {
    var log' := log + Tagged(c, texts);
    if Ascending(log') {
      forall i, j | 0 <= i < j < |log| ensures log[i].conn <= log[j].conn {
        assert log'[i].conn <= log'[j].conn;
      }
      if texts != [] {
        forall i | 0 <= i < |log| ensures log[i].conn <= c {
          assert log'[i].conn <= log'[|log|].conn;
        }
      }
    }
  }

  lemma LogAfter(s: State, e: Event)
    requires Enabled(s, e)
    ensures Next(s, e).log == if e.Deliver? then s.log + Tagged(e.conn, NewsOf(s, e)) else s.log
  {}

  lemma {:induction false} AscendingExactlyOnTime(es: seq<Event>)
    requires CanRun(Init(), es)
    ensures Ascending(After(Init(), es).log) <==> AlwaysOnTime(Init(), es)
    decreases |es|
  {
    if es != [] {
      var s, e := After(Init(), es[..|es| - 1]), es[|es| - 1];
      AscendingExactlyOnTime(es[..|es| - 1]);
      LogAfter(s, e);
      if e.Deliver? {
        AscendingAppend(s.log, e.conn, NewsOf(s, e));
      }
    }
  }

  ghost predicate InOrder(s: State)
    requires forall i :: 0 <= i < |s.log| ==> s.log[i].conn < |s.conns|
  {
    forall i, j :: 0 <= i < j < |s.log| ==> Position(s, i) < Position(s, j)
  }

  // Positions ascend exactly if connections do.
  lemma OrderIsAscending(s: State)
    requires Reported(s)
    ensures InOrder(s) <==> Ascending(s.log)
  {
    forall i, j | 0 <= i < j < |s.log|
      ensures Position(s, i) < Position(s, j) <==> s.log[i].conn <= s.log[j].conn
    {
      PositionsDiffer(s, i, j);
    }
  }

  // The server is notified in the order of sending exactly if no session
  // notifies anything after a later one has.
  lemma InOrderExactlyWhenOnTime(es: seq<Event>)
    requires CanRun(Init(), es)
    ensures var s := After(Init(), es);
      && (forall i :: 0 <= i < |s.log| ==> s.log[i].conn < |s.conns|)
      && (InOrder(s) <==> AlwaysOnTime(Init(), es))
  {
    RunKeepsInv(es);
    AscendingExactlyOnTime(es);
    var s := After(Init(), es);
    InvReports(s);
    OrderIsAscending(s);
  }

  // ----- When nothing is skipped -----

  // The k-th notification is of the k-th message sent.
  ghost predicate Gapless(s: State)
    requires forall i :: 0 <= i < |s.log| ==> s.log[i].conn < |s.conns|
  {
    forall i :: 0 <= i < |s.log| ==> Position(s, i) == i
  }

  // Every earlier session has read all that was written to it.
  predicate InTurn(s: State, e: Event)
    requires Enabled(s, e)
  {
    NewsOf(s, e) != [] ==> forall c :: 0 <= c < e.conn ==> !Unread(s.conns[c])
  }

  predicate AlwaysInTurn(s: State, es: seq<Event>)
    requires CanRun(s, es)
    decreases |es|
  {
    es == [] || (AlwaysInTurn(s, es[..|es| - 1]) && InTurn(After(s, es[..|es| - 1]), es[|es| - 1]))
  }

  // The first message a session has not notified has no notification.
  lemma NotNotified(s: State, c: nat, i: nat)
    requires Reported(s) && c < |s.conns| && i < |s.log|
    requires |s.conns[c].session.notified| < |s.conns[c].wire|
    ensures s.log[i].conn < |s.conns| && Position(s, i) != s.conns[c].base + |s.conns[c].session.notified|
  {
    PositionInConn(s, i);
    var d := s.log[i].conn;
    if c < d {
      ConnsApart(s.conns, c, d);
    } else if d < c {
      ConnsApart(s.conns, d, c);
    }
  }

  // Without gaps so far, it comes after all that were notified.
  lemma FirstMissing(s: State, c: nat)
    requires Reported(s) && Gapless(s) && c < |s.conns|
    requires |s.conns[c].session.notified| < |s.conns[c].wire|
    ensures s.conns[c].base + |s.conns[c].session.notified| >= |s.log|
  {
    var p := s.conns[c].base + |s.conns[c].session.notified|;
    if p < |s.log| {
      NotNotified(s, c, p);
    }
  }

  lemma {:induction false} FindConn(conns: seq<Conn>, c: nat, p: nat) returns (d: nat)
    requires Chained(conns) && c <= |conns| && p < StartedBefore(conns, c)
    ensures d < c && conns[d].base <= p < conns[d].base + |conns[d].wire|
  {
    d := c - 1;
    if p < conns[d].base {
      d := FindConn(conns, c - 1, p);
    }
  }

  // A message of a session that has notified it has its notification.
  lemma NotifiedAt(s: State, c: nat, k: nat) returns (i: nat)
    requires Reported(s) && c < |s.conns| && k < |s.conns[c].session.notified|
    ensures i < |s.log| && s.log[i].conn == c && Position(s, i) == s.conns[c].base + k
  {
    i := NoteAt(s.log, c, k);
  }

  // If all earlier sessions have read to their end, a session has notified
  // at most what comes next.
  lemma EarlierAreNotified(s: State, c: nat)
    requires Reported(s) && Gapless(s) && c < |s.conns|
    requires forall d :: 0 <= d < c ==> !Unread(s.conns[d])
    ensures s.conns[c].base + |s.conns[c].session.notified| <= |s.log|
  {
    var p := s.conns[c].base + |s.conns[c].session.notified|;
    if p > 0 {
      if |s.conns[c].session.notified| > 0 {
        var i := NotifiedAt(s, c, |s.conns[c].session.notified| - 1);
      } else {
        assert s.conns[c].base == StartedBefore(s.conns, c);
        var d := FindConn(s.conns, c, p - 1);
        assert Reports(s.sent, s.conns[d]);
        var i := NotifiedAt(s, d, p - 1 - s.conns[d].base);
      }
    }
  }

  // The next notification of a session fits on exactly if it is its turn.
  lemma NextFitsExactlyInTurn(s: State, c: nat)
    requires Reported(s) && Gapless(s) && c < |s.conns|
    requires |s.conns[c].session.notified| < |s.conns[c].wire|
    ensures s.conns[c].base + |s.conns[c].session.notified| == |s.log|
            <==> forall d :: 0 <= d < c ==> !Unread(s.conns[d])
  {
    FirstMissing(s, c);
    if forall d :: 0 <= d < c ==> !Unread(s.conns[d]) {
      EarlierAreNotified(s, c);
    } else {
      var d :| 0 <= d < c && Unread(s.conns[d]);
      assert Reports(s.sent, s.conns[d]);
      FirstMissing(s, d);
      ConnsApart(s.conns, d, c);
    }
  }

  lemma BaseStays(s: State, e: Event, c: nat)
    requires Enabled(s, e) && c < |s.conns|
    ensures c < |Next(s, e).conns| && Next(s, e).conns[c].base == s.conns[c].base
  {}

  // Earlier positions never change.
  lemma PositionStays(s: State, e: Event, i: nat)
    requires Enabled(s, e) && i < |s.log| && s.log[i].conn < |s.conns|
    ensures i < |Next(s, e).log| && Next(s, e).log[i].conn < |Next(s, e).conns|
    ensures Position(Next(s, e), i) == Position(s, i)
  {
    LogAfter(s, e);
    BaseStays(s, e, s.log[i].conn);
    assert Next(s, e).log[..i] == s.log[..i];
  }

  lemma NewPosition(s: State, e: Event, i: nat)
    requires Reported(s) && Enabled(s, e) && e.Deliver? && |s.log| <= i < |s.log| + |NewsOf(s, e)|
    ensures Next(s, e).log[i].conn == e.conn
    ensures Position(Next(s, e), i) == s.conns[e.conn].base + |s.conns[e.conn].session.notified| + (i - |s.log|)
  {
    LogAfter(s, e);
    var m := i - |s.log|;
    var news := NewsOf(s, e);
    assert Next(s, e).log[..i] == s.log + Tagged(e.conn, news[..m]);
    FromConnAppend(s.log, e.conn, news[..m], e.conn);
  }

  lemma NewsFit(s: State, e: Event)
    requires Inv(s) && Enabled(s, e) && Orderly(s, e) && NewsOf(s, e) != []
    ensures e.Deliver? && |s.conns[e.conn].session.notified| + |NewsOf(s, e)| <= |s.conns[e.conn].wire|
  {
    StepKeepsInv(s, e);
    InvReports(Next(s, e));
    assert Reports(Next(s, e).sent, Next(s, e).conns[e.conn]);
    NewsAreNew(s.conns[e.conn], e.n);
  }

  lemma StepStaysGapless(s: State, e: Event)
    requires Inv(s) && Reported(s) && Enabled(s, e) && Orderly(s, e) && Gapless(s) && InTurn(s, e)
    ensures Inv(Next(s, e)) && Gapless(Next(s, e))
  {
    StepKeepsInv(s, e);
    LogAfter(s, e);
    if NewsOf(s, e) != [] {
      NewsFit(s, e);
      NextFitsExactlyInTurn(s, e.conn);
    }
    forall i | 0 <= i < |Next(s, e).log| ensures Position(Next(s, e), i) == i {
      if i < |s.log| {
        PositionStays(s, e, i);
      } else {
        NewPosition(s, e, i);
      }
    }
  }

  lemma StepWasInTurn(s: State, e: Event)
    requires Inv(s) && Enabled(s, e) && Orderly(s, e)
    requires Inv(Next(s, e)) && Gapless(Next(s, e))
    ensures Gapless(s) && InTurn(s, e)
  {
    LogAfter(s, e);
    forall i | 0 <= i < |s.log| ensures Position(s, i) == i {
      PositionStays(s, e, i);
    }
    if NewsOf(s, e) != [] {
      NewsFit(s, e);
      InvReports(s);
      NewPosition(s, e, |s.log|);
      NextFitsExactlyInTurn(s, e.conn);
    }
  }

  // The k-th notification is of the k-th message sent, for all k, exactly if
  // no session notified anything while an earlier one had bytes to read.
  lemma {:induction false} GaplessExactlyInTurn(es: seq<Event>)
    requires CanRun(Init(), es)
    ensures Inv(After(Init(), es))
    ensures Gapless(After(Init(), es)) <==> AlwaysInTurn(Init(), es)
    decreases |es|
  {
    if es != [] {
      var s, e := After(Init(), es[..|es| - 1]), es[|es| - 1];
      GaplessExactlyInTurn(es[..|es| - 1]);
      StepKeepsInv(s, e);
      InvReports(s);
      if Gapless(s) && InTurn(s, e) {
        StepStaysGapless(s, e);
      }
      if Gapless(Next(s, e)) {
        StepWasInTurn(s, e);
      }
    }
  }

  // ----- When nothing is missing -----

  ghost predicate IsNotified(s: State, p: nat)
    requires forall i :: 0 <= i < |s.log| ==> s.log[i].conn < |s.conns|
  {
    exists i :: 0 <= i < |s.log| && Position(s, i) == p
  }

  // Of all messages whose write was started on any connection, none is
  // missing exactly if every session has read all that was written to it.
  lemma NoneMissingExactlyWhenRead(es: seq<Event>)
    requires CanRun(Init(), es)
    ensures Inv(After(Init(), es))
    ensures var s := After(Init(), es);
      (forall p :: 0 <= p < Started(s.conns) ==> IsNotified(s, p))
      <==> forall c :: 0 <= c < |s.conns| ==> !Unread(s.conns[c])
  {
    RunKeepsInv(es);
    var s := After(Init(), es);
    InvReports(s);
    if c :| 0 <= c < |s.conns| && Unread(s.conns[c]) {
      MissingOne(s, c);
    } else {
      forall p | 0 <= p < Started(s.conns) ensures IsNotified(s, p) {
        var d := FindConn(s.conns, |s.conns|, p);
        assert Reports(s.sent, s.conns[d]);
        var i := NotifiedAt(s, d, p - s.conns[d].base);
      }
    }
  }

  lemma MissingOne(s: State, c: nat)
    requires Reported(s) && c < |s.conns| && Unread(s.conns[c])
    ensures var p := s.conns[c].base + |s.conns[c].session.notified|; p < Started(s.conns) && !IsNotified(s, p)
  {
    assert Reports(s.sent, s.conns[c]);
    forall i | 0 <= i < |s.log|
      ensures Position(s, i) != s.conns[c].base + |s.conns[c].session.notified|
    {
      NotNotified(s, c, i);
    }
    EndsBelow(s.conns, c);
  }

  lemma EndsBelow(conns: seq<Conn>, c: nat)
    requires Chained(conns) && c < |conns|
    ensures conns[c].base + |conns[c].wire| <= Started(conns)
  {
    if c < |conns| - 1 {
      ConnsApart(conns, c, |conns| - 1);
    }
  }

  // The client has nothing left to write, and every session has read to its
  // end.
  predicate Finished(s: State) {
    && s.client.posted == [] && s.client.queue == []
    && forall c :: 0 <= c < |s.conns| ==> !Unread(s.conns[c])
  }

  // End to end: if each session waits its turn, the notifications are a
  // beginning of what was sent, and all of it once all is finished.
  lemma NotifiedIsPrefixInTurn(es: seq<Event>)
    requires CanRun(Init(), es) && AlwaysInTurn(Init(), es)
    ensures var s := After(Init(), es);
      && |s.log| <= |s.sent|
      && (forall i :: 0 <= i < |s.log| ==> s.log[i].text == s.sent[i])
      && (Finished(s) ==> |s.log| == |s.sent|)
  {
    GaplessExactlyInTurn(es);
    NoneMissingExactlyWhenRead(es);
    var s := After(Init(), es);
    InvReports(s);
    forall i | 0 <= i < |s.log| ensures i < |s.sent| && s.log[i].text == s.sent[i] {
      PositionInConn(s, i);
    }
    if s.log != [] {
      PositionInConn(s, |s.log| - 1);
    }
    if Finished(s) {
      AllStarted(s);
      assert |s.log| < |s.sent| ==> IsNotified(s, |s.log|);
    }
  }

  lemma AllStarted(s: State)
    requires ClientSide(s) && s.client.posted == [] && s.client.queue == []
    ensures Started(s.conns) == |s.sent|
  {}

  // ----- A run out of order, and a lost message -----

  ghost predicate At(es: seq<Event>, s: State) {
    CanRun(Init(), es) && After(Init(), es) == s
  }

  lemma Do(es: seq<Event>, s: State, e: Event) returns (es': seq<Event>, s': State)
    requires At(es, s) && Enabled(s, e) && Orderly(s, e)
    ensures s' == Next(s, e) && At(es', s')
  {
    es', s' := es + [e], Next(s, e);
    assert es'[..|es|] == es;
  }

  // A message is sent and written on a new connection.
  lemma SendNow(es: seq<Event>, s: State, msg: string) returns (es': seq<Event>, s': State)
    requires At(es, s) && |msg| < FRAME_LIMIT
    requires s.client == C.State(false, [], 1, 0, [], [], s.client.queued, s.client.done, false)
    ensures At(es', s')
    ensures var frame := S.Frame(msg);
      && s'.client == C.State(true, [frame], 0, 1, [frame], [], s.client.queued + [frame], s.client.done, false)
      && s'.sent == s.sent + [msg] && s'.log == s.log
      && s'.conns == s.conns + [Conn(Started(s.conns), [frame], 0, S.FRESH, true)]
  {
    es', s' := Do(es, s, Handler(C.Connect(true)));
    assert s'.client == C.State(true, [], 0, 1, [], [], s.client.queued, s.client.done, false);
    NothingWritten(Opened(s.conns, C.Connect(true)));
    es', s' := Do(es', s', Send(msg));
    es', s' := Do(es', s', Handler(C.RunQueued));
  }

  // The write completes and the connection is lost.
  lemma LoseIdle(es: seq<Event>, s: State, frame: string) returns (es': seq<Event>, s': State)
    requires At(es, s) && s.conns != []
    requires s.client == C.State(true, [frame], 0, 1, [frame], [], s.client.queued, s.client.done, false)
    ensures At(es', s')
    ensures s' == s.(client := C.State(false, [], 1, 0, [], [], s.client.queued, s.client.done + [frame], false))
  {
    es', s' := Do(es, s, Handler(C.Write(true)));
    assert s'.client == C.State(true, [], 0, 1, [], [], s.client.queued, s.client.done + [frame], false);
    NothingWritten(s.conns);
    es', s' := Do(es', s', Handler(C.Read(false)));
  }

  lemma NothingWritten(conns: seq<Conn>)
    ensures Written(conns, []) == conns
  {
    if conns != [] {
      assert conns[|conns| - 1].wire + [] == conns[|conns| - 1].wire;
    }
  }

  lemma OneFrame(conn: Conn, msg: string)
    requires |msg| < FRAME_LIMIT && conn.wire == [S.Frame(msg)] && conn.received == 0 && conn.session == S.FRESH
    ensures |S.Joined(conn.wire)| == |S.Frame(msg)|
    ensures News(conn.session, Receive(conn, |S.Frame(msg)|).session) == [msg]
  {
    assert conn.wire[..0] == [];
    assert S.Joined(conn.wire) == S.Frame(msg);
    assert S.Frame(msg)[0..|S.Frame(msg)|] == S.Frame(msg);
    S.FeedFrame(S.FRESH, msg);
  }

  // A session that has received nothing reads the one frame on its wire.
  lemma ReadOne(es: seq<Event>, s: State, c: nat, msg: string) returns (es': seq<Event>, s': State)
    requires At(es, s) && |msg| < FRAME_LIMIT && c < |s.conns|
    requires s.conns[c] == Conn(s.conns[c].base, [S.Frame(msg)], 0, S.FRESH, true)
    ensures At(es', s') && s'.log == s.log + [Note(c, msg)]
    ensures s'.sent == s.sent && |s'.conns| == |s.conns|
    ensures forall d :: 0 <= d < |s.conns| && d != c ==> s'.conns[d] == s.conns[d]
  {
    OneFrame(s.conns[c], msg);
    es', s' := Do(es, s, Deliver(c, |S.Frame(msg)|));
  }

  lemma TwoConnections(first: string, second: string) returns (es: seq<Event>, s: State)
    requires |first| < FRAME_LIMIT && |second| < FRAME_LIMIT
    ensures At(es, s) && s.sent == [first, second] && s.log == []
    ensures |s.conns| == 2
    ensures s.conns[0] == Conn(s.conns[0].base, [S.Frame(first)], 0, S.FRESH, true)
    ensures s.conns[1] == Conn(s.conns[1].base, [S.Frame(second)], 0, S.FRESH, true)
  {
    es, s := SendNow([], Init(), first);
    es, s := LoseIdle(es, s, S.Frame(first));
    es, s := SendNow(es, s, second);
  }

  // The second session reads before the first, which is still open although
  // the client has lost its connection: the messages arrive swapped.
  lemma LateSessionSwapsMessages(first: string, second: string) returns (es: seq<Event>, s: State)
    requires |first| < FRAME_LIMIT && |second| < FRAME_LIMIT
    ensures CanRun(Init(), es) && s == After(Init(), es)
    ensures s.sent == [first, second] && s.log == [Note(1, second), Note(0, first)]
  {
    es, s := TwoConnections(first, second);
    es, s := ReadOne(es, s, 1, second);
    es, s := ReadOne(es, s, 0, first);
  }

  // The first session ends before it has read its message: the message is
  // lost in every continuation, though its write completed.
  lemma UnreadMessageIsLost(first: string, second: string) returns (es: seq<Event>, s: State)
    requires |first| < FRAME_LIMIT && |second| < FRAME_LIMIT
    ensures CanRun(Init(), es) && s == After(Init(), es)
    ensures s.sent == [first, second] && s.log == [Note(1, second)]
    ensures forall more :: CanRun(s, more) ==> FromConn(After(s, more).log, 0) == []
  {
    es, s := TwoConnections(first, second);
    es, s := ReadOne(es, s, 1, second);
    es, s := Do(es, s, Close(0));
    RunKeepsInv(es);
    assert s.log[..0] == [];
    forall more | CanRun(s, more) ensures FromConn(After(s, more).log, 0) == [] {
      ClosedStaysSilent(s, more, 0);
    }
  }
}
