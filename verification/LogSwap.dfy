// When the order of notifications can still break: a condition on the present
// state that decides it for every future without a further lost connection.
module LogSwap {
  import S = Session
  import C = LogClient
  import opened LogTransport
  import opened LogOrder

  // A session that still has something to notify.
  predicate Behind(conn: Conn) {
    conn.open && Unread(conn)
  }

  // A session that has notified something, has something to notify, or is that
  // of the connection the client is writing to.
  predicate Ahead(s: State, d: nat)
    requires d < |s.conns|
  {
    || s.conns[d].session.notified != []
    || Behind(s.conns[d])
    || (d == |s.conns| - 1 && s.client.connected && s.conns[d].open)
  }

  // A session is behind with a later one ahead, or the client is about to make
  // a later one.
  predicate Overtakable(s: State, c: nat)
    requires c < |s.conns|
  {
    Behind(s.conns[c]) && (!s.client.connected || exists d :: c < d < |s.conns| && Ahead(s, d))
  }

  predicate Settled(s: State) {
    Ascending(s.log) && forall c :: 0 <= c < |s.conns| ==> !Overtakable(s, c)
  }

  // Without a further lost connection. The order is broken exactly if the log
  // does not ascend (LogOrder.OrderIsAscending).
  predicate NoLoss(es: seq<Event>) {
    forall k :: 0 <= k < |es| ==> es[k] != Handler(C.Read(false))
  }

  ghost predicate MayBreak(s: State) {
    exists es :: NoLoss(es) && CanRun(s, es) && !Ascending(After(s, es).log)
  }

  // ----- Settled states stay settled -----

  lemma {:induction false} SomeFrom(log: seq<Note>, i: nat)
    requires i < |log|
    ensures FromConn(log, log[i].conn) != []
  {
    NoteInConn(log, i);
  }

  lemma NewsMeanBehind(s: State, e: Event)
    requires Inv(s) && Enabled(s, e) && Orderly(s, e) && NewsOf(s, e) != []
    ensures e.Deliver? && Behind(s.conns[e.conn])
  {
    NewsFit(s, e);
    InvReports(s);
    assert Reports(s.sent, s.conns[e.conn]);
  }

  lemma DeliverStaysAscending(s: State, e: Event)
    requires Inv(s) && Enabled(s, e) && Orderly(s, e) && e.Deliver? && Settled(s)
    ensures Ascending(Next(s, e).log)
  {
    LogAfter(s, e);
    AscendingAppend(s.log, e.conn, NewsOf(s, e));
    if NewsOf(s, e) != [] {
      NewsMeanBehind(s, e);
      forall i | 0 <= i < |s.log| ensures s.log[i].conn <= e.conn {
        SomeFrom(s.log, i);
        assert s.log[i].conn > e.conn ==> Ahead(s, s.log[i].conn);
        assert !Overtakable(s, e.conn);
      }
    }
  }

  // A delivery puts nobody behind or ahead who was not.
  lemma DeliverMovesOnly(s: State, e: Event, c: nat)
    requires Inv(s) && Enabled(s, e) && Orderly(s, e) && e.Deliver? && c < |s.conns|
    ensures Behind(Next(s, e).conns[c]) ==> Behind(s.conns[c])
    ensures Ahead(Next(s, e), c) ==> Ahead(s, c)
  {
    if c == e.conn {
      NewsAreNew(s.conns[c], e.n);
      if NewsOf(s, e) != [] {
        NewsMeanBehind(s, e);
      }
    }
  }

  lemma DeliverStaysSettled(s: State, e: Event)
    requires Inv(s) && Enabled(s, e) && Orderly(s, e) && e.Deliver? && Settled(s)
    ensures Settled(Next(s, e))
  {
    var s' := Next(s, e);
    DeliverStaysAscending(s, e);
    forall c | 0 <= c < |s'.conns| ensures !Overtakable(s', c) {
      DeliverMovesOnly(s, e, c);
      assert !Overtakable(s, c);
      forall d | c < d < |s'.conns| ensures Ahead(s', d) ==> Ahead(s, d) {
        DeliverMovesOnly(s, e, d);
      }
    }
  }

  lemma CloseStaysSettled(s: State, c: nat)
    requires Settled(s) && Enabled(s, Close(c))
    ensures Settled(Next(s, Close(c)))
  {
    var s' := Next(s, Close(c));
    forall i | 0 <= i < |s'.conns| ensures !Overtakable(s', i) {
      assert !Overtakable(s, i);
      forall d | i < d < |s'.conns| ensures Ahead(s', d) ==> Ahead(s, d) {}
    }
  }

  lemma WrittenOnly(conns: seq<Conn>, more: seq<string>)
    ensures var conns' := Written(conns, more);
      && |conns'| == |conns|
      && (forall c :: 0 <= c < |conns| ==> conns'[c].open == conns[c].open && conns'[c].session == conns[c].session)
      && (forall c :: 0 <= c < |conns| && conns'[c] != conns[c] ==> c == |conns| - 1 && more != [])
  {
    if more == [] {
      NothingWritten(conns);
    }
  }

  lemma ConnectedStays(c: C.State, h: C.Event)
    requires C.Inv(c) && C.Enabled(c, h) && C.DropsOnlyWhenIdle(c, h)
    requires h != C.Read(false) && h != C.Connect(true)
    ensures C.Next(c, h).connected == c.connected
  {}

  // A handler that makes no connection only writes to the latest one, if that
  // is the present one.
  lemma HandlerMovesOnly(s: State, h: C.Event)
    requires Inv(s) && Enabled(s, Handler(h)) && Orderly(s, Handler(h))
    requires h != C.Read(false) && h != C.Connect(true)
    ensures var s' := Next(s, Handler(h));
      && s'.log == s.log && |s'.conns| == |s.conns| && s'.client.connected == s.client.connected
      && (forall c :: 0 <= c < |s.conns| ==>
            s'.conns[c].open == s.conns[c].open && s'.conns[c].session == s.conns[c].session)
      && (forall c :: 0 <= c < |s.conns| && s'.conns[c] != s.conns[c] ==>
            c == |s.conns| - 1 && s.client.connected)
  {
    NewWritesContinue(s.client, h);
    ConnectedStays(s.client, h);
    WrittenOnly(s.conns, NewWrites(s.client.writes, h, C.Next(s.client, h).writes));
  }

  lemma HandlerStaysSettled(s: State, h: C.Event)
    requires Inv(s) && Settled(s) && Enabled(s, Handler(h)) && Orderly(s, Handler(h))
    requires h != C.Read(false) && h != C.Connect(true)
    ensures Settled(Next(s, Handler(h)))
  {
    var s' := Next(s, Handler(h));
    HandlerMovesOnly(s, h);
    forall c | 0 <= c < |s'.conns| ensures !Overtakable(s', c) {
      assert !Overtakable(s, c);
      if s'.conns[c] == s.conns[c] {
        forall d | c < d < |s'.conns| ensures Ahead(s', d) ==> Ahead(s, d) {}
      }
    }
  }

  lemma ConnectStaysSettled(s: State)
    requires Inv(s) && Settled(s) && Enabled(s, Handler(C.Connect(true)))
    ensures Settled(Next(s, Handler(C.Connect(true))))
  {
    var s' := Next(s, Handler(C.Connect(true)));
    forall c | 0 <= c < |s'.conns| ensures !Overtakable(s', c) {
      if c < |s.conns| {
        assert !Overtakable(s, c) && s'.conns[c] == s.conns[c];
      }
    }
  }

  lemma StepStaysSettled(s: State, e: Event)
    requires Inv(s) && Settled(s) && Enabled(s, e) && Orderly(s, e) && e != Handler(C.Read(false))
    ensures Inv(Next(s, e)) && Settled(Next(s, e))
  {
    StepKeepsInv(s, e);
    match e
    case Send(_) =>
      forall c | 0 <= c < |s.conns| ensures !Overtakable(Next(s, e), c) {
        assert !Overtakable(s, c);
        forall d | c < d < |s.conns| ensures Ahead(Next(s, e), d) ==> Ahead(s, d) {}
      }
    case Deliver(_, _) => DeliverStaysSettled(s, e);
    case Close(c) => CloseStaysSettled(s, c);
    case Handler(h) =>
      if h == C.Connect(true) {
        ConnectStaysSettled(s);
      } else {
        HandlerStaysSettled(s, h);
      }
  }

  lemma {:induction false} RunStaysSettled(s: State, es: seq<Event>)
    requires Inv(s) && Settled(s) && NoLoss(es) && CanRun(s, es)
    ensures Inv(After(s, es)) && Settled(After(s, es))
    decreases |es|
  {
    if es != [] {
      RunStaysSettled(s, es[..|es| - 1]);
      StepStaysSettled(After(s, es[..|es| - 1]), es[|es| - 1]);
    }
  }

  // ----- Breaking the order -----

  // A run from s0 to s without a lost connection.
  ghost predicate Without(s0: State, es: seq<Event>, s: State) {
    CanRun(s0, es) && NoLoss(es) && After(s0, es) == s
  }

  lemma Extend(s0: State, es: seq<Event>, s: State, e: Event) returns (es': seq<Event>, s': State)
    requires Without(s0, es, s) && Enabled(s, e) && Orderly(s, e) && e != Handler(C.Read(false))
    ensures s' == Next(s, e) && Without(s0, es', s')
  {
    es', s' := es + [e], Next(s, e);
    assert es'[..|es|] == es;
  }

  lemma Go(s0: State, es: seq<Event>, s: State, e: Event) returns (es': seq<Event>, s': State)
    requires Without(s0, es, s) && Inv(s) && Enabled(s, e) && Orderly(s, e) && e != Handler(C.Read(false))
    ensures s' == Next(s, e) && Without(s0, es', s') && Inv(s')
  {
    StepKeepsInv(s, e);
    es', s' := Extend(s0, es, s, e);
  }

  // A session that is behind reads on and notifies.
  lemma CatchUp(s0: State, es: seq<Event>, s: State, c: nat) returns (es': seq<Event>, s': State)
    requires Without(s0, es, s) && Inv(s) && c < |s.conns| && Behind(s.conns[c])
    ensures Without(s0, es', s') && Inv(s') && |s'.conns| == |s.conns|
    ensures forall d :: 0 <= d < |s.conns| && d != c ==> s'.conns[d] == s.conns[d]
    ensures s'.conns[c].session.notified != []
    ensures |s'.log| > |s.log| && s'.log[..|s.log|] == s.log && s'.log[|s.log|].conn == c
  {
    var conn := s.conns[c];
    InvReports(s);
    assert ConnOk(s.client.queued, conn) && Reports(s.sent, conn);
    var e := Deliver(c, |S.Joined(conn.wire)| - conn.received);
    es', s' := Go(s0, es, s, e);
    InvReports(s');
    assert Reports(s'.sent, s'.conns[c]) && !Unread(s'.conns[c]);
    LogAfter(s, e);
    NewsAreNew(conn, e.n);
  }

  // A later session has notified; then the earlier one does.
  lemma Overtaken(s0: State, es: seq<Event>, s: State, c: nat, d: nat)
    requires Without(s0, es, s) && Inv(s) && c < d < |s.conns|
    requires Behind(s.conns[c]) && s.conns[d].session.notified != []
    ensures MayBreak(s0)
  {
    var i := NoteAt(s.log, d, 0);
    var es', s' := CatchUp(s0, es, s, c);
    assert s'.log[i] == s'.log[..|s.log|][i] == s.log[i];
    assert s'.log[i].conn > s'.log[|s.log|].conn;
  }

  lemma BothBehind(s0: State, es: seq<Event>, s: State, c: nat, d: nat)
    requires Without(s0, es, s) && Inv(s) && c < d < |s.conns| && Behind(s.conns[c]) && Behind(s.conns[d])
    ensures MayBreak(s0)
  {
    var es', s' := CatchUp(s0, es, s, d);
    Overtaken(s0, es', s', c, d);
  }

  // The client writes one more message to the connection it has.
  lemma WriteOneMore(s0: State, es: seq<Event>, s: State) returns (es': seq<Event>, s': State)
    requires Without(s0, es, s) && Inv(s) && s.client.connected && s.client.queue == []
    ensures Without(s0, es', s') && Inv(s') && s.conns != []
    ensures exists frame :: s'.conns == Written(s.conns, [frame])
  {
    es', s' := es, s;
    if s.client.posted == [] {
      es', s' := Go(s0, es, s, Send(""));
    }
    var frame := s'.client.posted[0];
    es', s' := Go(s0, es', s', Handler(C.RunQueued));
    assert s'.conns == Written(s.conns, [frame]);
  }

  // A connection with one more message is behind.
  lemma OneMoreIsBehind(s: State, s': State, frame: string)
    requires Inv(s) && Inv(s') && s.conns != [] && s.conns[|s.conns| - 1].open
    requires s'.conns == Written(s.conns, [frame])
    ensures Behind(s'.conns[|s.conns| - 1])
  {
    var last := |s.conns| - 1;
    InvReports(s);
    InvReports(s');
    assert Reports(s.sent, s.conns[last]) && Reports(s'.sent, s'.conns[last]);
  }

  // The connection the client is writing to overtakes an earlier one.
  lemma {:induction false} LatestOvertakes(s0: State, es: seq<Event>, s: State, c: nat)
    requires Without(s0, es, s) && Inv(s) && s.client.connected
    requires c < |s.conns| - 1 && Behind(s.conns[c]) && s.conns[|s.conns| - 1].open
    ensures MayBreak(s0)
    decreases |s.client.queue|
  {
    if s.client.queue == [] {
      var es', s' := WriteOneMore(s0, es, s);
      var frame :| s'.conns == Written(s.conns, [frame]);
      OneMoreIsBehind(s, s', frame);
      WrittenOnly(s.conns, [frame]);
      BothBehind(s0, es', s', c, |s.conns| - 1);
    } else {
      HandlerMovesOnly(s, C.Write(true));
      var es', s' := Go(s0, es, s, Handler(C.Write(true)));
      LatestOvertakes(s0, es', s', c);
    }
  }

  lemma ConnectOpens(s: State)
    requires Inv(s) && !s.client.connected
    ensures Enabled(s, Handler(C.Connect(true)))
    ensures var s' := Next(s, Handler(C.Connect(true)));
      && s'.client.connected && |s'.conns| == |s.conns| + 1 && s'.conns[|s.conns|].open
      && forall c :: 0 <= c < |s.conns| ==> s'.conns[c] == s.conns[c]
  {}

  // A new connection overtakes an earlier one.
  lemma NextOvertakes(s0: State, es: seq<Event>, s: State, c: nat)
    requires Without(s0, es, s) && Inv(s) && !s.client.connected && c < |s.conns| && Behind(s.conns[c])
    ensures MayBreak(s0)
  {
    ConnectOpens(s);
    var es', s' := Go(s0, es, s, Handler(C.Connect(true)));
    LatestOvertakes(s0, es', s', c);
  }

  lemma AheadOvertakes(s0: State, es: seq<Event>, s: State, c: nat, d: nat)
    requires Without(s0, es, s) && Inv(s) && s.client.connected
    requires c < d < |s.conns| && Behind(s.conns[c]) && Ahead(s, d)
    ensures MayBreak(s0)
  {
    if s.conns[d].session.notified != [] {
      Overtaken(s0, es, s, c, d);
    } else if Behind(s.conns[d]) {
      BothBehind(s0, es, s, c, d);
    } else {
      LatestOvertakes(s0, es, s, c);
    }
  }

  lemma BreakFrom(s: State, c: nat)
    requires Inv(s) && c < |s.conns| && Overtakable(s, c)
    ensures MayBreak(s)
  {
    assert Without(s, [], s);
    if !s.client.connected {
      NextOvertakes(s, [], s, c);
    } else {
      var d :| c < d < |s.conns| && Ahead(s, d);
      AheadOvertakes(s, [], s, c, d);
    }
  }

  // At any moment of any run: without a further lost connection the order of
  // notifications is or can still be broken exactly if it is already, or an
  // open session has something unread with a later session that has notified,
  // has something unread or is being written to, or with the client about to
  // make a new connection.
  lemma MayBreakExactlyWhenUnsettled(past: seq<Event>)
    requires CanRun(Init(), past)
    ensures MayBreak(After(Init(), past)) <==> !Settled(After(Init(), past))
  {
    var s := After(Init(), past);
    RunKeepsInv(past);
    if Settled(s) {
      forall es | NoLoss(es) && CanRun(s, es) ensures Ascending(After(s, es).log) {
        RunStaysSettled(s, es);
      }
    } else if !Ascending(s.log) {
      assert NoLoss([]) && CanRun(s, []) && After(s, []) == s;
    } else {
      var c :| 0 <= c < |s.conns| && Overtakable(s, c);
      BreakFrom(s, c);
    }
  }
}
