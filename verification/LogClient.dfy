// log::Client: an outgoing queue with reconnection, run as completion handlers
// on one io thread (src/log/client.cpp).
module LogClient {

  // `connects`, `monitors` and `writes` are the asynchronous operations under
  // way: connection attempts, socket monitors, and the frames being written.
  // `posted` are the frames handed to send whose handler has not run yet;
  // `queued` those whose handler has, and `done` the completed writes. The
  // run ends as `corrupt` if pop_front is called on the empty queue.
  datatype State = State(
    connected: bool, queue: seq<string>,
    connects: nat, monitors: nat, writes: seq<string>,
    posted: seq<string>, queued: seq<string>, done: seq<string>, corrupt: bool)

  // The constructor starts the first connection attempt.
  function Init(): State {
    State(false, [], 1, 0, [], [], [], [], false)
  }

  datatype Event = Send(frame: string) | RunQueued | Connect(ok: bool) | Read(ok: bool) | Write(ok: bool)

  predicate Enabled(s: State, e: Event) {
    && !s.corrupt
    && match e
       case Send(_) => true
       case RunQueued => s.posted != []
       case Connect(_) => s.connects > 0
       case Read(_) => s.monitors > 0
       case Write(_) => s.writes != []
  }

  // M_doWrite: start writing the front of the queue.
  function DoWrite(s: State): State
    requires s.queue != []
  {
    s.(writes := s.writes + [s.queue[0]])
  }

  // M_doConnect, with m_terminate false.
  function DoConnect(s: State): State {
    s.(connects := s.connects + 1)
  }

  // The handler M_queueMessage posts.
  function OnQueued(s: State): State
    requires s.posted != []
  {
    var frame := s.posted[0];
    var s1 := s.(posted := s.posted[1..], queue := s.queue + [frame], queued := s.queued + [frame]);
    if s.connected && s.queue == [] then DoWrite(s1) else s1
  }

  function OnConnect(s: State, ok: bool): State
    requires s.connects > 0
  {
    var s1 := s.(connected := ok, connects := s.connects - 1);
    if !ok then DoConnect(s1)
    else
      var s2 := s1.(monitors := s1.monitors + 1);
      if s2.queue != [] then DoWrite(s2) else s2
  }

  function OnRead(s: State, ok: bool): State
    requires s.monitors > 0
  {
    if ok then s else DoConnect(s.(connected := false, monitors := s.monitors - 1))
  }

  function OnWrite(s: State, ok: bool): State
    requires s.writes != []
  {
    var s1 := s.(writes := s.writes[1..]);
    if ok then
      var s2 := s1.(done := s.done + [s.writes[0]]);
      if s.queue == [] then s2.(corrupt := true)
      else
        var s3 := s2.(queue := s.queue[1..]);
        if s3.queue != [] then DoWrite(s3) else s3
    else
      DoConnect(s1.(connected := false))
  }

  function Next(s: State, e: Event): State
    requires Enabled(s, e)
  {
    match e
    case Send(frame) => s.(posted := s.posted + [frame])
    case RunQueued => OnQueued(s)
    case Connect(ok) => OnConnect(s, ok)
    case Read(ok) => OnRead(s, ok)
    case Write(ok) => OnWrite(s, ok)
  }

  // Connected: one socket monitor, no connection attempt, and one write, of
  // the front of the queue, exactly when the queue is not empty. Disconnected:
  // one connection attempt and nothing else.
  predicate Tidy(s: State) {
    && !s.corrupt
    && (s.connected ==>
          && s.connects == 0 && s.monitors == 1
          && s.writes == if s.queue == [] then [] else [s.queue[0]])
    && (!s.connected ==> s.connects == 1 && s.monitors == 0 && s.writes == [])
  }

  // And nothing lost, repeated or reordered.
  predicate Inv(s: State) {
    Tidy(s) && s.done + s.queue == s.queued
  }

  // The connection is not lost while a write is under way.
  predicate DropsOnlyWhenIdle(s: State, e: Event) {
    && e != Write(false)
    && (e == Read(false) ==> s.writes == [])
  }

  // One handler keeps the invariant exactly when it is not the loss of the
  // connection during a write.
  lemma StepKeepsInvExactlyWhenIdle(s: State, e: Event)
    requires Inv(s) && Enabled(s, e)
    ensures Inv(Next(s, e)) <==> DropsOnlyWhenIdle(s, e)
  {
    match e {
      case RunQueued => assert s.done + (s.queue + [s.posted[0]]) == s.queued + [s.posted[0]];
      case Write(ok) => assert ok ==> (s.done + [s.queue[0]]) + s.queue[1..] == s.done + s.queue;
      case _ =>
    }
  }

  predicate CanRun(s: State, es: seq<Event>)
    decreases |es|, 0
  {
    es == [] || (CanRun(s, es[..|es| - 1]) && Enabled(After(s, es[..|es| - 1]), es[|es| - 1]))
  }

  function After(s: State, es: seq<Event>): State
    requires CanRun(s, es)
    decreases |es|, 1
  {
    if es == [] then s else Next(After(s, es[..|es| - 1]), es[|es| - 1])
  }

  predicate IdleDropsOnly(s: State, es: seq<Event>)
    requires CanRun(s, es)
    decreases |es|
  {
    es == [] ||
      (IdleDropsOnly(s, es[..|es| - 1]) && DropsOnlyWhenIdle(After(s, es[..|es| - 1]), es[|es| - 1]))
  }

  // Over every run, with any number of failed connection attempts and of
  // drops while idle; and the first drop during a write breaks it.
  lemma {:induction false} QueueSurvivesReconnects(es: seq<Event>)
    requires CanRun(Init(), es)
    ensures IdleDropsOnly(Init(), es) ==> Inv(After(Init(), es))
    ensures es != [] && IdleDropsOnly(Init(), es[..|es| - 1]) && !IdleDropsOnly(Init(), es)
            ==> !Inv(After(Init(), es))
    decreases |es|
  {
    if es != [] {
      var before := es[..|es| - 1];
      QueueSurvivesReconnects(before);
      if IdleDropsOnly(Init(), before) {
        StepKeepsInvExactlyWhenIdle(After(Init(), before), es[|es| - 1]);
      }
    }
  }

  // The handlers over the client's own fields.
  class Client {
    var connected: bool
    var messageQueue: seq<string>
    var connects: nat
    var monitors: nat
    var writes: seq<string>
    var posted: seq<string>
    ghost var queued: seq<string>
    ghost var done: seq<string>
    ghost var corrupt: bool

    ghost function View(): State
      reads this
    {
      State(connected, messageQueue, connects, monitors, writes, posted, queued, done, corrupt)
    }

    constructor ()
      ensures View() == Init() && Inv(View())
    {
      connected, messageQueue, connects, monitors, writes := false, [], 0, 0, [];
      posted, queued, done, corrupt := [], [], [], false;
      new;
      StartConnect();
    }

    method StartConnect()
      modifies this`connects
      ensures connects == old(connects) + 1
    {
      connects := connects + 1;
    }

    method StartRead()
      modifies this`monitors
      ensures monitors == old(monitors) + 1
    {
      monitors := monitors + 1;
    }

    method StartWrite()
      requires messageQueue != []
      modifies this`writes
      ensures writes == old(writes) + [messageQueue[0]]
    {
      writes := writes + [messageQueue[0]];
    }

    method QueueMessage(frame: string)
      requires !corrupt
      modifies this`posted
      ensures View() == Next(old(View()), Send(frame))
      ensures old(Inv(View())) ==> Inv(View())
    {
      posted := posted + [frame];
    }

    method OnQueueMessage()
      requires posted != [] && !corrupt
      modifies this
      ensures View() == Next(old(View()), RunQueued)
      ensures old(Inv(View())) ==> Inv(View())
    {
      if Inv(View()) {
        StepKeepsInvExactlyWhenIdle(View(), RunQueued);
      }
      var frame := posted[0];
      posted := posted[1..];
      var writeInProgress := messageQueue != [];
      messageQueue := messageQueue + [frame];
      queued := queued + [frame];
      if connected && !writeInProgress {
        StartWrite();
      }
    }

    method OnConnectDone(ok: bool)
      requires connects > 0 && !corrupt
      modifies this
      ensures View() == Next(old(View()), Connect(ok))
      ensures old(Inv(View())) ==> Inv(View())
      ensures done == old(done) && messageQueue == old(messageQueue)
    {
      if Inv(View()) {
        StepKeepsInvExactlyWhenIdle(View(), Connect(ok));
      }
      connects := connects - 1;
      if ok {
        connected := true;
        StartRead();
        if messageQueue != [] {
          StartWrite();
        }
      } else {
        connected := false;
        StartConnect();
      }
    }

    method OnReadDone(ok: bool)
      requires monitors > 0 && !corrupt
      modifies this
      ensures View() == Next(old(View()), Read(ok))
      ensures old(Inv(View())) ==> (Inv(View()) <==> ok || old(writes) == [])
    {
      if Inv(View()) {
        StepKeepsInvExactlyWhenIdle(View(), Read(ok));
      }
      monitors := monitors - 1;
      if ok {
        StartRead();
      } else {
        connected := false;
        StartConnect();
      }
    }

    method OnWriteDone(ok: bool)
      requires writes != [] && !corrupt
      modifies this
      ensures View() == Next(old(View()), Write(ok))
      ensures old(Inv(View())) ==> (Inv(View()) <==> ok)
      ensures old(Inv(View())) && ok ==> done == queued[..|old(done)| + 1]
    {
      if Inv(View()) {
        StepKeepsInvExactlyWhenIdle(View(), Write(ok));
      }
      ghost var frame := writes[0];
      writes := writes[1..];
      if ok {
        done := done + [frame];
        if messageQueue == [] {
          corrupt := true;
          return;
        }
        messageQueue := messageQueue[1..];
        if messageQueue != [] {
          StartWrite();
        }
      } else {
        connected := false;
        StartConnect();
      }
    }
  }
}
