// One SharedBuffer refines a FIFO queue of capacity one, as long as no
// destructor has begun; each thread's messages arrive in its program order.
module ChannelFifo {
  import opened Sums
  import opened Wire
  import opened SendProtocol
  import opened Channel

  // No destructor has ever begun on this buffer.
  predicate Quiet(s: State) {
    s.dtor == Alive && s.past.posts == 0
  }

  lemma QuietBefore(s: State, e: Event)
    requires Inv(s) && Enabled(s, e) && Quiet(Next(s, e))
    ensures Quiet(s)
  {}

  // The texts of a history, as a C string shows them.
  function Texts(log: seq<(nat, string)>): (r: seq<string>)
    ensures |r| == |log|
  {
    if log == [] then [] else Texts(log[..|log| - 1]) + [Cut(log[|log| - 1].1)]
  }

  ghost predicate FifoInv(s: State) {
    && |s.past.written| == |s.past.delivered| + s.buf.full + Sum(Written, s.senders) + RecvUnread(s.recv)
    && Texts(s.past.written[..|s.past.delivered|]) == s.past.delivered
    && (|s.past.written| > |s.past.delivered| ==> Cut(s.buf.buffer) == Cut(s.past.written[|s.past.written| - 1].1))
  }

  // A thread about to copy holds the only token, so the buffer is free.
  lemma WriterFindsBufferFree(s: State, t: nat)
    requires Inv(s) && FifoInv(s) && Quiet(s)
    requires t < |s.senders| && s.senders[t].pc == InLock
    ensures |s.past.written| == |s.past.delivered|
  {
    SumAt(Unwritten, s.senders, t);
  }

  lemma CopyKeepsFifo(s: State, t: nat)
    requires |s.buf.buffer| == MAX_MESSAGE_SIZE && FifoInv(s) && |s.past.written| == |s.past.delivered|
    requires SendEnabled(s, t) && s.senders[t].pc == InLock
    requires Fits(s.senders[t].program[s.senders[t].next])
    ensures FifoInv(SendNext(s, t))
  {
    var s' := SendNext(s, t);
    var text := s.senders[t].program[s.senders[t].next].value;
    SumUpdate(Written, s.senders, t, s'.senders[t]);
    TransferExact(s.buf.buffer, text);
    assert s'.past.written[..|s'.past.delivered|] == s.past.written[..|s.past.delivered|];
  }

  lemma SendKeepsFifo(s: State, t: nat)
    requires Inv(s) && FifoInv(s) && Quiet(s) && SendEnabled(s, t)
    ensures FifoInv(SendNext(s, t))
  {
    if s.senders[t].pc == InLock && Fits(s.senders[t].program[s.senders[t].next]) {
      WriterFindsBufferFree(s, t);
      CopyKeepsFifo(s, t);
    } else {
      SumUpdate(Written, s.senders, t, SendNext(s, t).senders[t]);
    }
  }

  lemma ReceiveKeepsFifo(s: State)
    requires Inv(s) && FifoInv(s) && Quiet(s) && ReceiveEnabled(s)
    ensures FifoInv(ReceiveNext(s))
  {
    if s.recv == Handling {
      var n := |s.past.delivered|;
      assert n + 1 == |s.past.written|;
      assert s.past.written[..n + 1][..n] == s.past.written[..n];
    }
  }

  lemma StepKeepsFifo(s: State, e: Event)
    requires Inv(s) && FifoInv(s) && Enabled(s, e)
    requires Quiet(s) && Quiet(Next(s, e))
    ensures FifoInv(Next(s, e))
  {
    match e
    case SendStep(t) => SendKeepsFifo(s, t);
    case ReceiveStep => ReceiveKeepsFifo(s);
    case DestroyStep =>
    case Reopen =>
    case Spawn(program) => SumAppend(Written, s.senders, Sender(Ready, program, 0));
  }

  lemma InitFifo(programs: seq<seq<Packet>>)
    ensures Inv(Init(programs)) && FifoInv(Init(programs))
  {
    InitInv(programs);
    SumZero(Written, Init(programs).senders);
  }

  lemma {:induction false} RunKeepsFifo(s: State, es: seq<Event>)
    requires Inv(s) && FifoInv(s) && CanRun(s, es) && Quiet(After(s, es))
    ensures Inv(After(s, es)) && FifoInv(After(s, es))
    decreases |es|
  {
    RunKeepsInv(s, es);
    if es != [] {
      var before := es[..|es| - 1];
      RunKeepsInv(s, before);
      QuietBefore(After(s, before), es[|es| - 1]);
      RunKeepsFifo(s, before);
      StepKeepsFifo(After(s, before), es[|es| - 1]);
    }
  }

  // Messages copied in but not yet handed to MessageFactory::construct.
  function Pending(s: State): seq<string>
    requires |s.past.delivered| <= |s.past.written|
  {
    Texts(s.past.written)[|s.past.delivered|..]
  }

  lemma {:induction false} TextsPrefix(log: seq<(nat, string)>, k: nat)
    requires k <= |log|
    ensures Texts(log[..k]) == Texts(log)[..k]
  {
    if k == |log| {
      assert log[..k] == log;
    } else {
      assert log[..|log| - 1][..k] == log[..k];
      TextsPrefix(log[..|log| - 1], k);
    }
  }

  // What was delivered is what was written, in order and unchanged, except
  // for at most one message still in the buffer: nothing is overwritten,
  // lost or delivered twice.
  lemma ChannelIsFifo(programs: seq<seq<Packet>>, es: seq<Event>)
    requires CanRun(Init(programs), es)
    requires Quiet(After(Init(programs), es))
    ensures var s := After(Init(programs), es);
      && |s.past.delivered| <= |s.past.written| <= |s.past.delivered| + 1
      && Texts(s.past.written) == s.past.delivered + Pending(s)
  {
    var s := After(Init(programs), es);
    InitFifo(programs);
    RunKeepsFifo(Init(programs), es);
    TextsPrefix(s.past.written, |s.past.delivered|);
  }

  // The abstract queue: put needs it empty, take needs it full.
  datatype Fifo = Fifo(queue: seq<string>, taken: seq<string>)

  predicate Put(q: Fifo, q': Fifo, text: string) {
    q.queue == [] && q' == q.(queue := [text])
  }

  predicate Take(q: Fifo, q': Fifo) {
    |q.queue| == 1 && q' == Fifo([], q.taken + q.queue)
  }

  function Abstract(s: State): Fifo
    requires |s.past.delivered| <= |s.past.written|
  {
    Fifo(Pending(s), s.past.delivered)
  }

  // Every step of every thread is a stutter, the put of exactly the text
  // being sent, or a take.
  lemma StepRefinesFifo(s: State, e: Event)
    requires Inv(s) && FifoInv(s) && Enabled(s, e)
    requires Quiet(s) && Quiet(Next(s, e))
    ensures FifoInv(Next(s, e))
    ensures var q, q' := Abstract(s), Abstract(Next(s, e));
      match e
      case SendStep(t) =>
        var me := s.senders[t];
        if me.pc == InLock && Fits(me.program[me.next])
          then Put(q, q', Cut(me.program[me.next].value)) else q' == q
      case ReceiveStep => if s.recv == Handling then Take(q, q') else q' == q
      case _ => q' == q
  {
    var s' := Next(s, e);
    StepKeepsFifo(s, e);
    TextsPrefix(s.past.written, |s.past.delivered|);
    TextsPrefix(s'.past.written, |s'.past.delivered|);
    if e.SendStep? && s.senders[e.thread].pc == InLock {
      WriterFindsBufferFree(s, e.thread);
      assert s'.past.written[..|s.past.written|] == s.past.written;
    }
  }

  // ----- Program order of each sender -----

  // The texts thread t copied in, among the entries of a history.
  function FromThread(log: seq<(nat, string)>, t: nat): seq<string> {
    if log == [] then []
    else
      var last := log[|log| - 1];
      FromThread(log[..|log| - 1], t) + if last.0 == t then [last.1] else []
  }

  // The packets of a program that fit, as texts.
  function FittingTexts(program: seq<Packet>): seq<string> {
    if program == [] then []
    else
      var last := program[|program| - 1];
      FittingTexts(program[..|program| - 1]) + if Fits(last) then [last.value] else []
  }

  ghost predicate OrderInv(s: State) {
    && (forall k :: 0 <= k < |s.past.written| ==> s.past.written[k].0 < |s.senders|)
    && forall t :: 0 <= t < |s.senders| ==>
       && s.senders[t].next <= |s.senders[t].program|
       && FromThread(s.past.written, t) == FittingTexts(s.senders[t].program[..s.senders[t].next])
  }

  lemma {:induction false} FromNobody(log: seq<(nat, string)>, t: nat)
    requires forall k :: 0 <= k < |log| ==> log[k].0 != t
    ensures FromThread(log, t) == []
  {
    if log != [] {
      FromNobody(log[..|log| - 1], t);
    }
  }

  lemma SendKeepsOrder(s: State, t: nat)
    requires OrderInv(s) && SendEnabled(s, t)
    ensures OrderInv(SendNext(s, t))
  {
    var s' := SendNext(s, t);
    var me := s.senders[t];
    if me.pc == InLock {
      var done := me.program[..me.next + 1];
      assert done[..me.next] == me.program[..me.next];
      if Fits(me.program[me.next]) {
        assert s'.past.written[..|s.past.written|] == s.past.written;
      }
    }
  }

  // Each thread's copied texts are, in order, exactly the fitting packets
  // of the part of its program it has executed; over every run at all.
  lemma {:induction false} ProgramOrder(programs: seq<seq<Packet>>, es: seq<Event>)
    requires CanRun(Init(programs), es)
    ensures OrderInv(After(Init(programs), es))
    decreases |es|
  {
    if es != [] {
      var s := After(Init(programs), es[..|es| - 1]);
      ProgramOrder(programs, es[..|es| - 1]);
      match es[|es| - 1]
      case SendStep(t) => SendKeepsOrder(s, t);
      case Spawn(program) => FromNobody(s.past.written, |s.senders|);
      case _ =>
    }
  }

  lemma {:induction false} FromThreadPrefix(log: seq<(nat, string)>, t: nat, k: nat)
    requires k <= |log|
    ensures FromThread(log[..k], t) <= FromThread(log, t)
  {
    if k < |log| {
      assert log[..|log| - 1][..k] == log[..k];
      FromThreadPrefix(log[..|log| - 1], t, k);
    } else {
      assert log[..k] == log;
    }
  }

  lemma {:induction false} FittingTextsPrefix(program: seq<Packet>, k: nat)
    requires k <= |program|
    ensures FittingTexts(program[..k]) <= FittingTexts(program)
  {
    if k < |program| {
      assert program[..|program| - 1][..k] == program[..k];
      FittingTextsPrefix(program[..|program| - 1], k);
    } else {
      assert program[..k] == program;
    }
  }

  // The deliveries of one thread's messages are a prefix of its program.
  lemma DeliveredInProgramOrder(programs: seq<seq<Packet>>, es: seq<Event>, t: nat)
    requires CanRun(Init(programs), es)
    requires Quiet(After(Init(programs), es))
    requires t < |After(Init(programs), es).senders|
    ensures var s := After(Init(programs), es);
      && |s.past.delivered| <= |s.past.written|
      && s.past.delivered == Texts(s.past.written[..|s.past.delivered|])
      && FromThread(s.past.written[..|s.past.delivered|], t) <= FittingTexts(s.senders[t].program)
  {
    var s := After(Init(programs), es);
    InitFifo(programs);
    RunKeepsFifo(Init(programs), es);
    ProgramOrder(programs, es);
    FromThreadPrefix(s.past.written, t, |s.past.delivered|);
    FittingTextsPrefix(s.senders[t].program, s.senders[t].next);
  }
}
