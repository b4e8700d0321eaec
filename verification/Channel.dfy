// One SharedBuffer of an Endpoint as an interleaving step system: any number
// of threads run Endpoint::send, one thread runs M_receiveThread, and the
// destructor injects a shutdown. One step is one semaphore operation, one
// buffer access or one check (src/ipc/endpoint.cpp).
module Channel {
  import opened Wrappers
  import opened Sums
  import opened Wire
  import opened SendProtocol

  const MAX_MESSAGE_SIZE := 4096

  // What MessageFactory::serialize makes of a message: its text, or a throw
  // because the type was never registered.
  type Packet = Option<string>

  predicate Fits(p: Packet) {
    p.Some? && |p.value| + 1 <= MAX_MESSAGE_SIZE
  }

  // A thread sends the packets of its program in order; `next` counts those
  // already copied or thrown.
  datatype Sender = Sender(pc: SendPc, program: seq<Packet>, next: nat)

  // Where M_receiveThread is: the two waits, the shutdown check, the slot
  // call, the two posts (remembering stop_thread), or past its loop.
  datatype RecvPc = Waiting | Woken | Checking | Handling
                  | Leaving(stop: bool) | Releasing(stop: bool) | Exited

  // Where ~Endpoint is: not begun, flag set, sem_full posted, thread joined,
  // flag cleared again.
  datatype DtorPc = Alive | Flagged | Posted | Joined | Gone

  // The fields of the SharedBuffer.
  datatype Shared = Shared(mutex: nat, empty: nat, full: nat, shutdown: bool, buffer: string)

  // The run so far: destructor posts, throws out of send, what was copied in
  // (with the index of the sending thread), and what
  // MessageFactory::construct was given.
  datatype Past = Past(posts: nat, throws: nat, written: seq<(nat, string)>, delivered: seq<string>)

  datatype State = State(buf: Shared, senders: seq<Sender>, recv: RecvPc, dtor: DtorPc, past: Past)

  function Start(programs: seq<seq<Packet>>): (r: seq<Sender>)
    ensures |r| == |programs|
    ensures forall t :: 0 <= t < |r| ==> r[t] == Sender(Ready, programs[t], 0)
  {
    seq(|programs|, t requires 0 <= t < |programs| => Sender(Ready, programs[t], 0))
  }

  // The SharedBuffer constructor, in zero-filled shared memory.
  function Init(programs: seq<seq<Packet>>): State {
    State(Shared(1, 1, 0, false, seq(MAX_MESSAGE_SIZE, i => NUL)), Start(programs),
          Waiting, Alive, Past(0, 0, [], []))
  }

  // ----- Steps -----

  datatype Event = SendStep(thread: nat) | ReceiveStep | DestroyStep
                 | Reopen | Spawn(program: seq<Packet>)

  // A semaphore wait can only be passed when its count is positive.
  predicate SendEnabled(s: State, t: nat) {
    && t < |s.senders|
    && var me := s.senders[t];
       match me.pc
       case Ready => me.next < |me.program| && s.buf.empty > 0
       case HasSlot => me.next < |me.program| && s.buf.mutex > 0
       case InLock => me.next < |me.program| && |s.buf.buffer| == MAX_MESSAGE_SIZE
       case Copied => true
       case Unlocked => true
  }

  function SendNext(s: State, t: nat): State
    requires SendEnabled(s, t)
  {
    var me := s.senders[t];
    match me.pc
    case Ready =>
      s.(buf := s.buf.(empty := s.buf.empty - 1), senders := s.senders[t := me.(pc := HasSlot)])
    case HasSlot =>
      s.(buf := s.buf.(mutex := s.buf.mutex - 1), senders := s.senders[t := me.(pc := InLock)])
    case InLock =>
      var p := me.program[me.next];
      if Fits(p) then
        s.(buf := s.buf.(buffer := CopyIn(s.buf.buffer, p.value)),
           past := s.past.(written := s.past.written + [(t, p.value)]),
           senders := s.senders[t := me.(pc := Copied, next := me.next + 1)])
      else
        // The exception leaves send while both tokens are held.
        s.(past := s.past.(throws := s.past.throws + 1),
           senders := s.senders[t := me.(pc := Ready, next := me.next + 1)])
    case Copied =>
      s.(buf := s.buf.(mutex := s.buf.mutex + 1), senders := s.senders[t := me.(pc := Unlocked)])
    case Unlocked =>
      s.(buf := s.buf.(full := s.buf.full + 1), senders := s.senders[t := me.(pc := Ready)])
  }

  predicate ReceiveEnabled(s: State) {
    match s.recv
    case Waiting => s.buf.full > 0
    case Woken => s.buf.mutex > 0
    case Exited => false
    case _ => true
  }

  function ReceiveNext(s: State): State
    requires ReceiveEnabled(s)
  {
    match s.recv
    case Waiting => s.(buf := s.buf.(full := s.buf.full - 1), recv := Woken)
    case Woken => s.(buf := s.buf.(mutex := s.buf.mutex - 1), recv := Checking)
    case Checking => s.(recv := if s.buf.shutdown then Leaving(true) else Handling)
    case Handling => s.(past := s.past.(delivered := s.past.delivered + [Cut(s.buf.buffer)]), recv := Leaving(false))
    case Leaving(stop) => s.(buf := s.buf.(mutex := s.buf.mutex + 1), recv := Releasing(stop))
    case Releasing(stop) => s.(buf := s.buf.(empty := s.buf.empty + 1), recv := if stop then Exited else Waiting)
  }

  predicate DestroyEnabled(s: State) {
    match s.dtor
    case Posted => s.recv == Exited
    case Gone => false
    case _ => true
  }

  function DestroyNext(s: State): State
    requires DestroyEnabled(s)
  {
    match s.dtor
    case Alive => s.(buf := s.buf.(shutdown := true), dtor := Flagged)
    case Flagged =>
      s.(buf := s.buf.(full := s.buf.full + 1), past := s.past.(posts := s.past.posts + 1), dtor := Posted)
    case Posted => s.(dtor := Joined)
    case Joined => s.(buf := s.buf.(shutdown := false), dtor := Gone)
  }

  predicate Enabled(s: State, e: Event) {
    match e
    case SendStep(t) => SendEnabled(s, t)
    case ReceiveStep => ReceiveEnabled(s)
    case DestroyStep => DestroyEnabled(s)
    case Reopen => s.dtor == Gone
    case Spawn(_) => true
  }

  // Reopen is a later client constructing an Endpoint over the same memory.
  function Next(s: State, e: Event): State
    requires Enabled(s, e)
  {
    match e
    case SendStep(t) => SendNext(s, t)
    case ReceiveStep => ReceiveNext(s)
    case DestroyStep => DestroyNext(s)
    case Reopen => s.(recv := Waiting, dtor := Alive)
    case Spawn(program) => s.(senders := s.senders + [Sender(Ready, program, 0)])
  }

  // ----- Runs -----

  predicate CanRun(s: State, es: seq<Event>)
    decreases |es|, 0
  {
    es == [] || (CanRun(s, es[..|es| - 1]) && Enabled(After(s, es[..|es| - 1]), es[|es| - 1]))
  }

  function After(s: State, es: seq<Event>): State
    requires CanRun(s, es)
    decreases |es|, 1
  {
    if es == [] then s else Next(After(s, es[..|es| - 1]), es[|es| - 1])
  }

  // A run from s0 that has come to s.
  ghost predicate At(s0: State, es: seq<Event>, s: State) {
    CanRun(s0, es) && After(s0, es) == s
  }

  lemma Do(s0: State, es: seq<Event>, s: State, e: Event) returns (es': seq<Event>, s': State)
    requires At(s0, es, s) && Enabled(s, e)
    ensures s' == Next(s, e) && At(s0, es', s') && es' == es + [e]
  {
    es', s' := es + [e], Next(s, e);
    assert es'[..|es|] == es;
  }

  // ----- Token accounting -----

  function Unwritten(c: Sender): nat { c.pc.Unwritten() }

  function Written(c: Sender): nat { c.pc.Written() }

  function Holding(c: Sender): nat { c.pc.Holding() }

  function RecvUnread(r: RecvPc): nat { if r.Woken? || r.Checking? || r.Handling? then 1 else 0 }

  function RecvRead(r: RecvPc): nat { if r.Leaving? || r.Releasing? then 1 else 0 }

  function RecvHolding(r: RecvPc): nat { if r.Checking? || r.Handling? || r.Leaving? then 1 else 0 }

  ghost function Tokens(s: State): nat {
    s.buf.empty + s.buf.full + Sum(Unwritten, s.senders) + Sum(Written, s.senders)
    + RecvUnread(s.recv) + RecvRead(s.recv) + s.past.throws
  }

  ghost function Locks(s: State): nat {
    s.buf.mutex + Sum(Holding, s.senders) + RecvHolding(s.recv) + s.past.throws
  }

  predicate SenderOk(c: Sender) {
    && c.next <= |c.program|
    && (c.pc == HasSlot || c.pc == InLock ==> c.next < |c.program|)
  }

  // The receiver will come back to its first wait.
  predicate MayLoop(r: RecvPc) {
    r == Waiting || r == Handling || r == Leaving(false) || r == Releasing(false)
  }

  // The flag is up exactly while the destructor is at work, and only the
  // destructor makes the receiver stop.
  predicate ShutdownOk(s: State) {
    && (s.buf.shutdown <==> s.dtor == Flagged || s.dtor == Posted || s.dtor == Joined)
    && (s.dtor == Joined || s.dtor == Gone ==> s.recv == Exited)
    && (s.dtor == Alive ==> s.recv != Leaving(true) && s.recv != Releasing(true) && s.recv != Exited)
    && (s.dtor == Posted || s.dtor == Joined || s.dtor == Gone ==> s.past.posts > 0)
    && (s.dtor == Posted && MayLoop(s.recv) ==> s.buf.full > 0)
  }

  ghost predicate Inv(s: State) {
    && Tokens(s) == 1 + s.past.posts
    && Locks(s) == 1
    && |s.buf.buffer| == MAX_MESSAGE_SIZE && NUL in s.buf.buffer
    && (forall t :: 0 <= t < |s.senders| ==> SenderOk(s.senders[t]))
    && ShutdownOk(s)
  }

  lemma InitInv(programs: seq<seq<Packet>>)
    ensures Inv(Init(programs))
  {
    var s := Init(programs);
    SumZero(Unwritten, s.senders);
    SumZero(Written, s.senders);
    SumZero(Holding, s.senders);
    assert s.buf.buffer[0] == NUL;
  }

  // The buffer the constructor leaves in zero-filled memory, in figures.
  lemma StartsAsConstructed(programs: seq<seq<Packet>>)
    ensures var b := Init(programs).buf;
      && b.mutex == 1 && b.empty == 1 && b.full == 0 && !b.shutdown
      && |b.buffer| == 4096 && forall k :: 0 <= k < 4096 ==> b.buffer[k] == '\0'
  {}

  // send throws exactly on a message that cannot be serialized, or whose text
  // and terminator are longer than the buffer; no other step throws.
  lemma ThrowsExactly(s: State, e: Event)
    requires Inv(s) && Enabled(s, e)
    ensures Next(s, e).past.throws == s.past.throws +
      if e.SendStep? && s.senders[e.thread].pc == InLock
         && var p := s.senders[e.thread].program[s.senders[e.thread].next];
            p.None? || |p.value| + 1 > |s.buf.buffer|
        then 1 else 0
  {}

  // Replacing one sender moves every total by that sender's own weights.
  lemma SumsUpdate(ss: seq<Sender>, t: nat, v: Sender)
    requires t < |ss|
    ensures Sum(Unwritten, ss[t := v]) + Unwritten(ss[t]) == Sum(Unwritten, ss) + Unwritten(v)
    ensures Sum(Written, ss[t := v]) + Written(ss[t]) == Sum(Written, ss) + Written(v)
    ensures Sum(Holding, ss[t := v]) + Holding(ss[t]) == Sum(Holding, ss) + Holding(v)
  {
    SumUpdate(Unwritten, ss, t, v);
    SumUpdate(Written, ss, t, v);
    SumUpdate(Holding, ss, t, v);
  }

  lemma SendKeepsInv(s: State, t: nat)
    requires Inv(s) && SendEnabled(s, t)
    ensures Inv(SendNext(s, t))
  {
    var s' := SendNext(s, t);
    SumsUpdate(s.senders, t, s'.senders[t]);
    assert s'.senders == s.senders[t := s'.senders[t]];
    if s.senders[t].pc == InLock && s'.past.throws == s.past.throws {
      var text := s.senders[t].program[s.senders[t].next].value;
      assert s'.buf.buffer[|Cut(text)|] == NUL;
    }
  }

  lemma ReceiveKeepsInv(s: State)
    requires Inv(s) && ReceiveEnabled(s)
    ensures Inv(ReceiveNext(s))
  {}

  lemma StepKeepsInv(s: State, e: Event)
    requires Inv(s) && Enabled(s, e)
    ensures Inv(Next(s, e))
  {
    match e
    case SendStep(t) => SendKeepsInv(s, t);
    case ReceiveStep => ReceiveKeepsInv(s);
    case DestroyStep =>
    case Reopen =>
    case Spawn(program) =>
      var c := Sender(Ready, program, 0);
      SumAppend(Unwritten, s.senders, c);
      SumAppend(Written, s.senders, c);
      SumAppend(Holding, s.senders, c);
  }

  lemma {:induction false} RunKeepsInv(s: State, es: seq<Event>)
    requires Inv(s) && CanRun(s, es)
    ensures Inv(After(s, es))
    decreases |es|
  {
    if es != [] {
      RunKeepsInv(s, es[..|es| - 1]);
      StepKeepsInv(After(s, es[..|es| - 1]), es[|es| - 1]);
    }
  }

  // Token conservation over every run, shutdowns, reopenings and throws
  // included; hence the lock is never held twice and at most one throw
  // can ever happen on a buffer.
  lemma TokensConserved(programs: seq<seq<Packet>>, es: seq<Event>)
    requires CanRun(Init(programs), es)
    ensures var s := After(Init(programs), es);
      && s.buf.empty + s.buf.full + Sum(Unwritten, s.senders) + Sum(Written, s.senders)
         + RecvUnread(s.recv) + RecvRead(s.recv) + s.past.throws == 1 + s.past.posts
      && s.buf.mutex + Sum(Holding, s.senders) + RecvHolding(s.recv) + s.past.throws == 1
      && s.past.throws <= 1
  {
    InitInv(programs);
    RunKeepsInv(Init(programs), es);
  }

  // No two threads are ever inside the critical section of one buffer.
  lemma MutualExclusion(s: State, i: nat, j: nat)
    requires Inv(s) && i < |s.senders| && j < |s.senders|
    requires Holding(s.senders[i]) == 1
    ensures Holding(s.senders[j]) == 1 ==> i == j
    ensures RecvHolding(s.recv) == 0
    ensures s.past.throws == 0 && s.buf.mutex == 0
  {
    SumAt(Holding, s.senders, i);
    if i < j {
      SumAtTwo(Holding, s.senders, i, j);
    } else if j < i {
      SumAtTwo(Holding, s.senders, j, i);
    }
  }

  // ----- After a throw -----

  lemma ThrownStep(s: State, e: Event)
    requires Inv(s) && s.past.throws == 1 && Enabled(s, e)
    ensures var s' := Next(s, e);
      && s'.past.throws == 1 && s'.buf.buffer == s.buf.buffer
      && s'.past.written == s.past.written && s'.past.delivered == s.past.delivered
  {
    if e.SendStep? {
      SumAt(Holding, s.senders, e.thread);
    }
  }

  // The tokens a throw keeps are never given back: from then on nothing is
  // written and nothing is delivered, whatever any thread does.
  lemma {:induction false} FrozenAfterThrow(s: State, es: seq<Event>)
    requires Inv(s) && s.past.throws == 1 && CanRun(s, es)
    ensures var s' := After(s, es);
      && s'.past.throws == 1 && s'.buf.buffer == s.buf.buffer
      && s'.past.written == s.past.written && s'.past.delivered == s.past.delivered
    decreases |es|
  {
    if es != [] {
      var before := es[..|es| - 1];
      FrozenAfterThrow(s, before);
      RunKeepsInv(s, before);
      ThrownStep(After(s, before), es[|es| - 1]);
    }
  }
}
