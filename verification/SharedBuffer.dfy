// The SharedBuffer object itself, updated in place: semaphore counts and the
// flag are fields, the message area is one char array. Each method performs
// the next atomic action of one thread and is proved against the step system
// of module Channel.
module SharedBufferObject {
  import opened Wrappers
  import opened Wire
  import opened SendProtocol
  import opened Channel

  class SharedBuffer {
    var mutex: nat
    var semEmpty: nat
    var semFull: nat
    var shutdown: bool
    const buffer: array<char>

    // Where the threads using the buffer are.
    var senders: seq<Sender>
    var receiver: RecvPc
    var destructor: DtorPc

    ghost var posts: nat
    ghost var throws: nat
    ghost var written: seq<(nat, string)>
    ghost var delivered: seq<string>

    ghost function View(): State
      reads this, buffer
    {
      State(Shared(mutex, semEmpty, semFull, shutdown, buffer[..]), senders, receiver, destructor,
            Past(posts, throws, written, delivered))
    }

    constructor (programs: seq<seq<Packet>>)
      ensures View() == Init(programs)
      ensures fresh(buffer) && buffer.Length == 4096 && forall k :: 0 <= k < 4096 ==> buffer[k] == '\0'
    {
      mutex, semEmpty, semFull, shutdown := 1, 1, 0, false;
      buffer := new char[MAX_MESSAGE_SIZE](_ => NUL);
      senders, receiver, destructor := Start(programs), Waiting, Alive;
      posts, throws, written, delivered := 0, 0, [], [];
      new;
      assert buffer[..] == Init(programs).buf.buffer;
    }

    // The next action of thread t inside Endpoint::send; true when it is the
    // throw that leaves send, which is exactly when the thread is in the lock
    // with a message that has no text or one longer than the buffer. The
    // buffer then keeps its bytes, and otherwise reads back as the message.
    method Send(t: nat) returns (threw: bool)
      requires SendEnabled(View(), t)
      modifies this, buffer
      ensures View() == SendNext(old(View()), t)
      ensures throws == old(throws) + if threw then 1 else 0
      ensures var me := old(senders[t]);
        if me.pc == InLock then
          var p := me.program[me.next];
          && (threw <==> p.None? || |p.value| + 1 > buffer.Length)
          && (!threw ==> Cut(buffer[..]) == Cut(p.value))
          && (threw ==> buffer[..] == old(buffer[..]))
        else !threw && buffer[..] == old(buffer[..])
    {
      var me := senders[t];
      threw := false;
      match me.pc {
        case Ready =>
          semEmpty := semEmpty - 1;
          senders := senders[t := me.(pc := HasSlot)];
        case HasSlot =>
          mutex := mutex - 1;
          senders := senders[t := me.(pc := InLock)];
        case InLock =>
          var packet := me.program[me.next];
          if packet.None? {
            threw := true;
          } else {
            threw := Store(buffer, packet.value);
          }
          if threw {
            throws := throws + 1;
            senders := senders[t := me.(pc := Ready, next := me.next + 1)];
          } else {
            written := written + [(t, packet.value)];
            senders := senders[t := me.(pc := Copied, next := me.next + 1)];
          }
        case Copied =>
          mutex := mutex + 1;
          senders := senders[t := me.(pc := Unlocked)];
        case Unlocked =>
          semFull := semFull + 1;
          senders := senders[t := me.(pc := Ready)];
      }
    }

    // The next action of M_receiveThread. The text is what construct is
    // given; reading it never runs past the array.
    method Receive() returns (text: Option<string>)
      requires Inv(View()) && ReceiveEnabled(View())
      modifies this
      ensures View() == ReceiveNext(old(View()))
      ensures text == if old(receiver) == Handling then Some(Cut(buffer[..])) else None
    {
      text := None;
      match receiver {
        case Waiting =>
          semFull := semFull - 1;
          receiver := Woken;
        case Woken =>
          mutex := mutex - 1;
          receiver := Checking;
        case Checking =>
          receiver := if shutdown then Leaving(true) else Handling;
        case Handling =>
          var message := Load(buffer);
          text := Some(message);
          delivered := delivered + [message];
          receiver := Leaving(false);
        case Leaving(stop) =>
          mutex := mutex + 1;
          receiver := Releasing(stop);
        case Releasing(stop) =>
          semEmpty := semEmpty + 1;
          receiver := if stop then Exited else Waiting;
      }
    }

    // The next action of ~Endpoint.
    method Destroy()
      requires DestroyEnabled(View())
      modifies this
      ensures View() == DestroyNext(old(View()))
    {
      match destructor {
        case Alive =>
          shutdown := true;
          destructor := Flagged;
        case Flagged =>
          semFull := semFull + 1;
          posts := posts + 1;
          destructor := Posted;
        case Posted =>
          destructor := Joined;
        case Joined =>
          shutdown := false;
          destructor := Gone;
      }
    }
  }
}
