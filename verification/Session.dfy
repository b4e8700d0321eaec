// log::Session: the server's reader of length-prefixed frames, as a machine
// over the bytes of its connection (src/log/session.cpp).
module Session {
  import opened Header

  // Filling m_header, filling m_message, or stopped by resize throwing on a
  // negative size.
  datatype Phase = InHeader(got: string) | InBody(size: nat, got: string) | Broken

  datatype State = State(phase: Phase, notified: seq<string>)

  const FRESH := State(InHeader([]), [])

  // Both completion handlers: a full header starts the body, a full body is
  // notified. An empty body is complete at once.
  function Settle(s: State): State {
    match s.phase
    case InHeader(got) =>
      if |got| < HEADER_SIZE then s
      else if Atoi(got) < 0 then s.(phase := Broken)
      else if Atoi(got) == 0 then State(InHeader([]), s.notified + [""])
      else s.(phase := InBody(Atoi(got), []))
    case InBody(size, got) =>
      if |got| < size then s else State(InHeader([]), s.notified + [got])
    case Broken => s
  }

  function FeedByte(s: State, c: char): State {
    match s.phase
    case InHeader(got) => Settle(s.(phase := InHeader(got + [c])))
    case InBody(size, got) => Settle(s.(phase := InBody(size, got + [c])))
    case Broken => s
  }

  function Feed(s: State, bytes: string): State {
    if bytes == [] then s else FeedByte(Feed(s, bytes[..|bytes| - 1]), bytes[|bytes| - 1])
  }

  // ----- What the client writes -----

  // Client::send: header and message in one string.
  function Frame(msg: string): string {
    Print(|msg|) + msg
  }

  function Stream(msgs: seq<string>): string {
    if msgs == [] then [] else Stream(msgs[..|msgs| - 1]) + Frame(msgs[|msgs| - 1])
  }

  predicate Sendable(msgs: seq<string>) {
    forall k :: 0 <= k < |msgs| ==> |msgs[k]| < FRAME_LIMIT
  }

  // ----- Feeding in pieces -----

  lemma {:induction false} FeedConcat(s: State, a: string, b: string)
    ensures Feed(s, a + b) == Feed(Feed(s, a), b)
  {
    if b == [] {
      assert a + b == a;
    } else {
      var n := |b| - 1;
      assert (a + b)[..|a + b| - 1] == a + b[..n];
      FeedConcat(s, a, b[..n]);
    }
  }

  function FeedChunks(s: State, chunks: seq<string>): State {
    if chunks == [] then s else Feed(FeedChunks(s, chunks[..|chunks| - 1]), chunks[|chunks| - 1])
  }

  function Joined(chunks: seq<string>): string {
    if chunks == [] then [] else Joined(chunks[..|chunks| - 1]) + chunks[|chunks| - 1]
  }

  // How the network splits the stream makes no difference.
  lemma {:induction false} ChunksDoNotMatter(s: State, chunks: seq<string>)
    ensures FeedChunks(s, chunks) == Feed(s, Joined(chunks))
  {
    if chunks != [] {
      var n := |chunks| - 1;
      ChunksDoNotMatter(s, chunks[..n]);
      FeedConcat(s, Joined(chunks[..n]), chunks[n]);
    }
  }

  // ----- One frame -----

  lemma {:induction false} FeedHeaderPart(s: State, part: string)
    requires s.phase == InHeader([]) && |part| < HEADER_SIZE
    ensures Feed(s, part) == s.(phase := InHeader(part))
  {
    if part != [] {
      var n := |part| - 1;
      FeedHeaderPart(s, part[..n]);
      assert part[..n] + [part[n]] == part;
    }
  }

  lemma {:induction false} FeedBodyPart(s: State, size: nat, part: string)
    requires s.phase == InBody(size, []) && |part| < size
    ensures Feed(s, part) == s.(phase := InBody(size, part))
  {
    if part != [] {
      var n := |part| - 1;
      FeedBodyPart(s, size, part[..n]);
      assert part[..n] + [part[n]] == part;
    }
  }

  lemma FeedHeader(s: State, header: string)
    requires s.phase == InHeader([]) && |header| == HEADER_SIZE
    ensures Feed(s, header) == Settle(s.(phase := InHeader(header)))
  {
    FeedHeaderPart(s, header[..HEADER_SIZE - 1]);
    assert header[..HEADER_SIZE - 1] + [header[HEADER_SIZE - 1]] == header;
  }

  lemma FeedBody(s: State, msg: string)
    requires s.phase == InBody(|msg|, []) && msg != []
    ensures Feed(s, msg) == State(InHeader([]), s.notified + [msg])
  {
    var n := |msg| - 1;
    FeedBodyPart(s, |msg|, msg[..n]);
    assert msg[..n] + [msg[n]] == msg;
  }

  lemma FeedFrame(s: State, msg: string)
    requires s.phase == InHeader([]) && |msg| < FRAME_LIMIT
    ensures Feed(s, Frame(msg)) == State(InHeader([]), s.notified + [msg])
  {
    var header := Print(|msg|);
    HeaderFits(|msg|);
    HeaderRoundTrip(|msg|);
    FeedHeader(s, header);
    FeedConcat(s, header, msg);
    if msg != [] {
      FeedBody(s.(phase := InBody(|msg|, [])), msg);
    }
  }

  // Whatever eight bytes arrive: the size they read as decides. Zero notifies
  // an empty message at once, a positive size waits for that many bytes and
  // notifies them, and a negative one ends the session.
  lemma AnyHeader(s: State, header: string, body: string)
    requires s.phase == InHeader([]) && |header| == 8
    ensures Atoi(header) == 0 ==> Feed(s, header) == State(InHeader([]), s.notified + [""])
    ensures Atoi(header) > 0 && |body| < Atoi(header) ==> Feed(s, header + body).notified == s.notified
    ensures Atoi(header) > 0 && |body| == Atoi(header) ==>
      Feed(s, header + body) == State(InHeader([]), s.notified + [body])
    ensures Atoi(header) < 0 ==> Feed(s, header + body) == State(Broken, s.notified)
  {
    FeedHeader(s, header);
    FeedConcat(s, header, body);
    if Atoi(header) < 0 {
      BrokenStays(Feed(s, header), body);
    } else if Atoi(header) > 0 && |body| == Atoi(header) {
      FeedBody(Feed(s, header), body);
    } else if Atoi(header) > 0 && |body| < Atoi(header) {
      FeedBodyPart(Feed(s, header), Atoi(header), body);
    }
  }

  lemma {:induction false} BrokenStays(s: State, bytes: string)
    requires s.phase == Broken
    ensures Feed(s, bytes) == s
  {
    if bytes != [] {
      BrokenStays(s, bytes[..|bytes| - 1]);
    }
  }

  // A frame cut short notifies nothing and leaves the reader waiting.
  lemma FeedPartOfFrame(s: State, msg: string, n: nat)
    requires s.phase == InHeader([]) && |msg| < FRAME_LIMIT && n < |Frame(msg)|
    ensures Feed(s, Frame(msg)[..n]).notified == s.notified
    ensures Feed(s, Frame(msg)[..n]).phase != Broken
  {
    var header := Print(|msg|);
    HeaderFits(|msg|);
    HeaderRoundTrip(|msg|);
    if n < HEADER_SIZE {
      FeedHeaderPart(s, Frame(msg)[..n]);
    } else {
      assert Frame(msg)[..n] == header + msg[..n - HEADER_SIZE];
      FeedHeader(s, header);
      FeedConcat(s, header, msg[..n - HEADER_SIZE]);
      FeedBodyPart(Feed(s, header), |msg|, msg[..n - HEADER_SIZE]);
    }
  }

  // ----- Whole streams and their prefixes -----

  lemma {:induction false} FeedStream(s: State, msgs: seq<string>)
    requires s.phase == InHeader([]) && Sendable(msgs)
    ensures Feed(s, Stream(msgs)) == State(InHeader([]), s.notified + msgs)
  {
    if msgs != [] {
      var n := |msgs| - 1;
      FeedStream(s, msgs[..n]);
      FeedConcat(s, Stream(msgs[..n]), Frame(msgs[n]));
      FeedFrame(State(InHeader([]), s.notified + msgs[..n]), msgs[n]);
      AddLast(s.notified, msgs);
    }
  }

  lemma AddLast(before: seq<string>, msgs: seq<string>)
    requires msgs != []
    ensures before + msgs[..|msgs| - 1] + [msgs[|msgs| - 1]] == before + msgs
  {}

  // The number of messages whose frames lie wholly within the first n bytes.
  function WholeFrames(msgs: seq<string>, n: nat): (k: nat)
    ensures k <= |msgs|
  {
    if msgs == [] then 0
    else if |Stream(msgs)| <= n then |msgs|
    else WholeFrames(msgs[..|msgs| - 1], n)
  }

  lemma {:induction false} StreamGrows(msgs: seq<string>, j: nat)
    requires j <= |msgs|
    ensures Stream(msgs[..j]) <= Stream(msgs)
  {
    if j == |msgs| {
      assert msgs[..j] == msgs;
    } else {
      assert msgs[..|msgs| - 1][..j] == msgs[..j];
      StreamGrows(msgs[..|msgs| - 1], j);
    }
  }

  // WholeFrames is what it is called: its first k frames are within n bytes,
  // one more is not.
  lemma {:induction false} WholeFramesExact(msgs: seq<string>, n: nat, k: nat)
    requires k <= |msgs|
    ensures k <= WholeFrames(msgs, n) <==> |Stream(msgs[..k])| <= n
  {
    StreamGrows(msgs, k);
    assert msgs[..|msgs|] == msgs;
    if msgs != [] && |Stream(msgs)| > n && k < |msgs| {
      WholeFramesExact(msgs[..|msgs| - 1], n, k);
      assert msgs[..|msgs| - 1][..k] == msgs[..k];
    }
  }

  // After the first n bytes of the stream, exactly the messages wholly
  // contained in them have been notified, in order.
  lemma {:induction false} PrefixNotifiesWholeFrames(s: State, msgs: seq<string>, n: nat)
    requires s.phase == InHeader([]) && Sendable(msgs) && n <= |Stream(msgs)|
    ensures Feed(s, Stream(msgs)[..n]).notified == s.notified + msgs[..WholeFrames(msgs, n)]
    ensures Feed(s, Stream(msgs)[..n]).phase != Broken
  {
    if n == |Stream(msgs)| {
      assert Stream(msgs)[..n] == Stream(msgs);
      FeedStream(s, msgs);
      assert msgs[..|msgs|] == msgs;
    } else {
      var init := msgs[..|msgs| - 1];
      var last := msgs[|msgs| - 1];
      if n <= |Stream(init)| {
        assert Stream(msgs)[..n] == Stream(init)[..n];
        PrefixNotifiesWholeFrames(s, init, n);
        assert init[..WholeFrames(init, n)] == msgs[..WholeFrames(init, n)];
      } else {
        CutInLastFrame(s, init, last, n);
        assert Stream(msgs)[..n] == (Stream(init) + Frame(last))[..n];
        WholeFramesExact(init, n, |init|);
        assert init[..|init|] == init;
      }
    }
  }

  lemma CutInLastFrame(s: State, init: seq<string>, last: string, n: nat)
    requires s.phase == InHeader([]) && Sendable(init) && |last| < FRAME_LIMIT
    requires |Stream(init)| <= n < |Stream(init)| + |Frame(last)|
    ensures Feed(s, (Stream(init) + Frame(last))[..n]).notified == s.notified + init
    ensures Feed(s, (Stream(init) + Frame(last))[..n]).phase != Broken
  {
    var rest := n - |Stream(init)|;
    assert (Stream(init) + Frame(last))[..n] == Stream(init) + Frame(last)[..rest];
    FeedConcat(s, Stream(init), Frame(last)[..rest]);
    FeedStream(s, init);
    FeedPartOfFrame(Feed(s, Stream(init)), last, rest);
  }

  lemma FreshSessionNotifies(msgs: seq<string>, n: nat)
    requires Sendable(msgs) && n <= |Stream(msgs)|
    ensures Feed(FRESH, Stream(msgs)[..n]).notified == msgs[..WholeFrames(msgs, n)]
  {
    PrefixNotifiesWholeFrames(FRESH, msgs, n);
    assert FRESH.notified + msgs[..WholeFrames(msgs, n)] == msgs[..WholeFrames(msgs, n)];
  }

  // All messages are whole exactly when all bytes are there.
  lemma AllWhole(msgs: seq<string>, n: nat)
    requires n <= |Stream(msgs)|
    ensures WholeFrames(msgs, n) == |msgs| <==> n == |Stream(msgs)|
  {
    WholeFramesExact(msgs, n, |msgs|);
    assert msgs[..|msgs|] == msgs;
  }

  // The framing round trip: for every list of messages below 10^8 bytes and
  // every split of their frames into chunks, a fresh session notifies exactly
  // that list.
  lemma FramingRoundTrip(msgs: seq<string>, chunks: seq<string>)
    requires Sendable(msgs) && Joined(chunks) == Stream(msgs)
    ensures FeedChunks(FRESH, chunks) == State(InHeader([]), msgs)
  {
    ChunksDoNotMatter(FRESH, chunks);
    FeedStream(FRESH, msgs);
    assert FRESH.notified + msgs == msgs;
  }

  // The reader over its own two buffers.
  class Reader {
    const header: array<char>
    var message: array<char>
    var filled: nat
    var readingBody: bool
    var broken: bool
    ghost var notified: seq<string>

    ghost predicate Valid()
      reads this
    {
      && header.Length == HEADER_SIZE
      && header != message
      && (!broken ==> filled < if readingBody then message.Length else header.Length)
    }

    ghost function View(): State
      requires Valid()
      reads this, header, message
    {
      State(if broken then Broken
            else if readingBody then InBody(message.Length, message[..filled])
            else InHeader(header[..filled]), notified)
    }

    constructor ()
      ensures Valid() && View() == FRESH && fresh(header) && fresh(message)
    {
      header := new char[HEADER_SIZE];
      message := new char[0];
      filled, readingBody, broken, notified := 0, false, false, [];
    }

    // One more byte of the running async_read, and the completion handlers it
    // may trigger. The result is what M_notifyMessageReceived is given.
    method Receive(c: char) returns (done: bool, msg: string)
      requires Valid()
      modifies this, header, message
      ensures Valid() && (message == old(message) || fresh(message))
      ensures View() == FeedByte(old(View()), c)
      ensures notified == if done then old(notified) + [msg] else old(notified)
    {
      done, msg := false, "";
      if broken {
        return;
      }
      if readingBody {
        message[filled] := c;
        filled := filled + 1;
        assert message[..filled] == old(message[..filled]) + [c];
        if filled == message.Length {
          assert message[..filled] == message[..];
          msg := message[..];
          done := true;
          readingBody, filled := false, 0;
        }
      } else {
        header[filled] := c;
        filled := filled + 1;
        assert header[..filled] == old(header[..filled]) + [c];
        if filled == HEADER_SIZE {
          assert header[..filled] == header[..];
          done := HeaderDone();
        }
      }
      if done {
        notified := notified + [msg];
      }
    }

    // The completion handler of the header read: atoi and resize.
    method HeaderDone() returns (emptyMessage: bool)
      requires header.Length == HEADER_SIZE && !broken && !readingBody && filled == HEADER_SIZE
      modifies this
      ensures notified == old(notified)
      ensures message == old(message) || fresh(message)
      ensures Valid()
      ensures emptyMessage <==> Atoi(header[..]) == 0
      ensures View().phase == Settle(State(InHeader(header[..]), [])).phase
    {
      var size := Atoi(header[..]);
      emptyMessage := size == 0;
      if size < 0 {
        broken := true;
        message := new char[0];
      } else if size == 0 {
        filled := 0;
        message := new char[0];
      } else {
        message := new char[size];
        readingBody, filled := true, 0;
      }
    }
  }
}
