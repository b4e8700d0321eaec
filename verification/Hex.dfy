// The hexadecimal text of raw bytes, as boost::algorithm::hex and unhex
// produce and accept it (src/log/message.cpp, src/log/formatter.cpp).
module Hex {
  import opened Wrappers

  type byte = n: nat | n < 256

  datatype HexError = NonHexInput | NotEnoughInput

  predicate IsHex(c: char) {
    '0' <= c <= '9' || 'A' <= c <= 'F' || 'a' <= c <= 'f'
  }

  function Value(c: char): (v: nat)
    requires IsHex(c)
    ensures v < 16
  {
    if c <= '9' then c as int - '0' as int
    else if c <= 'F' then c as int - 'A' as int + 10
    else c as int - 'a' as int + 10
  }

  function Digit(v: nat): (c: char)
    requires v < 16
    ensures IsHex(c) && Value(c) == v
  {
    if v < 10 then (v + '0' as int) as char else (v - 10 + 'A' as int) as char
  }

  function UpperChar(c: char): char {
    if 'a' <= c <= 'f' then (c as int - 'a' as int + 'A' as int) as char else c
  }

  function Upper(s: string): string {
    if s == [] then [] else [UpperChar(s[0])] + Upper(s[1..])
  }

  predicate AllHex(s: string) {
    forall k :: 0 <= k < |s| ==> IsHex(s[k])
  }

  function Encode(bytes: seq<byte>): (s: string)
    ensures |s| == 2 * |bytes|
  {
    if bytes == [] then []
    else [Digit(bytes[0] / 16), Digit(bytes[0] % 16)] + Encode(bytes[1..])
  }

  function Decode(s: string): (r: Result<seq<byte>, HexError>)
    ensures r.Success? ==> |s| == 2 * |r.value|
  {
    if s == [] then Success([])
    else if !IsHex(s[0]) then Failure(NonHexInput)
    else if |s| == 1 then Failure(NotEnoughInput)
    else if !IsHex(s[1]) then Failure(NonHexInput)
    else
      match Decode(s[2..])
      case Failure(e) => Failure(e)
      case Success(rest) => Success([16 * Value(s[0]) + Value(s[1])] + rest)
  }

  const DIGITS := "0123456789ABCDEF"
  const LOWER := "0123456789abcdef"

  // The alphabet, in figures: the sixteen digits in order, and both cases on
  // the way in.
  lemma Alphabet(v: nat, c: char)
    requires v < 16
    ensures Digit(v) == DIGITS[v]
    ensures IsHex(DIGITS[v]) && Value(DIGITS[v]) == v && IsHex(LOWER[v]) && Value(LOWER[v]) == v
    ensures UpperChar(LOWER[v]) == UpperChar(DIGITS[v]) == DIGITS[v]
    ensures IsHex(c) <==> c in DIGITS || c in LOWER
    ensures !IsHex(c) ==> UpperChar(c) == c
  {
    forall d: char | d in DIGITS || d in LOWER ensures IsHex(d) {}
    if IsHex(c) {
      assert if c <= '9' || 'A' <= c <= 'F' then c == DIGITS[Value(c)] else c == LOWER[Value(c)];
    }
  }

  // Each byte is two digits, the high one first.
  lemma {:induction false} EncodeAt(bytes: seq<byte>, k: nat)
    requires k < |bytes|
    ensures Encode(bytes)[2 * k] == DIGITS[bytes[k] / 16]
    ensures Encode(bytes)[2 * k + 1] == DIGITS[bytes[k] % 16]
  {
    Alphabet(bytes[k] / 16, 'x');
    Alphabet(bytes[k] % 16, 'x');
    if k > 0 {
      EncodeAt(bytes[1..], k - 1);
      assert Encode(bytes)[2..] == Encode(bytes[1..]);
    }
  }

  predicate InAlphabet(s: string) {
    forall k :: 0 <= k < |s| ==> s[k] in DIGITS || s[k] in LOWER
  }

  lemma AlphabetOf(s: string)
    ensures AllHex(s) <==> InAlphabet(s)
  {
    forall k | 0 <= k < |s| ensures IsHex(s[k]) <==> s[k] in DIGITS || s[k] in LOWER {
      Alphabet(0, s[k]);
    }
  }

  lemma AllHexPair(s: string)
    requires |s| >= 2
    ensures AllHex(s) <==> IsHex(s[0]) && IsHex(s[1]) && AllHex(s[2..])
  {
    assert forall k :: 2 <= k < |s| ==> s[k] == s[2..][k - 2];
  }

  lemma {:induction false} DecodeFails(s: string)
    ensures Decode(s) == Failure(NonHexInput) <==> !AllHex(s)
    ensures Decode(s) == Failure(NotEnoughInput) <==> AllHex(s) && |s| % 2 == 1
  {
    if |s| >= 2 {
      DecodeFails(s[2..]);
      AllHexPair(s);
    }
  }

  // What unhex accepts and how it fails, in figures: a character that is no
  // digit, or half a byte.
  lemma DecodeErrors(s: string)
    ensures Decode(s).Success? <==> InAlphabet(s) && |s| % 2 == 0
    ensures Decode(s) == Failure(NonHexInput) <==> !InAlphabet(s)
    ensures Decode(s) == Failure(NotEnoughInput) <==> InAlphabet(s) && |s| % 2 == 1
  {
    AlphabetOf(s);
    DecodeFails(s);
    DecodeAccepts(s);
  }

  lemma DigitOfValue(c: char)
    requires IsHex(c)
    ensures Digit(Value(c)) == UpperChar(c)
  {}

  lemma {:induction false} DecodeEncode(bytes: seq<byte>)
    ensures Decode(Encode(bytes)) == Success(bytes)
  {
    if bytes != [] {
      var s := Encode(bytes);
      assert s[2..] == Encode(bytes[1..]);
      DecodeEncode(bytes[1..]);
      assert 16 * Value(s[0]) + Value(s[1]) == bytes[0];
      assert [bytes[0]] + bytes[1..] == bytes;
    }
  }

  // Exactly the even-length texts of hex digits are accepted.
  lemma {:induction false} DecodeAccepts(s: string)
    ensures Decode(s).Success? <==> |s| % 2 == 0 && AllHex(s)
  {
    if |s| >= 2 {
      DecodeAccepts(s[2..]);
      assert forall k :: 2 <= k < |s| ==> s[k] == s[2..][k - 2];
    }
  }

  // Encoding what was decoded gives the text back in upper case.
  lemma {:induction false} EncodeDecode(s: string)
    requires Decode(s).Success?
    ensures Encode(Decode(s).value) == Upper(s)
  {
    if s != [] {
      EncodeDecode(s[2..]);
      var b := Decode(s).value;
      assert b[1..] == Decode(s[2..]).value;
      PairUpper(s[0], s[1]);
      UpperPair(s);
    }
  }

  lemma PairUpper(hi: char, lo: char)
    requires IsHex(hi) && IsHex(lo)
    ensures var b := 16 * Value(hi) + Value(lo);
      b / 16 < 16 && Digit(b / 16) == UpperChar(hi) && Digit(b % 16) == UpperChar(lo)
  {
    DigitOfValue(hi);
    DigitOfValue(lo);
  }

  lemma UpperPair(s: string)
    requires |s| >= 2
    ensures Upper(s) == [UpperChar(s[0]), UpperChar(s[1])] + Upper(s[2..])
  {
    assert s[1..][1..] == s[2..];
  }

  // boost::algorithm::hex over an array.
  method EncodeArray(raw: array<byte>) returns (s: string)
    ensures s == Encode(raw[..])
  {
    s := "";
    var i := 0;
    while i < raw.Length
      invariant 0 <= i <= raw.Length
      invariant s + Encode(raw[i..]) == Encode(raw[..])
    {
      assert raw[i..][1..] == raw[i + 1..];
      s := s + [Digit(raw[i] / 16), Digit(raw[i] % 16)];
      i := i + 1;
    }
  }

  function Prepend(raw: seq<byte>, r: Result<seq<byte>, HexError>): (p: Result<seq<byte>, HexError>)
    ensures raw == [] ==> p == r
  {
    match r
    case Failure(e) => r
    case Success(rest) =>
      assert [] + rest == rest;
      Success(raw + rest)
  }

  // boost::algorithm::unhex with a back_inserter.
  method DecodeText(s: string) returns (r: Result<seq<byte>, HexError>)
    ensures r == Decode(s)
  {
    var raw: seq<byte> := [];
    var i := 0;
    assert s[0..] == s;
    while i < |s|
      invariant 0 <= i <= |s|
      invariant Decode(s) == Prepend(raw, Decode(s[i..]))
      decreases |s| - i
    {
      if !IsHex(s[i]) {
        return Failure(NonHexInput);
      }
      if i + 1 == |s| {
        return Failure(NotEnoughInput);
      }
      if !IsHex(s[i + 1]) {
        return Failure(NonHexInput);
      }
      assert s[i..][2..] == s[i + 2..];
      assert s[i..][0] == s[i] && s[i..][1] == s[i + 1];
      var b: byte := 16 * Value(s[i]) + Value(s[i + 1]);
      assert Prepend(raw, Decode(s[i..])) == Prepend(raw + [b], Decode(s[i + 2..])) by {
        assert Decode(s[i..]) == Prepend([b], Decode(s[i + 2..]));
        if Decode(s[i + 2..]).Success? {
          assert raw + ([b] + Decode(s[i + 2..]).value) == raw + [b] + Decode(s[i + 2..]).value;
        }
      }
      raw := raw + [b];
      i := i + 2;
    }
    assert s[i..] == [] && raw + [] == raw;
    r := Success(raw);
  }
}
