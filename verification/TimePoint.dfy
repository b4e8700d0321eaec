// The time point terminal: a signed 64-bit count as 16 hexadecimal digits of
// its bytes in memory, least significant first (src/log/message.cpp).
module TimePoint {
  import opened Wrappers
  import opened Hex

  const TWO_63 := 0x8000_0000_0000_0000
  const TWO_64 := 0x1_0000_0000_0000_0000

  // std::chrono's rep.
  type int64 = n: int | -TWO_63 <= n < TWO_63

  datatype TimeError = BadHex(e: HexError) | InvalidSize

  // The bytes memcpy copies: two's complement, least significant first.
  function Bits(t: int64): nat {
    if t < 0 then t + TWO_64 else t
  }

  function FromBits(u: nat): int64
    requires u < TWO_64
  {
    if u < TWO_63 then u else u - TWO_64
  }

  function ToBytes(u: nat, n: nat): (r: seq<byte>)
    ensures |r| == n
  {
    if n == 0 then [] else [u % 256] + ToBytes(u / 256, n - 1)
  }

  function FromBytes(bytes: seq<byte>): nat {
    if bytes == [] then 0 else bytes[0] + 256 * FromBytes(bytes[1..])
  }

  function Pow256(n: nat): nat {
    if n == 0 then 1 else 256 * Pow256(n - 1)
  }

  function Synthetize(t: int64): string {
    Encode(ToBytes(Bits(t), 8))
  }

  function Extract(s: string): Result<int64, TimeError> {
    match Decode(s)
    case Failure(e) => Failure(BadHex(e))
    case Success(raw) =>
      if |raw| != 8 then Failure(InvalidSize)
      else
        BytesBound(raw);
        assert Pow256(8) == TWO_64 by { PowEight(); }
        Success(FromBits(FromBytes(raw)))
  }

  lemma PowEight()
    ensures Pow256(8) == TWO_64
  {
    assert Pow256(4) == 0x1_0000_0000;
    assert Pow256(6) == 0x1_0000_0000_0000;
  }

  lemma {:induction false} BytesBound(bytes: seq<byte>)
    ensures FromBytes(bytes) < Pow256(|bytes|)
  {
    if bytes != [] {
      BytesBound(bytes[1..]);
    }
  }

  lemma {:induction false} FromToBytes(u: nat, n: nat)
    requires u < Pow256(n)
    ensures FromBytes(ToBytes(u, n)) == u
  {
    if n > 0 {
      FromToBytes(u / 256, n - 1);
    }
  }

  lemma LowByte(b: byte, rest: nat)
    ensures (b + 256 * rest) % 256 == b && (b + 256 * rest) / 256 == rest
  {}

  lemma {:induction false} ToFromBytes(bytes: seq<byte>)
    ensures ToBytes(FromBytes(bytes), |bytes|) == bytes
  {
    if bytes != [] {
      ToFromBytes(bytes[1..]);
      LowByte(bytes[0], FromBytes(bytes[1..]));
      assert [bytes[0]] + bytes[1..] == bytes;
    }
  }

  // Every 64-bit count survives.
  lemma TimeRoundTrip(t: int64)
    ensures Extract(Synthetize(t)) == Success(t)
    ensures |Synthetize(t)| == 16
  {
    var bytes := ToBytes(Bits(t), 8);
    DecodeEncode(bytes);
    PowEight();
    FromToBytes(Bits(t), 8);
  }

  // extract accepts exactly the texts of 16 hex digits, and encoding what was
  // accepted gives the text in upper case.
  lemma ExtractAccepts(s: string)
    ensures Extract(s).Success? <==> |s| == 16 && AllHex(s)
    ensures Extract(s).Success? ==> Synthetize(Extract(s).value) == Upper(s)
  {
    DecodeAccepts(s);
    if Extract(s).Success? {
      BytesSurvive(Decode(s).value);
      EncodeDecode(s);
    }
  }

  lemma BytesSurvive(raw: seq<byte>)
    requires |raw| == 8
    ensures FromBytes(raw) < TWO_64
    ensures ToBytes(Bits(FromBits(FromBytes(raw))), 8) == raw
  {
    BytesBound(raw);
    PowEight();
    ToFromBytes(raw);
  }

  lemma NextByte(bytes: seq<byte>, i: nat, rest: nat, left: nat)
    requires i < |bytes| && left > 0 && bytes[i..] == ToBytes(rest, left)
    ensures bytes[i] == rest % 256 && bytes[i + 1..] == ToBytes(rest / 256, left - 1)
  {
    assert bytes[i..][0] == bytes[i] && bytes[i..][1..] == bytes[i + 1..];
  }

  // ----- The text in figures -----

  // Each byte of the count in two's complement, the least significant one
  // first, is written as two digits, its high one first.
  lemma TimeDigits(t: int64) returns (b: seq<byte>)
    ensures |b| == 8 && |Synthetize(t)| == 16
    ensures var v: seq<int> := b;
      (if t < 0 then t + 0x1_0000_0000_0000_0000 else t)
      == v[0] + 0x100 * (v[1] + 0x100 * (v[2] + 0x100 * (v[3] + 0x100 * (v[4]
         + 0x100 * (v[5] + 0x100 * (v[6] + 0x100 * v[7]))))))
    ensures forall k :: 0 <= k < 8 ==>
      && Synthetize(t)[2 * k] == "0123456789ABCDEF"[b[k] / 16]
      && Synthetize(t)[2 * k + 1] == "0123456789ABCDEF"[b[k] % 16]
  {
    b := ToBytes(Bits(t), 8);
    PowEight();
    FromToBytes(Bits(t), 8);
    Horner(b);
    forall k | 0 <= k < 8
      ensures Synthetize(t)[2 * k] == "0123456789ABCDEF"[b[k] / 16]
      ensures Synthetize(t)[2 * k + 1] == "0123456789ABCDEF"[b[k] % 16]
    {
      EncodeAt(b, k);
    }
  }

  lemma HornerFour(b: seq<byte>)
    requires |b| >= 4
    ensures var v: seq<int> := b;
      FromBytes(b) == v[0] + 0x100 * (v[1] + 0x100 * (v[2] + 0x100 * (v[3] + 0x100 * FromBytes(b[4..]))))
  {
    assert b[1..][1..] == b[2..] && b[2..][1..] == b[3..] && b[3..][1..] == b[4..];
  }

  lemma Horner(b: seq<byte>)
    requires |b| == 8
    ensures var v: seq<int> := b;
      FromBytes(b) == v[0] + 0x100 * (v[1] + 0x100 * (v[2] + 0x100 * (v[3] + 0x100 * (v[4]
                      + 0x100 * (v[5] + 0x100 * (v[6] + 0x100 * v[7]))))))
  {
    HornerFour(b);
    HornerFour(b[4..]);
    assert b[4..][4..] == [];
  }

  // How extract fails: on a text that is not hex, or not of eight bytes.
  lemma ExtractErrors(s: string)
    ensures Extract(s).Success? <==> InAlphabet(s) && |s| == 16
    ensures Extract(s) == Failure(BadHex(NonHexInput)) <==> !InAlphabet(s)
    ensures Extract(s) == Failure(BadHex(NotEnoughInput)) <==> InAlphabet(s) && |s| % 2 == 1
    ensures Extract(s) == Failure(InvalidSize) <==> InAlphabet(s) && |s| % 2 == 0 && |s| != 16
  {
    DecodeErrors(s);
    ExtractAccepts(s);
  }

  // synthetize: copy the count into a raw array, then print it.
  method SynthetizeRaw(t: int64) returns (s: string)
    ensures s == Synthetize(t)
  {
    var n := 8;
    var raw := new byte[n];
    ghost var want := ToBytes(Bits(t), n);
    var i := 0;
    var rest: nat := Bits(t);
    while i < n
      invariant 0 <= i <= n
      invariant forall k :: 0 <= k < i ==> raw[k] == want[k]
      invariant want[i..] == ToBytes(rest, n - i)
    {
      NextByte(want, i, rest, n - i);
      raw[i] := rest % 256;
      i, rest := i + 1, rest / 256;
    }
    assert raw[..] == want;
    s := EncodeArray(raw);
  }

  // extract: parse into raw bytes, check the size, copy them into the count.
  method ExtractRaw(s: string) returns (r: Result<int64, TimeError>)
    ensures r == Extract(s)
  {
    var decoded := DecodeText(s);
    if decoded.Failure? {
      return Failure(BadHex(decoded.error));
    }
    var raw := decoded.value;
    if |raw| != 8 {
      return Failure(InvalidSize);
    }
    BytesBound(raw);
    PowEight();
    var i := 8;
    var u: nat := 0;
    while i > 0
      invariant 0 <= i <= 8
      invariant u == FromBytes(raw[i..])
    {
      i := i - 1;
      assert raw[i..][1..] == raw[i + 1..];
      u := raw[i] + 256 * u;
    }
    assert raw[0..] == raw;
    r := Success(FromBits(u));
  }
}
