// The length header of a log frame: sprintf("%0*lu", 8, size) on one side and
// atoi on the other (src/log/client.cpp, src/log/session.cpp).
module Header {

  const HEADER_SIZE := 8
  const FRAME_LIMIT := 100_000_000

  predicate IsDigit(c: char) {
    '0' <= c <= '9'
  }

  function DigitValue(c: char): nat
    requires IsDigit(c)
  {
    c as int - '0' as int
  }

  function DigitChar(d: nat): (c: char)
    requires d < 10
    ensures IsDigit(c) && DigitValue(c) == d
  {
    (d + '0' as int) as char
  }

  // %lu
  function Digits(n: nat): (r: string)
    ensures |r| > 0
  {
    if n < 10 then [DigitChar(n)] else Digits(n / 10) + [DigitChar(n % 10)]
  }

  function Zeros(k: nat): string {
    if k == 0 then [] else ['0'] + Zeros(k - 1)
  }

  // %0*lu with width 8: padded with zeros, never cut.
  function Print(n: nat): string {
    var digits := Digits(n);
    if |digits| < HEADER_SIZE then Zeros(HEADER_SIZE - |digits|) + digits else digits
  }

  // atoi: optional white space, an optional sign, and digits up to the first
  // other character.
  predicate IsSpace(c: char) {
    c == ' ' || '\t' <= c <= '\r'
  }

  function SkipSpace(s: string): string {
    if s != [] && IsSpace(s[0]) then SkipSpace(s[1..]) else s
  }

  function ReadDigits(s: string, acc: nat): nat {
    if s == [] || !IsDigit(s[0]) then acc else ReadDigits(s[1..], 10 * acc + DigitValue(s[0]))
  }

  function Atoi(s: string): int {
    var t := SkipSpace(s);
    if t != [] && t[0] == '-' then var v: int := ReadDigits(t[1..], 0); -v
    else if t != [] && t[0] == '+' then ReadDigits(t[1..], 0)
    else ReadDigits(t, 0)
  }

  function Pow10(k: nat): nat {
    if k == 0 then 1 else 10 * Pow10(k - 1)
  }

  // ----- Printing and parsing back -----

  predicate AllDigits(s: string) {
    forall k :: 0 <= k < |s| ==> IsDigit(s[k])
  }

  lemma {:induction false} DigitsAreDigits(n: nat)
    ensures AllDigits(Digits(n))
  {
    if n >= 10 {
      DigitsAreDigits(n / 10);
    }
  }

  lemma {:induction false} ReadLastDigit(s: string, c: char, acc: nat)
    requires AllDigits(s) && IsDigit(c)
    ensures ReadDigits(s + [c], acc) == 10 * ReadDigits(s, acc) + DigitValue(c)
  {
    if s != [] {
      assert (s + [c])[1..] == s[1..] + [c];
      ReadLastDigit(s[1..], c, 10 * acc + DigitValue(s[0]));
    } else {
      assert s + [c] == [c];
    }
  }

  lemma {:induction false} ReadPrinted(n: nat)
    ensures ReadDigits(Digits(n), 0) == n
  {
    if n >= 10 {
      ReadPrinted(n / 10);
      DigitsAreDigits(n / 10);
      ReadLastDigit(Digits(n / 10), DigitChar(n % 10), 0);
    }
  }

  lemma {:induction false} ReadPadded(k: nat, s: string)
    ensures ReadDigits(Zeros(k) + s, 0) == ReadDigits(s, 0)
  {
    if k == 0 {
      assert Zeros(k) + s == s;
    } else {
      assert (Zeros(k) + s)[1..] == Zeros(k - 1) + s;
      ReadPadded(k - 1, s);
    }
  }

  lemma {:induction false} ZerosAre(k: nat)
    ensures |Zeros(k)| == k && AllDigits(Zeros(k))
  {
    if k > 0 {
      ZerosAre(k - 1);
    }
  }

  lemma {:induction false} DigitCount(n: nat, k: nat)
    requires k > 0
    ensures |Digits(n)| <= k <==> n < Pow10(k)
  {
    if n < 10 {
      PowPositive(k - 1);
    } else if k > 1 {
      DigitCount(n / 10, k - 1);
    }
  }

  lemma {:induction false} PowPositive(k: nat)
    ensures Pow10(k) >= 1
  {
    if k > 0 {
      PowPositive(k - 1);
    }
  }

  // The printed header has exactly 8 characters, and with its terminator fits
  // the 9-byte array sprintf writes to, exactly for sizes below 10^8.
  lemma HeaderFits(n: nat)
    ensures |Print(n)| == HEADER_SIZE <==> n < FRAME_LIMIT
    ensures |Print(n)| + 1 <= HEADER_SIZE + 1 <==> n < FRAME_LIMIT
    ensures AllDigits(Print(n))
  {
    DigitCount(n, 8);
    assert Pow10(8) == FRAME_LIMIT by {
      assert Pow10(4) == 10_000;
      assert Pow10(6) == 1_000_000;
    }
    DigitsAreDigits(n);
    var pad := if |Digits(n)| < HEADER_SIZE then HEADER_SIZE - |Digits(n)| else 0;
    ZerosAre(pad);
  }

  // atoi reads back the number that was printed, so different sizes have
  // different headers.
  lemma HeaderRoundTrip(n: nat)
    ensures Atoi(Print(n)) == n
  {
    var digits := Digits(n);
    ReadPrinted(n);
    HeaderFits(n);
    if |digits| < HEADER_SIZE {
      ReadPadded(HEADER_SIZE - |digits|, digits);
    }
    assert IsDigit(Print(n)[0]);
  }

  // ----- Headers in figures -----

  lemma ReadFour(s: string, acc: nat)
    requires |s| >= 4 && AllDigits(s)
    ensures var d := seq(4, k requires 0 <= k < 4 => s[k] as int - 48);
      ReadDigits(s, acc) == ReadDigits(s[4..], 10_000 * acc + 1_000 * d[0] + 100 * d[1] + 10 * d[2] + d[3])
  {
    var d := seq(4, k requires 0 <= k < 4 => s[k] as int - 48);
    assert s[1..][1..] == s[2..] && s[2..][1..] == s[3..] && s[3..][1..] == s[4..];
    var a1 := 10 * acc + DigitValue(s[0]);
    var a2 := 10 * a1 + DigitValue(s[1]);
    var a3 := 10 * a2 + DigitValue(s[2]);
    assert ReadDigits(s, acc) == ReadDigits(s[1..], a1) == ReadDigits(s[2..], a2) == ReadDigits(s[3..], a3);
    assert a3 == 1_000 * acc + 100 * d[0] + 10 * d[1] + d[2];
  }

  // Eight decimal digits, the most significant one first.
  lemma HeaderDigits(n: nat)
    requires n < 100_000_000
    ensures |Print(n)| == 8 && forall k :: 0 <= k < 8 ==> '0' <= Print(n)[k] <= '9'
    ensures var d := seq(8, k requires 0 <= k < 8 => Print(n)[k] as int - 48);
      n == 10_000_000 * d[0] + 1_000_000 * d[1] + 100_000 * d[2] + 10_000 * d[3]
           + 1_000 * d[4] + 100 * d[5] + 10 * d[6] + d[7]
  {
    var s := Print(n);
    HeaderFits(n);
    ReadPrint(n);
    ReadFour(s, 0);
    ReadFour(s[4..], ReadDigits(s[..4], 0));
    ReadFour(s[..4], 0);
    assert s[4..][4..] == [] && s[..4][4..] == [];
  }

  lemma ReadPrint(n: nat)
    ensures ReadDigits(Print(n), 0) == n && AllDigits(Print(n)) && Print(n) != []
  {
    HeaderFits(n);
    ReadPrinted(n);
    if |Digits(n)| < HEADER_SIZE {
      ReadPadded(HEADER_SIZE - |Digits(n)|, Digits(n));
    }
  }

  lemma {:induction false} ReadStops(s: string, rest: string, acc: nat)
    requires AllDigits(s) && (rest == [] || !IsDigit(rest[0]))
    ensures ReadDigits(s + rest, acc) == ReadDigits(s, acc)
  {
    if s == [] {
      assert s + rest == rest;
    } else {
      assert (s + rest)[1..] == s[1..] + rest;
      ReadStops(s[1..], rest, 10 * acc + DigitValue(s[0]));
    }
  }

  // Space, tab, line feed, vertical tab, form feed, carriage return.
  predicate Blank(s: string) {
    forall k :: 0 <= k < |s| ==> s[k] as int == 32 || 9 <= s[k] as int <= 13
  }

  lemma {:induction false} SkipsBlank(s: string, rest: string)
    requires Blank(s) && (rest == [] || !Blank(rest[..1]))
    ensures SkipSpace(s + rest) == rest
  {
    if s == [] {
      assert s + rest == rest;
    } else {
      assert (s + rest)[1..] == s[1..] + rest;
      SkipsBlank(s[1..], rest);
    }
  }

  // atoi skips white space, takes a sign, and reads digits up to the first
  // other character; without digits it gives 0.
  lemma AtoiReads(space: string, n: nat, rest: string)
    requires Blank(space) && (rest == [] || !('0' <= rest[0] <= '9'))
    ensures Atoi(space + (Print(n) + rest)) == n
    ensures Atoi(space + ("+" + (Print(n) + rest))) == n
    ensures Atoi(space + ("-" + (Print(n) + rest))) + n == 0
    ensures (rest == [] || !(Blank(rest[..1]) || rest[0] == '+' || rest[0] == '-')) ==> Atoi(space + rest) == 0
    ensures Atoi(space + ("-" + rest)) == 0 && Atoi(space + ("+" + rest)) == 0
  {
    ReadPrint(n);
    ReadStops(Print(n), rest, 0);
    ReadStops([], rest, 0);
    assert [] + rest == rest;
    forall sign | sign == "+" || sign == "-"
      ensures sign == "+" ==> Atoi(space + (sign + (Print(n) + rest))) == n
      ensures sign == "-" ==> Atoi(space + (sign + (Print(n) + rest))) + n == 0
      ensures Atoi(space + (sign + rest)) == 0
    {
      assert sign[0] as int == 43 || sign[0] as int == 45;
      assert (sign + (Print(n) + rest))[..1] == sign == (sign + rest)[..1];
      SkipsBlank(space, sign + (Print(n) + rest));
      SkipsBlank(space, sign + rest);
      assert (sign + (Print(n) + rest))[1..] == Print(n) + rest;
      assert (sign + rest)[1..] == rest;
    }
    SkipsBlank(space, Print(n) + rest);
    if rest == [] || !Blank(rest[..1]) {
      SkipsBlank(space, rest);
    }
  }

  lemma {:induction false} ReadBound(s: string, acc: nat)
    ensures ReadDigits(s, acc) < (acc + 1) * Pow10(|s|)
  {
    if s == [] {
    } else if !IsDigit(s[0]) {
      PowPositive(|s|);
      assert acc < (acc + 1) * Pow10(|s|) by { Scale(acc + 1, Pow10(|s|)); }
    } else {
      var next := 10 * acc + DigitValue(s[0]);
      ReadBound(s[1..], next);
      Raise(next + 1, 10 * (acc + 1), Pow10(|s| - 1));
      assert 10 * (acc + 1) * Pow10(|s| - 1) == (acc + 1) * Pow10(|s|);
    }
  }

  lemma Scale(a: nat, p: nat)
    requires p >= 1
    ensures a <= a * p
  {}

  lemma Raise(a: nat, b: nat, p: nat)
    requires a <= b
    ensures a * p <= b * p
  {}

  lemma {:induction false} SkipSpaceShortens(s: string)
    ensures |SkipSpace(s)| <= |s|
  {
    if s != [] && IsSpace(s[0]) {
      SkipSpaceShortens(s[1..]);
    }
  }

  lemma {:induction false} PowMonotone(j: nat, k: nat)
    requires j <= k
    ensures Pow10(j) <= Pow10(k)
  {
    if j < k {
      PowMonotone(j, k - 1);
    }
  }

  // Whatever 8 bytes a peer sends, atoi stays within int.
  lemma HeaderInIntRange(header: string)
    requires |header| == HEADER_SIZE
    ensures -FRAME_LIMIT < Atoi(header) < FRAME_LIMIT
  {
    var t := SkipSpace(header);
    SkipSpaceShortens(header);
    assert Pow10(4) == 10_000;
    assert Pow10(8) == FRAME_LIMIT by { assert Pow10(6) == 1_000_000; }
    PowMonotone(|t|, 8);
    ReadBound(t, 0);
    if t != [] {
      ReadBound(t[1..], 0);
      PowMonotone(|t| - 1, 8);
    }
  }
}
