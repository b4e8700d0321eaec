// The stack trace block of the plain formatter: the decoded trace with its
// lines indented by an in-place find/replace loop (src/log/formatter.cpp).
module TraceFormat {
  import opened Wrappers
  import opened Hex

  const NEWLINE := '\n'
  const INDENT := "        "

  // ----- What the loop inserts -----

  // An indented newline is neither the first nor the last character.
  predicate Indents(s: string, i: nat)
    requires i < |s|
  {
    s[i] == NEWLINE && 0 < i < |s| - 1
  }

  function Piece(s: string, i: nat): (r: string)
    requires i < |s|
    ensures |r| == (if Indents(s, i) then 9 else 1) && r[0] == s[i]
    ensures forall k :: 1 <= k < |r| ==> r[k] == ' '
  {
    if Indents(s, i) then [NEWLINE] + INDENT else [s[i]]
  }

  // The first n characters, indented.
  function Indented(s: string, n: nat): string
    requires n <= |s|
  {
    if n == 0 then [] else Indented(s, n - 1) + Piece(s, n - 1)
  }

  lemma {:induction false} IndentedGrows(s: string, k: nat, n: nat)
    requires k <= n <= |s|
    ensures Indented(s, k) <= Indented(s, n)
  {
    if k < n {
      IndentedGrows(s, k, n - 1);
    }
  }

  // What the indented text is, in figures: every character in order, and eight
  // spaces after each line feed that is neither the first nor the last one.
  lemma IndentedAt(s: string, k: nat, n: nat)
    requires k < n <= |s|
    ensures Indented(s, 0) == "" && |Indented(s, k)| < |Indented(s, n)|
    ensures Indented(s, n)[|Indented(s, k)|] == s[k]
    ensures Indented(s, k + 1) <= Indented(s, n)
    ensures Indented(s, k + 1) == Indented(s, k) + [s[k]] +
      if s[k] == '\n' && 0 < k < |s| - 1 then "        " else ""
  {
    IndentedGrows(s, k + 1, n);
    assert Indented(s, k + 1) == Indented(s, k) + Piece(s, k);
    assert [s[k]] + "" == [s[k]];
    assert Indented(s, k) + ([s[k]] + INDENT) == Indented(s, k) + [s[k]] + INDENT;
    assert Indented(s, n)[|Indented(s, k)|] == Indented(s, k + 1)[|Indented(s, k)|];
  }

  // Taking the insertions out again: the eight characters after each newline
  // that is not the first character of the block.
  function Strip(t: string, first: bool): string
    decreases |t|
  {
    if t == [] then []
    else if t[0] == NEWLINE && !first then
      [NEWLINE] + Strip(if |t| > 9 then t[9..] else [], false)
    else
      [t[0]] + Strip(t[1..], false)
  }

  // The same characters counted from position i on, without the last one.
  function Rest(s: string, i: nat): string
    requires i <= |s|
    decreases |s| - i
  {
    if i + 1 >= |s| then [] else Piece(s, i) + Rest(s, i + 1)
  }

  lemma {:induction false} StripRest(s: string, i: nat)
    requires i < |s|
    ensures Strip(Rest(s, i), i == 0) == s[i..|s| - 1]
    decreases |s| - i
  {
    if i + 1 < |s| {
      StripRest(s, i + 1);
      var t := Rest(s, i);
      assert t[|Piece(s, i)|..] == Rest(s, i + 1);
      assert s[i..|s| - 1] == [s[i]] + s[i + 1..|s| - 1];
    }
  }

  lemma {:induction false} IndentedRest(s: string, i: nat)
    requires i < |s|
    ensures Indented(s, |s| - 1) == Indented(s, i) + Rest(s, i)
    decreases |s| - i
  {
    if i + 1 < |s| {
      IndentedRest(s, i + 1);
    }
  }

  lemma IndentedIsRest(s: string)
    requires s != []
    ensures Indented(s, |s| - 1) == Rest(s, 0)
  {
    IndentedRest(s, 0);
    assert Indented(s, 0) + Rest(s, 0) == Rest(s, 0);
  }

  // The printed block is the indented trace without its last character;
  // taking the insertions out gives the trace back without that character.
  lemma IndentationReversible(s: string)
    requires s != []
    ensures Strip(Indented(s, |s| - 1), true) == s[..|s| - 1]
  {
    IndentedIsRest(s);
    StripRest(s, 0);
    assert s[0..|s| - 1] == s[..|s| - 1];
  }

  lemma LastCharacterStays(s: string)
    requires s != []
    ensures Indented(s, |s|) == Indented(s, |s| - 1) + [s[|s| - 1]]
  {}

  // ----- The loop -----

  // std::string::find of a newline; the length stands for npos.
  function Find(s: string, from: nat): (p: nat)
    ensures from <= |s| ==> from <= p <= |s|
    ensures p < |s| ==> s[p] == NEWLINE
    ensures forall k :: from <= k < p && k < |s| ==> s[k] != NEWLINE
    decreases |s| - from
  {
    if from >= |s| then |s| else if s[from] == NEWLINE then from else Find(s, from + 1)
  }

  // Characters that are not newlines go through unchanged.
  lemma {:induction false} NothingIndented(s: string, a: nat, b: nat)
    requires a <= b <= |s|
    requires forall k :: a <= k < b ==> s[k] != NEWLINE || k == |s| - 1
    ensures Indented(s, b) == Indented(s, a) + s[a..b]
  {
    if a < b {
      NothingIndented(s, a, b - 1);
      assert s[a..b] == s[a..b - 1] + [s[b - 1]];
    }
  }

  // No newline after position p.
  predicate SpacesAfter(t: string, p: nat) {
    p < |t| && forall k :: p < k < |t| ==> t[k] != NEWLINE
  }

  // One find over what the loop has built from the first j characters,
  // followed by the characters it has not come to.
  lemma FindNext(s: string, j: nat, built: string, p: nat, q: nat)
    requires j <= |s| && SpacesAfter(built, p)
    requires q == Find(built + s[j..], p + 1)
    ensures |built| <= q <= |built| + |s| - j
    ensures var i := j + q - |built|;
      && (i < |s| ==> s[i] == NEWLINE)
      && forall k :: j <= k < i ==> s[k] != NEWLINE
  {
    var trace := built + s[j..];
    var i := j + q - |built|;
    assert forall k :: p < k < |built| ==> trace[k] == built[k];
    assert q < |trace| && q >= |built| ==> trace[q] == s[i];
    assert forall k :: j <= k < i && k < |s| ==> trace[|built| + k - j] == s[k];
  }

  lemma ReplaceAt(s: string, j: nat, built: string, i: nat)
    requires j <= i < |s|
    ensures var trace, p, more := built + s[j..], |built| + i - j, [NEWLINE] + INDENT;
      && p < |trace|
      && trace[..p] + more + trace[p + 1..] == (built + s[j..i] + more) + s[i + 1..]
  {
    var trace, p := built + s[j..], |built| + i - j;
    assert trace[..p] == built + s[j..i];
    assert trace[p + 1..] == s[i + 1..];
  }

  lemma IndentIsSpaces(t: string)
    ensures SpacesAfter(t + ([NEWLINE] + INDENT), |t|)
  {
    assert forall k :: 0 <= k < |INDENT| ==> INDENT[k] != NEWLINE;
  }

  lemma IndentedThrough(s: string, j: nat, i: nat)
    requires j <= i < |s| - 1 && 0 < i && s[i] == NEWLINE
    requires forall k :: j <= k < i ==> s[k] != NEWLINE
    ensures Indented(s, i + 1) == Indented(s, j) + s[j..i] + ([NEWLINE] + INDENT)
  {
    NothingIndented(s, j, i);
  }

  // What the loop has built after it replaced the newline at position i.
  lemma BuiltNext(s: string, j: nat, i: nat)
    requires 1 <= j <= i < |s| - 1 && s[i] == NEWLINE
    requires forall k :: j <= k < i ==> s[k] != NEWLINE
    ensures var built := Indented(s, j);
      && Indented(s, i + 1) == built + s[j..i] + ([NEWLINE] + INDENT)
      && SpacesAfter(Indented(s, i + 1), |built| + i - j)
  {
    IndentedThrough(s, j, i);
    IndentIsSpaces(Indented(s, j) + s[j..i]);
  }

  // The trace with the newline at position i of the original replaced.
  lemma Replaced(s: string, j: nat, built: string, i: nat, q: nat)
    requires 1 <= j <= i < |s| - 1 && s[i] == NEWLINE && built == Indented(s, j) && q == |built| + i - j
    requires forall k :: j <= k < i ==> s[k] != NEWLINE
    ensures var trace := built + s[j..];
      && q < |trace|
      && trace[..q] + ([NEWLINE] + INDENT) + trace[q + 1..] == Indented(s, i + 1) + s[i + 1..]
      && SpacesAfter(Indented(s, i + 1), q)
  {
    BuiltNext(s, j, i);
    ReplaceAt(s, j, built, i);
  }

  // The loop body replaces one newline ...
  lemma LoopStep(s: string, j: nat, built: string, p: nat, q: nat) returns (j': nat, built': string)
    requires 1 <= j <= |s| && built == Indented(s, j) && SpacesAfter(built, p)
    requires q == Find(built + s[j..], p + 1) && q < |built + s[j..]| - 1
    ensures j < j' <= |s| && built' == Indented(s, j') && SpacesAfter(built', q)
    ensures var trace := built + s[j..];
      trace[..q] + ([NEWLINE] + INDENT) + trace[q + 1..] == built' + s[j'..]
  {
    FindNext(s, j, built, p, q);
    var i := j + q - |built|;
    assert i < |s| - 1;
    Replaced(s, j, built, i, q);
    j', built' := i + 1, Indented(s, i + 1);
  }

  // ... or has come to the end.
  lemma LoopExit(s: string, j: nat, built: string, p: nat, q: nat)
    requires 1 <= j <= |s| && built == Indented(s, j) && SpacesAfter(built, p)
    requires q == Find(built + s[j..], p + 1) && q >= |built + s[j..]| - 1
    ensures built + s[j..] == Indented(s, |s|)
  {
    FindNext(s, j, built, p, q);
    NothingIndented(s, j, |s|);
    assert s[j..|s|] == s[j..];
  }

  // The do/while loop and the final copy. `j` is the part of the original
  // trace the loop has passed, `built` what it has become.
  method IndentTrace(decoded: string) returns (printed: string)
    requires decoded != []
    ensures printed == Indented(decoded, |decoded| - 1)
    ensures Strip(printed, true) == decoded[..|decoded| - 1]
  {
    var trace := decoded;
    var p := 0;
    ghost var j, built := 1, [decoded[0]];
    assert Indented(decoded, 1) == built;
    while true
      invariant 1 <= j <= |decoded| && built == Indented(decoded, j) && SpacesAfter(built, p)
      invariant trace == built + decoded[j..]
      decreases |decoded| - j
    {
      ghost var from := p;
      p := Find(trace, p + 1);
      if p == |trace| || p == |trace| - 1 {
        LoopExit(decoded, j, built, from, p);
        break;
      }
      ghost var j', built' := LoopStep(decoded, j, built, from, p);
      trace := trace[..p] + ([NEWLINE] + INDENT) + trace[p + 1..];
      j, built := j', built';
    }
    IndentationReversible(decoded);
    LastCharacterStays(decoded);
    printed := trace[..|trace| - 1];
  }

  // ----- The whole block -----

  function AsText(bytes: seq<byte>): (r: string)
    ensures |r| == |bytes| && forall k :: 0 <= k < |bytes| ==> r[k] as int == bytes[k]
  {
    seq(|bytes|, k requires 0 <= k < |bytes| => bytes[k] as char)
  }

  // The trace is the hex text of t: two digits for each of its bytes.
  predicate HexOf(trace: string, t: string) {
    && |trace| == 2 * |t|
    && forall k :: 0 <= k < |t| ==>
         && t[k] as int < 256
         && trace[2 * k] == "0123456789ABCDEF"[t[k] as int / 16]
         && trace[2 * k + 1] == "0123456789ABCDEF"[t[k] as int % 16]
  }

  lemma HexDecodes(trace: string, t: string)
    requires HexOf(trace, t)
    ensures Decode(trace).Success? && AsText(Decode(trace).value) == t
  {
    var bytes: seq<byte> := seq(|t|, k requires 0 <= k < |t| => t[k] as int);
    forall k | 0 <= k < |t|
      ensures trace[2 * k] == Encode(bytes)[2 * k] && trace[2 * k + 1] == Encode(bytes)[2 * k + 1]
    {
      EncodeAt(bytes, k);
    }
    forall i | 0 <= i < |trace| ensures trace[i] == Encode(bytes)[i] {
      assert i == 2 * (i / 2) || i == 2 * (i / 2) + 1;
    }
    assert trace == Encode(bytes);
    DecodeEncode(bytes);
  }

  lemma SameHeading(printed: string)
    ensures "    stack trace:\n" + INDENT + printed == "    stack trace:\n        " + printed
  {
    assert "    stack trace:\n" + INDENT == "    stack trace:\n        ";
  }

  lemma NotHexOf(trace: string, t: string)
    requires Decode(trace).Failure?
    ensures !HexOf(trace, t)
  {
    if HexOf(trace, t) {
      HexDecodes(trace, t);
    }
  }

  // Lines 101 to 121 of the formatter: the trace of the exception info, hex
  // encoded, or the note that there is none.
  method PrintTrace(trace: string) returns (r: Result<string, HexError>)
    ensures trace == "" ==> r == Success("    no stack trace available")
    ensures trace != "" ==>
      match Decode(trace)
      case Failure(e) => r == Failure(e)
      case Success(bytes) =>
        var text := AsText(bytes);
        && text != [] && r.Success?
        && r.value == "    stack trace:\n" + INDENT + Indented(text, |text| - 1)
        && Strip(Indented(text, |text| - 1), true) == text[..|text| - 1]
    ensures forall t :: t != "" && HexOf(trace, t) ==>
      r == Success("    stack trace:\n        " + Indented(t, |t| - 1))
  {
    if trace == "" {
      return Success("    no stack trace available");
    }
    var decoded := DecodeText(trace);
    if decoded.Failure? {
      forall t ensures !HexOf(trace, t) {
        NotHexOf(trace, t);
      }
      return Failure(decoded.error);
    }
    var text := AsText(decoded.value);
    var printed := IndentTrace(text);
    r := Success("    stack trace:\n" + INDENT + printed);
    SameHeading(printed);
    forall t | t != "" && HexOf(trace, t) ensures t == text {
      HexDecodes(trace, t);
    }
  }
}
