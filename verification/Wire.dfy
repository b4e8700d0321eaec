// The byte level of one shared buffer: strcpy into a reused char array, and
// reading it back as a C string (src/ipc/endpoint.cpp).
module Wire {

  const NUL := '\0'

  // What c_str() shows of a std::string: everything before the first NUL.
  function Cut(text: string): (r: string)
    ensures |r| <= |text| && r == text[..|r|]
    ensures forall k :: 0 <= k < |r| ==> r[k] != NUL
    ensures |r| < |text| ==> text[|r|] == NUL
  {
    if text == [] || text[0] == NUL then [] else [text[0]] + Cut(text[1..])
  }

  // The array contents after strcpy(buffer, text.c_str()).
  function CopyIn(buffer: string, text: string): (r: string)
    requires |Cut(text)| < |buffer|
    ensures |r| == |buffer|
  {
    Cut(text) + [NUL] + buffer[|Cut(text)| + 1..]
  }

  // Cut depends only on the first NUL and on what precedes it.
  lemma {:induction false} CutAt(text: string, k: nat)
    requires k < |text| && text[k] == NUL && NUL !in text[..k]
    ensures Cut(text) == text[..k]
  {
    if k > 0 {
      assert text[..k][0] == text[0];
      assert text[1..][..k - 1] == text[..k][1..];
      CutAt(text[1..], k - 1);
    }
  }

  lemma {:induction false} CutWhole(text: string)
    ensures Cut(text) == text <==> NUL !in text
  {
    var r := Cut(text);
    assert |r| < |text| ==> text[|r|] in text;
  }

  lemma CopyInShows(buffer: string, text: string)
    requires |Cut(text)| < |buffer|
    ensures CopyIn(buffer, text)[..|Cut(text)|] == Cut(text) && CopyIn(buffer, text)[|Cut(text)|] == NUL
    ensures CopyIn(buffer, text)[|Cut(text)| + 1..] == buffer[|Cut(text)| + 1..]
  {}

  // Whatever stale bytes the buffer held, reading it back yields the text up
  // to its first NUL; that is the text itself exactly when it has no NUL.
  lemma TransferExact(buffer: string, text: string)
    requires |text| + 1 <= |buffer|
    ensures Cut(CopyIn(buffer, text)) == Cut(text)
    ensures Cut(CopyIn(buffer, text)) == text <==> NUL !in text
  {
    CopyInShows(buffer, text);
    CutAt(CopyIn(buffer, text), |Cut(text)|);
    CutWhole(text);
  }

  // std::strcpy on a char array, byte by byte.
  method Strcpy(dst: array<char>, text: string)
    requires |Cut(text)| < dst.Length
    modifies dst
    ensures dst[..] == CopyIn(old(dst[..]), text)
    ensures forall k :: 0 <= k < |Cut(text)| ==> dst[k] == text[k]
    ensures dst[|Cut(text)|] == '\0'
    ensures forall k :: |Cut(text)| < k < dst.Length ==> dst[k] == old(dst[k])
  {
    ghost var cut := Cut(text);
    ghost var want := CopyIn(dst[..], text);
    assert |cut| < |text| ==> text[|cut|] == NUL;
    assert forall k :: 0 <= k < |cut| ==> text[k] == cut[k] != NUL;
    var i := 0;
    while i < |text| && text[i] != NUL
      invariant 0 <= i <= |cut|
      invariant forall k :: 0 <= k < i ==> dst[k] == want[k]
      invariant forall k :: i <= k < dst.Length ==> dst[k] == old(dst[k])
    {
      dst[i] := text[i];
      i := i + 1;
    }
    assert i == |cut| && want[i] == NUL;
    dst[i] := NUL;
    assert forall k :: 0 <= k < dst.Length ==> dst[k] == want[k];
  }

  // The size test of Endpoint::send followed by strcpy: a text that does not
  // fit together with its terminator throws and leaves every byte as it was.
  method Store(dst: array<char>, text: string) returns (threw: bool)
    modifies dst
    ensures threw <==> |text| + 1 > dst.Length
    ensures threw ==> dst[..] == old(dst[..])
    ensures !threw ==> dst[..] == CopyIn(old(dst[..]), text)
    ensures !threw ==> Cut(dst[..]) == Cut(text)
  {
    threw := |text| + 1 > dst.Length;
    if !threw {
      TransferExact(dst[..], text);
      Strcpy(dst, text);
    }
  }

  // Converting the array to a std::string: scan to the terminator.
  method Load(src: array<char>) returns (text: string)
    requires NUL in src[..]
    ensures text == Cut(src[..])
    ensures |text| < src.Length
  {
    var i := 0;
    while src[i] != NUL
      invariant 0 <= i < src.Length
      invariant NUL !in src[..i]
      invariant NUL in src[i..]
      decreases src.Length - i
    {
      assert src[i..] == [src[i]] + src[i + 1..];
      assert src[..i + 1] == src[..i] + [src[i]];
      i := i + 1;
    }
    text := src[..i];
    CutAt(src[..], i);
  }
}
