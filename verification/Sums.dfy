// Counting over an unbounded collection of threads.
//
// A collection of threads is a sequence of thread records. The number of
// semaphore tokens (or steps) the threads hold together is the sum of a weight
// over that sequence; a step of one thread changes one summand.
module Sums {

  ghost function Sum<T>(f: T -> nat, s: seq<T>): nat {
    SumTo(f, s, |s|)
  }

  // The first n threads only.
  ghost function SumTo<T>(f: T -> nat, s: seq<T>, n: nat): nat
    requires n <= |s|
  {
    if n == 0 then 0 else SumTo(f, s, n - 1) + f(s[n - 1])
  }

  lemma {:induction false} SumToSame<T>(f: T -> nat, s: seq<T>, s': seq<T>, n: nat)
    requires n <= |s| && n <= |s'| && s[..n] == s'[..n]
    ensures SumTo(f, s, n) == SumTo(f, s', n)
  {
    if n > 0 {
      assert s[..n][..n - 1] == s'[..n][..n - 1];
      assert s[n - 1] == s[..n][n - 1] == s'[..n][n - 1];
      SumToSame(f, s, s', n - 1);
    }
  }

  lemma SumAppend<T>(f: T -> nat, s: seq<T>, v: T)
    ensures Sum(f, s + [v]) == Sum(f, s) + f(v)
  {
    SumToSame(f, s, s + [v], |s|);
  }

  lemma SumUpdate<T>(f: T -> nat, s: seq<T>, i: nat, v: T)
    requires i < |s|
    ensures Sum(f, s[i := v]) + f(s[i]) == Sum(f, s) + f(v)
  {
    SumToUpdate(f, s, i, v, |s|);
  }

  lemma {:induction false} SumToUpdate<T>(f: T -> nat, s: seq<T>, i: nat, v: T, n: nat)
    requires i < n <= |s|
    ensures SumTo(f, s[i := v], n) + f(s[i]) == SumTo(f, s, n) + f(v)
  {
    if i == n - 1 {
      SumToSame(f, s, s[i := v], i);
    } else {
      SumToUpdate(f, s, i, v, n - 1);
    }
  }

  lemma SumAt<T>(f: T -> nat, s: seq<T>, i: nat)
    requires i < |s|
    ensures f(s[i]) <= Sum(f, s)
  {
    SumToAt(f, s, i, |s|);
  }

  lemma {:induction false} SumToAt<T>(f: T -> nat, s: seq<T>, i: nat, n: nat)
    requires i < n <= |s|
    ensures f(s[i]) <= SumTo(f, s, n)
  {
    if i < n - 1 {
      SumToAt(f, s, i, n - 1);
    }
  }

  lemma SumAtTwo<T>(f: T -> nat, s: seq<T>, i: nat, j: nat)
    requires i < j < |s|
    ensures f(s[i]) + f(s[j]) <= Sum(f, s)
  {
    SumToAtTwo(f, s, i, j, |s|);
  }

  lemma {:induction false} SumToAtTwo<T>(f: T -> nat, s: seq<T>, i: nat, j: nat, n: nat)
    requires i < j < n <= |s|
    ensures f(s[i]) + f(s[j]) <= SumTo(f, s, n)
  {
    if j == n - 1 {
      SumToAt(f, s, i, j);
    } else {
      SumToAtTwo(f, s, i, j, n - 1);
    }
  }

  // A positive total has a witness: some thread holds a token.
  lemma SumWitness<T>(f: T -> nat, s: seq<T>) returns (i: nat)
    requires Sum(f, s) > 0
    ensures i < |s| && f(s[i]) > 0
  {
    i := SumToWitness(f, s, |s|);
  }

  lemma {:induction false} SumToWitness<T>(f: T -> nat, s: seq<T>, n: nat) returns (i: nat)
    requires n <= |s| && SumTo(f, s, n) > 0
    ensures i < n && f(s[i]) > 0
  {
    if f(s[n - 1]) > 0 {
      i := n - 1;
    } else {
      i := SumToWitness(f, s, n - 1);
    }
  }

  lemma SumZero<T>(f: T -> nat, s: seq<T>)
    requires forall i :: 0 <= i < |s| ==> f(s[i]) == 0
    ensures Sum(f, s) == 0
  {
    SumToZero(f, s, |s|);
  }

  lemma {:induction false} SumToZero<T>(f: T -> nat, s: seq<T>, n: nat)
    requires n <= |s|
    requires forall i :: 0 <= i < |s| ==> f(s[i]) == 0
    ensures SumTo(f, s, n) == 0
  {
    if n > 0 {
      SumToZero(f, s, n - 1);
    }
  }
}
