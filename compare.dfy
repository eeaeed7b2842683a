/**
 The result checker of the HAL: count the words on which an actual buffer
 differs from its golden reference.
 */
module Compare {
  import opened Layout

  /** A C `int` length as a trip count: a negative length runs no iteration. */
  function TripCount(len: int): (n: nat)
    ensures len <= 0 ==> n == 0
    ensures len >= 0 ==> n == len
  {
    if len < 0 then 0 else len
  }

  /** How many of the first n positions hold different words. */
  function Mismatches(a: seq<Word>, g: seq<Word>, n: nat): (r: nat)
    requires n <= |a| && n <= |g|
    ensures r <= n
  {
    if n == 0 then 0 else Mismatches(a, g, n - 1) + (if a[n - 1] != g[n - 1] then 1 else 0)
  }

  /** The positions below n where the two buffers differ. */
  function MismatchSet(a: seq<Word>, g: seq<Word>, n: nat): set<nat>
    requires n <= |a| && n <= |g|
  {
    set i: nat | i < n && a[i] != g[i]
  }

  /** Mismatches is the number of differing positions. */
  lemma {:induction false} MismatchesCountsIndices(a: seq<Word>, g: seq<Word>, n: nat)
    requires n <= |a| && n <= |g|
    ensures Mismatches(a, g, n) == |MismatchSet(a, g, n)|
  {
    if n == 0 {
      assert MismatchSet(a, g, n) == {};
    } else {
      MismatchesCountsIndices(a, g, n - 1);
      if a[n - 1] != g[n - 1] {
        assert MismatchSet(a, g, n) == MismatchSet(a, g, n - 1) + {n - 1};
      } else {
        assert MismatchSet(a, g, n) == MismatchSet(a, g, n - 1);
      }
    }
  }

  /** No mismatch exactly when the first n words agree. */
  lemma {:induction false} MismatchesZeroIff(a: seq<Word>, g: seq<Word>, n: nat)
    requires n <= |a| && n <= |g|
    ensures Mismatches(a, g, n) == 0 <==> a[..n] == g[..n]
  {
    if n > 0 {
      MismatchesZeroIff(a, g, n - 1);
      assert a[..n] == a[..n - 1] + [a[n - 1]];
      assert g[..n] == g[..n - 1] + [g[n - 1]];
    }
  }

  /** The count does not depend on which buffer is the golden one. */
  lemma {:induction false} MismatchesSymmetric(a: seq<Word>, g: seq<Word>, n: nat)
    requires n <= |a| && n <= |g|
    ensures Mismatches(a, g, n) == Mismatches(g, a, n)
  {
    if n > 0 {
      MismatchesSymmetric(a, g, n - 1);
    }
  }

  /** A word that differs below n makes the count positive. */
  lemma MismatchDetected(a: seq<Word>, g: seq<Word>, n: nat, k: nat)
    requires n <= |a| && n <= |g|
    requires k < n && a[k] != g[k]
    ensures Mismatches(a, g, n) > 0
  {
    MismatchesZeroIff(a, g, n);
    assert a[..n][k] != g[..n][k];
  }

  /**
   Walks the first len words of both buffers and counts those that differ.
   Reads only: neither buffer is modified.
   */
  method CompareInt(actualOut: array<Word>, goldenOut: array<Word>, len: int) returns (errors: int)
    requires len <= actualOut.Length && len <= goldenOut.Length
    ensures errors == Mismatches(actualOut[..], goldenOut[..], TripCount(len))
    ensures 0 <= errors <= TripCount(len)
  {
    errors := 0;
    var i := 0;
    while i < len
      invariant 0 <= i <= TripCount(len)
      invariant errors == Mismatches(actualOut[..], goldenOut[..], i)
    {
      var actualWord := actualOut[i];
      var goldenWord := goldenOut[i];
      errors := errors + (if actualWord != goldenWord then 1 else 0);
      i := i + 1;
    }
  }
}
