/** Sums over sequences, the `Sum(...)` aggregates and `sum(...)` calls of the source. */
module Sums {
  function SumInts(xs: seq<int>): int
  {
    if xs == [] then 0 else xs[0] + SumInts(xs[1..])
  }

  function SumReals(xs: seq<real>): real
  {
    if xs == [] then 0.0 else xs[0] + SumReals(xs[1..])
  }

  lemma {:induction false} SumAppend(a: seq<int>, b: seq<int>)
    ensures SumInts(a + b) == SumInts(a) + SumInts(b)
  {
    if a != [] {
      assert (a + b)[1..] == a[1..] + b;
      SumAppend(a[1..], b);
    } else {
      assert a + b == b;
    }
  }

  lemma {:induction false} SumRealsAppend(a: seq<real>, b: seq<real>)
    ensures SumReals(a + b) == SumReals(a) + SumReals(b)
  {
    if a != [] {
      assert (a + b)[1..] == a[1..] + b;
      SumRealsAppend(a[1..], b);
    } else {
      assert a + b == b;
    }
  }

  lemma {:induction false} SumNonNeg(xs: seq<int>)
    ensures (forall i :: 0 <= i < |xs| ==> xs[i] >= 0) ==> SumInts(xs) >= 0
  {
    if xs != [] {
      SumNonNeg(xs[1..]);
      if forall i :: 0 <= i < |xs| ==> xs[i] >= 0 {
        assert forall i :: 0 <= i < |xs[1..]| ==> xs[1..][i] == xs[i + 1];
      }
    }
  }
}
