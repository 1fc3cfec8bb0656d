/** Finite sets of indices and their cardinalities. */
module Ranges {

  ghost function Range(n: nat): (r: set<nat>)
    ensures forall i: nat :: i in r <==> i < n
    ensures |r| == n
  {
    if n == 0 then {} else Range(n - 1) + {n - 1}
  }

  lemma {:induction false} SubsetCardinality<T>(a: set<T>, b: set<T>)
    requires a <= b
    ensures |a| <= |b| && (|a| == |b| <==> a == b)
  {
    assert b == a + (b - a);
    assert |b| == |a| + |b - a|;
  }

  lemma {:induction false} CardinalityBelow(s: set<nat>, n: nat)
    requires forall i :: i in s ==> i < n
    ensures |s| <= n && (|s| == n <==> s == Range(n))
  {
    SubsetCardinality(s, Range(n));
  }

  lemma {:induction false} OnlyRange(s: set<nat>, n: nat)
    requires |s| == n && forall i: nat :: i < n ==> i in s
    ensures forall i :: i in s ==> i < n
  {
    SubsetCardinality(Range(n), s);
  }
}
