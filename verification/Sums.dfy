/** Sums of weights over maps and sequences, for byte accounting. */
module Sums {

  ghost function SumOf<K, V>(m: map<K, V>, weight: V -> nat): nat {
    if m.Keys == {} then 0
    else
      var k :| k in m.Keys;
      weight(m[k]) + SumOf(m - {k}, weight)
  }

  lemma {:induction false} SumRemove<K, V>(m: map<K, V>, weight: V -> nat, k: K)
    requires k in m
    ensures SumOf(m, weight) == weight(m[k]) + SumOf(m - {k}, weight)
    decreases |m|
  {
    var picked :| picked in m.Keys && SumOf(m, weight) == weight(m[picked]) + SumOf(m - {picked}, weight);
    if picked != k {
      SumRemove(m - {picked}, weight, k);
      SumRemove(m - {k}, weight, picked);
      assert m - {picked} - {k} == m - {k} - {picked};
    }
  }

  lemma {:induction false} SumInsert<K, V>(m: map<K, V>, weight: V -> nat, k: K, v: V)
    requires k !in m
    ensures SumOf(m[k := v], weight) == SumOf(m, weight) + weight(v)
  {
    SumRemove(m[k := v], weight, k);
    assert m[k := v] - {k} == m;
  }

  lemma {:induction false} SumUpdate<K, V>(m: map<K, V>, weight: V -> nat, k: K, v: V)
    requires k in m
    ensures SumOf(m[k := v], weight) + weight(m[k]) == SumOf(m, weight) + weight(v)
  {
    SumRemove(m[k := v], weight, k);
    SumRemove(m, weight, k);
    assert m[k := v] - {k} == m - {k};
  }

  lemma {:induction false} SumOfPart<K, V>(part: map<K, V>, whole: map<K, V>, weight: V -> nat)
    requires part.Keys <= whole.Keys && forall k :: k in part ==> part[k] == whole[k]
    ensures SumOf(part, weight) <= SumOf(whole, weight)
    decreases |part|
  {
    if k :| k in part {
      SumRemove(part, weight, k);
      SumRemove(whole, weight, k);
      SumOfPart(part - {k}, whole - {k}, weight);
    }
  }
}
