/** Sums of a weight over the entries of a map, independent of any order of the keys. */
module MapSums {

  ghost function Sum<K(!new), V(!new)>(m: map<K, V>, weight: (K, V) -> nat): nat
    decreases |m|
  {
    if m == map[] then 0
    else
      var k :| k in m;
      weight(k, m[k]) + Sum(m - {k}, weight)
  }

  /** Any key can be taken out first. */
  lemma {:induction false} SumTake<K(!new), V(!new)>(m: map<K, V>, weight: (K, V) -> nat, k: K)
    requires k in m
    ensures Sum(m, weight) == weight(k, m[k]) + Sum(m - {k}, weight)
    decreases |m|
  {
    var first :| first in m && Sum(m, weight) == weight(first, m[first]) + Sum(m - {first}, weight);
    if first != k {
      SumTake(m - {first}, weight, k);
      SumTake(m - {k}, weight, first);
      assert m - {first} - {k} == m - {k} - {first};
    }
  }

  function WeightAt<K, V>(m: map<K, V>, weight: (K, V) -> nat, k: K): nat {
    if k in m then weight(k, m[k]) else 0
  }

  lemma SumRemove<K(!new), V(!new)>(m: map<K, V>, weight: (K, V) -> nat, k: K)
    ensures Sum(m - {k}, weight) == Sum(m, weight) - WeightAt(m, weight, k)
    ensures WeightAt(m, weight, k) <= Sum(m, weight)
  {
    if k in m {
      SumTake(m, weight, k);
    } else {
      assert m - {k} == m;
    }
  }

  lemma SumUpdate<K(!new), V(!new)>(m: map<K, V>, weight: (K, V) -> nat, k: K, v: V)
    ensures Sum(m[k := v], weight) == Sum(m, weight) - WeightAt(m, weight, k) + weight(k, v)
    ensures WeightAt(m, weight, k) <= Sum(m, weight)
  {
    SumRemove(m, weight, k);
    SumTake(m[k := v], weight, k);
    assert m[k := v] - {k} == m - {k};
  }

  /** What holds of empty sums and survives adding any entry holds of two sums and the number of entries. */
  lemma {:induction false} SumsInduct<K(!new), V(!new)>(m: map<K, V>, first: (K, V) -> nat, second: (K, V) -> nat,
                                                        p: (nat, nat, nat) -> bool)
    requires p(0, 0, 0)
    requires forall k, a: nat, b: nat, n: nat | k in m && p(a, b, n) ::
      p(first(k, m[k]) + a, second(k, m[k]) + b, n + 1)
    ensures p(Sum(m, first), Sum(m, second), |m|)
    decreases |m|
  {
    if m != map[] {
      var k :| k in m;
      SumTake(m, first, k);
      SumTake(m, second, k);
      assert |m - {k}| == |m| - 1;
      SumsInduct(m - {k}, first, second, p);
    }
  }
}
