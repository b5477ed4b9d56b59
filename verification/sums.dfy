/** Sums over the values of a finite map, independent of any key order. */
module Sums {

  /** Some key of a non-empty map. The choice is arbitrary but fixed per map,
      which is all `Sum` needs. */
  ghost function Pick<K, V>(m: map<K, V>): (k: K)
    requires |m| > 0
    ensures k in m
  {
    var k :| k in m; k
  }

  /** The sum of `w(v)` over all values `v` of `m`. */
  ghost function Sum<K, V>(m: map<K, V>, w: V -> real): real
    decreases |m|
  {
    if |m| == 0 then 0.0
    else
      var k := Pick(m);
      RemoveShrinks(m, k);
      w(m[k]) + Sum(m - {k}, w)
  }

  lemma RemoveShrinks<K, V>(m: map<K, V>, k: K)
    requires k in m
    ensures |m - {k}| == |m| - 1
  {
    assert (m - {k}).Keys == m.Keys - {k};
  }

  /** Any key can be split off the sum, not only the one `Sum` picks. */
  lemma {:induction false} SumRemove<K, V>(m: map<K, V>, k: K, w: V -> real)
    requires k in m
    ensures Sum(m, w) == w(m[k]) + Sum(m - {k}, w)
    decreases |m|
  {
    var j := Pick(m);
    if j != k {
      RemoveShrinks(m, j);
      RemoveShrinks(m, k);
      SumRemove(m - {j}, k, w);
      SumRemove(m - {k}, j, w);
      assert (m - {j}) - {k} == (m - {k}) - {j};
    }
  }

  /** What `k` contributes to the sum, present or not: a key that is absent
      contributes nothing. Callers that write one key use it without a case
      split of their own. */
  lemma SumWithout<K, V>(m: map<K, V>, k: K, w: V -> real)
    ensures k in m ==> Sum(m, w) == w(m[k]) + Sum(m - {k}, w)
    ensures k !in m ==> Sum(m, w) == Sum(m - {k}, w)
  {
    if k in m {
      SumRemove(m, k, w);
    } else {
      assert m - {k} == m;
    }
  }
}
