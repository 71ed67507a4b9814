/** Sums over the rows of a keyed table. */
module Tables {

  ghost function Sum<K(!new), V(!new)>(m: map<K, V>, size: (K, V) -> nat): nat
    decreases |m|
  {
    if m == map[] then 0
    else
      var k :| k in m;
      Smaller(m, k);
      size(k, m[k]) + Sum(m - {k}, size)
  }

  lemma Smaller<K, V>(m: map<K, V>, k: K)
    requires k in m
    ensures |m - {k}| == |m| - 1
  {
    assert (m - {k}).Keys == m.Keys - {k};
    assert |m.Keys| == |m| && |(m - {k}).Keys| == |m - {k}|;
  }

  /** Any row may be counted first. */
  lemma {:induction false} SumPick<K(!new), V(!new)>(m: map<K, V>, k: K, size: (K, V) -> nat)
    requires k in m
    ensures Sum(m, size) == size(k, m[k]) + Sum(m - {k}, size)
    decreases |m|
  {
    var j :| j in m && Sum(m, size) == size(j, m[j]) + Sum(m - {j}, size);
    if j != k {
      Smaller(m, j);
      Smaller(m, k);
      SumPick(m - {j}, k, size);
      SumPick(m - {k}, j, size);
      assert m - {j} - {k} == m - {k} - {j};
    }
  }

  lemma SumReplace<K(!new), V(!new)>(m: map<K, V>, k: K, v: V, size: (K, V) -> nat)
    requires k in m
    ensures Sum(m[k := v], size) == Sum(m, size) - size(k, m[k]) + size(k, v)
    ensures |m[k := v]| == |m|
  {
    SumPick(m[k := v], k, size);
    SumPick(m, k, size);
    assert m[k := v] - {k} == m - {k};
    assert m[k := v].Keys == m.Keys;
    assert |m[k := v]| == |m[k := v].Keys| && |m| == |m.Keys|;
  }

  lemma SumRemove<K(!new), V(!new)>(m: map<K, V>, k: K, size: (K, V) -> nat)
    requires k in m
    ensures Sum(m - {k}, size) == Sum(m, size) - size(k, m[k])
    ensures |m - {k}| == |m| - 1
  {
    SumPick(m, k, size);
    Smaller(m, k);
  }

  /** Fewer rows never weigh more. */
  lemma {:induction false} SumSubset<K(!new), V(!new)>(a: map<K, V>, b: map<K, V>, size: (K, V) -> nat)
    requires a.Keys <= b.Keys && forall k :: k in a ==> a[k] == b[k]
    ensures Sum(a, size) <= Sum(b, size) && |a| <= |b|
    decreases |a|
  {
    if a != map[] {
      var k :| k in a;
      SumPick(a, k, size);
      SumPick(b, k, size);
      Smaller(a, k);
      Smaller(b, k);
      SumSubset(a - {k}, b - {k}, size);
    }
  }
}
