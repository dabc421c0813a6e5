/** Sums of an integer weight over the rows of a finite table. */
module Totals {

  /** The sum of w over the values stored in m. */
  ghost function Total<K(!new), V(!new)>(m: map<K, V>, w: V -> int): int
    decreases |m|
  {
    if m == map[] then 0
    else
      var k :| k in m;
      assert (m - {k}).Keys == m.Keys - {k};
      w(m[k]) + Total(m - {k}, w)
  }

  /** Any row may be split off first: the sum does not depend on the order. */
  lemma {:induction false} TotalSplit<K(!new), V(!new)>(m: map<K, V>, w: V -> int, k: K)
    requires k in m
    ensures Total(m, w) == w(m[k]) + Total(m - {k}, w)
    decreases |m|
  {
    var j :| j in m && Total(m, w) == w(m[j]) + Total(m - {j}, w);
    if j != k {
      assert (m - {j}).Keys == m.Keys - {j};
      assert (m - {k}).Keys == m.Keys - {k};
      TotalSplit(m - {j}, w, k);
      TotalSplit(m - {k}, w, j);
      assert (m - {j}) - {k} == (m - {k}) - {j};
    }
  }

  lemma TotalInsert<K(!new), V(!new)>(m: map<K, V>, w: V -> int, k: K, v: V)
    requires k !in m
    ensures Total(m[k := v], w) == Total(m, w) + w(v)
  {
    TotalSplit(m[k := v], w, k);
    assert m[k := v] - {k} == m;
  }

  lemma TotalUpdate<K(!new), V(!new)>(m: map<K, V>, w: V -> int, k: K, v: V)
    requires k in m
    ensures Total(m[k := v], w) == Total(m, w) - w(m[k]) + w(v)
  {
    TotalSplit(m[k := v], w, k);
    TotalSplit(m, w, k);
    assert m[k := v] - {k} == m - {k};
  }

  lemma {:induction false} TotalNonNegative<K(!new), V(!new)>(m: map<K, V>, w: V -> int)
    requires forall k :: k in m ==> 0 <= w(m[k])
    ensures 0 <= Total(m, w)
    decreases |m|
  {
    if m != map[] {
      var k :| k in m && Total(m, w) == w(m[k]) + Total(m - {k}, w);
      assert (m - {k}).Keys == m.Keys - {k};
      TotalNonNegative(m - {k}, w);
    }
  }

  lemma {:induction false} TotalZero<K(!new), V(!new)>(m: map<K, V>, w: V -> int)
    requires forall k :: k in m ==> w(m[k]) == 0
    ensures Total(m, w) == 0
    decreases |m|
  {
    if m != map[] {
      var k :| k in m && Total(m, w) == w(m[k]) + Total(m - {k}, w);
      assert (m - {k}).Keys == m.Keys - {k};
      TotalZero(m - {k}, w);
    }
  }

  /** One row is at most the whole. */
  lemma TotalAtLeastOne<K(!new), V(!new)>(m: map<K, V>, w: V -> int, k: K)
    requires k in m
    requires forall i :: i in m ==> 0 <= w(m[i])
    ensures w(m[k]) <= Total(m, w)
  {
    TotalSplit(m, w, k);
    TotalNonNegative(m - {k}, w);
  }

  /** Two different rows together are at most the whole. */
  lemma TotalAtLeastTwo<K(!new), V(!new)>(m: map<K, V>, w: V -> int, k: K, j: K)
    requires k in m && j in m && k != j
    requires forall i :: i in m ==> 0 <= w(m[i])
    ensures w(m[k]) + w(m[j]) <= Total(m, w)
  {
    TotalSplit(m, w, k);
    TotalAtLeastOne(m - {k}, w, j);
  }
}
