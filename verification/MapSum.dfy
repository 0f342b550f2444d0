/** Sums of a weight over the values of a finite map, and how one update of the
    map changes such a sum. */
module MapSum {

  ghost function Pick<K, V>(m: map<K, V>): (k: K)
    requires |m| != 0
    ensures k in m
  {
    var k :| k in m.Keys; k
  }

  ghost function Sum<K, V>(m: map<K, V>, weight: V -> int): int
    decreases |m|
  {
    if |m| == 0 then 0
    else
      var k := Pick(m);
      assert |m - {k}| < |m| by { Shrinks(m, k); }
      weight(m[k]) + Sum(m - {k}, weight)
  }

  lemma Shrinks<K, V>(m: map<K, V>, k: K)
    requires k in m
    ensures |m - {k}| == |m| - 1
  {
    assert (m - {k}).Keys == m.Keys - {k};
  }

  lemma Grows<K, V>(m: map<K, V>, k: K, v: V)
    requires k !in m
    ensures |m[k := v]| == |m| + 1
  {
    assert m[k := v].Keys == m.Keys + {k};
  }

  /** Any key may be taken out first. */
  lemma {:induction false} Remove<K, V>(m: map<K, V>, weight: V -> int, k: K)
    requires k in m
    ensures Sum(m, weight) == weight(m[k]) + Sum(m - {k}, weight)
    decreases |m|
  {
    var j := Pick(m);
    if j != k {
      var mj, mk := m - {j}, m - {k};
      Shrinks(m, j);
      Shrinks(m, k);
      Remove(mj, weight, k);
      Remove(mk, weight, j);
      assert mj - {k} == mk - {j};
    }
  }

  lemma Insert<K, V>(m: map<K, V>, weight: V -> int, k: K, v: V)
    requires k !in m
    ensures Sum(m[k := v], weight) == Sum(m, weight) + weight(v)
  {
    Remove(m[k := v], weight, k);
    assert m[k := v] - {k} == m;
  }

  lemma Update<K, V>(m: map<K, V>, weight: V -> int, k: K, v: V)
    requires k in m
    ensures Sum(m[k := v], weight) == Sum(m, weight) - weight(m[k]) + weight(v)
  {
    Remove(m[k := v], weight, k);
    Remove(m, weight, k);
    assert m[k := v] - {k} == m - {k};
  }

  /** Weights that are never negative have a sum that bounds each of them. */
  lemma {:induction false} Bounds<K, V>(m: map<K, V>, weight: V -> int)
    requires forall k :: k in m ==> weight(m[k]) >= 0
    ensures Sum(m, weight) >= 0
    ensures forall k :: k in m ==> weight(m[k]) <= Sum(m, weight)
    decreases |m|
  {
    forall k | k in m
      ensures 0 <= weight(m[k]) <= Sum(m, weight)
    {
      Shrinks(m, k);
      Bounds(m - {k}, weight);
      Remove(m, weight, k);
    }
    if |m| != 0 {
      var k :| k in m;
    }
  }

  // ------------------------------------------------------------------ counts

  /** How many values of a map have a property. */
  ghost function Count<K, V>(m: map<K, V>, p: V -> bool): nat {
    |set k | k in m && p(m[k])|
  }

  function Unit(b: bool): int {
    if b then 1 else 0
  }

  /** The keys other than `k` that count. */
  ghost function Others<K, V>(m: map<K, V>, p: V -> bool, k: K): set<K> {
    set j | j in m && j != k && p(m[j])
  }

  lemma CountSplit<K, V>(m: map<K, V>, p: V -> bool, k: K)
    ensures Count(m, p) == |Others(m, p, k)| + Unit(k in m && p(m[k]))
  {
    var all := set j | j in m && p(m[j]);
    if k in m && p(m[k]) {
      assert all == Others(m, p, k) + {k};
    } else {
      assert all == Others(m, p, k);
    }
  }

  lemma CountInsert<K, V>(m: map<K, V>, p: V -> bool, k: K, v: V)
    requires k !in m
    ensures Count(m[k := v], p) == Count(m, p) + Unit(p(v))
  {
    CountSplit(m, p, k);
    CountSplit(m[k := v], p, k);
    assert Others(m[k := v], p, k) == Others(m, p, k);
  }

  lemma CountUpdate<K, V>(m: map<K, V>, p: V -> bool, k: K, v: V)
    requires k in m
    ensures Count(m[k := v], p) == Count(m, p) - Unit(p(m[k])) + Unit(p(v))
  {
    CountSplit(m, p, k);
    CountSplit(m[k := v], p, k);
    assert Others(m[k := v], p, k) == Others(m, p, k);
  }

  lemma CountRemove<K, V>(m: map<K, V>, p: V -> bool, k: K)
    requires k in m
    ensures Count(m - {k}, p) == Count(m, p) - Unit(p(m[k]))
  {
    CountSplit(m, p, k);
    CountSplit(m - {k}, p, k);
    assert Others(m - {k}, p, k) == Others(m, p, k);
  }

  lemma CountNone<K, V>(m: map<K, V>, p: V -> bool)
    requires forall k :: k in m ==> !p(m[k])
    ensures Count(m, p) == 0
  {
    assert (set k | k in m && p(m[k])) == {};
  }

  lemma CountSame<K, V>(m: map<K, V>, p: V -> bool, q: V -> bool)
    requires forall k :: k in m ==> (p(m[k]) <==> q(m[k]))
    ensures Count(m, p) == Count(m, q)
  {
    assert (set k | k in m && p(m[k])) == (set k | k in m && q(m[k]));
  }

  lemma CountAll<K, V>(m: map<K, V>, p: V -> bool)
    requires forall k :: k in m ==> p(m[k])
    ensures Count(m, p) == |m|
  {
    assert (set k | k in m && p(m[k])) == m.Keys;
  }

  /** Two properties that exclude each other count separately. */
  lemma CountSplits<K, V>(m: map<K, V>, whole: V -> bool, left: V -> bool, right: V -> bool)
    requires forall k :: k in m ==> (whole(m[k]) <==> left(m[k]) || right(m[k])) && !(left(m[k]) && right(m[k]))
    ensures Count(m, whole) == Count(m, left) + Count(m, right)
  {
    var l := set k | k in m && left(m[k]);
    var r := set k | k in m && right(m[k]);
    assert (set k | k in m && whole(m[k])) == l + r;
    assert l !! r;
  }
}
