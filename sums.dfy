/**
 * Sums of the values of a finite map. The source accumulates its totals while
 * iterating over hash maps in an unspecified order; with exact reals the order
 * does not matter, which TotalRemove states.
 */
module Sums {

  /** The sum of all values of `m`. */
  ghost function Total<K>(m: map<K, real>): real
    decreases |m|
  {
    if m == map[] then 0.0
    else
      var k :| k in m;
      m[k] + Total(m - {k})
  }

  /** The part of `m` whose keys lie in `ks`. */
  function Restrict<K, V>(m: map<K, V>, ks: set<K>): (r: map<K, V>)
    ensures r.Keys == m.Keys * ks
    ensures forall k :: k in r ==> r[k] == m[k]
  {
    map k | k in m && k in ks :: m[k]
  }

  /** Any key may be taken out first: the total does not depend on the order of summation. */
  lemma {:induction false} TotalRemove<K>(m: map<K, real>, k: K)
    requires k in m
    ensures Total(m) == m[k] + Total(m - {k})
    decreases |m|
  {
    var j :| j in m && Total(m) == m[j] + Total(m - {j});
    if j != k {
      var mj, mk := m - {j}, m - {k};
      assert |mj| < |m| by { assert mj.Keys == m.Keys - {j}; }
      assert |mk| < |m| by { assert mk.Keys == m.Keys - {k}; }
      TotalRemove(mj, k);
      TotalRemove(mk, j);
      assert mj - {k} == mk - {j};
    }
  }

  /** Adding one more key to the summed part adds its value. */
  lemma TotalExtend<K>(m: map<K, real>, done: set<K>, k: K)
    requires k in m && k !in done
    ensures Total(Restrict(m, done + {k})) == Total(Restrict(m, done)) + m[k]
  {
    var big := Restrict(m, done + {k});
    TotalRemove(big, k);
    assert big - {k} == Restrict(m, done);
  }

  /** A map of non-negative values has a non-negative total. */
  lemma {:induction false} TotalNonNegative<K>(m: map<K, real>)
    requires forall k :: k in m ==> m[k] >= 0.0
    ensures Total(m) >= 0.0
    decreases |m|
  {
    if m != map[] {
      var k :| k in m;
      TotalRemove(m, k);
      assert |m - {k}| < |m| by { assert (m - {k}).Keys == m.Keys - {k}; }
      TotalNonNegative(m - {k});
    }
  }

  /** A total over no keys is zero. */
  lemma TotalEmpty<K>(m: map<K, real>)
    requires m.Keys == {}
    ensures Total(m) == 0.0
  {
    assert m == map[];
  }

  /** A one-entry map totals to its value. */
  lemma TotalSingleton<K>(k: K, v: real)
    ensures Total(map[k := v]) == v
  {
    TotalRemove(map[k := v], k);
    assert map[k := v] - {k} == map[];
  }
}
