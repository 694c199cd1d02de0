/** Sums of a per-value weight over the values of a finite map.
    The contract's ledger is a map; its conservation and solvency
    invariants are stated as sums over that map. */
module Sums {

  /** The sum of `f` over every value stored in `m`. */
  ghost function Sum<K, V>(m: map<K, V>, f: V -> int): int
    decreases |m.Keys|
  {
    if m.Keys == {} then 0
    else
      var k :| k in m.Keys;
      assert |(m - {k}).Keys| < |m.Keys| by {
        assert (m - {k}).Keys == m.Keys - {k};
      }
      f(m[k]) + Sum(m - {k}, f)
  }

  /** The weight of key `k` in `m`, zero when `k` is absent. */
  ghost function At<K, V>(m: map<K, V>, k: K, f: V -> int): int
  {
    if k in m then f(m[k]) else 0
  }

  /** Any stored key may be split off the sum, whichever key the
      definition happened to pick. */
  lemma {:induction false} SumRemove<K, V>(m: map<K, V>, k: K, f: V -> int)
    requires k in m
    ensures Sum(m, f) == f(m[k]) + Sum(m - {k}, f)
    decreases |m.Keys|
  {
    var j :| j in m.Keys && Sum(m, f) == f(m[j]) + Sum(m - {j}, f);
    if j != k {
      assert (m - {j}).Keys == m.Keys - {j};
      SumRemove(m - {j}, k, f);
      assert (m - {k}).Keys == m.Keys - {k};
      SumRemove(m - {k}, j, f);
      assert (m - {j}) - {k} == (m - {k}) - {j};
    }
  }

  /** Storing `v` under `k` replaces k's old weight (if any) by f(v). */
  lemma SumUpdate<K, V>(m: map<K, V>, k: K, v: V, f: V -> int)
    ensures Sum(m[k := v], f) == Sum(m, f) - At(m, k, f) + f(v)
  {
    SumRemove(m[k := v], k, f);
    assert m[k := v] - {k} == m - {k};
    if k in m {
      SumRemove(m, k, f);
    } else {
      assert m - {k} == m;
    }
  }

  /** Removing a key removes its weight. */
  lemma SumDelete<K, V>(m: map<K, V>, k: K, f: V -> int)
    ensures Sum(m - {k}, f) == Sum(m, f) - At(m, k, f)
  {
    if k in m {
      SumRemove(m, k, f);
    } else {
      assert m - {k} == m;
    }
  }

  /** A sum of weights that are all at most the weights of `g` is at
      most the sum of `g`. */
  lemma {:induction false} SumMonotone<K, V>(m: map<K, V>, f: V -> int, g: V -> int)
    requires forall k :: k in m ==> f(m[k]) <= g(m[k])
    ensures Sum(m, f) <= Sum(m, g)
    decreases |m.Keys|
  {
    if m.Keys != {} {
      var k :| k in m.Keys;
      SumRemove(m, k, f);
      SumRemove(m, k, g);
      assert (m - {k}).Keys == m.Keys - {k};
      SumMonotone(m - {k}, f, g);
    }
  }

  /** A sum of non-negative weights is non-negative. */
  lemma {:induction false} SumNonNegative<K, V>(m: map<K, V>, f: V -> int)
    requires forall k :: k in m ==> 0 <= f(m[k])
    ensures 0 <= Sum(m, f)
    decreases |m.Keys|
  {
    if m.Keys != {} {
      var k :| k in m.Keys;
      SumRemove(m, k, f);
      assert (m - {k}).Keys == m.Keys - {k};
      SumNonNegative(m - {k}, f);
    }
  }
}
