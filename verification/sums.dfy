/**
 Sums over the rows of a table. The database's `AVG`, `COUNT` and the owner
 aggregate are all stated through `SumBy`: the sum of `f(row)` over a set of
 keys of a table.
 */
module Sums {

  ghost function SumBy<K, V>(m: map<K, V>, keys: set<K>, f: V -> real): real
    requires keys <= m.Keys
    decreases keys
  {
    if keys == {} then 0.0
    else
      var k :| k in keys;
      f(m[k]) + SumBy(m, keys - {k}, f)
  }

  /** Any key can be taken out first: the sum does not depend on the order rows are visited in. */
  lemma {:induction false} SumByRemove<K, V>(m: map<K, V>, keys: set<K>, k: K, f: V -> real)
    requires keys <= m.Keys
    requires k in keys
    ensures SumBy(m, keys, f) == f(m[k]) + SumBy(m, keys - {k}, f)
    decreases keys
  {
    var j :| j in keys && SumBy(m, keys, f) == f(m[j]) + SumBy(m, keys - {j}, f);
    if j != k {
      SumByRemove(m, keys - {j}, k, f);
      SumByRemove(m, keys - {k}, j, f);
      assert keys - {j} - {k} == keys - {k} - {j};
    }
  }

  lemma SumByAdd<K, V>(m: map<K, V>, keys: set<K>, k: K, f: V -> real)
    requires keys <= m.Keys
    requires k in m && k !in keys
    ensures SumBy(m, keys + {k}, f) == SumBy(m, keys, f) + f(m[k])
  {
    SumByRemove(m, keys + {k}, k, f);
    assert keys + {k} - {k} == keys;
  }

  /** The sum over two disjoint key sets is the sum of the two sums. */
  lemma {:induction false} SumByUnion<K, V>(m: map<K, V>, a: set<K>, b: set<K>, f: V -> real)
    requires a <= m.Keys && b <= m.Keys
    requires a !! b
    ensures SumBy(m, a + b, f) == SumBy(m, a, f) + SumBy(m, b, f)
    decreases a
  {
    if a != {} {
      var k :| k in a;
      SumByUnion(m, a - {k}, b, f);
      SumByRemove(m, a, k, f);
      SumByRemove(m, a + b, k, f);
      assert a + b - {k} == (a - {k}) + b;
    } else {
      assert a + b == b;
    }
  }

  /** Two tables that agree on `f` of every summed row have the same sum. */
  lemma {:induction false} SumByFrame<K, V>(m1: map<K, V>, m2: map<K, V>, keys: set<K>, f: V -> real)
    requires keys <= m1.Keys && keys <= m2.Keys
    requires forall k :: k in keys ==> f(m1[k]) == f(m2[k])
    ensures SumBy(m1, keys, f) == SumBy(m2, keys, f)
    decreases keys
  {
    if keys != {} {
      var k :| k in keys;
      SumByRemove(m1, keys, k, f);
      SumByRemove(m2, keys, k, f);
      SumByFrame(m1, m2, keys - {k}, f);
    }
  }

  /** Summing a non-negative quantity gives a non-negative total. */
  lemma {:induction false} SumByNonNegative<K, V>(m: map<K, V>, keys: set<K>, f: V -> real)
    requires keys <= m.Keys
    requires forall k :: k in keys ==> f(m[k]) >= 0.0
    ensures SumBy(m, keys, f) >= 0.0
    decreases keys
  {
    if keys != {} {
      var k :| k in keys;
      SumByRemove(m, keys, k, f);
      SumByNonNegative(m, keys - {k}, f);
    }
  }
}
