/** Sums over the values of a finite map, used to add up money over table rows, and small facts about sets. */
module Sums {

  /** The sum of all values of m; the order of summation does not matter (see TotalRemove). */
  ghost function Total<K(!new)>(m: map<K, int>): int
    decreases |m|
  {
    if m == map[] then 0
    else
      var k :| k in m;
      m[k] + Total(m - {k})
  }

  lemma {:induction false} TotalRemove<K(!new)>(m: map<K, int>, k: K)
    requires k in m
    ensures Total(m) == m[k] + Total(m - {k})
    decreases |m|
  {
    var j :| j in m && Total(m) == m[j] + Total(m - {j});
    if j != k {
      TotalRemove(m - {j}, k);
      TotalRemove(m - {k}, j);
      assert m - {j} - {k} == m - {k} - {j};
    }
  }

  lemma TotalUpdate<K(!new)>(m: map<K, int>, k: K, v: int)
    ensures Total(m[k := v]) == Total(m) + v - (if k in m then m[k] else 0)
  {
    TotalRemove(m[k := v], k);
    if k in m {
      TotalRemove(m, k);
    } else {
      assert m - {k} == m;
    }
    assert m[k := v] - {k} == m - {k};
  }

  lemma {:induction false} SubsetIsSmaller<T>(x: set<T>, y: set<T>)
    requires x <= y
    ensures |x| <= |y|
  {
    if x == {} {
    } else {
      var a :| a in x;
      SubsetIsSmaller(x - {a}, y - {a});
    }
  }

  /** A number above all of these. */
  lemma {:induction false} FreshNat(keys: set<nat>) returns (n: nat)
    ensures forall k :: k in keys ==> k < n
    decreases |keys|
  {
    if keys == {} {
      n := 0;
    } else {
      var k :| k in keys;
      assert keys == (keys - {k}) + {k};
      n := FreshNat(keys - {k});
      if n <= k {
        n := k + 1;
      }
    }
  }
}
