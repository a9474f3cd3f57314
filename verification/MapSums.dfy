/** Totals over the values of a map, independent of the order in which its keys are visited. */
module MapSums {

  ghost function Total<K>(m: map<K, nat>): nat {
    TotalOver(m, m.Keys)
  }

  ghost function TotalOver<K>(m: map<K, nat>, keys: set<K>): nat
    requires keys <= m.Keys
  {
    if keys == {} then 0
    else
      var k :| k in keys;
      m[k] + TotalOver(m, keys - {k})
  }

  lemma {:induction false} OverRemove<K>(m: map<K, nat>, keys: set<K>, k: K)
    requires k in keys && keys <= m.Keys
    ensures TotalOver(m, keys) == m[k] + TotalOver(m, keys - {k})
    decreases |keys|
  {
    var j :| j in keys && TotalOver(m, keys) == m[j] + TotalOver(m, keys - {j});
    if j != k {
      OverRemove(m, keys - {j}, k);
      OverRemove(m, keys - {k}, j);
      assert keys - {j} - {k} == keys - {k} - {j};
    }
  }

  lemma {:induction false} OverSame<K>(m: map<K, nat>, n: map<K, nat>, keys: set<K>)
    requires keys <= m.Keys && keys <= n.Keys
    requires forall k <- keys :: m[k] == n[k]
    ensures TotalOver(m, keys) == TotalOver(n, keys)
    decreases |keys|
  {
    if keys != {} {
      var k :| k in keys;
      OverRemove(m, keys, k);
      OverRemove(n, keys, k);
      OverSame(m, n, keys - {k});
    }
  }

  lemma {:induction false} OverSplit<K>(m: map<K, nat>, a: set<K>, b: set<K>)
    requires a !! b && a <= m.Keys && b <= m.Keys
    ensures TotalOver(m, a + b) == TotalOver(m, a) + TotalOver(m, b)
    decreases |a|
  {
    if a == {} {
      assert a + b == b;
    } else {
      var k :| k in a;
      OverRemove(m, a, k);
      OverRemove(m, a + b, k);
      assert a + b - {k} == (a - {k}) + b;
      OverSplit(m, a - {k}, b);
    }
  }

  lemma TotalDrop<K>(m: map<K, nat>, k: K)
    ensures Total(m - {k}) + (if k in m then m[k] else 0) == Total(m)
  {
    assert (m - {k}).Keys == m.Keys - {k};
    OverSame(m, m - {k}, m.Keys - {k});
    if k in m {
      OverRemove(m, m.Keys, k);
    } else {
      assert m.Keys - {k} == m.Keys;
    }
  }

  lemma TotalUpdate<K>(m: map<K, nat>, k: K, v: nat)
    ensures Total(m[k := v]) + (if k in m then m[k] else 0) == Total(m) + v
  {
    TotalDrop(m, k);
    TotalDrop(m[k := v], k);
    assert m[k := v] - {k} == m - {k};
  }

  /** A map split by a set of keys: the two halves add up. */
  lemma TotalSplit<K>(m: map<K, nat>, gone: set<K>)
    requires gone <= m.Keys
    ensures Total(m - gone) + Total(map k | k in gone :: m[k]) == Total(m)
  {
    var part := map k | k in gone :: m[k];
    assert part.Keys == gone && (m - gone).Keys == m.Keys - gone;
    OverSame(m, part, gone);
    OverSame(m, m - gone, m.Keys - gone);
    OverSplit(m, gone, m.Keys - gone);
    assert gone + (m.Keys - gone) == m.Keys;
  }

  lemma SizeUpdate<K, V>(m: map<K, V>, k: K, v: V)
    ensures |m[k := v]| + (if k in m then 1 else 0) == |m| + 1
  {
    assert m[k := v].Keys == m.Keys + {k};
    assert |m[k := v]| == |m[k := v].Keys| && |m| == |m.Keys|;
    if k in m {
      assert m.Keys + {k} == m.Keys;
    }
  }

  lemma SizeDrop<K, V>(m: map<K, V>, gone: set<K>)
    requires gone <= m.Keys
    ensures |m - gone| + |gone| == |m|
  {
    assert (m - gone).Keys == m.Keys - gone;
    assert |m - gone| == |(m - gone).Keys| && |m| == |m.Keys|;
    assert (m.Keys - gone) + gone == m.Keys;
    assert |(m.Keys - gone) + gone| == |m.Keys - gone| + |gone|;
  }
}
