// Adding up a number per run, in whatever order a directory scan yields them.
module Sums {

  ghost function Sum<K>(m: map<K, nat>, keys: set<K>): nat
    requires keys <= m.Keys
  {
    if keys == {} then 0 else
    var k :| k in keys;
    m[k] + Sum(m, keys - {k})
  }

  /** The sum does not depend on the order it is taken in. */
  lemma {:induction false} SumPick<K>(m: map<K, nat>, keys: set<K>, key: K)
    requires keys <= m.Keys && key in keys
    ensures Sum(m, keys) == m[key] + Sum(m, keys - {key})
    decreases keys
  {
    var k :| k in keys && Sum(m, keys) == m[k] + Sum(m, keys - {k});
    if k != key {
      SumPick(m, keys - {k}, key);
      SumPick(m, keys - {key}, k);
      assert keys - {k} - {key} == keys - {key} - {k};
    }
  }

  lemma {:induction false} SumSame<K>(m: map<K, nat>, m': map<K, nat>, keys: set<K>)
    requires keys <= m.Keys && keys <= m'.Keys
    requires forall k :: k in keys ==> m'[k] == m[k]
    ensures Sum(m', keys) == Sum(m, keys)
    decreases keys
  {
    if keys != {} {
      var k :| k in keys && Sum(m, keys) == m[k] + Sum(m, keys - {k});
      SumPick(m', keys, k);
      SumSame(m, m', keys - {k});
    }
  }

  lemma SumAdd<K>(m: map<K, nat>, m': map<K, nat>, keys: set<K>, key: K)
    requires keys <= m.Keys && key !in keys
    requires key in m' && forall k :: k in keys ==> k in m' && m'[k] == m[k]
    ensures Sum(m', keys + {key}) == Sum(m, keys) + m'[key]
  {
    SumSame(m, m', keys);
    SumPick(m', keys + {key}, key);
    assert keys + {key} - {key} == keys;
  }

  lemma {:induction false} SumMonotone<K>(m: map<K, nat>, few: set<K>, many: set<K>)
    requires few <= many <= m.Keys
    ensures Sum(m, few) <= Sum(m, many)
    decreases |many|
  {
    if k :| k in few {
      SumPick(m, few, k);
      SumPick(m, many, k);
      SumMonotone(m, few - {k}, many - {k});
    }
  }
}
