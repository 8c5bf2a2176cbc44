/** Facts about maps whose keys are derived from their values. */
module Maps {

  /** A map in which every value is stored under its own key has as many distinct values as keys. */
  lemma {:induction false} KeyedMapSize<K, V>(m: map<K, V>, key: V -> K)
    requires forall k :: k in m ==> key(m[k]) == k
    ensures |m.Values| == |m|
    decreases |m|
  {
    if |m| == 0 {
      assert m.Values == {};
    } else {
      var k :| k in m;
      var rest := m - {k};
      assert rest.Keys == m.Keys - {k};
      KeyedMapSize(rest, key);
      forall v | v in rest.Values ensures v in m.Values && v != m[k] {
        var k' :| k' in rest && rest[k'] == v;
        assert m[k'] == v;
      }
      forall v | v in m.Values && v != m[k] ensures v in rest.Values {
        var k' :| k' in m && m[k'] == v;
        assert k' in rest;
      }
      assert rest.Values == m.Values - {m[k]};
    }
  }

  /** Adding a new key adds exactly its value to the values. */
  lemma InsertNewKeyValues<K, V>(m: map<K, V>, k: K, v: V)
    requires k !in m
    ensures m[k := v].Values == m.Values + {v}
  {
    var m' := m[k := v];
    forall w | w in m'.Values ensures w in m.Values + {v} {
      var k' :| k' in m' && m'[k'] == w;
      if k' != k { assert m[k'] == w; }
    }
    forall w | w in m.Values ensures w in m'.Values {
      var k' :| k' in m && m[k'] == w;
      assert m'[k'] == w;
    }
    assert m'[k] == v;
  }
}
