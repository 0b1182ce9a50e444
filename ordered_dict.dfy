/**
 * Python dicts: insertion-ordered association lists. Assigning to an
 * existing key keeps its position; a new key goes last.
 */
module OrderedDict {
  import opened Wrappers

  predicate HasKey<K(==), V>(m: seq<(K, V)>, k: K) {
    exists i :: 0 <= i < |m| && m[i].0 == k
  }

  /** A dict never holds the same key twice. */
  predicate UniqueKeys<K(==), V>(m: seq<(K, V)>) {
    forall i, j :: 0 <= i < j < |m| ==> m[i].0 != m[j].0
  }

  /** `d.get(k)`. */
  function Get<K(==), V>(m: seq<(K, V)>, k: K): Option<V>
  {
    if |m| == 0 then None
    else if m[0].0 == k then Some(m[0].1)
    else Get(m[1..], k)
  }

  /** `d.get(k)` finds a value exactly when `k` is a key, and the value is the one stored with `k`. */
  lemma {:induction false} GetMeaning<K, V>(m: seq<(K, V)>, k: K)
    ensures Get(m, k).Some? <==> HasKey(m, k)
    ensures Get(m, k).Some? ==> exists i :: 0 <= i < |m| && m[i] == (k, Get(m, k).value)
  {
    if |m| > 0 && m[0].0 != k {
      GetMeaning(m[1..], k);
      if HasKey(m, k) {
        var i :| 0 <= i < |m| && m[i].0 == k;
        assert m[1..][i - 1] == m[i];
      }
      if Get(m, k).Some? {
        var i :| 0 <= i < |m| - 1 && m[1..][i] == (k, Get(m, k).value);
        assert m[i + 1] == m[1..][i];
      }
    } else if |m| > 0 {
      assert m[0] == (k, Get(m, k).value);
    }
  }

  /** `d[k] = v`. */
  function Put<K(==), V>(m: seq<(K, V)>, k: K, v: V): seq<(K, V)>
  {
    if |m| == 0 then [(k, v)]
    else if m[0].0 == k then [(k, v)] + m[1..]
    else [m[0]] + Put(m[1..], k, v)
  }

  /** `list(d)`: the keys in insertion order. */
  function Keys<K, V>(m: seq<(K, V)>): (ks: seq<K>)
    ensures |ks| == |m|
  {
    seq(|m|, i requires 0 <= i < |m| => m[i].0)
  }

  /** Assigning to a present key keeps the key order; a new key is appended last. */
  lemma {:induction false} PutShape<K, V>(m: seq<(K, V)>, k: K, v: V)
    ensures HasKey(m, k) ==> |Put(m, k, v)| == |m| && Keys(Put(m, k, v)) == Keys(m)
    ensures !HasKey(m, k) ==> Put(m, k, v) == m + [(k, v)]
  {
    if |m| > 0 && m[0].0 == k {
      assert Keys(Put(m, k, v)) == Keys(m) by {
        var p := Put(m, k, v);
        assert p == [(k, v)] + m[1..];
        forall i | 0 <= i < |m|
          ensures Keys(p)[i] == Keys(m)[i]
        {
          if i > 0 {
            assert p[i] == m[i];
          }
        }
      }
    }
    if |m| > 0 && m[0].0 != k {
      PutShape(m[1..], k, v);
      if HasKey(m[1..], k) {
        var p := Put(m, k, v);
        var q := Put(m[1..], k, v);
        assert p == [m[0]] + q;
        forall i | 0 <= i < |m|
          ensures Keys(p)[i] == Keys(m)[i]
        {
          if i > 0 {
            assert p[i] == q[i - 1];
            assert Keys(q)[i - 1] == Keys(m[1..])[i - 1];
            assert m[1..][i - 1] == m[i];
          }
        }
      }
      assert HasKey(m, k) <==> HasKey(m[1..], k) by {
        if HasKey(m, k) {
          var i :| 0 <= i < |m| && m[i].0 == k;
          assert m[1..][i - 1] == m[i];
        }
        if HasKey(m[1..], k) {
          var i :| 0 <= i < |m| - 1 && m[1..][i].0 == k;
          assert m[i + 1] == m[1..][i];
        }
      }
      if !HasKey(m, k) {
        assert [m[0]] + (m[1..] + [(k, v)]) == m + [(k, v)];
      }
    }
  }

  /** After `d[k] = v`, `d[k]` is `v` and every other key reads as before. */
  lemma {:induction false} PutThenGet<K, V>(m: seq<(K, V)>, k: K, v: V, k': K)
    ensures Get(Put(m, k, v), k) == Some(v)
    ensures k' != k ==> Get(Put(m, k, v), k') == Get(m, k')
  {
    if |m| > 0 && m[0].0 != k {
      PutThenGet(m[1..], k, v, k');
      assert Put(m, k, v)[1..] == Put(m[1..], k, v);
    }
  }

  /** Every key of `Put(m, k, v)` is `k` or a key of `m`. */
  lemma {:induction false} PutKeysFrom<K, V>(m: seq<(K, V)>, k: K, v: V, i: nat)
    requires i < |Put(m, k, v)|
    ensures Put(m, k, v)[i].0 == k || HasKey(m, Put(m, k, v)[i].0)
  {
    if |m| > 0 && m[0].0 != k && i > 0 {
      PutKeysFrom(m[1..], k, v, i - 1);
      var r := Put(m[1..], k, v);
      if r[i - 1].0 != k {
        var t :| 0 <= t < |m| - 1 && m[1..][t].0 == r[i - 1].0;
        assert m[t + 1].0 == r[i - 1].0;
      }
    } else if |m| > 0 && m[0].0 == k && i > 0 {
      assert Put(m, k, v)[i] == m[i];
    }
  }

  /** Assignment keeps a dict's keys unique. */
  lemma {:induction false} PutKeepsUniqueKeys<K, V>(m: seq<(K, V)>, k: K, v: V)
    requires UniqueKeys(m)
    ensures UniqueKeys(Put(m, k, v))
  {
    if |m| > 0 && m[0].0 != k {
      PutKeepsUniqueKeys(m[1..], k, v);
      var r := Put(m, k, v);
      assert r == [m[0]] + Put(m[1..], k, v);
      forall i | 1 <= i < |r| ensures r[i].0 != m[0].0 {
        PutKeysFrom(m[1..], k, v, i - 1);
        if r[i].0 != k {
          var t :| 0 <= t < |m| - 1 && m[1..][t].0 == r[i].0;
          assert m[t + 1].0 == r[i].0;
        }
      }
    }
  }
}
