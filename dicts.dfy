/**
 * A Python dict filled by a sequence of assignments `d[k] = v`, starting from `{}`: a later write
 * to a key replaces the earlier value whole. `writes[i]` is the i-th assignment, as a key and a value.
 */
module Dicts {

  /** No later write has the same key as write `i`. */
  ghost predicate IsLast<K, V>(writes: seq<(K, V)>, i: int)
    requires 0 <= i < |writes|
  {
    forall j :: i < j < |writes| ==> writes[j].0 != writes[i].0
  }

  ghost function KeysWritten<K, V>(writes: seq<(K, V)>): set<K> {
    set i | 0 <= i < |writes| :: writes[i].0
  }

  /** Last write wins: the keys are the keys written, each mapped to the value of its last write. */
  ghost predicate LastWins<K, V>(writes: seq<(K, V)>, m: map<K, V>) {
    && m.Keys == KeysWritten(writes)
    && forall i :: 0 <= i < |writes| && IsLast(writes, i) ==> writes[i].0 in m && m[writes[i].0] == writes[i].1
  }

  /** Performing write `n` on the dict made by the writes before it gives the dict of one write more. */
  lemma LastWinsStep<K, V>(writes: seq<(K, V)>, n: int, m: map<K, V>)
    requires 0 <= n < |writes| && LastWins(writes[..n], m)
    ensures LastWins(writes[..n + 1], m[writes[n].0 := writes[n].1])
  {
    var pre, post := writes[..n], writes[..n + 1];
    var m' := m[writes[n].0 := writes[n].1];
    assert KeysWritten(post) == KeysWritten(pre) + {writes[n].0} by {
      forall key | key in KeysWritten(post) ensures key in KeysWritten(pre) + {writes[n].0} {
        var i :| 0 <= i < |post| && post[i].0 == key;
        if i < n {
          assert pre[i] == post[i];
        }
      }
      forall key | key in KeysWritten(pre) ensures key in KeysWritten(post) {
        var i :| 0 <= i < |pre| && pre[i].0 == key;
        assert post[i] == pre[i];
      }
      assert post[n].0 in KeysWritten(post);
    }
    forall i | 0 <= i < |post| && IsLast(post, i) ensures post[i].0 in m' && m'[post[i].0] == post[i].1 {
      if i < n {
        assert post[n].0 != post[i].0;
        assert IsLast(pre, i) by {
          forall j | i < j < |pre| ensures pre[j].0 != pre[i].0 {
            assert pre[j] == post[j];
          }
        }
        assert pre[i] == post[i];
      }
    }
  }

  /** Every key written has a last write. */
  lemma LastWriteExists<K, V>(writes: seq<(K, V)>, key: K)
    requires key in KeysWritten(writes)
    ensures exists i :: 0 <= i < |writes| && IsLast(writes, i) && writes[i].0 == key
  {
    var i :| 0 <= i < |writes| && writes[i].0 == key;
    var j := i + 1;
    while j < |writes|
      invariant i < j <= |writes|
      invariant writes[i].0 == key
      invariant forall k :: i < k < j ==> writes[k].0 != key
    {
      if writes[j].0 == key {
        i := j;
      }
      j := j + 1;
    }
    assert IsLast(writes, i);
  }

  /** Last write wins fixes the dict completely: no value is merged from an earlier write. */
  lemma LastWinsUnique<K, V>(writes: seq<(K, V)>, m1: map<K, V>, m2: map<K, V>)
    requires LastWins(writes, m1) && LastWins(writes, m2)
    ensures m1 == m2
  {
    forall key | key in m1 ensures m1[key] == m2[key] {
      LastWriteExists(writes, key);
    }
  }
}
