/** A Python dict as the sequence of its items in insertion order: lookup,
    and assignment `d[k] = v`, which overwrites an existing key in place and
    appends a new one at the end. */
module Dicts {
  import opened Types

  /** The keys of the items. */
  function KeySet<K, V>(d: seq<(K, V)>): set<K>
    decreases |d|
  {
    if |d| == 0 then {} else {d[0].0} + KeySet(d[1..])
  }

  /** No key occurs twice, as in any dict. */
  ghost predicate DistinctKeys<K, V>(d: seq<(K, V)>)
    decreases |d|
  {
    |d| == 0 || (d[0].0 !in KeySet(d[1..]) && DistinctKeys(d[1..]))
  }

  /** `d.get(k)` */
  function Get<K(==), V>(d: seq<(K, V)>, k: K): (r: Option<V>)
    ensures r.Some? <==> k in KeySet(d)
    decreases |d|
  {
    if |d| == 0 then None
    else if d[0].0 == k then Some(d[0].1)
    else Get(d[1..], k)
  }

  /** `d[k] = v`: afterwards `k` maps to `v`, every other key keeps its value,
      and the keys are the old ones plus `k`. */
  function Put<K(==,!new), V>(d: seq<(K, V)>, k: K, v: V): (r: seq<(K, V)>)
    ensures Get(r, k) == Some(v)
    ensures forall k' :: k' != k ==> Get(r, k') == Get(d, k')
    ensures KeySet(r) == KeySet(d) + {k}
    decreases |d|
  {
    if |d| == 0 then [(k, v)]
    else if d[0].0 == k then
      var r := [(k, v)] + d[1..];
      assert r[1..] == d[1..];
      r
    else
      var r := [d[0]] + Put(d[1..], k, v);
      assert r[1..] == Put(d[1..], k, v);
      r
  }

  /** Assigning a new key appends it; assigning an existing key keeps the length. */
  lemma {:induction false} PutShape<K(!new), V>(d: seq<(K, V)>, k: K, v: V)
    ensures k !in KeySet(d) ==> Put(d, k, v) == d + [(k, v)]
    ensures k in KeySet(d) ==> |Put(d, k, v)| == |d|
    decreases |d|
  {
    if |d| > 0 && d[0].0 != k {
      PutShape(d[1..], k, v);
      assert d == [d[0]] + d[1..];
    }
  }

  /** Assignment never duplicates a key. */
  lemma {:induction false} PutDistinct<K(!new), V>(d: seq<(K, V)>, k: K, v: V)
    requires DistinctKeys(d)
    ensures DistinctKeys(Put(d, k, v))
    decreases |d|
  {
    if |d| > 0 {
      var r := Put(d, k, v);
      if d[0].0 == k {
        assert r[1..] == d[1..];
      } else {
        PutDistinct(d[1..], k, v);
        assert r[1..] == Put(d[1..], k, v);
      }
    }
  }

  /** The recursive membership agrees with indexing. */
  lemma {:induction false} KeySetIndex<K, V>(d: seq<(K, V)>, k: K)
    ensures k in KeySet(d) <==> exists i :: 0 <= i < |d| && d[i].0 == k
    decreases |d|
  {
    if |d| > 0 {
      KeySetIndex(d[1..], k);
      if k in KeySet(d[1..]) {
        var i :| 0 <= i < |d[1..]| && d[1..][i].0 == k;
        assert d[i + 1] == d[1..][i];
      }
      if exists i :: 0 <= i < |d| && d[i].0 == k {
        var i :| 0 <= i < |d| && d[i].0 == k;
        if i > 0 { assert d[1..][i - 1] == d[i]; }
      }
    }
  }

  /** Distinct keys, stated by positions. */
  lemma {:induction false} DistinctKeysIndex<K, V>(d: seq<(K, V)>)
    requires DistinctKeys(d)
    ensures forall i, j :: 0 <= i < j < |d| ==> d[i].0 != d[j].0
    decreases |d|
  {
    if |d| > 0 {
      DistinctKeysIndex(d[1..]);
      forall j | 0 < j < |d| ensures d[0].0 != d[j].0 {
        assert d[1..][j - 1] == d[j];
        KeySetIndex(d[1..], d[j].0);
      }
      forall i, j | 0 < i < j < |d| ensures d[i].0 != d[j].0 {
        assert d[1..][i - 1] == d[i] && d[1..][j - 1] == d[j];
      }
    }
  }

  /** In a dict without duplicate keys, every item is what its key looks up. */
  lemma {:induction false} GetItem<K, V>(d: seq<(K, V)>, i: nat)
    requires DistinctKeys(d)
    requires i < |d|
    ensures Get(d, d[i].0) == Some(d[i].1)
    decreases |d|
  {
    if i > 0 {
      assert d[1..][i - 1] == d[i];
      KeySetIndex(d[1..], d[i].0);
      GetItem(d[1..], i - 1);
    }
  }
}
