/**
 * Insertion-ordered maps, as `LinkedHashMap` keeps them: a list of entries in the
 * order their keys were first put.
 */
module LinkedMaps {
  import opened Wrappers

  type LinkedMap<K, V> = seq<(K, V)>

  /** The keys in insertion order. */
  function Keys<K, V>(m: LinkedMap<K, V>): (ks: seq<K>)
    ensures |ks| == |m|
    ensures forall i :: 0 <= i < |m| ==> ks[i] == m[i].0
  {
    if m == [] then [] else [m[0].0] + Keys(m[1..])
  }

  /** `get`: the value of the first entry with key k. */
  function Get<K(==), V>(m: LinkedMap<K, V>, k: K): (r: Option<V>)
    ensures r.Some? <==> k in Keys(m)
  {
    if m == [] then None else if m[0].0 == k then Some(m[0].1) else Get(m[1..], k)
  }

  /**
   * `put`: a key already present keeps its place and gets the new value; a new
   * key is appended at the end.
   */
  function Put<K(==,!new), V>(m: LinkedMap<K, V>, k: K, v: V): (r: LinkedMap<K, V>)
    ensures Get(r, k) == Some(v)
    ensures forall k' :: k' != k ==> Get(r, k') == Get(m, k')
    ensures Keys(r) == if k in Keys(m) then Keys(m) else Keys(m) + [k]
  {
    if m == [] then [(k, v)]
    else if m[0].0 == k then
      assert Keys([(k, v)] + m[1..]) == [k] + Keys(m[1..]);
      [(k, v)] + m[1..]
    else
      var rest := Put(m[1..], k, v);
      var r := [m[0]] + rest;
      assert r[0] == m[0] && r[1..] == rest;
      r
  }

  /** The value `Get` finds is that of the first entry whose key is k. */
  lemma GetFindsFirstEntry<K, V>(m: LinkedMap<K, V>, k: K)
    ensures Get(m, k).Some? ==>
      exists i :: 0 <= i < |m| && m[i] == (k, Get(m, k).value) && k !in Keys(m[..i])
  {
    if Get(m, k).Some? {
      var i := FirstEntryIndex(m, k);
    }
  }

  /** The index of the entry `Get` reads: the first one whose key is k. */
  lemma {:induction false} FirstEntryIndex<K, V>(m: LinkedMap<K, V>, k: K) returns (i: nat)
    requires Get(m, k).Some?
    ensures i < |m| && m[i] == (k, Get(m, k).value) && k !in Keys(m[..i])
  {
    if m[0].0 == k {
      i := 0;
      assert m[..0] == [];
    } else {
      var j := FirstEntryIndex(m[1..], k);
      i := j + 1;
      assert m[..i] == [m[0]] + m[1..][..j];
      assert Keys(m[..i]) == [m[0].0] + Keys(m[1..][..j]);
    }
  }
}
