/** A Python `dict` as the sequence of its (key, value) entries in insertion order. */
module OrderedDict {
  import opened Wrappers

  /** `d.keys()`, in order. */
  function Keys<K, V>(d: seq<(K, V)>): (ks: seq<K>)
    ensures |ks| == |d|
    ensures forall i :: 0 <= i < |d| ==> ks[i] == d[i].0
  {
    if |d| == 0 then [] else [d[0].0] + Keys(d[1..])
  }

  /** `list(d.values())`, in order. */
  function Values<K, V>(d: seq<(K, V)>): (vs: seq<V>)
    ensures |vs| == |d|
    ensures forall i :: 0 <= i < |d| ==> vs[i] == d[i].1
  {
    if |d| == 0 then [] else [d[0].1] + Values(d[1..])
  }

  /** No key occurs twice: what every Python dict satisfies. */
  predicate DistinctKeys<K(==), V>(d: seq<(K, V)>) {
    forall i, j :: 0 <= i < j < |d| ==> d[i].0 != d[j].0
  }

  /** `d.get(k)` */
  function Get<K(==), V(==)>(d: seq<(K, V)>, k: K): (r: Option<V>)
    ensures r.None? <==> k !in Keys(d)
    ensures r.Some? ==> exists i :: 0 <= i < |d| && d[i] == (k, r.value)
  {
    if |d| == 0 then None
    else if d[0].0 == k then Some(d[0].1)
    else
      var r := Get(d[1..], k);
      assert r.Some? ==> exists i :: 0 <= i < |d| - 1 && d[1..][i] == (k, r.value);
      r
  }

  /** `d[k] = v`: a new key is appended; an existing key keeps its place and gets
      the new value (`PutKeepsOthers` adds that the other entries stay as they were). */
  function Put<K(==), V(==)>(d: seq<(K, V)>, k: K, v: V): (r: seq<(K, V)>)
    ensures k !in Keys(d) ==> r == d + [(k, v)]
    ensures k in Keys(d) ==> Keys(r) == Keys(d)
    ensures Get(r, k) == Some(v)
  {
    if |d| == 0 then [(k, v)]
    else if d[0].0 == k then [(k, v)] + d[1..]
    else
      var rest := Put(d[1..], k, v);
      assert Keys(d) == [d[0].0] + Keys(d[1..]);
      assert Keys([d[0]] + rest) == [d[0].0] + Keys(rest);
      [d[0]] + rest
  }

  /** Assigning to an existing key leaves every entry under another key unchanged. */
  lemma {:induction false} PutKeepsOthers<K, V>(d: seq<(K, V)>, k: K, v: V)
    ensures k in Keys(d) ==> |Put(d, k, v)| == |d|
    ensures k in Keys(d) ==> forall i :: 0 <= i < |d| && d[i].0 != k ==> Put(d, k, v)[i] == d[i]
  {
    if |d| > 0 && d[0].0 != k {
      PutKeepsOthers(d[1..], k, v);
      var rest := Put(d[1..], k, v);
      assert Put(d, k, v) == [d[0]] + rest;
      if k in Keys(d) {
        assert k in Keys(d[1..]) by { assert Keys(d) == [d[0].0] + Keys(d[1..]); }
        forall i | 0 <= i < |d| && d[i].0 != k
          ensures Put(d, k, v)[i] == d[i]
        {
          if i > 0 {
            assert d[1..][i - 1] == d[i];
          }
        }
      }
    }
  }
}
