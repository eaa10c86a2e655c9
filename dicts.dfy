/** A Python `dict` with string keys, with its insertion order: a sequence of
    key/value pairs with distinct keys. Assigning to an existing key replaces its value
    in place; a new key goes to the end. The order matters to the model wherever the
    source iterates over `dict.items()`. */
module Dicts {
  import opened Wrappers

  type Dict<V> = seq<(string, V)>

  predicate HasKey<V>(d: Dict<V>, k: string) {
    exists i :: 0 <= i < |d| && d[i].0 == k
  }

  predicate DistinctKeys<V>(d: Dict<V>) {
    forall i, j :: 0 <= i < j < |d| ==> d[i].0 != d[j].0
  }

  /** `d.get(k)`: the value stored under `k`, if any. */
  function Get<V>(d: Dict<V>, k: string): (r: Option<V>)
    ensures r.Some? <==> HasKey(d, k)
    ensures DistinctKeys(d) ==> forall i :: 0 <= i < |d| && d[i].0 == k ==> r == Some(d[i].1)
  {
    if |d| == 0 then None
    else if d[0].0 == k then Some(d[0].1)
    else
      var r := Get(d[1..], k);
      assert forall i :: 1 <= i < |d| ==> d[i] == d[1..][i - 1];
      assert HasKey(d[1..], k) ==> HasKey(d, k);
      r
  }

  /** Looking up in a dictionary with one more pair in front. */
  lemma GetCons<V>(x: (string, V), rest: Dict<V>)
    ensures forall k :: Get([x] + rest, k) == if x.0 == k then Some(x.1) else Get(rest, k)
  {
    assert ([x] + rest)[1..] == rest;
  }

  lemma DistinctCons<V>(x: (string, V), rest: Dict<V>)
    requires DistinctKeys(rest) && !HasKey(rest, x.0)
    ensures DistinctKeys([x] + rest)
  {
    var r := [x] + rest;
    forall i, j | 0 <= i < j < |r|
      ensures r[i].0 != r[j].0
    {
      assert r[j] == rest[j - 1];
      if i > 0 {
        assert r[i] == rest[i - 1];
      }
    }
  }

  lemma TailKeys<V>(d: Dict<V>)
    requires |d| > 0
    ensures forall k :: HasKey(d, k) <==> d[0].0 == k || HasKey(d[1..], k)
    ensures DistinctKeys(d) ==> DistinctKeys(d[1..]) && !HasKey(d[1..], d[0].0)
  {
    assert forall i :: 1 <= i < |d| ==> d[i] == d[1..][i - 1];
  }

  /** `d[k] = v`. */
  function Put<V(==)>(d: Dict<V>, k: string, v: V): (r: Dict<V>)
    ensures DistinctKeys(d) ==> DistinctKeys(r)
    ensures Get(r, k) == Some(v)
    ensures forall k' :: k' != k ==> Get(r, k') == Get(d, k')
    ensures |r| == if HasKey(d, k) then |d| else |d| + 1
    ensures forall i :: 0 <= i < |r| ==> r[i] == (k, v) || r[i] in d
  {
    if |d| == 0 then [(k, v)]
    else if d[0].0 == k then
      TailKeys(d);
      GetCons((k, v), d[1..]);
      assert d == [d[0]] + d[1..];
      GetCons(d[0], d[1..]);
      if DistinctKeys(d) then DistinctCons((k, v), d[1..]); [(k, v)] + d[1..]
      else [(k, v)] + d[1..]
    else
      var rest := Put(d[1..], k, v);
      TailKeys(d);
      GetCons(d[0], rest);
      assert d == [d[0]] + d[1..];
      GetCons(d[0], d[1..]);
      if DistinctKeys(d) then DistinctCons(d[0], rest); [d[0]] + rest
      else [d[0]] + rest
  }
}
