/**
 * Insertion-ordered dictionaries: a JavaScript object with string keys or a Python `dict`.
 * Assigning to a key that is already present replaces its value and keeps its position;
 * a new key goes to the end. Iteration (`Object.keys`, `Object.entries`, `dict.items()`)
 * follows the entry order.
 */
module Dicts {
  import opened Wrappers
  import opened Ordering

  type Dict<K, V> = seq<(K, V)>

  function Keys<K, V>(d: Dict<K, V>): (r: seq<K>)
    ensures |r| == |d|
    ensures forall i :: 0 <= i < |d| ==> r[i] == d[i].0
  {
    seq(|d|, i requires 0 <= i < |d| => d[i].0)
  }

  predicate DistinctKeys<K(==), V>(d: Dict<K, V>) {
    Distinct(Keys(d))
  }

  /** The position of the first entry whose key is `k`. */
  function FindKey<K(==), V>(d: Dict<K, V>, k: K): (r: Option<nat>)
    ensures r.None? <==> k !in Keys(d)
    ensures r.Some? ==> r.value < |d| && d[r.value].0 == k && forall j :: 0 <= j < r.value ==> d[j].0 != k
  {
    if |d| == 0 then None
    else if d[0].0 == k then Some(0)
    else
      assert Keys(d) == [d[0].0] + Keys(d[1..]);
      match FindKey(d[1..], k)
      case None => None
      case Some(i) => Some(i + 1)
  }

  /** `d[k]` / `d.get(k)`: the value of the first entry whose key is `k`. */
  function Get<K(==), V>(d: Dict<K, V>, k: K): (r: Option<V>)
    ensures r.None? <==> k !in Keys(d)
    ensures r.Some? ==> exists i :: 0 <= i < |d| && d[i].0 == k && d[i].1 == r.value && forall j :: 0 <= j < i ==> d[j].0 != k
  {
    match FindKey(d, k)
    case None => None
    case Some(i) => Some(d[i].1)
  }

  lemma GetAt<K, V>(d: Dict<K, V>, i: nat)
    requires DistinctKeys(d) && i < |d|
    ensures Get(d, d[i].0) == Some(d[i].1)
  {
    var k := d[i].0;
    assert k in Keys(d);
    var j := FindKey(d, k).value;
    assert Keys(d)[i] == Keys(d)[j];
  }

  /** `d[k] = v` on an insertion-ordered dictionary. */
  function Put<K(==), V>(d: Dict<K, V>, k: K, v: V): (r: Dict<K, V>)
    ensures Keys(r) == if k in Keys(d) then Keys(d) else Keys(d) + [k]
  {
    match FindKey(d, k)
    case Some(i) => d[i := (k, v)]
    case None => d + [(k, v)]
  }

  lemma GetPutSame<K, V>(d: Dict<K, V>, k: K, v: V)
    ensures Get(Put(d, k, v), k) == Some(v)
  {
    var r := Put(d, k, v);
    match FindKey(d, k)
    case Some(i) =>
      assert r[i].0 == k;
      assert forall j :: 0 <= j < i ==> r[j].0 != k;
    case None =>
      assert forall j :: 0 <= j < |d| ==> r[j].0 == Keys(d)[j];
  }

  lemma FindKeyIs<K, V>(d: Dict<K, V>, k: K, i: nat)
    requires i < |d| && d[i].0 == k && forall j :: 0 <= j < i ==> d[j].0 != k
    ensures FindKey(d, k) == Some(i)
  {
    assert k in Keys(d);
  }

  lemma GetPutOther<K, V>(d: Dict<K, V>, k: K, v: V, k': K)
    requires k' != k
    ensures Get(Put(d, k, v), k') == Get(d, k')
  {
    var r := Put(d, k, v);
    assert forall j :: 0 <= j < |d| ==> r[j].0 == d[j].0 && (d[j].0 != k ==> r[j] == d[j]);
    match FindKey(d, k')
    case Some(i) =>
      FindKeyIs(r, k', i);
    case None =>
      assert k' !in Keys(r);
  }

  lemma PutKeepsDistinct<K, V>(d: Dict<K, V>, k: K, v: V)
    requires DistinctKeys(d)
    ensures DistinctKeys(Put(d, k, v))
  {
  }

  /** Every entry after `d[k] = v` is the new entry or an entry of `d`. */
  lemma PutEntries<K, V>(d: Dict<K, V>, k: K, v: V)
    ensures forall e :: e in Put(d, k, v) ==> e == (k, v) || e in d
  {
    match FindKey(d, k)
    case Some(i) =>
      forall e | e in Put(d, k, v) ensures e == (k, v) || e in d {
        var j :| 0 <= j < |Put(d, k, v)| && Put(d, k, v)[j] == e;
        if j != i { assert e == d[j]; }
      }
    case None =>
  }

  /** A looked-up value comes from an entry with that key. */
  lemma GetEntry<K, V>(d: Dict<K, V>, k: K)
    requires k in Keys(d)
    ensures (k, Get(d, k).value) in d
  {
    var i :| 0 <= i < |d| && d[i].0 == k && d[i].1 == Get(d, k).value && forall j :: 0 <= j < i ==> d[j].0 != k;
    assert d[i] == (k, Get(d, k).value);
  }
}
