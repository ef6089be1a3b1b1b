/**
 The values the plugin manager works on: plugins, the keys of PHP's ordered
 arrays, and the ordered array `$plugs` itself, as a sequence of key/plugin
 entries with PHP's assignment semantics (an existing key is overwritten in
 its slot, a new key is appended).
 */
module Plugins {

  datatype Option<T> = None | Some(value: T)

  /** A registered plugin object. `id` stands for the object's identity (two
      distinct objects may agree on every other field); `cls` is what
      `get_class` returns for it; the two class lists are what its
      `getBeforeClass()` and `getAfterClass()` return. */
  datatype Plugin = Plugin(
    id: nat,
    name: string,
    cls: string,
    beforeClasses: seq<string>,
    afterClasses: seq<string>)

  /** A key of a PHP array: a string key, or the integer key `usort` gives
      every element when it re-indexes the array. */
  datatype Key = NameKey(name: string) | IndexKey(index: nat)

  datatype Entry = Entry(key: Key, plug: Plugin)

  /** One call `receiver->addAfterPlug(after)`: `receiver` is told that it
      must run after `after`. */
  datatype AfterCall = AfterCall(receiver: Plugin, after: Plugin)

  /** The plugins of an ordered array, in array order. */
  function Values(es: seq<Entry>): (ps: seq<Plugin>)
    ensures |ps| == |es|
    ensures forall i :: 0 <= i < |es| ==> ps[i] == es[i].plug
  {
    seq(|es|, i requires 0 <= i < |es| => es[i].plug)
  }

  /** The keys of an ordered array, in array order. */
  function Keys(es: seq<Entry>): (ks: seq<Key>)
    ensures |ks| == |es|
    ensures forall i :: 0 <= i < |es| ==> ks[i] == es[i].key
  {
    seq(|es|, i requires 0 <= i < |es| => es[i].key)
  }

  /** A PHP array never holds the same key twice. */
  ghost predicate KeysDistinct(es: seq<Entry>)
  {
    forall i, j :: 0 <= i < j < |es| ==> es[i].key != es[j].key
  }

  /** The slot that holds key `k`, if any. */
  function Find(es: seq<Entry>, k: Key): (r: Option<nat>)
    ensures r.Some? ==> r.value < |es| && es[r.value].key == k
    ensures r.Some? ==> forall j :: 0 <= j < r.value ==> es[j].key != k
    ensures r.None? ==> forall j :: 0 <= j < |es| ==> es[j].key != k
  {
    if es == [] then None
    else if es[0].key == k then Some(0)
    else match Find(es[1..], k)
      case Some(i) => Some(i + 1)
      case None => None
  }

  /** `$array[$k] ?? null` */
  function Lookup(es: seq<Entry>, k: Key): Option<Plugin>
  {
    match Find(es, k)
    case Some(i) => Some(es[i].plug)
    case None => None
  }

  /** `$array[$k] = $v`: overwrite the value in the slot of `k`, or append a
      new slot when `k` is absent. */
  function Put(es: seq<Entry>, k: Key, v: Plugin): seq<Entry>
  {
    match Find(es, k)
    case Some(i) => es[i := Entry(k, v)]
    case None => es + [Entry(k, v)]
  }

  /** The array `usort` leaves: the plugins of `s` in that order, under the
      keys 0, 1, ... */
  function Reindexed(s: seq<Plugin>): (es: seq<Entry>)
    ensures Values(es) == s
    ensures forall i :: 0 <= i < |es| ==> es[i].key == IndexKey(i)
    ensures KeysDistinct(es)
  {
    seq(|s|, i requires 0 <= i < |s| => Entry(IndexKey(i), s[i]))
  }

  lemma AppendAssoc<T>(a: seq<T>, b: seq<T>, c: seq<T>, d: seq<T>)
    ensures a + b + c + d == a + (b + c + d)
  {
  }

  /** Last write wins: after the assignment the key holds the new value. */
  lemma PutLastWriteWins(es: seq<Entry>, k: Key, v: Plugin)
    ensures Lookup(Put(es, k, v), k) == Some(v)
  {
    match Find(es, k)
    case Some(i) =>
      var r := Put(es, k, v);
      assert forall j :: 0 <= j < i ==> r[j].key == es[j].key;
      assert r[i] == Entry(k, v);
    case None =>
      var r := Put(es, k, v);
      assert forall j :: 0 <= j < |es| ==> r[j].key == es[j].key;
      assert r[|es|] == Entry(k, v);
  }

  /** Every other key keeps its value. */
  lemma PutKeepsOtherKeys(es: seq<Entry>, k: Key, v: Plugin, other: Key)
    requires other != k
    ensures Lookup(Put(es, k, v), other) == Lookup(es, other)
  {
    var r := Put(es, k, v);
    assert Keys(r) == Keys(es) || Keys(r) == Keys(es) + [k];
    assert forall j :: 0 <= j < |es| && es[j].key != k ==> r[j] == es[j];
    match Find(es, other)
    case Some(i) =>
      assert r[i] == es[i];
    case None =>
  }

  /** The array's key order: an overwritten key keeps its original slot, a
      new key goes last; the array stays free of duplicate keys. */
  lemma PutKeepsSlots(es: seq<Entry>, k: Key, v: Plugin)
    ensures Keys(Put(es, k, v)) == if k in Keys(es) then Keys(es) else Keys(es) + [k]
    ensures KeysDistinct(es) ==> KeysDistinct(Put(es, k, v))
  {
    var r := Put(es, k, v);
    match Find(es, k)
    case Some(i) =>
      assert Keys(es)[i] == k;
      assert Keys(r) == Keys(es);
    case None =>
      assert k !in Keys(es);
      assert Keys(r) == Keys(es) + [k];
  }
}
