/** Mapping over a sequence and finding the first position of a key, with the facts the loops need. */
module Sequences {
  import opened Wrappers

  /** `f` applied to every element, in order. */
  function MapSeq<A, B>(f: A -> B, xs: seq<A>): (ys: seq<B>)
    ensures |ys| == |xs|
    ensures forall i :: 0 <= i < |xs| ==> ys[i] == f(xs[i])
  {
    seq(|xs|, i requires 0 <= i < |xs| => f(xs[i]))
  }

  lemma MapSeqAppend<A, B>(f: A -> B, xs: seq<A>, ys: seq<A>)
    ensures MapSeq(f, xs + ys) == MapSeq(f, xs) + MapSeq(f, ys)
  {
    assert forall i :: 0 <= i < |ys| ==> (xs + ys)[|xs| + i] == ys[i];
  }

  lemma MapSeqTake<A, B>(f: A -> B, xs: seq<A>, n: nat)
    requires n <= |xs|
    ensures MapSeq(f, xs[..n]) == MapSeq(f, xs)[..n]
  {
  }

  lemma MapSeqPrefix<A, B>(f: A -> B, xs: seq<A>, ys: seq<A>)
    requires xs <= ys
    ensures MapSeq(f, xs) <= MapSeq(f, ys)
  {
    assert MapSeq(f, xs) == MapSeq(f, ys)[..|xs|];
  }

  /** Inside a prefix `done + xs` of `whole`, position `|done| + j` holds `xs[j]`. */
  lemma PrefixIndex<T>(whole: seq<T>, done: seq<T>, xs: seq<T>, j: nat)
    requires done + xs <= whole && j < |xs|
    ensures |done| + j < |whole|
    ensures whole[..|done| + j] == done + xs[..j]
    ensures whole[|done| + j] == xs[j]
  {
    assert whole[..|done| + j] == (done + xs)[..|done| + j];
    assert (done + xs)[..|done| + j] == done + xs[..j];
    assert whole[|done| + j] == (done + xs)[|done| + j];
  }

  /** A key absent from the keys of `done + xs[..j]` and not the key of `xs[j]` is absent from those of `done + xs[..j + 1]`. */
  lemma AbsentSnoc<T, K>(name: T -> K, done: seq<T>, xs: seq<T>, j: nat, key: K)
    requires j < |xs| && key !in MapSeq(name, done + xs[..j]) && name(xs[j]) != key
    ensures key !in MapSeq(name, done + xs[..j + 1])
  {
    assert done + xs[..j + 1] == (done + xs[..j]) + [xs[j]];
    MapSeqAppend(name, done + xs[..j], [xs[j]]);
  }

  /** The first position at which `key` occurs in `keys`. */
  function FirstIndex<K(==)>(keys: seq<K>, key: K): (r: Option<nat>)
    ensures r.Some? ==> r.value < |keys| && keys[r.value] == key && key !in keys[..r.value]
    ensures r.None? <==> key !in keys
  {
    if keys == [] then None
    else if keys[0] == key then Some(0)
    else
      var rest := FirstIndex(keys[1..], key);
      if rest.None? then
        assert keys == [keys[0]] + keys[1..];
        None
      else
        assert keys[..rest.value + 1] == [keys[0]] + keys[1..][..rest.value];
        Some(rest.value + 1)
  }

  /** An occurrence with none before it is the first one. */
  lemma FirstIndexAt<K>(keys: seq<K>, key: K, k: nat)
    requires k < |keys| && keys[k] == key && key !in keys[..k]
    ensures FirstIndex(keys, key) == Some(k)
  {
    var r := FirstIndex(keys, key);
    assert keys[k] in keys;
    assert forall i :: 0 <= i < r.value ==> keys[..r.value][i] == keys[i];
    assert forall i :: 0 <= i < k ==> keys[..k][i] == keys[i];
  }

  /** A scan over `done` and then `xs` that meets `key` first at `xs[j]` has found its first occurrence in `whole`. */
  lemma FirstIndexAfter<K>(whole: seq<K>, done: seq<K>, xs: seq<K>, j: nat, key: K)
    requires done + xs <= whole && j < |xs|
    requires key !in done + xs[..j] && xs[j] == key
    ensures FirstIndex(whole, key) == Some(|done| + j)
  {
    PrefixIndex(whole, done, xs, j);
    FirstIndexAt(whole, key, |done| + j);
  }

  /** The same, for the keys `name` gives the elements: a scan that meets `key` first at `xs[j]`. */
  lemma FirstIndexAfterMap<T, K>(name: T -> K, whole: seq<T>, done: seq<T>, xs: seq<T>, j: nat, key: K)
    requires done + xs <= whole && j < |xs|
    requires key !in MapSeq(name, done + xs[..j]) && name(xs[j]) == key
    ensures FirstIndex(MapSeq(name, whole), key) == Some(|done| + j)
    ensures |done| + j < |whole| && whole[|done| + j] == xs[j]
  {
    PrefixIndex(whole, done, xs, j);
    MapSeqAppend(name, done, xs);
    MapSeqPrefix(name, done + xs, whole);
    MapSeqAppend(name, done, xs[..j]);
    MapSeqTake(name, xs, j);
    FirstIndexAfter(MapSeq(name, whole), MapSeq(name, done), MapSeq(name, xs), j, key);
  }

  /** The first element of `xs` whose key under `name` is `key`. */
  function FindFirst<T, K(==)>(name: T -> K, xs: seq<T>, key: K): (r: Option<T>)
  {
    match FirstIndex(MapSeq(name, xs), key)
    case None => None
    case Some(k) => Some(xs[k])
  }

  lemma FindFirstAfter<T, K>(name: T -> K, whole: seq<T>, done: seq<T>, xs: seq<T>, j: nat, key: K)
    requires done + xs <= whole && j < |xs|
    requires key !in MapSeq(name, done + xs[..j]) && name(xs[j]) == key
    ensures FindFirst(name, whole, key) == Some(xs[j])
  {
    FirstIndexAfterMap(name, whole, done, xs, j, key);
  }
}
