/**
 * JavaScript's `Map` as an insertion-ordered association list: `set` on a
 * present key replaces the value in place, `set` on a new key appends it,
 * `delete` removes it, and `keys()` enumerates keys in insertion order.
 */
module JsMap {
  import opened Wrappers
  import Seqs

  /** The entries of a `Map`, oldest first. */
  type Entries<K, V> = seq<(K, V)>

  /** `Array.from(m.keys())`. */
  function Keys<K, V>(m: Entries<K, V>): (ks: seq<K>)
    ensures |ks| == |m|
  {
    if m == [] then [] else [m[0].0] + Keys(m[1..])
  }

  /** The key of the i-th entry is the i-th key. */
  lemma {:induction false} KeysAt<K, V>(m: Entries<K, V>, i: nat)
    requires i < |m|
    ensures Keys(m)[i] == m[i].0
  {
    if i > 0 {
      KeysAt(m[1..], i - 1);
    }
  }

  /** The keys of a concatenation are the keys of the parts. */
  lemma {:induction false} KeysAppend<K, V>(m: Entries<K, V>, n: Entries<K, V>)
    ensures Keys(m + n) == Keys(m) + Keys(n)
  {
    if m != [] {
      assert (m + n)[1..] == m[1..] + n;
      KeysAppend(m[1..], n);
    } else {
      assert m + n == n;
    }
  }

  /** Every key occurs once, as in every `Map`. */
  ghost predicate Valid<K, V>(m: Entries<K, V>) {
    Seqs.NoDup(Keys(m))
  }

  /** `m.get(k)`, or `None` where JavaScript yields `undefined` because the key is absent. */
  function Lookup<K(==,!new), V>(m: Entries<K, V>, k: K): (r: Option<V>)
    ensures r.Some? <==> k in Keys(m)
  {
    if m == [] then None else if m[0].0 == k then Some(m[0].1) else Lookup(m[1..], k)
  }

  /** `m.has(k)`. */
  function Has<K(==,!new), V>(m: Entries<K, V>, k: K): bool {
    k in Keys(m)
  }

  /** `m.get(k)` for a present key. */
  function Get<K(==,!new), V>(m: Entries<K, V>, k: K): V
    requires Has(m, k)
  {
    Lookup(m, k).value
  }

  /** `m.set(k, v)`: a present key keeps its position, a new key goes last. */
  function Set<K(==,!new), V>(m: Entries<K, V>, k: K, v: V): (r: Entries<K, V>)
    ensures Keys(r) == if k in Keys(m) then Keys(m) else Keys(m) + [k]
    ensures Lookup(r, k) == Some(v)
    ensures forall j :: j != k ==> Lookup(r, j) == Lookup(m, j)
    ensures Valid(m) ==> Valid(r)
  {
    if m == [] then [(k, v)]
    else if m[0].0 == k then [(k, v)] + m[1..]
    else
      var rest := Set(m[1..], k, v);
      var r := [m[0]] + rest;
      ConsParts(m[0], rest);
      KeysCons(m);
      KeysCons(r);
      assert Valid(m) ==> Valid(r) by {
        if Valid(m) {
          Seqs.NoDupCons(m[0].0, Keys(m[1..]));
          Seqs.NoDupCons(m[0].0, Keys(rest));
        }
      }
      r
  }

  /** `m.delete(k)`: the key and its value are gone, the other entries keep their order. */
  function Delete<K(==,!new), V>(m: Entries<K, V>, k: K): (r: Entries<K, V>)
    ensures Keys(r) == Seqs.RemoveAll(Keys(m), k)
    ensures Lookup(r, k) == None
    ensures forall j :: j != k ==> Lookup(r, j) == Lookup(m, j)
  {
    if m == [] then []
    else
      assert Keys(m) == [m[0].0] + Keys(m[1..]);
      if m[0].0 == k then Delete(m[1..], k)
      else
        var r := [m[0]] + Delete(m[1..], k);
        assert r[1..] == Delete(m[1..], k);
        r
  }

  /** Deleting keeps every key unique, and deleting a present key shrinks the map by one. */
  lemma DeleteValid<K(!new), V>(m: Entries<K, V>, k: K)
    requires Valid(m)
    ensures Valid(Delete(m, k))
    ensures |Delete(m, k)| == if k in Keys(m) then |m| - 1 else |m|
  {
    Seqs.RemoveAllNoDup(Keys(m), k);
  }

  /** `m.set` of a new key is an append. */
  lemma {:induction false} SetNewKey<K(!new), V>(m: Entries<K, V>, k: K, v: V)
    requires k !in Keys(m)
    ensures Set(m, k, v) == m + [(k, v)]
  {
    if m != [] {
      KeysCons(m);
      SetNewKey(m[1..], k, v);
      SetPastHead(m, k, v);
      ConsSnoc(m, (k, v));
    }
  }

  /** The keys of a non-empty map are its first key and the keys of the rest. */
  lemma KeysCons<K, V>(m: Entries<K, V>)
    requires m != []
    ensures Keys(m) == [m[0].0] + Keys(m[1..])
  {
  }

  /** `m.delete` of a key other than the first keeps the first entry. */
  lemma DeletePastHead<K(!new), V>(m: Entries<K, V>, k: K)
    requires m != [] && m[0].0 != k
    ensures Delete(m, k) == [m[0]] + Delete(m[1..], k)
  {
  }

  /** The parts of a sequence built from a first element and a rest. */
  lemma ConsParts<T>(x: T, rest: seq<T>)
    ensures ([x] + rest)[0] == x && ([x] + rest)[1..] == rest
  {
  }

  /** A non-empty sequence is its first element and the rest. */
  lemma Cons<T>(s: seq<T>)
    requires s != []
    ensures [s[0]] + s[1..] == s
  {
  }

  /** Appending after the first element. */
  lemma ConsSnoc<T>(s: seq<T>, x: T)
    requires s != []
    ensures [s[0]] + (s[1..] + [x]) == s + [x]
  {
    assert s == [s[0]] + s[1..];
  }

  /** `m.set` of a key other than the first keeps the first entry. */
  lemma SetPastHead<K(!new), V>(m: Entries<K, V>, k: K, v: V)
    requires m != [] && m[0].0 != k
    ensures Set(m, k, v) == [m[0]] + Set(m[1..], k, v)
  {
  }

  /** `m.delete` of an absent key changes nothing. */
  lemma {:induction false} DeleteAbsent<K(!new), V>(m: Entries<K, V>, k: K)
    requires k !in Keys(m)
    ensures Delete(m, k) == m
  {
    if m != [] {
      KeysCons(m);
      DeleteAbsent(m[1..], k);
      DeletePastHead(m, k);
      Cons(m);
    }
  }

  /** Inserting a new key and then deleting it restores the map exactly. */
  lemma {:induction false} DeleteJustSet<K(!new), V>(m: Entries<K, V>, k: K, v: V)
    requires k !in Keys(m)
    ensures Delete(Set(m, k, v), k) == m
  {
    if m != [] {
      KeysCons(m);
      DeleteJustSet(m[1..], k, v);
      SetPastHead(m, k, v);
      DeletePastHead([m[0]] + Set(m[1..], k, v), k);
      assert ([m[0]] + Set(m[1..], k, v))[1..] == Set(m[1..], k, v);
      Cons(m);
    }
  }

  /** Deleting a present key and setting it again moves it to the back, keeping every value. */
  lemma MoveToBack<K(!new), V>(m: Entries<K, V>, k: K)
    requires Valid(m) && Has(m, k)
    ensures var r := Set(Delete(m, k), k, Get(m, k));
      Valid(r) && |r| == |m| &&
      Keys(r) == Seqs.RemoveAll(Keys(m), k) + [k] &&
      forall j :: Lookup(r, j) == Lookup(m, j)
  {
    DeleteValid(m, k);
  }

  /** Deleting the first key of a map drops its first entry from the key order. */
  lemma DeleteOldest<K(!new), V>(m: Entries<K, V>)
    requires Valid(m) && m != []
    ensures var r := Delete(m, Keys(m)[0]);
      Valid(r) && |r| == |m| - 1 &&
      Keys(r) == Keys(m)[1..]
  {
    Seqs.RemoveAllHead(Keys(m));
    DeleteValid(m, Keys(m)[0]);
  }
}
