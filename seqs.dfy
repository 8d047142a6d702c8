/**
 * Sequence operations the JavaScript code performs on arrays and on
 * insertion-ordered `Set`s: adding to a `Set`, `Array.from(set)`,
 * `filter(x => x !== y)`, `reverse()` and summing.
 */
module Seqs {

  /** No element occurs twice: what `Array.from` of a `Set` always yields. */
  ghost predicate NoDup<T>(s: seq<T>) {
    forall i, j :: 0 <= i < j < |s| ==> s[i] != s[j]
  }

  /** `set.add(x)` on an insertion-ordered set held as a sequence. */
  function Add<T(==)>(acc: seq<T>, x: T): (r: seq<T>)
    ensures NoDup(acc) ==> NoDup(r)
    ensures x in r && forall i :: 0 <= i < |r| ==> r[i] in acc || r[i] == x
    ensures |acc| <= |r| && r[..|acc|] == acc
  {
    if x in acc then acc else acc + [x]
  }

  /** Adds every element of `xs`, left to right, as a `forEach(x => set.add(x))` does. */
  function AddAll<T(==)>(acc: seq<T>, xs: seq<T>): (r: seq<T>)
    ensures NoDup(acc) ==> NoDup(r)
    ensures |acc| <= |r| && r[..|acc|] == acc
    decreases |xs|
  {
    if xs == [] then acc else AddAll(Add(acc, xs[0]), xs[1..])
  }

  /** After adding `xs` to `acc`, exactly the elements of both are present. */
  lemma {:induction false} AddAllMembers<T>(acc: seq<T>, xs: seq<T>, x: T)
    ensures x in AddAll(acc, xs) <==> x in acc || x in xs
    decreases |xs|
  {
    if xs != [] {
      AddAllMembers(Add(acc, xs[0]), xs[1..], x);
      assert xs == [xs[0]] + xs[1..];
    }
  }

  /** `Array.from(new Set(xs))`: the elements of `xs`, each at its first occurrence. */
  function Dedup<T(==)>(xs: seq<T>): (r: seq<T>)
    ensures NoDup(r)
  {
    AddAll([], xs)
  }

  /** Adding elements none of which is present, and none twice, appends them. */
  lemma {:induction false} AddAllFresh<T>(acc: seq<T>, xs: seq<T>)
    requires NoDup(acc + xs)
    ensures AddAll(acc, xs) == acc + xs
    decreases |xs|
  {
    if xs != [] {
      var s := acc + xs;
      assert xs[0] !in acc by {
        forall i | 0 <= i < |acc| ensures acc[i] != xs[0] {
          assert s[i] == acc[i] && s[|acc|] == xs[0];
        }
      }
      assert Add(acc, xs[0]) + xs[1..] == s;
      AddAllFresh(Add(acc, xs[0]), xs[1..]);
    }
  }

  /** A sequence without repeats is its own `Dedup`. */
  lemma DedupFresh<T>(xs: seq<T>)
    requires NoDup(xs)
    ensures Dedup(xs) == xs
  {
    assert [] + xs == xs;
    AddAllFresh([], xs);
  }

  /** An element is in `Dedup(xs)` exactly when it is in `xs`. */
  lemma DedupMembers<T>(xs: seq<T>, x: T)
    ensures x in Dedup(xs) <==> x in xs
  {
    AddAllMembers([], xs, x);
  }

  /** Adding a concatenation is adding its parts in turn. */
  lemma {:induction false} AddAllAppend<T>(acc: seq<T>, s: seq<T>, t: seq<T>)
    ensures AddAll(acc, s + t) == AddAll(AddAll(acc, s), t)
    decreases |s|
  {
    if s == [] {
      assert s + t == t;
    } else {
      assert (s + t)[0] == s[0];
      assert (s + t)[1..] == s[1..] + t;
      AddAllAppend(Add(acc, s[0]), s[1..], t);
    }
  }

  /** Adding one more element after a run of additions. */
  lemma AddAllSnoc<T>(acc: seq<T>, xs: seq<T>, x: T)
    ensures AddAll(acc, xs + [x]) == Add(AddAll(acc, xs), x)
  {
    AddAllAppend(acc, xs, [x]);
    assert [x][1..] == [];
  }

  /** Repeating an element already present in a sequence without repeats leaves its `Dedup` unchanged. */
  lemma DedupRepeat<T>(xs: seq<T>, x: T)
    requires NoDup(xs) && x in xs
    ensures Dedup(xs + [x]) == xs
  {
    DedupFresh(xs);
    AddAllSnoc([], xs, x);
  }

  /** Adding elements that are already present changes nothing. */
  lemma {:induction false} AddAllPresent<T>(acc: seq<T>, xs: seq<T>)
    requires forall y :: y in xs ==> y in acc
    ensures AddAll(acc, xs) == acc
    decreases |xs|
  {
    if xs != [] {
      assert xs[0] in xs;
      forall y | y in xs[1..] ensures y in acc {
        assert y in xs;
      }
      AddAllPresent(acc, xs[1..]);
    }
  }

  /** Adding a deduplicated sequence is the same as adding the sequence itself. */
  lemma {:induction false} AddAllDedup<T>(acc: seq<T>, xs: seq<T>)
    ensures AddAll(acc, Dedup(xs)) == AddAll(acc, xs)
    decreases |xs|
  {
    if xs != [] {
      var init, x := xs[..|xs| - 1], xs[|xs| - 1];
      assert xs == init + [x];
      AddAllDedup(acc, init);
      var d, added := Dedup(init), AddAll(acc, init);
      AddAllSnoc([], init, x);
      AddAllSnoc(acc, init, x);
      assert Dedup(xs) == Add(d, x);
      assert AddAll(acc, xs) == Add(added, x);
      DedupMembers(init, x);
      AddAllMembers(acc, init, x);
      if x in init {
        assert Add(d, x) == d && Add(added, x) == added;
      } else {
        assert Add(d, x) == d + [x];
        AddAllSnoc(acc, d, x);
      }
    }
  }

  /** `s.filter(y => y !== x)`: every occurrence of `x` removed, the rest kept in order. */
  function RemoveAll<T(==)>(s: seq<T>, x: T): (r: seq<T>)
    ensures x !in r
    ensures x !in s ==> r == s
    ensures |r| <= |s|
  {
    if s == [] then []
    else
      assert s == [s[0]] + s[1..];
      if s[0] == x then RemoveAll(s[1..], x) else [s[0]] + RemoveAll(s[1..], x)
  }

  /** Filtering keeps exactly the elements other than `x`. */
  lemma {:induction false} RemoveAllMembers<T>(s: seq<T>, x: T, y: T)
    ensures y in RemoveAll(s, x) <==> y in s && y != x
    decreases |s|
  {
    if s != [] {
      assert s == [s[0]] + s[1..];
      RemoveAllMembers(s[1..], x, y);
    }
  }

  /** Filtering distributes over concatenation, so the kept elements stay in order. */
  lemma {:induction false} RemoveAllAppend<T>(a: seq<T>, b: seq<T>, x: T)
    ensures RemoveAll(a + b, x) == RemoveAll(a, x) + RemoveAll(b, x)
    decreases |a|
  {
    if a == [] {
      assert a + b == b;
    } else {
      assert (a + b)[0] == a[0];
      assert (a + b)[1..] == a[1..] + b;
      RemoveAllAppend(a[1..], b, x);
    }
  }

  /** A sequence with a head is duplicate-free iff its tail is and does not hold the head. */
  lemma NoDupCons<T>(h: T, t: seq<T>)
    ensures NoDup([h] + t) <==> h !in t && NoDup(t)
  {
    var s := [h] + t;
    if h !in t && NoDup(t) {
      forall i, j | 0 <= i < j < |s| ensures s[i] != s[j] {
        assert s[j] == t[j - 1];
        if i > 0 {
          assert s[i] == t[i - 1];
        }
      }
    }
    if NoDup(s) {
      forall i, j | 0 <= i < j < |t| ensures t[i] != t[j] {
        assert t[i] == s[i + 1] && t[j] == s[j + 1];
      }
      forall k | 0 <= k < |t| ensures t[k] != h {
        assert t[k] == s[k + 1] && h == s[0] && 0 < k + 1;
      }
    }
  }

  /** Removing an element that occurs exactly once shortens the sequence by one. */
  lemma {:induction false} RemoveAllNoDup<T>(s: seq<T>, x: T)
    requires NoDup(s)
    ensures NoDup(RemoveAll(s, x))
    ensures x in s ==> |RemoveAll(s, x)| == |s| - 1
    decreases |s|
  {
    if s != [] {
      var h, t := s[0], s[1..];
      assert s == [h] + t;
      NoDupCons(h, t);
      RemoveAllNoDup(t, x);
      var rest := RemoveAll(t, x);
      if h == x {
        assert RemoveAll(s, x) == rest == t;
      } else {
        assert RemoveAll(s, x) == [h] + rest;
        RemoveAllMembers(t, x, h);
        NoDupCons(h, rest);
      }
    }
  }

  /** Removing the first element of a duplicate-free sequence drops its head. */
  lemma RemoveAllHead<T>(s: seq<T>)
    requires NoDup(s) && s != []
    ensures RemoveAll(s, s[0]) == s[1..]
  {
    assert s == [s[0]] + s[1..];
    NoDupCons(s[0], s[1..]);
  }

  /** `s.slice().reverse()`. */
  function Reverse<T>(s: seq<T>): (r: seq<T>)
    ensures |r| == |s|
    ensures forall i :: 0 <= i < |s| ==> r[i] == s[|s| - 1 - i]
  {
    if s == [] then [] else Reverse(s[1..]) + [s[0]]
  }

  /** Reversing a concatenation reverses the order of the parts. */
  lemma ReverseAppend<T>(a: seq<T>, b: seq<T>)
    ensures Reverse(a + b) == Reverse(b) + Reverse(a)
  {
    assert |Reverse(a + b)| == |Reverse(b) + Reverse(a)|;
    forall i | 0 <= i < |a + b| ensures Reverse(a + b)[i] == (Reverse(b) + Reverse(a))[i] {
      if i < |b| {
        assert (Reverse(b) + Reverse(a))[i] == Reverse(b)[i];
      } else {
        assert (Reverse(b) + Reverse(a))[i] == Reverse(a)[i - |b|];
      }
    }
  }

  /** The sum of a sequence of integers. */
  function Sum(xs: seq<int>): int {
    if xs == [] then 0 else xs[0] + Sum(xs[1..])
  }

  /** Summing a concatenation is summing its parts. */
  lemma {:induction false} SumAppend(a: seq<int>, b: seq<int>)
    ensures Sum(a + b) == Sum(a) + Sum(b)
    decreases |a|
  {
    if a == [] {
      assert a + b == b;
    } else {
      assert (a + b)[1..] == a[1..] + b;
      SumAppend(a[1..], b);
    }
  }

  /** A prefix one longer is the prefix and the next element. */
  lemma TakeSnoc<T>(s: seq<T>, i: nat)
    requires i < |s|
    ensures s[..i + 1] == s[..i] + [s[i]]
  {
  }

  /** The prefix as long as the sequence is the sequence. */
  lemma TakeAll<T>(s: seq<T>)
    ensures s[..|s|] == s
  {
  }

  /** Concatenation regroups. */
  lemma Assoc<T>(a: seq<T>, b: seq<T>, c: seq<T>)
    ensures a + (b + c) == a + b + c
  {
  }
}
