/**
 * The sorting strategies of `10_exercises/08_exercise.js`: bubble sort
 * swapping inside a copy of its input, merge sort with a `shift`/`push`
 * merge loop, quick sort partitioning around the last element, and the
 * `Sorter` context that delegates to whichever strategy it currently holds.
 * Arrays are of numbers compared with `<` and `>`, modelled as `int`.
 */
module Sorting {
  import opened Wrappers

  /** Ascending order. */
  ghost predicate Sorted(s: seq<int>) {
    forall a, b :: 0 <= a < b < |s| ==> s[a] <= s[b]
  }

  /** Exchanging two positions keeps the same elements. */
  lemma SwapKeepsElements(s: seq<int>, i: nat, j: nat)
    requires i < |s| && j < |s|
    ensures multiset(s[i := s[j]][j := s[i]]) == multiset(s)
  {
  }

  /** The elements from position `lo` on are in ascending order. */
  ghost predicate SortedFrom(s: seq<int>, lo: nat) {
    forall a, b :: lo <= a < b < |s| ==> s[a] <= s[b]
  }

  /** Nothing before position `m` exceeds anything from `m` on. */
  ghost predicate Split(s: seq<int>, m: nat) {
    forall a, b :: 0 <= a < m <= b < |s| ==> s[a] <= s[b]
  }

  /** `s[j]` is a largest element of `s[..j + 1]`. */
  ghost predicate MaxAt(s: seq<int>, j: nat)
    requires j < |s|
  {
    forall k :: 0 <= k <= j ==> s[k] <= s[j]
  }

  /** What one step of the inner loop does to `s` at `j`: swaps `s[j]` and `s[j + 1]` when out of order. */
  function BubbleStep(s: seq<int>, j: nat): (r: seq<int>)
    requires j + 1 < |s|
    ensures |r| == |s|
  {
    if s[j] > s[j + 1] then s[j := s[j + 1]][j + 1 := s[j]] else s
  }

  /**
   * The state of a pass over `s[..m]` started from `orig` after `j` steps:
   * same elements, the part from `m` on untouched, the split at `m` kept,
   * and a largest element of `s[..j + 1]` at `j`.
   */
  ghost predicate PassState(s: seq<int>, orig: seq<int>, m: nat, j: nat) {
    |s| == |orig| && j < m <= |s| &&
    multiset(s) == multiset(orig) && s[m..] == orig[m..] && Split(s, m) && MaxAt(s, j)
  }

  /** One step of the pass keeps its state and moves it one position on. */
  lemma PassStep(s: seq<int>, orig: seq<int>, m: nat, j: nat)
    requires PassState(s, orig, m, j) && j + 1 < m
    ensures PassState(BubbleStep(s, j), orig, m, j + 1)
  {
    if s[j] > s[j + 1] {
      SwapKeepsElements(s, j, j + 1);
      var t := BubbleStep(s, j);
      assert t[m..] == s[m..];
      assert forall k :: 0 <= k < |s| && k != j && k != j + 1 ==> t[k] == s[k];
    }
  }

  /**
   * One pass of the inner loop of `BubbleSort.sort` over `arr[..m]`:
   * adjacent elements out of order are swapped, which carries a largest
   * element of the prefix to position `m - 1` and leaves the rest alone.
   */
  method BubblePass(arr: array<int>, m: nat)
    requires 0 < m <= arr.Length
    requires Split(arr[..], m)
    modifies arr
    ensures multiset(arr[..]) == multiset(old(arr[..]))
    ensures arr[m..] == old(arr[m..])
    ensures Split(arr[..], m) && MaxAt(arr[..], m - 1)
  {
    var j := 0;
    while j < m - 1
      invariant 0 <= j <= m - 1
      invariant PassState(arr[..], old(arr[..]), m, j)
    {
      ghost var before := arr[..];
      if arr[j] > arr[j + 1] {
        arr[j], arr[j + 1] := arr[j + 1], arr[j];
      }
      assert arr[..] == BubbleStep(before, j);
      PassStep(before, old(arr[..]), m, j);
      j := j + 1;
    }
  }

  /**
   * `BubbleSort.sort(array)`: sorts the copy `[...array]` by passes of
   * adjacent swaps, pass `i` stopping before the `i` largest elements already
   * gathered at the end, and returns the copy. The caller's array is a value
   * and is not touched.
   */
  method BubbleSort(input: seq<int>) returns (r: seq<int>)
    ensures Sorted(r) && multiset(r) == multiset(input)
  {
    var arr := new int[|input|](k requires 0 <= k < |input| => input[k]);
    assert arr[..] == input;
    var n := arr.Length;
    var i := 0;
    while i < n
      invariant 0 <= i <= n
      invariant multiset(arr[..]) == multiset(input)
      invariant SortedFrom(arr[..], n - i) && Split(arr[..], n - i)
    {
      ghost var before := arr[..];
      BubblePass(arr, n - i);
      GrowSorted(before, arr[..], n - i);
      i := i + 1;
    }
    r := arr[..];
  }

  /** After a pass over `s[..m]`, one more position at the end is sorted. */
  lemma GrowSorted(before: seq<int>, after: seq<int>, m: nat)
    requires 0 < m <= |before| == |after|
    requires SortedFrom(before, m) && after[m..] == before[m..]
    requires Split(after, m) && MaxAt(after, m - 1)
    ensures SortedFrom(after, m - 1) && Split(after, m - 1)
  {
    forall a, b | m - 1 <= a < b < |after|
      ensures after[a] <= after[b]
    {
      if a >= m {
        assert after[a] == after[m..][a - m] == before[a];
        assert after[b] == after[m..][b - m] == before[b];
      }
    }
  }

  /** `x` is at most every element of `s`. */
  ghost predicate LowerBound(x: int, s: seq<int>) {
    forall y :: y in s ==> x <= y
  }

  /** A sorted sequence stays sorted with a lower bound of it in front. */
  lemma ConsSorted(x: int, s: seq<int>)
    requires LowerBound(x, s) && Sorted(s)
    ensures Sorted([x] + s)
  {
    forall a, b | 0 <= a < b < |[x] + s|
      ensures ([x] + s)[a] <= ([x] + s)[b]
    {
      if a > 0 {
        assert ([x] + s)[a] == s[a - 1];
      }
      assert ([x] + s)[b] == s[b - 1] && s[b - 1] in s;
    }
  }

  /** The tail of a sorted sequence is sorted, and its head bounds it. */
  lemma SortedTail(s: seq<int>)
    requires Sorted(s) && s != []
    ensures Sorted(s[1..]) && LowerBound(s[0], s)
  {
    forall y | y in s
      ensures s[0] <= y
    {
      var i :| 0 <= i < |s| && s[i] == y;
    }
  }

  /** A lower bound of `t` bounds every sequence with the elements of `t`. */
  lemma LowerBoundElements(x: int, s: seq<int>, t: seq<int>)
    requires multiset(s) == multiset(t) && LowerBound(x, t)
    ensures LowerBound(x, s)
  {
    forall y | y in s
      ensures x <= y
    {
      assert y in multiset(s);
      assert y in multiset(t);
      assert y in t;
    }
  }

  /**
   * Two sorted sequences with the same elements are equal: over numbers the
   * sorted form of an array is unique, whatever algorithm produced it.
   */
  lemma {:induction false} SortedUnique(a: seq<int>, b: seq<int>)
    requires Sorted(a) && Sorted(b) && multiset(a) == multiset(b)
    ensures a == b
  {
    assert |a| == |multiset(a)| == |multiset(b)| == |b|;
    if a != [] {
      SortedTail(a);
      SortedTail(b);
      assert b[0] in multiset(a) && a[0] in multiset(b);
      assert a[0] == b[0];
      assert a == [a[0]] + a[1..] && b == [b[0]] + b[1..];
      assert multiset(a) == multiset{a[0]} + multiset(a[1..]);
      assert multiset(b) == multiset{b[0]} + multiset(b[1..]);
      assert multiset(a[1..]) == multiset(a) - multiset{a[0]};
      assert multiset(b[1..]) == multiset(b) - multiset{b[0]};
      SortedUnique(a[1..], b[1..]);
    }
  }

  /** Inserting `x` before the first element not smaller than it. */
  function Insert(x: int, s: seq<int>): (r: seq<int>)
  {
    if s == [] || x <= s[0] then [x] + s else [s[0]] + Insert(x, s[1..])
  }

  /** Insertion keeps a sequence sorted and adds exactly `x`. */
  lemma {:induction false} InsertSorted(x: int, s: seq<int>)
    requires Sorted(s)
    ensures Sorted(Insert(x, s)) && multiset(Insert(x, s)) == multiset(s) + multiset{x}
  {
    if s == [] || x <= s[0] {
      if s != [] {
        SortedTail(s);
      }
      ConsSorted(x, s);
      MultisetCons(x, s);
    } else {
      var rest := Insert(x, s[1..]);
      SortedTail(s);
      InsertSorted(x, s[1..]);
      MultisetCons(s[0], s[1..]);
      MultisetCons(x, s[1..]);
      LowerBoundTail(s[0], s);
      LowerBoundCons(s[0], x, s[1..]);
      LowerBoundElements(s[0], rest, [x] + s[1..]);
      ConsSorted(s[0], rest);
      MultisetCons(s[0], rest);
      Cons(s);
    }
  }

  /** The elements of a sequence with a first element in front. */
  lemma MultisetCons(h: int, t: seq<int>)
    ensures multiset([h] + t) == multiset{h} + multiset(t)
  {
  }

  /** A non-empty sequence is its first element and the rest. */
  lemma Cons(s: seq<int>)
    requires s != []
    ensures [s[0]] + s[1..] == s
  {
  }

  /** A lower bound of a sequence bounds its tail. */
  lemma LowerBoundTail(x: int, s: seq<int>)
    requires s != [] && LowerBound(x, s)
    ensures LowerBound(x, s[1..])
  {
    forall y | y in s[1..]
      ensures x <= y
    {
      var i :| 0 <= i < |s[1..]| && s[1..][i] == y;
      assert s[i + 1] == y && s[i + 1] in s;
    }
  }

  /** A lower bound of a sequence and of a new first element bounds both. */
  lemma LowerBoundCons(x: int, h: int, t: seq<int>)
    requires x <= h && LowerBound(x, t)
    ensures LowerBound(x, [h] + t)
  {
  }

  /** The reference sorted form of `s`: insertion sort, independent of the three strategies. */
  function Ordered(s: seq<int>): (r: seq<int>)
  {
    if s == [] then [] else Insert(s[0], Ordered(s[1..]))
  }

  /** `Ordered(s)` is a sorted permutation of `s`. */
  lemma {:induction false} OrderedSorted(s: seq<int>)
    ensures Sorted(Ordered(s)) && multiset(Ordered(s)) == multiset(s)
  {
    if s != [] {
      OrderedSorted(s[1..]);
      InsertSorted(s[0], Ordered(s[1..]));
      assert s == [s[0]] + s[1..];
    }
  }

  /** Every sorted permutation of `s` is `Ordered(s)`. */
  lemma IsOrdered(s: seq<int>, r: seq<int>)
    requires Sorted(r) && multiset(r) == multiset(s)
    ensures r == Ordered(s)
  {
    OrderedSorted(s);
    SortedUnique(r, Ordered(s));
  }

  /**
   * What `merge(left, right)` returns: while both are non-empty the smaller
   * head is taken, the right head when the heads are equal; then whatever is
   * left of either follows.
   */
  function MergeOf(left: seq<int>, right: seq<int>): seq<int>
    decreases |left| + |right|
  {
    if left == [] then right
    else if right == [] then left
    else if left[0] < right[0] then [left[0]] + MergeOf(left[1..], right)
    else [right[0]] + MergeOf(left, right[1..])
  }

  /** On equal heads the right element is taken first and the left array is kept whole. */
  lemma MergeTieTakesRight(left: seq<int>, right: seq<int>)
    requires left != [] && right != [] && left[0] == right[0]
    ensures MergeOf(left, right)[0] == right[0]
    ensures MergeOf(left, right)[1..] == MergeOf(left, right[1..])
  {
  }

  /** `merge` keeps exactly the elements of both inputs. */
  lemma {:induction false} MergeElements(left: seq<int>, right: seq<int>)
    ensures multiset(MergeOf(left, right)) == multiset(left) + multiset(right)
    decreases |left| + |right|
  {
    if left != [] && right != [] {
      assert left == [left[0]] + left[1..] && right == [right[0]] + right[1..];
      if left[0] < right[0] {
        MergeElements(left[1..], right);
      } else {
        MergeElements(left, right[1..]);
      }
    }
  }

  /** `merge` of two sorted arrays is sorted. */
  lemma {:induction false} MergeSorted(left: seq<int>, right: seq<int>)
    requires Sorted(left) && Sorted(right)
    ensures Sorted(MergeOf(left, right))
    decreases |left| + |right|
  {
    if left != [] && right != [] {
      assert left == [left[0]] + left[1..] && right == [right[0]] + right[1..];
      SortedTail(left);
      SortedTail(right);
      if left[0] < right[0] {
        var rest := MergeOf(left[1..], right);
        MergeSorted(left[1..], right);
        MergeElements(left[1..], right);
        assert LowerBound(left[0], left[1..] + right);
        LowerBoundElements(left[0], rest, left[1..] + right);
        ConsSorted(left[0], rest);
      } else {
        var rest := MergeOf(left, right[1..]);
        MergeSorted(left, right[1..]);
        MergeElements(left, right[1..]);
        assert LowerBound(right[0], left + right[1..]);
        LowerBoundElements(right[0], rest, left + right[1..]);
        ConsSorted(right[0], rest);
      }
    }
  }

  /**
   * `MergeSort.merge(left, right)`: the `shift`/`push` loop, then the
   * remainders appended. On sorted inputs the result is a sorted
   * permutation of `left + right`.
   */
  method Merge(left: seq<int>, right: seq<int>) returns (r: seq<int>)
    ensures r == MergeOf(left, right)
    ensures multiset(r) == multiset(left + right)
    ensures Sorted(left) && Sorted(right) ==> Sorted(r)
  {
    var result := [];
    var l, rr := left, right;
    while |l| > 0 && |rr| > 0
      invariant result + MergeOf(l, rr) == MergeOf(left, right)
      decreases |l| + |rr|
    {
      MergeStep(l, rr);
      if l[0] < rr[0] {
        Regroup(result, l[0], MergeOf(l[1..], rr));
        result, l := result + [l[0]], l[1..];
      } else {
        Regroup(result, rr[0], MergeOf(l, rr[1..]));
        result, rr := result + [rr[0]], rr[1..];
      }
    }
    MergeDrained(l, rr);
    r := result + l + rr;
    MergeElements(left, right);
    if Sorted(left) && Sorted(right) {
      MergeSorted(left, right);
    }
  }

  /** One step of `merge` with both arrays non-empty. */
  lemma MergeStep(l: seq<int>, r: seq<int>)
    requires l != [] && r != []
    ensures l[0] < r[0] ==> MergeOf(l, r) == [l[0]] + MergeOf(l[1..], r)
    ensures l[0] >= r[0] ==> MergeOf(l, r) == [r[0]] + MergeOf(l, r[1..])
  {
  }

  /** Once one array is empty, `merge` appends the other. */
  lemma MergeDrained(l: seq<int>, r: seq<int>)
    requires l == [] || r == []
    ensures MergeOf(l, r) == l + r
  {
    if l == [] {
      assert l + r == r;
    } else {
      assert l + r == l;
    }
  }

  /** Moving one element from the rest to the result. */
  lemma Regroup(result: seq<int>, x: int, rest: seq<int>)
    ensures result + ([x] + rest) == (result + [x]) + rest
  {
  }

  /**
   * `MergeSort.sort(array)`: an array of at most one element is returned
   * as it is; otherwise both halves around `floor(length / 2)` are sorted
   * and merged.
   */
  method MergeSort(input: seq<int>) returns (r: seq<int>)
    ensures Sorted(r) && multiset(r) == multiset(input)
    ensures |input| <= 1 ==> r == input
    decreases |input|
  {
    if |input| <= 1 {
      return input;
    }
    var mid := |input| / 2;
    var left := MergeSort(input[..mid]);
    var right := MergeSort(input[mid..]);
    r := Merge(left, right);
    assert input == input[..mid] + input[mid..];
  }

  /** The elements of `s` smaller than `pivot`, in order: the `left` array of the partition. */
  function Below(s: seq<int>, pivot: int): seq<int>
  {
    if s == [] then []
    else Below(s[..|s| - 1], pivot) + (if s[|s| - 1] < pivot then [s[|s| - 1]] else [])
  }

  /** The other elements of `s`, in order: the `right` array of the partition. */
  function AtLeast(s: seq<int>, pivot: int): seq<int>
  {
    if s == [] then []
    else AtLeast(s[..|s| - 1], pivot) + (if s[|s| - 1] < pivot then [] else [s[|s| - 1]])
  }

  /** The two parts of the partition share out the elements of `s`: each goes to exactly one side. */
  lemma {:induction false} PartitionElements(s: seq<int>, pivot: int)
    ensures multiset(Below(s, pivot)) + multiset(AtLeast(s, pivot)) == multiset(s)
  {
    if s != [] {
      var init := s[..|s| - 1];
      PartitionElements(init, pivot);
      assert s == init + [s[|s| - 1]];
    }
  }

  /** The left side is below `pivot` and the right side is not. */
  lemma {:induction false} PartitionBounds(s: seq<int>, pivot: int)
    ensures forall y :: y in Below(s, pivot) ==> y < pivot
    ensures LowerBound(pivot, AtLeast(s, pivot))
  {
    if s != [] {
      PartitionBounds(s[..|s| - 1], pivot);
    }
  }

  /** The partition loop of `QuickSort.sort`, over all but the last element. */
  method Partition(s: seq<int>, pivot: int) returns (left: seq<int>, right: seq<int>)
    ensures left == Below(s, pivot) && right == AtLeast(s, pivot)
    ensures |left| + |right| == |s|
  {
    left, right := [], [];
    var i := 0;
    while i < |s|
      invariant 0 <= i <= |s|
      invariant left == Below(s[..i], pivot) && right == AtLeast(s[..i], pivot)
      invariant |left| + |right| == i
    {
      assert s[..i + 1][..i] == s[..i];
      if s[i] < pivot {
        left := left + [s[i]];
      } else {
        right := right + [s[i]];
      }
      i := i + 1;
    }
    assert s[..i] == s;
  }

  /** Around a pivot, two sorted sides make a sorted whole. */
  lemma JoinSorted(left: seq<int>, pivot: int, right: seq<int>)
    requires Sorted(left) && Sorted(right)
    requires forall y :: y in left ==> y < pivot
    requires LowerBound(pivot, right)
    ensures Sorted(left + [pivot] + right)
  {
    var r := left + [pivot] + right;
    forall a, b | 0 <= a < b < |r|
      ensures r[a] <= r[b]
    {
      if a < |left| {
        assert r[a] == left[a] && r[a] in left;
      }
      if b > |left| {
        assert r[b] == right[b - |left| - 1] && r[b] in right;
      }
    }
  }

  /** The sorted sides of a partition around the pivot make a sorted permutation. */
  lemma QuickSortStep(input: seq<int>, sortedLeft: seq<int>, sortedRight: seq<int>)
    requires |input| > 1
    requires var pivot, rest := input[|input| - 1], input[..|input| - 1];
      Sorted(sortedLeft) && multiset(sortedLeft) == multiset(Below(rest, pivot)) &&
      Sorted(sortedRight) && multiset(sortedRight) == multiset(AtLeast(rest, pivot))
    ensures var pivot, rest := input[|input| - 1], input[..|input| - 1];
      var r := sortedLeft + [pivot] + sortedRight;
      Sorted(r) && multiset(r) == multiset(input) &&
      r == Ordered(Below(rest, pivot)) + [pivot] + Ordered(AtLeast(rest, pivot))
  {
    var pivot, rest := input[|input| - 1], input[..|input| - 1];
    var left, right := Below(rest, pivot), AtLeast(rest, pivot);
    PartitionElements(rest, pivot);
    PartitionBounds(rest, pivot);
    LowerBoundElements(pivot, sortedRight, right);
    forall y | y in sortedLeft
      ensures y < pivot
    {
      assert y in multiset(left);
      assert y in left;
    }
    JoinSorted(sortedLeft, pivot, sortedRight);
    assert input == rest + [pivot];
    IsOrdered(left, sortedLeft);
    IsOrdered(right, sortedRight);
  }

  /**
   * `QuickSort.sort(array)`: an array of at most one element is returned as
   * it is; otherwise the last element is the pivot, the others are
   * partitioned, and the result is the sorted left part, the pivot and
   * the sorted right part. Each recursive call is on a strictly shorter
   * array.
   */
  method QuickSort(input: seq<int>) returns (r: seq<int>)
    ensures Sorted(r) && multiset(r) == multiset(input)
    ensures |input| <= 1 ==> r == input
    ensures |input| > 1 ==>
      var pivot, rest := input[|input| - 1], input[..|input| - 1];
      r == Ordered(Below(rest, pivot)) + [pivot] + Ordered(AtLeast(rest, pivot))
    decreases |input|
  {
    if |input| <= 1 {
      return input;
    }
    var pivot, rest := input[|input| - 1], input[..|input| - 1];
    var left, right := Partition(rest, pivot);
    var sortedLeft := QuickSort(left);
    var sortedRight := QuickSort(right);
    r := sortedLeft + [pivot] + sortedRight;
    QuickSortStep(input, sortedLeft, sortedRight);
  }

  /** The strategies a `Sorter` can hold; `Abstract` is the bare `SortingStrategy`. */
  datatype Strategy = Abstract | Bubble | MergeStrategy | Quick

  /** The context of the Strategy pattern: it sorts with whichever strategy it holds. */
  class Sorter {
    var strategy: Strategy

    /** `new Sorter(strategy)`. */
    constructor(strategy: Strategy)
      ensures this.strategy == strategy
    {
      this.strategy := strategy;
    }

    /** `setStrategy(strategy)`: later sorts use the new strategy. */
    method SetStrategy(strategy: Strategy)
      modifies this
      ensures this.strategy == strategy
    {
      this.strategy := strategy;
    }

    /**
     * `sort(array)`: delegates to the strategy held. The bare
     * `SortingStrategy` throws; every concrete strategy returns the sorted
     * form of the input, so the three agree on every array.
     */
    method Sort(input: seq<int>) returns (r: Result<seq<int>>)
      ensures strategy == Abstract <==> r == Err("Sort method must be implemented.")
      ensures strategy != Abstract ==> r == Ok(Ordered(input))
    {
      var sorted: seq<int>;
      match strategy {
        case Abstract =>
          return Err("Sort method must be implemented.");
        case Bubble =>
          sorted := BubbleSort(input);
        case MergeStrategy =>
          sorted := MergeSort(input);
        case Quick =>
          sorted := QuickSort(input);
      }
      IsOrdered(input, sorted);
      r := Ok(sorted);
    }
  }

  /** The numbers of the client code in ascending order. */
  lemma DemoOrdered()
    ensures Ordered([5, 3, 8, 4, 2]) == [2, 3, 4, 5, 8]
  {
    OrderedCons(5, [3, 8, 4, 2]);
    OrderedCons(3, [8, 4, 2]);
    OrderedCons(8, [4, 2]);
    OrderedCons(4, [2]);
    OrderedCons(2, []);
    assert Insert(4, [2]) == [2, 4];
    assert Insert(8, [2, 4]) == [2, 4, 8];
    assert Insert(3, [2, 4, 8]) == [2, 3, 4, 8];
    assert Insert(5, [2, 3, 4, 8]) == [2, 3, 4, 5, 8];
  }

  /** `Ordered` of a sequence with a first element. */
  lemma OrderedCons(x: int, s: seq<int>)
    ensures Ordered([x] + s) == Insert(x, Ordered(s))
  {
    assert ([x] + s)[1..] == s;
  }

  /** The client code: each of the three strategies in turn sorts `[5, 3, 8, 4, 2]` into `[2, 3, 4, 5, 8]`. */
  method Demo() returns (bubble: Result<seq<int>>, merge: Result<seq<int>>, quick: Result<seq<int>>)
    ensures bubble == merge == quick == Ok([2, 3, 4, 5, 8])
  {
    var numbers := [5, 3, 8, 4, 2];
    var sorter := new Sorter(Bubble);
    bubble := sorter.Sort(numbers);
    sorter.SetStrategy(MergeStrategy);
    merge := sorter.Sort(numbers);
    sorter.SetStrategy(Quick);
    quick := sorter.Sort(numbers);
    DemoOrdered();
  }
}
