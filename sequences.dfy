/** The Swift `Array` operations the calculator file is built from:
    `filter`, `map`, `reduce(_:_:)` and `sorted(by:)`, as functions on
    sequences, with the properties the file relies on proved as lemmas. */
module Sequences {

  /** `s.filter(p)`: the elements of `s` that satisfy `p`, in their order. */
  function Filter<T>(s: seq<T>, p: T -> bool): (r: seq<T>)
    ensures |r| <= |s|
    ensures forall i :: 0 <= i < |r| ==> p(r[i])
  {
    if s == [] then []
    else if p(s[0]) then [s[0]] + Filter(s[1..], p)
    else Filter(s[1..], p)
  }

  /** `sub` is obtained from `s` by deleting elements, so it keeps their order. */
  ghost predicate IsSubsequence<T>(sub: seq<T>, s: seq<T>)
  {
    || sub == []
    || (s != [] && ((sub[0] == s[0] && IsSubsequence(sub[1..], s[1..])) || IsSubsequence(sub, s[1..])))
  }

  /** Filtering keeps the surviving elements in their original order. */
  lemma {:induction false} FilterIsSubsequence<T>(s: seq<T>, p: T -> bool)
    ensures IsSubsequence(Filter(s, p), s)
  {
    if s != [] {
      FilterIsSubsequence(s[1..], p);
      if p(s[0]) {
        assert Filter(s, p) == [s[0]] + Filter(s[1..], p);
        assert (Filter(s, p))[1..] == Filter(s[1..], p);
      }
    }
  }

  /** Filtering keeps every occurrence of a value that satisfies `p` and
      drops every occurrence of one that does not. */
  lemma {:induction false} FilterCount<T>(s: seq<T>, p: T -> bool, x: T)
    ensures multiset(Filter(s, p))[x] == if p(x) then multiset(s)[x] else 0
  {
    if s != [] {
      FilterCount(s[1..], p, x);
      assert s == [s[0]] + s[1..];
      assert multiset(s) == multiset{s[0]} + multiset(s[1..]);
    }
  }

  /** `FilterCount` for every value at once. */
  lemma FilterCounts<T>(s: seq<T>, p: T -> bool)
    ensures forall x :: multiset(Filter(s, p))[x] == if p(x) then multiset(s)[x] else 0
  {
    forall x
      ensures multiset(Filter(s, p))[x] == if p(x) then multiset(s)[x] else 0
    {
      FilterCount(s, p, x);
    }
  }

  /** A value is in the filtered sequence exactly when it is in the input
      and satisfies `p`. */
  lemma FilterMembership<T>(s: seq<T>, p: T -> bool)
    ensures forall x :: x in Filter(s, p) <==> x in s && p(x)
  {
    forall x
      ensures x in Filter(s, p) <==> x in s && p(x)
    {
      FilterCount(s, p, x);
      assert x in Filter(s, p) <==> x in multiset(Filter(s, p));
      assert x in s <==> x in multiset(s);
    }
  }

  /** Filters by two complementary predicates split the input: every
      element lands in exactly one of the two results. */
  lemma {:induction false} FilterPartition<T>(s: seq<T>, p: T -> bool, q: T -> bool)
    requires forall x :: q(x) == !p(x)
    ensures multiset(Filter(s, p)) + multiset(Filter(s, q)) == multiset(s)
    ensures |Filter(s, p)| + |Filter(s, q)| == |s|
    ensures forall x :: !(x in Filter(s, p) && x in Filter(s, q))
  {
    if s != [] {
      FilterPartition(s[1..], p, q);
      assert s == [s[0]] + s[1..];
      assert multiset(s) == multiset{s[0]} + multiset(s[1..]);
      assert q(s[0]) == !p(s[0]);
    }
    assert |multiset(Filter(s, p)) + multiset(Filter(s, q))| == |multiset(s)|;
    FilterMembership(s, p);
    FilterMembership(s, q);
  }

  /** What filtering keeps of a single element: `[x]` or nothing. */
  function Keep<T>(x: T, p: T -> bool): seq<T>
  {
    if p(x) then [x] else []
  }

  /** Filtering a sequence with one element in front keeps that element
      exactly when it satisfies the predicate. */
  lemma FilterCons<T>(x: T, s: seq<T>, p: T -> bool)
    ensures Filter([x] + s, p) == Keep(x, p) + Filter(s, p)
  {
    assert ([x] + s)[1..] == s;
  }

  /** Filtering five elements keeps each one that satisfies the predicate,
      in order. */
  lemma FilterFive<T>(a: T, b: T, c: T, d: T, e: T, p: T -> bool)
    ensures Filter([a, b, c, d, e], p) == Keep(a, p) + (Keep(b, p) + (Keep(c, p) + (Keep(d, p) + Keep(e, p))))
  {
    assert [a, b, c, d, e] == [a] + [b, c, d, e];
    assert [b, c, d, e] == [b] + [c, d, e];
    assert [c, d, e] == [c] + [d, e];
    assert [d, e] == [d] + [e];
    assert [e] == [e] + [];
    calc {
      Filter([a, b, c, d, e], p);
      { FilterCons(a, [b, c, d, e], p); }
      Keep(a, p) + Filter([b, c, d, e], p);
      { FilterCons(b, [c, d, e], p); }
      Keep(a, p) + (Keep(b, p) + Filter([c, d, e], p));
      { FilterCons(c, [d, e], p); }
      Keep(a, p) + (Keep(b, p) + (Keep(c, p) + Filter([d, e], p)));
      { FilterCons(d, [e], p); }
      Keep(a, p) + (Keep(b, p) + (Keep(c, p) + (Keep(d, p) + Filter([e], p))));
      { FilterCons(e, [], p); assert Keep(e, p) + [] == Keep(e, p); }
      Keep(a, p) + (Keep(b, p) + (Keep(c, p) + (Keep(d, p) + Keep(e, p))));
    }
  }

  /** `s.map(f)`: one output per input, in the same order. */
  function Map<T, U>(s: seq<T>, f: T -> U): (r: seq<U>)
    ensures |r| == |s|
    ensures forall i :: 0 <= i < |s| ==> r[i] == f(s[i])
  {
    if s == [] then [] else [f(s[0])] + Map(s[1..], f)
  }

  /** Mapping distributes over concatenation. */
  lemma MapConcatAt<T, U>(a: seq<T>, b: seq<T>, f: T -> U, i: int)
    requires 0 <= i < |a| + |b|
    ensures Map(a + b, f)[i] == (Map(a, f) + Map(b, f))[i]
  {
    var whole, left, right := Map(a + b, f), Map(a, f), Map(b, f);
    assert whole[i] == f((a + b)[i]);
    if i < |a| {
      assert (a + b)[i] == a[i];
      assert (left + right)[i] == left[i] == f(a[i]);
    } else {
      assert (a + b)[i] == b[i - |a|];
      assert (left + right)[i] == right[i - |a|] == f(b[i - |a|]);
    }
  }

  lemma MapConcat<T, U>(a: seq<T>, b: seq<T>, f: T -> U)
    ensures Map(a + b, f) == Map(a, f) + Map(b, f)
  {
    forall i | 0 <= i < |a| + |b|
      ensures Map(a + b, f)[i] == (Map(a, f) + Map(b, f))[i]
    {
      MapConcatAt(a, b, f, i);
    }
  }

  /** Mapping around one element: the element's image sits between the two mapped sides. */
  lemma MapAround<T, U>(left: seq<T>, x: T, right: seq<T>, f: T -> U)
    ensures Map(left + [x] + right, f) == Map(left, f) + [f(x)] + Map(right, f)
  {
    MapConcat(left + [x], right, f);
    MapConcat(left, [x], f);
    assert Map([x], f) == [f(x)];
  }

  /** Removing one occurrence of `x` from both sides of a multiset equation. */
  lemma CancelOne<T>(x: T, rest: multiset<T>, left: multiset<T>, right: multiset<T>)
    requires multiset{x} + rest == left + multiset{x} + right
    ensures rest == left + right
  {
    assert rest == (multiset{x} + rest) - multiset{x};
    assert left + right == (left + multiset{x} + right) - multiset{x};
  }

  /** Any occurrence of `x` splits `s` into the part before it and the part after it. */
  lemma SplitAround<T>(s: seq<T>, x: T) returns (left: seq<T>, right: seq<T>)
    requires x in multiset(s)
    ensures s == left + [x] + right
    ensures multiset(s) == multiset(left) + multiset{x} + multiset(right)
  {
    var k :| 0 <= k < |s| && s[k] == x;
    left, right := s[..k], s[k + 1..];
    assert s == left + [x] + right;
  }

  /** Inserting `x` into the middle of a sequence adds `f(x)` to the image of the rest. */
  lemma MapInsertedImage<T, U>(x: T, tail: seq<T>, left: seq<T>, right: seq<T>, f: T -> U)
    requires multiset(Map(tail, f)) == multiset(Map(left + right, f))
    ensures multiset(Map([x] + tail, f)) == multiset(Map(left + [x] + right, f))
  {
    assert Map([x] + tail, f) == [f(x)] + Map(tail, f);
    MapConcat(left, right, f);
    MapAround(left, x, right, f);
  }

  /** Mapping two permutations of each other gives two permutations of each other. */
  lemma {:induction false} MapPreservesPermutation<T, U>(a: seq<T>, b: seq<T>, f: T -> U)
    requires multiset(a) == multiset(b)
    ensures multiset(Map(a, f)) == multiset(Map(b, f))
  {
    if a == [] {
      assert |b| == |multiset(b)| == 0;
    } else {
      var x := a[0];
      var left, right := SplitAround(b, x);
      assert a == [x] + a[1..];
      CancelOne(x, multiset(a[1..]), multiset(left), multiset(right));
      MapPreservesPermutation(a[1..], left + right, f);
      MapInsertedImage(x, a[1..], left, right, f);
    }
  }

  /** Mapping a subsequence gives a subsequence of the mapped input. */
  lemma {:induction false} MapPreservesSubsequence<T, U>(sub: seq<T>, s: seq<T>, f: T -> U)
    requires IsSubsequence(sub, s)
    ensures IsSubsequence(Map(sub, f), Map(s, f))
  {
    if sub != [] {
      assert Map(s, f)[1..] == Map(s[1..], f);
      if sub[0] == s[0] && IsSubsequence(sub[1..], s[1..]) {
        MapPreservesSubsequence(sub[1..], s[1..], f);
        assert Map(sub, f)[1..] == Map(sub[1..], f);
      } else {
        MapPreservesSubsequence(sub, s[1..], f);
      }
    }
  }

  /** A value is in `Map(Filter(s, p), f)` exactly when it is the image of
      an element of `s` that satisfies `p`. */
  lemma FilterMapMembership<T, U>(s: seq<T>, p: T -> bool, f: T -> U)
    ensures forall y :: y in Map(Filter(s, p), f) ==> exists x :: x in s && p(x) && f(x) == y
    ensures forall x :: x in s && p(x) ==> f(x) in Map(Filter(s, p), f)
  {
    var kept := Filter(s, p);
    FilterMembership(s, p);
    forall y | y in Map(kept, f)
      ensures exists x :: x in s && p(x) && f(x) == y
    {
      var i :| 0 <= i < |kept| && Map(kept, f)[i] == y;
      assert kept[i] in kept;
    }
    forall x | x in s && p(x)
      ensures f(x) in Map(kept, f)
    {
      assert x in kept;
      var i :| 0 <= i < |kept| && kept[i] == x;
      assert Map(kept, f)[i] == f(x);
    }
  }

  /** `s.reduce(init, op)`: the strict left fold, `op(...op(op(init, s[0]), s[1])..., s[n-1])`. */
  function FoldLeft<A, B>(init: A, s: seq<B>, op: (A, B) -> A): (r: A)
    ensures s == [] ==> r == init
  {
    if s == [] then init else FoldLeft(op(init, s[0]), s[1..], op)
  }

  /** Folding one more element applies `op` once more, at the end: this is
      what makes `FoldLeft` a left fold. */
  lemma {:induction false} FoldLeftAppend<A, B>(init: A, s: seq<B>, x: B, op: (A, B) -> A)
    ensures FoldLeft(init, s + [x], op) == op(FoldLeft(init, s, op), x)
  {
    if s != [] {
      assert (s + [x])[1..] == s[1..] + [x];
      FoldLeftAppend(op(init, s[0]), s[1..], x, op);
    }
  }

  /** The weight that leaves a number as it is, for folds that add the numbers themselves. */
  function Identity(x: real): real
  {
    x
  }

  /** The arithmetic sum, the reference the folds below are compared with. */
  function Sum(s: seq<real>): real
  {
    if s == [] then 0.0 else s[0] + Sum(s[1..])
  }

  /** A fold that adds `w(x)` for every element sums the weights onto the seed. */
  lemma {:induction false} FoldLeftAddsWeights<B>(init: real, s: seq<B>, op: (real, B) -> real, w: B -> real)
    requires forall acc, x :: op(acc, x) == acc + w(x)
    ensures FoldLeft(init, s, op) == init + Sum(Map(s, w))
    decreases |s|
  {
    if s != [] {
      FoldLeftAddsWeights(op(init, s[0]), s[1..], op, w);
      assert Map(s, w) == [w(s[0])] + Map(s[1..], w);
    }
  }

  /** The sum of `n` values that are all at least `lo` is at least `n * lo`. */
  lemma {:induction false} SumAtLeast(s: seq<real>, lo: real)
    requires forall i :: 0 <= i < |s| ==> lo <= s[i]
    ensures (|s| as real) * lo <= Sum(s)
  {
    if s != [] {
      SumAtLeast(s[1..], lo);
    }
  }

  /** The sum of `n` values that are all at most `hi` is at most `n * hi`. */
  lemma {:induction false} SumAtMost(s: seq<real>, hi: real)
    requires forall i :: 0 <= i < |s| ==> s[i] <= hi
    ensures Sum(s) <= (|s| as real) * hi
  {
    if s != [] {
      SumAtMost(s[1..], hi);
    }
  }

  /** A property every element of `b` has, every element of a
      rearrangement of `b` has too. */
  lemma PermutationKeeps<T>(a: seq<T>, b: seq<T>, p: T -> bool)
    requires multiset(a) == multiset(b)
    requires forall i :: 0 <= i < |b| ==> p(b[i])
    ensures forall i :: 0 <= i < |a| ==> p(a[i])
  {
    forall i | 0 <= i < |a|
      ensures p(a[i])
    {
      assert a[i] in multiset(b);
      var k :| 0 <= k < |b| && b[k] == a[i];
    }
  }

  /** Swift's precondition on the comparator of `sorted(by:)`:
      irreflexive, transitive, and incomparability is transitive. */
  ghost predicate StrictWeakOrder<T(!new)>(less: (T, T) -> bool)
  {
    && (forall x :: !less(x, x))
    && (forall x, y, z :: less(x, y) && less(y, z) ==> less(x, z))
    && (forall x, y, z :: !less(x, y) && !less(y, x) && !less(y, z) && !less(z, y) ==> !less(x, z) && !less(z, x))
  }

  /** No element is ordered strictly before an element to its left. */
  ghost predicate SortedBy<T>(s: seq<T>, less: (T, T) -> bool)
  {
    forall i, j :: 0 <= i < j < |s| ==> !less(s[j], s[i])
  }

  /** Places `x` in front of the first element that is not ordered before
      it, so `x` goes ahead of the elements it ties with. */
  function Insert<T>(x: T, s: seq<T>, less: (T, T) -> bool): (r: seq<T>)
    ensures multiset(r) == multiset{x} + multiset(s)
  {
    if s == [] || !less(s[0], x) then [x] + s
    else
      assert s == [s[0]] + s[1..];
      [s[0]] + Insert(x, s[1..], less)
  }

  /** `s.sorted(by: less)`, as an insertion sort. Its contract is a
      permutation of the input; sortedness is `SortByIsSorted`. Each head is
      inserted ahead of the elements it ties with, so elements the order
      leaves unordered keep their input order, as in Swift's stable sort. */
  function SortBy<T>(s: seq<T>, less: (T, T) -> bool): (r: seq<T>)
    ensures multiset(r) == multiset(s)
  {
    if s == [] then []
    else
      assert s == [s[0]] + s[1..];
      Insert(s[0], SortBy(s[1..], less), less)
  }

  /** Inserting an element that the head is not ordered before puts it in front. */
  lemma InsertInFront<T>(x: T, s: seq<T>, less: (T, T) -> bool)
    requires s == [] || !less(s[0], x)
    ensures Insert(x, s, less) == [x] + s
  {
  }

  /** Inserting an element that the head is ordered before keeps the head
      in front and inserts into the rest. */
  lemma InsertPast<T>(x: T, y: T, s: seq<T>, less: (T, T) -> bool)
    requires less(y, x)
    ensures Insert(x, [y] + s, less) == [y] + Insert(x, s, less)
  {
    assert ([y] + s)[1..] == s;
  }

  /** In a strict weak order "not before" chains: if `a` is not before `b`
      and `b` is not before `c`, then `a` is not before `c`. */
  lemma NotLessChains<T(!new)>(a: T, b: T, c: T, less: (T, T) -> bool)
    requires StrictWeakOrder(less)
    requires !less(a, b) && !less(b, c)
    ensures !less(a, c)
  {
  }

  /** Sorting inserts the head into the sorted rest. */
  lemma SortByCons<T>(x: T, s: seq<T>, less: (T, T) -> bool)
    ensures SortBy([x] + s, less) == Insert(x, SortBy(s, less), less)
  {
    assert ([x] + s)[1..] == s;
  }

  lemma {:induction false} InsertKeepsSorted<T(!new)>(x: T, s: seq<T>, less: (T, T) -> bool)
    requires StrictWeakOrder(less)
    requires SortedBy(s, less)
    ensures SortedBy(Insert(x, s, less), less)
  {
    if s == [] || !less(s[0], x) {
      var r := [x] + s;
      forall i, j | 0 <= i < j < |r|
        ensures !less(r[j], r[i])
      {
        if i == 0 && j > 1 {
          NotLessChains(s[j - 1], s[0], x, less);
        }
      }
    } else {
      var t := Insert(x, s[1..], less);
      InsertKeepsSorted(x, s[1..], less);
      forall j | 0 <= j < |t|
        ensures !less(t[j], s[0])
      {
        assert t[j] in multiset(t);
        if t[j] != x {
          assert t[j] in multiset(s[1..]);
          var k :| 0 <= k < |s[1..]| && s[1..][k] == t[j];
          assert s[k + 1] == t[j];
        }
      }
    }
  }

  /** Under a strict weak order, `SortBy` returns a sorted sequence. */
  lemma {:induction false} SortByIsSorted<T(!new)>(s: seq<T>, less: (T, T) -> bool)
    requires StrictWeakOrder(less)
    ensures SortedBy(SortBy(s, less), less)
  {
    if s != [] {
      SortByIsSorted(s[1..], less);
      InsertKeepsSorted(s[0], SortBy(s[1..], less), less);
    }
  }
}
