/** `ArrayProcessor`: filtering, sorting, mapping and folding arrays of
    `Int`, each a thin layer over the Swift `Array` operation of the same
    name. The arrays are values, so no operation changes its input. */
module ArrayProcessor {
  import Sequences

  /** `$0 % 2 != 0`. Swift's `%` truncates toward zero and Dafny's is
      Euclidean, so for a negative odd number the two remainders differ
      (-1 against 1); both are nonzero exactly for the odd numbers, so the
      classification is the same. */
  predicate IsOdd(x: int)
  {
    x % 2 != 0
  }

  /** `$0 % 2 == 0`, with the same remark as `IsOdd`. */
  predicate IsEven(x: int)
  {
    x % 2 == 0
  }

  /** `filterOddNumbers`: exactly the odd numbers, every occurrence of
      each, in their original order. */
  function FilterOddNumbers(numbers: seq<int>): (r: seq<int>)
    ensures Sequences.IsSubsequence(r, numbers)
    ensures forall x :: x in r ==> IsOdd(x)
    ensures forall x :: multiset(r)[x] == if IsOdd(x) then multiset(numbers)[x] else 0
  {
    Sequences.FilterIsSubsequence(numbers, IsOdd);
    Sequences.FilterCounts(numbers, IsOdd);
    Sequences.Filter(numbers, IsOdd)
  }

  /** `filterEvenNumbers`: exactly the even numbers, every occurrence of
      each, in their original order. */
  function FilterEvenNumbers(numbers: seq<int>): (r: seq<int>)
    ensures Sequences.IsSubsequence(r, numbers)
    ensures forall x :: x in r ==> IsEven(x)
    ensures forall x :: multiset(r)[x] == if IsEven(x) then multiset(numbers)[x] else 0
  {
    Sequences.FilterIsSubsequence(numbers, IsEven);
    Sequences.FilterCounts(numbers, IsEven);
    Sequences.Filter(numbers, IsEven)
  }

  /** The odd and the even filter split the input between them: every
      element lands in exactly one of the two results. */
  lemma OddEvenPartition(numbers: seq<int>)
    ensures multiset(FilterOddNumbers(numbers)) + multiset(FilterEvenNumbers(numbers)) == multiset(numbers)
    ensures |FilterOddNumbers(numbers)| + |FilterEvenNumbers(numbers)| == |numbers|
    ensures forall x :: x in numbers ==> (x in FilterOddNumbers(numbers) <==> x !in FilterEvenNumbers(numbers))
  {
    Sequences.FilterPartition(numbers, IsOdd, IsEven);
    Sequences.FilterMembership(numbers, IsOdd);
    Sequences.FilterMembership(numbers, IsEven);
  }

  /** `filter(_:condition:)`: exactly the elements that satisfy the
      condition, every occurrence of each, in their original order. */
  function Filter(numbers: seq<int>, condition: int -> bool): (r: seq<int>)
    ensures Sequences.IsSubsequence(r, numbers)
    ensures forall x :: x in r ==> condition(x)
    ensures forall x :: multiset(r)[x] == if condition(x) then multiset(numbers)[x] else 0
  {
    Sequences.FilterIsSubsequence(numbers, condition);
    Sequences.FilterCounts(numbers, condition);
    Sequences.Filter(numbers, condition)
  }

  /** The comparator `{ $0 < $1 }`. */
  function Less(x: int, y: int): bool
  {
    x < y
  }

  /** The comparator `{ $0 > $1 }`. */
  function Greater(x: int, y: int): bool
  {
    x > y
  }

  lemma IntegerOrdersAreStrictWeak()
    ensures Sequences.StrictWeakOrder(Less)
    ensures Sequences.StrictWeakOrder(Greater)
  {
  }

  ghost predicate NonDecreasing(s: seq<int>)
  {
    forall i, j :: 0 <= i < j < |s| ==> s[i] <= s[j]
  }

  ghost predicate NonIncreasing(s: seq<int>)
  {
    forall i, j :: 0 <= i < j < |s| ==> s[i] >= s[j]
  }

  /** `sort(_:ascending:)`: a rearrangement of the input, in non-decreasing
      order when `ascending` holds (the default) and in non-increasing order
      otherwise. */
  function Sort(numbers: seq<int>, ascending: bool := true): (r: seq<int>)
    ensures multiset(r) == multiset(numbers)
    ensures ascending ==> NonDecreasing(r)
    ensures !ascending ==> NonIncreasing(r)
  {
    IntegerOrdersAreStrictWeak();
    if ascending then
      Sequences.SortByIsSorted(numbers, Less);
      Sequences.SortBy(numbers, Less)
    else
      Sequences.SortByIsSorted(numbers, Greater);
      Sequences.SortBy(numbers, Greater)
  }

  /** `sort(_:by:)`: for a comparator that is a strict weak order (what
      Swift demands of it), a rearrangement of the input in which no
      element is ordered before one to its left. */
  function SortBy(numbers: seq<int>, comparator: (int, int) -> bool): (r: seq<int>)
    requires Sequences.StrictWeakOrder(comparator)
    ensures multiset(r) == multiset(numbers)
    ensures Sequences.SortedBy(r, comparator)
  {
    Sequences.SortByIsSorted(numbers, comparator);
    Sequences.SortBy(numbers, comparator)
  }

  /** The sequence read from back to front. */
  function Reverse(s: seq<int>): (r: seq<int>)
    ensures |r| == |s|
    ensures forall i :: 0 <= i < |s| ==> r[i] == s[|s| - 1 - i]
    ensures multiset(r) == multiset(s)
  {
    if s == [] then []
    else
      assert s == [s[0]] + s[1..];
      Reverse(s[1..]) + [s[0]]
  }

  /** Two non-decreasing rearrangements of the same numbers are equal. */
  lemma {:induction false} SortedPermutationsAreEqual(a: seq<int>, b: seq<int>)
    requires NonDecreasing(a) && NonDecreasing(b)
    requires multiset(a) == multiset(b)
    ensures a == b
  {
    assert |a| == |multiset(a)| == |multiset(b)| == |b|;
    if a != [] {
      assert a[0] in multiset(b) && b[0] in multiset(a);
      var i :| 0 <= i < |b| && b[i] == a[0];
      var j :| 0 <= j < |a| && a[j] == b[0];
      assert a[0] == b[0];
      assert a == [a[0]] + a[1..] && b == [b[0]] + b[1..];
      Sequences.CancelOne(a[0], multiset(a[1..]), multiset([]), multiset(b[1..]));
      SortedPermutationsAreEqual(a[1..], b[1..]);
    }
  }

  /** Reading a non-increasing sequence backwards gives a non-decreasing one. */
  lemma ReverseOfNonIncreasing(s: seq<int>)
    requires NonIncreasing(s)
    ensures NonDecreasing(Reverse(s))
  {
    var r := Reverse(s);
    forall i, j | 0 <= i < j < |r|
      ensures r[i] <= r[j]
    {
      assert r[i] == s[|s| - 1 - i] && r[j] == s[|s| - 1 - j];
    }
  }

  /** Reversing twice gives back the original. */
  lemma ReverseReverse(s: seq<int>)
    ensures Reverse(Reverse(s)) == s
  {
    var r := Reverse(s);
    assert forall i :: 0 <= i < |s| ==> Reverse(r)[i] == r[|r| - 1 - i] == s[i];
  }

  /** Sorting in descending order gives the ascending result reversed. */
  lemma SortDescendingReversesAscending(numbers: seq<int>)
    ensures Sort(numbers, false) == Reverse(Sort(numbers, true))
  {
    var up, down := Sort(numbers, true), Sort(numbers, false);
    ReverseOfNonIncreasing(down);
    SortedPermutationsAreEqual(Reverse(down), up);
    ReverseReverse(down);
  }

  /** `map(_:transform:)`: one output per input, each the transform of the
      element at the same position. */
  function Map<T>(numbers: seq<int>, transform: int -> T): (r: seq<T>)
    ensures |r| == |numbers|
    ensures forall i :: 0 <= i < |numbers| ==> r[i] == transform(numbers[i])
  {
    Sequences.Map(numbers, transform)
  }

  /** `reduce(_:initialValue:operation:)`: the initial value for an empty
      array; see `ReduceIsLeftFold` for the rest. */
  function Reduce<T>(numbers: seq<int>, initialValue: T, operation: (T, int) -> T): (r: T)
    ensures numbers == [] ==> r == initialValue
  {
    Sequences.FoldLeft(initialValue, numbers, operation)
  }

  /** Reducing one more number applies the operation once more, to the
      previous result and that number: a strict left fold. */
  lemma ReduceIsLeftFold<T>(numbers: seq<int>, x: int, initialValue: T, operation: (T, int) -> T)
    ensures Reduce(numbers + [x], initialValue, operation) == operation(Reduce(numbers, initialValue, operation), x)
  {
    Sequences.FoldLeftAppend(initialValue, numbers, x, operation);
  }
}
