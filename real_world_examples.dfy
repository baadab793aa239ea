/** `RealWorldExamples`: two report pipelines built from `filter`, `sorted`,
    `map` and `reduce` — ranking the students who passed, and summing up a
    shopping cart. `Double` is modelled as `real`. */
module RealWorldExamples {
  import opened Sequences
  import Calculator

  // ---------------------------------------------------------------------
  // Students
  // ---------------------------------------------------------------------

  datatype StudentGrades = StudentGrades(name: string, grades: seq<real>)

  /** `average`: 0 when there are no grades, otherwise the mean, i.e. the
      value that times the number of grades gives their sum. */
  function Average(student: StudentGrades): (r: real)
    ensures student.grades == [] ==> r == 0.0
    ensures student.grades != [] ==> r * (|student.grades| as real) == Sum(student.grades)
  {
    if student.grades == [] then 0.0
    else
      FoldLeftAddsWeights(0.0, student.grades, Calculator.Add, Identity);
      assert Map(student.grades, Identity) == student.grades;
      FoldLeft(0.0, student.grades, Calculator.Add) / (|student.grades| as real)
  }

  /** The mean lies between the lowest and the highest bound of the grades. */
  lemma AverageWithinGrades(student: StudentGrades, lo: real, hi: real)
    requires student.grades != []
    requires forall i :: 0 <= i < |student.grades| ==> lo <= student.grades[i] <= hi
    ensures lo <= Average(student) <= hi
  {
    var n := |student.grades| as real;
    SumAtLeast(student.grades, lo);
    SumAtMost(student.grades, hi);
    assert Average(student) * n == Sum(student.grades);
  }

  /** The pass mark of `passed`. */
  const PassMark: real := 50.0

  /** `passed`: an average of at least 50, so a student with no grades
      (average 0) fails. */
  predicate Passed(student: StudentGrades)
    ensures student.grades == [] ==> !Passed(student)
  {
    Average(student) >= PassMark
  }

  /** One row of the letter-grade table: `[lower, upper)` or, when
      `upperIncluded`, `[lower, upper]`. */
  datatype Band = Band(lower: real, upper: real, upperIncluded: bool, grade: string)

  predicate InBand(band: Band, x: real)
  {
    band.lower <= x && (x < band.upper || (band.upperIncluded && x == band.upper))
  }

  /** The letter-grade bands as a table; anything outside all of them is "FF". */
  const GradeBands: seq<Band> := [
    Band(90.0, 100.0, true, "AA"),
    Band(80.0, 90.0, false, "BA"),
    Band(70.0, 80.0, false, "BB"),
    Band(60.0, 70.0, false, "CB"),
    Band(50.0, 60.0, false, "CC")
  ]

  /** The label of the first band that holds `x`, or "FF". */
  function Classify(bands: seq<Band>, x: real): string
  {
    if bands == [] then "FF"
    else if InBand(bands[0], x) then bands[0].grade
    else Classify(bands[1..], x)
  }

  /** No average falls into two bands of the table. */
  lemma GradeBandsDisjoint()
    ensures forall i, j, x :: 0 <= i < j < |GradeBands| && InBand(GradeBands[i], x) ==> !InBand(GradeBands[j], x)
  {
  }

  /** The `switch` of `letterGrade`: a grade other than "FF" exactly for
      averages in `[50, 100]`, so an average above 100 gets "FF". */
  function GradeFor(average: real): (r: string)
    ensures r != "FF" <==> PassMark <= average <= 100.0
  {
    if 90.0 <= average <= 100.0 then "AA"
    else if 80.0 <= average < 90.0 then "BA"
    else if 70.0 <= average < 80.0 then "BB"
    else if 60.0 <= average < 70.0 then "CB"
    else if 50.0 <= average < 60.0 then "CC"
    else "FF"
  }

  /** The `switch` and the band table agree on every average. */
  lemma GradeForMatchesBandTable(average: real)
    ensures GradeFor(average) == Classify(GradeBands, average)
  {
    var b := GradeBands;
    assert b[4..][1..] == [];
    assert Classify(b[4..], average) == if InBand(b[4], average) then "CC" else "FF";
    assert b[3..][1..] == b[4..];
    assert Classify(b[3..], average) == if InBand(b[3], average) then "CB" else Classify(b[4..], average);
    assert b[2..][1..] == b[3..];
    assert Classify(b[2..], average) == if InBand(b[2], average) then "BB" else Classify(b[3..], average);
    assert b[1..][1..] == b[2..];
    assert Classify(b[1..], average) == if InBand(b[1], average) then "BA" else Classify(b[2..], average);
    assert Classify(b, average) == if InBand(b[0], average) then "AA" else Classify(b[1..], average);
  }

  /** `letterGrade`: one of the six grades, and "FF" exactly outside
      `[50, 100]`. */
  function LetterGrade(student: StudentGrades): (r: string)
    ensures r in ["AA", "BA", "BB", "CB", "CC", "FF"]
    ensures r != "FF" <==> PassMark <= Average(student) <= 100.0
    ensures r == Classify(GradeBands, Average(student))
  {
    GradeForMatchesBandTable(Average(student));
    GradeFor(Average(student))
  }

  /** For averages up to 100, passing and a grade other than "FF" coincide. */
  lemma PassedIffNotFailingGrade(student: StudentGrades)
    requires Average(student) <= 100.0
    ensures Passed(student) <==> LetterGrade(student) != "FF"
  {
  }

  /** Above 100 the two part ways: such a student passes with "FF". */
  lemma AboveHundredPassesWithFailingGrade()
    ensures Passed(StudentGrades("Over", [105.0]))
    ensures LetterGrade(StudentGrades("Over", [105.0])) == "FF"
  {
    assert Average(StudentGrades("Over", [105.0])) == 105.0;
  }

  /** A student whose every grade is in `[50, 100]` passes with a grade
      other than "FF". */
  lemma GradesOnScaleAtOrAboveMarkPass(student: StudentGrades)
    requires student.grades != []
    requires forall i :: 0 <= i < |student.grades| ==> PassMark <= student.grades[i] <= 100.0
    ensures Passed(student) && LetterGrade(student) != "FF"
  {
    AverageWithinGrades(student, PassMark, 100.0);
  }

  /** One line of the report: the name, the letter grade and the average
      (the source renders the average with one decimal). */
  datatype StudentReport = StudentReport(name: string, letterGrade: string, average: real)

  /** The closure that formats a report line: the student's own name and
      average, with a grade that fails exactly outside `[50, 100]`. */
  function Report(student: StudentGrades): (r: StudentReport)
    ensures r.name == student.name && r.average == Average(student)
    ensures r.letterGrade == LetterGrade(student)
    ensures r.letterGrade == Classify(GradeBands, r.average)
    ensures r.letterGrade != "FF" <==> PassMark <= r.average <= 100.0
  {
    StudentReport(student.name, LetterGrade(student), Average(student))
  }

  /** The comparator `{ $0.average > $1.average }`. */
  predicate RanksAbove(s: StudentGrades, t: StudentGrades)
  {
    Average(s) > Average(t)
  }

  lemma RanksAboveIsStrictWeak()
    ensures StrictWeakOrder(RanksAbove)
  {
  }

  /** `processStudents`: the passing students only, one report each, by
      non-increasing average. The order among equal averages is not
      specified. */
  function ProcessStudents(students: seq<StudentGrades>): (r: seq<StudentReport>)
    ensures |r| == |Filter(students, Passed)| <= |students|
    ensures forall i :: 0 <= i < |r| ==> r[i].average >= PassMark
    ensures forall i, j :: 0 <= i < j < |r| ==> r[i].average >= r[j].average
    ensures multiset(r) == multiset(Map(Filter(students, Passed), Report))
  {
    var passing := Filter(students, Passed);
    var ranked := SortBy(passing, RanksAbove);
    RanksAboveIsStrictWeak();
    SortByIsSorted(passing, RanksAbove);
    PermutationKeeps(ranked, passing, Passed);
    MapPreservesPermutation(ranked, passing, Report);
    assert |ranked| == |multiset(ranked)| == |multiset(passing)| == |passing|;
    Map(ranked, Report)
  }

  /** Every passing student has a report, and every report belongs to a
      passing student. */
  lemma ProcessStudentsReportsExactlyThePassing(students: seq<StudentGrades>)
    ensures forall s :: s in students && Passed(s) ==> Report(s) in ProcessStudents(students)
    ensures forall rep :: rep in ProcessStudents(students) ==> exists s :: s in students && Passed(s) && Report(s) == rep
  {
    var r := ProcessStudents(students);
    var formatted := Map(Filter(students, Passed), Report);
    FilterMapMembership(students, Passed, Report);
    forall rep
      ensures rep in r <==> rep in formatted
    {
      assert rep in r <==> rep in multiset(r);
      assert rep in formatted <==> rep in multiset(formatted);
    }
  }

  const Ahmet := StudentGrades("Ahmet", [85.0, 92.0, 78.0, 88.0, 91.0])
  const Ayse := StudentGrades("Ayşe", [76.0, 81.0, 85.0, 79.0, 83.0])
  const Mehmet := StudentGrades("Mehmet", [45.0, 52.0, 48.0, 41.0, 47.0])
  const Fatma := StudentGrades("Fatma", [95.0, 98.0, 92.0, 96.0, 99.0])
  const Ali := StudentGrades("Ali", [67.0, 72.0, 69.0, 74.0, 71.0])

  lemma SumOfFive(a: real, b: real, c: real, d: real, e: real)
    ensures Sum([a, b, c, d, e]) == a + b + c + d + e
  {
    assert [a, b, c, d, e][1..] == [b, c, d, e];
    assert [b, c, d, e][1..] == [c, d, e];
    assert [c, d, e][1..] == [d, e];
    assert [d, e][1..] == [e];
    assert [e][1..] == [];
    assert Sum([e]) == e;
    assert Sum([d, e]) == d + e;
    assert Sum([c, d, e]) == c + d + e;
    assert Sum([b, c, d, e]) == b + c + d + e;
  }

  /** The mean of five grades. */
  lemma AverageOfFive(student: StudentGrades, a: real, b: real, c: real, d: real, e: real)
    requires student.grades == [a, b, c, d, e]
    ensures Average(student) == (a + b + c + d + e) / 5.0
  {
    SumOfFive(a, b, c, d, e);
  }

  lemma SampleAverages()
    ensures Average(Ahmet) == 86.8 && Average(Ayse) == 80.8 && Average(Mehmet) == 46.6
    ensures Average(Fatma) == 96.0 && Average(Ali) == 70.6
  {
    AverageOfFive(Ahmet, 85.0, 92.0, 78.0, 88.0, 91.0);
    AverageOfFive(Ayse, 76.0, 81.0, 85.0, 79.0, 83.0);
    AverageOfFive(Mehmet, 45.0, 52.0, 48.0, 41.0, 47.0);
    AverageOfFive(Fatma, 95.0, 98.0, 92.0, 96.0, 99.0);
    AverageOfFive(Ali, 67.0, 72.0, 69.0, 74.0, 71.0);
  }

  lemma SamplePassing()
    ensures Filter([Ahmet, Ayse, Mehmet, Fatma, Ali], Passed) == [Ahmet, Ayse, Fatma, Ali]
  {
    SampleAverages();
    FilterFive(Ahmet, Ayse, Mehmet, Fatma, Ali, Passed);
    assert Keep(Ahmet, Passed) == [Ahmet] && Keep(Ayse, Passed) == [Ayse];
    assert Keep(Mehmet, Passed) == [];
    assert Keep(Fatma, Passed) == [Fatma] && Keep(Ali, Passed) == [Ali];
  }

  /** Two students with strictly ordered averages are ranked by them. */
  lemma RankTwo(c: StudentGrades, d: StudentGrades)
    requires Average(c) > Average(d)
    ensures SortBy([c, d], RanksAbove) == [c, d]
  {
    assert [c, d] == [c] + [d];
    assert [d] == [d] + [];
    SortByCons(d, [], RanksAbove);
    InsertInFront(d, [], RanksAbove);
    SortByCons(c, [d], RanksAbove);
    InsertInFront(c, [d], RanksAbove);
  }

  /** Three students: the middle one is inserted behind the best. */
  lemma RankThree(b: StudentGrades, c: StudentGrades, d: StudentGrades)
    requires Average(c) > Average(b) > Average(d)
    ensures SortBy([b, c, d], RanksAbove) == [c, b, d]
  {
    assert RanksAbove(c, b) && !RanksAbove(d, b);
    calc {
      SortBy([b, c, d], RanksAbove);
      { assert [b, c, d] == [b] + [c, d]; SortByCons(b, [c, d], RanksAbove); }
      Insert(b, SortBy([c, d], RanksAbove), RanksAbove);
      { RankTwo(c, d); }
      Insert(b, [c, d], RanksAbove);
      { assert [c, d] == [c] + [d]; InsertPast(b, c, [d], RanksAbove); }
      [c] + Insert(b, [d], RanksAbove);
      { InsertInFront(b, [d], RanksAbove); }
      [c] + ([b] + [d]);
      [c, b, d];
    }
  }

  /** Four students with strictly ordered averages are ranked by them. */
  lemma RankFour(a: StudentGrades, b: StudentGrades, c: StudentGrades, d: StudentGrades)
    requires Average(c) > Average(a) > Average(b) > Average(d)
    ensures SortBy([a, b, c, d], RanksAbove) == [c, a, b, d]
  {
    assert RanksAbove(c, a) && !RanksAbove(b, a);
    calc {
      SortBy([a, b, c, d], RanksAbove);
      { assert [a, b, c, d] == [a] + [b, c, d]; SortByCons(a, [b, c, d], RanksAbove); }
      Insert(a, SortBy([b, c, d], RanksAbove), RanksAbove);
      { RankThree(b, c, d); }
      Insert(a, [c, b, d], RanksAbove);
      { assert [c, b, d] == [c] + [b, d]; InsertPast(a, c, [b, d], RanksAbove); }
      [c] + Insert(a, [b, d], RanksAbove);
      { InsertInFront(a, [b, d], RanksAbove); }
      [c] + ([a] + [b, d]);
      [c, a, b, d];
    }
  }

  /** Students with equal averages keep their order: the ranking is stable. */
  lemma TiesKeepInputOrder(a: StudentGrades, b: StudentGrades)
    requires Average(a) == Average(b)
    ensures SortBy([a, b], RanksAbove) == [a, b]
  {
    assert [a, b] == [a] + [b];
    assert [b] == [b] + [];
    SortByCons(b, [], RanksAbove);
    InsertInFront(b, [], RanksAbove);
    SortByCons(a, [b], RanksAbove);
    InsertInFront(a, [b], RanksAbove);
  }

  /** `ProcessStudents` as the pipeline it is: filter, sort, format. */
  lemma ProcessStudentsPipeline(students: seq<StudentGrades>)
    ensures ProcessStudents(students) == Map(SortBy(Filter(students, Passed), RanksAbove), Report)
  {
  }

  lemma MapFour<T, U>(a: T, b: T, c: T, d: T, f: T -> U)
    ensures Map([a, b, c, d], f) == [f(a), f(b), f(c), f(d)]
  {
  }

  /** A student's report, given the student's average. */
  lemma ReportWithAverage(student: StudentGrades, average: real)
    requires Average(student) == average
    ensures Report(student) == StudentReport(student.name, GradeFor(average), average)
  {
  }

  /** The sample class: Mehmet (46.6) fails; the rest come out as Fatma
      (96.0, AA), Ahmet (86.8, BA), Ayşe (80.8, BA), Ali (70.6, BB). */
  lemma SampleStudents()
    ensures ProcessStudents([Ahmet, Ayse, Mehmet, Fatma, Ali]) == [
      StudentReport("Fatma", "AA", 96.0),
      StudentReport("Ahmet", "BA", 86.8),
      StudentReport("Ayşe", "BA", 80.8),
      StudentReport("Ali", "BB", 70.6)
    ]
  {
    var students := [Ahmet, Ayse, Mehmet, Fatma, Ali];
    calc {
      ProcessStudents(students);
      { ProcessStudentsPipeline(students); }
      Map(SortBy(Filter(students, Passed), RanksAbove), Report);
      { SamplePassing(); }
      Map(SortBy([Ahmet, Ayse, Fatma, Ali], RanksAbove), Report);
      { SampleAverages(); RankFour(Ahmet, Ayse, Fatma, Ali); }
      Map([Fatma, Ahmet, Ayse, Ali], Report);
      { MapFour(Fatma, Ahmet, Ayse, Ali, Report); }
      [Report(Fatma), Report(Ahmet), Report(Ayse), Report(Ali)];
      { SampleAverages();
        ReportWithAverage(Fatma, 96.0);
        ReportWithAverage(Ahmet, 86.8);
        ReportWithAverage(Ayse, 80.8);
        ReportWithAverage(Ali, 70.6); }
      [
        StudentReport("Fatma", "AA", 96.0),
        StudentReport("Ahmet", "BA", 86.8),
        StudentReport("Ayşe", "BA", 80.8),
        StudentReport("Ali", "BB", 70.6)
      ];
    }
  }

  // ---------------------------------------------------------------------
  // Shopping cart
  // ---------------------------------------------------------------------

  datatype ShoppingItem = ShoppingItem(name: string, price: real, quantity: int)

  /** `totalPrice`: `price * Double(quantity)`. Nothing for no units; at
      least one unit's price for one or more units at a non-negative price. */
  function TotalPrice(item: ShoppingItem): (r: real)
    ensures item.quantity == 0 ==> r == 0.0
    ensures item.quantity != 0 ==> r / (item.quantity as real) == item.price
    ensures item.price >= 0.0 && item.quantity >= 1 ==> r >= item.price
  {
    item.price * (item.quantity as real)
  }

  predicate IsExpensive(item: ShoppingItem)
  {
    TotalPrice(item) > 100.0
  }

  predicate IsCheap(item: ShoppingItem)
  {
    TotalPrice(item) <= 50.0
  }

  /** The gap between the two lists: `(50, 100]`. */
  predicate IsMidRange(item: ShoppingItem)
  {
    50.0 < TotalPrice(item) <= 100.0
  }

  function Name(item: ShoppingItem): string
  {
    item.name
  }

  /** The closure `{ $0 + $1.totalPrice }` of the cart's `reduce`. */
  function AddLine(total: real, item: ShoppingItem): real
  {
    total + TotalPrice(item)
  }

  /** `names` holds one name per line of `items` that satisfies `p`, in
      cart order: it is the names of a subsequence of the cart that keeps
      every such line, as often as it occurs, and no other line. */
  ghost predicate NamesOfLinesWhere(names: seq<string>, items: seq<ShoppingItem>, p: ShoppingItem -> bool)
  {
    exists lines :: IsSubsequence(lines, items)
                 && (forall x :: multiset(lines)[x] == if p(x) then multiset(items)[x] else 0)
                 && names == Map(lines, Name)
  }

  lemma FilteredNamesAreNamesOfLines(items: seq<ShoppingItem>, p: ShoppingItem -> bool)
    ensures NamesOfLinesWhere(Map(Filter(items, p), Name), items, p)
  {
    FilterIsSubsequence(items, p);
    FilterCounts(items, p);
  }

  datatype CartSummary = CartSummary(total: real, expensiveItems: seq<string>, cheapItems: seq<string>)

  /** The names of the lines that satisfy `p`, one per line, in cart order:
      a name is listed exactly when some such line carries it. */
  function NamesWhere(items: seq<ShoppingItem>, p: ShoppingItem -> bool): (names: seq<string>)
    ensures IsSubsequence(names, Map(items, Name))
    ensures forall item :: item in items && p(item) ==> item.name in names
    ensures forall n :: n in names ==> exists item :: item in items && p(item) && item.name == n
    ensures NamesOfLinesWhere(names, items, p)
  {
    FilteredNamesAreNamesOfLines(items, p);
    FilterIsSubsequence(items, p);
    MapPreservesSubsequence(Filter(items, p), items, Name);
    FilterMapMembership(items, p, Name);
    Map(Filter(items, p), Name)
  }

  /** `processShoppingCart`: the sum of the line totals, the names of the
      lines over 100 and the names of the lines at most 50, each list in
      cart order with one name per such line. */
  function ProcessShoppingCart(items: seq<ShoppingItem>): (r: CartSummary)
    ensures r.total == Sum(Map(items, TotalPrice))
    ensures IsSubsequence(r.expensiveItems, Map(items, Name))
    ensures IsSubsequence(r.cheapItems, Map(items, Name))
    ensures forall item :: item in items && IsExpensive(item) ==> item.name in r.expensiveItems
    ensures forall item :: item in items && IsCheap(item) ==> item.name in r.cheapItems
    ensures forall n :: n in r.expensiveItems ==> exists item :: item in items && IsExpensive(item) && item.name == n
    ensures forall n :: n in r.cheapItems ==> exists item :: item in items && IsCheap(item) && item.name == n
    ensures NamesOfLinesWhere(r.expensiveItems, items, IsExpensive)
    ensures NamesOfLinesWhere(r.cheapItems, items, IsCheap)
  {
    FoldLeftAddsWeights(0.0, items, AddLine, TotalPrice);
    CartSummary(FoldLeft(0.0, items, AddLine), NamesWhere(items, IsExpensive), NamesWhere(items, IsCheap))
  }

  /** Every line is in exactly one tier: expensive, the gap, or cheap. */
  lemma CartTiersPartition(items: seq<ShoppingItem>)
    ensures multiset(Filter(items, IsExpensive)) + multiset(Filter(items, IsMidRange)) + multiset(Filter(items, IsCheap))
         == multiset(items)
  {
    var expensive, mid, cheap :=
      multiset(Filter(items, IsExpensive)), multiset(Filter(items, IsMidRange)), multiset(Filter(items, IsCheap));
    forall x
      ensures (expensive + mid + cheap)[x] == multiset(items)[x]
    {
      FilterCount(items, IsExpensive, x);
      FilterCount(items, IsMidRange, x);
      FilterCount(items, IsCheap, x);
    }
    assert expensive + mid + cheap == multiset(items);
  }

  /** An empty cart costs nothing and lists nothing. */
  lemma EmptyCart()
    ensures ProcessShoppingCart([]) == CartSummary(0.0, [], [])
  {
  }

  /** One line at a non-negative price and quantity costs a non-negative amount. */
  lemma LineTotalNonNegative(item: ShoppingItem)
    requires item.price >= 0.0 && item.quantity >= 0
    ensures TotalPrice(item) >= 0.0
  {
    var q := item.quantity as real;
    assert q >= 0.0;
    assert item.price * q >= 0.0 * q;
  }

  /** Line totals at non-negative prices and quantities add up to a
      non-negative amount. */
  lemma LineTotalsNonNegative(items: seq<ShoppingItem>)
    requires forall i :: 0 <= i < |items| ==> items[i].price >= 0.0 && items[i].quantity >= 0
    ensures Sum(Map(items, TotalPrice)) >= 0.0
  {
    var lines := Map(items, TotalPrice);
    forall i | 0 <= i < |lines|
      ensures 0.0 <= lines[i]
    {
      LineTotalNonNegative(items[i]);
    }
    SumAtLeast(lines, 0.0);
  }

  /** With non-negative prices and quantities the total is non-negative. */
  lemma CartTotalNonNegative(items: seq<ShoppingItem>)
    requires forall i :: 0 <= i < |items| ==> items[i].price >= 0.0 && items[i].quantity >= 0
    ensures ProcessShoppingCart(items).total >= 0.0
  {
    LineTotalsNonNegative(items);
  }

  ghost predicate DistinctNames(items: seq<ShoppingItem>)
  {
    forall i, j :: 0 <= i < |items| && 0 <= j < |items| && i != j ==> items[i].name != items[j].name
  }

  /** When names are distinct, a name picks out one line of the cart. */
  lemma NameDeterminesLine(items: seq<ShoppingItem>, a: ShoppingItem)
    requires DistinctNames(items)
    requires a in items
    ensures forall b :: b in items && b.name == a.name ==> b == a
  {
    var i :| 0 <= i < |items| && items[i] == a;
    forall b | b in items && b.name == a.name
      ensures b == a
    {
      var j :| 0 <= j < |items| && items[j] == b;
      assert items[j].name == items[i].name;
    }
  }

  /** When no two lines share a name, no name is in both lists. */
  lemma DistinctNamesNeverInBothLists(items: seq<ShoppingItem>)
    requires DistinctNames(items)
    ensures forall n :: n in ProcessShoppingCart(items).expensiveItems ==> n !in ProcessShoppingCart(items).cheapItems
  {
    var r := ProcessShoppingCart(items);
    forall n | n in r.expensiveItems
      ensures n !in r.cheapItems
    {
      var a :| a in items && IsExpensive(a) && a.name == n;
      NameDeterminesLine(items, a);
    }
  }

  /** When no two lines share a name, a line in the gap `(50, 100]` is in
      neither list. */
  lemma MidRangeInNeitherList(items: seq<ShoppingItem>, k: nat)
    requires DistinctNames(items)
    requires k < |items| && IsMidRange(items[k])
    ensures items[k].name !in ProcessShoppingCart(items).expensiveItems
    ensures items[k].name !in ProcessShoppingCart(items).cheapItems
  {
    NameDeterminesLine(items, items[k]);
  }

  /** Names need not be distinct: two "Pen" lines, one over 100 and one
      under 50, put "Pen" in both lists. */
  lemma SharedNameInBothLists()
    ensures "Pen" in ProcessShoppingCart([ShoppingItem("Pen", 200.0, 1), ShoppingItem("Pen", 1.0, 1)]).expensiveItems
    ensures "Pen" in ProcessShoppingCart([ShoppingItem("Pen", 200.0, 1), ShoppingItem("Pen", 1.0, 1)]).cheapItems
  {
    var items := [ShoppingItem("Pen", 200.0, 1), ShoppingItem("Pen", 1.0, 1)];
    assert IsExpensive(items[0]) && IsCheap(items[1]);
  }

  /** `ProcessShoppingCart` as the pipelines it is made of. */
  lemma ProcessShoppingCartPipeline(items: seq<ShoppingItem>)
    ensures ProcessShoppingCart(items).expensiveItems == Map(Filter(items, IsExpensive), Name)
    ensures ProcessShoppingCart(items).cheapItems == Map(Filter(items, IsCheap), Name)
  {
  }

  /** The expensive lines of a five-line cart whose lines 1, 3 and 4 cost
      more than 100 and whose lines 2 and 5 cost at most 50. */
  lemma FiveLineCartExpensive(a: ShoppingItem, b: ShoppingItem, c: ShoppingItem, d: ShoppingItem, e: ShoppingItem)
    requires IsExpensive(a) && IsCheap(b) && IsExpensive(c) && IsExpensive(d) && IsCheap(e)
    ensures Map(Filter([a, b, c, d, e], IsExpensive), Name) == [a.name, c.name, d.name]
  {
    FilterFive(a, b, c, d, e, IsExpensive);
    assert Keep(a, IsExpensive) == [a] && Keep(b, IsExpensive) == [];
    assert Keep(c, IsExpensive) == [c] && Keep(d, IsExpensive) == [d] && Keep(e, IsExpensive) == [];
    assert Filter([a, b, c, d, e], IsExpensive) == [a, c, d];
  }

  /** The cheap lines of the same five-line cart. */
  lemma FiveLineCartCheap(a: ShoppingItem, b: ShoppingItem, c: ShoppingItem, d: ShoppingItem, e: ShoppingItem)
    requires IsExpensive(a) && IsCheap(b) && IsExpensive(c) && IsExpensive(d) && IsCheap(e)
    ensures Map(Filter([a, b, c, d, e], IsCheap), Name) == [b.name, e.name]
  {
    FilterFive(a, b, c, d, e, IsCheap);
    assert Keep(a, IsCheap) == [] && Keep(b, IsCheap) == [b];
    assert Keep(c, IsCheap) == [] && Keep(d, IsCheap) == [] && Keep(e, IsCheap) == [e];
    assert Filter([a, b, c, d, e], IsCheap) == [b, e];
  }

  /** The total of a five-line cart: the sum of its line totals. */
  lemma FiveLineCartTotal(a: ShoppingItem, b: ShoppingItem, c: ShoppingItem, d: ShoppingItem, e: ShoppingItem)
    ensures Sum(Map([a, b, c, d, e], TotalPrice))
         == TotalPrice(a) + TotalPrice(b) + TotalPrice(c) + TotalPrice(d) + TotalPrice(e)
  {
    assert Map([a, b, c, d, e], TotalPrice) == [TotalPrice(a), TotalPrice(b), TotalPrice(c), TotalPrice(d), TotalPrice(e)];
    SumOfFive(TotalPrice(a), TotalPrice(b), TotalPrice(c), TotalPrice(d), TotalPrice(e));
  }

  /** The summary of such a five-line cart. */
  lemma FiveLineCart(a: ShoppingItem, b: ShoppingItem, c: ShoppingItem, d: ShoppingItem, e: ShoppingItem)
    requires IsExpensive(a) && IsCheap(b) && IsExpensive(c) && IsExpensive(d) && IsCheap(e)
    ensures ProcessShoppingCart([a, b, c, d, e]) == CartSummary(
      TotalPrice(a) + TotalPrice(b) + TotalPrice(c) + TotalPrice(d) + TotalPrice(e),
      [a.name, c.name, d.name],
      [b.name, e.name])
  {
    ProcessShoppingCartPipeline([a, b, c, d, e]);
    FiveLineCartExpensive(a, b, c, d, e);
    FiveLineCartCheap(a, b, c, d, e);
    FiveLineCartTotal(a, b, c, d, e);
  }

  /** The sample cart: 2855 in all; Laptop, Klavye and Kitap over 100;
      Mouse and Kalem at most 50. */
  lemma SampleCart()
    ensures ProcessShoppingCart([
      ShoppingItem("Laptop", 2500.0, 1),
      ShoppingItem("Mouse", 25.0, 2),
      ShoppingItem("Klavye", 150.0, 1),
      ShoppingItem("Kitap", 35.0, 3),
      ShoppingItem("Kalem", 5.0, 10)
    ]) == CartSummary(2855.0, ["Laptop", "Klavye", "Kitap"], ["Mouse", "Kalem"])
  {
    var laptop, mouse, keyboard, book, pen :=
      ShoppingItem("Laptop", 2500.0, 1),
      ShoppingItem("Mouse", 25.0, 2),
      ShoppingItem("Klavye", 150.0, 1),
      ShoppingItem("Kitap", 35.0, 3),
      ShoppingItem("Kalem", 5.0, 10);
    assert TotalPrice(laptop) == 2500.0 && TotalPrice(mouse) == 50.0 && TotalPrice(keyboard) == 150.0;
    assert TotalPrice(book) == 105.0 && TotalPrice(pen) == 50.0;
    FiveLineCart(laptop, mouse, keyboard, book, pen);
  }
}
