# Functions and closures: calculator, array processor, real-world reports

A Dafny model of `Homework1_2_Calculator_Closures.swift`, the "functions and
closures" homework of a Swift/SwiftUI bootcamp. The file is made of pure
functions over values: the Swift structs have no mutable state. The model
therefore uses datatypes, functions and lemmas, in four modules:

- `Sequences` models the Swift `Array` operations the file is built from:
  `filter`, `map`, `reduce(_:_:)` and `sorted(by:)`. Each is a recursive
  function, with lemmas about its order, its element counts, its membership,
  folding, and sorting under a strict weak order.
- `Calculator` models the four arithmetic operations, the `CalculatorOperation`
  and `CalculatorError` enums, and `Calculator`'s `calculate`,
  `calculateWithClosure`, `calculateWithThrowingClosure` and
  `calculateMultiple`.
  - A throwing call returns `Result<real, E>`, either `Ok(value)` or
    `Err(error)`. Here `E` is `CalculatorError` for `divide` and `calculate`,
    and any error type for the closure passed to
    `calculateWithThrowingClosure`. `Double?` becomes `Option<real>`.
  - `calculateMultiple` calls `numbers.reduce(numbers[0])` over the whole
    array, so the first number is combined with itself. The model keeps this
    behaviour and proves what it does: with addition the result is the sum
    plus the first number, so `[1, 2, 3]` gives 7.
- `ArrayProcessor` models the odd, even and custom filters, the
  ascending/descending sort, the comparator sort, `map` and `reduce` over
  `[Int]`.
- `RealWorldExamples` models `StudentGrades` (average, passed, letter grade),
  `processStudents`, `ShoppingItem.totalPrice` and `processShoppingCart`. It
  also states what both pipelines produce for the sample class and the
  sample cart.

`Double` is modelled as `real` and `Int` as `int`.

## Model

| member | source | states |
|---|---|---|
| Sequences.Filter | Content/Week1/Homework1_2_Calculator_Closures.swift:108 | `filter` returns no more elements than its input, and every element it returns satisfies the predicate |
| Sequences.FilterIsSubsequence | Content/Week1/Homework1_2_Calculator_Closures.swift:118 | `filter` keeps the surviving elements in their original order |
| Sequences.FilterCount | Content/Week1/Homework1_2_Calculator_Closures.swift:118 | a value that satisfies the predicate survives `filter` as often as it occurs in the input; any other value does not survive |
| Sequences.FilterMembership | Content/Week1/Homework1_2_Calculator_Closures.swift:118 | a value is in the filtered array if and only if it is in the input and satisfies the predicate |
| Sequences.FilterPartition | Content/Week1/Homework1_2_Calculator_Closures.swift:107-113 | filters by a predicate and by its negation split the input: their element counts and lengths add up to the input's, and no value is in both |
| Sequences.Map | Content/Week1/Homework1_2_Calculator_Closures.swift:136 | `map` returns one element per input element: the transform of the element at the same position |
| Sequences.MapPreservesPermutation | Content/Week1/Homework1_2_Calculator_Closures.swift:178-181 | mapping two rearrangements of the same elements gives rearrangements of the same results |
| Sequences.MapPreservesSubsequence | Content/Week1/Homework1_2_Calculator_Closures.swift:199-205 | mapping keeps a subsequence a subsequence |
| Sequences.FilterMapMembership | Content/Week1/Homework1_2_Calculator_Closures.swift:199-205 | a value is in `filter` followed by `map` if and only if it is the image of an input element that satisfies the predicate |
| Sequences.FoldLeft | Content/Week1/Homework1_2_Calculator_Closures.swift:141 | `reduce` of an empty array is the initial value; `FoldLeftAppend` gives every further step |
| Sequences.FoldLeftAppend | Content/Week1/Homework1_2_Calculator_Closures.swift:141 | `reduce` over one more element applies the operation once more, to the previous result and that element |
| Sequences.FoldLeftAddsWeights | Content/Week1/Homework1_2_Calculator_Closures.swift:197 | a `reduce` whose step adds a weight equals the initial value plus the sum of the weights |
| Sequences.SumAtLeast | Content/Week1/Homework1_2_Calculator_Closures.swift:156 | a sum of values that are each at least `lo` is at least `lo` times their number |
| Sequences.SumAtMost | Content/Week1/Homework1_2_Calculator_Closures.swift:156 | a sum of values that are each at most `hi` is at most `hi` times their number |
| Sequences.PermutationKeeps | Content/Week1/Homework1_2_Calculator_Closures.swift:179-180 | if every element of an array satisfies a predicate, every element of a rearrangement of it does too |
| Sequences.Insert | Content/Week1/Homework1_2_Calculator_Closures.swift:132 | inserting an element adds exactly that element to the array's contents |
| Sequences.SortBy | Content/Week1/Homework1_2_Calculator_Closures.swift:132 | `sorted(by:)` returns a rearrangement of its input |
| Sequences.InsertKeepsSorted | Content/Week1/Homework1_2_Calculator_Closures.swift:132 | under a strict weak order, inserting into a sorted array keeps it sorted |
| Sequences.SortByIsSorted | Content/Week1/Homework1_2_Calculator_Closures.swift:132 | under a strict weak order, no element of the result is ordered before an element to its left |
| Calculator.Description | Content/Week1/Homework1_2_Calculator_Closures.swift:25-32 | "Division by zero error!" is the message of `divisionByZero` and of no other error |
| Calculator.DescriptionsDiffer | Content/Week1/Homework1_2_Calculator_Closures.swift:25-32 | `description` gives the two errors different messages, so a caller can tell them apart |
| Calculator.Add | Content/Week1/Homework1_2_Calculator_Closures.swift:39-41 | subtracting `b` from the sum gives back `a` |
| Calculator.Subtract | Content/Week1/Homework1_2_Calculator_Closures.swift:45-47 | the difference plus `b` is `a` |
| Calculator.Multiply | Content/Week1/Homework1_2_Calculator_Closures.swift:51-53 | dividing the product by a nonzero `b` gives back `a`, and the product with `b` zero is 0, so the product is fixed for every input |
| Calculator.Divide | Content/Week1/Homework1_2_Calculator_Closures.swift:57-62 | throws if and only if the divisor is zero, and the error is then `divisionByZero`; otherwise the quotient times `b` is `a` |
| Calculator.Calculate | Content/Week1/Homework1_2_Calculator_Closures.swift:70-81 | fails if and only if the operation is division and `b` is zero, and then only with `divisionByZero`; each tag runs its own operation |
| Calculator.CalculateWithClosure | Content/Week1/Homework1_2_Calculator_Closures.swift:84-86 | the result is the closure applied once to `(a, b)` |
| Calculator.CalculateWithThrowingClosure | Content/Week1/Homework1_2_Calculator_Closures.swift:88-90 | the result is the closure's value or its error, of whatever error type, unchanged |
| Calculator.ClosureAgreesWithCalculate | Content/Week1/Homework1_2_Calculator_Closures.swift:70-86 | passing `add`, `subtract` or `multiply` as a closure gives what `calculate` gives for the matching tag |
| Calculator.ThrowingClosureAgreesWithCalculate | Content/Week1/Homework1_2_Calculator_Closures.swift:70-90 | passing `divide` as a throwing closure gives what `calculate` gives for division, error included |
| Calculator.CalculateMultiple | Content/Week1/Homework1_2_Calculator_Closures.swift:93-98 | `nil` if and only if there are no numbers; otherwise the first number combined with itself, with the rest folded in from the left |
| Calculator.CalculateMultipleAddCountsFirstTwice | Content/Week1/Homework1_2_Calculator_Closures.swift:93-98 | with addition the result is the sum of the numbers plus the first number |
| Calculator.CalculateMultipleAddExample | Content/Week1/Homework1_2_Calculator_Closures.swift:93-98 | adding up `[1, 2, 3]` gives 7 |
| ArrayProcessor.FilterOddNumbers | Content/Week1/Homework1_2_Calculator_Closures.swift:107-109 | exactly the odd numbers, every occurrence of each, in their original order |
| ArrayProcessor.FilterEvenNumbers | Content/Week1/Homework1_2_Calculator_Closures.swift:111-113 | exactly the even numbers, every occurrence of each, in their original order |
| ArrayProcessor.OddEvenPartition | Content/Week1/Homework1_2_Calculator_Closures.swift:107-113 | every number of the input is in exactly one of the odd and even results, and the two results together hold the input's contents |
| ArrayProcessor.Filter | Content/Week1/Homework1_2_Calculator_Closures.swift:117-119 | exactly the numbers that satisfy the condition, every occurrence of each, in their original order |
| ArrayProcessor.IntegerOrdersAreStrictWeak | Content/Week1/Homework1_2_Calculator_Closures.swift:124-126 | `<` and `>` on integers are strict weak orders, as `sorted(by:)` demands |
| ArrayProcessor.Sort | Content/Week1/Homework1_2_Calculator_Closures.swift:122-128 | a rearrangement of the input, non-decreasing when `ascending` (true by default) and non-increasing otherwise |
| ArrayProcessor.SortBy | Content/Week1/Homework1_2_Calculator_Closures.swift:131-133 | for a strict weak order, a rearrangement of the input in which no element is ordered before one to its left |
| ArrayProcessor.SortedPermutationsAreEqual | Content/Week1/Homework1_2_Calculator_Closures.swift:122-128 | two non-decreasing rearrangements of the same numbers are equal, so the ascending sort has only one possible result |
| ArrayProcessor.SortDescendingReversesAscending | Content/Week1/Homework1_2_Calculator_Closures.swift:122-128 | the descending sort is the ascending sort read backwards |
| ArrayProcessor.Map | Content/Week1/Homework1_2_Calculator_Closures.swift:135-137 | one output per input, each the transform of the number at the same position |
| ArrayProcessor.Reduce | Content/Week1/Homework1_2_Calculator_Closures.swift:140-142 | an empty array reduces to the initial value |
| ArrayProcessor.ReduceIsLeftFold | Content/Week1/Homework1_2_Calculator_Closures.swift:140-142 | reducing one more number applies the operation once more, to the previous result and that number |
| RealWorldExamples.Average | Content/Week1/Homework1_2_Calculator_Closures.swift:154-157 | 0 with no grades; otherwise the value that, times the number of grades, gives their sum |
| RealWorldExamples.AverageWithinGrades | Content/Week1/Homework1_2_Calculator_Closures.swift:154-157 | the average lies between any lower and upper bound of all the grades |
| RealWorldExamples.Passed | Content/Week1/Homework1_2_Calculator_Closures.swift:159-161 | a student with no grades (average 0) does not pass; `PassedIffNotFailingGrade` relates passing to the letter grade |
| RealWorldExamples.GradeBandsDisjoint | Content/Week1/Homework1_2_Calculator_Closures.swift:164-171 | no average falls into two bands of the letter-grade table |
| RealWorldExamples.GradeFor | Content/Week1/Homework1_2_Calculator_Closures.swift:163-172 | the grade is something other than "FF" if and only if the average is in `[50, 100]` |
| RealWorldExamples.GradeForMatchesBandTable | Content/Week1/Homework1_2_Calculator_Closures.swift:163-172 | the `switch` gives, for every average, the grade of the first band of the table that holds it, or "FF" |
| RealWorldExamples.LetterGrade | Content/Week1/Homework1_2_Calculator_Closures.swift:163-172 | the grade is the one of the first band of the table `[90, 100]` AA, `[80, 90)` BA, `[70, 80)` BB, `[60, 70)` CB, `[50, 60)` CC that holds the average, or FF; so it is FF exactly when the average is outside `[50, 100]` |
| RealWorldExamples.PassedIffNotFailingGrade | Content/Week1/Homework1_2_Calculator_Closures.swift:159-172 | for averages up to 100, a student passes if and only if the letter grade is not "FF" |
| RealWorldExamples.AboveHundredPassesWithFailingGrade | Content/Week1/Homework1_2_Calculator_Closures.swift:159-172 | an average above 100 passes but gets "FF", because `90...100` stops at 100 |
| RealWorldExamples.GradesOnScaleAtOrAboveMarkPass | Content/Week1/Homework1_2_Calculator_Closures.swift:154-172 | a student whose grades are all in `[50, 100]` passes with a grade other than "FF" |
| RealWorldExamples.RanksAboveIsStrictWeak | Content/Week1/Homework1_2_Calculator_Closures.swift:180 | ordering by higher average is a strict weak order |
| RealWorldExamples.Report | Content/Week1/Homework1_2_Calculator_Closures.swift:181 | the report line carries the student's own name, average and letter grade, the band-table grade of that average |
| RealWorldExamples.ProcessStudents | Content/Week1/Homework1_2_Calculator_Closures.swift:177-182 | one report per passing student and no others; every average in the report is at least 50; averages never increase down the list; the reports are those of the passing students, rearranged |
| RealWorldExamples.ProcessStudentsReportsExactlyThePassing | Content/Week1/Homework1_2_Calculator_Closures.swift:177-182 | every passing student has a report, and every report belongs to a passing student |
| RealWorldExamples.SampleAverages | Content/Week1/Homework1_2_Calculator_Closures.swift:321-327 | the sample averages are 86.8, 80.8, 46.6, 96.0 and 70.6 |
| RealWorldExamples.SamplePassing | Content/Week1/Homework1_2_Calculator_Closures.swift:321-327 | of the sample class, all but Mehmet pass |
| RealWorldExamples.RankFour | Content/Week1/Homework1_2_Calculator_Closures.swift:180 | students `[a, b, c, d]` with averages c > a > b > d, the sample's arrangement once Mehmet is filtered out, are ranked `[c, a, b, d]` |
| RealWorldExamples.TiesKeepInputOrder | Content/Week1/Homework1_2_Calculator_Closures.swift:180 | two students with equal averages keep their input order in the ranking |
| RealWorldExamples.SampleStudents | Content/Week1/Homework1_2_Calculator_Closures.swift:321-330 | the sample class reports Fatma (AA, 96.0), Ahmet (BA, 86.8), Ayşe (BA, 80.8) and Ali (BB, 70.6), in that order |
| RealWorldExamples.TotalPrice | Content/Week1/Homework1_2_Calculator_Closures.swift:190-192 | zero units cost nothing; otherwise the total divided by the quantity is the unit price, i.e. the total is price times quantity; one or more units at a non-negative price cost at least the unit price |
| RealWorldExamples.ProcessShoppingCart | Content/Week1/Homework1_2_Calculator_Closures.swift:196-208 | the total is the sum of the line totals; each list is the names of a subsequence of the cart holding every line over 100 (or at most 50), as often as it occurs, and no other line, so there is one name per such line in cart order; a name is listed if and only if a line with that name qualifies |
| RealWorldExamples.CartTiersPartition | Content/Week1/Homework1_2_Calculator_Closures.swift:199-205 | every line is in exactly one tier: over 100, in `(50, 100]`, or at most 50 |
| RealWorldExamples.EmptyCart | Content/Week1/Homework1_2_Calculator_Closures.swift:196-208 | an empty cart totals 0 and lists nothing |
| RealWorldExamples.CartTotalNonNegative | Content/Week1/Homework1_2_Calculator_Closures.swift:197 | with non-negative prices and quantities the total is non-negative |
| RealWorldExamples.DistinctNamesNeverInBothLists | Content/Week1/Homework1_2_Calculator_Closures.swift:199-205 | when no two lines share a name, no name is in both lists |
| RealWorldExamples.MidRangeInNeitherList | Content/Week1/Homework1_2_Calculator_Closures.swift:199-205 | when no two lines share a name, a line costing more than 50 and at most 100 is in neither list |
| RealWorldExamples.SharedNameInBothLists | Content/Week1/Homework1_2_Calculator_Closures.swift:199-205 | names need not be distinct: two lines named "Pen", one over 100 and one under 50, put "Pen" in both lists |
| RealWorldExamples.FiveLineCart | Content/Week1/Homework1_2_Calculator_Closures.swift:196-208 | a five-line cart whose lines 1, 3 and 4 cost over 100 and whose lines 2 and 5 cost at most 50 lists lines 1, 3 and 4 as expensive and lines 2 and 5 as cheap, and totals its line totals |
| RealWorldExamples.SampleCart | Content/Week1/Homework1_2_Calculator_Closures.swift:338-347 | the sample cart totals 2855; Laptop, Klavye and Kitap are expensive; Mouse and Kalem are cheap |

## Left out

- `Content/Week2/HW2.swift`, the SwiftUI profile card and tap game, is not part of this model. It is views, timers and random positions, with nothing to state about values.
- The demo drivers `demonstrateCalculator`, `demonstrateRealWorldExamples` and `demonstrateFunctionsAndClosures` (lines 213-385) only print. The sample data they pass in is modelled by `SampleStudents` and `SampleCart`.
- `Double` is modelled as `real`: no rounding, no infinities, no NaN. `Divide`'s guard is `b == 0.0` on reals. The sample results (for example Ahmet's 86.8) are exact here and may differ from IEEE-754 in the last bit.
- `Int` is modelled as unbounded `int`. Swift traps on 64-bit overflow in `$0 * $0` or in a `reduce` sum; the model never overflows.
- `RealWorldExamples.ProcessStudents`: the report line is the datatype `StudentReport(name, letterGrade, average)`, not the string `"name: grade (average)"`. The `%.1f` rendering of the average is not modelled.
- `Sequences.SortBy`, `ArrayProcessor.SortBy`, `ArrayProcessor.Sort`, `RealWorldExamples.ProcessStudents`: `sorted(by:)` is modelled as an insertion sort that keeps tied elements in input order, like Swift's stable sort. Their contracts state that the result is a rearrangement and is sorted. Only `RealWorldExamples.TiesKeepInputOrder` states tie order, for two students.
- `ArrayProcessor.SortBy`: the comparator must be a strict weak order, as Swift's `sorted(by:)` requires. Nothing is stated for other comparators.
- `ArrayProcessor.Reduce`: its contract covers only the empty array. `ArrayProcessor.ReduceIsLeftFold` states the rest, because the operation is arbitrary.
- `CalculatorError.invalidOperation` is declared but never thrown in the file. The model declares it, and `Divide` and `Calculate` prove that they never produce it.
- `IsOdd` and `IsEven` use Dafny's Euclidean `%`, while Swift's `%` truncates toward zero. The remainders differ for negative odd numbers (-1 against 1), but both are nonzero exactly for odd numbers, so the classification is the same.
