/** The calculator: four arithmetic operations on `Double` (modelled as
    `real`), a dispatcher over an operation tag, and the entry points that
    apply a caller-supplied strategy instead. */
module Calculator {
  import opened Sequences

  datatype CalculatorOperation = Addition | Subtraction | Multiplication | Division

  /** The calculator's error; `InvalidOperation` is declared but nothing raises it. */
  datatype CalculatorError = DivisionByZero | InvalidOperation

  /** A value or the error a throwing call raised. */
  datatype Result<T, E> = Ok(value: T) | Err(error: E)

  /** Swift's `Double?`. */
  datatype Option<T> = None | Some(value: T)

  /** `description`: the division-by-zero message belongs to that error
      and to no other. */
  function Description(e: CalculatorError): (r: string)
    ensures r == "Division by zero error!" <==> e == DivisionByZero
  {
    match e
    case DivisionByZero => "Division by zero error!"
    case InvalidOperation => "Invalid operation!"
  }

  /** The two errors print differently, so a caller can tell them apart. */
  lemma DescriptionsDiffer()
    ensures Description(DivisionByZero) != Description(InvalidOperation)
  {
    assert Description(DivisionByZero)[0] != Description(InvalidOperation)[0];
  }

  /** Subtracting `b` from the sum gives back `a`. */
  function Add(a: real, b: real): (r: real)
    ensures Subtract(r, b) == a
  {
    a + b
  }

  /** The difference is what must be added to `b` to reach `a`. */
  function Subtract(a: real, b: real): (r: real)
    ensures r + b == a
  {
    a - b
  }

  /** Dividing the product by a nonzero `b` gives back `a`; multiplying
      by zero gives zero. */
  function Multiply(a: real, b: real): (r: real)
    ensures b != 0.0 ==> r / b == a
    ensures b == 0.0 ==> r == 0.0
  {
    a * b
  }

  /** Fails with `DivisionByZero` exactly when the divisor is zero, and
      with no other error; otherwise the quotient times `b` is `a`. */
  function Divide(a: real, b: real): (r: Result<real, CalculatorError>)
    ensures r.Err? <==> b == 0.0
    ensures r.Err? ==> r.error == DivisionByZero
    ensures r.Ok? ==> Multiply(r.value, b) == a
  {
    if b == 0.0 then Err(DivisionByZero) else Ok(a / b)
  }

  /** `Calculator.calculate`: runs the operation the tag names. Only
      division can fail, only on a zero divisor, and its error is passed on
      unchanged. */
  function Calculate(a: real, b: real, operation: CalculatorOperation): (r: Result<real, CalculatorError>)
    ensures r.Err? <==> operation == Division && b == 0.0
    ensures r.Err? ==> r.error == DivisionByZero
    ensures operation == Addition ==> r == Ok(Add(a, b))
    ensures operation == Subtraction ==> r == Ok(Subtract(a, b))
    ensures operation == Multiplication ==> r == Ok(Multiply(a, b))
    ensures operation == Division ==> r == Divide(a, b)
  {
    match operation
    case Addition => Ok(Add(a, b))
    case Subtraction => Ok(Subtract(a, b))
    case Multiplication => Ok(Multiply(a, b))
    case Division => Divide(a, b)
  }

  /** `calculateWithClosure`: the caller's strategy, applied once to `(a, b)`. */
  function CalculateWithClosure(a: real, b: real, operation: (real, real) -> real): (r: real)
    ensures r == operation(a, b)
  {
    operation(a, b)
  }

  /** `calculateWithThrowingClosure`: the strategy's value or its error,
      whatever its type, unchanged. */
  function CalculateWithThrowingClosure<E>(a: real, b: real, operation: (real, real) -> Result<real, E>): (r: Result<real, E>)
    ensures r == operation(a, b)
  {
    operation(a, b)
  }

  /** A strategy and the dispatcher agree: passing the matching function
      to `CalculateWithClosure` gives what `Calculate` gives for the three
      tags that cannot fail. */
  lemma ClosureAgreesWithCalculate(a: real, b: real)
    ensures Calculate(a, b, Addition) == Ok(CalculateWithClosure(a, b, Add))
    ensures Calculate(a, b, Subtraction) == Ok(CalculateWithClosure(a, b, Subtract))
    ensures Calculate(a, b, Multiplication) == Ok(CalculateWithClosure(a, b, Multiply))
  {
  }

  /** Passing `Divide` as a throwing strategy reproduces `Calculate`'s
      division, error included. */
  lemma ThrowingClosureAgreesWithCalculate(a: real, b: real)
    ensures CalculateWithThrowingClosure(a, b, Divide) == Calculate(a, b, Division)
  {
  }

  /** `calculateMultiple`: no result for no numbers; otherwise
      `numbers.reduce(numbers[0], operation)` over the WHOLE array, so the
      first number is combined with itself before the rest are folded in. */
  function CalculateMultiple(numbers: seq<real>, operation: (real, real) -> real): (r: Option<real>)
    ensures r.None? <==> numbers == []
    ensures r.Some? ==> r.value == FoldLeft(operation(numbers[0], numbers[0]), numbers[1..], operation)
  {
    if numbers == [] then None else Some(FoldLeft(numbers[0], numbers, operation))
  }

  /** With addition as the strategy the first number is counted twice: the
      result is the sum plus `numbers[0]`. */
  lemma CalculateMultipleAddCountsFirstTwice(numbers: seq<real>)
    requires numbers != []
    ensures CalculateMultiple(numbers, Add) == Some(numbers[0] + Sum(numbers))
  {
    FoldLeftAddsWeights(numbers[0], numbers, Add, Identity);
    assert Map(numbers, Identity) == numbers;
  }

  /** The quirk on the smallest example: adding up `[1, 2, 3]` gives 7. */
  lemma CalculateMultipleAddExample()
    ensures CalculateMultiple([1.0, 2.0, 3.0], Add) == Some(7.0)
  {
    CalculateMultipleAddCountsFirstTwice([1.0, 2.0, 3.0]);
  }
}
