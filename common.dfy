/** The .NET exceptions the modelled code can raise, and the result type that carries them. */
module Errors {
  datatype Error =
    | Argument            // ArgumentException (missing file, bad Bitmap path)
    | ArgumentNull        // ArgumentNullException (null dictionary key)
    | ArgumentOutOfRange  // ArgumentOutOfRangeException (List indexer, Bitmap.GetPixel)
    | IndexOutOfRange     // IndexOutOfRangeException (array indexer)
    | Format              // FormatException (number parsing, face arity)
    | Overflow            // OverflowException (int.Parse beyond 32 bits)
    | KeyNotFound         // KeyNotFoundException (Dictionary indexer)
    | NullReference       // NullReferenceException
    | InvalidOperation    // InvalidOperationException (matrix dimensions)
    | Aggregate           // AggregateException raised by Task.WaitAll

  datatype Option<+T> = None | Some(value: T)

  datatype Result<+T> = Ok(value: T) | Fail(error: Error)
  {
    predicate IsFailure() { Fail? }

    function PropagateFailure<U>(): Result<U>
      requires Fail?
    {
      Fail(error)
    }

    function Extract(): T
      requires Ok?
    {
      value
    }
  }
}

/** The parts of System.Math and of single-precision floats the code relies on. */
module SystemMath {
  /** Math.Sqrt. Nothing about it is assumed: lemmas that need a root take it as a hypothesis. */
  const Sqrt: real -> real

  /** Math.Tan, equally uninterpreted. */
  const Tan: real -> real

  /** (float)Math.PI */
  const Pi: real := 3.1415927410125732421875

  /** float.MaxValue */
  const FloatMaxValue: real := 340282346638528859811704183484516925440.0

  /** A float that may have left the finite range. */
  datatype FloatValue = Finite(value: real) | Infinite | NaN

  /**
   * Float division a / b: a zero divisor gives an infinity, or NaN when the dividend is zero too.
   * The sign of an infinity depends on the sign of the zero, which reals do not carry.
   */
  function FloatDiv(a: real, b: real): (q: FloatValue)
    ensures q.Finite? <==> b != 0.0
    ensures q.Finite? ==> q.value * b == a
    ensures q.NaN? <==> b == 0.0 && a == 0.0
  {
    if b != 0.0 then Finite(a / b) else if a == 0.0 then NaN else Infinite
  }

  /** The (int) cast of a float: truncation toward zero. */
  function Trunc(x: real): int
  {
    if x >= 0.0 then x.Floor else -((-x).Floor)
  }

  /** C#'s % on floats: the remainder of truncating division, with the sign of the dividend. */
  function FloatRem(a: real, b: real): real
    requires b != 0.0
  {
    a - b * (Trunc(a / b) as real)
  }

  lemma TruncTowardZero(x: real)
    ensures x >= 0.0 ==> 0.0 <= Trunc(x) as real <= x < Trunc(x) as real + 1.0
    ensures x < 0.0 ==> Trunc(x) as real - 1.0 < x <= Trunc(x) as real <= 0.0
  {
  }

  /** x % 1 keeps the sign of x and drops the integral part. */
  lemma FloatRemOne(x: real)
    ensures x >= 0.0 ==> 0.0 <= FloatRem(x, 1.0) < 1.0
    ensures x < 0.0 ==> -1.0 < FloatRem(x, 1.0) <= 0.0
    ensures (x - FloatRem(x, 1.0)).Floor as real == x - FloatRem(x, 1.0)
  {
    TruncTowardZero(x);
    var t := Trunc(x) as real;
    assert x / 1.0 == x;
    assert FloatRem(x, 1.0) == x - t;
    assert x - FloatRem(x, 1.0) == t;
  }
}
