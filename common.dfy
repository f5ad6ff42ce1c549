/** Shared result and error types of the analytics core. */
module Common {

  /** The outcome of an operation that can fail, in place of a raised exception. */
  datatype Result<+T> = Success(value: T) | Failure(error: Error)

  /** The exceptions the analysis of one request can raise. */
  datatype Error =
    | NoLatestCycle                  // `cycle_lengths[-1]` on an empty list
    | MisalignedHistory              // the three history prefixes differ in length
    | InvalidFlowLabel(badLabel: string) // a flow label missing from the encoding table

  function Min(a: int, b: int): int { if a <= b then a else b }

  function Max(a: int, b: int): int { if a >= b then a else b }

  /** Python's `s[:-1]`: everything but the last element, and `[]` for `[]`. */
  function DropLast<T>(s: seq<T>): (r: seq<T>)
    ensures |r| == if |s| == 0 then 0 else |s| - 1
    ensures s != [] ==> s == r + [s[|s| - 1]]
  {
    if |s| == 0 then [] else s[..|s| - 1]
  }

  // ---- Products of reals, stated one step at a time ----

  lemma PositiveProduct(a: real, b: real)
    requires a > 0.0 && b > 0.0
    ensures a * b > 0.0
  {}

  lemma MulNonNegative(a: real, b: real)
    requires a >= 0.0 && b >= 0.0
    ensures a * b >= 0.0
  {
    if a > 0.0 && b > 0.0 {
      PositiveProduct(a, b);
    }
  }

  lemma MulLeft(a: real, b: real, c: real)
    requires c >= 0.0 && a <= b
    ensures a * c <= b * c
  {
    MulNonNegative(b - a, c);
  }

  /** Comparing a ratio with a constant by cross-multiplying with a positive denominator. */
  lemma CompareScaled(q: real, t: real, c: real)
    requires t > 0.0
    ensures q >= c <==> q * t >= c * t
  {
    if q > c {
      PositiveProduct(q - c, t);
    }
    if q < c {
      PositiveProduct(c - q, t);
    }
  }

  /** A ratio against a constant, by cross-multiplying with a positive denominator. */
  lemma RatioAtLeast(h: real, t: real, c: real)
    requires t > 0.0
    ensures h / t >= c <==> h >= c * t
  {
    assert (h / t) * t == h;
    CompareScaled(h / t, t, c);
  }

  function Abs(x: real): real { if x < 0.0 then -x else x }

  lemma DifferenceOfSquares(a: real, b: real)
    ensures (b - a) * (b + a) == b * b - a * a
  {}

  /** Squaring is strictly increasing on the non-negative reals. */
  lemma SquareBelow(a: real, b: real)
    requires 0.0 <= a && 0.0 <= b
    ensures a < b <==> a * a < b * b
  {
    DifferenceOfSquares(a, b);
    DifferenceOfSquares(b, a);
    if a < b {
      PositiveProduct(b - a, b + a);
    }
    if b < a {
      PositiveProduct(a - b, a + b);
    }
  }

  lemma AbsSquare(d: real)
    ensures Abs(d) >= 0.0 && Abs(d) * Abs(d) == d * d
  {}

  lemma SquareNonNegative(d: real)
    ensures d * d >= 0.0
  {
    AbsSquare(d);
    MulNonNegative(Abs(d), Abs(d));
  }

  /** Only zero squares to zero. */
  lemma SquareZero(d: real)
    requires d * d == 0.0
    ensures d == 0.0
  {
    AbsSquare(d);
    SquareBelow(0.0, Abs(d));
  }
}
