/**
 * The next-cycle window (module1.prediction).
 *
 * backend/module1/prediction.py is not part of this model: the window is
 * defined here as assumed policy. The
 * half-width is `k·std` with k = 1.5 below the personalized tier and 1.0 at
 * it, widened by 0.5·std per severity step; both ends are rounded to whole
 * days and floored at a minimum plausible cycle length. The std is the
 * root of the baseline variance; the half-width is taken in whole days.
 */
module Prediction {
  import opened Common
  import opened Baseline
  import opened DeviationLogic

  /** The shortest cycle a window may report, in days. */
  const MinCycleLength: int := 21

  /** `{low, high}` in days. */
  datatype Window = Window(low: int, high: int)

  /** The integer square root: the largest `r` with r² ≤ n. */
  function FloorSqrt(n: nat): (r: nat)
    ensures r * r <= n < (r + 1) * (r + 1)
  {
    if n == 0 then 0
    else
      var r := FloorSqrt(n - 1);
      if (r + 1) * (r + 1) <= n then r + 1 else r
  }

  lemma SquareBelowInt(a: nat, b: nat)
    requires a * a < b * b
    ensures a < b
  {}

  /** A larger radicand never has a smaller root. */
  lemma FloorSqrtMonotone(m: nat, n: nat)
    requires m <= n
    ensures FloorSqrt(m) <= FloorSqrt(n)
  {
    var a, b := FloorSqrt(m), FloorSqrt(n);
    SquareBelowInt(a, b + 1);
  }

  /** Rounding to the nearest whole day, halves upward. */
  function Round(x: real): (r: int)
    ensures x - 0.5 < r as real <= x + 0.5
  {
    (x + 0.5).Floor
  }

  lemma RoundMonotone(x: real, y: real)
    requires x <= y
    ensures Round(x) <= Round(y)
  {}

  /** The half-width factor in halves of a std: 3 (1.5) or 2 (1.0), plus one per severity step. */
  function HalfSteps(confidence: Tier, deviation: Signal): nat {
    (if confidence == Personalized then 2 else 3) + Severity(deviation)
  }

  /** ⌊√q / 2⌋ in whole days, computed as ⌊√⌊q/4⌋⌋. */
  function HalfRoot(q: real): (r: nat)
    requires q >= 0.0
    ensures 4.0 * (r * r) as real <= q < 4.0 * ((r + 1) * (r + 1)) as real
  {
    var n: nat := (q / 4.0).Floor;
    var r := FloorSqrt(n);
    assert (r * r) as real <= n as real;
    assert n as real + 1.0 <= ((r + 1) * (r + 1)) as real;
    r
  }

  /** h²·variance, the square of h·std. */
  function ScaledVariance(variance: real, h: nat): (q: real)
    requires variance >= 0.0
    ensures q >= 0.0
  {
    MulNonNegative((h * h) as real, variance);
    (h * h) as real * variance
  }

  /** ⌊(h/2)·std⌋ computed from the variance, as the root of h²·variance. */
  function HalfWidthDays(variance: real, h: nat): nat
    requires variance >= 0.0
  {
    HalfRoot(ScaledVariance(variance, h))
  }

  /** If 4r² ≤ w² < 4(r+1)² for a non-negative w, then r is the integer part of w/2. */
  lemma HalfRootBracket(w: real, r: nat)
    requires w >= 0.0
    requires 4.0 * (r * r) as real <= w * w < 4.0 * ((r + 1) * (r + 1)) as real
    ensures r as real <= w / 2.0 < r as real + 1.0
  {
    var lo, hi := 2.0 * r as real, 2.0 * r as real + 2.0;
    assert 4.0 * (r * r) as real == lo * lo;
    assert 4.0 * ((r + 1) * (r + 1)) as real == hi * hi;
    SquareBelow(w, lo);
    SquareBelow(w, hi);
  }

  /**
   * The whole-day half-width is the integer part of (h/2)·std for the std
   * that is the non-negative root of the variance.
   */
  lemma HalfWidthIsWholeDays(variance: real, std: real, h: nat)
    requires std >= 0.0 && std * std == variance
    ensures HalfWidthDays(variance, h) as real <= (h as real / 2.0) * std < HalfWidthDays(variance, h) as real + 1.0
  {
    var w := h as real * std;
    MulNonNegative(h as real, std);
    assert ScaledVariance(variance, h) == w * w;
    HalfRootBracket(w, HalfWidthDays(variance, h));
  }

  lemma HalfRootMonotone(p: real, q: real)
    requires 0.0 <= p <= q
    ensures HalfRoot(p) <= HalfRoot(q)
  {
    FloorSqrtMonotone((p / 4.0).Floor, (q / 4.0).Floor);
  }

  lemma SquareMonotoneInt(g: nat, h: nat)
    requires g <= h
    ensures g * g <= h * h
  {}

  lemma ScaledVarianceMonotone(variance: real, g: nat, h: nat)
    requires variance >= 0.0 && g <= h
    ensures ScaledVariance(variance, g) <= ScaledVariance(variance, h)
  {
    SquareMonotoneInt(g, h);
    MulLeft((g * g) as real, (h * h) as real, variance);
  }

  /** A larger factor never gives a narrower half-width. */
  lemma HalfWidthMonotone(variance: real, g: nat, h: nat)
    requires variance >= 0.0 && g <= h
    ensures HalfWidthDays(variance, g) <= HalfWidthDays(variance, h)
  {
    ScaledVarianceMonotone(variance, g, h);
    HalfRootMonotone(ScaledVariance(variance, g), ScaledVariance(variance, h));
  }

  /**
   * `predict_cycle_window(mean, std, confidence, deviation)` (assumed): the
   * rounded window around the mean, both ends at least `MinCycleLength`.
   */
  function PredictCycleWindow(mean: real, variance: real, confidence: Tier, deviation: Signal): (w: Window)
    requires variance >= 0.0
    ensures MinCycleLength <= w.low <= w.high
    ensures w.high >= Round(mean)
    ensures w.low == MinCycleLength || w.low <= Round(mean)
  {
    var hw := HalfWidthDays(variance, HalfSteps(confidence, deviation)) as real;
    RoundMonotone(mean - hw, mean);
    RoundMonotone(mean, mean + hw);
    Window(Max(MinCycleLength, Round(mean - hw)), Max(MinCycleLength, Round(mean + hw)))
  }

  /** A more severe deviation never narrows the window: it contains the calmer one. */
  lemma WindowWidensWithSeverity(mean: real, variance: real, confidence: Tier, a: Signal, b: Signal)
    requires variance >= 0.0 && Severity(a) <= Severity(b)
    ensures PredictCycleWindow(mean, variance, confidence, b).low <= PredictCycleWindow(mean, variance, confidence, a).low
    ensures PredictCycleWindow(mean, variance, confidence, a).high <= PredictCycleWindow(mean, variance, confidence, b).high
  {
    var ha, hb := HalfSteps(confidence, a), HalfSteps(confidence, b);
    HalfWidthMonotone(variance, ha, hb);
    var ra, rb := HalfWidthDays(variance, ha) as real, HalfWidthDays(variance, hb) as real;
    RoundMonotone(mean - rb, mean - ra);
    RoundMonotone(mean + ra, mean + rb);
  }

  /** Personalized confidence never widens the window. */
  lemma WindowNarrowsWithConfidence(mean: real, variance: real, t: Tier, deviation: Signal)
    requires variance >= 0.0
    ensures PredictCycleWindow(mean, variance, t, deviation).low <= PredictCycleWindow(mean, variance, Personalized, deviation).low
    ensures PredictCycleWindow(mean, variance, Personalized, deviation).high <= PredictCycleWindow(mean, variance, t, deviation).high
  {
    var hp, ht := HalfSteps(Personalized, deviation), HalfSteps(t, deviation);
    HalfWidthMonotone(variance, hp, ht);
    var rp, rt := HalfWidthDays(variance, hp) as real, HalfWidthDays(variance, ht) as real;
    RoundMonotone(mean - rt, mean - rp);
    RoundMonotone(mean + rp, mean + rt);
  }
}
