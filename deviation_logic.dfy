/**
 * Z-score banding and the fusion of the anomaly verdict with the band
 * (module1.deviation_logic).
 *
 * backend/module1/deviation_logic.py is not part of this model: its three
 * functions are defined here as assumed policy: cutoffs at |z| = 1, 2 and 3,
 * and one severity step each for an anomaly verdict and for persistence.
 */
module DeviationLogic {
  import opened Common

  /** The closed set of deviation signals, in order of severity. */
  datatype Signal = None | Mild | Moderate | Severe

  /** The anomaly detector's verdict on the latest cycle. */
  datatype Verdict = Anomaly | Normal

  function Severity(d: Signal): (k: nat)
    ensures k <= 3
  {
    match d
    case None => 0
    case Mild => 1
    case Moderate => 2
    case Severe => 3
  }

  function SignalOf(k: nat): (d: Signal)
    requires k <= 3
    ensures Severity(d) == k
  {
    if k == 0 then None else if k == 1 then Mild else if k == 2 then Moderate else Severe
  }

  /** One step up the scale, capped at `Severe`. */
  function Escalate(d: Signal): (e: Signal)
    ensures Severity(e) == Min(3, Severity(d) + 1)
  {
    SignalOf(Min(3, Severity(d) + 1))
  }

  /**
   * `fuse_deviation(verdict, band, persistent)` (assumed): an anomaly verdict
   * raises the band one step, persistence one more, both capped at `Severe`.
   */
  function FuseDeviation(verdict: Verdict, band: Signal, persistent: bool): (r: Signal)
    ensures Severity(r) == Min(3, Severity(band) + (if verdict == Anomaly then 1 else 0) + (if persistent then 1 else 0))
  {
    var raw := if verdict == Anomaly then Escalate(band) else band;
    if persistent then Escalate(raw) else raw
  }

  /** Fusion never reports less than the statistical band alone. */
  lemma FusionAtLeastBand(verdict: Verdict, band: Signal, persistent: bool)
    ensures Severity(band) <= Severity(FuseDeviation(verdict, band, persistent))
  {}

  /** Persistence can only raise the fused signal. */
  lemma PersistenceRaises(verdict: Verdict, band: Signal)
    ensures Severity(FuseDeviation(verdict, band, false)) <= Severity(FuseDeviation(verdict, band, true))
  {}

  /** Rows of the assumed fusion table. */
  lemma FusionExamples()
    ensures FuseDeviation(Anomaly, None, false) == Mild
    ensures FuseDeviation(Normal, Moderate, false) == Moderate
    ensures FuseDeviation(Anomaly, Moderate, false) == Severe
    ensures FuseDeviation(Normal, Mild, false) == Mild
    ensures FuseDeviation(Anomaly, Severe, true) == Severe
  {}

  /** `compute_z_score` (assumed): a zero std gives z = 0 instead of raising. */
  function ComputeZScore(value: int, mean: real, std: real): (z: real)
    ensures std != 0.0 ==> z * std == value as real - mean
    ensures std == 0.0 ==> z == 0.0
  {
    if std == 0.0 then 0.0 else (value as real - mean) / std
  }

  /** `z_band` (assumed): cutoffs at |z| = 1, 2 and 3, each cutoff in the higher band. */
  function ZBand(z: real): (d: Signal)
    ensures d == None <==> Abs(z) < 1.0
    ensures d == Severe <==> Abs(z) >= 3.0
    ensures d == Mild <==> 1.0 <= Abs(z) < 2.0
  {
    if Abs(z) < 1.0 then None
    else if Abs(z) < 2.0 then Mild
    else if Abs(z) < 3.0 then Moderate
    else Severe
  }

  /**
   * The band of a distance `d` from the mean, given the variance rather than
   * the std: |d/std| < k is decided as d² < k²·variance. A zero variance
   * means a zero std, hence z = 0 and no deviation.
   */
  function BandOfDistance(d: real, variance: real): (r: Signal)
    ensures variance == 0.0 ==> r == None
    ensures r == None <==> variance == 0.0 || d * d < variance
    ensures r == Mild <==> variance != 0.0 && variance <= d * d < 4.0 * variance
    ensures r == Severe <==> variance != 0.0 && d * d >= 9.0 * variance
  {
    if variance == 0.0 then None
    else if d * d < variance then None
    else if d * d < 4.0 * variance then Mild
    else if d * d < 9.0 * variance then Moderate
    else Severe
  }

  /** Dividing by a positive std: |d/s| < k exactly when |d| < k·s. */
  lemma QuotientBelow(d: real, s: real, k: real)
    requires s > 0.0
    ensures Abs(d / s) < k <==> Abs(d) < k * s
  {
    assert Abs(d / s) * s == Abs(d);
  }

  /** One cutoff: |d/s| < k exactly when d² < k²·s², for a positive std s and k > 0. */
  lemma CutoffBySquares(d: real, s: real, k: real)
    requires s > 0.0 && k > 0.0
    ensures Abs(d / s) < k <==> d * d < (k * k) * (s * s)
  {
    QuotientBelow(d, s, k);
    PositiveProduct(k, s);
    AbsSquare(d);
    SquareBelow(Abs(d), k * s);
    assert (k * s) * (k * s) == (k * k) * (s * s);
  }

  /**
   * Banding by squared distance agrees with `z_band(compute_z_score(...))`
   * for the std that is the non-negative root of the variance.
   */
  lemma BandOfDistanceIsZBand(value: int, mean: real, std: real, variance: real)
    requires std >= 0.0 && std * std == variance
    ensures BandOfDistance(value as real - mean, variance) == ZBand(ComputeZScore(value, mean, std))
  {
    var d := value as real - mean;
    if std == 0.0 {
      assert variance == 0.0;
    } else {
      PositiveProduct(std, std);
      CutoffBySquares(d, std, 1.0);
      CutoffBySquares(d, std, 2.0);
      CutoffBySquares(d, std, 3.0);
    }
  }

  /** Examples: z(30; 28, 2) = 1, which is already mild; 0.999 is not. */
  lemma ZScoreExamples()
    ensures ComputeZScore(30, 28.0, 2.0) == 1.0
    ensures ZBand(1.0) == Mild
    ensures ZBand(0.999) == None
    ensures ZBand(-3.0) == Severe
  {}
}
