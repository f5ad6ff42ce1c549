/**
 * Baseline statistics and the confidence tier (module1.baseline).
 *
 * backend/module1/baseline.py is not part of this model: its two functions
 * are defined here as assumed policy: the baseline is the features of the
 * history, and the confidence tiers change at 3 and 6 cycles.
 */
module Baseline {
  import opened Common
  import opened FeatureExtraction

  /** `{cycle: {mean, std, count}, period: {mean, std}}`, std given by its square. */
  datatype Baseline = Baseline(cycle: CycleFeatures, period: PeriodFeatures)

  /** The degenerate baseline of an empty history: zero mean, zero spread, zero count. */
  const EmptyBaseline: Baseline :=
    Baseline(CycleFeatures(0.0, 0.0, 0), PeriodFeatures(0.0, 0.0))

  /**
   * `build_baseline` (assumed): the three history sequences must be aligned;
   * an empty history gives the degenerate baseline instead of raising.
   * The flow-log history only takes part in the alignment check.
   */
  function BuildBaseline(cycles: seq<int>, periods: seq<int>, flows: seq<seq<string>>): (r: Result<Baseline>)
    ensures r.Failure? <==> !(|cycles| == |periods| == |flows|)
    ensures r.Failure? ==> r.error == MisalignedHistory
    ensures r.Success? ==> r.value.cycle.count == |cycles|
    ensures r.Success? && |cycles| == 0 ==> r.value == EmptyBaseline
    ensures r.Success? && |cycles| > 0 ==>
      r.value.cycle.mean * |cycles| as real == Sum(cycles) as real &&
      r.value.cycle.variance == ExtractCycleFeatures(cycles).variance &&
      r.value.period.mean * |periods| as real == Sum(periods) as real &&
      r.value.period.variance == ExtractCycleFeatures(periods).variance
    ensures r.Success? ==> r.value.cycle.variance >= 0.0 && r.value.period.variance >= 0.0
  {
    if !(|cycles| == |periods| == |flows|) then Failure(MisalignedHistory)
    else if |cycles| == 0 then Success(EmptyBaseline)
    else Success(Baseline(ExtractCycleFeatures(cycles), ExtractPeriodFeatures(periods)))
  }

  /** The closed set of confidence tiers. */
  datatype Tier = ColdStart | Developing | Personalized

  /** The policy thresholds `T1 < T2`. */
  const T1: nat := 3
  const T2: nat := 6

  /** `get_confidence_state` (assumed): a step function of the total cycle count. */
  function GetConfidenceState(count: nat): (t: Tier)
    ensures t == ColdStart <==> count < T1
    ensures t == Developing <==> T1 <= count < T2
    ensures t == Personalized <==> count >= T2
  {
    if count < T1 then ColdStart
    else if count < T2 then Developing
    else Personalized
  }

  /** Tiers in order of trust. */
  function Rank(t: Tier): nat {
    match t
    case ColdStart => 0
    case Developing => 1
    case Personalized => 2
  }

  /** More history never lowers the tier. */
  lemma ConfidenceMonotone(a: nat, b: nat)
    requires a <= b
    ensures Rank(GetConfidenceState(a)) <= Rank(GetConfidenceState(b))
  {}

  /** Boundary cases: 2, 5 and 10 cycles. */
  lemma ConfidenceExamples()
    ensures GetConfidenceState(2) == ColdStart
    ensures GetConfidenceState(5) == Developing
    ensures GetConfidenceState(10) == Personalized
  {}
}
