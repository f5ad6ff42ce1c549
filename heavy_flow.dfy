/**
 * The heavy-flow risk signal (module1.heavy_flow).
 *
 * backend/module1/heavy_flow.py is not part of this model: the assessor is
 * defined here as assumed policy. Below
 * the developing tier the risk is unknown; otherwise it is graded by the
 * fraction of logged days whose intensity is 3 (high).
 */
module HeavyFlow {
  import opened Common
  import opened Baseline

  datatype HeavyFlowRisk = Unknown | LowRisk | ModerateRisk | HighRisk

  /** The ordinal of the `H` label. */
  const HighIntensity: int := 3

  /** Logged days across all cycles. */
  function TotalDays(encoded: seq<seq<int>>): nat {
    if |encoded| == 0 then 0 else |encoded[0]| + TotalDays(encoded[1..])
  }

  function HighInCycle(cycle: seq<int>): nat {
    if |cycle| == 0 then 0
    else (if cycle[0] == HighIntensity then 1 else 0) + HighInCycle(cycle[1..])
  }

  /** Days of intensity 3 across all cycles. */
  function HighDays(encoded: seq<seq<int>>): nat {
    if |encoded| == 0 then 0 else HighInCycle(encoded[0]) + HighDays(encoded[1..])
  }

  lemma {:induction false} HighInCycleBounded(cycle: seq<int>)
    ensures HighInCycle(cycle) <= |cycle|
  {
    if |cycle| > 0 {
      HighInCycleBounded(cycle[1..]);
    }
  }

  /** The high days are some of the logged days, so the fraction is at most 1. */
  lemma {:induction false} HighDaysBounded(encoded: seq<seq<int>>)
    ensures HighDays(encoded) <= TotalDays(encoded)
  {
    if |encoded| > 0 {
      HighInCycleBounded(encoded[0]);
      HighDaysBounded(encoded[1..]);
    }
  }

  /** The grading of `high` heavy days out of `total` logged days at a tier. */
  function RiskOf(high: nat, total: nat, confidence: Tier): HeavyFlowRisk {
    if confidence == ColdStart then Unknown
    else if total == 0 then LowRisk
    else if 2 * high >= total then HighRisk
    else if 4 * high >= total then ModerateRisk
    else LowRisk
  }

  /**
   * `compute_heavy_flow_insight(encoded_flows, confidence)` (assumed):
   * fraction ≥ 0.5 is high, ≥ 0.25 moderate, otherwise low; the fraction is
   * compared without dividing, and no logged day at all counts as low.
   */
  function ComputeHeavyFlowInsight(encoded: seq<seq<int>>, confidence: Tier): (r: HeavyFlowRisk)
    ensures r == Unknown <==> confidence == ColdStart
    ensures r == HighRisk ==> TotalDays(encoded) > 0
  {
    RiskOf(HighDays(encoded), TotalDays(encoded), confidence)
  }

  /** Every logged day being heavy is high risk once the tier allows an answer. */
  lemma AllHeavyIsHigh(encoded: seq<seq<int>>, confidence: Tier)
    requires confidence != ColdStart && TotalDays(encoded) > 0
    requires HighDays(encoded) == TotalDays(encoded)
    ensures ComputeHeavyFlowInsight(encoded, confidence) == HighRisk
  {}

  /** The fraction of heavy days, for a log with at least one day. */
  function HeavyFraction(encoded: seq<seq<int>>): real
    requires TotalDays(encoded) > 0
  {
    HighDays(encoded) as real / TotalDays(encoded) as real
  }

  lemma FractionCutoffs(high: nat, total: nat)
    requires total > 0
    ensures high as real / total as real >= 0.5 <==> 2 * high >= total
    ensures high as real / total as real >= 0.25 <==> 4 * high >= total
  {
    RatioAtLeast(high as real, total as real, 0.5);
    RatioAtLeast(high as real, total as real, 0.25);
  }

  /** The integer comparisons of the grading are the fraction cutoffs 0.5 and 0.25. */
  lemma RiskCutoffs(high: nat, total: nat, confidence: Tier)
    requires confidence != ColdStart && total > 0
    ensures RiskOf(high, total, confidence) == HighRisk <==> high as real / total as real >= 0.5
    ensures RiskOf(high, total, confidence) == ModerateRisk <==> 0.25 <= high as real / total as real < 0.5
    ensures RiskOf(high, total, confidence) == LowRisk <==> high as real / total as real < 0.25
  {
    FractionCutoffs(high, total);
  }

  /** The heavy-flow risk grades the fraction of heavy days at 0.5 and 0.25. */
  lemma RiskByFraction(encoded: seq<seq<int>>, confidence: Tier)
    requires confidence != ColdStart && TotalDays(encoded) > 0
    ensures ComputeHeavyFlowInsight(encoded, confidence) == HighRisk <==> HeavyFraction(encoded) >= 0.5
    ensures ComputeHeavyFlowInsight(encoded, confidence) == ModerateRisk <==> 0.25 <= HeavyFraction(encoded) < 0.5
    ensures ComputeHeavyFlowInsight(encoded, confidence) == LowRisk <==> HeavyFraction(encoded) < 0.25
  {
    RiskCutoffs(HighDays(encoded), TotalDays(encoded), confidence);
  }
}
