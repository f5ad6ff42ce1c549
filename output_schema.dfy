/**
 * The per-request orchestrator `analyze_user` (backend/module1/output_schema.py)
 * and the tracker it shares across requests.
 *
 * The isolation-forest detector is not modelled: its score for the latest
 * cycle is an input of `AnalyzeUser`. The module-level tracker is passed in
 * as an object that the call may update.
 */
module OutputSchema {
  import opened Common
  import opened FeatureExtraction
  import opened Baseline
  import opened DeviationLogic
  import opened Persistence
  import opened Prediction
  import opened HeavyFlow

  /** The three arrays of one request, oldest first. */
  datatype Payload = Payload(cycleLengths: seq<int>, periodDurations: seq<int>, flowLogs: seq<seq<string>>)

  datatype Response = Response(deviationType: Signal, confidence: Tier, cycleWindow: Window, heavyFlowRisk: HeavyFlowRisk)

  /** Scores below this are anomalous. */
  const AnomalyThreshold: real := 0.05

  function AnomalyVerdict(score: real): (v: Verdict)
    ensures v == Anomaly <==> score < AnomalyThreshold
  {
    if score < AnomalyThreshold then Anomaly else Normal
  }

  /** Everything `analyze_user` computes before it branches on the tier. */
  datatype Prepared = Prepared(history: seq<int>, latest: int, baseline: Baseline, confidence: Tier, heavyFlow: HeavyFlowRisk)

  /**
   * `output_schema.py` lines 15-40: split off the latest cycle, build the baseline from the
   * history of all three arrays, take the tier from the total count and the
   * heavy-flow risk from every flow log. The failures come in the order the
   * code meets them: no latest cycle, a misaligned history, an unknown label.
   */
  function Prepare(p: Payload): (r: Result<Prepared>)
    ensures |p.cycleLengths| == 0 ==> r == Failure(NoLatestCycle)
    ensures (|p.cycleLengths| > 0 &&
             !(|DropLast(p.cycleLengths)| == |DropLast(p.periodDurations)| == |DropLast(p.flowLogs)|)) ==>
      r == Failure(MisalignedHistory)
    ensures r.Failure? && r.error.InvalidFlowLabel? ==>
      !AllCyclesLabelled(p.flowLogs) && r.error == InvalidFlowLabel(FirstInvalidLabel(p.flowLogs))
    ensures (|p.cycleLengths| > 0 &&
             BuildBaseline(DropLast(p.cycleLengths), DropLast(p.periodDurations), DropLast(p.flowLogs)).Success? &&
             !AllCyclesLabelled(p.flowLogs)) ==>
      r == Failure(InvalidFlowLabel(FirstInvalidLabel(p.flowLogs)))
    ensures r.Success? <==>
      |p.cycleLengths| > 0 && BuildBaseline(DropLast(p.cycleLengths), DropLast(p.periodDurations), DropLast(p.flowLogs)).Success? &&
      AllCyclesLabelled(p.flowLogs)
    ensures r.Success? ==>
      var prep := r.value;
      prep.history + [prep.latest] == p.cycleLengths &&
      prep.baseline == BuildBaseline(prep.history, DropLast(p.periodDurations), DropLast(p.flowLogs)).value &&
      prep.baseline.cycle.variance >= 0.0 &&
      prep.confidence == GetConfidenceState(|p.cycleLengths|) &&
      prep.heavyFlow == ComputeHeavyFlowInsight(EncodedLogs(p.flowLogs), prep.confidence)
  {
    if |p.cycleLengths| == 0 then Failure(NoLatestCycle)
    else
      var history := DropLast(p.cycleLengths);
      var latest := p.cycleLengths[|p.cycleLengths| - 1];
      var baseline := BuildBaseline(history, DropLast(p.periodDurations), DropLast(p.flowLogs));
      if baseline.Failure? then Failure(baseline.error)
      else
        var confidence := GetConfidenceState(|p.cycleLengths|);
        if !AllCyclesLabelled(p.flowLogs) then Failure(InvalidFlowLabel(FirstInvalidLabel(p.flowLogs)))
        else
          Success(Prepared(history, latest, baseline.value, confidence,
                           ComputeHeavyFlowInsight(EncodedLogs(p.flowLogs), confidence)))
  }

  /**
   * `output_schema.py` lines 68-69: the z-score band of the latest cycle
   * against the history baseline. A history with no spread never deviates.
   */
  function Band(prep: Prepared): (r: Signal)
    ensures prep.baseline.cycle.variance == 0.0 ==> r == None
    ensures r == None <==>
      prep.baseline.cycle.variance == 0.0 ||
      Deviation(prep.latest, prep.baseline.cycle.mean) * Deviation(prep.latest, prep.baseline.cycle.mean) < prep.baseline.cycle.variance
  {
    BandOfDistance(Deviation(prep.latest, prep.baseline.cycle.mean), prep.baseline.cycle.variance)
  }

  /**
   * The banded z-score of `Band` is `z_band(compute_z_score(latest, mean, std))`
   * for the std that is the non-negative root of the baseline variance.
   */
  lemma BandIsZScoreBand(prep: Prepared, std: real)
    requires std >= 0.0 && std * std == prep.baseline.cycle.variance
    ensures Band(prep) == ZBand(ComputeZScore(prep.latest, prep.baseline.cycle.mean, std))
  {
    BandOfDistanceIsZBand(prep.latest, prep.baseline.cycle.mean, std, prep.baseline.cycle.variance);
  }

  /**
   * `output_schema.py` line 72: the fusion without persistence, which is what
   * the tracker is fed. It is quiet only when both the detector and the band are.
   */
  function Candidate(prep: Prepared, score: real): (r: Signal)
    ensures Severity(r) == Min(3, Severity(Band(prep)) + (if score < AnomalyThreshold then 1 else 0))
    ensures Severity(Band(prep)) <= Severity(r)
    ensures r == None <==> Band(prep) == None && score >= AnomalyThreshold
  {
    FuseDeviation(AnomalyVerdict(score), Band(prep), false)
  }

  /** `output_schema.py` lines 43-58: the cold-start answer, deviation `None`. */
  function ColdResponse(prep: Prepared): (r: Response)
    requires prep.baseline.cycle.variance >= 0.0
    ensures r.deviationType == None
    ensures r.confidence == prep.confidence && r.heavyFlowRisk == prep.heavyFlow
    ensures r.cycleWindow == PredictCycleWindow(prep.baseline.cycle.mean, prep.baseline.cycle.variance, prep.confidence, None)
  {
    Response(None, prep.confidence,
             PredictCycleWindow(prep.baseline.cycle.mean, prep.baseline.cycle.variance, prep.confidence, None),
             prep.heavyFlow)
  }

  /** `output_schema.py` lines 60-94: the personalized answer, re-fused with the tracker's verdict. */
  function FullResponse(prep: Prepared, score: real, persistent: bool): (r: Response)
    requires prep.baseline.cycle.variance >= 0.0
    ensures Severity(r.deviationType) ==
      Min(3, Severity(Candidate(prep, score)) + (if persistent then 1 else 0))
    ensures r.confidence == prep.confidence && r.heavyFlowRisk == prep.heavyFlow
    ensures r.cycleWindow == PredictCycleWindow(prep.baseline.cycle.mean, prep.baseline.cycle.variance, prep.confidence, r.deviationType)
  {
    var deviation := FuseDeviation(AnomalyVerdict(score), Band(prep), persistent);
    Response(deviation, prep.confidence,
             PredictCycleWindow(prep.baseline.cycle.mean, prep.baseline.cycle.variance, prep.confidence, deviation),
             prep.heavyFlow)
  }

  /**
   * `analyze_user(payload)` against the shared `tracker`, given the
   * detector's score for the latest cycle. A rejected request and a
   * cold-start request leave the tracker as it was; a personalized request
   * feeds it exactly one candidate and reports the re-fused deviation.
   */
  method AnalyzeUser(tracker: DeviationTracker, p: Payload, anomalyScore: real) returns (r: Result<Response>)
    requires tracker.Valid()
    modifies tracker
    ensures tracker.Valid()
    ensures r.Failure? <==> Prepare(p).Failure?
    ensures r.Failure? ==> r.error == Prepare(p).error && unchanged(tracker)
    ensures r.Success? && Prepare(p).value.confidence != Personalized ==>
      r.value == ColdResponse(Prepare(p).value) && unchanged(tracker)
    ensures r.Success? && Prepare(p).value.confidence == Personalized ==>
      tracker.candidates == old(tracker.candidates) + [Candidate(Prepare(p).value, anomalyScore)] &&
      r.value == FullResponse(Prepare(p).value, anomalyScore, PersistentAfter(tracker.candidates))
  {
    // ---- Split history and latest ----
    if |p.cycleLengths| == 0 {
      return Failure(NoLatestCycle);
    }
    var history := DropLast(p.cycleLengths);
    var latest := p.cycleLengths[|p.cycleLengths| - 1];
    var built := BuildBaseline(history, DropLast(p.periodDurations), DropLast(p.flowLogs));
    if built.Failure? {
      return Failure(built.error);
    }
    var baseline := built.value;
    var cycleMean, cycleVariance := baseline.cycle.mean, baseline.cycle.variance;

    // ---- Confidence state ----
    var confidence := GetConfidenceState(|p.cycleLengths|);

    // ---- Heavy flow insight ----
    var encoded := EncodeFlow(p.flowLogs);
    if encoded.Failure? {
      return Failure(encoded.error);
    }
    var heavyFlow := ComputeHeavyFlowInsight(encoded.value, confidence);
    ghost var prep := Prepared(history, latest, baseline, confidence, heavyFlow);
    assert Prepare(p) == Success(prep);

    // ---- Cold-start safety: no deviation before personalization ----
    if confidence != Personalized {
      var deviation := None;
      var window := PredictCycleWindow(cycleMean, cycleVariance, confidence, deviation);
      return Success(Response(deviation, confidence, window, heavyFlow));
    }

    // ---- Anomaly verdict, statistical band, fusion and persistence ----
    var verdict := AnomalyVerdict(anomalyScore);
    var band := BandOfDistance(Deviation(latest, cycleMean), cycleVariance);
    var candidate := FuseDeviation(verdict, band, false);
    var persistent := tracker.Update(candidate);
    var deviation := FuseDeviation(verdict, band, persistent);

    // ---- Cycle window ----
    var window := PredictCycleWindow(cycleMean, cycleVariance, confidence, deviation);
    return Success(Response(deviation, confidence, window, heavyFlow));
  }

  // ---- Properties of a request ----

  /** The latest cycle never reaches the baseline: replacing it changes neither the baseline nor whether it builds. */
  lemma BaselineIgnoresLatest(p: Payload, other: int)
    requires |p.cycleLengths| > 0
    ensures var q := p.(cycleLengths := DropLast(p.cycleLengths) + [other]);
      Prepare(q).Success? == Prepare(p).Success? &&
      (Prepare(p).Success? ==>
         Prepare(q).value.baseline == Prepare(p).value.baseline &&
         Prepare(q).value.confidence == Prepare(p).value.confidence &&
         Prepare(q).value.heavyFlow == Prepare(p).value.heavyFlow &&
         Prepare(q).value.latest == other)
  {
    var q := p.(cycleLengths := DropLast(p.cycleLengths) + [other]);
    assert DropLast(q.cycleLengths) == DropLast(p.cycleLengths);
  }

  /** The full path is only taken with at least five history cycles, enough for the detector's fit. */
  lemma PersonalizedHasHistory(p: Payload)
    requires Prepare(p).Success? && Prepare(p).value.confidence == Personalized
    ensures |Prepare(p).value.history| >= T2 - 1 >= 2
  {}

  /** On the full path the reported deviation is never below the candidate the tracker was fed. */
  lemma ReportAtLeastCandidate(prep: Prepared, score: real, persistent: bool)
    requires prep.baseline.cycle.variance >= 0.0
    ensures Severity(Candidate(prep, score)) <= Severity(FullResponse(prep, score, persistent).deviationType)
  {}

  /** A quiet request (no anomaly, no z-band) is reported as `None` whatever the tracker had seen. */
  lemma QuietRequestReportsNone(prep: Prepared, score: real, seen: seq<Signal>)
    requires prep.baseline.cycle.variance >= 0.0
    requires Candidate(prep, score) == None
    ensures FullResponse(prep, score, PersistentAfter(seen + [Candidate(prep, score)])).deviationType == None
  {
    PersistentIffTwoInARow(seen, None);
  }

  /**
   * A deviation seen on two requests in a row is escalated one step on the
   * second; an isolated one is reported as fused, without escalation.
   */
  lemma RepeatedDeviationEscalates(prep: Prepared, score: real, seen: seq<Signal>)
    requires prep.baseline.cycle.variance >= 0.0
    requires Candidate(prep, score) != None
    ensures var d := FullResponse(prep, score, PersistentAfter(seen + [Candidate(prep, score)])).deviationType;
      if |seen| > 0 && seen[|seen| - 1] != None then d == Escalate(Candidate(prep, score))
      else d == Candidate(prep, score)
  {
    PersistentIffTwoInARow(seen, Candidate(prep, score));
    var d := FullResponse(prep, score, PersistentAfter(seen + [Candidate(prep, score)])).deviationType;
    if |seen| > 0 && seen[|seen| - 1] != None {
      assert Severity(d) == Severity(Escalate(Candidate(prep, score)));
      SeverityDetermines(d, Escalate(Candidate(prep, score)));
    } else {
      SeverityDetermines(d, Candidate(prep, score));
    }
  }

  lemma SeverityDetermines(a: Signal, b: Signal)
    requires Severity(a) == Severity(b)
    ensures a == b
  {}

  /**
   * A cold-start request: two cycles give the cold-start tier,
   * deviation `None` and an unknown heavy-flow risk.
   */
  lemma ColdStartExample()
    ensures var p := Payload([28, 29], [5, 4], [["M", "H"], ["L"]]);
      Prepare(p).Success? &&
      Prepare(p).value.confidence == ColdStart &&
      ColdResponse(Prepare(p).value).deviationType == None &&
      ColdResponse(Prepare(p).value).heavyFlowRisk == Unknown
  {
    var p := Payload([28, 29], [5, 4], [["M", "H"], ["L"]]);
    assert DropLast(p.cycleLengths) == [28];
    assert AllLabels(p.flowLogs[0]) && AllLabels(p.flowLogs[1]);
  }

  /** The cold-start request through the shared tracker: answered without touching it. */
  method ColdStartLeavesTracker(tracker: DeviationTracker) returns (r: Result<Response>)
    requires tracker.Valid()
    modifies tracker
    ensures r.Success? && r.value.deviationType == None && r.value.confidence == ColdStart
    ensures unchanged(tracker)
  {
    ColdStartExample();
    r := AnalyzeUser(tracker, Payload([28, 29], [5, 4], [["M", "H"], ["L"]]), 0.0);
  }
}
