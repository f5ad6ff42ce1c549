# Cycle analytics core: a Dafny model

This project models the analytics core of a menstrual-cycle tracking backend,
`backend/module1`, and proves properties of it. Each request carries three
aligned histories: cycle lengths, period durations and daily flow labels
(`L`, `M`, `H`).

The core splits off the latest cycle and builds a baseline (mean and
population std) from the history alone. It assigns a confidence tier from
the total count, grades heavy-flow risk from every flow log, and then
branches:

- **Below the personalized tier**, it answers deviation `none` and leaves
  the shared persistence tracker alone.
- **At the personalized tier**, it:
  1. thresholds an anomaly score;
  2. fuses the verdict with the z-score band of the latest cycle;
  3. feeds that candidate to the tracker shared by all requests;
  4. re-fuses with the tracker's persistence verdict.

Either way, it predicts the next cycle window.

Files:

- `common.dfy` holds the shared error type and `Result`, Python's `s[:-1]`,
  and small lemmas about products of reals.
- `feature_extraction.dfy` models `FLOW_MAP` and `encode_flow` (a loop, so a
  method, proved against the functions `Encoded`/`EncodedLogs`). It also
  models `extract_cycle_features` and `extract_period_features`.
- `baseline.dfy`, `deviation_logic.dfy`, `persistence.dfy`, `prediction.dfy`
  and `heavy_flow.dfy` model the collaborators the orchestrator imports. Their
  source files are not part of this model. Each is an **assumed policy**
  of the model (constants listed under "Left out"), not a transcription.
- `persistence.dfy` holds the `DeviationTracker` class, whose `Update`
  mutates its count. A ghost log of every candidate it has been fed lets the
  contracts say "untouched" and "updated exactly once".
- `output_schema.dfy` models `analyze_user` as the method `AnalyzeUser`. It
  works on an explicit tracker object, and its result is tied to the pure
  functions `Prepare`, `ColdResponse` and `FullResponse`.

Numbers are exact: means and variances are `real`, and lengths and counts
are `int`/`nat`. Dafny has no real square root, so a baseline carries the
**variance** where the source carries the std. Where the std matters, two
lemmas prove the model agrees with any `std >= 0` where `std * std ==
variance`:

- `DeviationLogic.BandOfDistanceIsZBand` shows that banding by squared
  distance is `z_band(compute_z_score(...))`.
- `Prediction.HalfWidthIsWholeDays` shows that the window's whole-day
  half-width is the integer part of `k·std`.

## Model

| member | source | states |
|---|---|---|
| Common.DropLast | backend/module1/output_schema.py:20-21 | `s[:-1]`: one element shorter (empty for empty), and the prefix plus the last element rebuilds `s` |
| FeatureExtraction.FirstBadDay | backend/module1/feature_extraction.py:12 | the first day whose label is not in `FLOW_MAP`, with every earlier label valid |
| FeatureExtraction.FirstBadCycle | backend/module1/feature_extraction.py:11-13 | the first cycle holding an invalid label, with every earlier cycle valid |
| FeatureExtraction.FirstInvalidLabel | backend/module1/feature_extraction.py:11-12 | the label whose lookup raises first is invalid and occurs in the logs |
| FeatureExtraction.EncodedShape | backend/module1/feature_extraction.py:12 | an encoded cycle has its input's length, holds `FLOW_MAP[day]` at each day, and lies in 1..3 |
| FeatureExtraction.DecodeEncoded | backend/module1/feature_extraction.py:3-7 | decoding the encoding gives back the labels: no two labels share an ordinal |
| FeatureExtraction.EncodeDecoded | backend/module1/feature_extraction.py:3-7 | every ordinal 1..3 is the encoding of a label: the table is a bijection L/M/H ↔ 1/2/3 |
| FeatureExtraction.EncodeExample | backend/module1/feature_extraction.py:3-14 | `[["L","H","M"]]` encodes to `[[1,3,2]]`; `[["X"]]` is rejected on label `"X"` |
| FeatureExtraction.EncodeCycle | backend/module1/feature_extraction.py:12 | succeeds iff every label is in the table, giving the day-by-day encoding; otherwise fails on the first bad label with no partial cycle |
| FeatureExtraction.EncodeFlow | backend/module1/feature_extraction.py:9-14 | succeeds iff every cycle is well labelled, giving one encoded cycle per input cycle in order; otherwise fails on the first bad label, no partial result |
| FeatureExtraction.SquaredDeviations | backend/module1/feature_extraction.py:21 | Σ(x − m)² is never negative |
| FeatureExtraction.ExtractCycleFeatures | backend/module1/feature_extraction.py:17-23 | count = length; mean·n = sum; variance ≥ 0 and variance·n = Σ(x − mean)² (population, ddof 0) |
| FeatureExtraction.ExtractPeriodFeatures | backend/module1/feature_extraction.py:25-35 | the same mean and variance as the cycle features, without a count |
| FeatureExtraction.SumOfConstant | backend/module1/feature_extraction.py:20 | the sum of n copies of c is n·c |
| FeatureExtraction.NoDeviationFromCentre | backend/module1/feature_extraction.py:21 | values all equal to the centre have zero squared deviation |
| FeatureExtraction.MeanOfConstant | backend/module1/feature_extraction.py:20 | the mean of a constant sequence is that constant |
| FeatureExtraction.ConstantHasZeroVariance | backend/module1/feature_extraction.py:20-21 | equal values give mean = the value and variance (hence std) 0 |
| FeatureExtraction.ZeroSquaredDeviations | backend/module1/feature_extraction.py:21 | a zero sum of squared deviations puts every value on the centre |
| FeatureExtraction.VarianceZeroIffConstant | backend/module1/feature_extraction.py:21 | the variance is 0 exactly when all values are equal (both directions) |
| Baseline.BuildBaseline | backend/module1/output_schema.py:23-27 | assumed `build_baseline`: fails with MisalignedHistory iff the histories differ in length; empty history gives the zero baseline; otherwise the cycle and period features of the history, variances ≥ 0 |
| Baseline.GetConfidenceState | backend/module1/output_schema.py:33 | assumed tiers: cold start iff count < 3, developing iff 3 ≤ count < 6, personalized iff count ≥ 6 |
| Baseline.ConfidenceMonotone | backend/module1/output_schema.py:33 | more cycles never lower the tier |
| Baseline.ConfidenceExamples | backend/module1/output_schema.py:33 | 2, 5 and 10 cycles give cold start, developing and personalized |
| DeviationLogic.Escalate | backend/module1/output_schema.py:72 | one severity step up, capped at severe |
| DeviationLogic.FuseDeviation | backend/module1/output_schema.py:75-79 | assumed fusion: severity = min(3, band + 1 for an anomaly + 1 if persistent) |
| DeviationLogic.FusionAtLeastBand | backend/module1/output_schema.py:72 | the fused signal is never below the z-band |
| DeviationLogic.PersistenceRaises | backend/module1/output_schema.py:75-79 | re-fusing with persistence never lowers the signal |
| DeviationLogic.FusionExamples | backend/module1/output_schema.py:72 | rows of the assumed fusion table: anomaly+none → mild, normal+moderate → moderate, anomaly+moderate → severe |
| DeviationLogic.ComputeZScore | backend/module1/output_schema.py:68 | assumed z-score: z·std = value − mean for std ≠ 0, and z = 0 for std = 0 |
| DeviationLogic.ZBand | backend/module1/output_schema.py:69 | assumed band: none iff abs(z) < 1, mild iff 1 ≤ abs(z) < 2, severe iff abs(z) ≥ 3, each cutoff in the higher band |
| DeviationLogic.BandOfDistance | backend/module1/output_schema.py:68-69 | the band from the squared distance and the variance: none iff variance 0 or d² < variance, mild iff variance ≤ d² < 4·variance, severe iff d² ≥ 9·variance |
| DeviationLogic.BandOfDistanceIsZBand | backend/module1/output_schema.py:68-69 | banding the latest cycle by (x − mean)² against k²·variance equals `z_band(compute_z_score(x, mean, std))` for the root std |
| DeviationLogic.ZScoreExamples | backend/module1/output_schema.py:68-69 | z(30; 28, 2) = 1 is mild, 0.999 is none, −3 is severe |
| Persistence.TrailingRun | backend/module1/output_schema.py:73 | the count is the length of the trailing run of non-none candidates: all of the run is non-none and the one before it is none |
| Persistence.TrailingRunStep | backend/module1/output_schema.py:73 | one more candidate resets the run on none and extends it otherwise |
| Persistence.DeviationTracker.constructor | backend/module1/output_schema.py:10 | the module-level tracker starts with count 0 and no history |
| Persistence.DeviationTracker.Update | backend/module1/output_schema.py:73 | assumed `update`: appends the candidate to the history, resets or increments the count, and answers persistent iff the count reaches 2 |
| Persistence.PersistentIffTwoInARow | backend/module1/output_schema.py:73 | a candidate is persistent iff it and the previous candidate are both non-none |
| Persistence.NoneResets | backend/module1/output_schema.py:73 | after a none candidate nothing earlier influences the count |
| Persistence.DocumentedSequence | backend/module1/output_schema.py:73 | mild → not persistent, mild → persistent, none → not persistent |
| Prediction.HalfWidthIsWholeDays | backend/module1/output_schema.py:82-87 | the window's half-width is ⌊(h/2)·std⌋ for the root std of the baseline variance |
| Prediction.PredictCycleWindow | backend/module1/output_schema.py:82-87 | assumed window: 21 ≤ low ≤ high, high at least the rounded mean, low at most the rounded mean unless floored at 21 |
| Prediction.WindowWidensWithSeverity | backend/module1/output_schema.py:82-87 | a more severe deviation gives a window containing the calmer one |
| Prediction.WindowNarrowsWithConfidence | backend/module1/output_schema.py:46-51 | the personalized window lies within the window of a lower tier |
| HeavyFlow.HighDaysBounded | backend/module1/output_schema.py:36-40 | heavy days never exceed logged days |
| HeavyFlow.ComputeHeavyFlowInsight | backend/module1/output_schema.py:37-40 | assumed risk: unknown iff cold start; high only with logged days |
| HeavyFlow.AllHeavyIsHigh | backend/module1/output_schema.py:37-40 | all-heavy logs are high risk once the tier allows an answer |
| HeavyFlow.RiskByFraction | backend/module1/output_schema.py:37-40 | the risk is high iff the heavy fraction ≥ 0.5, moderate iff in [0.25, 0.5), low iff < 0.25 |
| OutputSchema.AnomalyVerdict | backend/module1/output_schema.py:65 | anomaly iff score < 0.05 |
| OutputSchema.Prepare | backend/module1/output_schema.py:15-40 | fails in code order: empty `cycle_lengths`, then misaligned history, then (non-empty, aligned) the first unknown label. Otherwise history + [latest] = input, baseline from the three history prefixes, tier from the total count, heavy flow from all logs |
| OutputSchema.Band | backend/module1/output_schema.py:68-69 | the latest cycle's band against the history baseline: none iff the history has no spread or (latest − mean)² < variance |
| OutputSchema.BandIsZScoreBand | backend/module1/output_schema.py:68-69 | that band is `z_band(compute_z_score(latest, mean, std))` for the root std of the baseline variance |
| OutputSchema.Candidate | backend/module1/output_schema.py:72 | `temp_dev`: the band raised one capped step iff score < 0.05; never below the band; none iff band none and no anomaly |
| OutputSchema.ColdResponse | backend/module1/output_schema.py:43-58 | deviation none; confidence and heavy flow passed through; window from the baseline, tier and none |
| OutputSchema.FullResponse | backend/module1/output_schema.py:75-94 | deviation = the candidate raised one step when persistent; confidence and heavy flow passed through; window from the final deviation |
| OutputSchema.AnalyzeUser | backend/module1/output_schema.py:13-94 | errors exactly when `Prepare` fails, tracker untouched; below personalized, the cold response with the tracker untouched; at personalized, the tracker fed exactly one candidate and the full response with its verdict |
| OutputSchema.BaselineIgnoresLatest | backend/module1/output_schema.py:20-30 | replacing the latest cycle changes neither the baseline, the tier nor the heavy flow |
| OutputSchema.PersonalizedHasHistory | backend/module1/output_schema.py:61-62 | the full path always has at least 5 history cycles, enough for the detector's fit |
| OutputSchema.ReportAtLeastCandidate | backend/module1/output_schema.py:72-79 | the reported deviation is never below the candidate fed to the tracker |
| OutputSchema.QuietRequestReportsNone | backend/module1/output_schema.py:72-79 | a none candidate is reported as none whatever the tracker had seen |
| OutputSchema.RepeatedDeviationEscalates | backend/module1/output_schema.py:72-79 | a deviation right after another is escalated one step; an isolated one is reported as fused |
| OutputSchema.ColdStartExample | backend/module1/output_schema.py:43-58 | `[28, 29]` is cold start with deviation none and unknown heavy flow |
| OutputSchema.ColdStartLeavesTracker | backend/module1/output_schema.py:43-58 | that request through `AnalyzeUser` answers none, cold start, and leaves the tracker unchanged |

## Left out

- `backend/module1/baseline.py`, `deviation_logic.py`, `persistence.py`,
  `prediction.py` and `heavy_flow.py` are not part of this model. Their
  functions are the assumed definitions above. Their constants (tiers 3 and 6, z cutoffs 1/2/3, persistence after
  2, window factors 1.5/1.0 plus 0.5 per step, floor 21, heavy-flow cutoffs
  0.5/0.25) are policy values, not read from code.
- The isolation-forest detector (`anomaly_iforest`) is not part of this
  model. It is randomized and floating point, so its score is an input of
  `AnalyzeUser`. Its fit on the history is not modelled.
- Floating point: numpy's `float`s, `sqrt` inside `np.std` and NaN on
  empty input are replaced by exact reals. The std is represented by the
  variance (see above).
- `ExtractCycleFeatures` and `ExtractPeriodFeatures` require a non-empty
  input. The empty history reaches neither, because the assumed
  `BuildBaseline` returns the zero baseline for it.
- Payloads with a missing key or non-integer values are not modelled. A
  `Payload` always has its three sequences.
- Concurrency: the module-level tracker is a single sequential object
  passed to `AnalyzeUser`. It is not keyed by user, as in the code. The
  model has no locking or interleaving of requests.
- Persistence.DeviationTracker.Update: counts consecutive non-none
  candidates of any category; a rule that also asks for the same category
  is not modelled.
- Prediction.PredictCycleWindow: its contract is deliberately weak (ordered,
  floored at 21, around the rounded mean). The body assumes the half-width
  is truncated to whole days before the ends are rounded, and rounds halves
  upward. Python's `round` rounds halves to even; that difference is not
  modelled.
- HeavyFlow.ComputeHeavyFlowInsight: a log with no days at all is graded low
  at developing and personalized tiers. The fraction would otherwise divide
  by zero; this case is an assumption.
- OutputSchema.Prepare: alignment is checked on the history prefixes, as the
  code passes them to `build_baseline`. A request with one cycle and empty
  period and flow arrays therefore passes the check, although all three
  arrays are meant to be aligned; the model follows the code.
