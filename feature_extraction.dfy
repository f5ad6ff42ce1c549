/**
 * Flow-label encoding and descriptive statistics over a user's history
 * (backend/module1/feature_extraction.py).
 *
 * Means and variances are exact `real`s. Dafny's reals have no square root,
 * so the features carry the population variance in place of the standard
 * deviation; the std is its non-negative root.
 */
module FeatureExtraction {
  import opened Common

  /** The fixed encoding table `FLOW_MAP`. */
  const FlowMap: map<string, int> := map["L" := 1, "M" := 2, "H" := 3]

  /** Its inverse, used to state that the encoding loses nothing. */
  const FlowNames: map<int, string> := map[1 := "L", 2 := "M", 3 := "H"]

  predicate IsLabel(day: string) { day in FlowMap }

  predicate AllLabels(cycle: seq<string>) {
    forall j :: 0 <= j < |cycle| ==> IsLabel(cycle[j])
  }

  predicate AllCyclesLabelled(logs: seq<seq<string>>) {
    forall i :: 0 <= i < |logs| ==> AllLabels(logs[i])
  }

  /** Position of the first label of a cycle that is not in the table. */
  function FirstBadDay(cycle: seq<string>): (j: nat)
    requires !AllLabels(cycle)
    ensures j < |cycle| && !IsLabel(cycle[j])
    ensures forall t :: 0 <= t < j ==> IsLabel(cycle[t])
  {
    if !IsLabel(cycle[0]) then 0
    else
      var k := FirstBadDay(cycle[1..]);
      assert forall t :: 1 <= t <= k ==> cycle[t] == cycle[1..][t - 1];
      k + 1
  }

  /** Index of the first cycle that holds a label not in the table. */
  function FirstBadCycle(logs: seq<seq<string>>): (i: nat)
    requires !AllCyclesLabelled(logs)
    ensures i < |logs| && !AllLabels(logs[i])
    ensures forall t :: 0 <= t < i ==> AllLabels(logs[t])
  {
    if !AllLabels(logs[0]) then 0
    else
      var k := FirstBadCycle(logs[1..]);
      assert forall t :: 1 <= t <= k ==> logs[t] == logs[1..][t - 1];
      k + 1
  }

  /**
   * The label whose lookup raises first when the cycles are encoded in order:
   * the first bad label of the first cycle that has one.
   */
  function FirstInvalidLabel(logs: seq<seq<string>>): (day: string)
    requires !AllCyclesLabelled(logs)
    ensures !IsLabel(day)
    ensures exists i, j :: 0 <= i < |logs| && 0 <= j < |logs[i]| && logs[i][j] == day
  {
    var i := FirstBadCycle(logs);
    var j := FirstBadDay(logs[i]);
    logs[i][j]
  }

  /** The day-by-day encoding of one well-labelled cycle. */
  function Encoded(cycle: seq<string>): (e: seq<int>)
    requires AllLabels(cycle)
  {
    seq(|cycle|, j requires 0 <= j < |cycle| => FlowMap[cycle[j]])
  }

  /** The encoding of every cycle of a well-labelled log, in order. */
  function EncodedLogs(logs: seq<seq<string>>): (e: seq<seq<int>>)
    requires AllCyclesLabelled(logs)
  {
    seq(|logs|, i requires 0 <= i < |logs| => Encoded(logs[i]))
  }

  /** The ordinal range of the table: every encoded value is 1, 2 or 3. */
  predicate InRange(cycle: seq<int>) {
    forall j :: 0 <= j < |cycle| ==> 1 <= cycle[j] <= 3
  }

  function Decoded(cycle: seq<int>): (d: seq<string>)
    requires InRange(cycle)
  {
    seq(|cycle|, j requires 0 <= j < |cycle| => FlowNames[cycle[j]])
  }

  /** Encoding a cycle keeps its length, maps day by day and lands in 1..3. */
  lemma EncodedShape(cycle: seq<string>)
    requires AllLabels(cycle)
    ensures |Encoded(cycle)| == |cycle|
    ensures forall j :: 0 <= j < |cycle| ==> Encoded(cycle)[j] == FlowMap[cycle[j]]
    ensures InRange(Encoded(cycle))
  {
    forall j | 0 <= j < |cycle|
      ensures 1 <= Encoded(cycle)[j] <= 3
    {
      var d := cycle[j];
      assert d == "L" || d == "M" || d == "H";
    }
  }

  /** Decoding undoes encoding: no two labels share an ordinal. */
  lemma DecodeEncoded(cycle: seq<string>)
    requires AllLabels(cycle)
    ensures InRange(Encoded(cycle)) && Decoded(Encoded(cycle)) == cycle
  {
    EncodedShape(cycle);
    forall j | 0 <= j < |cycle|
      ensures Decoded(Encoded(cycle))[j] == cycle[j]
    {
      var d := cycle[j];
      assert d == "L" || d == "M" || d == "H";
    }
  }

  /** Encoding undoes decoding: every ordinal 1..3 has a label. */
  lemma EncodeDecoded(cycle: seq<int>)
    requires InRange(cycle)
    ensures AllLabels(Decoded(cycle)) && Encoded(Decoded(cycle)) == cycle
  {
    forall j | 0 <= j < |cycle|
      ensures IsLabel(Decoded(cycle)[j]) && FlowMap[Decoded(cycle)[j]] == cycle[j]
    {
      var v := cycle[j];
      assert v == 1 || v == 2 || v == 3;
    }
  }

  /** The worked example `[["L","H","M"]]` encodes to `[[1,3,2]]`; `"X"` is rejected. */
  lemma EncodeExample()
    ensures AllCyclesLabelled([["L", "H", "M"]])
    ensures EncodedLogs([["L", "H", "M"]]) == [[1, 3, 2]]
    ensures !AllCyclesLabelled([["X"]]) && FirstInvalidLabel([["X"]]) == "X"
  {
    var c := ["L", "H", "M"];
    assert c[0] == "L" && c[1] == "H" && c[2] == "M";
    assert Encoded(c) == [1, 3, 2];
    assert EncodedLogs([c]) == [Encoded(c)];
    var x := ["X"];
    assert x[0] == "X" && !IsLabel(x[0]);
    assert !AllLabels(x) && FirstBadDay(x) == 0;
    assert !AllLabels([x][0]) && FirstBadCycle([x]) == 0;
  }

  /**
   * `[FLOW_MAP[day] for day in cycle]`: the comprehension stops at the first
   * label the table does not hold, returning no partial cycle.
   */
  method EncodeCycle(cycle: seq<string>) returns (r: Result<seq<int>>)
    ensures r.Success? <==> AllLabels(cycle)
    ensures r.Success? ==> r.value == Encoded(cycle)
    ensures r.Failure? ==> !AllLabels(cycle) && r.error == InvalidFlowLabel(cycle[FirstBadDay(cycle)])
  {
    var out: seq<int> := [];
    var j := 0;
    while j < |cycle|
      invariant 0 <= j <= |cycle|
      invariant forall t :: 0 <= t < j ==> IsLabel(cycle[t])
      invariant out == Encoded(cycle[..j])
    {
      var day := cycle[j];
      if day !in FlowMap {
        assert FirstBadDay(cycle) == j;
        return Failure(InvalidFlowLabel(day));
      }
      out := out + [FlowMap[day]];
      assert cycle[..j + 1] == cycle[..j] + [day];
      j := j + 1;
    }
    assert cycle[..j] == cycle;
    return Success(out);
  }

  /**
   * `encode_flow`: appends the encoding of each cycle in turn; the first
   * unknown label aborts the whole call with no partial result.
   */
  method EncodeFlow(logs: seq<seq<string>>) returns (r: Result<seq<seq<int>>>)
    ensures r.Success? <==> AllCyclesLabelled(logs)
    ensures r.Success? ==> r.value == EncodedLogs(logs)
    ensures r.Failure? ==> !AllCyclesLabelled(logs) && r.error == InvalidFlowLabel(FirstInvalidLabel(logs))
  {
    var encoded: seq<seq<int>> := [];
    var i := 0;
    while i < |logs|
      invariant 0 <= i <= |logs|
      invariant forall t :: 0 <= t < i ==> AllLabels(logs[t])
      invariant encoded == EncodedLogs(logs[..i])
    {
      var cycle := logs[i];
      var e := EncodeCycle(cycle);
      if e.Failure? {
        assert FirstBadCycle(logs) == i;
        return Failure(e.error);
      }
      encoded := encoded + [e.value];
      assert logs[..i + 1] == logs[..i] + [cycle];
      i := i + 1;
    }
    assert logs[..i] == logs;
    return Success(encoded);
  }

  // ---- Descriptive statistics ----

  /** `{mean, std, count}` of the cycle lengths, with the std given by its square. */
  datatype CycleFeatures = CycleFeatures(mean: real, variance: real, count: nat)

  /** `{mean, std}` of the period durations, with the std given by its square. */
  datatype PeriodFeatures = PeriodFeatures(mean: real, variance: real)

  function Sum(xs: seq<int>): int {
    if |xs| == 0 then 0 else xs[0] + Sum(xs[1..])
  }

  function Mean(xs: seq<int>): real
    requires |xs| > 0
  {
    Sum(xs) as real / |xs| as real
  }

  /** The distance of one value from a centre. */
  function Deviation(x: int, m: real): real { x as real - m }

  /** Σ (x − m)² over `xs`. */
  function SquaredDeviations(xs: seq<int>, m: real): (r: real)
    ensures r >= 0.0
  {
    if |xs| == 0 then 0.0
    else
      SquareNonNegative(Deviation(xs[0], m));
      Deviation(xs[0], m) * Deviation(xs[0], m) + SquaredDeviations(xs[1..], m)
  }

  /** Population variance (numpy's default `ddof=0`): divide by the count. */
  function Variance(xs: seq<int>): real
    requires |xs| > 0
  {
    SquaredDeviations(xs, Mean(xs)) / |xs| as real
  }

  /** `extract_cycle_features`: mean, population variance and count. */
  function ExtractCycleFeatures(xs: seq<int>): (f: CycleFeatures)
    requires |xs| > 0
    ensures f.count == |xs|
    ensures f.mean * |xs| as real == Sum(xs) as real
    ensures f.variance >= 0.0
    ensures f.variance * |xs| as real == SquaredDeviations(xs, f.mean)
  {
    CycleFeatures(Mean(xs), Variance(xs), |xs|)
  }

  /** `extract_period_features`: the same mean and variance, without a count. */
  function ExtractPeriodFeatures(xs: seq<int>): (f: PeriodFeatures)
    requires |xs| > 0
    ensures f.mean == ExtractCycleFeatures(xs).mean
    ensures f.variance == ExtractCycleFeatures(xs).variance
  {
    PeriodFeatures(Mean(xs), Variance(xs))
  }

  lemma {:induction false} SumOfConstant(xs: seq<int>, c: int)
    requires forall i :: 0 <= i < |xs| ==> xs[i] == c
    ensures Sum(xs) == |xs| * c
  {
    if |xs| > 0 { SumOfConstant(xs[1..], c); }
  }

  lemma {:induction false} NoDeviationFromCentre(xs: seq<int>, m: real)
    requires forall i :: 0 <= i < |xs| ==> xs[i] as real == m
    ensures SquaredDeviations(xs, m) == 0.0
  {
    if |xs| > 0 {
      assert Deviation(xs[0], m) == 0.0;
      NoDeviationFromCentre(xs[1..], m);
    }
  }

  /** The mean of a constant history is that constant. */
  lemma MeanOfConstant(xs: seq<int>, c: int)
    requires |xs| > 0
    requires forall i :: 0 <= i < |xs| ==> xs[i] == c
    ensures Mean(xs) == c as real
  {
    var n := |xs| as real;
    SumOfConstant(xs, c);
    assert Sum(xs) as real == n * c as real;
  }

  /** Perfectly regular cycles have zero variance, hence zero std. */
  lemma ConstantHasZeroVariance(xs: seq<int>, c: int)
    requires |xs| > 0
    requires forall i :: 0 <= i < |xs| ==> xs[i] == c
    ensures ExtractCycleFeatures(xs).mean == c as real
    ensures ExtractCycleFeatures(xs).variance == 0.0
  {
    MeanOfConstant(xs, c);
    NoDeviationFromCentre(xs, c as real);
  }

  /** A sum of squared deviations is zero only if every value sits on the centre. */
  lemma {:induction false} ZeroSquaredDeviations(ys: seq<int>, m: real)
    requires SquaredDeviations(ys, m) == 0.0
    ensures forall i :: 0 <= i < |ys| ==> ys[i] as real == m
  {
    if |ys| > 0 {
      assert SquaredDeviations(ys[1..], m) >= 0.0;
      SquareNonNegative(Deviation(ys[0], m));
      SquareZero(Deviation(ys[0], m));
      ZeroSquaredDeviations(ys[1..], m);
      assert forall i :: 1 <= i < |ys| ==> ys[i] == ys[1..][i - 1];
    }
  }

  /**
   * The population variance is zero exactly when every element is the same:
   * perfectly regular cycles, and only they, have zero std.
   */
  lemma VarianceZeroIffConstant(xs: seq<int>)
    requires |xs| > 0
    ensures ExtractCycleFeatures(xs).variance == 0.0 <==> forall i :: 0 <= i < |xs| ==> xs[i] == xs[0]
  {
    if forall i :: 0 <= i < |xs| ==> xs[i] == xs[0] {
      ConstantHasZeroVariance(xs, xs[0]);
    }
    if ExtractCycleFeatures(xs).variance == 0.0 {
      assert SquaredDeviations(xs, Mean(xs)) == 0.0;
      ZeroSquaredDeviations(xs, Mean(xs));
    }
  }
}
