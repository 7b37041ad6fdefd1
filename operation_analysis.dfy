/** Post-trade metrics of the operation-analysis route
    (app/api/operation-analysis/route.ts): profit difference and its
    percentage, whole minutes held, the success flag and the accuracy score,
    plus the fixed metrics of the fallback answer. The narrative text is not
    modelled. */
module OperationAnalysis {
  import opened TradingTypes
  import opened TradingData

  /** The fields of the posted operation the metrics read; timestamps are
      milliseconds, absent ones `None`. */
  datatype AnalysisInput = AnalysisInput(
    plannedProfit: Option<real>,
    actualProfit: Option<real>,
    startTime: Option<int>,
    endTime: Option<int>)

  datatype Metrics = Metrics(
    profitDifference: real,
    profitDifferencePercent: real,
    duration: int,
    success: bool,
    accuracyScore: real)

  /** `x || 0` on an optional number. */
  function OrZero(x: Option<real>): (r: real)
    ensures x.None? ==> r == 0.0
    ensures x.Some? ==> r == x.value
  {
    x.GetOr(0.0)
  }

  function Max(a: real, b: real): (r: real)
    ensures r >= a && r >= b && (r == a || r == b)
  {
    if a >= b then a else b
  }

  /** The metrics of a successful analysis. */
  function ComputeMetrics(op: AnalysisInput): (m: Metrics)
    ensures m.profitDifference == OrZero(op.actualProfit) - OrZero(op.plannedProfit)
    ensures OrZero(op.plannedProfit) == 0.0 ==> m.profitDifferencePercent == 0.0
    ensures OrZero(op.plannedProfit) != 0.0 ==>
      m.profitDifferencePercent * Abs(OrZero(op.plannedProfit)) == m.profitDifference * 100.0
    ensures op.startTime.Some? && op.endTime.Some? ==>
      m.duration * 60000 <= op.endTime.value - op.startTime.value < (m.duration + 1) * 60000
    ensures op.startTime.None? || op.endTime.None? ==> m.duration == 0
    ensures m.success <==> OrZero(op.actualProfit) > 0.0
    ensures m.accuracyScore == Max(0.0, 100.0 - Abs(m.profitDifferencePercent))
    ensures 0.0 <= m.accuracyScore <= 100.0
  {
    var plannedProfit := OrZero(op.plannedProfit);
    var actualProfit := OrZero(op.actualProfit);
    var profitDifference := actualProfit - plannedProfit;
    var profitDifferencePercent :=
      if plannedProfit != 0.0 then (profitDifference / Abs(plannedProfit)) * 100.0 else 0.0;
    var duration :=
      if op.endTime.Some? && op.startTime.Some? then (op.endTime.value - op.startTime.value) / 60000 else 0;
    Metrics(
      profitDifference,
      profitDifferencePercent,
      duration,
      actualProfit > 0.0,
      Max(0.0, 100.0 - Abs(profitDifferencePercent)))
  }

  /** The accuracy is perfect exactly when the trade made what was planned
      (or nothing was planned), and it is 0 once the relative miss reaches
      100%. */
  lemma AccuracyMeasuresMiss(op: AnalysisInput)
    ensures ComputeMetrics(op).accuracyScore == 100.0 <==>
      OrZero(op.plannedProfit) == 0.0 || OrZero(op.actualProfit) == OrZero(op.plannedProfit)
    ensures Abs(ComputeMetrics(op).profitDifferencePercent) >= 100.0 ==> ComputeMetrics(op).accuracyScore == 0.0
  {
    var m := ComputeMetrics(op);
    var planned := OrZero(op.plannedProfit);
    if planned != 0.0 {
      var a := Abs(planned);
      assert a > 0.0;
      assert m.profitDifferencePercent * a == m.profitDifference * 100.0;
      if m.profitDifferencePercent == 0.0 {
        assert m.profitDifference * 100.0 == 0.0;
      }
      if m.profitDifference == 0.0 {
        assert m.profitDifferencePercent * a == 0.0;
      }
    }
  }

  /** The metrics of a stored operation: its success flag is the store's
      notion of a successful operation. */
  function InputOf(op: TradingOperation): AnalysisInput {
    AnalysisInput(Some(op.plannedProfit), op.actualProfit, Some(op.startTime), op.endTime)
  }

  lemma SuccessMatchesStore(op: TradingOperation)
    ensures ComputeMetrics(InputOf(op)).success <==> Successful(op)
    ensures op.endTime.Some? ==> ComputeMetrics(InputOf(op)).duration == (op.endTime.value - op.startTime) / 60000
  {
  }

  /** The fallback answer's metrics: the difference from whatever profit
      fields were read, a zero percentage and duration, and accuracy 50. */
  function FallbackMetrics(actualProfit: Option<real>, plannedProfit: Option<real>): (m: Metrics)
    ensures m.profitDifference == OrZero(actualProfit) - OrZero(plannedProfit)
    ensures m.profitDifferencePercent == 0.0 && m.duration == 0 && m.accuracyScore == 50.0
    ensures m.success <==> OrZero(actualProfit) > 0.0
  {
    Metrics(OrZero(actualProfit) - OrZero(plannedProfit), 0.0, 0, OrZero(actualProfit) > 0.0, 50.0)
  }

  /** The fallback agrees with the full metrics on the difference and the
      success flag, and reports mid-scale accuracy. */
  lemma FallbackAgreesOnOutcome(op: AnalysisInput)
    ensures FallbackMetrics(op.actualProfit, op.plannedProfit).profitDifference == ComputeMetrics(op).profitDifference
    ensures FallbackMetrics(op.actualProfit, op.plannedProfit).success == ComputeMetrics(op).success
  {
  }

  /** The posted body: the operation under the key `operation`, and the
      `detailed` flag. */
  datatype AnalysisBody = AnalysisBody(operation: AnalysisInput, detailed: bool)

  /** The fallback as written: it reads `actualProfit` and `plannedProfit`
      off the body itself, which only has the keys `operation` and
      `detailed`, so both read as absent whatever was posted. */
  function FallbackAsWritten(body: AnalysisBody): (m: Metrics)
    ensures m.profitDifference == 0.0 && !m.success
    ensures m == FallbackMetrics(None, None)
  {
    FallbackMetrics(None, None)
  }

  /** A profitable operation that the written fallback reports as a loss
      with no difference from the plan. */
  lemma FallbackAsWrittenMisreports()
    ensures var body := AnalysisBody(AnalysisInput(Some(5.0), Some(12.0), Some(0), Some(600000)), false);
      && ComputeMetrics(body.operation).success && ComputeMetrics(body.operation).profitDifference == 7.0
      && !FallbackAsWritten(body).success && FallbackAsWritten(body).profitDifference == 0.0
  {
  }

  /** The fallback reading the posted operation: it reports the same
      difference and the same outcome as the full metrics would. */
  function Fallback(body: AnalysisBody): (m: Metrics)
    ensures m.profitDifference == ComputeMetrics(body.operation).profitDifference
    ensures m.success == ComputeMetrics(body.operation).success
    ensures m.profitDifferencePercent == 0.0 && m.duration == 0 && m.accuracyScore == 50.0
  {
    FallbackAgreesOnOutcome(body.operation);
    FallbackMetrics(body.operation.actualProfit, body.operation.plannedProfit)
  }
}
