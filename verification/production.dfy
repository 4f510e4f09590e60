/**
 * The production pipeline check: per-model decision thresholds, the
 * confidence band and risk label of a prediction, preprocessing that
 * refuses an uninitialised service or a missing feature, the side-by-side
 * comparison of both models on one transaction, and the accuracy summary
 * over the sample transactions. Replies and the 80/20 roll are inputs.
 */
module Production {
  import opened Wrappers
  import opened Metrics
  import opened Inference

  /** `OPTIMAL_THRESHOLDS`, from the threshold tuning analysis. */
  const OPTIMAL_THRESHOLDS: map<string, real> := map[BASELINE := 0.5, CANDIDATE := 0.9]
  const DEFAULT_THRESHOLD: real := 0.5

  /** `OPTIMAL_THRESHOLDS.get(model_name, 0.5)`. */
  function Threshold(model: string): (t: real)
    ensures model == BASELINE ==> t == 0.5
    ensures model == CANDIDATE ==> t == 0.9
    ensures model != BASELINE && model != CANDIDATE ==> t == 0.5
  {
    if model in OPTIMAL_THRESHOLDS then OPTIMAL_THRESHOLDS[model] else DEFAULT_THRESHOLD
  }

  datatype Confidence = High | Medium | Low

  /** The confidence band depends on the probability alone, not on the model's threshold. */
  function ConfidenceOf(p: real): (c: Confidence)
    ensures c == High <==> p > 0.9
    ensures c == Medium <==> 0.5 < p <= 0.9
    ensures c == Low <==> p <= 0.5
  {
    if p > 0.9 then High else if p > 0.5 then Medium else Low
  }

  /** The service's fitted preprocessing, absent when it was never initialised. */
  datatype Pipeline = Pipeline(columns: seq<string>, scaler: Scaler)

  datatype PreprocessError = NotInitialized | MissingFeature(name: string)

  /** `preprocess_transaction`: RuntimeError before initialisation, ValueError naming the first missing feature. */
  function PreprocessTransaction(service: Option<Pipeline>, data: map<string, real>): (r: Result<seq<real>, PreprocessError>)
    requires service.Some? ==> Fits(service.value.scaler, |service.value.columns|)
    ensures service.None? ==> r == Err(NotInitialized)
    ensures service.Some? ==>
              (r.Err? <==> exists i :: 0 <= i < |service.value.columns| && service.value.columns[i] !in data)
    ensures service.Some? && r.Err? ==>
              r.error.MissingFeature? && r.error.name !in data && r.error.name in service.value.columns
    ensures service.Some? && r.Err? ==>
              FirstMissing(service.value.columns, data).Some?
              && r.error.name == service.value.columns[FirstMissing(service.value.columns, data).value]
    ensures service.Some? && r.Ok? ==> r.value == Preprocess(service.value.columns, service.value.scaler, data).value
  {
    match service
    case None => Err(NotInitialized)
    case Some(p) =>
      match Preprocess(p.columns, p.scaler, data)
      case Ok(scaled) => Ok(scaled)
      case Err(name) => Err(MissingFeature(name))
  }

  datatype Prediction =
    | Predicted(model: string, probability: real, isFraud: bool, confidence: Confidence,
                threshold: real, amount: real, highRisk: bool)
    | Failed

  /**
   * `predict_fraud`: a 200 reply with a probability is classified against
   * the model's own threshold (strictly above it is fraud) and labelled
   * high risk exactly when it is fraud; anything else is an error result.
   */
  function PredictFraud(service: Option<Pipeline>, data: map<string, real>, model: string, reply: Reply): (r: Prediction)
    requires service.Some? ==> Fits(service.value.scaler, |service.value.columns|)
    ensures r.Predicted? <==> PreprocessTransaction(service, data).Ok? && Probability(reply).Some?
    ensures r.Predicted? ==> r.model == model && r.probability == Probability(reply).value
    ensures r.Predicted? ==> r.threshold == Threshold(model) && (r.isFraud <==> r.probability > r.threshold)
    ensures r.Predicted? ==> (r.highRisk <==> r.isFraud) && r.confidence == ConfidenceOf(r.probability)
    ensures r.Predicted? ==> r.amount == (if "Amount" in data then data["Amount"] else 0.0)
  {
    match PreprocessTransaction(service, data)
    case Err(_) => Failed
    case Ok(_) =>
      match Probability(reply)
      case None => Failed
      case Some(p) =>
        var t := Threshold(model);
        Predicted(model, p, p > t, ConfidenceOf(p), t, if "Amount" in data then data["Amount"] else 0.0, p > t)
  }

  /** `result.get('is_fraud', False)` and `result.get('fraud_probability', 0)`. */
  function FlaggedOrFalse(r: Prediction): bool { r.Predicted? && r.isFraud }
  function ProbabilityOrZero(r: Prediction): real { if r.Predicted? then r.probability else 0.0 }

  datatype AbResult = AbResult(baseline: Prediction, candidate: Prediction, selectedBaseline: bool,
                               difference: real, bothAgree: bool)

  /**
   * `ab_test_prediction`: both models score the transaction, the 80/20
   * roll picks the one production would use, and the comparison treats a
   * missing flag as "not fraud" and a missing probability as 0.
   */
  function AbTestPrediction(service: Option<Pipeline>, data: map<string, real>, baselineReply: Reply,
                            candidateReply: Reply, roll: real): (r: AbResult)
    requires service.Some? ==> Fits(service.value.scaler, |service.value.columns|)
    ensures r.baseline == PredictFraud(service, data, BASELINE, baselineReply)
    ensures r.candidate == PredictFraud(service, data, CANDIDATE, candidateReply)
    ensures r.selectedBaseline <==> roll < 0.8
    ensures r.bothAgree <==> FlaggedOrFalse(r.baseline) == FlaggedOrFalse(r.candidate)
    ensures r.difference == ProbabilityOrZero(r.candidate) - ProbabilityOrZero(r.baseline)
    ensures r.baseline.Failed? && r.candidate.Failed? ==> r.bothAgree && r.difference == 0.0
  {
    var b := PredictFraud(service, data, BASELINE, baselineReply);
    var c := PredictFraud(service, data, CANDIDATE, candidateReply);
    AbResult(b, c, roll < 0.8, ProbabilityOrZero(c) - ProbabilityOrZero(b), FlaggedOrFalse(b) == FlaggedOrFalse(c))
  }

  /** The same probability can be fraud for the baseline and not for the candidate: 0.5 < p <= 0.9. */
  lemma ThresholdsDisagree(p: real)
    requires 0.5 < p <= 0.9
    ensures p > Threshold(BASELINE) && !(p > Threshold(CANDIDATE)) && ConfidenceOf(p) == Medium
  {
  }

  // ---------------------------------------------------------------- summary

  /** How many results of one side match the actual label; every result must carry a flag. */
  function CorrectCount(results: seq<AbResult>, actual: seq<bool>, baselineSide: bool): (n: nat)
    requires |results| == |actual|
    ensures n <= |results|
  {
    if results == [] then 0
    else
      var r := if baselineSide then results[0].baseline else results[0].candidate;
      (if r.Predicted? && r.isFraud == actual[0] then 1 else 0) + CorrectCount(results[1..], actual[1..], baselineSide)
  }

  predicate AllPredicted(results: seq<AbResult>) {
    forall k :: 0 <= k < |results| ==> results[k].baseline.Predicted? && results[k].candidate.Predicted?
  }

  datatype SummaryError = KeyError | ZeroDivision

  /**
   * The summary of `test_production_service`: `result[...]['is_fraud']`
   * raises on an error result, and an empty run divides by zero;
   * otherwise the two accuracies are the shares of correct flags.
   */
  method AccuracySummary(results: seq<AbResult>, actual: seq<bool>) returns (r: Result<(real, real), SummaryError>)
    requires |results| == |actual|
    ensures r.Err? <==> !AllPredicted(results) || results == []
    ensures !AllPredicted(results) ==> r == Err(KeyError)
    ensures r.Ok? ==> r.value.0 == Ratio(CorrectCount(results, actual, true), |results|)
                      && r.value.1 == Ratio(CorrectCount(results, actual, false), |results|)
    ensures r.Ok? ==> 0.0 <= r.value.0 <= 1.0 && 0.0 <= r.value.1 <= 1.0
  {
    var baselineCorrect, candidateCorrect := 0, 0;
    var i := 0;
    while i < |results|
      invariant 0 <= i <= |results|
      invariant AllPredicted(results[..i])
      invariant baselineCorrect == CorrectCount(results[..i], actual[..i], true)
      invariant candidateCorrect == CorrectCount(results[..i], actual[..i], false)
    {
      if !results[i].baseline.Predicted? || !results[i].candidate.Predicted? {
        assert !AllPredicted(results);
        return Err(KeyError);
      }
      CorrectCountSnoc(results[..i + 1], actual[..i + 1], true);
      CorrectCountSnoc(results[..i + 1], actual[..i + 1], false);
      assert results[..i + 1][..i] == results[..i] && actual[..i + 1][..i] == actual[..i];
      if results[i].baseline.isFraud == actual[i] {
        baselineCorrect := baselineCorrect + 1;
      }
      if results[i].candidate.isFraud == actual[i] {
        candidateCorrect := candidateCorrect + 1;
      }
      i := i + 1;
    }
    assert results[..i] == results && actual[..i] == actual;
    if |results| == 0 {
      return Err(ZeroDivision);
    }
    r := Ok((Ratio(baselineCorrect, |results|), Ratio(candidateCorrect, |results|)));
  }

  lemma CorrectCountSnoc(results: seq<AbResult>, actual: seq<bool>, baselineSide: bool)
    requires |results| == |actual| && results != []
    ensures var n := |results| - 1;
            var r := if baselineSide then results[n].baseline else results[n].candidate;
            CorrectCount(results, actual, baselineSide)
            == CorrectCount(results[..n], actual[..n], baselineSide) + (if r.Predicted? && r.isFraud == actual[n] then 1 else 0)
  {
    if |results| > 1 {
      CorrectCountSnoc(results[1..], actual[1..], baselineSide);
      assert results[1..][..|results| - 2] == results[..|results| - 1][1..];
      assert actual[1..][..|actual| - 2] == actual[..|actual| - 1][1..];
    }
  }
}
