/**
 * The A/B traffic simulator: a generator of synthetic transactions with a
 * running id, one request per transaction to each model, collection of
 * the successful replies per model, per-model confusion counts and
 * metrics, and the promotion recommendation. Random draws and replies
 * are inputs.
 */
module Simulate {
  import opened Wrappers
  import opened Metrics
  import opened Inference

  const PCA_FEATURES: nat := 28
  const LEGIT_AMOUNT_CAP: real := 500.0
  const LEGIT_HOURS: seq<nat> := [9, 10, 11, 12, 13, 14, 15, 16, 17, 18, 19, 20]
  const FRAUD_HOURS: seq<nat> := [0, 1, 2, 3, 4, 5, 23]

  /** The draws behind one legitimate transaction. */
  datatype LegitDraw = LegitDraw(normalAmount: real, fallbackAmount: real, hour: nat, offset: real, pca: seq<real>)

  /** `uniform(10, 200)` for the capped amount, an hour from the shopping hours, 28 PCA values. */
  predicate ValidLegitDraw(d: LegitDraw) {
    10.0 <= d.fallbackAmount <= 200.0 && d.hour in LEGIT_HOURS && 0.0 <= d.offset <= 3600.0
    && |d.pca| == PCA_FEATURES
  }

  /** The draws behind one fraudulent transaction. */
  datatype FraudDraw = FraudDraw(amount: real, hour: nat, offset: real, pca: seq<real>)

  /** An amount from one of the three ranges, a night hour, 28 PCA values. */
  predicate ValidFraudDraw(d: FraudDraw) {
    (1.0 <= d.amount <= 5.0 || 800.0 <= d.amount <= 2000.0 || 200.0 <= d.amount <= 500.0)
    && d.hour in FRAUD_HOURS && 0.0 <= d.offset <= 3600.0 && |d.pca| == PCA_FEATURES
  }

  function AbsValue(x: real): (y: real)
    ensures y >= 0.0 && (y == x || y == -x)
  {
    if x < 0.0 then -x else x
  }

  /** `generate_legitimate_transaction`: [time, amount, 28 PCA values], not fraud, amount at most 500. */
  function LegitimateFeatures(d: LegitDraw): (features: seq<real>)
    requires ValidLegitDraw(d)
    ensures |features| == 30
    ensures features[0] == (d.hour * 3600) as real + d.offset && features[2..] == d.pca
    ensures 0.0 <= features[1] <= LEGIT_AMOUNT_CAP
    ensures AbsValue(d.normalAmount) <= LEGIT_AMOUNT_CAP ==> features[1] == AbsValue(d.normalAmount)
    ensures AbsValue(d.normalAmount) > LEGIT_AMOUNT_CAP ==> features[1] == d.fallbackAmount
  {
    var amount := AbsValue(d.normalAmount);
    var amount := if amount > LEGIT_AMOUNT_CAP then d.fallbackAmount else amount;
    [(d.hour * 3600) as real + d.offset, amount] + d.pca
  }

  /** `generate_fraud_transaction`: [time, amount, 28 PCA values] at a night hour. */
  function FraudFeatures(d: FraudDraw): (features: seq<real>)
    requires ValidFraudDraw(d)
    ensures |features| == 30
    ensures features[0] == (d.hour * 3600) as real + d.offset
    ensures features[1] == d.amount && features[2..] == d.pca
    ensures features[0] < 6.0 * 3600.0 + 1.0 || features[0] >= 23.0 * 3600.0
  {
    [(d.hour * 3600) as real + d.offset, d.amount] + d.pca
  }

  datatype SimTransaction = SimTransaction(id: nat, features: seq<real>, isFraud: bool)

  /** The draws for one `generate_transaction` call: `random.random()` and both candidate patterns. */
  datatype Draw = Draw(roll: real, legit: LegitDraw, fraud: FraudDraw)

  predicate ValidDraw(d: Draw) {
    ValidLegitDraw(d.legit) && ValidFraudDraw(d.fraud)
  }

  /** The features one draw yields: the fraud pattern or the legitimate one. */
  function DrawnFeatures(d: Draw, fraud: bool): (features: seq<real>)
    requires ValidDraw(d)
    ensures |features| == 30
  {
    if fraud then FraudFeatures(d.fraud) else LegitimateFeatures(d.legit)
  }

  class TransactionGenerator {
    const fraudRate: real
    /** The id of the last transaction generated; 0 before the first. */
    var transactionId: nat

    constructor(fraudRate: real)
      ensures this.fraudRate == fraudRate && transactionId == 0
    {
      this.fraudRate := fraudRate;
      transactionId := 0;
    }

    /** `generate_transaction`: the next id, fraud iff the roll falls below the fraud rate. */
    method GenerateTransaction(d: Draw) returns (tx: SimTransaction)
      requires ValidDraw(d)
      modifies this
      ensures transactionId == old(transactionId) + 1 && tx.id == transactionId
      ensures tx.isFraud <==> d.roll < fraudRate
      ensures tx.features == if tx.isFraud then FraudFeatures(d.fraud) else LegitimateFeatures(d.legit)
      ensures |tx.features| == 30
    {
      transactionId := transactionId + 1;
      if d.roll < fraudRate {
        tx := SimTransaction(transactionId, FraudFeatures(d.fraud), true);
      } else {
        tx := SimTransaction(transactionId, LegitimateFeatures(d.legit), false);
      }
    }

    /** The list comprehension of `simulate_traffic`: n transactions with consecutive ids. */
    method GenerateMany(draws: seq<Draw>) returns (txs: seq<SimTransaction>)
      requires forall k :: 0 <= k < |draws| ==> ValidDraw(draws[k])
      modifies this
      ensures transactionId == old(transactionId) + |draws| && |txs| == |draws|
      ensures forall k :: 0 <= k < |txs| ==> txs[k].id == old(transactionId) + k + 1
      ensures forall k :: 0 <= k < |txs| ==> |txs[k].features| == 30 && (txs[k].isFraud <==> draws[k].roll < fraudRate)
      ensures forall k :: 0 <= k < |txs| ==> txs[k].features == DrawnFeatures(draws[k], txs[k].isFraud)
    {
      txs := [];
      var k := 0;
      while k < |draws|
        invariant 0 <= k <= |draws| && |txs| == k
        invariant transactionId == old(transactionId) + k
        invariant forall j :: 0 <= j < k ==> txs[j].id == old(transactionId) + j + 1
        invariant forall j :: 0 <= j < k ==>
                    (txs[j].isFraud <==> draws[j].roll < fraudRate) && txs[j].features == DrawnFeatures(draws[j], txs[j].isFraud)
      {
        var tx := GenerateTransaction(draws[k]);
        assert tx.features == DrawnFeatures(draws[k], tx.isFraud);
        txs := txs + [tx];
        k := k + 1;
      }
    }
  }

  // ---------------------------------------------------------------- one request

  datatype SimResult =
    | SimSuccess(transactionId: nat, model: string, prediction: real, actualFraud: bool,
                 predictedFraud: bool, correct: bool, amount: real)
    | SimError(transactionId: nat, model: string)

  /**
   * `send_prediction_request`: a 200 reply with a probability yields a
   * success whose class is "probability > 0.5"; every other outcome is an
   * error record for the same transaction and model.
   */
  function SendPredictionRequest(tx: SimTransaction, model: string, reply: Reply): (r: SimResult)
    ensures r.transactionId == tx.id && r.model == model
    ensures r.SimSuccess? <==> Probability(reply).Some? && |tx.features| >= 2
    ensures r.SimSuccess? ==> r.prediction == Probability(reply).value && r.actualFraud == tx.isFraud
    ensures r.SimSuccess? ==> (r.predictedFraud <==> r.prediction > 0.5)
    ensures r.SimSuccess? ==> (r.correct <==> r.predictedFraud == r.actualFraud)
  {
    match Probability(reply)
    case None => SimError(tx.id, model)
    case Some(p) =>
      if |tx.features| < 2 then SimError(tx.id, model)
      else SimSuccess(tx.id, model, p, tx.isFraud, p > 0.5, (p > 0.5) == tx.isFraud, tx.features[1])
  }

  // ---------------------------------------------------------------- collection

  /** The successful results of one model, in completion order. */
  function SuccessesOf(outcomes: seq<SimResult>, model: string): (s: seq<SimResult>)
    ensures |s| <= |outcomes|
    ensures forall k :: 0 <= k < |s| ==> s[k].SimSuccess? && s[k].model == model && s[k] in outcomes
  {
    if outcomes == [] then []
    else SuccessesOf(outcomes[..|outcomes| - 1], model)
         + (var o := outcomes[|outcomes| - 1]; if o.SimSuccess? && o.model == model then [o] else [])
  }

  /** Every success of the model is kept as often as it occurs, and nothing else. */
  lemma {:induction false} SuccessesOfCount(outcomes: seq<SimResult>, model: string, x: SimResult)
    ensures multiset(SuccessesOf(outcomes, model))[x] ==
              if x.SimSuccess? && x.model == model then multiset(outcomes)[x] else 0
  {
    if outcomes != [] {
      var init := outcomes[..|outcomes| - 1];
      SuccessesOfCount(init, model, x);
      assert outcomes == init + [outcomes[|outcomes| - 1]];
    }
  }

  /** The `as_completed` loop: each success is appended to its own model's list, errors are dropped. */
  method CollectResults(outcomes: seq<SimResult>) returns (baseline: seq<SimResult>, candidate: seq<SimResult>)
    requires forall k :: 0 <= k < |outcomes| ==> outcomes[k].model == BASELINE || outcomes[k].model == CANDIDATE
    ensures baseline == SuccessesOf(outcomes, BASELINE) && candidate == SuccessesOf(outcomes, CANDIDATE)
    ensures |baseline| + |candidate| == CountSuccesses(outcomes)
  {
    baseline, candidate := [], [];
    var k := 0;
    while k < |outcomes|
      invariant 0 <= k <= |outcomes|
      invariant baseline == SuccessesOf(outcomes[..k], BASELINE) && candidate == SuccessesOf(outcomes[..k], CANDIDATE)
      invariant |baseline| + |candidate| == CountSuccesses(outcomes[..k])
    {
      assert outcomes[..k + 1][..k] == outcomes[..k];
      var o := outcomes[k];
      if o.SimSuccess? {
        if o.model == BASELINE {
          baseline := baseline + [o];
        } else {
          candidate := candidate + [o];
        }
      }
      k := k + 1;
    }
    assert outcomes[..k] == outcomes;
  }

  function CountSuccesses(outcomes: seq<SimResult>): (n: nat)
    ensures n <= |outcomes|
  {
    if outcomes == [] then 0
    else CountSuccesses(outcomes[..|outcomes| - 1]) + (if outcomes[|outcomes| - 1].SimSuccess? then 1 else 0)
  }

  // ---------------------------------------------------------------- analysis

  function ActualLabels(s: seq<SimResult>): (ys: seq<bool>)
    ensures |ys| == |s|
  {
    seq(|s|, k requires 0 <= k < |s| => s[k].SimSuccess? && s[k].actualFraud)
  }

  function PredictedLabels(s: seq<SimResult>): (ys: seq<bool>)
    ensures |ys| == |s|
  {
    seq(|s|, k requires 0 <= k < |s| => s[k].SimSuccess? && s[k].predictedFraud)
  }

  function CountCorrect(s: seq<SimResult>): (n: nat)
    ensures n <= |s|
  {
    if s == [] then 0 else (if s[0].SimSuccess? && s[0].correct then 1 else 0) + CountCorrect(s[1..])
  }

  datatype ModelAnalysis = ModelAnalysis(confusion: Confusion, total: nat, correct: nat,
                                         accuracy: real, precision: real, recall: real, f1: real)

  /**
   * The per-model block of `analyze_results`: confusion counts, accuracy
   * and the zero-guarded precision, recall and F1.
   */
  function AnalyzeModel(s: seq<SimResult>): (a: ModelAnalysis)
    requires forall k :: 0 <= k < |s| ==> s[k].SimSuccess? && (s[k].correct <==> s[k].predictedFraud == s[k].actualFraud)
    ensures a.confusion == Tally(ActualLabels(s), PredictedLabels(s))
    ensures a.confusion.tp + a.confusion.fp + a.confusion.tn + a.confusion.fn == a.total == |s|
    ensures a.correct == a.confusion.tp + a.confusion.tn
    ensures 0.0 <= a.accuracy <= 1.0 && 0.0 <= a.precision <= 1.0 && 0.0 <= a.recall <= 1.0
    ensures 0.0 <= a.f1 <= 1.0 && a.f1 == F1(a.confusion)
    ensures a.precision == Precision(a.confusion) && a.recall == Recall(a.confusion)
    ensures a.accuracy == Ratio(a.correct, a.total) && a.accuracy == Accuracy(a.confusion)
  {
    var c := Tally(ActualLabels(s), PredictedLabels(s));
    CorrectIsAgreement(s);
    AgreeIsDiagonal(ActualLabels(s), PredictedLabels(s));
    HarmonicMeanIsF1(c);
    var correct := CountCorrect(s);
    ModelAnalysis(c, |s|, correct, Ratio(correct, |s|), Precision(c), Recall(c),
                  HarmonicMean(Precision(c), Recall(c)))
  }

  lemma {:induction false} CorrectIsAgreement(s: seq<SimResult>)
    requires forall k :: 0 <= k < |s| ==> s[k].SimSuccess? && (s[k].correct <==> s[k].predictedFraud == s[k].actualFraud)
    ensures CountCorrect(s) == CountAgree(ActualLabels(s), PredictedLabels(s))
  {
    if s != [] {
      CorrectIsAgreement(s[1..]);
      assert ActualLabels(s)[1..] == ActualLabels(s[1..]);
      assert PredictedLabels(s)[1..] == PredictedLabels(s[1..]);
    }
  }

  /** `tp / max(1, #actual fraud)`: the comparison's recall. */
  function ComparisonRecall(s: seq<SimResult>): (r: real)
    ensures r == Recall(Tally(ActualLabels(s), PredictedLabels(s)))
  {
    var c := Tally(ActualLabels(s), PredictedLabels(s));
    TallyMarginals(ActualLabels(s), PredictedLabels(s));
    var actualFraud := CountTrue(ActualLabels(s));
    c.tp as real / (if actualFraud > 1 then actualFraud else 1) as real
  }

  /**
   * The comparison runs only when both models have results; promotion is
   * recommended iff the candidate's recall is at least 5% above a non-zero
   * baseline recall.
   */
  function RecommendPromotion(baseline: seq<SimResult>, candidate: seq<SimResult>): (r: Option<bool>)
    ensures r.Some? <==> baseline != [] && candidate != []
    ensures r.Some? ==> (r.value <==> ComparisonRecall(baseline) > 0.0
                                      && ComparisonRecall(candidate) >= 1.05 * ComparisonRecall(baseline))
  {
    if baseline == [] || candidate == [] then None
    else
      var b, c := ComparisonRecall(baseline), ComparisonRecall(candidate);
      PercentThreshold(b, c);
      Some(PercentChange(b, c) >= 5.0)
  }
}
