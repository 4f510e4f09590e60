/**
 * Phase 4 of the offline validation script: the promote / do-not-promote
 * gate comparing the candidate with the baseline on the holdout split.
 * Its Phase 1 is the dataset construction (module DatasetBuild) and its
 * class weights are `TrainModel.ComputeClassWeights`; the model training
 * and scoring of Phases 2 and 3 are opaque.
 */
module OfflineValidation {
  import opened Metrics

  /** Precision and recall of one model on the holdout split. */
  datatype HoldoutScore = HoldoutScore(precision: real, recall: real)

  const MIN_RECALL_IMPROVEMENT_PERCENT: real := 5.0
  const MAX_PRECISION_DELTA: real := 0.01

  /** `(v2 - v1) / v1 * 100 if v1 != 0 else 0` on recall. */
  function RecallImprovementPercent(v1: real, v2: real): real {
    if v1 != 0.0 then (v2 - v1) / v1 * 100.0 else 0.0
  }

  /**
   * The deployment gate: at least 5% relative recall improvement and
   * precision within 0.01 (absolute) of the baseline's.
   */
  function Promote(v1: HoldoutScore, v2: HoldoutScore): (promote: bool)
    requires v1.recall >= 0.0
    ensures promote <==> v1.recall > 0.0 && v2.recall >= 1.05 * v1.recall
                         && -0.01 <= v2.precision - v1.precision <= 0.01
    ensures v1.recall == 0.0 ==> !promote
  {
    PercentThreshold(v1.recall, v2.recall);
    assert v1.recall > 0.0 ==> RecallImprovementPercent(v1.recall, v2.recall) == PercentChange(v1.recall, v2.recall);
    RecallImprovementPercent(v1.recall, v2.recall) >= MIN_RECALL_IMPROVEMENT_PERCENT
    && Abs(v2.precision - v1.precision) <= MAX_PRECISION_DELTA
  }

  /** Precision and recall of one model's 0/1 predictions on the holdout labels. */
  function Score(labels: seq<bool>, predictions: seq<bool>): (s: HoldoutScore)
    requires |labels| == |predictions|
    ensures 0.0 <= s.precision <= 1.0 && 0.0 <= s.recall <= 1.0
  {
    var c := Tally(labels, predictions);
    HoldoutScore(Precision(c), Recall(c))
  }

  /**
   * Both models are scored on the same labels, so their recalls share a
   * denominator: the recall test of the gate compares true-positive counts.
   */
  lemma {:induction false} SameHoldoutRecallTest(labels: seq<bool>, p1: seq<bool>, p2: seq<bool>)
    requires |labels| == |p1| == |p2|
    ensures var tp1, tp2 := Tally(labels, p1).tp, Tally(labels, p2).tp;
            Promote(Score(labels, p1), Score(labels, p2)) <==>
              tp1 > 0 && tp2 as real >= 1.05 * tp1 as real
              && -0.01 <= Score(labels, p2).precision - Score(labels, p1).precision <= 0.01
  {
    TallyMarginals(labels, p1);
    TallyMarginals(labels, p2);
    var c1, c2 := Tally(labels, p1), Tally(labels, p2);
    if CountTrue(labels) > 0 {
      RecallsShareDenominator(c1, c2);
    }
  }

  /** Two recalls over the same number of actual frauds compare as their true-positive counts do. */
  lemma RecallsShareDenominator(c1: Confusion, c2: Confusion)
    requires c1.tp + c1.fn == c2.tp + c2.fn > 0
    ensures Recall(c1) > 0.0 <==> c1.tp > 0
    ensures Recall(c2) >= 1.05 * Recall(c1) <==> c2.tp as real >= 1.05 * c1.tp as real
  {
    var d := (c1.tp + c1.fn) as real;
    ScaledComparison(Recall(c2), Recall(c1), d, c2.tp as real, c1.tp as real);
  }

  lemma ScaledComparison(x: real, y: real, d: real, xd: real, yd: real)
    requires d > 0.0 && x * d == xd && y * d == yd
    ensures x >= 1.05 * y <==> xd >= 1.05 * yd
  {
    assert x - 1.05 * y == (xd - 1.05 * yd) / d;
  }
}
