/**
 * Binary classification counts and the zero-guarded ratios every script
 * computes from them (sklearn's `zero_division=0` and the scripts' own
 * `if denominator > 0 else 0` guards behave the same way).
 */
module Metrics {

  /** The four cells of a 2x2 confusion matrix, positive class = fraud. */
  datatype Confusion = Confusion(tn: nat, fp: nat, fn: nat, tp: nat) {
    function Total(): nat { tn + fp + fn + tp }
  }

  /** `num / den`, or 0 when the denominator is 0. */
  function Ratio(num: nat, den: nat): (r: real)
    requires num <= den
    ensures den == 0 ==> r == 0.0
    ensures den > 0 ==> r * den as real == num as real
    ensures 0.0 <= r <= 1.0
  {
    if den == 0 then 0.0 else num as real / den as real
  }

  function Precision(c: Confusion): (p: real)
    ensures 0.0 <= p <= 1.0
  {
    Ratio(c.tp, c.tp + c.fp)
  }

  function Recall(c: Confusion): (r: real)
    ensures 0.0 <= r <= 1.0
  {
    Ratio(c.tp, c.tp + c.fn)
  }

  function Specificity(c: Confusion): (s: real)
    ensures 0.0 <= s <= 1.0
  {
    Ratio(c.tn, c.tn + c.fp)
  }

  function Accuracy(c: Confusion): (a: real)
    ensures 0.0 <= a <= 1.0
  {
    Ratio(c.tp + c.tn, c.Total())
  }

  /** sklearn's `f1_score(..., zero_division=0)`: 2tp / (2tp + fp + fn). */
  function F1(c: Confusion): (f: real)
    ensures 0.0 <= f <= 1.0
  {
    Ratio(2 * c.tp, 2 * c.tp + c.fp + c.fn)
  }

  /** The scripts' own F1: `2 * p * r / (p + r) if (p + r) > 0 else 0`. */
  function HarmonicMean(p: real, r: real): real {
    if p + r > 0.0 then 2.0 * p * r / (p + r) else 0.0
  }

  /** The scripts' F1 and sklearn's agree on every confusion matrix. */
  lemma HarmonicMeanIsF1(c: Confusion)
    ensures HarmonicMean(Precision(c), Recall(c)) == F1(c)
  {
    var p, r := Precision(c), Recall(c);
    if c.tp == 0 {
      assert p == 0.0 && r == 0.0;
    } else {
      var t, a, b := c.tp as real, (c.tp + c.fp) as real, (c.tp + c.fn) as real;
      assert p == t / a && r == t / b;
      assert p + r == t * (a + b) / (a * b);
      assert 2.0 * p * r == 2.0 * t * t / (a * b);
      calc {
        HarmonicMean(p, r);
        2.0 * p * r / (p + r);
        (2.0 * t * t / (a * b)) / (t * (a + b) / (a * b));
        2.0 * t / (a + b);
      }
      assert a + b == (2 * c.tp + c.fp + c.fn) as real;
    }
  }

  /**
   * `tn, fp, fn, tp = confusion_matrix(actual, predicted).ravel()` unpacks
   * four counts only when both classes occur among labels and predictions;
   * otherwise the matrix is 1x1 and the unpack raises.
   */
  predicate BothClassesOccur(actual: seq<bool>, predicted: seq<bool>) {
    (true in actual || true in predicted) && (false in actual || false in predicted)
  }

  /** Counts of (actual, predicted) pairs, as `confusion_matrix(...).ravel()` reads them. */
  function Tally(actual: seq<bool>, predicted: seq<bool>): (c: Confusion)
    requires |actual| == |predicted|
    ensures c.tn + c.fp + c.fn + c.tp == |actual|
  {
    if actual == [] then Confusion(0, 0, 0, 0)
    else
      Count(Tally(actual[1..], predicted[1..]), actual[0], predicted[0])
  }

  /** Adds one (actual, predicted) pair to the matrix. */
  function Count(c: Confusion, actual: bool, predicted: bool): (d: Confusion)
    ensures d.tn + d.fp + d.fn + d.tp == c.tn + c.fp + c.fn + c.tp + 1
    ensures d.tp + d.tn == c.tp + c.tn + (if actual == predicted then 1 else 0)
    ensures d.tp + d.fn == c.tp + c.fn + (if actual then 1 else 0)
    ensures d.tp + d.fp == c.tp + c.fp + (if predicted then 1 else 0)
  {
    if actual then
      (if predicted then c.(tp := c.tp + 1) else c.(fn := c.fn + 1))
    else
      (if predicted then c.(fp := c.fp + 1) else c.(tn := c.tn + 1))
  }

  function CountTrue(s: seq<bool>): (n: nat)
    ensures n <= |s|
  {
    if s == [] then 0 else (if s[0] then 1 else 0) + CountTrue(s[1..])
  }

  /** Number of positions where prediction and label agree. */
  function CountAgree(actual: seq<bool>, predicted: seq<bool>): (n: nat)
    requires |actual| == |predicted|
    ensures n <= |actual|
  {
    if actual == [] then 0
    else (if actual[0] == predicted[0] then 1 else 0) + CountAgree(actual[1..], predicted[1..])
  }

  /** The first row and column sums of the matrix are the numbers of actual and predicted positives. */
  lemma {:induction false} TallyMarginals(actual: seq<bool>, predicted: seq<bool>)
    requires |actual| == |predicted|
    ensures Tally(actual, predicted).tp + Tally(actual, predicted).fn == CountTrue(actual)
    ensures Tally(actual, predicted).tp + Tally(actual, predicted).fp == CountTrue(predicted)
  {
    if actual != [] {
      TallyMarginals(actual[1..], predicted[1..]);
    }
  }

  /** The correct predictions are exactly the diagonal of the confusion matrix. */
  lemma {:induction false} AgreeIsDiagonal(actual: seq<bool>, predicted: seq<bool>)
    requires |actual| == |predicted|
    ensures CountAgree(actual, predicted) == Tally(actual, predicted).tp + Tally(actual, predicted).tn
  {
    if actual != [] {
      AgreeIsDiagonal(actual[1..], predicted[1..]);
    }
  }

  lemma {:induction false} CountTrueAppend(s: seq<bool>, t: seq<bool>)
    ensures CountTrue(s + t) == CountTrue(s) + CountTrue(t)
  {
    if s == [] {
      assert s + t == t;
    } else {
      assert (s + t)[1..] == s[1..] + t;
      CountTrueAppend(s[1..], t);
    }
  }

  function Abs(x: real): real { if x < 0.0 then -x else x }

  /** `(candidate - baseline) / baseline * 100 if baseline > 0 else 0`, the scripts' relative change. */
  function PercentChange(baseline: real, candidate: real): real {
    if baseline > 0.0 then (candidate - baseline) / baseline * 100.0 else 0.0
  }

  /** A change of at least 5% is a candidate value at least 1.05 times the baseline. */
  lemma PercentThreshold(baseline: real, candidate: real)
    ensures baseline > 0.0 ==> (PercentChange(baseline, candidate) >= 5.0 <==> candidate >= 1.05 * baseline)
    ensures baseline > 0.0 ==> (Abs(PercentChange(baseline, candidate)) <= 5.0 <==>
                                0.95 * baseline <= candidate <= 1.05 * baseline)
  {
    if baseline <= 0.0 { return; }
    var q := (candidate - baseline) / baseline;
    assert q * baseline == candidate - baseline;
    assert PercentChange(baseline, candidate) == q * 100.0;
    assert q >= 0.05 <==> q * baseline >= 0.05 * baseline;
    assert q <= 0.05 <==> q * baseline <= 0.05 * baseline;
    assert q >= -0.05 <==> q * baseline >= -0.05 * baseline;
  }
}
