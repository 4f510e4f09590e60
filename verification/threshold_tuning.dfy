/**
 * Threshold tuning for the candidate model: evaluate a fixed list of
 * decision thresholds on the holdout scores, pick the threshold with the
 * best recall among those meeting a precision floor (best F1 when none
 * does), and recommend it when it beats the baseline's recall.
 */
module ThresholdTuning {
  import opened Wrappers
  import opened Metrics

  const TEST_THRESHOLDS: seq<real> := [0.3, 0.4, 0.5, 0.6, 0.7, 0.8, 0.9]
  const MIN_PRECISION: real := 0.95
  /** The baseline's recall that a recommendation must beat. */
  const BASELINE_RECALL: real := 0.7351

  datatype ThresholdResult = ThresholdResult(
    threshold: real,
    precision: real,
    recall: real,
    f1: real,
    falsePositives: nat,
    falseNegatives: nat)

  /** `(y_probs >= threshold).astype(int)`: fraud iff the score reaches the threshold. */
  function Classify(probs: seq<real>, t: real): (ys: seq<bool>)
    ensures |ys| == |probs|
    ensures forall i :: 0 <= i < |probs| ==> (ys[i] <==> probs[i] >= t)
  {
    seq(|probs|, i requires 0 <= i < |probs| => probs[i] >= t)
  }

  /** The result row for one threshold, or None where the four-way unpack raises. */
  function Evaluate(labels: seq<bool>, probs: seq<real>, t: real): (r: Option<ThresholdResult>)
    requires |labels| == |probs|
    ensures r.Some? <==> BothClassesOccur(labels, Classify(probs, t))
    ensures r.Some? ==> r.value.threshold == t
    ensures r.Some? ==> 0.0 <= r.value.precision <= 1.0 && 0.0 <= r.value.recall <= 1.0 && 0.0 <= r.value.f1 <= 1.0
    ensures r.Some? ==> r.value.falsePositives + r.value.falseNegatives <= |labels|
    ensures r.Some? ==>
              var c := Tally(labels, Classify(probs, t));
              r.value.precision == Precision(c) && r.value.recall == Recall(c) && r.value.f1 == F1(c)
              && r.value.falsePositives == c.fp && r.value.falseNegatives == c.fn
  {
    var predicted := Classify(probs, t);
    if BothClassesOccur(labels, predicted) then
      var c := Tally(labels, predicted);
      Some(ThresholdResult(t, Precision(c), Recall(c), F1(c), c.fp, c.fn))
    else None
  }

  /** A higher threshold flags a subset: false positives can only fall and false negatives only rise. */
  lemma {:induction false} TallyMonotone(labels: seq<bool>, probs: seq<real>, t1: real, t2: real)
    requires |labels| == |probs| && t1 <= t2
    ensures Tally(labels, Classify(probs, t2)).fp <= Tally(labels, Classify(probs, t1)).fp
    ensures Tally(labels, Classify(probs, t2)).fn >= Tally(labels, Classify(probs, t1)).fn
    ensures Tally(labels, Classify(probs, t2)).tp <= Tally(labels, Classify(probs, t1)).tp
  {
    if labels != [] {
      TallyMonotone(labels[1..], probs[1..], t1, t2);
      var ys1, ys2 := Classify(probs, t1), Classify(probs, t2);
      assert ys1[1..] == Classify(probs[1..], t1);
      assert ys2[1..] == Classify(probs[1..], t2);
      var c1, c2 := Tally(labels[1..], ys1[1..]), Tally(labels[1..], ys2[1..]);
      assert Tally(labels, ys1) == Count(c1, labels[0], ys1[0]);
      assert Tally(labels, ys2) == Count(c2, labels[0], ys2[0]);
      assert ys2[0] ==> ys1[0];
    }
  }

  lemma ThresholdMonotone(labels: seq<bool>, probs: seq<real>, t1: real, t2: real)
    requires |labels| == |probs| && t1 <= t2
    requires Evaluate(labels, probs, t1).Some? && Evaluate(labels, probs, t2).Some?
    ensures Evaluate(labels, probs, t2).value.falsePositives <= Evaluate(labels, probs, t1).value.falsePositives
    ensures Evaluate(labels, probs, t2).value.falseNegatives >= Evaluate(labels, probs, t1).value.falseNegatives
    ensures Evaluate(labels, probs, t2).value.recall <= Evaluate(labels, probs, t1).value.recall
  {
    TallyMonotone(labels, probs, t1, t2);
    TallyMarginals(labels, Classify(probs, t1));
    TallyMarginals(labels, Classify(probs, t2));
    var c1, c2 := Tally(labels, Classify(probs, t1)), Tally(labels, Classify(probs, t2));
    RatioMonotone(c2.tp, c1.tp, c1.tp + c1.fn);
  }

  lemma RatioMonotone(a: nat, b: nat, d: nat)
    requires a <= b <= d
    ensures Ratio(a, d) <= Ratio(b, d)
  {
    if d > 0 {
      assert a as real / d as real <= b as real / d as real;
    }
  }

  /**
   * `analyze_thresholds`: one row per test threshold, in order. A threshold
   * at which only one class occurs aborts the whole analysis.
   */
  method AnalyzeThresholds(labels: seq<bool>, probs: seq<real>) returns (r: Option<seq<ThresholdResult>>)
    requires |labels| == |probs|
    ensures r.None? <==> exists t :: t in TEST_THRESHOLDS && Evaluate(labels, probs, t).None?
    ensures r.Some? ==> |r.value| == |TEST_THRESHOLDS|
    ensures r.Some? ==> forall i :: 0 <= i < |TEST_THRESHOLDS| ==>
                          Evaluate(labels, probs, TEST_THRESHOLDS[i]) == Some(r.value[i])
  {
    var results: seq<ThresholdResult> := [];
    var i := 0;
    while i < |TEST_THRESHOLDS|
      invariant 0 <= i <= |TEST_THRESHOLDS| && |results| == i
      invariant forall k :: 0 <= k < i ==> Evaluate(labels, probs, TEST_THRESHOLDS[k]) == Some(results[k])
    {
      var row := Evaluate(labels, probs, TEST_THRESHOLDS[i]);
      if row.None? {
        return None;
      }
      results := results + [row.value];
      i := i + 1;
    }
    return Some(results);
  }

  // ---------------------------------------------------------------- choosing a threshold

  datatype Criterion = ByRecall | ByF1

  function KeyOf(r: ThresholdResult, c: Criterion): real {
    match c
    case ByRecall => r.recall
    case ByF1 => r.f1
  }

  /** Python's `max(xs, key=...)`: the first entry with the largest key. */
  function FirstMax(xs: seq<ThresholdResult>, c: Criterion): (k: nat)
    requires xs != []
    ensures k < |xs|
    ensures forall i :: 0 <= i < |xs| ==> KeyOf(xs[i], c) <= KeyOf(xs[k], c)
    ensures forall i :: 0 <= i < k ==> KeyOf(xs[i], c) < KeyOf(xs[k], c)
  {
    if |xs| == 1 then 0
    else
      var k := FirstMax(xs[..|xs| - 1], c);
      if KeyOf(xs[|xs| - 1], c) > KeyOf(xs[k], c) then |xs| - 1 else k
  }

  predicate MeetsFloor(r: ThresholdResult, minPrecision: real) {
    r.precision >= minPrecision
  }

  function ValidResults(results: seq<ThresholdResult>, minPrecision: real): (v: seq<ThresholdResult>)
    ensures forall r :: r in v <==> r in results && MeetsFloor(r, minPrecision)
  {
    if results == [] then []
    else (if MeetsFloor(results[0], minPrecision) then [results[0]] else []) + ValidResults(results[1..], minPrecision)
  }

  /** Where `ValidResults` keeps entry i of `results`, earlier entries keep their order. */
  lemma {:induction false} ValidPrefix(results: seq<ThresholdResult>, minPrecision: real, j: nat)
    requires j <= |results|
    ensures ValidResults(results, minPrecision) ==
              ValidResults(results[..j], minPrecision) + ValidResults(results[j..], minPrecision)
  {
    if j > 0 {
      ValidPrefix(results[1..], minPrecision, j - 1);
      assert results[1..][..j - 1] == results[..j][1..];
      assert results[1..][j - 1..] == results[j..];
    } else {
      assert results[..j] == [];
      assert results[j..] == results;
    }
  }

  /** `find_optimal_threshold`. */
  function FindOptimalThreshold(results: seq<ThresholdResult>, minPrecision: real): (best: ThresholdResult)
    requires results != []
    ensures best in results
    ensures (exists r :: r in results && MeetsFloor(r, minPrecision)) ==>
              MeetsFloor(best, minPrecision) &&
              forall r :: r in results && MeetsFloor(r, minPrecision) ==> r.recall <= best.recall
    ensures (forall r :: r in results ==> !MeetsFloor(r, minPrecision)) ==>
              forall r :: r in results ==> r.f1 <= best.f1
  {
    var valid := ValidResults(results, minPrecision);
    if valid == [] then results[FirstMax(results, ByF1)]
    else
      var k := FirstMax(valid, ByRecall);
      assert valid[k] in valid;
      valid[k]
  }

  /** Ties go to the earliest entry: every entry before the chosen one is worse (or, with a valid choice, below the floor). */
  lemma OptimalIsEarliest(results: seq<ThresholdResult>, minPrecision: real)
    requires results != []
    ensures exists k :: 0 <= k < |results| && results[k] == FindOptimalThreshold(results, minPrecision) &&
              forall i :: 0 <= i < k ==>
                if ValidResults(results, minPrecision) == [] then results[i].f1 < results[k].f1
                else !MeetsFloor(results[i], minPrecision) || results[i].recall < results[k].recall
  {
    var valid := ValidResults(results, minPrecision);
    if valid == [] {
      var k := FirstMax(results, ByF1);
      assert results[k] == FindOptimalThreshold(results, minPrecision);
    } else {
      var m := FirstMax(valid, ByRecall);
      var best := valid[m];
      // the entry of `results` that became valid[m]
      var k := SourceIndex(results, minPrecision, m);
      assert results[k] == best;
      forall i | 0 <= i < k && MeetsFloor(results[i], minPrecision)
        ensures results[i].recall < best.recall
      {
        ValidEntryAt(results, minPrecision, i);
        ValidEntryAt(results[..k], minPrecision, i);
        assert results[..k][..i] == results[..i];
      }
    }
  }

  /** A valid entry sits in the valid list right after the valid entries before it. */
  lemma ValidEntryAt(results: seq<ThresholdResult>, minPrecision: real, i: nat)
    requires i < |results| && MeetsFloor(results[i], minPrecision)
    ensures |ValidResults(results[..i], minPrecision)| < |ValidResults(results, minPrecision)|
    ensures ValidResults(results, minPrecision)[|ValidResults(results[..i], minPrecision)|] == results[i]
  {
    ValidPrefix(results, minPrecision, i);
    var rest := results[i..];
    assert rest[0] == results[i];
    assert ValidResults(rest, minPrecision) == [results[i]] + ValidResults(rest[1..], minPrecision);
  }

  /** Entry `m` of the valid list comes from the entry `k` of `results` with exactly `m` valid entries before it. */
  lemma {:induction false} SourceIndexExists(results: seq<ThresholdResult>, minPrecision: real, m: nat)
    requires m < |ValidResults(results, minPrecision)|
    ensures exists k :: 0 <= k < |results| && results[k] == ValidResults(results, minPrecision)[m] &&
              |ValidResults(results[..k], minPrecision)| == m
  {
    if MeetsFloor(results[0], minPrecision) && m == 0 {
      assert results[..0] == [];
    } else {
      var m' := if MeetsFloor(results[0], minPrecision) then m - 1 else m;
      SourceIndexExists(results[1..], minPrecision, m');
      var k' :| 0 <= k' < |results[1..]| && results[1..][k'] == ValidResults(results[1..], minPrecision)[m'] &&
                |ValidResults(results[1..][..k'], minPrecision)| == m';
      assert results[..k' + 1][1..] == results[1..][..k'];
      assert results[k' + 1] == ValidResults(results, minPrecision)[m];
    }
  }

  ghost function SourceIndex(results: seq<ThresholdResult>, minPrecision: real, m: nat): (k: nat)
    requires m < |ValidResults(results, minPrecision)|
    ensures k < |results| && results[k] == ValidResults(results, minPrecision)[m]
    ensures |ValidResults(results[..k], minPrecision)| == m
  {
    SourceIndexExists(results, minPrecision, m);
    var k :| 0 <= k < |results| && results[k] == ValidResults(results, minPrecision)[m] &&
             |ValidResults(results[..k], minPrecision)| == m;
    k
  }

  /** The final recommendation in `main`. */
  predicate Recommend(best: ThresholdResult) {
    best.precision >= MIN_PRECISION && best.recall > BASELINE_RECALL
  }

  /**
   * The candidate is recommended exactly when some tested threshold meets
   * the 0.95 precision floor with a recall above the baseline's.
   */
  lemma RecommendationIff(results: seq<ThresholdResult>)
    requires results != []
    ensures Recommend(FindOptimalThreshold(results, MIN_PRECISION)) <==>
              exists r :: r in results && r.precision >= MIN_PRECISION && r.recall > BASELINE_RECALL
  {
    var best := FindOptimalThreshold(results, MIN_PRECISION);
    if exists r :: r in results && r.precision >= MIN_PRECISION && r.recall > BASELINE_RECALL {
      var r :| r in results && r.precision >= MIN_PRECISION && r.recall > BASELINE_RECALL;
      assert MeetsFloor(r, MIN_PRECISION);
    }
  }
}
