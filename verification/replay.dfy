/**
 * The transaction replay service: holdout sampling, the client-side 80/20
 * A/B routing, model-specific thresholds, the batch loop that numbers
 * every transaction by its row index, and the analysis of the collected
 * results. HTTP replies are inputs, as is the routing bucket
 * (`hash(str(id)) % 100`, which varies between Python processes).
 */
module Replay {
  import opened Wrappers
  import opened Metrics
  import opened Inference

  const BASELINE_WEIGHT: real := 0.8
  const CANDIDATE_THRESHOLD: real := 0.9
  const BASELINE_THRESHOLD: real := 0.5

  // ---------------------------------------------------------------- sampling

  datatype LoadError = NegativeSampleSize | NotEnoughNormalRows

  /** How many fraud and normal holdout rows are replayed. */
  datatype Counts = Counts(fraud: nat, normal: nat)

  /**
   * `load_test_transactions`: when a truthy `sample_size` is below the
   * holdout size, a tenth of it (capped by the fraud rows available) is
   * fraud and the rest normal; `.sample` rejects a negative count or more
   * rows than exist. Otherwise the whole holdout is replayed; an empty one
   * only prints a `nan` fraud rate (numpy's 0/0), so it is returned as is.
   */
  function SampleCounts(sampleSize: Option<int>, fraudRows: nat, normalRows: nat): (r: Result<Counts, LoadError>)
    ensures var n := fraudRows + normalRows;
            sampleSize.Some? && sampleSize.value != 0 && sampleSize.value < n ==>
              (r.Err? <==> sampleSize.value < 0 || sampleSize.value - Min(sampleSize.value / 10, fraudRows) > normalRows)
    ensures r.Ok? && sampleSize.Some? && 0 < sampleSize.value < fraudRows + normalRows ==>
              r.value.fraud == Min(sampleSize.value / 10, fraudRows)
              && r.value.fraud + r.value.normal == sampleSize.value
    ensures (sampleSize.None? || sampleSize.value == 0 || sampleSize.value >= fraudRows + normalRows) ==>
              r == Ok(Counts(fraudRows, normalRows))
  {
    var n := fraudRows + normalRows;
    if sampleSize.Some? && sampleSize.value != 0 && sampleSize.value < n then
      var ss := sampleSize.value;
      var fraud := Min(ss / 10, fraudRows);
      if fraud < 0 then Err(NegativeSampleSize)
      else if ss - fraud < 0 || ss - fraud > normalRows then
        (if ss - fraud < 0 then Err(NegativeSampleSize) else Err(NotEnoughNormalRows))
      else Ok(Counts(fraud, ss - fraud))
    else Ok(Counts(fraudRows, normalRows))
  }

  function Min(a: int, b: int): int { if a < b then a else b }

  /** The script's own call: 200 rows, 20 of them fraud, from a holdout with enough of both. */
  lemma DemoSample(fraudRows: nat, normalRows: nat)
    requires fraudRows >= 20 && normalRows >= 180 && fraudRows + normalRows > 200
    ensures SampleCounts(Some(200), fraudRows, normalRows) == Ok(Counts(20, 180))
  {
  }

  // ---------------------------------------------------------------- routing and one transaction

  /** Buckets below `baseline_weight * 100` go to the baseline. */
  function Route(bucket: nat): (variant: string)
    ensures variant == BASELINE <==> (bucket as real) < BASELINE_WEIGHT * 100.0
    ensures variant == BASELINE || variant == CANDIDATE
    ensures variant == BASELINE <==> bucket < 80
  {
    if (bucket as real) < BASELINE_WEIGHT * 100.0 then BASELINE else CANDIDATE
  }

  /** Number of buckets in [0, n) routed to the baseline. */
  function BaselineBuckets(n: nat): nat {
    if n == 0 then 0 else BaselineBuckets(n - 1) + (if Route(n - 1) == BASELINE then 1 else 0)
  }

  /** Of the 100 buckets exactly 80 go to the baseline: the intended 80/20 split. */
  lemma {:induction false} EightyTwentySplit(n: nat)
    ensures BaselineBuckets(n) == Min(n, 80)
  {
    if n > 0 {
      EightyTwentySplit(n - 1);
    }
  }

  /** Model-specific thresholds: the candidate is tuned for precision. */
  function PredictFraud(variant: string, p: real): (fraud: bool)
    ensures variant == CANDIDATE ==> (fraud <==> p > CANDIDATE_THRESHOLD)
    ensures variant != CANDIDATE ==> (fraud <==> p > BASELINE_THRESHOLD)
  {
    if variant == CANDIDATE then p > CANDIDATE_THRESHOLD else p > BASELINE_THRESHOLD
  }

  /** A holdout row: its feature values by column name and its label. */
  datatype ReplayRow = ReplayRow(values: map<string, real>, fraud: bool)

  datatype ReplayResult =
    | Success(id: nat, modelUsed: string, variant: string, probability: real,
              prediction: bool, actual: bool, amount: real, correct: bool)
    | Failure(id: nat)

  /** The inference payload: the scaled row as one inner list under `input_0`, shape [1, 30]. */
  function ReplayPayload(scaled: seq<real>): (req: Request)
    ensures req.contentType == "np" && |req.inputs| == 1
    ensures req.inputs[0].name == "input_0" && req.inputs[0].shape == [1, 30]
    ensures req.inputs[0].data == Rows([scaled])
  {
    Request("np", [Tensor("input_0", [1, 30], "FP32", Rows([scaled]))])
  }

  /**
   * `send_transaction`: preprocessing, routing and the reply. Anything that
   * raises (a missing column, a failed request, a reply without outputs)
   * and any non-200 status becomes an error record for the same id.
   */
  function SendTransaction(columns: seq<string>, scaler: Scaler, row: ReplayRow, id: nat,
                           bucket: nat, reply: Reply): (r: ReplayResult)
    requires Fits(scaler, |columns|)
    ensures r.id == id
    ensures r.Success? <==> Preprocess(columns, scaler, row.values).Ok? && reply.Http? && reply.status == 200
                            && FirstOutput(reply.body).Some? && "Amount" in row.values
    ensures r.Success? ==> r.variant == Route(bucket) && r.probability == FirstOutput(reply.body).value
    ensures r.Success? ==> r.prediction == PredictFraud(r.variant, r.probability)
    ensures r.Success? ==> r.actual == row.fraud && (r.correct <==> r.prediction == r.actual)
    ensures r.Success? ==> r.modelUsed == (if reply.body.modelName.Some? then reply.body.modelName.value else r.variant)
  {
    match Preprocess(columns, scaler, row.values)
    case Err(_) => Failure(id)
    case Ok(_) =>
      var variant := Route(bucket);
      if !(reply.Http? && reply.status == 200) then Failure(id)
      else match FirstOutput(reply.body)
        case None => Failure(id)
        case Some(p) =>
          if "Amount" !in row.values then Failure(id)
          else
            var used := if reply.body.modelName.Some? then reply.body.modelName.value else variant;
            var prediction := PredictFraud(variant, p);
            Success(id, used, variant, p, prediction, row.fraud, row.values["Amount"], prediction == row.fraud)
  }

  // ---------------------------------------------------------------- batches

  /** The batch starting at `start`: rows [start, min(start + size, n)). */
  function BatchEnd(start: nat, size: nat, n: nat): (e: nat)
    ensures e <= n && (start < n && size > 0 ==> start < e)
  {
    if start + size < n then start + size else n
  }

  /** The results of sending the first `n` rows, in order. */
  function Sent(columns: seq<string>, scaler: Scaler, rows: seq<ReplayRow>, buckets: seq<nat>,
                replies: seq<Reply>, n: nat): (r: seq<ReplayResult>)
    requires Fits(scaler, |columns|) && |buckets| == |rows| && |replies| == |rows| && n <= |rows|
    ensures |r| == n
    ensures forall k :: 0 <= k < n ==> r[k] == SendTransaction(columns, scaler, rows[k], k, buckets[k], replies[k])
  {
    seq(n, k requires 0 <= k < n => SendTransaction(columns, scaler, rows[k], k, buckets[k], replies[k]))
  }

  /** One batch: rows `start` to `end - 1` sent one after the other. */
  method SendBatch(columns: seq<string>, scaler: Scaler, rows: seq<ReplayRow>, buckets: seq<nat>,
                   replies: seq<Reply>, start: nat, end: nat, sent: seq<ReplayResult>)
    returns (all: seq<ReplayResult>)
    requires Fits(scaler, |columns|) && |buckets| == |rows| && |replies| == |rows| && start <= end <= |rows|
    requires sent == Sent(columns, scaler, rows, buckets, replies, start)
    ensures all == Sent(columns, scaler, rows, buckets, replies, end)
  {
    all := sent;
    var i := start;
    while i < end
      invariant start <= i <= end
      invariant all == Sent(columns, scaler, rows, buckets, replies, i)
    {
      all := all + [SendTransaction(columns, scaler, rows[i], i, buckets[i], replies[i])];
      i := i + 1;
    }
  }

  /**
   * `replay_transactions_batch`: batches of `batchSize` rows, each row sent
   * with its global index as id. `range` refuses a zero step; a negative
   * step yields no batch at all. (Within a batch the results arrive in
   * completion order; here they are kept in row order.)
   */
  method ReplayBatches(columns: seq<string>, scaler: Scaler, rows: seq<ReplayRow>, buckets: seq<nat>,
                       replies: seq<Reply>, batchSize: int)
    returns (r: Result<seq<ReplayResult>, string>, batches: seq<(nat, nat)>)
    requires Fits(scaler, |columns|) && |buckets| == |rows| && |replies| == |rows|
    ensures batchSize == 0 <==> r.Err?
    ensures batchSize < 0 ==> r == Ok([]) && batches == []
    ensures batchSize > 0 ==> r.Ok? && |r.value| == |rows|
    ensures batchSize > 0 ==> forall k :: 0 <= k < |rows| ==>
              r.value[k] == SendTransaction(columns, scaler, rows[k], k, buckets[k], replies[k])
    ensures batchSize > 0 ==> |batches| == (|rows| + batchSize - 1) / batchSize
    ensures batchSize > 0 ==> forall j :: 0 <= j < |batches| ==>
              batches[j] == (j * batchSize, BatchEnd(j * batchSize, batchSize, |rows|))
  {
    batches := [];
    if batchSize == 0 {
      return Err("range() arg 3 must not be zero"), batches;
    }
    if batchSize < 0 {
      return Ok([]), batches;
    }
    var all: seq<ReplayResult> := [];
    var start := 0;
    while start < |rows|
      invariant 0 <= start && |batches| * batchSize == start
      invariant start < |rows| + batchSize
      invariant all == Sent(columns, scaler, rows, buckets, replies, if start < |rows| then start else |rows|)
      invariant forall j :: 0 <= j < |batches| ==>
                  batches[j] == (j * batchSize, BatchEnd(j * batchSize, batchSize, |rows|))
      decreases |rows| - start
    {
      var end := BatchEnd(start, batchSize, |rows|);
      all := SendBatch(columns, scaler, rows, buckets, replies, start, end, all);
      batches := batches + [(start, end)];
      start := start + batchSize;
    }
    BatchCount(|rows|, batchSize, |batches|);
    r := Ok(all);
  }

  /** The loop runs ceil(n / size) times. */
  lemma BatchCount(n: nat, size: int, count: nat)
    requires size > 0 && count * size >= n && (count == 0 || (count - 1) * size < n)
    ensures count == (n + size - 1) / size
  {
    var x := n + size - 1;
    if count > 0 {
      assert (count - 1) * size == count * size - size;
    }
    assert count * size <= x < count * size + size;
    DivisionOfBounded(x, size, count);
  }

  lemma DivisionOfBounded(x: int, size: int, q: int)
    requires size > 0 && q * size <= x < q * size + size
    ensures x / size == q
  {
    var d, m := x / size, x % size;
    assert x == d * size + m && 0 <= m < size;
    assert (q + 1) * size == q * size + size && (d + 1) * size == d * size + size;
    ScaledLess(d, q + 1, size);
    ScaledLess(q, d + 1, size);
  }

  lemma ScaledLess(a: int, b: int, size: int)
    requires size > 0 && a * size < b * size
    ensures a < b
  {
    assert (b - a) * size == b * size - a * size;
  }

  // ---------------------------------------------------------------- analysis

  function Successes(results: seq<ReplayResult>): (s: seq<ReplayResult>)
    ensures |s| <= |results|
    ensures forall k :: 0 <= k < |s| ==> s[k].Success? && s[k] in results
    ensures s == [] <==> forall k :: 0 <= k < |results| ==> results[k].Failure?
  {
    if results == [] then []
    else (if results[0].Success? then [results[0]] else []) + Successes(results[1..])
  }

  /** The filter keeps every copy of every successful result and nothing else. */
  lemma {:induction false} SuccessesCount(results: seq<ReplayResult>, x: ReplayResult)
    ensures multiset(Successes(results))[x] == if x.Success? then multiset(results)[x] else 0
  {
    if results != [] {
      SuccessesCount(results[1..], x);
      assert results == [results[0]] + results[1..];
    }
  }

  /** `r.get("actual", False)` / `r.get("prediction", False)` over successful results. */
  function Actuals(s: seq<ReplayResult>): (ys: seq<bool>)
    ensures |ys| == |s|
    ensures forall k :: 0 <= k < |s| && s[k].Success? ==> ys[k] == s[k].actual
  {
    seq(|s|, k requires 0 <= k < |s| => s[k].Success? && s[k].actual)
  }

  function Predictions(s: seq<ReplayResult>): (ys: seq<bool>)
    ensures |ys| == |s|
    ensures forall k :: 0 <= k < |s| && s[k].Success? ==> ys[k] == s[k].prediction
  {
    seq(|s|, k requires 0 <= k < |s| => s[k].Success? && s[k].prediction)
  }

  function CountCorrect(s: seq<ReplayResult>): (n: nat)
    ensures n <= |s|
  {
    if s == [] then 0 else (if s[0].Success? && s[0].correct then 1 else 0) + CountCorrect(s[1..])
  }

  /** Successful results whose `correct` flag is the agreement of prediction and label, as sent. */
  predicate Scored(s: seq<ReplayResult>) {
    forall k :: 0 <= k < |s| ==> s[k].Success? && (s[k].correct <==> s[k].prediction == s[k].actual)
  }

  /** On scored results the correct count is the diagonal of the overall confusion matrix. */
  lemma {:induction false} CorrectIsDiagonal(s: seq<ReplayResult>)
    requires Scored(s)
    ensures CountCorrect(s) == CountAgree(Actuals(s), Predictions(s))
    ensures CountCorrect(s) == Tally(Actuals(s), Predictions(s)).tp + Tally(Actuals(s), Predictions(s)).tn
  {
    if s != [] {
      assert Scored(s[1..]) by {
        forall k | 0 <= k < |s[1..]| ensures s[1..][k].Success? && (s[1..][k].correct <==> s[1..][k].prediction == s[1..][k].actual) {
          assert s[1..][k] == s[k + 1];
        }
      }
      CorrectIsDiagonal(s[1..]);
      var ys, ps := Actuals(s), Predictions(s);
      assert ys[1..] == Actuals(s[1..]) && ps[1..] == Predictions(s[1..]);
      assert ys[0] == s[0].actual && ps[0] == s[0].prediction;
      assert CountAgree(ys, ps) == (if ys[0] == ps[0] then 1 else 0) + CountAgree(ys[1..], ps[1..]);
    }
    AgreeIsDiagonal(Actuals(s), Predictions(s));
  }

  function CountVariant(s: seq<ReplayResult>, variant: string): (n: nat)
    ensures n <= |s|
  {
    if s == [] then 0 else (if s[0].Success? && s[0].variant == variant then 1 else 0) + CountVariant(s[1..], variant)
  }

  function OnlyVariant(s: seq<ReplayResult>, variant: string): (t: seq<ReplayResult>)
    ensures |t| == CountVariant(s, variant)
    ensures forall k :: 0 <= k < |t| ==> t[k].Success? && t[k].variant == variant
  {
    if s == [] then []
    else (if s[0].Success? && s[0].variant == variant then [s[0]] else []) + OnlyVariant(s[1..], variant)
  }

  /** The variant's list keeps every copy of every successful result of that variant and nothing else. */
  lemma {:induction false} OnlyVariantCount(s: seq<ReplayResult>, v: string, x: ReplayResult)
    ensures multiset(OnlyVariant(s, v))[x] == if x.Success? && x.variant == v then multiset(s)[x] else 0
  {
    if s != [] {
      OnlyVariantCount(s[1..], v, x);
      assert s == [s[0]] + s[1..];
    }
  }

  /** A variant's share of the results: count, accuracy and mean fraud probability. */
  datatype VariantPerformance = VariantPerformance(transactions: nat, accuracyPercent: real, avgFraudProbability: real)

  function SumProbability(s: seq<ReplayResult>): real {
    if s == [] then 0.0 else (if s[0].Success? then s[0].probability else 0.0) + SumProbability(s[1..])
  }

  predicate ProbabilitiesInRange(s: seq<ReplayResult>) {
    forall k :: 0 <= k < |s| && s[k].Success? ==> 0.0 <= s[k].probability <= 1.0
  }

  lemma {:induction false} SumProbabilityBounded(s: seq<ReplayResult>)
    ensures ProbabilitiesInRange(s) ==> 0.0 <= SumProbability(s) <= |s| as real
  {
    if s != [] {
      SumProbabilityBounded(s[1..]);
      assert ProbabilitiesInRange(s) ==> ProbabilitiesInRange(s[1..]) by {
        if ProbabilitiesInRange(s) {
          forall k | 0 <= k < |s[1..]| && s[1..][k].Success? ensures 0.0 <= s[1..][k].probability <= 1.0 {
            assert s[1..][k] == s[k + 1];
          }
        }
      }
    }
  }

  /** `np.mean` of the fraud probabilities of a non-empty list: a probability when each one is. */
  function MeanProbability(s: seq<ReplayResult>): (m: real)
    requires s != []
    ensures ProbabilitiesInRange(s) ==> 0.0 <= m <= 1.0
    ensures m * |s| as real == SumProbability(s)
  {
    SumProbabilityBounded(s);
    MeanOfBounded(SumProbability(s), |s| as real);
    SumProbability(s) / |s| as real
  }

  lemma MeanOfBounded(sum: real, n: real)
    requires n > 0.0
    ensures 0.0 <= sum <= n ==> 0.0 <= sum / n <= 1.0
  {
  }

  /** Performance of the variant `v` over the successful results `s`. */
  function Performance(s: seq<ReplayResult>, v: string): (p: VariantPerformance)
    requires CountVariant(s, v) > 0
    ensures p.transactions == CountVariant(s, v) && 0.0 <= p.accuracyPercent <= 100.0
    ensures p.accuracyPercent == AccuracyPercent(OnlyVariant(s, v))
    ensures p.avgFraudProbability == MeanProbability(OnlyVariant(s, v))
    ensures ProbabilitiesInRange(s) ==> 0.0 <= p.avgFraudProbability <= 1.0
  {
    var t := OnlyVariant(s, v);
    OnlyVariantInRange(s, v);
    var a, m := AccuracyPercent(t), MeanProbability(t);
    assert |t| == CountVariant(s, v);
    VariantPerformance(|t|, a, m)
  }

  lemma {:induction false} OnlyVariantInRange(s: seq<ReplayResult>, v: string)
    ensures ProbabilitiesInRange(s) ==> ProbabilitiesInRange(OnlyVariant(s, v))
  {
    if s != [] {
      OnlyVariantInRange(s[1..], v);
    }
  }

  datatype Analysis = Analysis(total: nat, accuracyPercent: real, precision: real, recall: real,
                               specificity: real, f1: real, usage: map<string, nat>,
                               performance: map<string, VariantPerformance>)

  /** Percentage of correct results, for a non-empty list. */
  function AccuracyPercent(s: seq<ReplayResult>): (a: real)
    requires s != []
    ensures 0.0 <= a <= 100.0
    ensures a * |s| as real == 100.0 * CountCorrect(s) as real
  {
    var q := Ratio(CountCorrect(s), |s|);
    assert q * 100.0 * |s| as real == (q * |s| as real) * 100.0;
    q * 100.0
  }

  /**
   * `analyze_results`: `{}` (here None) with no successful result; an
   * error where the overall confusion matrix does not unpack into four
   * counts; otherwise the overall metrics and the per-variant usage,
   * accuracy and mean fraud probability.
   */
  method AnalyzeResults(results: seq<ReplayResult>) returns (r: Result<Option<Analysis>, string>)
    ensures Successes(results) == [] ==> r == Ok(None)
    ensures Successes(results) != [] ==>
              (r.Err? <==> !BothClassesOccur(Actuals(Successes(results)), Predictions(Successes(results))))
    ensures r.Ok? && r.value.Some? ==>
              var s, a := Successes(results), r.value.value;
              var c := Tally(Actuals(s), Predictions(s));
              s != [] && a.total == |s| && a.accuracyPercent == AccuracyPercent(s)
              && a.precision == Precision(c) && a.recall == Recall(c) && a.specificity == Specificity(c)
              && a.f1 == F1(c)
              && (forall v :: v in a.usage <==> CountVariant(s, v) > 0)
              && (forall v :: v in a.usage ==> a.usage[v] == CountVariant(s, v))
              && a.performance.Keys == a.usage.Keys
              && (forall v :: v in a.performance ==>
                    CountVariant(s, v) > 0 && a.performance[v] == Performance(s, v))
  {
    var s := Successes(results);
    if s == [] {
      return Ok(None);
    }
    var usage := CountUsage(s);
    var performance: map<string, VariantPerformance> :=
      map v | v in usage :: Performance(s, v);
    var actual, predicted := Actuals(s), Predictions(s);
    if !BothClassesOccur(actual, predicted) {
      return Err("not enough values to unpack (expected 4, got 1)");
    }
    var c := Tally(actual, predicted);
    var p, rec := Precision(c), Recall(c);
    HarmonicMeanIsF1(c);
    r := Ok(Some(Analysis(|s|, AccuracyPercent(s), p, rec, Specificity(c), HarmonicMean(p, rec),
                          usage, performance)));
  }

  /** The `model_usage` tally: how many successful results each variant served. */
  method CountUsage(s: seq<ReplayResult>) returns (usage: map<string, nat>)
    requires forall k :: 0 <= k < |s| ==> s[k].Success?
    ensures forall v :: v in usage <==> CountVariant(s, v) > 0
    ensures forall v :: v in usage ==> usage[v] == CountVariant(s, v)
  {
    usage := map[];
    var i := 0;
    while i < |s|
      invariant 0 <= i <= |s|
      invariant forall v :: v in usage <==> CountVariant(s[..i], v) > 0
      invariant forall v :: v in usage ==> usage[v] == CountVariant(s[..i], v)
    {
      var v := s[i].variant;
      CountVariantSnoc(s[..i + 1], v);
      assert s[..i + 1][..i] == s[..i];
      forall w | w != v ensures CountVariant(s[..i + 1], w) == CountVariant(s[..i], w) {
        CountVariantSnoc(s[..i + 1], w);
      }
      usage := usage[v := if v in usage then usage[v] + 1 else 1];
      i := i + 1;
    }
    assert s[..i] == s;
  }

  /** Counting a variant over one more result. */
  lemma CountVariantSnoc(s: seq<ReplayResult>, v: string)
    requires s != []
    ensures CountVariant(s, v) == CountVariant(s[..|s| - 1], v)
                                  + (if s[|s| - 1].Success? && s[|s| - 1].variant == v then 1 else 0)
  {
    if |s| > 1 {
      CountVariantSnoc(s[1..], v);
      assert s[1..][..|s| - 2] == s[..|s| - 1][1..];
    }
  }

  /**
   * Every successful result was routed to one of the two variants, so
   * their usage counts add up to the number of successes.
   */
  lemma {:induction false} UsageAddsUp(s: seq<ReplayResult>)
    requires forall k :: 0 <= k < |s| ==> s[k].Success? && (s[k].variant == BASELINE || s[k].variant == CANDIDATE)
    ensures CountVariant(s, BASELINE) + CountVariant(s, CANDIDATE) == |s|
  {
    if s != [] {
      UsageAddsUp(s[1..]);
    }
  }

  /** The results of a replay meet `UsageAddsUp`'s requirement. */
  lemma ReplayedVariants(columns: seq<string>, scaler: Scaler, rows: seq<ReplayRow>, buckets: seq<nat>,
                         replies: seq<Reply>, results: seq<ReplayResult>)
    requires Fits(scaler, |columns|) && |buckets| == |rows| && |replies| == |rows| && |results| == |rows|
    requires forall k :: 0 <= k < |rows| ==>
               results[k] == SendTransaction(columns, scaler, rows[k], k, buckets[k], replies[k])
    ensures CountVariant(Successes(results), BASELINE) + CountVariant(Successes(results), CANDIDATE)
            == |Successes(results)|
  {
    var s := Successes(results);
    forall k | 0 <= k < |s| ensures s[k].variant == BASELINE || s[k].variant == CANDIDATE {
      var j :| 0 <= j < |results| && results[j] == s[k];
    }
    UsageAddsUp(s);
  }
}
