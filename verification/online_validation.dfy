/**
 * Online validation of the two deployed fraud models: a bounded buffer of
 * scored test transactions, delayed ground-truth feedback, windowed
 * precision/recall/F1, a mean-shift drift score, threshold alerts and the
 * baseline-versus-candidate comparison of one validation cycle.
 *
 * Instants (`datetime.now()` and record timestamps) are integers counting
 * microseconds, the resolution of Python's `datetime`.
 */
module OnlineValidation {
  import opened Wrappers
  import opened Metrics
  import opened Inference
  import Text

  const BUFFER_CAPACITY: nat := 10000
  const HISTORY_CAPACITY: nat := 100
  const MICROS_PER_MINUTE: int := 60000000
  const FEEDBACK_DELAY_MINUTES: int := 15
  const MIN_SAMPLE_SIZE: nat := 10
  const DECISION_THRESHOLD: real := 0.5

  const MIN_PRECISION: real := 0.85
  const MIN_RECALL: real := 0.75
  const MIN_F1: real := 0.80
  const MIN_AUC: real := 0.85
  const MAX_DRIFT: real := 0.15

  // ---------------------------------------------------------------- records

  /** A test transaction as the caller hands it over: feature values and, optionally, its true class. */
  datatype TransactionData = TransactionData(values: map<string, real>, actualFraud: Option<bool>)

  /** `TransactionResult`: one scored transaction in the buffer. */
  datatype TransactionRecord = TransactionRecord(
    id: string,
    timestamp: int,
    modelName: string,
    probability: real,
    predictedFraud: bool,
    actualFraud: Option<bool>,
    feedbackReceived: bool,
    features: seq<real>)

  /** A drift score, or the `nan` that `np.mean([])` yields. */
  datatype Score = Value(v: real) | NotANumber

  /** `ValidationResult`; the confusion matrix is kept as its four counts. */
  datatype ValidationResult = ValidationResult(
    timestamp: int,
    modelName: string,
    precision: real,
    recall: real,
    f1: real,
    auc: real,
    confusion: Confusion,
    sampleSize: nat,
    drift: Score)

  /** Per-column mean and (sample) standard deviation of the training split. */
  datatype FeatureStats = FeatureStats(mean: seq<real>, std: seq<real>)

  predicate StatsFit(stats: Option<FeatureStats>, n: nat) {
    stats.Some? ==> |stats.value.mean| == n && |stats.value.std| == n
  }

  // ---------------------------------------------------------------- bounded deques

  /** The last `n` elements of `s` (all of them when there are fewer). */
  function Newest<T>(s: seq<T>, n: nat): (r: seq<T>)
    ensures |r| == if |s| <= n then |s| else n

  {
    if |s| <= n then s else s[|s| - n..]
  }

  /** `deque(maxlen=cap).append(x)`: at capacity, the oldest element is evicted first. */
  function Push<T>(q: seq<T>, x: T, cap: nat): (r: seq<T>)
    requires |q| <= cap
    ensures r == Newest(q + [x], cap)
  {
    if cap == 0 then []
    else if |q| < cap then q + [x]
    else q[1..] + [x]
  }

  /** Appending `xs` one by one, oldest first. */
  function PushAll<T>(q: seq<T>, xs: seq<T>, cap: nat): (r: seq<T>)
    requires |q| <= cap
    ensures |r| <= cap
  {
    if xs == [] then q else Push(PushAll(q, xs[..|xs| - 1], cap), xs[|xs| - 1], cap)
  }

  lemma NewestOfNewest<T>(s: seq<T>, t: seq<T>, n: nat)
    ensures Newest(Newest(s, n) + t, n) == Newest(s + t, n)
  {
    var a := Newest(s, n);
    var r1, r2 := Newest(a + t, n), Newest(s + t, n);
    assert |r1| == |r2|;
    forall k | 0 <= k < |r1| ensures r1[k] == r2[k] {
      var off1, off2 := |a + t| - |r1|, |s + t| - |r2|;
      assert r1[k] == (a + t)[off1 + k] && r2[k] == (s + t)[off2 + k];
      if off1 + k >= |a| {
        assert (a + t)[off1 + k] == t[off1 + k - |a|];
        assert (s + t)[off2 + k] == t[off2 + k - |s|];
      } else {
        assert (a + t)[off1 + k] == a[off1 + k] == s[|s| - |a| + off1 + k];
      }
    }
  }

  /** Appending records one by one keeps exactly the `cap` most recent, in append order. */
  lemma {:induction false} PushAllKeepsNewest<T>(q: seq<T>, xs: seq<T>, cap: nat)
    requires |q| <= cap
    ensures PushAll(q, xs, cap) == Newest(q + xs, cap)
  {
    if xs == [] {
      assert q + xs == q;
      assert Newest(q, cap) == q;
    } else {
      var init, x := xs[..|xs| - 1], xs[|xs| - 1];
      var p := PushAll(q, init, cap);
      PushAllKeepsNewest(q, init, cap);
      assert p == Newest(q + init, cap);
      assert PushAll(q, xs, cap) == Push(p, x, cap) == Newest(p + [x], cap);
      NewestOfNewest(q + init, [x], cap);
      assert q + init + [x] == q + xs;
    }
  }

  // ---------------------------------------------------------------- scoring one transaction

  /** The training feature columns: every column whose name starts with 'V', plus Time and Amount. */
  predicate IsFeatureColumn(c: string) {
    Text.StartsWith(c, "V") || c == "Time" || c == "Amount"
  }

  function SelectFeatureColumns(cols: seq<string>): (r: seq<string>)
    ensures forall c :: c in r <==> c in cols && IsFeatureColumn(c)
    ensures |r| <= |cols|
  {
    if cols == [] then []
    else (if IsFeatureColumn(cols[0]) then [cols[0]] else []) + SelectFeatureColumns(cols[1..])
  }

  /**
   * The comprehension keeps the header's order: selecting from two pieces
   * of a header is selecting from each piece in turn.
   */
  lemma {:induction false} SelectFeatureColumnsAppend(a: seq<string>, b: seq<string>)
    ensures SelectFeatureColumns(a + b) == SelectFeatureColumns(a) + SelectFeatureColumns(b)
  {
    if a == [] {
      assert a + b == b;
    } else {
      SelectFeatureColumnsAppend(a[1..], b);
      var head := if IsFeatureColumn(a[0]) then [a[0]] else [];
      assert (a + b)[0] == a[0] && (a + b)[1..] == a[1..] + b;
      calc {
        SelectFeatureColumns(a + b);
        head + SelectFeatureColumns(a[1..] + b);
        head + (SelectFeatureColumns(a[1..]) + SelectFeatureColumns(b));
        (head + SelectFeatureColumns(a[1..])) + SelectFeatureColumns(b);
        SelectFeatureColumns(a) + SelectFeatureColumns(b);
      }
    }
  }

  /** One column is kept exactly when it is a feature column. */
  lemma SelectFeatureColumnsSingle(c: string)
    ensures SelectFeatureColumns([c]) == if IsFeatureColumn(c) then [c] else []
  {
    assert [c][1..] == [];
  }

  /** Every copy of every feature column is kept, and nothing else. */
  lemma {:induction false} SelectFeatureColumnsCount(cols: seq<string>, c: string)
    ensures multiset(SelectFeatureColumns(cols))[c] == if IsFeatureColumn(c) then multiset(cols)[c] else 0
  {
    if cols != [] {
      SelectFeatureColumnsCount(cols[1..], c);
      assert cols == [cols[0]] + cols[1..];
    }
  }

  /** `f"{model_name}_{int(time.time() * 1000)}"`. */
  function TransactionId(model: string, clockMillis: int): string {
    model + "_" + Text.IntToString(clockMillis)
  }

  /**
   * What `send_test_transaction` returns: a record only when preprocessing
   * succeeds and a 200 reply carries a probability; the class is 1 iff
   * the probability exceeds 0.5.
   */
  function ScoreTransaction(columns: seq<string>, scaler: Scaler, txn: TransactionData, model: string,
                            clockMillis: int, now: int, reply: Reply): (r: Option<TransactionRecord>)
    requires Fits(scaler, |columns|)
    ensures r.Some? <==> Preprocess(columns, scaler, txn.values).Ok? && Probability(reply).Some?
    ensures r.Some? ==> (r.value.predictedFraud <==> r.value.probability > DECISION_THRESHOLD)
    ensures r.Some? ==> r.value.probability == Probability(reply).value && r.value.modelName == model
    ensures r.Some? ==> r.value.actualFraud == txn.actualFraud && !r.value.feedbackReceived
    ensures r.Some? ==> r.value.timestamp == now && |r.value.features| == |columns|
    ensures r.Some? ==> r.value.features == Preprocess(columns, scaler, txn.values).value
    ensures r.Some? ==> r.value.id == TransactionId(model, clockMillis)
  {
    match Preprocess(columns, scaler, txn.values)
    case Err(_) => None
    case Ok(scaled) =>
      match Probability(reply)
      case None => None
      case Some(p) =>
        Some(TransactionRecord(TransactionId(model, clockMillis), now, model, p, p > DECISION_THRESHOLD,
                               txn.actualFraud, false, scaled))
  }

  // ---------------------------------------------------------------- delayed feedback

  /** A record whose label may be revealed now: not yet received, labelled, and older than 15 minutes. */
  predicate FeedbackDue(t: TransactionRecord, now: int) {
    !t.feedbackReceived && t.actualFraud.Some? && now - t.timestamp > FEEDBACK_DELAY_MINUTES * MICROS_PER_MINUTE
  }

  function Reveal(t: TransactionRecord, now: int): TransactionRecord {
    if FeedbackDue(t, now) then t.(feedbackReceived := true) else t
  }

  /** Number of records due for feedback. */
  function CountDue(s: seq<TransactionRecord>, now: int): (n: nat)
    ensures n <= |s|
  {
    if s == [] then 0 else CountDue(s[..|s| - 1], now) + (if FeedbackDue(s[|s| - 1], now) then 1 else 0)
  }

  function RevealAll(s: seq<TransactionRecord>, now: int): (r: seq<TransactionRecord>)
    ensures |r| == |s|
    ensures forall i :: 0 <= i < |s| ==> r[i] == Reveal(s[i], now)
  {
    seq(|s|, i requires 0 <= i < |s| => Reveal(s[i], now))
  }

  lemma {:induction false} NoneDueCountsZero(s: seq<TransactionRecord>, now: int)
    requires forall i :: 0 <= i < |s| ==> !FeedbackDue(s[i], now)
    ensures CountDue(s, now) == 0
  {
    if s != [] {
      NoneDueCountsZero(s[..|s| - 1], now);
    }
  }

  /**
   * Collecting feedback twice at the same instant: the second pass finds
   * nothing due and changes nothing.
   */
  lemma SecondCollectionIsEmpty(s: seq<TransactionRecord>, now: int)
    ensures CountDue(RevealAll(s, now), now) == 0
    ensures RevealAll(RevealAll(s, now), now) == RevealAll(s, now)
  {
    NoneDueCountsZero(RevealAll(s, now), now);
  }

  /** Revealing changes only the flag, only of due records, and never clears a flag. */
  lemma RevealChangesOnlyDueFlags(s: seq<TransactionRecord>, now: int, i: int)
    requires 0 <= i < |s|
    ensures RevealAll(s, now)[i].(feedbackReceived := s[i].feedbackReceived) == s[i]
    ensures RevealAll(s, now)[i].feedbackReceived <==> s[i].feedbackReceived || FeedbackDue(s[i], now)
    ensures RevealAll(s, now)[i] != s[i] <==> FeedbackDue(s[i], now)
  {
  }

  // ---------------------------------------------------------------- windowed evaluation

  /** A record that enters `validate_model_performance`'s window. */
  predicate InWindow(t: TransactionRecord, model: string, cutoff: int) {
    t.modelName == model && t.feedbackReceived && t.timestamp >= cutoff && t.actualFraud.Some?
  }

  function Window(s: seq<TransactionRecord>, model: string, cutoff: int): (w: seq<TransactionRecord>)
    ensures |w| <= |s|
    ensures forall t :: t in w <==> t in s && InWindow(t, model, cutoff)
  {
    if s == [] then []
    else (if InWindow(s[0], model, cutoff) then [s[0]] else []) + Window(s[1..], model, cutoff)
  }

  /** The window keeps every copy of every record in it and no other record, so its size is their number. */
  lemma {:induction false} WindowCount(s: seq<TransactionRecord>, model: string, cutoff: int, t: TransactionRecord)
    ensures multiset(Window(s, model, cutoff))[t] == if InWindow(t, model, cutoff) then multiset(s)[t] else 0
  {
    if s != [] {
      WindowCount(s[1..], model, cutoff, t);
      assert s == [s[0]] + s[1..];
    }
  }

  function Labels(w: seq<TransactionRecord>): (ys: seq<bool>)
    requires forall t :: t in w ==> t.actualFraud.Some?
    ensures |ys| == |w|
  {
    seq(|w|, i requires 0 <= i < |w| => w[i].actualFraud.value)
  }

  function Predictions(w: seq<TransactionRecord>): (ys: seq<bool>)
    ensures |ys| == |w|
  {
    seq(|w|, i requires 0 <= i < |w| => w[i].predictedFraud)
  }

  /** Features of the window's records whose feature list is non-empty. */
  function RecentFeatures(w: seq<TransactionRecord>): (rows: seq<seq<real>>)
    ensures |rows| <= |w|
    ensures forall r :: r in rows ==> r != [] && exists t :: t in w && t.features == r
  {
    if w == [] then []
    else (if w[0].features != [] then [w[0].features] else []) + RecentFeatures(w[1..])
  }

  /** The feature lists of a window, one per record, in order. */
  function AllFeatures(w: seq<TransactionRecord>): (rows: seq<seq<real>>)
    ensures |rows| == |w| && forall k :: 0 <= k < |w| ==> rows[k] == w[k].features
  {
    seq(|w|, k requires 0 <= k < |w| => w[k].features)
  }

  /** Every non-empty feature list of the window is kept, as often as it occurs, and nothing else. */
  lemma {:induction false} RecentFeaturesCount(w: seq<TransactionRecord>, row: seq<real>)
    ensures multiset(RecentFeatures(w))[row] == if row == [] then 0 else multiset(AllFeatures(w))[row]
  {
    if w != [] {
      RecentFeaturesCount(w[1..], row);
      assert AllFeatures(w) == [w[0].features] + AllFeatures(w[1..]);
    }
  }

  /** When every record has features (as every scored record does), the drift rows are all of them, in order. */
  lemma {:induction false} RecentFeaturesAll(w: seq<TransactionRecord>)
    requires forall t :: t in w ==> t.features != []
    ensures RecentFeatures(w) == AllFeatures(w)
  {
    if w != [] {
      RecentFeaturesAll(w[1..]);
      assert AllFeatures(w) == [w[0].features] + AllFeatures(w[1..]);
    }
  }

  /**
   * The metrics of one window. `rocAuc` is the value `roc_auc_score` would
   * give; it is used only when both classes occur among the labels.
   */
  function Assess(w: seq<TransactionRecord>, model: string, now: int, rocAuc: real,
                  stats: Option<FeatureStats>, ncols: nat): (r: Option<ValidationResult>)
    requires forall t :: t in w ==> t.actualFraud.Some? && |t.features| == ncols
    requires StatsFit(stats, ncols)
    ensures r.None? <==> |w| < MIN_SAMPLE_SIZE
    ensures r.Some? ==> r.value.sampleSize == |w| && r.value.modelName == model
    ensures r.Some? ==> r.value.confusion.tn + r.value.confusion.fp + r.value.confusion.fn + r.value.confusion.tp == |w|
    ensures r.Some? ==> 0.0 <= r.value.precision <= 1.0 && 0.0 <= r.value.recall <= 1.0 && 0.0 <= r.value.f1 <= 1.0
    ensures r.Some? ==> (r.value.auc == rocAuc || r.value.auc == 0.0)
    ensures r.Some? && (forall t :: t in w ==> t.actualFraud == w[0].actualFraud) ==> r.value.auc == 0.0
    ensures r.Some? ==> r.value.confusion == Tally(Labels(w), Predictions(w))
    ensures r.Some? ==> r.value.precision == Precision(r.value.confusion) && r.value.recall == Recall(r.value.confusion)
                        && r.value.f1 == F1(r.value.confusion)
    ensures r.Some? ==> (r.value.auc == if true in Labels(w) && false in Labels(w) then rocAuc else 0.0)
    ensures r.Some? ==> r.value.drift == DriftScore(stats, ncols, RecentFeatures(w))
  {
    if |w| < MIN_SAMPLE_SIZE then None
    else
      var ys := Labels(w);
      var c := Tally(ys, Predictions(w));
      var bothClasses := true in ys && false in ys;
      if bothClasses then
        assert exists i, j :: 0 <= i < |w| && 0 <= j < |w| && ys[i] && !ys[j];
        assert !forall t :: t in w ==> t.actualFraud == w[0].actualFraud;
        Some(ValidationResult(now, model, Precision(c), Recall(c), F1(c), rocAuc, c, |w|,
                              DriftScore(stats, ncols, RecentFeatures(w))))
      else
        Some(ValidationResult(now, model, Precision(c), Recall(c), F1(c), 0.0, c, |w|,
                              DriftScore(stats, ncols, RecentFeatures(w))))
  }

  // ---------------------------------------------------------------- drift

  function SumReals(xs: seq<real>): real {
    if xs == [] then 0.0 else xs[0] + SumReals(xs[1..])
  }

  function ColumnSum(rows: seq<seq<real>>, j: nat): real
    requires forall r :: r in rows ==> j < |r|
  {
    if rows == [] then 0.0 else rows[0][j] + ColumnSum(rows[1..], j)
  }

  /** `recent_df.mean()[col]`. */
  function ColumnMean(rows: seq<seq<real>>, j: nat): real
    requires rows != []
    requires forall r :: r in rows ==> j < |r|
  {
    ColumnSum(rows, j) / |rows| as real
  }

  /** The per-column terms |recent mean - baseline mean| / baseline std, for columns j.. with std > 0. */
  function DriftTerms(stats: FeatureStats, rows: seq<seq<real>>, j: nat): (ts: seq<real>)
    requires rows != [] && |stats.mean| == |stats.std|
    requires forall r :: r in rows ==> |r| == |stats.mean|
    ensures forall k :: 0 <= k < |ts| ==> ts[k] >= 0.0
    ensures ts == [] <==> forall i :: j <= i < |stats.std| ==> stats.std[i] <= 0.0
    decreases |stats.std| - j
  {
    if j >= |stats.std| then []
    else
      var rest := DriftTerms(stats, rows, j + 1);
      if stats.std[j] > 0.0 then [Abs(ColumnMean(rows, j) - stats.mean[j]) / stats.std[j]] + rest
      else rest
  }

  /**
   * `calculate_drift_score`: 0 with no recent rows or no baseline, `nan`
   * when no column has a positive deviation, and otherwise the
   * (non-negative) mean of the per-column terms.
   */
  function DriftScore(stats: Option<FeatureStats>, ncols: nat, rows: seq<seq<real>>): (s: Score)
    requires StatsFit(stats, ncols)
    requires forall r :: r in rows ==> |r| == ncols
    ensures rows == [] || stats.None? ==> s == Value(0.0)
    ensures s.NotANumber? <==> rows != [] && stats.Some? && forall i :: 0 <= i < ncols ==> stats.value.std[i] <= 0.0
    ensures s.Value? ==> s.v >= 0.0
  {
    if rows == [] || stats.None? then Value(0.0)
    else
      var ts := DriftTerms(stats.value, rows, 0);
      if ts == [] then NotANumber
      else
        SumNonNegative(ts);
        Value(SumReals(ts) / |ts| as real)
  }

  lemma {:induction false} SumNonNegative(xs: seq<real>)
    requires forall k :: 0 <= k < |xs| ==> xs[k] >= 0.0
    ensures SumReals(xs) >= 0.0
  {
    if xs != [] {
      SumNonNegative(xs[1..]);
    }
  }

  lemma {:induction false} SumBounded(xs: seq<real>, bound: real)
    requires forall k :: 0 <= k < |xs| ==> xs[k] <= bound
    ensures SumReals(xs) <= |xs| as real * bound
  {
    if xs != [] {
      SumBounded(xs[1..], bound);
    }
  }

  lemma QuotientBounded(d: real, sd: real, eps: real)
    requires sd > 0.0 && d <= eps * sd
    ensures d / sd <= eps
  {
    assert d / sd <= eps * sd / sd;
  }

  /** The mean of values that are each at most `bound` is at most `bound`. */
  lemma MeanBounded(xs: seq<real>, bound: real)
    requires xs != [] && forall k :: 0 <= k < |xs| ==> xs[k] <= bound
    ensures SumReals(xs) / |xs| as real <= bound
  {
    SumBounded(xs, bound);
    var n := |xs| as real;
    assert n * bound == bound * n;
    QuotientBounded(SumReals(xs), n, bound);
  }

  /** Every drift term from column j on is at most `eps` when each column's scaled deviation is. */
  lemma {:induction false} DriftTermsBounded(stats: FeatureStats, rows: seq<seq<real>>, j: nat, eps: real)
    requires rows != [] && |stats.mean| == |stats.std|
    requires forall r :: r in rows ==> |r| == |stats.mean|
    requires forall i :: 0 <= i < |stats.std| && stats.std[i] > 0.0 ==>
               Abs(ColumnMean(rows, i) - stats.mean[i]) / stats.std[i] <= eps
    ensures forall k :: 0 <= k < |DriftTerms(stats, rows, j)| ==> DriftTerms(stats, rows, j)[k] <= eps
    decreases |stats.std| - j
  {
    if j < |stats.std| {
      DriftTermsBounded(stats, rows, j + 1, eps);
      var rest := DriftTerms(stats, rows, j + 1);
      if stats.std[j] > 0.0 {
        var t := Abs(ColumnMean(rows, j) - stats.mean[j]) / stats.std[j];
        assert DriftTerms(stats, rows, j) == [t] + rest;
        forall k | 0 <= k < |[t] + rest|
          ensures ([t] + rest)[k] <= eps
        {
          if k > 0 {
            assert ([t] + rest)[k] == rest[k - 1];
          }
        }
      } else {
        assert DriftTerms(stats, rows, j) == rest;
      }
    }
  }

  lemma ScaledDeviationsBounded(stats: FeatureStats, rows: seq<seq<real>>, eps: real)
    requires rows != [] && |stats.mean| == |stats.std|
    requires forall r :: r in rows ==> |r| == |stats.mean|
    requires forall i :: 0 <= i < |stats.std| && stats.std[i] > 0.0 ==>
               Abs(ColumnMean(rows, i) - stats.mean[i]) <= eps * stats.std[i]
    ensures forall i :: 0 <= i < |stats.std| && stats.std[i] > 0.0 ==>
              Abs(ColumnMean(rows, i) - stats.mean[i]) / stats.std[i] <= eps
  {
    forall i | 0 <= i < |stats.std| && stats.std[i] > 0.0
      ensures Abs(ColumnMean(rows, i) - stats.mean[i]) / stats.std[i] <= eps
    {
      QuotientBounded(Abs(ColumnMean(rows, i) - stats.mean[i]), stats.std[i], eps);
    }
  }

  /**
   * When every recent column mean lies within `eps` baseline deviations of
   * the baseline mean, the drift score is at most `eps`; in particular
   * recent means equal to the baseline means give a score of 0.
   */
  lemma DriftWithinTolerance(stats: FeatureStats, ncols: nat, rows: seq<seq<real>>, eps: real)
    requires StatsFit(Some(stats), ncols) && rows != []
    requires forall r :: r in rows ==> |r| == ncols
    requires exists i :: 0 <= i < ncols && stats.std[i] > 0.0
    requires forall i :: 0 <= i < ncols && stats.std[i] > 0.0 ==>
               Abs(ColumnMean(rows, i) - stats.mean[i]) <= eps * stats.std[i]
    ensures DriftScore(Some(stats), ncols, rows).Value?
    ensures DriftScore(Some(stats), ncols, rows).v <= eps
  {
    var ts := DriftTerms(stats, rows, 0);
    assert ts != [];
    ScaledDeviationsBounded(stats, rows, eps);
    DriftTermsBounded(stats, rows, 0, eps);
    MeanBounded(ts, eps);
  }

  // ---------------------------------------------------------------- alerts

  datatype Alert = LowPrecision | LowRecall | LowF1 | LowAuc | HighDrift

  /** Position of each alert kind in the fixed reporting order. */
  function Rank(a: Alert): nat {
    match a
    case LowPrecision => 0
    case LowRecall => 1
    case LowF1 => 2
    case LowAuc => 3
    case HighDrift => 4
  }

  /** `nan > 0.15` is false: a `nan` drift never raises an alert. */
  predicate DriftTooHigh(d: Score) {
    d.Value? && d.v > MAX_DRIFT
  }

  /** Alerts listed in the fixed reporting order. */
  predicate Ascending(alerts: seq<Alert>) {
    forall i :: 0 < i < |alerts| ==> Rank(alerts[i - 1]) < Rank(alerts[i])
  }

  /** Puts alert `a` in front of the later-ranked alerts when its condition holds. */
  function RaiseIf(condition: bool, a: Alert, later: seq<Alert>): (alerts: seq<Alert>)
    requires Ascending(later) && forall x :: x in later ==> Rank(a) < Rank(x)
    ensures Ascending(alerts)
    ensures forall x :: x in alerts <==> (condition && x == a) || x in later
    ensures forall x :: x in alerts ==> Rank(a) <= Rank(x)
  {
    if condition then [a] + later else later
  }

  /** `check_performance_alerts`: one alert per violated threshold, in the fixed order. */
  function Alerts(r: ValidationResult): (alerts: seq<Alert>)
    ensures LowPrecision in alerts <==> r.precision < MIN_PRECISION
    ensures LowRecall in alerts <==> r.recall < MIN_RECALL
    ensures LowF1 in alerts <==> r.f1 < MIN_F1
    ensures LowAuc in alerts <==> 0.0 < r.auc < MIN_AUC
    ensures HighDrift in alerts <==> DriftTooHigh(r.drift)
    ensures Ascending(alerts)
    ensures alerts == [] <==> r.precision >= MIN_PRECISION && r.recall >= MIN_RECALL && r.f1 >= MIN_F1
                              && !(0.0 < r.auc < MIN_AUC) && !DriftTooHigh(r.drift)
  {
    var drift := RaiseIf(DriftTooHigh(r.drift), HighDrift, []);
    var auc := RaiseIf(0.0 < r.auc < MIN_AUC, LowAuc, drift);
    var f1 := RaiseIf(r.f1 < MIN_F1, LowF1, auc);
    var recall := RaiseIf(r.recall < MIN_RECALL, LowRecall, f1);
    RaiseIf(r.precision < MIN_PRECISION, LowPrecision, recall)
  }

  // ---------------------------------------------------------------- cycle comparison

  /** Relative change in percent, 0 when the baseline value is not positive. */
  datatype CycleVerdict = CycleVerdict(recallImprovement: real, precisionChange: real,
                                       recallAsExpected: bool, precisionStable: bool)

  /** The two checks `run_validation_cycle` reports after validating both models. */
  function CompareCycle(b: ValidationResult, c: ValidationResult): (v: CycleVerdict)
    ensures b.recall > 0.0 ==> (v.recallAsExpected <==> c.recall >= 1.05 * b.recall)
    ensures b.recall <= 0.0 ==> !v.recallAsExpected && v.recallImprovement == 0.0
    ensures b.precision > 0.0 ==> (v.precisionStable <==> 0.95 * b.precision <= c.precision <= 1.05 * b.precision)
    ensures b.precision <= 0.0 ==> v.precisionStable && v.precisionChange == 0.0
  {
    var ri := PercentChange(b.recall, c.recall);
    var pc := PercentChange(b.precision, c.precision);
    PercentThreshold(b.recall, c.recall);
    PercentThreshold(b.precision, c.precision);
    CycleVerdict(ri, pc, ri >= 5.0, Abs(pc) <= 5.0)
  }

  // ---------------------------------------------------------------- the validator

  class OnlineValidator {
    const columns: seq<string>
    const scaler: Scaler
    const baselineStats: Option<FeatureStats>
    /** `transaction_buffer`, oldest first. */
    var buffer: seq<TransactionRecord>
    /** `performance_history`, keyed by model name, oldest first. */
    var history: map<string, seq<ValidationResult>>

    ghost predicate Valid()
      reads this
    {
      Fits(scaler, |columns|) && StatsFit(baselineStats, |columns|)
      && |buffer| <= BUFFER_CAPACITY
      && (forall k :: 0 <= k < |buffer| ==> |buffer[k].features| == |columns|)
      && history.Keys == {BASELINE, CANDIDATE}
      && (forall m :: m in history ==> |history[m]| <= HISTORY_CAPACITY)
    }

    /** `_initialize_preprocessing`, given the training split's header and the fitted scaler and statistics. */
    constructor (trainingHeader: seq<string>, fitted: Scaler, stats: FeatureStats)
      requires Fits(fitted, |SelectFeatureColumns(trainingHeader)|)
      requires StatsFit(Some(stats), |SelectFeatureColumns(trainingHeader)|)
      ensures Valid()
      ensures columns == SelectFeatureColumns(trainingHeader) && scaler == fitted && baselineStats == Some(stats)
      ensures buffer == [] && history == map[BASELINE := [], CANDIDATE := []]
    {
      columns := SelectFeatureColumns(trainingHeader);
      scaler := fitted;
      baselineStats := Some(stats);
      buffer := [];
      history := map[BASELINE := [], CANDIDATE := []];
    }

    /** `send_test_transaction`: score one transaction and append its record on success. */
    method SendTestTransaction(txn: TransactionData, model: string, clockMillis: int, now: int, reply: Reply)
      returns (r: Option<TransactionRecord>)
      requires Valid()
      modifies this
      ensures Valid()
      ensures r == ScoreTransaction(columns, scaler, txn, model, clockMillis, now, reply)
      ensures buffer == if r.Some? then Push(old(buffer), r.value, BUFFER_CAPACITY) else old(buffer)
      ensures history == old(history)
    {
      r := ScoreTransaction(columns, scaler, txn, model, clockMillis, now, reply);
      if r.Some? {
        buffer := Push(buffer, r.value, BUFFER_CAPACITY);
      }
    }

    /**
     * `result.feedback_received = True` in `run_validation_cycle`: the
     * record just returned is the newest one in the buffer, so the flag
     * changes there.
     */
    method ReceiveImmediately()
      requires Valid() && buffer != []
      modifies this
      ensures Valid()
      ensures buffer == old(buffer)[|old(buffer)| - 1 := old(buffer)[|old(buffer)| - 1].(feedbackReceived := true)]
      ensures history == old(history)
    {
      var last := |buffer| - 1;
      buffer := buffer[last := buffer[last].(feedbackReceived := true)];
    }

    /** `collect_delayed_feedback`: reveal every due record and count them. */
    method CollectDelayedFeedback(now: int) returns (count: nat)
      requires Valid()
      modifies this
      ensures Valid()
      ensures buffer == RevealAll(old(buffer), now)
      ensures count == CountDue(old(buffer), now)
      ensures history == old(history)
    {
      ghost var start := buffer;
      count := 0;
      var i := 0;
      while i < |buffer|
        invariant 0 <= i <= |buffer| == |start|
        invariant forall k :: 0 <= k < i ==> buffer[k] == Reveal(start[k], now)
        invariant forall k :: i <= k < |buffer| ==> buffer[k] == start[k]
        invariant count == CountDue(start[..i], now)
        invariant history == old(history)
      {
        assert start[..i + 1][..i] == start[..i];
        if FeedbackDue(buffer[i], now) {
          buffer := buffer[i := buffer[i].(feedbackReceived := true)];
          count := count + 1;
        }
        i := i + 1;
      }
      assert start[..i] == start;
    }

    /**
     * `validate_model_performance`: metrics over the window of the last
     * `lookbackMinutes`; stored in that model's history. A model without a
     * history raises `KeyError` on the append, which is caught, so nothing
     * is reported or stored for it.
     */
    method ValidateModelPerformance(model: string, lookbackMinutes: int, now: int, rocAuc: real)
      returns (r: Option<ValidationResult>)
      requires Valid()
      modifies this
      ensures Valid()
      ensures buffer == old(buffer)
      ensures r.Some? ==> model in old(history)
      ensures model in old(history) ==>
                r == Assess(Window(buffer, model, now - lookbackMinutes * MICROS_PER_MINUTE), model, now, rocAuc,
                            baselineStats, |columns|)
      ensures history == if r.Some? then old(history)[model := Push(old(history)[model], r.value, HISTORY_CAPACITY)]
                         else old(history)
    {
      var w := Window(buffer, model, now - lookbackMinutes * MICROS_PER_MINUTE);
      forall t | t in w ensures t.actualFraud.Some? && |t.features| == |columns| {
        var k :| 0 <= k < |buffer| && buffer[k] == t;
      }
      r := Assess(w, model, now, rocAuc, baselineStats, |columns|);
      if r.Some? {
        if model in history {
          history := history[model := Push(history[model], r.value, HISTORY_CAPACITY)];
        } else {
          r := None;
        }
      }
    }
  }
}
