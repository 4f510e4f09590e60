/**
 * Building the enriched fraud dataset (the data script, repeated as
 * Phase 1 of the offline validation script): replication to one million
 * rows, fraud oversampling to 1%, the Q1-2024 / other partition, drift
 * injection into Q1-2024 fraud rows, and the three temporal splits.
 *
 * A `datetime` is a calendar day counted from 2023-01-01, a second of that
 * day and a nanosecond of that second (pandas' resolution), so that
 * "same day" and "hour" need no division of large numbers.
 */
module DatasetBuild {
  import opened Wrappers

  const TARGET_ROWS: nat := 1000000
  const TARGET_FRAUD_RATE: real := 0.01
  /** `int(target_rows * target_fraud_rate)`. */
  const REQUIRED_FRAUD_CASES: nat := (TARGET_ROWS as real * TARGET_FRAUD_RATE).Floor as nat
  const SECONDS_PER_DAY: nat := 86400
  const NANOS_PER_SECOND: nat := 1000000000

  // ---------------------------------------------------------------- sizes

  /** `int(np.ceil(a / b))`. */
  function CeilDiv(a: nat, b: nat): (q: nat)
    requires b > 0
    ensures q * b >= a
    ensures q > 0 ==> (q - 1) * b < a
  {
    var q := (a + b - 1) / b;
    assert q * b + (a + b - 1) % b == a + b - 1;
    q
  }

  datatype SizeError = DivisionByZero | NothingToConcatenate

  /**
   * Size after concatenating `ceil(target / n)` copies of `n` rows and, if
   * that is longer, sampling `target` of them. No rows divide by zero; a
   * factor of 0 leaves `pd.concat` nothing to concatenate.
   */
  function ReplicatedSize(n: nat, target: nat): (r: Result<nat, SizeError>)
    ensures n == 0 ==> r == Err(DivisionByZero)
    ensures n > 0 && target == 0 ==> r == Err(NothingToConcatenate)
    ensures n > 0 && target > 0 ==> r == Ok(target)
  {
    if n == 0 then Err(DivisionByZero)
    else
      var factor := CeilDiv(target, n);
      if factor == 0 then Err(NothingToConcatenate)
      else
        var len := factor * n;
        if len > target then Ok(target) else Ok(len)
  }

  /** The replicated dataset has exactly one million rows whenever the source file has any row. */
  lemma ReplicationHitsTarget(originalRows: nat)
    requires originalRows > 0
    ensures ReplicatedSize(originalRows, TARGET_ROWS) == Ok(TARGET_ROWS)
  {
  }

  /**
   * Number of fraud rows after oversampling `current` fraud rows to
   * `required`: replicate and trim when there are too few, sample otherwise.
   */
  function OversampledFraudSize(current: nat, required: nat): (r: Result<nat, SizeError>)
    ensures r.Err? <==> current == 0 && required > 0
    ensures r.Ok? ==> r.value == required
  {
    if current < required then ReplicatedSize(current, required)
    else Ok(required)
  }

  /** `int(1_000_000 * 0.01)`. */
  lemma RequiredFraudCasesValue()
    ensures REQUIRED_FRAUD_CASES == 10000
  {
    assert TARGET_ROWS as real * TARGET_FRAUD_RATE == 10000.0;
  }

  /**
   * Size of the enriched dataset, the non-fraud rows concatenated with the
   * oversampled fraud rows; with no fraud row at all the replication factor
   * divides by zero.
   */
  function EnrichedRows(nonFraud: nat, currentFraud: nat): (r: Result<nat, SizeError>)
    ensures r.Err? <==> currentFraud == 0
    ensures r.Ok? ==> r.value == nonFraud + REQUIRED_FRAUD_CASES
  {
    RequiredFraudCasesValue();
    match OversampledFraudSize(currentFraud, REQUIRED_FRAUD_CASES)
    case Err(e) => Err(e)
    case Ok(k) => Ok(nonFraud + k)
  }

  /** The enriched dataset: every non-fraud row plus exactly 10000 (1% of the target) fraud rows. */
  lemma EnrichedSize(nonFraud: nat, currentFraud: nat)
    requires currentFraud > 0
    ensures OversampledFraudSize(currentFraud, REQUIRED_FRAUD_CASES) == Ok(10000)
    ensures EnrichedRows(nonFraud, currentFraud) == Ok(nonFraud + 10000)
  {
    RequiredFraudCasesValue();
  }

  // ---------------------------------------------------------------- time

  datatype DateTime = DateTime(day: nat, second: nat, nanos: nat)

  predicate WellFormed(t: DateTime) {
    t.second < SECONDS_PER_DAY && t.nanos < NANOS_PER_SECOND
  }

  predicate AtOrBefore(a: DateTime, b: DateTime) {
    a.day < b.day || (a.day == b.day && (a.second < b.second || (a.second == b.second && a.nanos <= b.nanos)))
  }

  const Q1_START: DateTime := DateTime(365, 0, 0)       // 2024-01-01 00:00:00
  const Q1_END: DateTime := DateTime(455, 0, 0)         // 2024-03-31 00:00:00
  const TRAIN_V1_END: DateTime := DateTime(364, 86399, 0)   // 2023-12-31 23:59:59
  const TRAIN_V2_END: DateTime := DateTime(455, 86399, 0)   // 2024-03-31 23:59:59
  const HOLDOUT_START: DateTime := DateTime(396, 0, 0)  // 2024-02-01 00:00:00
  const HOLDOUT_END: DateTime := DateTime(455, 86399, 0)    // 2024-03-31 23:59:59

  function Hour(t: DateTime): nat {
    t.second / 3600
  }

  /** `current_dt.hour >= 22 or current_dt.hour < 6`. */
  predicate IsNight(t: DateTime) {
    Hour(t) >= 22 || Hour(t) < 6
  }

  /** A wall-clock time drawn for the nighttime shift. */
  datatype ClockTime = ClockTime(hour: nat, minute: nat, second: nat)

  /** The draws the source makes: hour from 22..23 or 0..5, minute and second below 60. */
  predicate NightClock(c: ClockTime) {
    (22 <= c.hour < 24 || c.hour < 6) && c.minute < 60 && c.second < 60
  }

  /** `current_dt.replace(hour=, minute=, second=)`: same day, same sub-second part. */
  function ReplaceTime(t: DateTime, c: ClockTime): (u: DateTime)
    requires NightClock(c)
    ensures u.day == t.day && u.nanos == t.nanos && Hour(u) == c.hour
    ensures WellFormed(t) ==> WellFormed(u)
  {
    DateTime(t.day, c.hour * 3600 + c.minute * 60 + c.second, t.nanos)
  }

  // ---------------------------------------------------------------- rows and periods

  /** A transaction row: its timestamp, class, amount, the three PCA features drift touches, and the others. */
  datatype Row = Row(when: DateTime, fraud: bool, amount: real, v1: real, v2: real, v3: real, rest: seq<real>)

  datatype Period = Q1 | PreQ1 | TrainV1 | TrainV2 | Holdout

  predicate InPeriod(r: Row, p: Period) {
    match p
    case Q1 => AtOrBefore(Q1_START, r.when) && AtOrBefore(r.when, Q1_END)
    case PreQ1 => !AtOrBefore(Q1_START, r.when) || !AtOrBefore(r.when, Q1_END)
    case TrainV1 => AtOrBefore(r.when, TRAIN_V1_END)
    case TrainV2 => AtOrBefore(r.when, TRAIN_V2_END)
    case Holdout => AtOrBefore(HOLDOUT_START, r.when) && AtOrBefore(r.when, HOLDOUT_END)
  }

  /** `df[condition]`: the rows of the period, in order. */
  function Select(rows: seq<Row>, p: Period): (s: seq<Row>)
    ensures |s| <= |rows|
    ensures forall r :: r in s ==> InPeriod(r, p)
    ensures multiset(s) <= multiset(rows)
  {
    if rows == [] then []
    else
      assert rows == [rows[0]] + rows[1..];
      (if InPeriod(rows[0], p) then [rows[0]] else []) + Select(rows[1..], p)
  }

  /** The filter keeps every copy of every row of the period and nothing else. */
  lemma {:induction false} SelectCount(rows: seq<Row>, p: Period, r: Row)
    ensures multiset(Select(rows, p))[r] == if InPeriod(r, p) then multiset(rows)[r] else 0
  {
    if rows != [] {
      SelectCount(rows[1..], p, r);
      assert rows == [rows[0]] + rows[1..];
    }
  }

  /** The Q1 and non-Q1 frames split the enriched rows: each row lands in exactly one of them. */
  lemma {:induction false} Q1Partition(rows: seq<Row>)
    ensures multiset(Select(rows, Q1)) + multiset(Select(rows, PreQ1)) == multiset(rows)
    ensures |Select(rows, Q1)| + |Select(rows, PreQ1)| == |rows|
  {
    if rows != [] {
      Q1Partition(rows[1..]);
      assert rows == [rows[0]] + rows[1..];
    }
  }

  /** Q1 ends at midnight on 31 March, so any later moment of that day falls outside Q1. */
  lemma LateMarch31IsNotQ1(r: Row)
    requires r.when.day == 455 && (r.when.second > 0 || r.when.nanos > 0)
    ensures !InPeriod(r, Q1) && InPeriod(r, PreQ1)
  {
  }

  lemma {:induction false} SelectStronger(rows: seq<Row>, p: Period, q: Period)
    requires forall r :: InPeriod(r, p) ==> InPeriod(r, q)
    ensures multiset(Select(rows, p)) <= multiset(Select(rows, q))
  {
    if rows != [] {
      SelectStronger(rows[1..], p, q);
    }
  }

  /** No holdout row (from 1 February 2024) is dated on or before 31 December 2023. */
  lemma HoldoutDisjointV1(rows: seq<Row>)
    ensures multiset(Select(rows, Holdout)) * multiset(Select(rows, TrainV1)) == multiset{}
  {
    var a, b := multiset(Select(rows, Holdout)), multiset(Select(rows, TrainV1));
    forall r ensures (a * b)[r] == 0 {
      if r in a {
        assert InPeriod(r, Holdout);
        assert !InPeriod(r, TrainV1);
        assert r !in b;
      }
    }
  }

  /**
   * The temporal splits: the baseline's training rows are among the
   * candidate's, so are the holdout rows (the holdout overlaps the
   * candidate's training data), and no holdout row trains the baseline.
   */
  lemma SplitRelations(rows: seq<Row>)
    ensures multiset(Select(rows, TrainV1)) <= multiset(Select(rows, TrainV2))
    ensures multiset(Select(rows, Holdout)) <= multiset(Select(rows, TrainV2))
    ensures multiset(Select(rows, Holdout)) * multiset(Select(rows, TrainV1)) == multiset{}
  {
    SelectStronger(rows, TrainV1, TrainV2);
    SelectStronger(rows, Holdout, TrainV2);
    HoldoutDisjointV1(rows);
  }

  // ---------------------------------------------------------------- drift injection

  /** The random draws for one new-pattern row: V1 and V3 shifts, V2 shift, amount factor. */
  datatype PatternDraw = PatternDraw(dv1: real, dv2: real, dv3: real, amountFactor: real)

  function WithNewPattern(r: Row, d: PatternDraw): Row {
    r.(v1 := r.v1 + d.dv1, v2 := r.v2 - d.dv2, v3 := r.v3 + d.dv3, amount := r.amount * d.amountFactor)
  }

  /** The nighttime shift of one selected row: rows already at night are left alone. */
  function ShiftToNight(r: Row, c: ClockTime): (s: Row)
    requires NightClock(c)
    ensures IsNight(s.when) && s.when.day == r.when.day
    ensures IsNight(r.when) ==> s == r
    ensures s.(when := r.when) == r
  {
    if IsNight(r.when) then r else r.(when := ReplaceTime(r.when, c))
  }

  /**
   * Moving a Q1 row to another time of the same day keeps it in Q1 and in
   * the same splits: the only Q1 moment of 31 March is midnight, which is
   * already night and never moved.
   */
  lemma ShiftKeepsPeriods(r: Row, c: ClockTime, p: Period)
    requires NightClock(c) && InPeriod(r, Q1) && WellFormed(r.when)
    ensures InPeriod(ShiftToNight(r, c), p) <==> InPeriod(r, p)
  {
  }

  predicate Distinct(xs: seq<nat>) {
    forall i, j :: 0 <= i < j < |xs| ==> xs[i] != xs[j]
  }

  function FraudCount(rows: seq<Row>): (n: nat)
    ensures n <= |rows|
    ensures n == 0 <==> forall i :: 0 <= i < |rows| ==> !rows[i].fraud
  {
    if rows == [] then 0 else (if rows[0].fraud then 1 else 0) + FraudCount(rows[1..])
  }

  /** `np.random.choice(fraud_indices, k, replace=False)`: k distinct positions of fraud rows. */
  predicate FraudChoice(rows: seq<Row>, picks: seq<nat>, k: nat) {
    |picks| == k && Distinct(picks) && forall i :: 0 <= i < |picks| ==> picks[i] < |rows| && rows[picks[i]].fraud
  }

  /** The `.loc` updates of V1, V2, V3 and Amount on the chosen rows. */
  method ApplyNewPattern(q1: array<Row>, picks: seq<nat>, draws: seq<PatternDraw>)
    requires |picks| == |draws| && Distinct(picks)
    requires forall k :: 0 <= k < |picks| ==> picks[k] < q1.Length
    modifies q1
    ensures forall k :: 0 <= k < |picks| ==> q1[picks[k]] == WithNewPattern(old(q1[picks[k]]), draws[k])
    ensures forall i :: 0 <= i < q1.Length && i !in picks ==> q1[i] == old(q1[i])
  {
    var j := 0;
    while j < |picks|
      invariant 0 <= j <= |picks|
      invariant forall k :: 0 <= k < j ==> q1[picks[k]] == WithNewPattern(old(q1[picks[k]]), draws[k])
      invariant forall i :: 0 <= i < q1.Length && i !in picks[..j] ==> q1[i] == old(q1[i])
    {
      assert picks[j] !in picks[..j];
      q1[picks[j]] := WithNewPattern(q1[picks[j]], draws[j]);
      assert picks[..j + 1] == picks[..j] + [picks[j]];
      j := j + 1;
    }
    assert picks[..j] == picks;
  }

  /** `df_q1_2024.loc[df_q1_2024["Class"] == 1, "Amount"] *= 1.1`. */
  method RaiseFraudAmounts(q1: array<Row>)
    modifies q1
    ensures forall i :: 0 <= i < q1.Length ==>
              q1[i] == if old(q1[i]).fraud then old(q1[i]).(amount := old(q1[i]).amount * 1.1) else old(q1[i])
  {
    var i := 0;
    while i < q1.Length
      invariant 0 <= i <= q1.Length
      invariant forall k :: 0 <= k < i ==>
                  q1[k] == if old(q1[k]).fraud then old(q1[k]).(amount := old(q1[k]).amount * 1.1) else old(q1[k])
      invariant forall k :: i <= k < q1.Length ==> q1[k] == old(q1[k])
    {
      if q1[i].fraud {
        q1[i] := q1[i].(amount := q1[i].amount * 1.1);
      }
      i := i + 1;
    }
  }

  /** The `for idx in nighttime_fraud_indices` loop. */
  method ShiftPicksToNight(q1: array<Row>, picks: seq<nat>, clocks: seq<ClockTime>)
    requires |picks| == |clocks| && Distinct(picks)
    requires forall k :: 0 <= k < |picks| ==> picks[k] < q1.Length && NightClock(clocks[k])
    modifies q1
    ensures forall k :: 0 <= k < |picks| ==> q1[picks[k]] == ShiftToNight(old(q1[picks[k]]), clocks[k])
    ensures forall i :: 0 <= i < q1.Length && i !in picks ==> q1[i] == old(q1[i])
  {
    var j := 0;
    while j < |picks|
      invariant 0 <= j <= |picks|
      invariant forall k :: 0 <= k < j ==> q1[picks[k]] == ShiftToNight(old(q1[picks[k]]), clocks[k])
      invariant forall i :: 0 <= i < q1.Length && i !in picks[..j] ==> q1[i] == old(q1[i])
    {
      assert picks[j] !in picks[..j];
      var current := q1[picks[j]];
      if !IsNight(current.when) {
        q1[picks[j]] := current.(when := ReplaceTime(current.when, clocks[j]));
      }
      assert picks[..j + 1] == picks[..j] + [picks[j]];
      j := j + 1;
    }
    assert picks[..j] == picks;
  }

  /** What the drift injection may change in a row: only fraud rows, never the class, the day or the other features. */
  predicate DriftOnly(before: Row, after: Row) {
    after.fraud == before.fraud && after.rest == before.rest && after.when.day == before.when.day
    && (!before.fraud ==> after == before)
  }

  /** A new-pattern row after the whole injection: shifted features, amount scaled by its draw and by 1.1. */
  predicate GotPattern(before: Row, after: Row, d: PatternDraw) {
    after.v1 == before.v1 + d.dv1 && after.v2 == before.v2 - d.dv2 && after.v3 == before.v3 + d.dv3
    && after.amount == before.amount * d.amountFactor * 1.1
  }

  /** Any other row after the injection: features kept, amount scaled by 1.1 if it is fraud. */
  predicate KeptPattern(before: Row, after: Row) {
    after.v1 == before.v1 && after.v2 == before.v2 && after.v3 == before.v3
    && after.amount == (if before.fraud then before.amount * 1.1 else before.amount)
  }

  /**
   * Drift injection on the Q1 frame: when it holds fraud rows, a quarter of
   * them get the new pattern, every fraud amount grows by 10%, and 30% of
   * them are moved to the night.
   */
  method InjectDrift(q1: array<Row>, patternPicks: seq<nat>, draws: seq<PatternDraw>,
                     nightPicks: seq<nat>, clocks: seq<ClockTime>)
    requires forall i :: 0 <= i < q1.Length ==> InPeriod(q1[i], Q1) && WellFormed(q1[i].when)
    requires FraudChoice(q1[..], patternPicks, FraudCount(q1[..]) / 4) && |draws| == |patternPicks|
    requires FraudChoice(q1[..], nightPicks, 3 * FraudCount(q1[..]) / 10) && |clocks| == |nightPicks|
    requires forall k :: 0 <= k < |clocks| ==> NightClock(clocks[k])
    modifies q1
    ensures forall i :: 0 <= i < q1.Length ==> DriftOnly(old(q1[i]), q1[i])
    ensures forall i :: 0 <= i < q1.Length ==> WellFormed(q1[i].when)
    ensures forall i, p :: 0 <= i < q1.Length ==> (InPeriod(q1[i], p) <==> InPeriod(old(q1[i]), p))
    ensures forall k :: 0 <= k < |nightPicks| ==> IsNight(q1[nightPicks[k]].when)
    ensures forall k :: 0 <= k < |nightPicks| ==>
              q1[nightPicks[k]].when == ShiftToNight(old(q1[nightPicks[k]]), clocks[k]).when
    ensures forall i :: 0 <= i < q1.Length && i !in nightPicks ==> q1[i].when == old(q1[i]).when
    ensures old(FraudCount(q1[..])) > 0 ==>
              forall k :: 0 <= k < |patternPicks| ==> GotPattern(old(q1[patternPicks[k]]), q1[patternPicks[k]], draws[k])
    ensures old(FraudCount(q1[..])) > 0 ==>
              forall i :: 0 <= i < q1.Length && i !in patternPicks ==> KeptPattern(old(q1[i]), q1[i])
  {
    if FraudCount(q1[..]) == 0 {
      return;
    }
    ghost var s0 := q1[..];
    if |patternPicks| > 0 {
      ApplyNewPattern(q1, patternPicks, draws);
    }
    ghost var s1 := q1[..];
    RaiseFraudAmounts(q1);
    ghost var s2 := q1[..];
    ShiftPicksToNight(q1, nightPicks, clocks);
    DriftComposes(s0, s1, s2, q1[..], patternPicks, draws, nightPicks, clocks);
  }

  /** The three drift steps, each as its method leaves the frame, compose row by row. */
  lemma DriftComposes(s0: seq<Row>, s1: seq<Row>, s2: seq<Row>, s3: seq<Row>, patternPicks: seq<nat>,
                      draws: seq<PatternDraw>, nightPicks: seq<nat>, clocks: seq<ClockTime>)
    requires |s1| == |s0| && |s2| == |s0| && |s3| == |s0|
    requires forall i :: 0 <= i < |s0| ==> InPeriod(s0[i], Q1) && WellFormed(s0[i].when)
    requires FraudChoice(s0, patternPicks, |patternPicks|) && |draws| == |patternPicks|
    requires FraudChoice(s0, nightPicks, |nightPicks|) && |clocks| == |nightPicks|
    requires forall k :: 0 <= k < |clocks| ==> NightClock(clocks[k])
    requires forall k :: 0 <= k < |patternPicks| ==> s1[patternPicks[k]] == WithNewPattern(s0[patternPicks[k]], draws[k])
    requires forall i :: 0 <= i < |s0| && i !in patternPicks ==> s1[i] == s0[i]
    requires forall i :: 0 <= i < |s0| ==> s2[i] == if s1[i].fraud then s1[i].(amount := s1[i].amount * 1.1) else s1[i]
    requires forall k :: 0 <= k < |nightPicks| ==> s3[nightPicks[k]] == ShiftToNight(s2[nightPicks[k]], clocks[k])
    requires forall i :: 0 <= i < |s0| && i !in nightPicks ==> s3[i] == s2[i]
    ensures forall i :: 0 <= i < |s0| ==> DriftOnly(s0[i], s3[i]) && WellFormed(s3[i].when)
    ensures forall i, p :: 0 <= i < |s0| ==> (InPeriod(s3[i], p) <==> InPeriod(s0[i], p))
    ensures forall i :: 0 <= i < |s0| && i !in patternPicks ==> KeptPattern(s0[i], s3[i])
    ensures forall k :: 0 <= k < |nightPicks| ==> IsNight(s3[nightPicks[k]].when)
    ensures forall k :: 0 <= k < |nightPicks| ==>
              s3[nightPicks[k]].when == ShiftToNight(s0[nightPicks[k]], clocks[k]).when
    ensures forall i :: 0 <= i < |s0| && i !in nightPicks ==> s3[i].when == s0[i].when
    ensures forall k :: 0 <= k < |patternPicks| ==> GotPattern(s0[patternPicks[k]], s3[patternPicks[k]], draws[k])
  {
    forall i | 0 <= i < |s0|
      ensures DriftOnly(s0[i], s3[i]) && WellFormed(s3[i].when)
      ensures forall p :: InPeriod(s3[i], p) <==> InPeriod(s0[i], p)
      ensures i !in patternPicks ==> KeptPattern(s0[i], s3[i])
      ensures i !in nightPicks ==> s3[i].when == s0[i].when
    {
      var d := PatternDraw(0.0, 0.0, 0.0, 1.0);
      if i in patternPicks {
        var k :| 0 <= k < |patternPicks| && patternPicks[k] == i;
        d := draws[k];
      }
      if i in nightPicks {
        var k :| 0 <= k < |nightPicks| && nightPicks[k] == i;
        DriftRow(s0[i], s1[i], s2[i], s3[i], i in patternPicks, d, Some(clocks[k]));
      } else {
        DriftRow(s0[i], s1[i], s2[i], s3[i], i in patternPicks, d, None);
      }
    }
    forall k | 0 <= k < |patternPicks| ensures GotPattern(s0[patternPicks[k]], s3[patternPicks[k]], draws[k]) {
      var i := patternPicks[k];
      var c := None;
      if i in nightPicks {
        var j :| 0 <= j < |nightPicks| && nightPicks[j] == i;
        c := Some(clocks[j]);
      }
      DriftRow(s0[i], s1[i], s2[i], s3[i], true, draws[k], c);
    }
    forall k | 0 <= k < |nightPicks|
      ensures s3[nightPicks[k]].when == ShiftToNight(s0[nightPicks[k]], clocks[k]).when
    {
      var i := nightPicks[k];
      var d := PatternDraw(0.0, 0.0, 0.0, 1.0);
      if i in patternPicks {
        var j :| 0 <= j < |patternPicks| && patternPicks[j] == i;
        d := draws[j];
      }
      DriftRow(s0[i], s1[i], s2[i], s3[i], i in patternPicks, d, Some(clocks[k]));
    }
  }

  /**
   * One Q1 row through the three drift steps: the optional new pattern,
   * the 10% fraud amount increase and the optional nighttime shift.
   */
  lemma DriftRow(b0: Row, b1: Row, b2: Row, b3: Row, pattern: bool, d: PatternDraw, night: Option<ClockTime>)
    requires InPeriod(b0, Q1) && WellFormed(b0.when)
    requires pattern || night.Some? ==> b0.fraud
    requires b1 == if pattern then WithNewPattern(b0, d) else b0
    requires b2 == if b1.fraud then b1.(amount := b1.amount * 1.1) else b1
    requires night.Some? ==> NightClock(night.value) && b3 == ShiftToNight(b2, night.value)
    requires night.None? ==> b3 == b2
    ensures DriftOnly(b0, b3) && WellFormed(b3.when)
    ensures forall p :: InPeriod(b3, p) <==> InPeriod(b0, p)
    ensures pattern ==> GotPattern(b0, b3, d)
    ensures !pattern ==> KeptPattern(b0, b3)
    ensures night.None? ==> b3.when == b0.when
    ensures night.Some? ==> b3.when == ShiftToNight(b0, night.value).when
  {
    if night.Some? {
      forall p ensures InPeriod(b3, p) <==> InPeriod(b0, p) {
        ShiftKeepsPeriods(b2, night.value, p);
      }
    }
  }

  /**
   * The Q1 frame `after` is `before` with drift injected: only fraud rows
   * change, each keeping its class, day and periods; a night pick gets its
   * drawn clock time unless it is already at night, and every other row
   * keeps its timestamp; and when there is fraud, the pattern picks carry their draw's
   * pattern and every other row only the 10% amount increase.
   */
  predicate DriftedFrame(before: seq<Row>, after: seq<Row>, patternPicks: seq<nat>, draws: seq<PatternDraw>,
                         nightPicks: seq<nat>, clocks: seq<ClockTime>)
  {
    |after| == |before| && |draws| == |patternPicks| && |clocks| == |nightPicks|
    && (forall k :: 0 <= k < |clocks| ==> NightClock(clocks[k]))
    && (forall i :: 0 <= i < |before| ==> DriftOnly(before[i], after[i]))
    && (forall i, p :: 0 <= i < |before| ==> (InPeriod(after[i], p) <==> InPeriod(before[i], p)))
    && (forall k :: 0 <= k < |nightPicks| && nightPicks[k] < |after| ==> IsNight(after[nightPicks[k]].when))
    && (forall k :: 0 <= k < |nightPicks| && nightPicks[k] < |before| ==>
          after[nightPicks[k]].when == ShiftToNight(before[nightPicks[k]], clocks[k]).when)
    && (forall i :: 0 <= i < |before| && i !in nightPicks ==> after[i].when == before[i].when)
    && (FraudCount(before) > 0 ==>
          forall k :: 0 <= k < |patternPicks| && patternPicks[k] < |before| ==>
            GotPattern(before[patternPicks[k]], after[patternPicks[k]], draws[k]))
    && (FraudCount(before) > 0 ==>
          forall i :: 0 <= i < |before| && i !in patternPicks ==> KeptPattern(before[i], after[i]))
  }

  /**
   * Steps 4 and 5 end to end: split off Q1, inject drift into it, put the
   * frames back together and cut the three training/holdout splits. (The
   * final shuffle is left out; the splits are filters, so only which rows
   * they hold matters.)
   */
  method BuildSplits(enriched: seq<Row>, patternPicks: seq<nat>, draws: seq<PatternDraw>,
                     nightPicks: seq<nat>, clocks: seq<ClockTime>)
    returns (final: seq<Row>, trainV1: seq<Row>, trainV2: seq<Row>, holdout: seq<Row>)
    requires forall i :: 0 <= i < |enriched| ==> WellFormed(enriched[i].when)
    requires FraudChoice(Select(enriched, Q1), patternPicks, FraudCount(Select(enriched, Q1)) / 4)
    requires |draws| == |patternPicks|
    requires FraudChoice(Select(enriched, Q1), nightPicks, 3 * FraudCount(Select(enriched, Q1)) / 10)
    requires |clocks| == |nightPicks| && forall k :: 0 <= k < |clocks| ==> NightClock(clocks[k])
    ensures |final| == |enriched|
    ensures Select(final, PreQ1) == Select(enriched, PreQ1)
    ensures final[..|Select(enriched, PreQ1)|] == Select(enriched, PreQ1)
    ensures DriftedFrame(Select(enriched, Q1), final[|Select(enriched, PreQ1)|..], patternPicks, draws, nightPicks, clocks)
    ensures trainV1 == Select(final, TrainV1) && trainV2 == Select(final, TrainV2) && holdout == Select(final, Holdout)
    ensures multiset(trainV1) <= multiset(trainV2) && multiset(holdout) <= multiset(trainV2)
    ensures multiset(holdout) * multiset(trainV1) == multiset{}
  {
    var q1rows := Select(enriched, Q1);
    var pre := Select(enriched, PreQ1);
    Q1Partition(enriched);
    SelectWellFormed(enriched, Q1);
    var drifted := DriftQ1(q1rows, patternPicks, draws, nightPicks, clocks);
    final := pre + drifted;
    assert final[..|pre|] == pre && final[|pre|..] == drifted;
    Reassemble(pre, drifted);
    trainV1 := Select(final, TrainV1);
    trainV2 := Select(final, TrainV2);
    holdout := Select(final, Holdout);
    SplitRelations(final);
  }

  /** `inject_drift` on a copy of the Q1 frame, the drifted frame as a value. */
  method DriftQ1(q1rows: seq<Row>, patternPicks: seq<nat>, draws: seq<PatternDraw>,
                 nightPicks: seq<nat>, clocks: seq<ClockTime>) returns (drifted: seq<Row>)
    requires forall i :: 0 <= i < |q1rows| ==> InPeriod(q1rows[i], Q1) && WellFormed(q1rows[i].when)
    requires FraudChoice(q1rows, patternPicks, FraudCount(q1rows) / 4) && |draws| == |patternPicks|
    requires FraudChoice(q1rows, nightPicks, 3 * FraudCount(q1rows) / 10) && |clocks| == |nightPicks|
    requires forall k :: 0 <= k < |clocks| ==> NightClock(clocks[k])
    ensures DriftedFrame(q1rows, drifted, patternPicks, draws, nightPicks, clocks)
    ensures forall i :: 0 <= i < |drifted| ==> InPeriod(drifted[i], Q1)
  {
    var q1 := new Row[|q1rows|](i requires 0 <= i < |q1rows| => q1rows[i]);
    assert q1[..] == q1rows;
    InjectDrift(q1, patternPicks, draws, nightPicks, clocks);
    drifted := q1[..];
  }

  lemma SelectWellFormed(rows: seq<Row>, p: Period)
    requires forall i :: 0 <= i < |rows| ==> WellFormed(rows[i].when)
    ensures forall i :: 0 <= i < |Select(rows, p)| ==> InPeriod(Select(rows, p)[i], p) && WellFormed(Select(rows, p)[i].when)
  {
    var s := Select(rows, p);
    forall i | 0 <= i < |s| ensures WellFormed(s[i].when) {
      assert s[i] in multiset(rows);
    }
  }

  /** Putting the untouched frame and the drifted Q1 rows back together leaves the non-Q1 part as it was. */
  lemma Reassemble(pre: seq<Row>, q1: seq<Row>)
    requires forall r :: r in pre ==> InPeriod(r, PreQ1)
    requires forall i :: 0 <= i < |q1| ==> InPeriod(q1[i], Q1)
    ensures Select(pre + q1, PreQ1) == pre
  {
    SelectAppend(pre, q1, PreQ1);
    SelectAll(pre, PreQ1);
    SelectNone(q1, PreQ1);
  }

  lemma {:induction false} SelectAppend(a: seq<Row>, b: seq<Row>, p: Period)
    ensures Select(a + b, p) == Select(a, p) + Select(b, p)
  {
    if a == [] {
      assert a + b == b;
    } else {
      assert (a + b)[1..] == a[1..] + b;
      SelectAppend(a[1..], b, p);
    }
  }

  lemma {:induction false} SelectAll(rows: seq<Row>, p: Period)
    requires forall r :: r in rows ==> InPeriod(r, p)
    ensures Select(rows, p) == rows
  {
    if rows != [] {
      SelectAll(rows[1..], p);
    }
  }

  lemma {:induction false} SelectNone(rows: seq<Row>, p: Period)
    requires forall i :: 0 <= i < |rows| ==> !InPeriod(rows[i], p)
    ensures Select(rows, p) == []
  {
    if rows != [] {
      SelectNone(rows[1..], p);
    }
  }
}
