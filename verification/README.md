# Fraud model rollout: verified decision logic

This project models the decision logic of a fraud-detection rollout demo.
A baseline model (v1, trained on 2023 data) and a candidate model (v2,
trained on fifteen months that include a drifted Q1 2024) are built,
compared offline, served side by side behind an 80/20 A/B split and
validated online. The Python scripts around them are mostly calls to
TensorFlow, MLflow, Seldon and Kubernetes. Between those calls sit the
rules that decide what happens: how the dataset is sized and split, when
the candidate is promoted, how traffic is routed and scored, how metrics
and alerts are computed, and what the configuration tools and the
repository's validators accept. Those rules are what the Dafny modules
capture. Every library or network call is an input.

Modules, one per source file, plus shared helpers:

- `Wrappers` (Option, Result), `Text` (Python string operations: `in`,
  `lower`, `strip`, `split`, `replace`, `str(int)`), `Metrics` (confusion
  counts, zero-guarded precision/recall/F1), `Inference` (the scaler, the
  feature-key check, the V2 request and the reply's first output).
- `DatasetBuild`: `src/data.py`, which is repeated as Phase 1 of
  `src/offline-validation.py`.
- `OfflineValidation`: the Phase 4 promotion gate.
- `TrainModel`: `src/train_model.py`.
- `ThresholdTuning`: `src/threshold-tuning.py`.
- `OnlineValidation`: the `OnlineValidator` class of `src/online-validation.py`.
- `Replay`, `Simulate`, `Production`, `V2Format`, `ModelConfig`, `Deploy`:
  the scripts of the same names.
- `ServingMock`, `GitopsChecks`, `InfraChecks`: the validators that live in
  the test files.

Conventions:

- Probabilities and metrics are `real`. Labels are `bool` (fraud = true).
- Instants are integers: microseconds in the online validator. In the
  dataset they are a day count from 2023-01-01, a second of the day and a
  nanosecond.
- A Python exception becomes an error value (`Result.Err`, `None`,
  `Outcome.Failed`), never a precondition.
- Stateful parts are classes:
  - `OnlineValidation.OnlineValidator` has the bounded buffer and the
    per-model histories.
  - `Simulate.TransactionGenerator` has the id counter.
  - `ModelConfig.ConfigFile` is the configuration file.
  - The drift injection works on an `array` of rows.

## Model

| member | source | states |
|---|---|---|
| Metrics.Ratio | src/online-validation.py:261-263 | `num/den` with `zero_division=0`: 0 on a zero denominator, and otherwise the value that times the denominator gives the numerator; always in [0,1] |
| Metrics.Precision | scripts/replay_transactions.py:361-364 | tp/(tp+fp) with 0 when nothing is predicted positive, always in [0,1] |
| Metrics.Recall | scripts/replay_transactions.py:366-369 | tp/(tp+fn), 0 when there is no actual fraud, in [0,1] |
| Metrics.Specificity | scripts/replay_transactions.py:371-374 | tn/(tn+fp), 0 on a zero denominator, in [0,1] |
| Metrics.Accuracy | scripts/simulate-fraud-traffic.py:221 | correct/total, 0 on an empty list, in [0,1] |
| Metrics.F1 | src/online-validation.py:263 | sklearn's F1 with `zero_division=0` lies in [0,1] |
| Metrics.HarmonicMeanIsF1 | scripts/replay_transactions.py:376-379 | the scripts' `2pr/(p+r) if p+r>0 else 0` equals sklearn's F1 on every confusion matrix |
| Metrics.Tally | scripts/replay_transactions.py:343-359 | the four cells of the confusion matrix add up to the number of results |
| Metrics.Count | scripts/simulate-fraud-traffic.py:212-215 | one more result adds one to the total, to the diagonal iff prediction equals label, to the fraud row iff actual, to the fraud column iff predicted |
| Metrics.CountTrue | scripts/simulate-fraud-traffic.py:196 | the number of frauds is at most the length |
| Metrics.CountAgree | scripts/simulate-fraud-traffic.py:218 | the number of correct predictions is at most the length |
| Metrics.TallyMarginals | scripts/simulate-fraud-traffic.py:268-269 | tp+fn is the number of actual frauds and tp+fp the number of predicted frauds |
| Metrics.AgreeIsDiagonal | scripts/simulate-fraud-traffic.py:212-218 | the correct count equals tp+tn |
| Metrics.CountTrueAppend | scripts/simulate-fraud-traffic.py:196 | counting frauds distributes over concatenation |
| Metrics.PercentThreshold | src/online-validation.py:457-470 | with a positive baseline, a relative change of at least 5% means candidate ≥ 1.05·baseline, and one within ±5% means 0.95·baseline ≤ candidate ≤ 1.05·baseline |
| Inference.ScaleOf | src/online-validation.py:107-108 | `StandardScaler` divides by the deviation, or by 1 when it is zero |
| Inference.Transform | src/online-validation.py:193-194 | each scaled value maps back to the raw value through `z*scale + mean`, one per column |
| Inference.FirstMissing | src/online-validation.py:186-189 | None iff every feature column is in the transaction; otherwise the first column, in column order, that is missing |
| Inference.Preprocess | src/online-validation.py:183-194 | an error naming a missing column iff some column is missing; otherwise the scaled values of exactly the feature columns, in column order |
| Inference.FraudFeaturesRequest | scripts/simulate-fraud-traffic.py:83-93 | one FP32 input `fraud_features` of shape [1, 30] carrying the values unchanged, with the given content type |
| Inference.FirstOutput | scripts/simulate-fraud-traffic.py:111 | `result["outputs"][0]["data"][0]` is defined iff the body is JSON with a non-empty first output, and is that value |
| Inference.Probability | src/online-validation.py:152-155 | a probability is read only from a 200 reply, and from a 200 reply it is exactly the first output's first datum |
| DatasetBuild.CeilDiv | src/data.py:52 | `ceil(a/b)`: the smallest q with q·b ≥ a |
| DatasetBuild.ReplicatedSize | src/data.py:49-60 | ceil(target/n) copies trimmed to the target give exactly the target rows; no rows divide by zero |
| DatasetBuild.ReplicationHitsTarget | src/data.py:49-60 | any non-empty source file is replicated to exactly 1,000,000 rows |
| DatasetBuild.OversampledFraudSize | src/data.py:65-87 | both branches yield exactly `required_fraud_cases` rows; the only error is zero fraud rows with a positive requirement |
| DatasetBuild.EnrichedRows | src/data.py:65-90 | the enriched dataset is every non-fraud row plus the required fraud cases, an error exactly when there is no fraud row to replicate |
| DatasetBuild.EnrichedSize | src/data.py:65-90 | with at least one fraud row, oversampling yields exactly 10000 fraud rows and the enriched dataset has the non-fraud rows plus 10000 |
| DatasetBuild.ReplaceTime | src/data.py:182-184 | `datetime.replace(hour, minute, second)` keeps the day and the sub-second part and sets the hour |
| DatasetBuild.Select | src/data.py:124-130 | a date filter keeps a sub-multiset of the rows, each in the period |
| DatasetBuild.SelectCount | src/data.py:124-130 | a date filter keeps every copy of every row in the period and no other row |
| DatasetBuild.Q1Partition | src/data.py:121-130 | the Q1-2024 frame and the other frame together hold every enriched row exactly once |
| DatasetBuild.LateMarch31IsNotQ1 | src/data.py:122-130 | Q1 ends at 2024-03-31 00:00:00, so any later moment of 31 March lands in the non-Q1 frame |
| DatasetBuild.SelectStronger | src/data.py:209-217 | a filter whose condition implies another's keeps a sub-multiset of its rows |
| DatasetBuild.HoldoutDisjointV1 | src/data.py:203-224 | no holdout row is in train_v1 |
| DatasetBuild.SplitRelations | src/data.py:203-224 | train_v1 ⊆ train_v2, holdout ⊆ train_v2, and holdout ∩ train_v1 = ∅ (as multisets) |
| DatasetBuild.ShiftToNight | src/data.py:174-184 | a selected row ends at hour 22-23 or 0-5 on the same day; a row already at night is unchanged; nothing but the time changes |
| DatasetBuild.ShiftKeepsPeriods | src/data.py:174-184 | moving a Q1 row within its day keeps it in Q1 and in the same splits |
| DatasetBuild.FraudCount | src/data.py:138 | zero iff the frame holds no fraud row |
| DatasetBuild.ApplyNewPattern | src/data.py:144-160 | the chosen rows get the V1/V2/V3 shifts and amount factor of their draw; every other row is unchanged |
| DatasetBuild.RaiseFraudAmounts | src/data.py:166 | every fraud amount is multiplied by 1.1 and every other row is unchanged |
| DatasetBuild.ShiftPicksToNight | src/data.py:170-184 | each chosen row is shifted to the night as `ShiftToNight` says; every other row is unchanged |
| DatasetBuild.InjectDrift | src/data.py:136-184 | only fraud rows change, never their class, day or other features; periods are kept; a quarter of the fraud rows get the new pattern (amount also ×1.1); every other fraud amount is ×1.1; a night pick gets its drawn clock time unless already at night, and every other row keeps its timestamp; without fraud nothing changes |
| DatasetBuild.DriftQ1 | src/data.py:136-192 | the Q1 frame after drift injection, as a value: the drifted frame of the Q1 rows (including the exact timestamps of picks and non-picks), every row still in Q1 |
| DatasetBuild.DriftComposes | src/data.py:141-184 | the three in-place steps compose row by row into the effect `InjectDrift` promises |
| DatasetBuild.DriftRow | src/data.py:141-184 | one row through the optional pattern, the 10% increase and the optional shift |
| DatasetBuild.BuildSplits | src/data.py:120-224 | the final frame is the untouched non-Q1 frame followed by the Q1 frame with drift injected (only fraud rows change, keeping class, day and periods; night picks get their drawn time unless already at night, every other row keeps its timestamp; pattern picks carry their draw and the rest only the 10% increase); its splits satisfy the subset and disjointness relations |
| DatasetBuild.SelectWellFormed | src/data.py:124-127 | filtered rows keep well-formed timestamps |
| DatasetBuild.Reassemble | src/data.py:192 | concatenating the untouched frame with the drifted Q1 rows gives back the untouched frame under the non-Q1 filter |
| DatasetBuild.SelectAppend | src/data.py:192 | filtering distributes over concatenation |
| DatasetBuild.SelectAll | src/data.py:128-130 | a filter every row passes keeps the frame |
| DatasetBuild.SelectNone | src/data.py:128-130 | a filter no row passes gives the empty frame |
| OfflineValidation.Promote | src/offline-validation.py:465-486 | promote iff baseline recall is positive, the candidate's recall is at least 1.05 times it, and precision moved by at most 0.01 (absolute); a zero baseline recall never promotes |
| OfflineValidation.Score | src/offline-validation.py:457-463 | holdout precision and recall lie in [0,1] |
| OfflineValidation.SameHoldoutRecallTest | src/offline-validation.py:465-475 | on one holdout set the gate's recall test compares true-positive counts: tp2 ≥ 1.05·tp1 with tp1 > 0 |
| OfflineValidation.RecallsShareDenominator | src/offline-validation.py:465-475 | two recalls over the same number of actual frauds compare as their true-positive counts |
| TrainModel.TrainingDataPath | src/train_model.py:70-80 | train_v1 iff type is "baseline" or version is "v1"; train_v2 in every other case |
| TrainModel.Getenv | src/train_model.py:87-98 | a set variable wins even when empty; otherwise the fallback |
| TrainModel.OrElse | src/train_model.py:90-96 | `value or default`: None and "" fall back |
| TrainModel.Resolve | src/train_model.py:87-98 | type and version are env else CLI; each name is the env value when set (even empty), else the truthy CLI value, else the default built from the resolved type and version; the bucket is env else `mlflow-artifacts` |
| TrainModel.DefaultRunTrainsBaseline | src/train_model.py:35-98 | with no environment and no flags, the run trains v1/baseline on train_v1 |
| TrainModel.EnvironmentSelectsSplit | src/train_model.py:87-88 | MODEL_TYPE=candidate and MODEL_VERSION=v2 select train_v2 whatever the flags say |
| TrainModel.SavePath | src/train_model.py:110 | `models/fraud_{version}.keras`, and the version reads back from the path |
| TrainModel.S3Uri | src/train_model.py:265 | the URI starts with `s3://` and has at least six slashes |
| TrainModel.S3UriParts | src/train_model.py:265 | splitting the URI on '/' gives back bucket, experiment id, run id, "artifacts" and the artifact path when none holds a '/' |
| TrainModel.DataCheckExitCode | src/train_model.py:129-133 | exit 1 iff the training or the holdout file is absent |
| TrainModel.ComputeClassWeights | src/train_model.py:180-184 | w1·pos = total/2; w0·neg = total/2 when neg > 0 and infinite when neg = 0; an error (numpy's unpack) iff no fraud row |
| ThresholdTuning.Classify | src/threshold-tuning.py:84 | fraud iff probability ≥ threshold, one flag per score |
| ThresholdTuning.Evaluate | src/threshold-tuning.py:83-103 | a row exists iff the four-way unpack succeeds; it carries the threshold and the precision, recall, F1, fp and fn of the tally of labels against the scores classified at that threshold |
| ThresholdTuning.TallyMonotone | src/threshold-tuning.py:84-87 | a higher threshold gives no more fp and tp and no fewer fn |
| ThresholdTuning.ThresholdMonotone | src/threshold-tuning.py:76-103 | raising the threshold never raises false positives or recall and never lowers false negatives |
| ThresholdTuning.AnalyzeThresholds | src/threshold-tuning.py:64-109 | one result per threshold in the order 0.3 … 0.9, each `Evaluate` of that threshold; an error iff some threshold's unpack fails |
| ThresholdTuning.FirstMax | src/threshold-tuning.py:163-166 | Python `max(key=...)`: an entry with the largest key, every earlier entry strictly smaller |
| ThresholdTuning.ValidResults | src/threshold-tuning.py:158 | exactly the entries with precision ≥ the floor |
| ThresholdTuning.ValidPrefix | src/threshold-tuning.py:158 | filtering a prefix gives a prefix of the filtered list |
| ThresholdTuning.FindOptimalThreshold | src/threshold-tuning.py:153-175 | the choice is one of the results; if any meets the floor it does too and has the largest recall among them; otherwise it has the largest F1 |
| ThresholdTuning.OptimalIsEarliest | src/threshold-tuning.py:163-166 | ties go to the earliest entry: every earlier entry has a smaller key or, with a valid choice, is below the floor |
| ThresholdTuning.ValidEntryAt | src/threshold-tuning.py:158 | a valid entry sits in the filtered list right after the valid entries before it |
| ThresholdTuning.SourceIndexExists | src/threshold-tuning.py:158 | each filtered entry comes from a position with exactly that many valid entries before it |
| ThresholdTuning.SourceIndex | src/threshold-tuning.py:158 | that position |
| ThresholdTuning.RecommendationIff | src/threshold-tuning.py:194-222 | the recommendation is positive iff the chosen entry has precision ≥ 0.95 and recall > 0.7351 |
| OnlineValidation.Newest | src/online-validation.py:78-82 | a deque of capacity n keeps min(|s|, n) elements |
| OnlineValidation.Push | src/online-validation.py:168 | `deque(maxlen).append` keeps the newest `cap` of the old contents plus the new element |
| OnlineValidation.PushAll | src/online-validation.py:168 | repeated appends never exceed the capacity |
| OnlineValidation.NewestOfNewest | src/online-validation.py:78-82 | trimming before appending more and trimming again is one trim |
| OnlineValidation.PushAllKeepsNewest | src/online-validation.py:78-82 | after any appends the buffer holds exactly the `cap` most recent records in append order, oldest evicted first |
| OnlineValidation.SelectFeatureColumns | src/online-validation.py:104-105 | exactly the columns starting with 'V' or named Time or Amount, as a set |
| OnlineValidation.SelectFeatureColumnsAppend | src/online-validation.py:104-105 | the comprehension keeps header order: selecting from a + b is selecting from a, then from b |
| OnlineValidation.SelectFeatureColumnsSingle | src/online-validation.py:104-105 | one column is kept iff it is a feature column; with the append lemma this fixes the result's order and contents |
| OnlineValidation.SelectFeatureColumnsCount | src/online-validation.py:104-105 | every copy of every feature column is kept, and nothing else |
| OnlineValidation.ScoreTransaction | src/online-validation.py:122-181 | a record iff preprocessing succeeds and a 200 reply has a probability; class 1 iff probability > 0.5; unlabelled feedback, stamped now, with id `<model>_<millis>` and the scaled features as stored values |
| OnlineValidation.CountDue | src/online-validation.py:196-209 | the number of records due for feedback is at most the buffer size |
| OnlineValidation.RevealAll | src/online-validation.py:201-207 | each record is revealed in place, same length |
| OnlineValidation.NoneDueCountsZero | src/online-validation.py:201-207 | with no record due, nothing is counted |
| OnlineValidation.SecondCollectionIsEmpty | src/online-validation.py:196-209 | a second collection at the same instant counts 0 and changes nothing |
| OnlineValidation.RevealChangesOnlyDueFlags | src/online-validation.py:201-207 | only the flag changes, only on due records, and a flag is never cleared |
| OnlineValidation.Window | src/online-validation.py:242-248 | exactly the records of the model, with feedback, at or after the cutoff, and labelled |
| OnlineValidation.WindowCount | src/online-validation.py:242-248 | every copy of every such record is kept and no other, so the window's size is their number |
| OnlineValidation.Labels | src/online-validation.py:255 | one label per window record |
| OnlineValidation.Predictions | src/online-validation.py:256 | one prediction per window record |
| OnlineValidation.RecentFeatures | src/online-validation.py:274 | the non-empty feature lists of the window |
| OnlineValidation.RecentFeaturesCount | src/online-validation.py:274 | every non-empty feature list of the window is kept, as often as it occurs |
| OnlineValidation.RecentFeaturesAll | src/online-validation.py:274 | when every record has features, the drift rows are all of them, in order |
| OnlineValidation.Assess | src/online-validation.py:250-286 | None iff fewer than 10 samples; otherwise sample size is the window size, the matrix is the tally of the window's labels and predictions, precision/recall/F1 are those of that matrix, AUC is the given score when both classes occur and 0 otherwise, and drift is the drift score of the recent features |
| OnlineValidation.DriftTerms | src/online-validation.py:223-229 | the per-column terms are non-negative and there are none iff no column has a positive deviation |
| OnlineValidation.DriftScore | src/online-validation.py:211-231 | 0 with no rows or no baseline; NaN iff every deviation is ≤ 0; otherwise a non-negative mean |
| OnlineValidation.SumNonNegative | src/online-validation.py:231 | a sum of non-negative terms is non-negative |
| OnlineValidation.SumBounded | src/online-validation.py:231 | a sum of n terms each ≤ b is ≤ n·b |
| OnlineValidation.MeanBounded | src/online-validation.py:231 | a mean of terms each ≤ b is ≤ b |
| OnlineValidation.DriftTermsBounded | src/online-validation.py:223-229 | each term is ≤ ε when every column's scaled deviation is |
| OnlineValidation.ScaledDeviationsBounded | src/online-validation.py:228 | a mean within ε deviations gives a term ≤ ε |
| OnlineValidation.DriftWithinTolerance | src/online-validation.py:211-231 | when every recent mean lies within ε baseline deviations of the baseline mean, the drift score is a number ≤ ε |
| OnlineValidation.RaiseIf | src/online-validation.py:303-316 | one conditional alert in front of later-ranked ones keeps the fixed order |
| OnlineValidation.Alerts | src/online-validation.py:299-318 | each alert present iff its threshold is violated (AUC only when 0 < auc < 0.85, drift only when > 0.15), listed in the fixed order; empty iff every check passes |
| OnlineValidation.CompareCycle | src/online-validation.py:457-473 | recall is as expected iff baseline recall is positive and the candidate's is ≥ 1.05 times it; precision is stable iff within ±5% relative; both changes are 0 on a zero baseline |
| OnlineValidation.OnlineValidator.constructor | src/online-validation.py:75-121 | empty buffer, empty histories for both models, feature columns and baseline statistics from the training split |
| OnlineValidation.OnlineValidator.SendTestTransaction | src/online-validation.py:122-181 | returns the scored record and appends it to the bounded buffer only on success; histories unchanged |
| OnlineValidation.OnlineValidator.ReceiveImmediately | src/online-validation.py:421-429 | the newest record's flag is set and nothing else changes |
| OnlineValidation.OnlineValidator.CollectDelayedFeedback | src/online-validation.py:196-209 | the buffer becomes every due record revealed, and the count is exactly the number of due records |
| OnlineValidation.OnlineValidator.ValidateModelPerformance | src/online-validation.py:237-297 | `Assess` of the model's window; on success the result is appended to that model's bounded history only; the buffer is unchanged |
| Replay.SampleCounts | scripts/replay_transactions.py:78-96 | a negative size and too few normal rows are errors; when sampling applies, fraud = min(size // 10, available fraud) and fraud + normal = size; otherwise the whole holdout, an empty one included |
| Replay.DemoSample | scripts/replay_transactions.py:475 | the script's 200-row sample holds 20 fraud and 180 normal rows |
| Replay.Route | scripts/replay_transactions.py:153-159 | buckets below 80 go to the baseline, the rest to the candidate |
| Replay.EightyTwentySplit | scripts/replay_transactions.py:153-159 | exactly 80 of the 100 buckets route to the baseline |
| Replay.PredictFraud | scripts/replay_transactions.py:179-182 | the candidate predicts fraud iff p > 0.9, any other variant iff p > 0.5 |
| Replay.ReplayPayload | scripts/replay_transactions.py:115-141 | one input `input_0` of shape [1, 30] holding the scaled row as one inner list |
| Replay.SendTransaction | scripts/replay_transactions.py:143-216 | success iff preprocessing succeeds and a 200 reply has a probability; the routed variant, its threshold and `correct` iff prediction = actual |
| Replay.BatchEnd | scripts/replay_transactions.py:238 | `min(start + size, n)`, past `start` while rows remain |
| Replay.Sent | scripts/replay_transactions.py:247-256 | the results of sending the first n rows, row k with id k |
| Replay.SendBatch | scripts/replay_transactions.py:237-258 | sending rows start…end-1 extends the results of the first `start` rows to those of the first `end` |
| Replay.ReplayBatches | scripts/replay_transactions.py:218-292 | every row is sent once with id = its global index; ceil(n/size) batches [start, min(start+size, n)); size 0 is an error and a negative size sends nothing |
| Replay.BatchCount | scripts/replay_transactions.py:237 | the loop runs ceil(n/size) times |
| Replay.Successes | scripts/replay_transactions.py:300 | successful results only; empty iff every result failed |
| Replay.SuccessesCount | scripts/replay_transactions.py:300 | every copy of every successful result is kept and nothing else |
| Replay.Actuals | scripts/replay_transactions.py:339 | `r.get("actual", False)` per successful result |
| Replay.Predictions | scripts/replay_transactions.py:340 | `r.get("prediction", False)` per successful result |
| Replay.CountCorrect | scripts/replay_transactions.py:308-310 | the correct count is at most the number of results |
| Replay.CorrectIsDiagonal | scripts/replay_transactions.py:308-311 | on results whose flag is prediction = actual, the correct count is the agreement count, tp + tn of the overall matrix |
| Replay.CountVariant | scripts/replay_transactions.py:315-317 | a variant's count is at most the number of results |
| Replay.OnlyVariant | scripts/replay_transactions.py:322-324 | successful results of that variant, as many as it counts |
| Replay.OnlyVariantCount | scripts/replay_transactions.py:322-324 | every copy of every successful result of the variant is kept and nothing else |
| Replay.AccuracyPercent | scripts/replay_transactions.py:311 | a percentage in [0, 100] that times the number of results is 100 × the correct count |
| Replay.SumProbabilityBounded | scripts/replay_transactions.py:328 | probabilities in [0, 1] sum to at most the number of results |
| Replay.MeanProbability | scripts/replay_transactions.py:328 | `np.mean`: times the length it is the sum of the probabilities; in [0, 1] when they are |
| Replay.Performance | scripts/replay_transactions.py:321-334 | a variant's transactions are its count of results, its accuracy the accuracy percentage and its mean fraud probability the mean of its own results, in [0, 1] |
| Replay.AnalyzeResults | scripts/replay_transactions.py:294-380 | `{}` iff no success; otherwise totals, per-variant usage counts, per-variant performance for exactly the variants seen, a matrix summing to the successes, zero-guarded metrics, and an error where the unpack fails |
| Replay.CountUsage | scripts/replay_transactions.py:314-317 | the `model_usage` dict holds exactly the variants seen, each with its count |
| Replay.CountVariantSnoc | scripts/replay_transactions.py:315-317 | counting a variant over one more result |
| Replay.UsageAddsUp | scripts/replay_transactions.py:314-317 | when every result came from one of the two variants, their counts sum to the number of results |
| Replay.ReplayedVariants | scripts/replay_transactions.py:153-159 | the successes of a replay come from the two variants, so usage adds up to the successes |
| Simulate.AbsValue | scripts/simulate-fraud-traffic.py:29 | `abs`: non-negative and ± the input |
| Simulate.LegitimateFeatures | scripts/simulate-fraud-traffic.py:26-42 | 30 features [time, amount, 28 PCA]; amount in [0, 500]: the drawn amount when it is within the cap, the fallback draw otherwise |
| Simulate.FraudFeatures | scripts/simulate-fraud-traffic.py:44-65 | 30 features: time = hour·3600 + offset (a night time), the drawn amount, the 28 drawn PCA values |
| Simulate.TransactionGenerator.constructor | scripts/simulate-fraud-traffic.py:22-24 | the id counter starts at 0 |
| Simulate.TransactionGenerator.GenerateTransaction | scripts/simulate-fraud-traffic.py:67-81 | the id increases by exactly 1; fraud iff the roll is below the fraud rate; 30 features of the matching kind |
| Simulate.TransactionGenerator.GenerateMany | scripts/simulate-fraud-traffic.py:160-162 | n transactions with consecutive ids after the counter, fraud iff the draw's roll is below the rate, each with exactly the fraud or legitimate features of its own draw |
| Simulate.SendPredictionRequest | scripts/simulate-fraud-traffic.py:95-138 | success iff a 200 reply has a probability; `predicted_fraud` iff p > 0.5; `correct` iff it equals the label |
| Simulate.SuccessesOf | scripts/simulate-fraud-traffic.py:175-177 | only the model's successful results, each one of the outcomes |
| Simulate.SuccessesOfCount | scripts/simulate-fraud-traffic.py:172-177 | every success of the model is kept as often as it occurs, and nothing else |
| Simulate.CollectResults | scripts/simulate-fraud-traffic.py:172-177 | each list is `SuccessesOf` its model (each success kept exactly once, by `SuccessesOfCount`) and errors are dropped; the lists together hold every success |
| Simulate.CountSuccesses | scripts/simulate-fraud-traffic.py:175 | at most the number of outcomes |
| Simulate.ActualLabels | scripts/simulate-fraud-traffic.py:212-215 | one label per result |
| Simulate.PredictedLabels | scripts/simulate-fraud-traffic.py:212-215 | one prediction per result |
| Simulate.CountCorrect | scripts/simulate-fraud-traffic.py:218 | at most the number of results |
| Simulate.AnalyzeModel | scripts/simulate-fraud-traffic.py:206-224 | tp+fp+tn+fn = total = the results; correct = tp+tn; accuracy = correct / total, which is the matrix's accuracy; precision, recall and F1 are the matrix's, zero-guarded and in [0,1] |
| Simulate.CorrectIsAgreement | scripts/simulate-fraud-traffic.py:218 | the `correct` flags count the label/prediction agreements |
| Simulate.ComparisonRecall | scripts/simulate-fraud-traffic.py:268-269 | tp / max(1, #fraud) is the zero-guarded recall |
| Simulate.RecommendPromotion | scripts/simulate-fraud-traffic.py:261-283 | a recommendation iff both models have results; promote iff baseline recall is positive and the candidate's is ≥ 1.05 times it |
| Production.Threshold | scripts/validate-production-pipeline.py:28-31 | 0.5 for the baseline, 0.9 for the candidate, 0.5 for any other name |
| Production.ConfidenceOf | scripts/validate-production-pipeline.py:157 | HIGH iff p > 0.9, MEDIUM iff 0.5 < p ≤ 0.9, LOW otherwise |
| Production.PreprocessTransaction | scripts/validate-production-pipeline.py:66-91 | RuntimeError when uninitialised; a ValueError iff some column is missing, naming the first missing column in column order; otherwise the scaled row |
| Production.PredictFraud | scripts/validate-production-pipeline.py:93-182 | a prediction iff preprocessing and the reply succeed; `is_fraud` iff p > the model's threshold; HIGH RISK iff `is_fraud`; confidence from p alone |
| Production.AbTestPrediction | scripts/validate-production-pipeline.py:184-232 | both predictions; `both_agree` compares `is_fraud` defaulting to False, so two errors agree; the difference defaults missing probabilities to 0 |
| Production.ThresholdsDisagree | scripts/validate-production-pipeline.py:153-157 | any 0.5 < p ≤ 0.9 is fraud for the baseline, not for the candidate, with MEDIUM confidence |
| Production.CorrectCount | scripts/validate-production-pipeline.py:319-326 | the correct count is at most the number of results |
| Production.AccuracySummary | scripts/validate-production-pipeline.py:319-329 | both accuracies are the correct counts over the results, in [0,1]; a KeyError when a result lacks `is_fraud`; no results divide by zero |
| Production.CorrectCountSnoc | scripts/validate-production-pipeline.py:322-326 | the count over one more result |
| V2Format.CreateV2Payload | scripts/test-v2-format-working.py:16-31 | an assertion error unless exactly 30 features; otherwise the FP32 `fraud_features` request of shape [1, 30] with the features unchanged and the given content type |
| V2Format.VariedFeatures | scripts/test-v2-format-working.py:173-176 | request i has time 12345 + 100·i and amount 150.50 + 10·i, then the 28 draws |
| V2Format.CreateSampleTransaction | scripts/test-v2-format-working.py:33-43 | 30 features starting 12345.0, 150.50, accepted by the payload builder |
| V2Format.Answered | scripts/test-v2-format-working.py:186-190 | the number of replies carrying a probability is at most the number of replies |
| V2Format.Predictions | scripts/test-v2-format-working.py:186-190 | one prediction per reply carrying a probability, each that reply's probability |
| V2Format.CountBelow | scripts/test-v2-format-working.py:214 | at most the number of predictions |
| V2Format.CountAtLeast | scripts/test-v2-format-working.py:215 | at most the number of predictions |
| V2Format.ScoreBandsSplit | scripts/test-v2-format-working.py:214-215 | low (< 0.1) plus high (≥ 0.1) scores are all the predictions |
| V2Format.TrafficDistribution | scripts/test-v2-format-working.py:156-203 | every request is counted once: predictions + errors = requests, errors = the replies without a probability; request i carries the varied features |
| ModelConfig.ValidateS3Uri | scripts/update-model-config.py:53-61 | valid iff it starts with `s3://` and splits into ≥ 4 parts on '/', i.e. has a '/' after the scheme; the prefix message comes first |
| ModelConfig.TrailingSlashAccepted | scripts/update-model-config.py:58 | `s3://bucket/` passes |
| ModelConfig.BareBucketRejected | scripts/update-model-config.py:58-59 | `s3://bucket` fails with the path message |
| ModelConfig.OtherSchemeRejected | scripts/update-model-config.py:55-56 | another scheme fails with the prefix message |
| ModelConfig.TrainedUriIsValid | scripts/update-model-config.py:53-61 | every URI the training script prints passes the check |
| ModelConfig.WrittenKeys | scripts/update-model-config.py:28-38 | both split keys always, each URI key iff its URI is given |
| ModelConfig.UpdatedData | scripts/update-model-config.py:28-38 | the given URIs and both split strings are set; every other key is unchanged |
| ModelConfig.UpdateIdempotent | scripts/update-model-config.py:28-38 | applying the same update twice equals applying it once |
| ModelConfig.SplitsReadBack | scripts/update-model-config.py:37-38 | the written split strings parse back to the weights |
| ModelConfig.ConfigFile.constructor | scripts/update-model-config.py:15-25 | the file as found on disk |
| ModelConfig.ConfigFile.UpdateModelConfig | scripts/update-model-config.py:15-50 | a missing file or one without data writes nothing and fails; otherwise the data becomes `UpdatedData`, a sum other than 100 only warns, and it succeeds |
| ModelConfig.ConfigFile.Run | scripts/update-model-config.py:108-144 | exit 1 on the first failed check; a dry run exits 0 and writes nothing; otherwise the update runs and its result decides the code |
| ModelConfig.CheckArgs | scripts/update-model-config.py:108-123 | checks in order: v1 URI, v2 URI, sum = 100, non-negative weights |
| ModelConfig.AcceptedArgsWriteWithoutWarning | scripts/update-model-config.py:42-43 | weights that pass `main` lie in [0,100] and add up to 100, so the update never warns |
| ModelConfig.NegativeWeightIsCheckedLast | scripts/update-model-config.py:108-123 | 150/-50 fails on the sign check, and a bad URI is reported before it |
| Deploy.Quoted | scripts/deploy-ab-test.py:40-41 | the text between two double quotes |
| Deploy.Substitute | scripts/deploy-ab-test.py:34-46 | text without a double quote, or without either quoted placeholder, comes back unchanged |
| Deploy.UnquotedPlaceholderUntouched | scripts/deploy-ab-test.py:40 | an unquoted placeholder is not replaced |
| Deploy.SkipQuote | scripts/deploy-ab-test.py:40-41 | a quote not followed by `{` starts no placeholder |
| Deploy.V1PassKeepsV2 | scripts/deploy-ab-test.py:40 | the V1 pass leaves the quoted V2 placeholder alone |
| Deploy.FirstPassTail | scripts/deploy-ab-test.py:40 | past the V1 placeholder the V1 pass changes nothing |
| Deploy.FirstPass | scripts/deploy-ab-test.py:40 | the V1 pass puts the quoted V1 URI in the V1 placeholder's place |
| Deploy.SecondPass | scripts/deploy-ab-test.py:41 | the V2 pass puts the quoted V2 URI in the V2 placeholder's place |
| Deploy.PlainTemplateSubstitution | scripts/deploy-ab-test.py:34-46 | a plain template with one quoted placeholder of each kind gets exactly the two quoted URIs in their places |
| Deploy.SequentialRewrite | scripts/deploy-ab-test.py:40-41 | a V1 URI spelling the V2 placeholder is rewritten by the second pass |
| Deploy.SharedQuoteSurvives | scripts/deploy-ab-test.py:40-41 | a quoted placeholder can remain although neither URI holds placeholder text |
| Deploy.SharedFirstPass | scripts/deploy-ab-test.py:40 | the V1 pass on that template |
| Deploy.SharedSecondPass | scripts/deploy-ab-test.py:41 | the V2 pass on that template |
| Deploy.DeployAbTest | scripts/deploy-ab-test.py:48-72 | exit 1 with no output iff either URI is missing or empty; otherwise exit 0 with the substituted text |
| ServingMock.CheckBody | tests/test_serving.py:369-400 | a body passes iff its first input carries a data list that is well formed (numeric first element, a shape matching the data when one is given); an empty `inputs` list crashes on `[0]` |
| ServingMock.Post | tests/test_serving.py:360-426 | no status unless the path contains `/infer`; only 200, 400 or 404; "invalid json" gets 400; a non-empty body failing the checks gets 400, an empty inputs list raises; 404 only for `nonexistent-model`; 200 only for other models and a body that passes the checks, with one prediction in [0,1) per row of the batch, and every passing body with a non-empty shape gets that 200 |
| ServingMock.InferPathIsInfer | tests/test_serving.py:364 | the infer path is recognised |
| ServingMock.InferPathNamesNoMissingModel | tests/test_serving.py:403 | the regular infer path does not name the missing model |
| ServingMock.MissingModelPathIsInfer | tests/test_serving.py:364 | the missing model's infer path is recognised |
| ServingMock.MissingModelPathNamesMissingModel | tests/test_serving.py:403 | and names the missing model |
| ServingMock.ValidationPrecedesLookup | tests/test_serving.py:369-405 | a malformed request to the missing model gets 400, a valid one 404 |
| ServingMock.UnshapedNumericAccepted | tests/test_serving.py:390-415 | without a shape any non-empty numeric data list gets 200 and one prediction |
| ServingMock.ShapeChecks | tests/test_serving.py:391-400 | a 30-value row with shape [1, 30] passes; shape [1, 20] does not |
| ServingMock.Get | tests/test_serving.py:335-358 | always 200; the model list names both models; metadata exactly for other paths under `/v2/models/` that do not end in `/infer` |
| ServingMock.ModelPrefixSlashes | tests/test_serving.py:350-351 | the model-metadata prefix holds three slashes |
| ServingMock.ModelPathSplit | tests/test_serving.py:351 | `/v2/models/<name>` splits into ["", "v2", "models", name] |
| ServingMock.MetadataNamesModel | tests/test_serving.py:350-356 | the metadata for `/v2/models/<name>` names that model whenever the path does not end with `/infer` |
| GitopsChecks.Lines | tests/test_gitops_integration.py:324-335 | `content.lower().split('\n')`: one line per newline of the content, plus one |
| GitopsChecks.LinesAreLower | tests/test_gitops_integration.py:324-337 | every line is already lowercase, so the per-line `.lower()` changes nothing |
| GitopsChecks.NamesIgnoreStrip | tests/test_gitops_integration.py:348-356 | stripping a line changes neither test for `secretkeyref:` nor for `valuefrom:` |
| GitopsChecks.FirstFlaggedLine | tests/test_gitops_integration.py:336-366 | the first line from i on that is flagged, none before it |
| GitopsChecks.PatternHitIsFirstReported | tests/test_gitops_integration.py:326-366 | a pattern's hit is its first reported line; no hit means no reported line |
| GitopsChecks.PreCheckHidesNothing | tests/test_gitops_integration.py:326-338 | the whole-text pre-check never hides a line: a line is reported iff it is flagged |
| GitopsChecks.FirstFinding | tests/test_gitops_integration.py:326-366 | the first pattern, in list order, with a hit, and that hit |
| GitopsChecks.FindingIsFirstReported | tests/test_gitops_integration.py:326-366 | the finding is the first reported (pattern, line) pair, or nothing is reported |
| GitopsChecks.RefFollows | tests/test_gitops_integration.py:355-358 | some line in [j+1, min(n, j+5)) mentions `secretkeyref:` |
| GitopsChecks.SecretRefContext | tests/test_gitops_integration.py:345-359 | the look-back over lines max(0, i-5) … i-1 with its early exits |
| GitopsChecks.FirstReportedLine | tests/test_gitops_integration.py:336-366 | the line loop returns the first flagged line |
| GitopsChecks.ScanForHardcodedSecrets | tests/test_gitops_integration.py:320-366 | the test's finding on one file is `FirstFinding` of its lowercased text |
| GitopsChecks.ReferencedSecretNotReported | tests/test_gitops_integration.py:347-351 | a line right below a `secretkeyref:` line is never reported |
| GitopsChecks.RefJustAbove | tests/test_gitops_integration.py:347-351 | such a line is in a secret-reference context |
| GitopsChecks.RefJustAboveFrom | tests/test_gitops_integration.py:347-359 | the look-back reaches the line just above |
| GitopsChecks.RefAheadReaches | tests/test_gitops_integration.py:355-357 | the look-ahead finds a reference in its range |
| GitopsChecks.FirstSuspiciousEnv | tests/test_gitops_integration.py:269-279 | None iff no env value is suspicious; otherwise the first suspicious variable of the first job whose env block has one, jobs and variables in order |
| GitopsChecks.FirstSuspiciousVar | tests/test_gitops_integration.py:274-279 | None iff no value is suspicious; otherwise a suspicious variable with no suspicious one before it |
| GitopsChecks.AllowedEnvValues | tests/test_gitops_integration.py:275-278 | values mentioning secret, http, https, localhost or fraud-detection are never flagged |
| GitopsChecks.FirstMissing | tests/test_gitops_integration.py:133-136 | the first required name absent from the extracted names; None iff all are present |
| GitopsChecks.MoreNamesStillPass | tests/test_gitops_integration.py:163-164 | extracting more names never makes a passing check fail |
| GitopsChecks.OnlyTheSetMatters | tests/test_gitops_integration.py:178-179 | the check depends on the names only as a set |
| GitopsChecks.CanaryMetrics | tests/test_gitops_integration.py:211-215 | the canary check passes iff its three metrics are among the names |
| InfraChecks.RefTestSubsumed | tests/test_infrastructure.py:226-228 | the separate `secretkeyref` test adds nothing to the marker test |
| InfraChecks.ReferenceKeyLineReported | tests/test_infrastructure.py:226-228 | the `key:` line of a secretKeyRef block is reported by the one-line rule |
| InfraChecks.FirstHardcoded | tests/test_infrastructure.py:225-229 | the first line from i on that is hard-coded for the pattern, none before it |
| InfraChecks.SecretHit | tests/test_infrastructure.py:221-229 | a pattern's hit is a hard-coded line for it |
| InfraChecks.FirstSecret | tests/test_infrastructure.py:221-229 | the first pattern, in list order, with a hit |
| InfraChecks.ScanFile | tests/test_infrastructure.py:217-229 | the report is the stripped line of the first hit, patterns in list order; a reported line is hard-coded for some pattern; a file passes iff none of its lines is |
| InfraChecks.FirstFailing | tests/test_infrastructure.py:217 | the first failing report with its position; None iff none fails |
| InfraChecks.SecretManagement | tests/test_infrastructure.py:203-229 | passes iff every file is clean; otherwise names the first failing file and its reported line |
| InfraChecks.In | tests/test_infrastructure.py:56-59 | Python `in` on a dict, list or string, and None where it raises |
| InfraChecks.Index | tests/test_infrastructure.py:57-59 | `node[key]` defined only on a dict with the key |
| InfraChecks.Greater | tests/test_infrastructure.py:99 | `a > b` on two numbers or two strings; None where Python raises |
| InfraChecks.StringLess | tests/test_infrastructure.py:354 | the empty string is below every other string and nothing is below it |
| InfraChecks.StringLessIsLexicographic | tests/test_infrastructure.py:354 | Python's string `<`: after a common prefix, the first string ends first or its first differing code point is smaller |
| InfraChecks.OfKind | tests/test_infrastructure.py:52 | the documents of the kinds, or None when a document is not a dict |
| InfraChecks.OfKindCons | tests/test_infrastructure.py:52 | the filter one document at a time |
| InfraChecks.ModelCheck | tests/test_infrastructure.py:47-63 | passes iff at least 2 Model documents each have `metadata.name` and `spec.storageUri` (and tensorflow among any requirements) |
| InfraChecks.ModelDocIsModel | tests/test_infrastructure.py:52-63 | a written Model document passes the per-model checks |
| InfraChecks.TwoModelsPass | tests/test_infrastructure.py:52-59 | two well-formed Model documents pass; one alone fails |
| InfraChecks.WeightSum | tests/test_infrastructure.py:82 | the sum of the weights, defined iff every candidate has a numeric `weight` (Python raises otherwise) |
| InfraChecks.ExperimentCheck | tests/test_infrastructure.py:65-83 | passes iff exactly one Experiment with default and candidates, exactly 2 candidates, weights summing to 100 |
| InfraChecks.TwoCandidatesPass | tests/test_infrastructure.py:78-83 | two weighted candidates pass iff the weights add up to 100 |
| InfraChecks.ThreeCandidatesFail | tests/test_infrastructure.py:79 | a third candidate fails whatever the weights |
| InfraChecks.ServerCheck | tests/test_infrastructure.py:85-99 | passes iff every Server has spec, serverConfig, models, and positive replicas when given |
| InfraChecks.ReplicasMustBePositive | tests/test_infrastructure.py:98-99 | a numeric replica count passes iff positive; no replica count passes |
| InfraChecks.QuotedReplicasFail | tests/test_infrastructure.py:99 | a replica count given as a string fails |
| InfraChecks.Members | tests/test_infrastructure.py:250-252 | Python `for x in node`, None where it raises |
| InfraChecks.RbacCheck | tests/test_infrastructure.py:231-255 | skipped iff the file is absent; passes iff every Role/ClusterRole has rules and every wildcard-resource rule has verbs without '*' |
| InfraChecks.WildcardResourceNeedsNamedVerbs | tests/test_infrastructure.py:250-252 | a rule over '*' passes iff it lists verbs and none is '*' |
| InfraChecks.NamedResourcesPass | tests/test_infrastructure.py:250 | a rule over named resources passes whatever its verbs |
| InfraChecks.HpaCheck | tests/test_infrastructure.py:339-357 | skipped iff the file is absent; passes iff every autoscaler has its keys and max > min |
| InfraChecks.MaxAboveMin | tests/test_infrastructure.py:354 | with numeric bounds an autoscaler passes iff maxReplicas > minReplicas |
| Text.StripKeepsPattern | tests/test_gitops_integration.py:348 | stripping never changes whether a pattern that starts and ends with non-blanks occurs |
| Text.SplitJoin | tests/test_serving.py:351 | `split` inverts `join` on pieces without the separator |
| Text.IntToStringRoundTrip | scripts/update-model-config.py:37-38 | `str(int)` parses back to the integer |

## Left out

- HTTP, Kubernetes, kubectl/argo, MLflow and Prometheus calls: replies are inputs (status, JSON body or exception). `verify_models_deployed`, `get_latest_model_s3_uri` and the metrics pusher are not part of this model.
- Model training and scoring (TensorFlow/Keras, Phases 2-3 of the offline validation, `src/baseline.py`, `src/candidate.py`, `tests/test_models.py`): the predictions and probabilities are inputs.
- sklearn internals: `roc_auc_score` and `precision_recall_curve` are given values; `StandardScaler` is given its fitted means and deviations (fitting needs a square root).
- Floating point: all arithmetic is exact `real`, so results exactly at a boundary (0.85, 0.7351, 0.1) may differ from Python's binary floats.
- Randomness: pandas `.sample`, `np.random` and `random` draws are parameters (the chosen indices, the draws, the roll); the 80/20 pick of the production script is the roll `< 0.8`.
- Python's `hash()`: the routing bucket is an input in [0, 100), since the hash varies from process to process.
- Concurrency: the thread-pool blocks collect results in completion order; the models take them as a given sequence.
- Time: `datetime.now()`, `time.time()` and sleeps are integer parameters; the continuous-validation loop is not part of this model.
- File and YAML I/O, logging and printing: alerts are kinds rather than formatted strings; YAML documents are given already parsed as `InfraChecks.Node` values, without booleans or floats; comparing two lists is treated as failing.
- File discovery: the lists of YAML files and workflow files are given.
- The final shuffle of the dataset and of the replay sample: the splits are filters, so only which rows they hold matters.
- Deploy.Substitute: "no quoted placeholder remains when neither URI contains placeholder text" does not hold for every template; `SharedQuoteSurvives` exhibits one. The positive property is proved for templates of the plain form (`PlainTemplateSubstitution`).
- Text.Lower: case folding covers the ASCII letters only; Python's `str.lower` also maps non-ASCII letters (U+212A to 'k', U+0130 to two characters).
- Replay.Performance: `avg_inference_time_ms` is left out, since inference times are clock readings.
- Labels are `bool`: sklearn's behaviour on labels other than 0/1 is not modelled.
- The production script's `create_sample_transactions` and the context-file tests of the GitOps suite (file existence, executability, connectivity) are not part of this model.
- Configuration writers and diagrams (`scripts/setup-monitoring.py`, `scripts/deploy-extended-ab-test.py`, the diagram files) hold no decision logic.
- The serving test `test_missing_required_fields` expects 400 for a body without a shape; the mock answers 200, and the model follows the mock.
