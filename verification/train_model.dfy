/**
 * The decision logic of the training script: which split a model trains
 * on, how its names are resolved from the environment, the command line
 * and defaults, where the model is saved, the S3 URI printed for
 * deployment, the exit code when data is missing, and the class weights.
 * The network itself, its fit and its evaluation are opaque and not
 * part of this model.
 */
module TrainModel {
  import opened Wrappers
  import opened Metrics
  import opened Text

  const SPLITS_DIR: string := "./data/splits"
  const TRAIN_V1_PATH: string := SPLITS_DIR + "/train_v1.csv"
  const TRAIN_V2_PATH: string := SPLITS_DIR + "/train_v2.csv"
  const HOLDOUT_PATH: string := SPLITS_DIR + "/holdout_test.csv"
  const DEFAULT_BUCKET: string := "mlflow-artifacts"
  const SAVE_PREFIX: string := "./models/fraud_"
  const SAVE_SUFFIX: string := ".keras"

  /** `get_training_data_path`: the 2023-only split for the baseline / v1, the 15-month split otherwise. */
  function TrainingDataPath(modelType: string, modelVersion: string): (p: string)
    ensures p == TRAIN_V1_PATH <==> modelType == "baseline" || modelVersion == "v1"
    ensures p == TRAIN_V2_PATH <==> !(modelType == "baseline" || modelVersion == "v1")
  {
    assert TRAIN_V1_PATH != TRAIN_V2_PATH by { assert TRAIN_V1_PATH[21] != TRAIN_V2_PATH[21]; }
    if modelType == "baseline" || modelVersion == "v1" then TRAIN_V1_PATH
    else if modelType == "candidate" || modelVersion == "v2" then TRAIN_V2_PATH
    else TRAIN_V2_PATH
  }

  /** The parsed command line: type and version have defaults, the three names may be absent. */
  datatype Args = Args(modelType: string, modelVersion: string, experimentName: Option<string>,
                       registryName: Option<string>, artifactPath: Option<string>)

  const DEFAULT_ARGS: Args := Args("baseline", "v1", None, None, None)

  datatype TrainingConfig = TrainingConfig(modelVersion: string, modelType: string, experimentName: string,
                                           registryName: string, artifactPath: string, bucket: string)

  /** `os.getenv(name, fallback)`: a variable that is set wins, even when empty. */
  function Getenv(env: map<string, string>, name: string, fallback: string): (v: string)
    ensures name in env ==> v == env[name]
    ensures name !in env ==> v == fallback
  {
    if name in env then env[name] else fallback
  }

  /** `value or fallback`: None and the empty string are falsy. */
  function OrElse(value: Option<string>, fallback: string): (v: string)
    ensures Truthy(value) ==> v == value.value
    ensures !Truthy(value) ==> v == fallback
  {
    if Truthy(value) then value.value else fallback
  }

  /** The names `main` works with; the derived defaults use the already resolved type and version. */
  function Resolve(env: map<string, string>, args: Args): (c: TrainingConfig)
    ensures c.modelVersion == Getenv(env, "MODEL_VERSION", args.modelVersion)
    ensures c.modelType == Getenv(env, "MODEL_TYPE", args.modelType)
    ensures "EXPERIMENT_NAME" in env ==> c.experimentName == env["EXPERIMENT_NAME"]
    ensures "EXPERIMENT_NAME" !in env && Truthy(args.experimentName) ==> c.experimentName == args.experimentName.value
    ensures "EXPERIMENT_NAME" !in env && !Truthy(args.experimentName) ==>
              c.experimentName == "fraud-detection-" + c.modelType
    ensures "MODEL_REGISTRY_NAME" in env ==> c.registryName == env["MODEL_REGISTRY_NAME"]
    ensures "MODEL_REGISTRY_NAME" !in env && Truthy(args.registryName) ==> c.registryName == args.registryName.value
    ensures "MODEL_REGISTRY_NAME" !in env && !Truthy(args.registryName) ==>
              c.registryName == "fraud-detection-" + c.modelVersion
    ensures "ARTIFACT_PATH" in env ==> c.artifactPath == env["ARTIFACT_PATH"]
    ensures "ARTIFACT_PATH" !in env && Truthy(args.artifactPath) ==> c.artifactPath == args.artifactPath.value
    ensures "ARTIFACT_PATH" !in env && !Truthy(args.artifactPath) ==>
              c.artifactPath == "fraud-" + c.modelVersion + "-" + c.modelType
    ensures "MLFLOW_S3_BUCKET" in env ==> c.bucket == env["MLFLOW_S3_BUCKET"]
    ensures "MLFLOW_S3_BUCKET" !in env ==> c.bucket == DEFAULT_BUCKET
  {
    var version := Getenv(env, "MODEL_VERSION", args.modelVersion);
    var kind := Getenv(env, "MODEL_TYPE", args.modelType);
    TrainingConfig(
      version, kind,
      Getenv(env, "EXPERIMENT_NAME", OrElse(args.experimentName, "fraud-detection-" + kind)),
      Getenv(env, "MODEL_REGISTRY_NAME", OrElse(args.registryName, "fraud-detection-" + version)),
      Getenv(env, "ARTIFACT_PATH", OrElse(args.artifactPath, "fraud-" + version + "-" + kind)),
      Getenv(env, "MLFLOW_S3_BUCKET", DEFAULT_BUCKET))
  }

  /** With no environment overrides and no flags the script trains the v1 baseline on the 2023 split. */
  lemma DefaultRunTrainsBaseline()
    ensures Resolve(map[], DEFAULT_ARGS)
            == TrainingConfig("v1", "baseline", "fraud-detection-baseline", "fraud-detection-v1",
                              "fraud-v1-baseline", "mlflow-artifacts")
    ensures TrainingDataPath("baseline", "v1") == TRAIN_V1_PATH
  {
  }

  /** An environment variable beats the command line: `MODEL_TYPE=candidate MODEL_VERSION=v2` trains on train_v2 whatever the flags say. */
  lemma EnvironmentSelectsSplit(env: map<string, string>, args: Args)
    requires "MODEL_TYPE" in env && "MODEL_VERSION" in env
    requires env["MODEL_TYPE"] == "candidate" && env["MODEL_VERSION"] == "v2"
    ensures var c := Resolve(env, args);
            TrainingDataPath(c.modelType, c.modelVersion) == TRAIN_V2_PATH
  {
  }

  /** `os.path.join("./models", f"fraud_{version}.keras")`; the version can be read back from the path. */
  function SavePath(version: string): (p: string)
    ensures StartsWith(p, SAVE_PREFIX) && EndsWith(p, SAVE_SUFFIX)
    ensures |p| == |SAVE_PREFIX| + |version| + |SAVE_SUFFIX|
    ensures p[|SAVE_PREFIX|..|p| - |SAVE_SUFFIX|] == version
  {
    var p := SAVE_PREFIX + version + SAVE_SUFFIX;
    assert p[..|SAVE_PREFIX|] == SAVE_PREFIX;
    assert p[|p| - |SAVE_SUFFIX|..] == SAVE_SUFFIX;
    p
  }

  /**
   * `s3://{bucket}/{experiment_id}/{run_id}/artifacts/{artifact_path}`,
   * written as the '/'-join of its pieces (the empty piece gives the `//`).
   */
  function S3Uri(bucket: string, experimentId: string, runId: string, artifactPath: string): (u: string)
    ensures StartsWith(u, "s3://")
    ensures CountChar(u, '/') >= 6
  {
    var parts := ["s3:", "", bucket, experimentId, runId, "artifacts", artifactPath];
    var u := Join(parts, '/');
    JoinSeparators(parts, '/');
    assert parts[1..][1..] == [bucket, experimentId, runId, "artifacts", artifactPath];
    assert u == "s3:" + "/" + ("" + "/" + Join(parts[1..][1..], '/'));
    assert u[..5] == "s3://";
    u
  }

  /** Splitting the URI on '/' gives back the bucket, ids and artifact path when none of them holds a '/'. */
  lemma S3UriParts(bucket: string, experimentId: string, runId: string, artifactPath: string)
    requires '/' !in bucket && '/' !in experimentId && '/' !in runId && '/' !in artifactPath
    ensures Split(S3Uri(bucket, experimentId, runId, artifactPath), '/')
            == ["s3:", "", bucket, experimentId, runId, "artifacts", artifactPath]
  {
    var parts := ["s3:", "", bucket, experimentId, runId, "artifacts", artifactPath];
    assert forall k :: 0 <= k < |parts| ==> '/' !in parts[k];
    JoinSplit(parts, '/');
  }

  /** `main`'s exit code before training: 1 when either data file is absent. */
  function DataCheckExitCode(config: TrainingConfig, existingFiles: set<string>): (code: Option<int>)
    ensures code == Some(1) <==>
              TrainingDataPath(config.modelType, config.modelVersion) !in existingFiles || HOLDOUT_PATH !in existingFiles
    ensures code.None? <==>
              TrainingDataPath(config.modelType, config.modelVersion) in existingFiles && HOLDOUT_PATH in existingFiles
  {
    if TrainingDataPath(config.modelType, config.modelVersion) !in existingFiles || HOLDOUT_PATH !in existingFiles
    then Some(1) else None
  }

  // ---------------------------------------------------------------- class weights

  /** `1 / neg` on a numpy integer 0 is infinity rather than an exception. */
  datatype Weight = Finite(value: real) | Infinite

  datatype ClassWeights = ClassWeights(forLegit: Weight, forFraud: real)

  datatype WeightError = NotEnoughValuesToUnpack

  /**
   * `neg, pos = np.bincount(y)` and `(1 / count) * (total / 2.0)`: the
   * unpack needs a fraud label (bincount's length is the largest label plus
   * one); each present class then weighs `total / 2` in total.
   */
  function ComputeClassWeights(labels: seq<bool>): (r: Result<ClassWeights, WeightError>)
    ensures r.Err? <==> CountTrue(labels) == 0
    ensures r.Ok? ==> r.value.forFraud * CountTrue(labels) as real == |labels| as real / 2.0
    ensures r.Ok? ==> (r.value.forLegit.Infinite? <==> CountTrue(labels) == |labels|)
    ensures r.Ok? && r.value.forLegit.Finite? ==>
              r.value.forLegit.value * (|labels| - CountTrue(labels)) as real == |labels| as real / 2.0
  {
    var pos := CountTrue(labels);
    var neg := |labels| - pos;
    var half := (neg + pos) as real / 2.0;
    if pos == 0 then Err(NotEnoughValuesToUnpack)
    else
      var w1 := (1.0 / pos as real) * half;
      var w0 := if neg == 0 then Infinite else Finite((1.0 / neg as real) * half);
      Ok(ClassWeights(w0, w1))
  }
}
