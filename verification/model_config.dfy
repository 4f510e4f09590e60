/**
 * The GitOps model-configuration updater: the S3 URI format check, the
 * in-place update of the ConfigMap's `data` mapping, and the order in which
 * the command line is validated before anything is written.
 */
module ModelConfig {
  import opened Wrappers
  import opened Text
  import TrainModel

  const V1_URI_KEY: string := "fraud-v1-storage-uri"
  const V2_URI_KEY: string := "fraud-v2-storage-uri"
  const BASELINE_SPLIT_KEY: string := "traffic-split-baseline"
  const CANDIDATE_SPLIT_KEY: string := "traffic-split-candidate"
  const S3_SCHEME: string := "s3://"
  const SCHEME_MESSAGE: string := "URI must start with 's3://'"
  const PATH_MESSAGE: string := "URI must include bucket and path: s3://bucket/path/"
  const VALID_MESSAGE: string := "Valid S3 URI format"

  // ---------------------------------------------------------------- URI check

  /**
   * `validate_s3_uri`: the scheme is checked first; then `uri.split('/')`
   * must give at least four pieces, which after "s3://" means one more '/'.
   */
  function ValidateS3Uri(uri: string): (r: (bool, string))
    ensures r.0 <==> StartsWith(uri, S3_SCHEME) && |Split(uri, '/')| >= 4
    ensures r.0 <==> StartsWith(uri, S3_SCHEME) && '/' in uri[|S3_SCHEME|..]
    ensures !StartsWith(uri, S3_SCHEME) ==> r.1 == SCHEME_MESSAGE
    ensures StartsWith(uri, S3_SCHEME) && !r.0 ==> r.1 == PATH_MESSAGE
    ensures r.0 ==> r.1 == VALID_MESSAGE
  {
    if !StartsWith(uri, S3_SCHEME) then (false, SCHEME_MESSAGE)
    else
      assert uri == S3_SCHEME + uri[5..];
      CountCharAppend(S3_SCHEME, uri[5..], '/');
      assert CountChar(S3_SCHEME, '/') == 2;
      if |Split(uri, '/')| < 4 then (false, PATH_MESSAGE)
      else (true, VALID_MESSAGE)
  }

  /** A bucket with a trailing slash passes; a bare bucket and another scheme do not. */
  lemma TrailingSlashAccepted()
    ensures ValidateS3Uri("s3://bucket/").0
  {
    var good := "s3://bucket/";
    assert good[..5] == S3_SCHEME && good[5..][6] == '/';
  }

  lemma BareBucketRejected()
    ensures ValidateS3Uri("s3://bucket") == (false, PATH_MESSAGE)
  {
    var bare := "s3://bucket";
    assert bare[..5] == S3_SCHEME;
    assert forall i :: 0 <= i < |bare[5..]| ==> bare[5..][i] != '/';
    assert '/' !in bare[5..];
    var r := ValidateS3Uri(bare);
    assert !r.0;
  }

  lemma OtherSchemeRejected()
    ensures ValidateS3Uri("http://bucket") == (false, SCHEME_MESSAGE)
  {
    var http := "http://bucket";
    assert http[..5][1] != S3_SCHEME[1];
  }

  /** Every URI the training script prints for deployment passes the check. */
  lemma TrainedUriIsValid(bucket: string, experimentId: string, runId: string, artifactPath: string)
    ensures ValidateS3Uri(TrainModel.S3Uri(bucket, experimentId, runId, artifactPath)).0
  {
    var u := TrainModel.S3Uri(bucket, experimentId, runId, artifactPath);
    assert |Split(u, '/')| >= 7;
  }

  // ---------------------------------------------------------------- config update

  /** The keys an update writes: both traffic splits, and each URI that is given. */
  function WrittenKeys(v1: Option<string>, v2: Option<string>): (keys: set<string>)
    ensures BASELINE_SPLIT_KEY in keys && CANDIDATE_SPLIT_KEY in keys
    ensures V1_URI_KEY in keys <==> Truthy(v1)
    ensures V2_URI_KEY in keys <==> Truthy(v2)
  {
    {BASELINE_SPLIT_KEY, CANDIDATE_SPLIT_KEY}
    + (if Truthy(v1) then {V1_URI_KEY} else {})
    + (if Truthy(v2) then {V2_URI_KEY} else {})
  }

  /** The `data` mapping after `update_model_config`'s assignments. */
  function UpdatedData(data: map<string, string>, v1: Option<string>, v2: Option<string>,
                       baselineWeight: int, candidateWeight: int): (r: map<string, string>)
    ensures r.Keys == data.Keys + WrittenKeys(v1, v2)
    ensures forall k :: k in data && k !in WrittenKeys(v1, v2) ==> r[k] == data[k]
    ensures Truthy(v1) ==> r[V1_URI_KEY] == v1.value
    ensures Truthy(v2) ==> r[V2_URI_KEY] == v2.value
    ensures r[BASELINE_SPLIT_KEY] == IntToString(baselineWeight)
    ensures r[CANDIDATE_SPLIT_KEY] == IntToString(candidateWeight)
  {
    var d1 := if Truthy(v1) then data[V1_URI_KEY := v1.value] else data;
    var d2 := if Truthy(v2) then d1[V2_URI_KEY := v2.value] else d1;
    d2[BASELINE_SPLIT_KEY := IntToString(baselineWeight)][CANDIDATE_SPLIT_KEY := IntToString(candidateWeight)]
  }

  /** Applying the same update twice leaves the mapping as one update does. */
  lemma UpdateIdempotent(data: map<string, string>, v1: Option<string>, v2: Option<string>, b: int, c: int)
    ensures UpdatedData(UpdatedData(data, v1, v2, b, c), v1, v2, b, c) == UpdatedData(data, v1, v2, b, c)
  {
    var once := UpdatedData(data, v1, v2, b, c);
    var twice := UpdatedData(once, v1, v2, b, c);
    assert forall k :: k in twice ==> twice[k] == once[k];
  }

  /** The written traffic-split strings read back as the weights. */
  lemma SplitsReadBack(data: map<string, string>, v1: Option<string>, v2: Option<string>, b: int, c: int)
    ensures ParseInt(UpdatedData(data, v1, v2, b, c)[BASELINE_SPLIT_KEY]) == b
    ensures ParseInt(UpdatedData(data, v1, v2, b, c)[CANDIDATE_SPLIT_KEY]) == c
  {
    IntToStringRoundTrip(b);
    IntToStringRoundTrip(c);
  }

  datatype UpdateOutcome =
    | NotFound            // the file does not exist: False, nothing written
    | MissingData         // the document has no `data` mapping: KeyError before the write
    | Written(warned: bool)

  /** The configuration file on disk; `data` is its top-level `data` mapping, if any. */
  class ConfigFile {
    var present: bool
    var data: Option<map<string, string>>

    constructor (present: bool, data: Option<map<string, string>>)
      ensures this.present == present && this.data == data
    {
      this.present := present;
      this.data := data;
    }

    /**
     * `update_model_config`: sets the given URIs and both splits; a split
     * sum other than 100 only warns, and the file is still written.
     */
    method UpdateModelConfig(v1: Option<string>, v2: Option<string>, baselineWeight: int, candidateWeight: int)
      returns (outcome: UpdateOutcome)
      modifies this
      ensures !old(present) ==> outcome == NotFound && unchanged(this)
      ensures old(present) && old(data).None? ==> outcome == MissingData && unchanged(this)
      ensures old(present) && old(data).Some? ==>
                outcome == Written(baselineWeight + candidateWeight != 100)
                && present
                && data == Some(UpdatedData(old(data).value, v1, v2, baselineWeight, candidateWeight))
    {
      if !present {
        return NotFound;
      }
      if data.None? {
        return MissingData;
      }
      var d := data.value;
      if Truthy(v1) {
        d := d[V1_URI_KEY := v1.value];
      }
      if Truthy(v2) {
        d := d[V2_URI_KEY := v2.value];
      }
      d := d[BASELINE_SPLIT_KEY := IntToString(baselineWeight)];
      d := d[CANDIDATE_SPLIT_KEY := IntToString(candidateWeight)];
      data := Some(d);
      outcome := Written(baselineWeight + candidateWeight != 100);
    }

    /**
     * `main` after argument parsing: exit status 1 on the first failed
     * check, 0 on a dry run, otherwise the update's success. The uncaught
     * KeyError also ends the interpreter with status 1.
     */
    method Run(args: CliArgs) returns (code: int)
      modifies this
      ensures CheckArgs(args).Some? ==> code == 1 && unchanged(this)
      ensures CheckArgs(args).None? && args.dryRun ==> code == 0 && unchanged(this)
      ensures CheckArgs(args).None? && !args.dryRun ==>
                (code == 0 <==> old(present) && old(data).Some?)
                && (code == 0 ==> data == Some(UpdatedData(old(data).value, args.v1, args.v2,
                                                          args.baselineWeight, args.candidateWeight)))
                && (code != 0 ==> code == 1 && unchanged(this))
    {
      if CheckArgs(args).Some? {
        return 1;
      }
      if args.dryRun {
        return 0;
      }
      var outcome := UpdateModelConfig(args.v1, args.v2, args.baselineWeight, args.candidateWeight);
      code := if outcome.Written? then 0 else 1;
    }
  }

  // ---------------------------------------------------------------- command line

  datatype CliArgs = CliArgs(v1: Option<string>, v2: Option<string>,
                             baselineWeight: int, candidateWeight: int, dryRun: bool)

  datatype ArgsError =
    | InvalidUri(name: string, message: string)
    | WeightsDoNotSum(total: int)
    | NegativeWeight

  /** A URI argument passes when it is absent, empty, or valid. */
  predicate UriAccepted(uri: Option<string>) {
    !Truthy(uri) || ValidateS3Uri(uri.value).0
  }

  /** `main`'s checks in order: v1 URI, v2 URI, the sum of 100, then the signs. */
  function CheckArgs(args: CliArgs): (r: Option<ArgsError>)
    ensures r.None? <==> (UriAccepted(args.v1) && UriAccepted(args.v2)
                          && args.baselineWeight + args.candidateWeight == 100
                          && args.baselineWeight >= 0 && args.candidateWeight >= 0)
    ensures !UriAccepted(args.v1) ==> r == Some(InvalidUri("v1-uri", ValidateS3Uri(args.v1.value).1))
    ensures UriAccepted(args.v1) && !UriAccepted(args.v2) ==>
              r == Some(InvalidUri("v2-uri", ValidateS3Uri(args.v2.value).1))
    ensures r.Some? && r.value.WeightsDoNotSum? ==> r.value.total != 100
    ensures r == Some(NegativeWeight) ==> args.baselineWeight + args.candidateWeight == 100
  {
    if !UriAccepted(args.v1) then Some(InvalidUri("v1-uri", ValidateS3Uri(args.v1.value).1))
    else if !UriAccepted(args.v2) then Some(InvalidUri("v2-uri", ValidateS3Uri(args.v2.value).1))
    else if args.baselineWeight + args.candidateWeight != 100 then
      Some(WeightsDoNotSum(args.baselineWeight + args.candidateWeight))
    else if args.baselineWeight < 0 || args.candidateWeight < 0 then Some(NegativeWeight)
    else None
  }

  /** An accepted command line never makes the update warn about the split. */
  lemma AcceptedArgsWriteWithoutWarning(args: CliArgs)
    requires CheckArgs(args).None?
    ensures 0 <= args.baselineWeight <= 100 && args.candidateWeight == 100 - args.baselineWeight
  {
  }

  /** 150/-50 sums to 100, so it is the sign check that rejects it. */
  lemma NegativeWeightIsCheckedLast()
    ensures CheckArgs(CliArgs(None, None, 150, -50, false)) == Some(NegativeWeight)
    ensures CheckArgs(CliArgs(Some("bucket"), None, 150, -50, false)).value.InvalidUri?
  {
    assert "bucket"[..5][0] != S3_SCHEME[0];
  }
}
