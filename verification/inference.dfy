/**
 * What the clients share: the two deployed model names, the 30 input
 * features, the training scaler, the Open Inference (V2) request body and
 * the parts of an HTTP reply the clients read.
 */
module Inference {
  import opened Wrappers

  const BASELINE: string := "fraud-v1-baseline"
  const CANDIDATE: string := "fraud-v2-candidate"
  const FEATURE_COUNT: nat := 30

  // ---------------------------------------------------------------- scaler

  /** A fitted `StandardScaler`: per-column mean and standard deviation (fitting itself is not modelled). */
  datatype Scaler = Scaler(mean: seq<real>, std: seq<real>)

  predicate Fits(s: Scaler, n: nat) {
    |s.mean| == n && |s.std| == n
  }

  /** The divisor `StandardScaler` keeps for a column: a zero deviation is replaced by 1. */
  function ScaleOf(std: real): (d: real)
    ensures d != 0.0
    ensures std != 0.0 ==> d == std
  {
    if std == 0.0 then 1.0 else std
  }

  /** `scaler.transform` on one row: each value is undone by `z * scale + mean`. */
  function Transform(s: Scaler, xs: seq<real>): (zs: seq<real>)
    requires Fits(s, |xs|)
    ensures |zs| == |xs|
    ensures forall i :: 0 <= i < |xs| ==> zs[i] * ScaleOf(s.std[i]) + s.mean[i] == xs[i]
  {
    seq(|xs|, i requires 0 <= i < |xs| => (xs[i] - s.mean[i]) / ScaleOf(s.std[i]))
  }

  /** Index of the first column the transaction lacks. */
  function FirstMissing(columns: seq<string>, data: map<string, real>): (k: Option<nat>)
    ensures k.None? <==> forall i :: 0 <= i < |columns| ==> columns[i] in data
    ensures k.Some? ==> (k.value < |columns| && columns[k.value] !in data &&
                         forall j :: 0 <= j < k.value ==> columns[j] in data)
  {
    if columns == [] then None
    else if columns[0] !in data then Some(0)
    else match FirstMissing(columns[1..], data)
      case None => None
      case Some(k) => Some(k + 1)
  }

  /**
   * `_preprocess_transaction`: the features in training order, scaled;
   * a missing feature raises `ValueError` naming the first one missing.
   */
  function Preprocess(columns: seq<string>, s: Scaler, data: map<string, real>): (r: Result<seq<real>, string>)
    requires Fits(s, |columns|)
    ensures r.Err? <==> exists i :: 0 <= i < |columns| && columns[i] !in data
    ensures r.Err? ==> (exists i :: 0 <= i < |columns| && columns[i] == r.error && columns[i] !in data &&
                                    forall j :: 0 <= j < i ==> columns[j] in data)
    ensures r.Ok? ==> (|r.value| == |columns| &&
                       forall i :: 0 <= i < |columns| ==> r.value[i] * ScaleOf(s.std[i]) + s.mean[i] == data[columns[i]])
  {
    match FirstMissing(columns, data)
    case Some(k) => Err(columns[k])
    case None => Ok(Transform(s, seq(|columns|, i requires 0 <= i < |columns| => data[columns[i]])))
  }

  // ---------------------------------------------------------------- request and reply

  datatype TensorData = Flat(values: seq<real>) | Rows(rows: seq<seq<real>>)

  /** One entry of the request's `inputs` list. */
  datatype Tensor = Tensor(name: string, shape: seq<int>, dtype: string, data: TensorData)

  /** The request body: `parameters.content_type` and `inputs`. */
  datatype Request = Request(contentType: string, inputs: seq<Tensor>)

  /** The V2 request every client sends: one FP32 tensor `fraud_features` of shape [1, 30] holding the values as given. */
  function FraudFeaturesRequest(contentType: string, values: seq<real>): (req: Request)
    ensures req.contentType == contentType && |req.inputs| == 1
    ensures req.inputs[0].name == "fraud_features" && req.inputs[0].dtype == "FP32"
    ensures req.inputs[0].shape == [1, FEATURE_COUNT as int] && req.inputs[0].data == Flat(values)
  {
    Request(contentType, [Tensor("fraud_features", [1, FEATURE_COUNT as int], "FP32", Flat(values))])
  }

  /** The body of a reply: not JSON, or JSON with (possibly missing) `outputs[i].data` lists and `model_name`. */
  datatype Body = NotJson | Json(outputs: Option<seq<seq<real>>>, modelName: Option<string>)

  /** A reply, or the exception `requests.post` raised. */
  datatype Reply = Unreachable | Http(status: int, body: Body)

  /** `float(result["outputs"][0]["data"][0])`, or None where that expression raises. */
  function FirstOutput(b: Body): (p: Option<real>)
    ensures p.Some? <==> b.Json? && b.outputs.Some? && |b.outputs.value| > 0 && |b.outputs.value[0]| > 0
    ensures p.Some? ==> p.value == b.outputs.value[0][0]
  {
    if b.Json? && b.outputs.Some? && |b.outputs.value| > 0 && |b.outputs.value[0]| > 0
    then Some(b.outputs.value[0][0])
    else None
  }

  /** The probability a client reads from a reply: only a 200 reply whose body has one. */
  function Probability(reply: Reply): (p: Option<real>)
    ensures p.Some? ==> reply.Http? && reply.status == 200
    ensures reply.Http? && reply.status == 200 ==> p == FirstOutput(reply.body)
  {
    if reply.Http? && reply.status == 200 then FirstOutput(reply.body) else None
  }
}
