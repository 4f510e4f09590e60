/**
 * The V2 inference protocol test script: the payload builder that insists
 * on 30 features, the sample transaction, and the request loop that
 * counts predictions and errors over varied transactions. The seeded
 * normal draws and the replies are inputs.
 */
module V2Format {
  import opened Wrappers
  import opened Inference

  const SAMPLE_TIME: real := 12345.0
  const SAMPLE_AMOUNT: real := 150.50
  const LOW_SCORE: real := 0.1

  /** `create_v2_payload`: the assertion fails unless there are exactly 30 features. */
  function CreateV2Payload(features: seq<real>, contentType: string): (r: Result<Request, string>)
    ensures r.Ok? <==> |features| == FEATURE_COUNT
    ensures r.Ok? ==> r.value == FraudFeaturesRequest(contentType, features)
    ensures r.Ok? ==> r.value.inputs[0].data == Flat(features) && r.value.contentType == contentType
  {
    if |features| != FEATURE_COUNT then Err("Expected 30 features") else Ok(FraudFeaturesRequest(contentType, features))
  }

  /** The features of request i: time and amount vary with i, then the 28 PCA draws. */
  function VariedFeatures(i: nat, pca: seq<real>): (features: seq<real>)
    ensures |features| == 2 + |pca|
    ensures features[0] == SAMPLE_TIME + (i * 100) as real && features[1] == SAMPLE_AMOUNT + (i * 10) as real
    ensures features[2..] == pca
  {
    [SAMPLE_TIME + (i * 100) as real, SAMPLE_AMOUNT + (i * 10) as real] + pca
  }

  /** `create_sample_transaction`: request 0's time and amount, then the 28 draws. */
  function CreateSampleTransaction(pca: seq<real>): (features: seq<real>)
    requires |pca| == 28
    ensures |features| == FEATURE_COUNT
    ensures features[0] == 12345.0 && features[1] == 150.50 && features[2..] == pca
    ensures CreateV2Payload(features, "np").Ok?
  {
    VariedFeatures(0, pca)
  }

  /** The number of replies that carry a probability. */
  function Answered(replies: seq<Reply>): (n: nat)
    ensures n <= |replies|
  {
    if replies == [] then 0
    else Answered(replies[..|replies| - 1]) + (if Probability(replies[|replies| - 1]).Some? then 1 else 0)
  }

  /** The probabilities read from the replies that carry one, in request order. */
  function Predictions(replies: seq<Reply>): (ps: seq<real>)
    ensures |ps| == Answered(replies) && |ps| <= |replies|
    ensures forall k :: 0 <= k < |ps| ==> exists j :: 0 <= j < |replies| && Probability(replies[j]) == Some(ps[k])
  {
    if replies == [] then []
    else
      Predictions(replies[..|replies| - 1])
      + (match Probability(replies[|replies| - 1]) case Some(p) => [p] case None => [])
  }

  function CountBelow(ps: seq<real>, t: real): (n: nat)
    ensures n <= |ps|
  {
    if ps == [] then 0 else (if ps[0] < t then 1 else 0) + CountBelow(ps[1..], t)
  }

  function CountAtLeast(ps: seq<real>, t: real): (n: nat)
    ensures n <= |ps|
  {
    if ps == [] then 0 else (if ps[0] >= t then 1 else 0) + CountAtLeast(ps[1..], t)
  }

  /** Low (< 0.1) and high (>= 0.1) scores split the predictions. */
  lemma {:induction false} ScoreBandsSplit(ps: seq<real>)
    ensures CountBelow(ps, LOW_SCORE) + CountAtLeast(ps, LOW_SCORE) == |ps|
  {
    if ps != [] {
      ScoreBandsSplit(ps[1..]);
    }
  }

  /**
   * `test_traffic_distribution`: request i carries time 12345 + 100i and
   * amount 150.50 + 10i; a 200 reply with a score adds a prediction,
   * anything else (status, missing outputs, an exception) one error.
   */
  method TrafficDistribution(numRequests: int, pcas: seq<seq<real>>, replies: seq<Reply>)
    returns (requests: seq<Request>, predictions: seq<real>, errors: nat)
    requires |pcas| == |replies| == (if numRequests < 0 then 0 else numRequests)
    requires forall i :: 0 <= i < |pcas| ==> |pcas[i]| == 28
    ensures |requests| == |replies| && |predictions| + errors == |replies|
    ensures forall i :: 0 <= i < |requests| ==>
              requests[i] == FraudFeaturesRequest("np", VariedFeatures(i, pcas[i]))
    ensures predictions == Predictions(replies)
    ensures errors == |replies| - Answered(replies)
  {
    requests, predictions, errors := [], [], 0;
    var i := 0;
    while i < |replies|
      invariant 0 <= i <= |replies| && |requests| == i
      invariant |predictions| + errors == i
      invariant predictions == Predictions(replies[..i])
      invariant forall j :: 0 <= j < i ==> requests[j] == FraudFeaturesRequest("np", VariedFeatures(j, pcas[j]))
    {
      var features := VariedFeatures(i, pcas[i]);
      var payload := CreateV2Payload(features, "np");
      requests := requests + [payload.value];
      assert replies[..i + 1][..i] == replies[..i];
      match Probability(replies[i]) {
        case Some(p) => predictions := predictions + [p];
        case None => errors := errors + 1;
      }
      i := i + 1;
    }
    assert replies[..i] == replies;
  }
}
