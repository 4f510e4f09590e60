/**
 * The mock inference server the serving tests talk to: `post` validates an
 * infer request through a chain of early returns (400 before the model
 * lookup's 404) and answers with one random score per batch row; `get`
 * always answers 200. The random draws are parameters.
 */
module ServingMock {
  import opened Wrappers
  import opened Text

  const BASELINE: string := "fraud-v1-baseline"
  const CANDIDATE: string := "fraud-v2-candidate"
  const FEATURES: int := 30
  const BASELINE_SHARE: real := 0.8

  /** One element of a JSON `data` list. */
  datatype Value = Number(x: real) | StringValue(s: string)

  /** The `data` entry of an input: absent, not subscriptable (null, a number), or a list. */
  datatype DataField = Missing | NotSubscriptable | Items(values: seq<Value>)

  datatype Input = Input(data: DataField, shape: Option<seq<int>>)

  /** The JSON body: its `inputs` list, if present, and whether it has any other key. */
  datatype Body = Body(inputs: Option<seq<Input>>, otherKeys: bool)

  /** A dict is truthy when it has at least one key. */
  predicate NonEmpty(b: Body) {
    b.inputs.Some? || b.otherKeys
  }

  /** `np.prod`: the product of the dimensions, 1 for an empty shape. */
  function Product(shape: seq<int>): int {
    if shape == [] then 1 else shape[0] * Product(shape[1..])
  }

  datatype Check = Pass | Reject | Crash

  /**
   * The body checks of `post`, in order: `inputs` present, the first input
   * has `data`, its first element is there and is not a string, and a given
   * shape matches the data's length and, in two dimensions, 30 features.
   * An empty `inputs` list is indexed outside the `try` and raises.
   */
  function CheckBody(b: Body): (c: Check)
    ensures c == Crash <==> b.inputs == Some([])
    ensures c == Pass <==>
              b.inputs.Some? && |b.inputs.value| > 0 && b.inputs.value[0].data.Items?
              && WellFormed(b.inputs.value[0])
  {
    if b.inputs.None? then Reject
    else if |b.inputs.value| == 0 then Crash
    else
      var input := b.inputs.value[0];
      match input.data
      case Missing => Reject
      case NotSubscriptable => Reject
      case Items(vs) =>
        if |vs| == 0 || vs[0].StringValue? then Reject
        else if input.shape.Some?
                && (|vs| != Product(input.shape.value)
                    || (|input.shape.value| == 2 && input.shape.value[1] != FEATURES))
        then Reject
        else Pass
  }

  /** An input the server accepts: numeric data first, and a consistent shape if one is given. */
  predicate WellFormed(input: Input)
    requires input.data.Items?
  {
    var vs := input.data.values;
    |vs| > 0 && vs[0].Number?
    && (input.shape.Some? ==>
          |vs| == Product(input.shape.value)
          && (|input.shape.value| == 2 ==> input.shape.value[1] == FEATURES))
  }

  datatype Response =
    | Reply(status: int, predictions: seq<real>, modelHeader: Option<string>)
    | StatusUnset   // a path without "/infer": the mock response never gets a status
    | Raised        // an exception escapes `post`

  /**
   * `MockMLServerClient.post`. `random(i)` is the i-th `np.random.random()`
   * draw for the predictions and `roll` the routing draw.
   */
  function Post(path: string, raw: Option<string>, body: Option<Body>, random: int -> real, roll: real): (r: Response)
    requires forall i :: 0.0 <= random(i) < 1.0
    ensures r == StatusUnset <==> !Contains(path, "/infer")
    ensures r.Reply? ==> r.status == 200 || r.status == 400 || r.status == 404
    ensures Contains(path, "/infer") && raw.Some? && Contains(raw.value, "invalid json") ==> r == Reply(400, [], None)
    ensures r.Reply? && r.status == 404 ==> Contains(path, "nonexistent-model")
    ensures r.Reply? && r.status == 200 ==>
              !Contains(path, "nonexistent-model")
              && (body.Some? && NonEmpty(body.value) ==> CheckBody(body.value) == Pass)
              && |r.predictions| == BatchSize(body)
              && (forall k :: 0 <= k < |r.predictions| ==> 0.0 <= r.predictions[k] < 1.0)
    ensures Contains(path, "/infer") && !(raw.Some? && Contains(raw.value, "invalid json"))
            && body.Some? && NonEmpty(body.value) ==>
              (CheckBody(body.value) == Reject ==> r == Reply(400, [], None))
              && (CheckBody(body.value) == Crash ==> r == Raised)
    ensures Contains(path, "/infer") && !(raw.Some? && Contains(raw.value, "invalid json"))
            && !Contains(path, "nonexistent-model")
            && body.Some? && NonEmpty(body.value) && CheckBody(body.value) == Pass
            && body.value.inputs.value[0].shape != Some([]) ==>
              r.Reply? && r.status == 200 && |r.predictions| == BatchSize(body)
  {
    if !Contains(path, "/infer") then StatusUnset
    else if raw.Some? && Contains(raw.value, "invalid json") then Reply(400, [], None)
    else if body.Some? && NonEmpty(body.value) && CheckBody(body.value) == Reject then Reply(400, [], None)
    else if body.Some? && NonEmpty(body.value) && CheckBody(body.value) == Crash then Raised
    else if Contains(path, "nonexistent-model") then Reply(404, [], None)
    else if body.Some? && NonEmpty(body.value) && body.value.inputs.value[0].shape == Some([]) then Raised
    else
      var n := BatchSize(body);
      var header := if Contains(path, "fraud-ab-test") then Some(if roll < BASELINE_SHARE then BASELINE else CANDIDATE)
                    else None;
      Reply(200, seq(n, i => random(i)), header)
  }

  /** The number of predictions: the first shape dimension when a shape is sent, else 1; `range` of a negative is empty. */
  function BatchSize(body: Option<Body>): (n: nat)
  {
    if body.Some? && NonEmpty(body.value) && body.value.inputs.Some? && |body.value.inputs.value| > 0
       && body.value.inputs.value[0].shape.Some? && |body.value.inputs.value[0].shape.value| > 0
    then (var b := body.value.inputs.value[0].shape.value[0]; if b < 0 then 0 else b)
    else 1
  }

  const INFER_PATH: string := "/v2/models/fraud-v1-baseline/infer"
  const MISSING_MODEL: string := "nonexistent-model"
  const MISSING_MODEL_PATH: string := "/v2/models/" + MISSING_MODEL + "/infer"

  lemma InferPathIsInfer()
    ensures Contains(INFER_PATH, "/infer")
  {
    assert INFER_PATH[28..28 + 6] == "/infer";
    assert OccursAt(INFER_PATH, "/infer", 28);
  }

  lemma InferPathNamesNoMissingModel()
    ensures !Contains(INFER_PATH, "nonexistent-model")
    ensures !Contains(INFER_PATH, "fraud-ab-test")
  {
    assert "nonexistent-model"[4] == 'x';
    assert "fraud-ab-test"[6] == 'a' && "fraud-ab-test"[7] == 'b' && "fraud-ab-test"[9] == 't';
    assert forall k :: 0 <= k < |INFER_PATH| ==> INFER_PATH[k] != 'x' && INFER_PATH[k] != 't';
    NotContainsByChar(INFER_PATH, "nonexistent-model", 'x');
    NotContainsByChar(INFER_PATH, "fraud-ab-test", 't');
  }

  lemma MissingModelPathIsInfer()
    ensures Contains(MISSING_MODEL_PATH, "/infer")
  {
    assert MISSING_MODEL_PATH[28..28 + 6] == "/infer";
    assert OccursAt(MISSING_MODEL_PATH, "/infer", 28);
  }

  lemma MissingModelPathNamesMissingModel()
    ensures Contains(MISSING_MODEL_PATH, "nonexistent-model")
  {
    var pre := "/v2/models/";
    assert MISSING_MODEL_PATH == pre + (MISSING_MODEL + "/infer");
    assert (pre + (MISSING_MODEL + "/infer"))[|pre|..|pre| + |MISSING_MODEL|] == MISSING_MODEL;
    assert OccursAt(MISSING_MODEL_PATH, "nonexistent-model", 11);
  }

  /** Validation comes before the model lookup: a malformed request to a missing model gets 400, a valid one 404. */
  lemma ValidationPrecedesLookup(body: Body, random: int -> real, roll: real)
    requires forall i :: 0.0 <= random(i) < 1.0
    requires NonEmpty(body) && CheckBody(body) != Crash
    ensures Post(MISSING_MODEL_PATH, None, Some(body), random, roll)
            == Reply(if CheckBody(body) == Reject then 400 else 404, [], None)
  {
    MissingModelPathIsInfer();
    MissingModelPathNamesMissingModel();
  }

  /** Without a shape, any non-empty numeric data list is answered with one prediction. */
  lemma UnshapedNumericAccepted(vs: seq<Value>, random: int -> real, roll: real)
    requires forall i :: 0.0 <= random(i) < 1.0
    requires |vs| > 0 && vs[0].Number?
    ensures Post(INFER_PATH, None, Some(Body(Some([Input(Items(vs), None)]), true)), random, roll)
            == Reply(200, [random(0)], None)
  {
    InferPathIsInfer();
    InferPathNamesNoMissingModel();
    var r := Post(INFER_PATH, None, Some(Body(Some([Input(Items(vs), None)]), true)), random, roll);
    assert r.predictions == [random(0)];
  }

  /** A single 30-feature row with shape [1, 30] passes the body checks; a [1, 20] row does not. */
  lemma ShapeChecks(row: seq<real>)
    requires |row| == 30
    ensures CheckBody(Body(Some([Input(Items(seq(30, i requires 0 <= i < 30 => Number(row[i]))), Some([1, 30]))]), true)) == Pass
    ensures CheckBody(Body(Some([Input(Items(seq(20, i => Number(0.1))), Some([1, 20]))]), true)) == Reject
  {
    assert Product([1, 30]) == 30 by { assert [1, 30][1..] == [30]; assert [30][1..] == []; }
    assert Product([1, 20]) == 20 by { assert [1, 20][1..] == [20]; assert [20][1..] == []; }
  }

  // ---------------------------------------------------------------- get

  datatype GetBody = Live | Ready | Models(names: seq<string>) | Metadata(name: string) | NoBody

  /** `MockMLServerClient.get`: every path answers 200. */
  function Get(path: string): (r: (int, GetBody))
    ensures r.0 == 200
    ensures path == "/v2/models" ==> r.1.Models? && BASELINE in r.1.names && CANDIDATE in r.1.names
    ensures r.1.Metadata? <==> path != "/v2/models" && path != "/v2/health/live" && path != "/v2/health/ready"
                               && Contains(path, "/v2/models/") && !EndsWith(path, "/infer")
  {
    if path == "/v2/health/live" then (200, Live)
    else if path == "/v2/health/ready" then (200, Ready)
    else if path == "/v2/models" then (200, Models([BASELINE, CANDIDATE]))
    else if Contains(path, "/v2/models/") && !EndsWith(path, "/infer") then
      ContainsCount(path, "/v2/models/", '/');
      ModelPrefixSlashes();
      (200, Metadata(Split(path, '/')[3]))
    else (200, NoBody)
  }

  lemma ModelPrefixSlashes()
    ensures CountChar("/v2/models/", '/') == 3
  {
    var a, b, c := "/v2", "/models", "/";
    assert "/v2/models/" == a + (b + c);
    CountCharAppend(b, c, '/');
    CountCharAppend(a, b + c, '/');
    assert CountChar(a, '/') == 1 && CountChar(b, '/') == 1 && CountChar(c, '/') == 1;
  }

  /** The path `/v2/models/<name>` splits into the name at index 3. */
  lemma ModelPathSplit(name: string)
    requires '/' !in name
    ensures Split("/v2/models/" + name, '/') == ["", "v2", "models", name]
  {
    var tail := "models" + ['/'] + name;
    var mid := "v2" + ['/'] + tail;
    ModelPathPieces(name);
    calc {
      Split("/v2/models/" + name, '/');
      Split([] + ['/'] + mid, '/');
      { SplitAfterPiece([], '/', mid); }
      [[]] + Split(mid, '/');
      { SplitAfterPiece("v2", '/', tail); }
      [[]] + (["v2"] + Split(tail, '/'));
      { SplitAfterPiece("models", '/', name); }
      [[]] + (["v2"] + (["models"] + Split(name, '/')));
      { SplitNoSeparator(name, '/'); }
      [[]] + (["v2"] + (["models"] + [name]));
      ["", "v2", "models", name];
    }
  }

  lemma ModelPathPieces(name: string)
    ensures "/v2/models/" + name == [] + ['/'] + ("v2" + ['/'] + ("models" + ['/'] + name))
  {
  }

  /** The metadata for `/v2/models/<name>` names that model, unless the path is read as an inference path. */
  lemma MetadataNamesModel(name: string)
    requires '/' !in name && !EndsWith("/v2/models/" + name, "/infer")
    ensures Get("/v2/models/" + name).1 == Metadata(name)
  {
    var path := "/v2/models/" + name;
    assert path[..11] == "/v2/models/";
    StartsWithContains(path, "/v2/models/");
    assert |path| != |"/v2/models"|;
    assert path[4] == 'm' && "/v2/health/live"[4] == 'h' && "/v2/health/ready"[4] == 'h';
    ModelPathSplit(name);
  }
}
