/**
 * The manifest checks of the infrastructure test suite: the line rule for
 * hard-coded secrets in Kubernetes YAML files, and the structural checks on
 * the Model, Experiment, Server, Role and HorizontalPodAutoscaler documents.
 *
 * A parsed YAML document is a `Node`. The checks only succeed when every
 * lookup, membership test and comparison they perform is defined; where
 * Python would raise (indexing a string by a key, comparing a string with a
 * number, `in` on a number) the check fails, as the test would.
 */
module InfraChecks {
  import opened Wrappers
  import opened Text

  // ---------------------------------------------------------------- hard-coded secrets

  const FORBIDDEN_PATTERNS: seq<string> := ["password:", "secret:", "token:", "key:"]
  const SECRET_KEY_REF: string := "secretkeyref"
  /** Markers that make a line acceptable whatever else it contains. */
  const ALLOWED_MARKERS: seq<string> := ["secretname", SECRET_KEY_REF, "name:"]

  /** A (lowercased) line that holds the pattern and none of the markers. */
  predicate Hardcoded(line: string, pattern: string) {
    Contains(line, pattern) && !Contains(line, SECRET_KEY_REF)
    && !(exists a | a in ALLOWED_MARKERS :: Contains(line, a))
  }

  /** The separate `secretkeyref` test adds nothing: that marker is already allowed. */
  lemma RefTestSubsumed(line: string, pattern: string)
    ensures Hardcoded(line, pattern) <==>
              Contains(line, pattern) && forall k :: 0 <= k < |ALLOWED_MARKERS| ==> !Contains(line, ALLOWED_MARKERS[k])
  {
    assert ALLOWED_MARKERS[1] == SECRET_KEY_REF;
  }

  /**
   * The rule reads one line at a time: the `key:` line that names the key
   * inside a `secretKeyRef:` block is reported like a hard-coded value.
   */
  lemma ReferenceKeyLineReported()
    ensures Hardcoded("key: password", "key:")
  {
    var line := "key: password";
    assert OccursAt(line, "key:", 0);
    NotContainsByChar(line, "secretname", 'c');
    NotContainsByChar(line, SECRET_KEY_REF, 'c');
    NotContainsByChar(line, "name:", 'n');
  }

  /** The first line from i on that is reported for the pattern. */
  function FirstHardcoded(lines: seq<string>, pattern: string, i: nat): (r: Option<nat>)
    decreases |lines| - i
    ensures r.Some? ==> i <= r.value < |lines| && Hardcoded(lines[r.value], pattern)
    ensures r.Some? ==> forall k :: i <= k < r.value ==> !Hardcoded(lines[k], pattern)
    ensures r.None? ==> forall k :: i <= k < |lines| ==> !Hardcoded(lines[k], pattern)
  {
    if i >= |lines| then None
    else if Hardcoded(lines[i], pattern) then Some(i)
    else FirstHardcoded(lines, pattern, i + 1)
  }

  /** A pattern's lines are only read when the whole (lowercased) text holds it. */
  function SecretHit(text: string, lines: seq<string>, p: nat): (r: Option<nat>)
    requires p < |FORBIDDEN_PATTERNS|
    ensures r.Some? ==> r.value < |lines| && Hardcoded(lines[r.value], FORBIDDEN_PATTERNS[p])
  {
    if Contains(text, FORBIDDEN_PATTERNS[p]) then FirstHardcoded(lines, FORBIDDEN_PATTERNS[p], 0) else None
  }

  /** The first hit, patterns in list order, from pattern p on. */
  function FirstSecret(text: string, lines: seq<string>, p: nat): (r: Option<(nat, nat)>)
    requires p <= |FORBIDDEN_PATTERNS|
    decreases |FORBIDDEN_PATTERNS| - p
    ensures r.Some? ==> p <= r.value.0 < |FORBIDDEN_PATTERNS| && SecretHit(text, lines, r.value.0) == Some(r.value.1)
    ensures r.Some? ==> forall q :: p <= q < r.value.0 ==> SecretHit(text, lines, q).None?
    ensures r.None? ==> forall q :: p <= q < |FORBIDDEN_PATTERNS| ==> SecretHit(text, lines, q).None?
  {
    if p == |FORBIDDEN_PATTERNS| then None
    else
      var hit := SecretHit(text, lines, p);
      if hit.Some? then Some((p, hit.value)) else FirstSecret(text, lines, p + 1)
  }

  /**
   * One file: the stripped line the test fails on, if any. A reported line
   * is a stripped line of the lowercased file that is hard-coded for some
   * pattern, and a file passes exactly when none of its lines is.
   */
  function ScanFile(content: string): (r: Option<string>)
    ensures r.Some? ==>
              exists line, q :: line in Split(Lower(content), '\n') && q in FORBIDDEN_PATTERNS
                                && Hardcoded(line, q) && r.value == Strip(line)
    ensures r.None? <==>
              forall line, q :: line in Split(Lower(content), '\n') && q in FORBIDDEN_PATTERNS ==> !Hardcoded(line, q)
    ensures var hit := FirstSecret(Lower(content), Split(Lower(content), '\n'), 0);
            (r.Some? <==> hit.Some?)
            && (hit.Some? ==> r.value == Strip(Split(Lower(content), '\n')[hit.value.1]))
  {
    var text := Lower(content);
    var lines := Split(text, '\n');
    NoSecretClean(text, lines);
    match FirstSecret(text, lines, 0)
    case None => None
    case Some((p, i)) =>
      assert FORBIDDEN_PATTERNS[p] in FORBIDDEN_PATTERNS && lines[i] in lines;
      Some(Strip(lines[i]))
  }

  /** When no pattern hits, no line of the text is hard-coded for any pattern. */
  lemma NoSecretClean(text: string, lines: seq<string>)
    requires lines == Split(text, '\n')
    ensures FirstSecret(text, lines, 0).None? ==>
              forall line, q :: line in lines && q in FORBIDDEN_PATTERNS ==> !Hardcoded(line, q)
  {
    if FirstSecret(text, lines, 0).None? {
      forall line, q | line in lines && q in FORBIDDEN_PATTERNS
        ensures !Hardcoded(line, q)
      {
        var i :| 0 <= i < |lines| && lines[i] == line;
        var p :| 0 <= p < |FORBIDDEN_PATTERNS| && FORBIDDEN_PATTERNS[p] == q;
        assert SecretHit(text, lines, p).None?;
        if Contains(line, q) {
          SplitPiecesOccur(text, '\n');
          ContainsTrans(text, line, q);
        }
      }
    }
  }

  /** The first failing report, in order, with its position. */
  function FirstFailing(reports: seq<Option<string>>): (r: Option<(nat, string)>)
    ensures r.None? <==> forall k :: 0 <= k < |reports| ==> reports[k].None?
    ensures r.Some? ==> r.value.0 < |reports| && reports[r.value.0] == Some(r.value.1)
                        && forall k :: 0 <= k < r.value.0 ==> reports[k].None?
  {
    if reports == [] then None
    else if reports[0].Some? then Some((0, reports[0].value))
    else
      var rest := FirstFailing(reports[1..]);
      if rest.None? then None else Some((rest.value.0 + 1, rest.value.1))
  }

  /**
   * `test_secret_management`: the first file, in the given order, with a
   * reported line, and that line; the test passes exactly when every file
   * is clean.
   */
  function SecretManagement(files: seq<string>): (r: Option<(nat, string)>)
    ensures r.None? <==> forall k :: 0 <= k < |files| ==> ScanFile(files[k]).None?
    ensures r.Some? ==>
              var (f, line) := r.value;
              f < |files| && ScanFile(files[f]) == Some(line) && forall k :: 0 <= k < f ==> ScanFile(files[k]).None?
  {
    var reports := seq(|files|, k requires 0 <= k < |files| => ScanFile(files[k]));
    assert forall k :: 0 <= k < |files| ==> reports[k] == ScanFile(files[k]);
    FirstFailing(reports)
  }

  // ---------------------------------------------------------------- YAML documents

  /** A parsed YAML node (booleans and floats are not represented). */
  datatype Node = Mapping(entries: map<string, Node>) | Items(items: seq<Node>) | Str(s: string) | Num(n: int) | Null

  /** Python's `key in node`: dict keys, list elements, substrings; None where it raises. */
  function In(key: string, node: Node): (r: Option<bool>)
    ensures node.Mapping? ==> r == Some(key in node.entries)
    ensures node.Num? || node.Null? <==> r.None?
  {
    match node
    case Mapping(m) => Some(key in m)
    case Items(xs) => Some(Str(key) in xs)
    case Str(s) => Some(Contains(s, key))
    case Num(_) => None
    case Null => None
  }

  /** `key in node` holds (and does not raise). */
  predicate Has(node: Node, key: string) {
    In(key, node) == Some(true)
  }

  /** `node[key]`: defined only on a dict that has the key. */
  function Index(node: Node, key: string): (r: Option<Node>)
    ensures r.Some? <==> node.Mapping? && key in node.entries
    ensures r.Some? ==> Has(node, key)
  {
    if node.Mapping? && key in node.entries then Some(node.entries[key]) else None
  }

  /** Python's `a > b` for numbers and for strings (code-point order); None where it raises. */
  function Greater(a: Node, b: Node): (r: Option<bool>)
    ensures a.Num? && b.Num? ==> r == Some(a.n > b.n)
    ensures (a.Num? && b.Str?) || (a.Str? && b.Num?) || a.Null? || b.Null? ==> r.None?
  {
    if a.Num? && b.Num? then Some(a.n > b.n)
    else if a.Str? && b.Str? then Some(StringLess(b.s, a.s))
    else None
  }

  function StringLess(a: string, b: string): (r: bool)
    ensures r ==> b != []
    ensures a == [] ==> (r <==> b != [])
  {
    if b == [] then false
    else if a == [] then true
    else if a[0] != b[0] then a[0] < b[0]
    else StringLess(a[1..], b[1..])
  }

  /**
   * `StringLess` is lexicographic order on code points: after a common
   * prefix, `a` ends first or the first differing code point of `a` is
   * smaller.
   */
  lemma {:induction false} StringLessIsLexicographic(a: string, b: string)
    ensures StringLess(a, b) <==>
              exists i :: 0 <= i <= |a| && i < |b| && a[..i] == b[..i] && (i == |a| || a[i] < b[i])
  {
    if a != [] && b != [] && a[0] == b[0] {
      StringLessIsLexicographic(a[1..], b[1..]);
      if StringLess(a, b) {
        var i :| 0 <= i <= |a[1..]| && i < |b[1..]| && a[1..][..i] == b[1..][..i]
                 && (i == |a[1..]| || a[1..][i] < b[1..][i]);
        assert a[..i + 1] == [a[0]] + a[1..][..i] && b[..i + 1] == [b[0]] + b[1..][..i];
      }
      if exists i :: 0 <= i <= |a| && i < |b| && a[..i] == b[..i] && (i == |a| || a[i] < b[i]) {
        var i :| 0 <= i <= |a| && i < |b| && a[..i] == b[..i] && (i == |a| || a[i] < b[i]);
        assert i > 0;
        assert a[1..][..i - 1] == a[1..i] == b[1..i] == b[1..][..i - 1];
      }
    } else if a != [] && b != [] {
      if StringLess(a, b) {
        assert a[..0] == b[..0];
      }
    } else if StringLess(a, b) {
      assert a[..0] == b[..0];
    }
  }

  /** `doc.get('kind') in kinds` for a dict document. */
  predicate IsKind(doc: Node, kinds: set<string>)
    requires doc.Mapping?
  {
    "kind" in doc.entries && doc.entries["kind"].Str? && doc.entries["kind"].s in kinds
  }

  /**
   * `[doc for doc in docs if doc.get('kind') in kinds]`; None when some
   * document is not a dict (`doc.get` raises, e.g. on an empty document).
   */
  function OfKind(docs: seq<Node>, kinds: set<string>): (r: Option<seq<Node>>)
    ensures r.Some? <==> forall k :: 0 <= k < |docs| ==> docs[k].Mapping?
    ensures r.Some? ==> forall d :: d in r.value <==> d in docs && d.Mapping? && IsKind(d, kinds)
  {
    if docs == [] then Some([])
    else if !docs[0].Mapping? then None
    else
      match OfKind(docs[1..], kinds)
      case None => None
      case Some(rest) =>
        Some((if IsKind(docs[0], kinds) then [docs[0]] else []) + rest)
  }

  /** Filtering a document list one document at a time. */
  lemma OfKindCons(d: Node, rest: seq<Node>, kinds: set<string>)
    requires d.Mapping? && OfKind(rest, kinds).Some?
    ensures OfKind([d] + rest, kinds) == Some((if IsKind(d, kinds) then [d] else []) + OfKind(rest, kinds).value)
  {
    assert ([d] + rest)[1..] == rest;
  }

  /** The outcome of one test. */
  datatype Outcome = Passed | Failed | Skipped

  // ---------------------------------------------------------------- Model documents

  /** One Model document: metadata with a name, spec with a storage URI, tensorflow among any requirements. */
  predicate ModelOk(model: Node) {
    Has(model, "metadata") && Index(model, "metadata").Some? && Has(Index(model, "metadata").value, "name")
    && Has(model, "spec") && Index(model, "spec").Some?
    && var spec := Index(model, "spec").value;
       Has(spec, "storageUri")
       && match In("requirements", spec)
          case None => false
          case Some(present) =>
            present ==> (Index(spec, "requirements").Some? && Has(Index(spec, "requirements").value, "tensorflow"))
  }

  /** `test_model_resource_configuration` on the parsed ab-test file (None: the file is missing). */
  function ModelCheck(file: Option<seq<Node>>): (o: Outcome)
    ensures o != Skipped
    ensures o == Passed <==> file.Some? && OfKind(file.value, {"Model"}).Some?
                             && |OfKind(file.value, {"Model"}).value| >= 2
                             && forall m :: m in OfKind(file.value, {"Model"}).value ==> ModelOk(m)
  {
    if file.None? then Failed
    else
      match OfKind(file.value, {"Model"})
      case None => Failed
      case Some(models) =>
        if |models| >= 2 && forall m :: m in models ==> ModelOk(m) then Passed else Failed
  }

  /** A Model document as the deployment writes it. */
  function ModelDoc(name: string, uri: string): Node {
    Mapping(map["kind" := Str("Model"), "metadata" := Mapping(map["name" := Str(name)]),
                "spec" := Mapping(map["storageUri" := Str(uri)])])
  }

  lemma ModelDocIsModel(name: string, uri: string)
    ensures ModelDoc(name, uri).Mapping? && IsKind(ModelDoc(name, uri), {"Model"}) && ModelOk(ModelDoc(name, uri))
  {
  }

  /** Two well-formed Model documents pass; either one alone fails. */
  lemma TwoModelsPass(n1: string, u1: string, n2: string, u2: string)
    ensures ModelCheck(Some([ModelDoc(n1, u1), ModelDoc(n2, u2)])) == Passed
    ensures ModelCheck(Some([ModelDoc(n1, u1)])) == Failed
  {
    var d1, d2 := ModelDoc(n1, u1), ModelDoc(n2, u2);
    ModelDocIsModel(n1, u1);
    ModelDocIsModel(n2, u2);
    OfKindCons(d2, [], {"Model"});
    OfKindCons(d1, [d2], {"Model"});
    assert [d1] + [d2] == [d1, d2] && [d1] + [] == [d1];
  }

  // ---------------------------------------------------------------- the Experiment document

  /** `sum(candidate['weight'] for candidate in candidates)`; None where a candidate has no numeric weight. */
  function WeightSum(candidates: seq<Node>): (r: Option<int>)
    ensures r.Some? <==> forall k :: 0 <= k < |candidates| ==>
                           Index(candidates[k], "weight").Some? && Index(candidates[k], "weight").value.Num?
  {
    if candidates == [] then Some(0)
    else
      var w := Index(candidates[0], "weight");
      if w.None? || !w.value.Num? then None
      else
        match WeightSum(candidates[1..])
        case None => None
        case Some(rest) => Some(w.value.n + rest)
  }

  /** The checks on the one Experiment document. */
  predicate ExperimentOk(experiment: Node) {
    Has(experiment, "spec") && Index(experiment, "spec").Some?
    && var spec := Index(experiment, "spec").value;
       Has(spec, "default") && Has(spec, "candidates") && Index(spec, "candidates").Some?
       && var candidates := Index(spec, "candidates").value;
          candidates.Items? && |candidates.items| == 2 && WeightSum(candidates.items) == Some(100)
  }

  /** `test_experiment_configuration`: exactly one Experiment, two candidates, weights summing to 100. */
  function ExperimentCheck(file: Option<seq<Node>>): (o: Outcome)
    ensures o != Skipped
    ensures o == Passed <==> file.Some? && OfKind(file.value, {"Experiment"}).Some?
                             && |OfKind(file.value, {"Experiment"}).value| == 1
                             && ExperimentOk(OfKind(file.value, {"Experiment"}).value[0])
  {
    if file.None? then Failed
    else
      match OfKind(file.value, {"Experiment"})
      case None => Failed
      case Some(experiments) =>
        if |experiments| == 1 && ExperimentOk(experiments[0]) then Passed else Failed
  }

  function Candidate(name: string, weight: int): Node {
    Mapping(map["name" := Str(name), "weight" := Num(weight)])
  }

  function ExperimentDoc(default: string, candidates: seq<Node>): Node {
    Mapping(map["kind" := Str("Experiment"),
                "spec" := Mapping(map["default" := Str(default), "candidates" := Items(candidates)])])
  }

  /** An experiment with two weighted candidates passes exactly when the weights add up to 100. */
  lemma TwoCandidatesPass(default: string, a: string, wa: int, b: string, wb: int)
    ensures ExperimentCheck(Some([ExperimentDoc(default, [Candidate(a, wa), Candidate(b, wb)])])) == Passed
            <==> wa + wb == 100
  {
    var doc := ExperimentDoc(default, [Candidate(a, wa), Candidate(b, wb)]);
    assert IsKind(doc, {"Experiment"});
    OfKindCons(doc, [], {"Experiment"});
    assert [doc] + [] == [doc];
    var cs := [Candidate(a, wa), Candidate(b, wb)];
    assert cs[1..] == [Candidate(b, wb)];
    assert WeightSum(cs[1..][1..]) == Some(0);
    assert WeightSum(cs) == Some(wa + wb);
  }

  /** A third candidate fails the check whatever the weights. */
  lemma ThreeCandidatesFail(default: string, cs: seq<Node>)
    requires |cs| == 3
    ensures ExperimentCheck(Some([ExperimentDoc(default, cs)])) == Failed
  {
    var doc := ExperimentDoc(default, cs);
    assert IsKind(doc, {"Experiment"});
    OfKindCons(doc, [], {"Experiment"});
    assert [doc] + [] == [doc];
  }

  // ---------------------------------------------------------------- Server documents

  /** One Server document: spec with serverConfig and models, and positive replicas when given. */
  predicate ServerOk(server: Node) {
    Has(server, "spec") && Index(server, "spec").Some?
    && var spec := Index(server, "spec").value;
       Has(spec, "serverConfig") && Has(spec, "models")
       && (Has(spec, "replicas") ==>
             Index(spec, "replicas").Some? && Greater(Index(spec, "replicas").value, Num(0)) == Some(true))
  }

  /** `test_server_configuration` on the parsed mlserver file. */
  function ServerCheck(file: Option<seq<Node>>): (o: Outcome)
    ensures o != Skipped
    ensures o == Passed <==> file.Some? && OfKind(file.value, {"Server"}).Some?
                             && forall s :: s in OfKind(file.value, {"Server"}).value ==> ServerOk(s)
  {
    if file.None? then Failed
    else
      match OfKind(file.value, {"Server"})
      case None => Failed
      case Some(servers) => if forall s :: s in servers ==> ServerOk(s) then Passed else Failed
  }

  /** With the required keys present, a numeric replica count passes exactly when it is positive. */
  lemma ReplicasMustBePositive(entries: map<string, Node>, n: int)
    requires "serverConfig" in entries && "models" in entries
    ensures ServerOk(Mapping(map["spec" := Mapping(entries["replicas" := Num(n)])])) <==> n > 0
    ensures "replicas" !in entries ==> ServerOk(Mapping(map["spec" := Mapping(entries)]))
  {
  }

  /** A replica count written as a string fails: Python refuses to compare it with 0. */
  lemma QuotedReplicasFail(entries: map<string, Node>, s: string)
    ensures !ServerOk(Mapping(map["spec" := Mapping(entries["replicas" := Str(s)])]))
  {
  }

  // ---------------------------------------------------------------- Role documents

  /** Python's `for x in node`: list elements, dict keys, characters; None where it raises. */
  function Members(node: Node): (r: Option<set<Node>>)
    ensures node.Items? ==> r == Some(set x | x in node.items)
    ensures node.Num? || node.Null? <==> r.None?
  {
    match node
    case Items(xs) => Some(set x | x in xs)
    case Mapping(m) => Some(set k | k in m.Keys :: Str(k))
    case Str(s) => Some(set i | 0 <= i < |s| :: Str([s[i]]))
    case Num(_) => None
    case Null => None
  }

  /** A rule that grants on every resource must list its verbs and must not grant every verb. */
  predicate RuleOk(rule: Node) {
    match In("resources", rule)
    case None => false
    case Some(hasResources) =>
      hasResources ==>
        Index(rule, "resources").Some?
        && match In("*", Index(rule, "resources").value)
           case None => false
           case Some(everyResource) =>
             everyResource ==> Has(rule, "verbs") && Index(rule, "verbs").Some?
                               && In("*", Index(rule, "verbs").value) == Some(false)
  }

  predicate RoleOk(role: Node) {
    Has(role, "rules") && Index(role, "rules").Some?
    && var rules := Members(Index(role, "rules").value);
       rules.Some? && forall rule :: rule in rules.value ==> RuleOk(rule)
  }

  /** `test_rbac_configuration`: skipped without the file; every Role and ClusterRole checked. */
  function RbacCheck(file: Option<seq<Node>>): (o: Outcome)
    ensures o == Skipped <==> file.None?
    ensures o == Passed <==> file.Some? && OfKind(file.value, {"Role", "ClusterRole"}).Some?
                             && forall r :: r in OfKind(file.value, {"Role", "ClusterRole"}).value ==> RoleOk(r)
  {
    if file.None? then Skipped
    else
      match OfKind(file.value, {"Role", "ClusterRole"})
      case None => Failed
      case Some(roles) => if forall r :: r in roles ==> RoleOk(r) then Passed else Failed
  }

  /** For a rule over every resource, the verbs decide: listed, and no wildcard among them. */
  lemma WildcardResourceNeedsNamedVerbs(resources: seq<Node>, entries: map<string, Node>)
    requires Str("*") in resources
    ensures RuleOk(Mapping(entries["resources" := Items(resources)])) <==>
              "verbs" in entries && In("*", entries["verbs"]) == Some(false)
  {
  }

  /** A rule listing named resources only passes whatever its verbs. */
  lemma NamedResourcesPass(resources: seq<Node>, entries: map<string, Node>)
    requires Str("*") !in resources
    ensures RuleOk(Mapping(entries["resources" := Items(resources)]))
  {
  }

  // ---------------------------------------------------------------- HorizontalPodAutoscaler documents

  predicate HpaOk(hpa: Node) {
    Has(hpa, "spec") && Index(hpa, "spec").Some?
    && var spec := Index(hpa, "spec").value;
       Has(spec, "scaleTargetRef") && Has(spec, "minReplicas") && Has(spec, "maxReplicas")
       && Index(spec, "maxReplicas").Some? && Index(spec, "minReplicas").Some?
       && Greater(Index(spec, "maxReplicas").value, Index(spec, "minReplicas").value) == Some(true)
  }

  /** `test_horizontal_pod_autoscaler`: skipped without the file. */
  function HpaCheck(file: Option<seq<Node>>): (o: Outcome)
    ensures o == Skipped <==> file.None?
    ensures o == Passed <==> file.Some? && OfKind(file.value, {"HorizontalPodAutoscaler"}).Some?
                             && forall h :: h in OfKind(file.value, {"HorizontalPodAutoscaler"}).value ==> HpaOk(h)
  {
    if file.None? then Skipped
    else
      match OfKind(file.value, {"HorizontalPodAutoscaler"})
      case None => Failed
      case Some(hpas) => if forall h :: h in hpas ==> HpaOk(h) then Passed else Failed
  }

  /** With numeric bounds, the autoscaler passes exactly when the maximum exceeds the minimum. */
  lemma MaxAboveMin(target: Node, lo: int, hi: int)
    ensures HpaOk(Mapping(map["spec" := Mapping(map["scaleTargetRef" := target,
                                                    "minReplicas" := Num(lo), "maxReplicas" := Num(hi)])]))
            <==> hi > lo
  {
  }
}
