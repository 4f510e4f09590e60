/**
 * The GitOps integration tests' own decision logic: the scan for
 * hard-coded secrets in the Argo manifests, the check on GitHub Actions
 * environment values, and the required-name checks on roles, workflow
 * steps, DAG tasks, alert groups and canary metrics. Reading the files and
 * parsing YAML are outside the model: the tests' inputs are the file text
 * and the extracted name lists.
 */
module GitopsChecks {
  import opened Wrappers
  import opened Text

  const SECRET_PATTERNS: seq<string> := ["password:", "secret:", "token:", "key:", "aws_secret"]
  const SECRET_KEY_REF: string := "secretkeyref:"
  const VALUE_FROM: string := "valuefrom:"
  const LOOK_BACK: nat := 5
  const LOOK_AHEAD: nat := 4

  // ---------------------------------------------------------------- secret scan

  /** The lines of the lowercased file text. */
  function Lines(content: string): (lines: seq<string>)
    ensures |lines| == CountChar(Lower(content), '\n') + 1
  {
    Split(Lower(content), '\n')
  }

  /**
   * The scan lowercases each line again (`full_line.lower()`,
   * `lines[j].lower()`); on lines of lowercased text that changes nothing,
   * so the model reads the lines as they are.
   */
  lemma LinesAreLower(content: string)
    ensures forall k :: 0 <= k < |Lines(content)| ==> Lower(Lines(content)[k]) == Lines(content)[k]
  {
    LowerIsLower(content);
    SplitIsLower(Lower(content), '\n');
    forall k | 0 <= k < |Lines(content)|
      ensures Lower(Lines(content)[k]) == Lines(content)[k]
    {
      LowerOfLower(Lines(content)[k]);
    }
  }

  /** Lines naming a secret reference, a secret name, or a bare `secret:` key are allowed. */
  predicate Exempt(line: string) {
    Contains(line, "secretkeyref") || Contains(line, "secretname") || Strip(line) == "secret:"
  }

  predicate IsComment(line: string) {
    StartsWith(Strip(line), "#")
  }

  function Min(a: int, b: int): int { if a < b then a else b }

  /** Some line in `[k, end)` mentions `secretkeyref:`. */
  predicate RefAhead(lines: seq<string>, k: nat, end: nat)
    requires end <= |lines|
    decreases end - k
  {
    k < end && (Contains(lines[k], SECRET_KEY_REF) || RefAhead(lines, k + 1, end))
  }

  /**
   * `'secretkeyref:' in line.strip()`; the pattern starts and ends with a
   * non-blank, so stripping does not matter (NamesIgnoreStrip).
   */
  predicate NamesRef(line: string) {
    Contains(line, SECRET_KEY_REF)
  }

  /** `'valuefrom:' in line.strip()`, likewise. */
  predicate NamesValueFrom(line: string) {
    Contains(line, VALUE_FROM)
  }

  lemma NamesIgnoreStrip(line: string)
    ensures NamesRef(line) <==> Contains(Strip(line), SECRET_KEY_REF)
    ensures NamesValueFrom(line) <==> Contains(Strip(line), VALUE_FROM)
  {
    StripKeepsPattern(line, SECRET_KEY_REF);
    StripKeepsPattern(line, VALUE_FROM);
  }

  /**
   * The backwards look from line j up to line i: a `secretkeyref:` line
   * settles it; the first `valuefrom:` line settles it by the four lines
   * after it; otherwise the next line is read.
   */
  predicate RefContextFrom(lines: seq<string>, j: nat, i: nat)
    requires i < |lines|
    decreases i - j
  {
    if j >= i then false
    else if NamesRef(lines[j]) then true
    else if NamesValueFrom(lines[j]) then RefAhead(lines, j + 1, Min(|lines|, j + 1 + LOOK_AHEAD))
    else RefContextFrom(lines, j + 1, i)
  }

  /** The window is lines `max(0, i - 5)` to `i - 1`. */
  predicate InSecretRefContext(lines: seq<string>, i: nat)
    requires i < |lines|
  {
    RefContextFrom(lines, if i >= LOOK_BACK then i - LOOK_BACK else 0, i)
  }

  /** Line i is reported for the pattern. */
  predicate Flagged(lines: seq<string>, i: nat, pattern: string)
    requires i < |lines|
  {
    Contains(lines[i], pattern) && !Exempt(lines[i]) && !InSecretRefContext(lines, i) && !IsComment(lines[i])
  }

  /** The first line from i on that is reported for the pattern. */
  function FirstFlaggedLine(lines: seq<string>, pattern: string, i: nat): (r: Option<nat>)
    decreases |lines| - i
    ensures r.Some? ==> i <= r.value < |lines| && Flagged(lines, r.value, pattern)
    ensures r.Some? ==> forall k :: i <= k < r.value ==> !Flagged(lines, k, pattern)
    ensures r.None? ==> forall k :: i <= k < |lines| ==> !Flagged(lines, k, pattern)
  {
    if i >= |lines| then None
    else if Flagged(lines, i, pattern) then Some(i)
    else FirstFlaggedLine(lines, pattern, i + 1)
  }

  /** A pattern is only looked for line by line when the whole (lowercased) text contains it. */
  predicate Reported(text: string, lines: seq<string>, p: nat, i: nat)
    requires p < |SECRET_PATTERNS|
  {
    Contains(text, SECRET_PATTERNS[p]) && i < |lines| && Flagged(lines, i, SECRET_PATTERNS[p])
  }

  /** The report for pattern p alone: its first flagged line, provided the whole text holds the pattern. */
  function PatternHit(text: string, lines: seq<string>, p: nat): (r: Option<nat>)
    requires p < |SECRET_PATTERNS|
  {
    if Contains(text, SECRET_PATTERNS[p]) then FirstFlaggedLine(lines, SECRET_PATTERNS[p], 0) else None
  }

  /** A pattern's hit is its first reported line, and no hit means no reported line. */
  lemma PatternHitIsFirstReported(text: string, lines: seq<string>, p: nat)
    requires p < |SECRET_PATTERNS|
    ensures PatternHit(text, lines, p).Some? ==>
              var i := PatternHit(text, lines, p).value;
              Reported(text, lines, p, i) && forall k: nat :: k < i ==> !Reported(text, lines, p, k)
    ensures PatternHit(text, lines, p).None? ==> forall k: nat :: !Reported(text, lines, p, k)
  {
  }

  /**
   * The whole-text pre-check never hides a line: on the file's own lines a
   * line is reported exactly when it is flagged.
   */
  lemma PreCheckHidesNothing(content: string, p: nat, i: nat)
    requires p < |SECRET_PATTERNS| && i < |Lines(content)|
    ensures Reported(Lower(content), Lines(content), p, i) <==> Flagged(Lines(content), i, SECRET_PATTERNS[p])
  {
    var text, lines := Lower(content), Lines(content);
    if Flagged(lines, i, SECRET_PATTERNS[p]) {
      SplitPiecesOccur(text, '\n');
      ContainsTrans(text, lines[i], SECRET_PATTERNS[p]);
    }
  }

  /** The first hit, patterns in list order, from pattern p on. */
  function FirstFinding(text: string, lines: seq<string>, p: nat): (r: Option<(nat, nat)>)
    requires p <= |SECRET_PATTERNS|
    decreases |SECRET_PATTERNS| - p
    ensures r.Some? ==> p <= r.value.0 < |SECRET_PATTERNS| && PatternHit(text, lines, r.value.0) == Some(r.value.1)
    ensures r.Some? ==> forall q :: p <= q < r.value.0 ==> PatternHit(text, lines, q).None?
    ensures r.None? ==> forall q :: p <= q < |SECRET_PATTERNS| ==> PatternHit(text, lines, q).None?
  {
    if p == |SECRET_PATTERNS| then None
    else
      var found := PatternHit(text, lines, p);
      if found.Some? then Some((p, found.value)) else FirstFinding(text, lines, p + 1)
  }

  /**
   * The finding is the first reported (pattern, line) pair, patterns in
   * list order and lines in file order; no finding means nothing is reported.
   */
  lemma FindingIsFirstReported(text: string, lines: seq<string>)
    ensures FirstFinding(text, lines, 0).Some? ==>
              var (p, i) := FirstFinding(text, lines, 0).value;
              Reported(text, lines, p, i)
              && (forall k: nat :: k < i ==> !Reported(text, lines, p, k))
              && (forall q: nat, k: nat :: q < p ==> !Reported(text, lines, q, k))
    ensures FirstFinding(text, lines, 0).None? ==>
              forall q: nat, k: nat :: q < |SECRET_PATTERNS| ==> !Reported(text, lines, q, k)
  {
    forall q: nat | q < |SECRET_PATTERNS| {
      PatternHitIsFirstReported(text, lines, q);
    }
  }

  /** The look ahead after a `valuefrom:` line. */
  method RefFollows(lines: seq<string>, from: nat, end: nat) returns (found: bool)
    requires from <= end <= |lines|
    ensures found == RefAhead(lines, from, end)
  {
    var k := from;
    while k < end
      invariant from <= k <= end
      invariant RefAhead(lines, from, end) == RefAhead(lines, k, end)
    {
      if Contains(lines[k], SECRET_KEY_REF) {
        return true;
      }
      k := k + 1;
    }
    return false;
  }

  /** The look back over the five preceding lines, with its early exits. */
  method SecretRefContext(lines: seq<string>, i: nat) returns (inContext: bool)
    requires i < |lines|
    ensures inContext == InSecretRefContext(lines, i)
  {
    var j := if i >= LOOK_BACK then i - LOOK_BACK else 0;
    inContext := false;
    var settled := false;
    while j < i && !settled
      invariant j <= i
      invariant !settled ==> !inContext && InSecretRefContext(lines, i) == RefContextFrom(lines, j, i)
      invariant settled ==> inContext == InSecretRefContext(lines, i)
      decreases !settled, i - j
    {
      if NamesRef(lines[j]) {
        inContext, settled := true, true;
      } else if NamesValueFrom(lines[j]) {
        inContext := RefFollows(lines, j + 1, Min(|lines|, j + 1 + LOOK_AHEAD));
        settled := true;
      } else {
        j := j + 1;
      }
    }
  }

  /** The line loop for one pattern: the first reported line, if any. */
  method FirstReportedLine(lines: seq<string>, pattern: string) returns (r: Option<nat>)
    ensures r == FirstFlaggedLine(lines, pattern, 0)
  {
    var i := 0;
    while i < |lines|
      invariant i <= |lines|
      invariant FirstFlaggedLine(lines, pattern, 0) == FirstFlaggedLine(lines, pattern, i)
    {
      var line := lines[i];
      if Contains(line, pattern) && !Exempt(line) {
        var context := SecretRefContext(lines, i);
        if !context && !IsComment(line) {
          return Some(i);
        }
      }
      i := i + 1;
    }
    return None;
  }

  /** `test_security_configurations` on one file: the first reported (pattern, line), if any. */
  method ScanForHardcodedSecrets(content: string) returns (finding: Option<(nat, nat)>)
    ensures finding == FirstFinding(Lower(content), Lines(content), 0)
  {
    var text := Lower(content);
    var lines := Split(text, '\n');
    var p := 0;
    while p < |SECRET_PATTERNS|
      invariant p <= |SECRET_PATTERNS|
      invariant FirstFinding(text, lines, 0) == FirstFinding(text, lines, p)
    {
      var pattern := SECRET_PATTERNS[p];
      if Contains(text, pattern) {
        var line := FirstReportedLine(lines, pattern);
        if line.Some? {
          return Some((p, line.value));
        }
      }
      p := p + 1;
    }
    return None;
  }

  /** A line right below a `secretkeyref:` line is never reported, whatever it contains. */
  lemma ReferencedSecretNotReported(text: string, lines: seq<string>, p: nat, i: nat)
    requires p < |SECRET_PATTERNS| && 0 < i < |lines| && NamesRef(lines[i - 1])
    ensures !Reported(text, lines, p, i)
  {
    RefJustAbove(lines, i);
  }

  /** A line whose previous line, stripped, mentions `secretkeyref:` is in a secret-reference context. */
  lemma RefJustAbove(lines: seq<string>, i: nat)
    requires 0 < i < |lines| && NamesRef(lines[i - 1])
    ensures InSecretRefContext(lines, i)
  {
    RefJustAboveFrom(lines, if i >= LOOK_BACK then i - LOOK_BACK else 0, i);
  }

  lemma {:induction false} RefJustAboveFrom(lines: seq<string>, j: nat, i: nat)
    requires 0 < i < |lines| && j <= i - 1 && i - 1 - j < LOOK_BACK
    requires NamesRef(lines[i - 1])
    ensures RefContextFrom(lines, j, i)
    decreases i - j
  {
    if j < i - 1 && !NamesRef(lines[j]) {
      if NamesValueFrom(lines[j]) {
        RefAheadReaches(lines, j + 1, Min(|lines|, j + 1 + LOOK_AHEAD), i - 1);
      } else {
        RefJustAboveFrom(lines, j + 1, i);
      }
    }
  }

  lemma {:induction false} RefAheadReaches(lines: seq<string>, k: nat, end: nat, target: nat)
    requires end <= |lines| && k <= target < end
    requires Contains(lines[target], SECRET_KEY_REF)
    ensures RefAhead(lines, k, end)
    decreases target - k
  {
    if k < target {
      RefAheadReaches(lines, k + 1, end, target);
    }
  }

  // ---------------------------------------------------------------- workflow env values

  /** A YAML scalar in a job's `env` block. */
  datatype EnvValue = StringValue(s: string) | OtherValue

  const ALLOWED_HARDCODED: seq<string> := ["http", "https", "localhost", "fraud-detection"]

  /** An env value that looks like a hard-coded secret. */
  predicate SuspiciousEnvValue(v: EnvValue) {
    v.StringValue? && !Contains(Lower(v.s), "secret")
    && !(exists a | a in ALLOWED_HARDCODED :: Contains(Lower(v.s), a))
  }

  /** The first suspicious variable of the jobs' env blocks, jobs and variables in order. */
  function FirstSuspiciousEnv(jobs: seq<Option<seq<(string, EnvValue)>>>): (r: Option<string>)
    ensures r.None? <==> (forall j, k :: 0 <= j < |jobs| && jobs[j].Some? && 0 <= k < |jobs[j].value| ==>
                                           !SuspiciousEnvValue(jobs[j].value[k].1))
    ensures r.Some? ==> exists j, k :: 0 <= j < |jobs| && jobs[j].Some? && 0 <= k < |jobs[j].value|
                                       && jobs[j].value[k].0 == r.value && SuspiciousEnvValue(jobs[j].value[k].1)
                                       && (forall i :: 0 <= i < j && jobs[i].Some? ==> FirstSuspiciousVar(jobs[i].value).None?)
                                       && FirstSuspiciousVar(jobs[j].value) == r
  {
    if jobs == [] then None
    else
      var here := if jobs[0].Some? then FirstSuspiciousVar(jobs[0].value) else None;
      if here.Some? then here
      else
        var rest := FirstSuspiciousEnv(jobs[1..]);
        assert forall j :: 0 <= j < |jobs[1..]| ==> jobs[1..][j] == jobs[j + 1];
        rest
  }

  function FirstSuspiciousVar(env: seq<(string, EnvValue)>): (r: Option<string>)
    ensures r.None? <==> forall k :: 0 <= k < |env| ==> !SuspiciousEnvValue(env[k].1)
    ensures r.Some? ==> exists k :: 0 <= k < |env| && env[k].0 == r.value && SuspiciousEnvValue(env[k].1)
                                    && forall i :: 0 <= i < k ==> !SuspiciousEnvValue(env[i].1)
  {
    if env == [] then None
    else if SuspiciousEnvValue(env[0].1) then Some(env[0].0)
    else
      var rest := FirstSuspiciousVar(env[1..]);
      assert forall k :: 0 <= k < |env[1..]| ==> env[1..][k] == env[k + 1];
      rest
  }

  /** Values mentioning a secret, URLs, localhost and service names are never suspicious. */
  lemma AllowedEnvValues(s: string)
    requires Contains(Lower(s), "secret") || Contains(Lower(s), "http") || Contains(Lower(s), "localhost")
             || Contains(Lower(s), "fraud-detection")
    ensures !SuspiciousEnvValue(StringValue(s))
  {
    assert ALLOWED_HARDCODED[0] == "http" && ALLOWED_HARDCODED[2] == "localhost" && ALLOWED_HARDCODED[3] == "fraud-detection";
  }

  // ---------------------------------------------------------------- required names

  const REQUIRED_ROLES: seq<string> := ["ml-engineer", "ml-reviewer", "readonly"]
  const REQUIRED_STEPS: seq<string> := ["ml-pipeline", "git-clone", "data-preparation", "data-validation",
                                        "train-model", "model-evaluation", "container-build",
                                        "update-k8s-manifest", "argocd-sync"]
  const EXPECTED_TASKS: seq<string> := ["clone-repo", "prepare-data", "validate-data",
                                        "train-baseline", "train-candidate", "evaluate-models"]
  const EXPECTED_GROUPS: seq<string> := ["gitops.deployment", "argo.workflows", "flagger.canary",
                                         "mlops.model.performance", "gitops.infrastructure"]
  const EXPECTED_METRICS: seq<string> := ["model-precision", "model-recall", "model-f1-score"]

  /** The position of the first required name, in the list's order, missing from the extracted names. */
  function FirstMissing(required: seq<string>, names: seq<string>): (r: Option<nat>)
    ensures r.None? <==> forall k :: 0 <= k < |required| ==> required[k] in names
    ensures r.Some? ==> r.value < |required| && required[r.value] !in names
                        && forall m :: 0 <= m < r.value ==> required[m] in names
  {
    if required == [] then None
    else if required[0] !in names then Some(0)
    else
      var rest := FirstMissing(required[1..], names);
      assert forall k :: 0 <= k < |required[1..]| ==> required[1..][k] == required[k + 1];
      if rest.Some? then Some(rest.value + 1) else None
  }

  /** Extracting more names never makes a passing check fail. */
  lemma MoreNamesStillPass(required: seq<string>, names: seq<string>, extra: seq<string>)
    requires FirstMissing(required, names).None?
    ensures FirstMissing(required, names + extra).None?
  {
    assert forall k :: 0 <= k < |required| ==> required[k] in names + extra;
  }

  /** The check depends on the names as a set: reordering or repeating them changes nothing. */
  lemma OnlyTheSetMatters(required: seq<string>, names: seq<string>, others: seq<string>)
    requires (set x | x in names) == (set x | x in others)
    ensures FirstMissing(required, names) == FirstMissing(required, others)
  {
    var inNames, inOthers := set y | y in names, set y | y in others;
    forall x
      ensures x in names <==> x in others
    {
      assert x in names <==> x in inNames;
      assert x in others <==> x in inOthers;
    }
  }

  /** The canary's three metrics pass exactly when each of them is among the metric names. */
  lemma CanaryMetrics(names: seq<string>)
    ensures FirstMissing(EXPECTED_METRICS, names).None? <==>
              "model-precision" in names && "model-recall" in names && "model-f1-score" in names
  {
    assert EXPECTED_METRICS[0] == "model-precision" && EXPECTED_METRICS[1] == "model-recall"
           && EXPECTED_METRICS[2] == "model-f1-score" && |EXPECTED_METRICS| == 3;
  }
}
