/**
 * The deployment generator's template step: the quoted V1 placeholder is
 * replaced by the quoted V1 URI, then the quoted V2 placeholder by the
 * quoted V2 URI, as two chained `str.replace` calls. Looking the URIs up
 * in the model registry and the file reads and writes are inputs and
 * outputs of this model.
 */
module Deploy {
  import opened Wrappers
  import opened Text

  const V1_PLACEHOLDER: string := "\"{{ S3_URI_V1 }}\""
  const V2_PLACEHOLDER: string := "\"{{ S3_URI_V2 }}\""

  function Quoted(s: string): (q: string)
    ensures |q| == |s| + 2 && q[0] == '"' && q[|q| - 1] == '"' && q[1..|q| - 1] == s
  {
    "\"" + s + "\""
  }

  /**
   * `substitute_yaml_template` on the template's text. Only the quoted
   * placeholders are rewritten: a template with no double quote at all, or
   * with neither quoted placeholder, comes back unchanged.
   */
  function Substitute(content: string, v1Uri: string, v2Uri: string): (out: string)
    ensures '"' !in content ==> out == content
    ensures !Contains(content, V1_PLACEHOLDER) && !Contains(content, V2_PLACEHOLDER) ==> out == content
  {
    var out := ReplaceAll(ReplaceAll(content, V1_PLACEHOLDER, Quoted(v1Uri)), V2_PLACEHOLDER, Quoted(v2Uri));
    if '"' !in content then
      ReplaceWithoutFirstChar(content, V1_PLACEHOLDER, Quoted(v1Uri));
      ReplaceWithoutFirstChar(content, V2_PLACEHOLDER, Quoted(v2Uri));
      out
    else if !Contains(content, V1_PLACEHOLDER) && !Contains(content, V2_PLACEHOLDER) then
      ReplaceAbsent(content, V1_PLACEHOLDER, Quoted(v1Uri));
      ReplaceAbsent(content, V2_PLACEHOLDER, Quoted(v2Uri));
      out
    else out
  }

  /** Text free of the characters `"` and `{`, as YAML lines and S3 URIs normally are. */
  predicate Plain(s: string) {
    '"' !in s && '{' !in s
  }

  /** A placeholder written without its quotes is left in the output. */
  lemma UnquotedPlaceholderUntouched(v1Uri: string, v2Uri: string)
    ensures Substitute("uri: {{ S3_URI_V1 }}", v1Uri, v2Uri) == "uri: {{ S3_URI_V1 }}"
  {
    assert '"' !in "uri: {{ S3_URI_V1 }}";
  }

  /** A quote followed by something other than `{` does not start a placeholder. */
  lemma SkipQuote(s: string, p: string, r: string)
    requires |p| >= 2 && p[0] == '"' && p[1] == '{'
    requires s == [] || s[0] != '{'
    ensures ReplaceAll("\"" + s, p, r) == "\"" + ReplaceAll(s, p, r)
  {
    var t := "\"" + s;
    if |p| <= |t| {
      assert t[..|p|][1] != p[1];
    }
    ReplaceSkip(t, p, r);
    assert t[1..] == s;
  }

  /** The V1 pass leaves the quoted V2 placeholder and a plain tail alone. */
  lemma V1PassKeepsV2(post: string, r: string)
    requires Plain(post)
    ensures ReplaceAll(V2_PLACEHOLDER + post, V1_PLACEHOLDER, r) == V2_PLACEHOLDER + post
  {
    var t := V2_PLACEHOLDER + post;
    assert t[..17][12] != V1_PLACEHOLDER[12];
    ReplaceSkip(t, V1_PLACEHOLDER, r);
    var inner := V2_PLACEHOLDER[1..16];
    assert t[1..] == inner + ("\"" + post);
    assert '"' !in inner;
    ReplaceAfterPrefix(inner, "\"" + post, V1_PLACEHOLDER, r);
    SkipQuote(post, V1_PLACEHOLDER, r);
    ReplaceWithoutFirstChar(post, V1_PLACEHOLDER, r);
    assert [t[0]] + inner + "\"" + post == t;
  }

  lemma Regroup5(a: string, b: string, c: string, d: string, e: string)
    ensures a + b + c + d + e == a + (b + (c + (d + e)))
  {
  }

  /** Past the V1 placeholder, the V1 pass leaves a plain middle, the V2 placeholder and a plain tail alone. */
  lemma FirstPassTail(mid: string, post: string, q1: string)
    requires Plain(mid) && Plain(post)
    ensures ReplaceAll(mid + (V2_PLACEHOLDER + post), V1_PLACEHOLDER, q1) == mid + (V2_PLACEHOLDER + post)
  {
    ReplaceAfterPrefix(mid, V2_PLACEHOLDER + post, V1_PLACEHOLDER, q1);
    V1PassKeepsV2(post, q1);
  }

  /** The V1 pass on a template of the plain form. */
  lemma FirstPass(pre: string, mid: string, post: string, q1: string)
    requires Plain(pre) && Plain(mid) && Plain(post)
    ensures ReplaceAll(pre + V1_PLACEHOLDER + mid + V2_PLACEHOLDER + post, V1_PLACEHOLDER, q1)
            == pre + q1 + mid + V2_PLACEHOLDER + post
  {
    var tail := mid + (V2_PLACEHOLDER + post);
    Regroup5(pre, V1_PLACEHOLDER, mid, V2_PLACEHOLDER, post);
    ReplaceAfterPrefix(pre, V1_PLACEHOLDER + tail, V1_PLACEHOLDER, q1);
    ReplaceAtFront(V1_PLACEHOLDER, tail, q1);
    FirstPassTail(mid, post, q1);
    Regroup5(pre, q1, mid, V2_PLACEHOLDER, post);
  }

  /** The V2 pass after the V1 URI has been put in, both URIs plain. */
  lemma Regroup(pre: string, v1Uri: string, mid: string, p2: string, post: string)
    ensures pre + Quoted(v1Uri) + mid + p2 + post == pre + ("\"" + (v1Uri + ("\"" + (mid + (p2 + post)))))
  {
  }

  lemma SecondPass(pre: string, v1Uri: string, mid: string, post: string, q2: string)
    requires Plain(pre) && Plain(v1Uri) && Plain(mid) && Plain(post)
    ensures ReplaceAll(pre + Quoted(v1Uri) + mid + V2_PLACEHOLDER + post, V2_PLACEHOLDER, q2)
            == pre + Quoted(v1Uri) + mid + q2 + post
  {
    var p2 := V2_PLACEHOLDER;
    var rest := mid + (p2 + post);
    calc {
      ReplaceAll(pre + Quoted(v1Uri) + mid + p2 + post, p2, q2);
      { Regroup(pre, v1Uri, mid, p2, post); }
      ReplaceAll(pre + ("\"" + (v1Uri + ("\"" + rest))), p2, q2);
      { ReplaceAfterPrefix(pre, "\"" + (v1Uri + ("\"" + rest)), p2, q2); }
      pre + ReplaceAll("\"" + (v1Uri + ("\"" + rest)), p2, q2);
      { SkipQuote(v1Uri + ("\"" + rest), p2, q2); }
      pre + ("\"" + ReplaceAll(v1Uri + ("\"" + rest), p2, q2));
      { ReplaceAfterPrefix(v1Uri, "\"" + rest, p2, q2); }
      pre + ("\"" + (v1Uri + ReplaceAll("\"" + rest, p2, q2)));
      { SkipQuote(rest, p2, q2); }
      pre + ("\"" + (v1Uri + ("\"" + ReplaceAll(mid + (p2 + post), p2, q2))));
      { ReplaceAfterPrefix(mid, p2 + post, p2, q2); }
      pre + ("\"" + (v1Uri + ("\"" + (mid + ReplaceAll(p2 + post, p2, q2)))));
      { ReplaceAtFront(p2, post, q2); ReplaceWithoutFirstChar(post, p2, q2); }
      pre + ("\"" + (v1Uri + ("\"" + (mid + (q2 + post)))));
    }
  }

  /**
   * A template with one quoted V1 placeholder and then one quoted V2
   * placeholder, the rest plain, gets exactly the two quoted URIs in their
   * places when both URIs are plain.
   */
  lemma PlainTemplateSubstitution(pre: string, mid: string, post: string, v1Uri: string, v2Uri: string)
    requires Plain(pre) && Plain(mid) && Plain(post) && Plain(v1Uri) && Plain(v2Uri)
    ensures Substitute(pre + V1_PLACEHOLDER + mid + V2_PLACEHOLDER + post, v1Uri, v2Uri)
            == pre + Quoted(v1Uri) + mid + Quoted(v2Uri) + post
  {
    FirstPass(pre, mid, post, Quoted(v1Uri));
    SecondPass(pre, v1Uri, mid, post, Quoted(v2Uri));
  }

  /** The passes run in sequence: a V1 URI spelling the V2 placeholder is rewritten by the second. */
  lemma SequentialRewrite(v2Uri: string)
    ensures Substitute(V1_PLACEHOLDER, "{{ S3_URI_V2 }}", v2Uri) == Quoted(v2Uri)
  {
    ReplaceWhole(V1_PLACEHOLDER, Quoted("{{ S3_URI_V2 }}"));
    assert Quoted("{{ S3_URI_V2 }}") == V2_PLACEHOLDER;
    ReplaceWhole(V2_PLACEHOLDER, Quoted(v2Uri));
  }

  /**
   * Replacement does not rescan its own output: in a template where a
   * quoted placeholder shares its closing quote with the next one, a quoted
   * placeholder survives although neither URI holds placeholder text.
   */
  lemma SharedQuoteSurvives()
    ensures Contains(Substitute(V1_PLACEHOLDER + "{{ S3_URI_V1 }}\"", "u", "w"), V1_PLACEHOLDER)
  {
    var tail := "{{ S3_URI_V1 }}\"";
    var once := Quoted("u") + tail;
    SharedFirstPass(tail);
    SharedSecondPass(tail);
    assert once == "\"u\"" + V1_PLACEHOLDER[1..];
    assert once[2..2 + 17] == V1_PLACEHOLDER;
    assert OccursAt(once, V1_PLACEHOLDER, 2);
  }

  lemma SharedFirstPass(tail: string)
    requires tail == "{{ S3_URI_V1 }}\""
    ensures ReplaceAll(V1_PLACEHOLDER + tail, V1_PLACEHOLDER, Quoted("u")) == Quoted("u") + tail
  {
    ReplaceAtFront(V1_PLACEHOLDER, tail, Quoted("u"));
    ReplaceAbsentShort(tail, V1_PLACEHOLDER, Quoted("u"));
  }

  lemma SharedSecondPass(tail: string)
    requires tail == "{{ S3_URI_V1 }}\""
    ensures ReplaceAll(Quoted("u") + tail, V2_PLACEHOLDER, Quoted("w")) == Quoted("u") + tail
  {
    var q := Quoted("w");
    var v1 := "\"" + tail;
    assert v1 == V1_PLACEHOLDER;
    assert Quoted("u") + tail == "\"" + ("u" + v1);
    SkipQuote("u" + v1, V2_PLACEHOLDER, q);
    ReplaceCons('u', v1, V2_PLACEHOLDER, q);
    assert v1[..17][12] != V2_PLACEHOLDER[12];
    ReplaceSkip(v1, V2_PLACEHOLDER, q);
    assert v1[1..] == tail;
    ReplaceAbsentShort(tail, V2_PLACEHOLDER, q);
  }

  /** `main`: exit status 1 and no output unless both URIs were found; otherwise the generated text. */
  function DeployAbTest(v1Uri: Option<string>, v2Uri: Option<string>, template: string): (r: (int, Option<string>))
    ensures r.0 == 1 <==> !Truthy(v1Uri) || !Truthy(v2Uri)
    ensures r.0 == 1 ==> r.1.None?
    ensures r.0 != 1 ==> r.0 == 0 && r.1 == Some(Substitute(template, v1Uri.value, v2Uri.value))
  {
    if !Truthy(v1Uri) || !Truthy(v2Uri) then (1, None)
    else (0, Some(Substitute(template, v1Uri.value, v2Uri.value)))
  }
}
