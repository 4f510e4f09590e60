/**
 * The handful of Python `str` operations the scripts rely on: substring
 * test (`in`), `startswith`/`endswith`, `split` on one character,
 * `lower`, `strip`, `replace`, and `str()` of an integer.
 */
module Text {
  import opened Wrappers

  /** Python truthiness of an optional string: None and "" are false. */
  predicate Truthy(s: Option<string>) {
    s.Some? && s.value != ""
  }

  /** `p` occurs in `s` starting at index `i`. */
  predicate OccursAt(s: string, p: string, i: int) {
    0 <= i && i + |p| <= |s| && s[i..i + |p|] == p
  }

  /** Python's `p in s` for strings. */
  predicate Contains(s: string, p: string) {
    exists i | 0 <= i <= |s| - |p| :: OccursAt(s, p, i)
  }

  predicate StartsWith(s: string, p: string) {
    |p| <= |s| && s[..|p|] == p
  }

  predicate EndsWith(s: string, p: string) {
    |p| <= |s| && s[|s| - |p|..] == p
  }

  lemma StartsWithContains(s: string, p: string)
    requires StartsWith(s, p)
    ensures Contains(s, p)
  {
    assert OccursAt(s, p, 0);
  }

  lemma ContainsInExtension(s: string, p: string, pre: string, post: string)
    requires Contains(s, p)
    ensures Contains(pre + s + post, p)
  {
    var i :| 0 <= i <= |s| - |p| && OccursAt(s, p, i);
    assert (pre + s + post)[|pre| + i..|pre| + i + |p|] == s[i..i + |p|];
    assert OccursAt(pre + s + post, p, |pre| + i);
  }

  // ---------------------------------------------------------------- case and blanks

  /**
   * `str.lower` on the ASCII letters only; the non-ASCII case mappings
   * (such as U+212A KELVIN SIGN to 'k') are not part of this model.
   */
  function LowerChar(c: char): (r: char)
    ensures 'A' <= c <= 'Z' ==> 'a' <= r <= 'z'
    ensures !('A' <= c <= 'Z') ==> r == c
  {
    if 'A' <= c <= 'Z' then (c as int + 32) as char else c
  }

  function Lower(s: string): (r: string)
    ensures |r| == |s|
    ensures forall i :: 0 <= i < |s| ==> r[i] == LowerChar(s[i])
  {
    seq(|s|, i requires 0 <= i < |s| => LowerChar(s[i]))
  }

  /** No upper-case ASCII letter: `str.lower` leaves the text as it is. */
  predicate IsLower(s: string) {
    forall i :: 0 <= i < |s| ==> !('A' <= s[i] <= 'Z')
  }

  lemma LowerIsLower(s: string)
    ensures IsLower(Lower(s))
  {
  }

  lemma LowerOfLower(s: string)
    requires IsLower(s)
    ensures Lower(s) == s
  {
  }

  /**
   * The characters `str.strip()` removes, those for which `str.isspace()`
   * holds: tab through carriage return, the separators 0x1C-0x1F, space,
   * NEL, no-break space and the Unicode space separators and line/paragraph
   * separators.
   */
  predicate IsSpace(c: char) {
    var n := c as int;
    9 <= n <= 13 || 0x1C <= n <= 0x20 || n == 0x85 || n == 0xA0 || n == 0x1680
    || 0x2000 <= n <= 0x200A || n == 0x2028 || n == 0x2029 || n == 0x202F || n == 0x205F || n == 0x3000
  }

  function StripLeft(s: string): (r: string)
    ensures |r| <= |s| && r == s[|s| - |r|..]
    ensures r == [] || !IsSpace(r[0])
    ensures forall i :: 0 <= i < |s| - |r| ==> IsSpace(s[i])
  {
    if |s| > 0 && IsSpace(s[0]) then StripLeft(s[1..]) else s
  }

  function StripRight(s: string): (r: string)
    ensures |r| <= |s| && r == s[..|r|]
    ensures r == [] || !IsSpace(r[|r| - 1])
    ensures forall i :: |r| <= i < |s| ==> IsSpace(s[i])
  {
    if |s| > 0 && IsSpace(s[|s| - 1]) then StripRight(s[..|s| - 1]) else s
  }

  /** `str.strip()`: no leading or trailing blank is left, and only blanks were removed. */
  function Strip(s: string): (r: string)
    ensures r == [] || (!IsSpace(r[0]) && !IsSpace(r[|r| - 1]))
    ensures Contains(s, r)
  {
    var l := StripLeft(s);
    var r := StripRight(l);
    assert OccursAt(s, r, |s| - |l|);
    r
  }

  /** Dropping leading blanks keeps every occurrence of a pattern that starts with a non-blank. */
  lemma DropLeadingBlanks(s: string, n: nat, p: string)
    requires n <= |s| && forall i :: 0 <= i < n ==> IsSpace(s[i])
    requires |p| > 0 && !IsSpace(p[0]) && Contains(s, p)
    ensures Contains(s[n..], p)
  {
    var i :| 0 <= i <= |s| - |p| && OccursAt(s, p, i);
    assert s[i] == s[i..i + |p|][0] == p[0];
    assert s[n..][i - n..i - n + |p|] == s[i..i + |p|];
    assert OccursAt(s[n..], p, i - n);
  }

  /** Dropping trailing blanks keeps every occurrence of a pattern that ends with a non-blank. */
  lemma DropTrailingBlanks(s: string, n: nat, p: string)
    requires n <= |s| && forall i :: n <= i < |s| ==> IsSpace(s[i])
    requires |p| > 0 && !IsSpace(p[|p| - 1]) && Contains(s, p)
    ensures Contains(s[..n], p)
  {
    var i :| 0 <= i <= |s| - |p| && OccursAt(s, p, i);
    assert s[i + |p| - 1] == s[i..i + |p|][|p| - 1] == p[|p| - 1];
    assert s[..n][i..i + |p|] == s[i..i + |p|];
    assert OccursAt(s[..n], p, i);
  }

  /**
   * Stripping blanks never removes an occurrence of a pattern that starts
   * and ends with a non-blank, so `p in s.strip()` is `p in s` for it.
   */
  lemma StripKeepsPattern(s: string, p: string)
    requires |p| > 0 && !IsSpace(p[0]) && !IsSpace(p[|p| - 1])
    ensures Contains(Strip(s), p) <==> Contains(s, p)
  {
    if Contains(Strip(s), p) {
      ContainsTrans(s, Strip(s), p);
    }
    if Contains(s, p) {
      var l := StripLeft(s);
      DropLeadingBlanks(s, |s| - |l|, p);
      DropTrailingBlanks(l, |StripRight(l)|, p);
    }
  }

  // ---------------------------------------------------------------- split

  function CountChar(s: string, c: char): (n: nat)
    ensures n <= |s|
    ensures n == 0 <==> c !in s
  {
    if s == [] then 0 else (if s[0] == c then 1 else 0) + CountChar(s[1..], c)
  }

  /** `s.split(c)`: the pieces between occurrences of `c`; one more piece than separators. */
  function Split(s: string, c: char): (parts: seq<string>)
    ensures |parts| == CountChar(s, c) + 1
    ensures forall k :: 0 <= k < |parts| ==> c !in parts[k]
  {
    if s == [] then [[]]
    else
      var rest := Split(s[1..], c);
      if s[0] == c then [[]] + rest
      else [[s[0]] + rest[0]] + rest[1..]
  }

  /** The pieces of a lower-case text are lower case. */
  lemma {:induction false} SplitIsLower(s: string, c: char)
    requires IsLower(s)
    ensures forall k :: 0 <= k < |Split(s, c)| ==> IsLower(Split(s, c)[k])
  {
    if s != [] {
      SplitIsLower(s[1..], c);
    }
  }

  /** Joining the pieces back with the separator gives the original text. */
  function Join(parts: seq<string>, c: char): (s: string)
    requires |parts| > 0
  {
    if |parts| == 1 then parts[0] else parts[0] + [c] + Join(parts[1..], c)
  }

  lemma {:induction false} SplitJoin(s: string, c: char)
    ensures Join(Split(s, c), c) == s
  {
    if s != [] {
      var rest := Split(s[1..], c);
      SplitJoin(s[1..], c);
      if s[0] == c {
        assert Split(s, c) == [[]] + rest;
        assert Join(Split(s, c), c) == [] + [c] + Join(rest, c);
      } else {
        var parts := Split(s, c);
        assert parts == [[s[0]] + rest[0]] + rest[1..];
        if |rest| == 1 {
          assert Join(parts, c) == [s[0]] + rest[0];
        } else {
          assert parts[1..] == rest[1..];
          assert Join(rest, c) == rest[0] + [c] + Join(rest[1..], c);
          assert Join(parts, c) == [s[0]] + rest[0] + [c] + Join(rest[1..], c);
        }
      }
    }
  }

  /** A text without the separator is a single piece. */
  lemma {:induction false} SplitNoSeparator(a: string, c: char)
    requires c !in a
    ensures Split(a, c) == [a]
  {
    if a != [] {
      SplitNoSeparator(a[1..], c);
      assert [a[0]] + a[1..] == a;
    }
  }

  /** Splitting `a + c + b`, with no `c` in `a`, yields `a` followed by the pieces of `b`. */
  lemma {:induction false} SplitAfterPiece(a: string, c: char, b: string)
    requires c !in a
    ensures Split(a + [c] + b, c) == [a] + Split(b, c)
  {
    if a == [] {
      assert a + [c] + b == [c] + b;
      assert ([c] + b)[1..] == b;
    } else {
      var s := a + [c] + b;
      assert s[1..] == a[1..] + [c] + b;
      SplitAfterPiece(a[1..], c, b);
      var rest := Split(s[1..], c);
      assert rest[0] == a[1..] && rest[1..] == Split(b, c);
      assert s[0] == a[0] != c;
      assert [a[0]] + a[1..] == a;
    }
  }

  lemma {:induction false} CountCharAppend(s: string, t: string, c: char)
    ensures CountChar(s + t, c) == CountChar(s, c) + CountChar(t, c)
  {
    if s == [] {
      assert s + t == t;
    } else {
      assert (s + t)[1..] == s[1..] + t;
      CountCharAppend(s[1..], t, c);
    }
  }

  lemma SliceOfSlice(s: string, a: nat, c: nat, b: nat, d: nat)
    requires a <= c <= |s| && b <= d <= c - a
    ensures s[a..c][b..d] == s[a + b..a + d]
  {
    forall k | 0 <= k < d - b
      ensures s[a..c][b..d][k] == s[a + b..a + d][k]
    {
      assert s[a..c][b..d][k] == s[a..c][b + k] == s[a + b + k];
    }
  }

  /** Containment is transitive. */
  lemma ContainsTrans(s: string, t: string, p: string)
    requires Contains(s, t) && Contains(t, p)
    ensures Contains(s, p)
  {
    var a :| 0 <= a <= |s| - |t| && OccursAt(s, t, a);
    var b :| 0 <= b <= |t| - |p| && OccursAt(t, p, b);
    calc {
      p;
      t[b..b + |p|];
      s[a..a + |t|][b..b + |p|];
      { SliceOfSlice(s, a, a + |t|, b, b + |p|); }
      s[a + b..a + b + |p|];
    }
    assert OccursAt(s, p, a + b);
  }

  /** Dropping the first character keeps a text's pieces: the tail occurs in the text. */
  lemma TailOccurs(s: string)
    requires s != []
    ensures Contains(s, s[1..])
  {
    assert OccursAt(s, s[1..], 1);
  }

  /** The first piece of a split is a prefix of the text. */
  lemma {:induction false} SplitFirstIsPrefix(s: string, c: char)
    ensures StartsWith(s, Split(s, c)[0])
  {
    if s != [] && s[0] != c {
      var rest := Split(s[1..], c);
      SplitFirstIsPrefix(s[1..], c);
      assert Split(s, c)[0] == [s[0]] + rest[0];
      assert s[..1 + |rest[0]|] == [s[0]] + s[1..][..|rest[0]|];
    }
  }

  /** Every piece of a split occurs in the text. */
  lemma {:induction false} SplitPiecesOccur(s: string, c: char)
    ensures forall k :: 0 <= k < |Split(s, c)| ==> Contains(s, Split(s, c)[k])
  {
    var parts := Split(s, c);
    SplitFirstIsPrefix(s, c);
    assert OccursAt(s, parts[0], 0);
    if s != [] {
      var rest := Split(s[1..], c);
      SplitPiecesOccur(s[1..], c);
      TailOccurs(s);
      var later := parts[1..];
      assert forall m :: 0 <= m < |later| ==> Contains(s[1..], later[m]) by {
        if s[0] == c {
          assert later == rest;
        } else {
          assert later == rest[1..];
        }
      }
      forall k | 1 <= k < |parts|
        ensures Contains(s, parts[k])
      {
        assert parts[k] == later[k - 1];
        ContainsTrans(s, s[1..], later[k - 1]);
      }
    }
  }

  /** A pattern holding a character the text lacks does not occur in it. */
  lemma NotContainsByChar(s: string, p: string, c: char)
    requires c in p && c !in s
    ensures !Contains(s, p)
  {
    var k :| 0 <= k < |p| && p[k] == c;
    forall i | 0 <= i <= |s| - |p|
      ensures !OccursAt(s, p, i)
    {
      assert s[i..i + |p|][k] == s[i + k];
    }
  }

  /** A text holds at least as many of a character as any substring of it. */
  lemma ContainsCount(s: string, p: string, c: char)
    requires Contains(s, p)
    ensures CountChar(s, c) >= CountChar(p, c)
  {
    var i :| 0 <= i <= |s| - |p| && OccursAt(s, p, i);
    assert s == s[..i] + p + s[i + |p|..];
    CountCharAppend(s[..i] + p, s[i + |p|..], c);
    CountCharAppend(s[..i], p, c);
  }

  /** The other round trip: pieces free of the separator come back from splitting their join. */
  lemma {:induction false} JoinSplit(parts: seq<string>, c: char)
    requires |parts| > 0 && forall k :: 0 <= k < |parts| ==> c !in parts[k]
    ensures Split(Join(parts, c), c) == parts
  {
    if |parts| == 1 {
      SplitNoSeparator(parts[0], c);
    } else {
      JoinSplit(parts[1..], c);
      SplitAfterPiece(parts[0], c, Join(parts[1..], c));
      assert [parts[0]] + parts[1..] == parts;
    }
  }

  /** A join of n pieces holds at least n - 1 separators. */
  lemma {:induction false} JoinSeparators(parts: seq<string>, c: char)
    requires |parts| > 0
    ensures CountChar(Join(parts, c), c) >= |parts| - 1
  {
    if |parts| > 1 {
      JoinSeparators(parts[1..], c);
      CountCharAppend(parts[0] + [c], Join(parts[1..], c), c);
      CountCharAppend(parts[0], [c], c);
    }
  }

  // ---------------------------------------------------------------- replace

  /** `s.replace(p, r)`: left to right, non-overlapping, every occurrence. */
  function ReplaceAll(s: string, p: string, r: string): (t: string)
    requires |p| > 0
    decreases |s|
  {
    if |s| < |p| then s
    else if s[..|p|] == p then r + ReplaceAll(s[|p|..], p, r)
    else [s[0]] + ReplaceAll(s[1..], p, r)
  }

  lemma {:induction false} ReplaceAbsent(s: string, p: string, r: string)
    requires |p| > 0 && !Contains(s, p)
    ensures ReplaceAll(s, p, r) == s
    decreases |s|
  {
    if |s| >= |p| {
      assert !OccursAt(s, p, 0);
      if !Contains(s[1..], p) {
        ReplaceAbsent(s[1..], p, r);
      } else {
        var i :| 0 <= i <= |s[1..]| - |p| && OccursAt(s[1..], p, i);
        assert s[1..][i..i + |p|] == s[i + 1..i + 1 + |p|];
        assert OccursAt(s, p, i + 1);
        assert false;
      }
    }
  }

  /** A text that does not start with the pattern keeps its first character. */
  lemma ReplaceSkip(s: string, p: string, r: string)
    requires |p| > 0 && |s| > 0 && !(|p| <= |s| && s[..|p|] == p)
    ensures ReplaceAll(s, p, r) == [s[0]] + ReplaceAll(s[1..], p, r)
  {
    if |s| < |p| {
      ReplaceAbsentShort(s[1..], p, r);
      assert [s[0]] + s[1..] == s;
    }
  }

  lemma ReplaceAbsentShort(s: string, p: string, r: string)
    requires 0 < |p| && |s| < |p|
    ensures ReplaceAll(s, p, r) == s
  {
  }

  /** A character other than the pattern's first passes through unchanged. */
  lemma ReplaceCons(c: char, s: string, p: string, r: string)
    requires |p| > 0 && c != p[0]
    ensures ReplaceAll([c] + s, p, r) == [c] + ReplaceAll(s, p, r)
  {
    var t := [c] + s;
    if |p| <= |t| {
      assert t[..|p|][0] != p[0];
    }
    ReplaceSkip(t, p, r);
    assert t[1..] == s;
  }

  /** A prefix free of the pattern's first character passes through unchanged. */
  lemma {:induction false} ReplaceAfterPrefix(pre: string, s: string, p: string, r: string)
    requires |p| > 0 && p[0] !in pre
    ensures ReplaceAll(pre + s, p, r) == pre + ReplaceAll(s, p, r)
    decreases |pre|
  {
    if pre == [] {
      assert pre + s == s;
    } else {
      assert pre + s == [pre[0]] + (pre[1..] + s);
      ReplaceCons(pre[0], pre[1..] + s, p, r);
      ReplaceAfterPrefix(pre[1..], s, p, r);
      assert [pre[0]] + pre[1..] == pre;
    }
  }

  /** A text free of the pattern's first character is left as it is. */
  lemma ReplaceWithoutFirstChar(s: string, p: string, r: string)
    requires |p| > 0 && p[0] !in s
    ensures ReplaceAll(s, p, r) == s
  {
    ReplaceAfterPrefix(s, [], p, r);
    assert s + [] == s;
  }

  /** An occurrence at the front is replaced and the scan continues after it. */
  lemma ReplaceAtFront(p: string, s: string, r: string)
    requires |p| > 0
    ensures ReplaceAll(p + s, p, r) == r + ReplaceAll(s, p, r)
  {
    assert (p + s)[..|p|] == p && (p + s)[|p|..] == s;
  }

  /** A text that is exactly the pattern is replaced by the replacement alone. */
  lemma {:induction false} ReplaceWhole(p: string, r: string)
    requires |p| > 0
    ensures ReplaceAll(p, p, r) == r
  {
    assert p[..|p|] == p;
    assert p[|p|..] == [];
  }

  // ---------------------------------------------------------------- integers

  function DigitChar(d: nat): (c: char)
    requires d < 10
    ensures '0' <= c <= '9'
  {
    ('0' as int + d) as char
  }

  function DigitValue(c: char): (d: nat)
    requires '0' <= c <= '9'
    ensures d < 10
  {
    c as int - '0' as int
  }

  /** Decimal digits of a natural number, without leading zeros. */
  function NatToString(n: nat): (s: string)
    ensures |s| > 0
    ensures forall i :: 0 <= i < |s| ==> '0' <= s[i] <= '9'
    ensures n > 0 ==> s[0] != '0'
    decreases n
  {
    if n < 10 then [DigitChar(n)] else NatToString(n / 10) + [DigitChar(n % 10)]
  }

  /** `str(n)` for a Python int. */
  function IntToString(n: int): (s: string)
    ensures |s| > 0
    ensures s[0] == '-' || '0' <= s[0] <= '9'
    ensures forall i :: 1 <= i < |s| ==> '0' <= s[i] <= '9'
    ensures (s[0] == '-') <==> n < 0
  {
    if n < 0 then "-" + NatToString(-n) else NatToString(n)
  }

  /** Reads back a string of decimal digits. */
  function DigitsValue(s: string): (n: nat)
    requires forall i :: 0 <= i < |s| ==> '0' <= s[i] <= '9'
  {
    if s == [] then 0 else 10 * DigitsValue(s[..|s| - 1]) + DigitValue(s[|s| - 1])
  }

  function ParseInt(s: string): (n: int)
    requires |s| > 0
    requires s[0] == '-' || '0' <= s[0] <= '9'
    requires forall i :: 1 <= i < |s| ==> '0' <= s[i] <= '9'
  {
    if s[0] == '-' then 0 - DigitsValue(s[1..]) as int else DigitsValue(s) as int
  }

  lemma {:induction false} NatToStringRoundTrip(n: nat)
    ensures DigitsValue(NatToString(n)) == n
    decreases n
  {
    if n >= 10 {
      NatToStringRoundTrip(n / 10);
      var s := NatToString(n);
      assert s[..|s| - 1] == NatToString(n / 10);
    }
  }

  /** `int(str(n)) == n`. */
  lemma IntToStringRoundTrip(n: int)
    ensures ParseInt(IntToString(n)) == n
  {
    if n < 0 {
      NatToStringRoundTrip(-n);
      assert IntToString(n)[1..] == NatToString(-n);
    } else {
      NatToStringRoundTrip(n);
    }
  }
}
