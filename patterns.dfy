/**
 * The expected-error patterns read as regular expressions, as
 * `isExpectedError` reads them (`new RegExp(expected).test(...)`,
 * src/fuzz_loop.ts:236-241). Only a fragment of the `RegExp` syntax is
 * modelled: ordinary characters, `.` for any character but a line
 * terminator, and balanced
 * capturing groups. In that reading the parentheses of a default pattern
 * such as `429 (Too Many Requests)` make a group, not literal text, so the
 * pattern does not match an error that reports the status in those words.
 * The substring reading of `Triage.IsExpectedError` is what the rest of the
 * model uses.
 */
module Patterns {
  import opened Strings
  import opened CuzzOptions
  import opened Triage

  /** The characters, other than `(`, `)` and `.`, that `RegExp` gives a meaning. */
  predicate IsOtherMeta(c: char) {
    || c == '\\' || c == '^' || c == '$' || c == '*' || c == '+' || c == '?'
    || c == '[' || c == ']' || c == '{' || c == '}' || c == '|'
  }

  /** After `p`, with `open` groups open before it, every group is closed and none was closed too many. */
  predicate GroupsBalanced(p: string, open: nat) {
    if p == [] then open == 0
    else if p[0] == '(' then GroupsBalanced(p[1..], open + 1)
    else if p[0] == ')' then open > 0 && GroupsBalanced(p[1..], open - 1)
    else GroupsBalanced(p[1..], open)
  }

  /** The patterns of the modelled fragment. */
  predicate IsRegexFragment(p: string) {
    (forall i :: 0 <= i < |p| ==> !IsOtherMeta(p[i])) && GroupsBalanced(p, 0)
  }

  /** A pattern of only ordinary characters. */
  predicate IsPlain(p: string) {
    forall i :: 0 <= i < |p| ==> !IsOtherMeta(p[i]) && p[i] != '(' && p[i] != ')' && p[i] != '.'
  }

  /** A pattern with its group parentheses deleted: what the characters must match. */
  function Ungrouped(p: string): (q: string)
    ensures |q| <= |p|
  {
    if p == [] then []
    else (if p[0] == '(' || p[0] == ')' then [] else [p[0]]) + Ungrouped(p[1..])
  }

  /** The characters `.` does not match without the `s` flag. */
  predicate IsLineTerminator(c: char) {
    c == '\n' || c == '\r' || c == '\U{2028}' || c == '\U{2029}'
  }

  /** `q`, a pattern without groups, matches at the start of `s`. */
  predicate MatchesAtStart(q: string, s: string) {
    |q| <= |s| && forall i :: 0 <= i < |q| ==> (q[i] == '.' && !IsLineTerminator(s[i])) || q[i] == s[i]
  }

  /** `.` matches one character unless it ends a line. */
  lemma WildcardSkipsLineTerminators(c: char)
    ensures MatchesAtStart(".", [c]) <==> !IsLineTerminator(c)
  {
    assert "."[0] == '.' && [c][0] == c;
  }

  /** `new RegExp(p).test(s)`. */
  predicate RegexTest(p: string, s: string)
    requires IsRegexFragment(p)
  {
    exists i :: 0 <= i <= |s| && MatchesAtStart(Ungrouped(p), s[i..])
  }

  /** `isExpectedError` as written. */
  predicate IsExpectedErrorAsWritten(e: CallError, expected: seq<string>)
    requires forall k :: 0 <= k < |expected| ==> IsRegexFragment(expected[k])
  {
    exists k :: 0 <= k < |expected| && (RegexTest(expected[k], e.message) || RegexTest(expected[k], e.text))
  }

  lemma {:induction false} PlainIsOwnUngrouped(p: string)
    requires IsPlain(p)
    ensures Ungrouped(p) == p
  {
    if p != [] {
      PlainIsOwnUngrouped(p[1..]);
    }
  }

  lemma {:induction false} UngroupedAppend(a: string, b: string)
    ensures Ungrouped(a + b) == Ungrouped(a) + Ungrouped(b)
  {
    if a == [] {
      assert a + b == b;
    } else {
      var head := if a[0] == '(' || a[0] == ')' then [] else [a[0]];
      assert (a + b)[0] == a[0] && (a + b)[1..] == a[1..] + b;
      assert Ungrouped(a + b) == head + Ungrouped(a[1..] + b);
      UngroupedAppend(a[1..], b);
      assert Ungrouped(a) == head + Ungrouped(a[1..]);
      assert head + (Ungrouped(a[1..]) + Ungrouped(b)) == (head + Ungrouped(a[1..])) + Ungrouped(b);
    }
  }

  /** A plain prefix leaves the count of open groups as it is. */
  lemma {:induction false} BalancedAppendPlain(a: string, b: string, open: nat)
    requires IsPlain(a)
    ensures GroupsBalanced(a + b, open) == GroupsBalanced(b, open)
  {
    if a == [] {
      assert a + b == b;
    } else {
      assert (a + b)[0] == a[0] && (a + b)[1..] == a[1..] + b;
      BalancedAppendPlain(a[1..], b, open);
    }
  }

  /** Without `.`, matching at the start is being a prefix. */
  lemma MatchWithoutWildcard(q: string, s: string)
    requires forall k :: 0 <= k < |q| ==> q[k] != '.'
    ensures MatchesAtStart(q, s) <==> IsPrefix(q, s)
  {
    if MatchesAtStart(q, s) {
      assert s[..|q|] == q;
    }
  }

  /** A pattern without `.` that `RegexTest` reads as `q` matches where `q` occurs. */
  lemma TestWithoutWildcard(p: string, q: string, s: string)
    requires IsRegexFragment(p) && Ungrouped(p) == q
    requires forall k :: 0 <= k < |q| ==> q[k] != '.'
    ensures RegexTest(p, s) <==> Contains(s, q)
  {
    forall i | 0 <= i <= |s| ensures MatchesAtStart(q, s[i..]) <==> IsPrefix(q, s[i..]) {
      MatchWithoutWildcard(q, s[i..]);
    }
  }

  /** A plain pattern matches exactly where it occurs as text. */
  lemma PlainPatternIsSubstring(p: string, s: string)
    requires IsPlain(p)
    ensures IsRegexFragment(p)
    ensures RegexTest(p, s) <==> Contains(s, p)
  {
    PlainIsOwnUngrouped(p);
    BalancedAppendPlain(p, [], 0);
    assert p + [] == p;
    TestWithoutWildcard(p, p, s);
  }

  /** `a(b)` with plain `a` and `b` reads as `ab`. */
  lemma GroupedPatternText(p: string, a: string, b: string)
    requires IsPlain(a) && IsPlain(b) && p == a + "(" + b + ")"
    ensures Ungrouped(p) == a + b
  {
    var open, close := "(", ")";
    assert Ungrouped(open) == [] && Ungrouped(close) == [];
    PlainIsOwnUngrouped(a);
    PlainIsOwnUngrouped(b);
    UngroupedAppend(a, open);
    assert Ungrouped(a + open) == a;
    UngroupedAppend(a + open, b);
    assert Ungrouped(a + open + b) == a + b;
    UngroupedAppend(a + open + b, close);
    assert Ungrouped(a + open + b + close) == a + b + [];
    assert a + b + [] == a + b;
  }

  /** `a(b)` with plain `a` and `b` is a pattern of the fragment. */
  lemma GroupedPatternIsFragment(p: string, a: string, b: string)
    requires IsPlain(a) && IsPlain(b) && p == a + "(" + b + ")"
    ensures IsRegexFragment(p)
  {
    assert p == a + ("(" + b + ")");
    BalancedAppendPlain(a, "(" + b + ")", 0);
    assert ("(" + b + ")")[1..] == b + ")";
    BalancedAppendPlain(b, ")", 1);
    forall i | 0 <= i < |p| ensures !IsOtherMeta(p[i]) {
      if i < |a| { assert p[i] == a[i]; }
      else if i == |a| || i == |p| - 1 { }
      else { assert p[i] == b[i - |a| - 1]; }
    }
  }

  /** The text of two plain texts side by side has no `.`, `(` or `)`. */
  lemma PlainJoin(a: string, b: string)
    requires IsPlain(a) && IsPlain(b)
    ensures forall k :: 0 <= k < |a + b| ==> (a + b)[k] != '.' && (a + b)[k] != '(' && (a + b)[k] != ')'
  {
    forall k | 0 <= k < |a + b| ensures (a + b)[k] != '.' && (a + b)[k] != '(' && (a + b)[k] != ')' {
      if k < |a| { assert (a + b)[k] == a[k]; } else { assert (a + b)[k] == b[k - |a|]; }
    }
  }

  /**
   * A plain text followed by a plain group, `a(b)`, matches where the two
   * texts occur side by side, without the parentheses.
   */
  lemma GroupedPatternNeedsNoParentheses(p: string, a: string, b: string, s: string)
    requires IsPlain(a) && IsPlain(b) && p == a + "(" + b + ")"
    ensures IsRegexFragment(p)
    ensures RegexTest(p, s) <==> Contains(s, a + b)
  {
    GroupedPatternText(p, a, b);
    GroupedPatternIsFragment(p, a, b);
    PlainJoin(a, b);
    TestWithoutWildcard(p, a + b, s);
  }

  /** The default pattern for HTTP status 429. */
  const TooManyRequests: string := "429 (Too Many Requests)"

  lemma TooManyRequestsIsDefault()
    ensures TooManyRequests in DefaultExpectedErrors
  {
    assert DefaultExpectedErrors[1] == TooManyRequests;
  }

  /** `q` does not match at position `i` of `s` when its `k`-th character cannot match there. */
  lemma MismatchAt(q: string, s: string, i: nat, k: nat)
    requires k < |q| && i <= |s|
    requires i + k < |s| ==> q[k] != '.' && s[i + k] != q[k]
    ensures !MatchesAtStart(q, s[i..])
  {
  }

  /**
   * Read as a regular expression, a plain text followed by a plain group,
   * `a(b)`, does not match the text `a(b)` itself, nor that text after a
   * prefix in which the first character of `a` does not occur.
   */
  lemma ParenthesesNotMatched(p: string, a: string, b: string, c: string, s: string)
    requires IsPlain(a) && IsPlain(b) && |a| > 0 && |b| > 0 && p == a + "(" + b + ")"
    requires (forall j :: 0 <= j < |c| ==> c[j] != a[0]) && s == c + p
    ensures IsRegexFragment(p)
    ensures !RegexTest(p, s)
  {
    GroupedPatternText(p, a, b);
    GroupedPatternIsFragment(p, a, b);
    var q := a + b;
    PlainJoin(a, b);
    assert s[|c| + |a|] == '(' && s[|c| + |a| + |b| + 1] == ')';
    forall i | 0 <= i <= |s| ensures !MatchesAtStart(q, s[i..]) {
      if i < |c| {
        assert s[i] == c[i];
        MismatchAt(q, s, i, 0);
      } else if i - |c| <= |a| {
        MismatchAt(q, s, i, |a| - (i - |c|));
      } else if i < |s| {
        MismatchAt(q, s, i, |a| + |b| + 1 - (i - |c|));
      }
    }
  }

  /**
   * An error whose message is such a pattern, and whose text is the message
   * after a prefix without the pattern's first character, is not expected
   * as written.
   */
  lemma ParenthesisedErrorMissed(p: string, a: string, b: string, c: string)
    requires IsPlain(a) && IsPlain(b) && |a| > 0 && |b| > 0 && p == a + "(" + b + ")"
    requires forall j :: 0 <= j < |c| ==> c[j] != a[0]
    ensures IsRegexFragment(p)
    ensures !IsExpectedErrorAsWritten(CallError(p, c + p), [p])
  {
    assert p == "" + p;
    ParenthesesNotMatched(p, a, b, "", p);
    ParenthesesNotMatched(p, a, b, c, c + p);
  }

  /** The default pattern is a plain prefix, then a plain group. */
  lemma TooManyRequestsParts(a: string, b: string)
    requires a == "429 " && b == "Too Many Requests"
    ensures TooManyRequests == a + "(" + b + ")"
    ensures IsPlain(a) && IsPlain(b) && |a| > 0 && |b| > 0
    ensures forall j :: 0 <= j < |"Error: "| ==> "Error: "[j] != a[0]
  {
  }

  /**
   * An error that reports status 429 in those very words, in its message and
   * in its text, is not matched by the pattern written for it, though the
   * pattern occurs in both.
   */
  lemma TooManyRequestsMissedAsWritten()
    ensures IsRegexFragment(TooManyRequests)
    ensures var e := CallError(TooManyRequests, "Error: " + TooManyRequests);
      && !IsExpectedErrorAsWritten(e, [TooManyRequests])
      && IsExpectedError(e, [TooManyRequests])
  {
    var a, b := "429 ", "Too Many Requests";
    TooManyRequestsParts(a, b);
    ParenthesisedErrorMissed(TooManyRequests, a, b, "Error: ");
    ContainsItself(TooManyRequests);
    assert Contains(TooManyRequests, [TooManyRequests][0]);
  }
}
