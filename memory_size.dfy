/**
 * The memory sizes of the status display (src/fuzz_loop.ts): the reading
 * taken from the `Memory Size:` line of `dfx canister status`, and a size
 * written with its digits grouped in threes by `_`.
 *
 * Sizes are integers; JavaScript's floating-point numbers (exponent notation,
 * loss of precision above 2^53) are not modelled.
 */
module MemorySize {
  import opened Wrappers
  import opened Strings

  /** `s.replace(/_/g, '')`. */
  function StripUnderscores(s: string): (r: string)
    ensures |r| <= |s|
    ensures forall i :: 0 <= i < |r| ==> r[i] != '_' && r[i] in s
  {
    if s == [] then []
    else (if s[0] == '_' then [] else [s[0]]) + StripUnderscores(s[1..])
  }

  lemma {:induction false} StripAppend(a: string, b: string)
    ensures StripUnderscores(a + b) == StripUnderscores(a) + StripUnderscores(b)
  {
    if a == [] {
      assert a + b == b;
    } else {
      assert (a + b)[0] == a[0];
      assert (a + b)[1..] == a[1..] + b;
      StripAppend(a[1..], b);
    }
  }

  /** Removing `_` from a string without one changes nothing. */
  lemma {:induction false} StripNoUnderscore(s: string)
    requires forall i :: 0 <= i < |s| ==> s[i] != '_'
    ensures StripUnderscores(s) == s
  {
    if s != [] {
      StripNoUnderscore(s[1..]);
    }
  }

  /** A digit string with `_` put between every three digits, counted from the right. */
  function Group(d: string): (r: string)
    ensures |r| == |d| + (if |d| == 0 then 0 else (|d| - 1) / 3)
  {
    if |d| <= 3 then d else Group(d[..|d| - 3]) + "_" + d[|d| - 3..]
  }

  /**
   * What `replace(/\B(?=(\d{3})+(?!\d))/g, '_')` does to a digit string, one
   * position at a time: a `_` goes after a digit exactly when the digits
   * after it are a positive multiple of three in number.
   */
  function GroupByPosition(d: string): string {
    if |d| <= 1 then d
    else [d[0]] + (if (|d| - 1) % 3 == 0 then "_" else "") + GroupByPosition(d[1..])
  }

  lemma {:induction false} GroupByPositionShort(d: string)
    requires |d| <= 3
    ensures GroupByPosition(d) == d
  {
    if |d| > 1 {
      GroupByPositionShort(d[1..]);
    }
  }

  /** The position rule splits at a boundary followed by a whole number of triples. */
  lemma {:induction false} GroupByPositionSplit(a: string, b: string)
    requires |a| >= 1 && |b| >= 1 && |b| % 3 == 0
    ensures GroupByPosition(a + b) == GroupByPosition(a) + "_" + GroupByPosition(b)
  {
    var s := a + b;
    assert s[0] == a[0] && s[1..] == a[1..] + b;
    if |a| == 1 {
      assert s[1..] == b;
      assert (|s| - 1) % 3 == 0;
      assert GroupByPosition(s) == [a[0]] + "_" + GroupByPosition(b);
      assert GroupByPosition(a) == [a[0]];
    } else {
      var t := a[1..];
      var sep := if (|a| - 1) % 3 == 0 then "_" else "";
      assert (|s| - 1) % 3 == (|a| - 1) % 3 by {
        assert |s| - 1 == (|a| - 1) + |b|;
      }
      assert GroupByPosition(s) == [a[0]] + sep + GroupByPosition(t + b);
      assert GroupByPosition(a) == [a[0]] + sep + GroupByPosition(t);
      GroupByPositionSplit(t, b);
      JoinAssoc([a[0]] + sep, GroupByPosition(t), GroupByPosition(b));
    }
  }

  lemma JoinAssoc(p: string, x: string, y: string)
    ensures p + (x + "_" + y) == (p + x) + "_" + y
  {
  }

  /** Grouping in triples from the right is the replacement's position rule. */
  lemma {:induction false} GroupMatchesReplacement(d: string)
    ensures Group(d) == GroupByPosition(d)
  {
    if |d| <= 3 {
      GroupByPositionShort(d);
    } else {
      var a, b := d[..|d| - 3], d[|d| - 3..];
      assert d == a + b;
      GroupMatchesReplacement(a);
      GroupByPositionShort(b);
      GroupByPositionSplit(a, b);
    }
  }

  /** Deleting the `_` of a grouped digit string recovers the digits. */
  lemma {:induction false} UngroupGroup(d: string)
    requires AllDigits(d)
    ensures StripUnderscores(Group(d)) == d
  {
    if |d| <= 3 {
      StripNoUnderscore(d);
    } else {
      var a, b := d[..|d| - 3], d[|d| - 3..];
      var g := Group(a);
      assert Group(d) == g + "_" + b;
      assert AllDigits(a) by {
        forall i | 0 <= i < |a| ensures IsDigit(a[i]) { assert a[i] == d[i]; }
      }
      assert forall i :: 0 <= i < |b| ==> b[i] != '_' by {
        forall i | 0 <= i < |b| ensures b[i] != '_' { assert b[i] == d[|d| - 3 + i]; }
      }
      UngroupGroup(a);
      StripJoin(g, a, b);
      assert d == a + b;
    }
  }

  /** Removing `_` from a join by `_` joins what removing it from the parts gives. */
  lemma StripJoin(g: string, a: string, b: string)
    requires StripUnderscores(g) == a && forall i :: 0 <= i < |b| ==> b[i] != '_'
    ensures StripUnderscores(g + "_" + b) == a + b
  {
    StripAppend(g + "_", b);
    StripAppend(g, "_");
    StripNoUnderscore(b);
    assert StripUnderscores("_") == [];
    assert a + [] == a;
  }

  /**
   * `formatMemorySize`: `unknown` without a reading, otherwise the number's
   * digits grouped by `_` and ` bytes`. A minus sign is followed by a word
   * boundary, so it never gets a `_` after it.
   */
  function FormatMemorySize(bytes: Option<int>): (r: string)
    ensures bytes.None? <==> r == "unknown"
  {
    match bytes
    case None => "unknown"
    case Some(n) =>
      var s := (if n < 0 then "-" else "") + Group(DecimalString(if n < 0 then -n else n)) + " bytes";
      assert s[|s| - 1] == 's';
      s
  }

  /** A size is written as its grouped digits, and deleting their `_` gives its decimal string back. */
  lemma FormatRoundTrip(n: nat)
    ensures FormatMemorySize(Some(n)) == Group(DecimalString(n)) + " bytes"
    ensures StripUnderscores(Group(DecimalString(n))) == DecimalString(n)
  {
    assert FormatMemorySize(Some(n)) == Group(DecimalString(n)) + " bytes";
    UngroupGroup(DecimalString(n));
  }

  /** The characters of `[\d_]`. */
  predicate IsSizeChar(c: char) {
    IsDigit(c) || c == '_'
  }

  /** The length of the longest run of `[\d_]` at the start of `s`. */
  function SizeRun(s: string): (n: nat)
    ensures n <= |s|
    ensures forall i :: 0 <= i < n ==> IsSizeChar(s[i])
    ensures n < |s| ==> !IsSizeChar(s[n])
  {
    if s == [] || !IsSizeChar(s[0]) then 0 else 1 + SizeRun(s[1..])
  }

  const SizeLabel: string := "Memory Size: "
  const SizeUnit: string := " Bytes"

  /**
   * `/Memory Size: ([\d_]+) Bytes/` anchored at the start of `s`: the
   * captured group. `[\d_]+` can only give up characters of `[\d_]`, none of
   * which starts ` Bytes`, so the longest run is the only candidate.
   */
  function MatchAt(s: string): (r: Option<string>)
    ensures r.Some? ==> |r.value| > 0 && forall i :: 0 <= i < |r.value| ==> IsSizeChar(r.value[i])
    ensures r.Some? ==> IsPrefix(SizeLabel + r.value + SizeUnit, s)
    ensures forall g :: IsSizedLine(g, s) ==> r == Some(g)
  {
    if !IsPrefix(SizeLabel, s) then
      assert forall g :: !IsSizedLine(g, s) by {
        forall g | IsSizedLine(g, s) ensures false {
          SizedLineParts(g, s);
        }
      }
      None
    else
      var rest := s[|SizeLabel|..];
      var n := SizeRun(rest);
      if n > 0 && IsPrefix(SizeUnit, rest[n..]) then
        var g := rest[..n];
        assert s == SizeLabel + rest;
        assert rest == g + rest[n..];
        assert IsPrefix(SizeLabel + g + SizeUnit, s) by {
          assert s[..|SizeLabel + g + SizeUnit|] == SizeLabel + g + SizeUnit;
        }
        assert forall h :: IsSizedLine(h, s) ==> h == g by {
          forall h | IsSizedLine(h, s) ensures h == g {
            SizedLineParts(h, s);
          }
        }
        Some(g)
      else
        assert forall g :: !IsSizedLine(g, s) by {
          forall g | IsSizedLine(g, s) ensures false {
            SizedLineParts(g, s);
          }
        }
        None
  }

  /** `s` starts with a `Memory Size:` line whose group is `g`. */
  predicate IsSizedLine(g: string, s: string) {
    && |g| > 0
    && (forall i :: 0 <= i < |g| ==> IsSizeChar(g[i]))
    && IsPrefix(SizeLabel + g + SizeUnit, s)
  }

  /** The pieces of a `Memory Size:` line, as `MatchAt` looks for them. */
  lemma SizedLineParts(g: string, s: string)
    requires IsSizedLine(g, s)
    ensures IsPrefix(SizeLabel, s)
    ensures SizeRun(s[|SizeLabel|..]) == |g|
    ensures s[|SizeLabel|..][..|g|] == g
    ensures IsPrefix(SizeUnit, s[|SizeLabel|..][|g|..])
  {
    var w := SizeLabel + g + SizeUnit;
    assert s[..|w|] == w;
    assert s[..|SizeLabel|] == w[..|SizeLabel|] == SizeLabel;
    var rest := s[|SizeLabel|..];
    assert rest[..|g|] == w[|SizeLabel|..|SizeLabel| + |g|] == g;
    assert rest[|g|..][..|SizeUnit|] == w[|SizeLabel| + |g|..] == SizeUnit;
    assert rest[|g|] == ' ';
    SizeRunPrefix(rest, |g|);
  }

  /** `stdout.match(...)`: the group of the leftmost match, or `null`. */
  function MemoryMatch(s: string): Option<string> {
    if MatchAt(s).Some? then MatchAt(s)
    else if s == [] then None
    else MemoryMatch(s[1..])
  }

  /** There is no match exactly when the pattern matches at no position. */
  lemma {:induction false} MemoryMatchNone(s: string)
    ensures MemoryMatch(s).None? <==> forall i :: 0 <= i <= |s| ==> MatchAt(s[i..]).None?
  {
    assert s[0..] == s;
    if MatchAt(s).None? && s != [] {
      MemoryMatchNone(s[1..]);
      assert forall i :: 1 <= i <= |s| ==> s[i..] == s[1..][i - 1..];
    }
  }

  /** A match is the group of the pattern at the first position where it matches. */
  lemma {:induction false} MemoryMatchLeftmost(s: string)
    requires MemoryMatch(s).Some?
    ensures exists i :: 0 <= i <= |s| && MatchAt(s[i..]) == MemoryMatch(s) && forall j :: 0 <= j < i ==> MatchAt(s[j..]).None?
  {
    assert s[0..] == s;
    if MatchAt(s).None? {
      var r := MemoryMatch(s[1..]);
      MemoryMatchLeftmost(s[1..]);
      var i :| 0 <= i <= |s[1..]| && MatchAt(s[1..][i..]) == r && forall j :: 0 <= j < i ==> MatchAt(s[1..][j..]).None?;
      assert s[i + 1..] == s[1..][i..];
      forall j | 0 <= j < i + 1 ensures MatchAt(s[j..]).None? {
        if j > 0 { assert s[j..] == s[1..][j - 1..]; }
      }
    }
  }

  /**
   * The reading parsed from the status output (`getRawMemorySize` after the
   * command): the captured digits without their `_`, or `null` when the
   * command failed (`stdout` absent) or has no such line.
   */
  function ParseMemorySize(stdout: Option<string>): (r: Option<int>)
    ensures r.Some? ==> stdout.Some? && MemoryMatch(stdout.value).Some? && r.value >= 0
    ensures stdout.Some? && MemoryMatch(stdout.value).Some? ==> r.Some?
  {
    match stdout
    case None => None
    case Some(s) =>
      match MemoryMatch(s)
      case None => None
      case Some(g) =>
        MemoryMatchLeftmost(s);
        var digits := StripUnderscores(g);
        assert AllDigits(digits) by {
          forall i | 0 <= i < |digits| ensures IsDigit(digits[i]) {
            var c := digits[i];
            assert c in g && c != '_';
            var k :| 0 <= k < |g| && g[k] == c;
            assert IsSizeChar(g[k]);
          }
        }
        Some(DecimalValue(digits))
  }

  /**
   * A status output whose `Memory Size:` line carries a grouped size reads
   * back as that size, whatever lines come before it, provided none of them
   * holds the label, and whatever follows it.
   */
  lemma ParseGroupedLine(pre: string, n: nat, rest: string)
    requires !Contains(pre, SizeLabel)
    ensures ParseMemorySize(Some(pre + SizeLabel + Group(DecimalString(n)) + SizeUnit + rest)) == Some(n)
  {
    var g := Group(DecimalString(n));
    var line := SizeLabel + g + SizeUnit + rest;
    var s := pre + line;
    assert s == pre + SizeLabel + g + SizeUnit + rest;
    GroupOfDigits(DecimalString(n));
    assert IsSizedLine(g, line) by {
      assert line[..|SizeLabel + g + SizeUnit|] == SizeLabel + g + SizeUnit;
    }
    assert s[|pre|..] == line;
    forall j | 0 <= j < |pre| ensures MatchAt(s[j..]).None? {
      NoMatchBeforeLabel(pre, line, j);
    }
    MemoryMatchAt(s, |pre|);
    assert MemoryMatch(s) == Some(g);
    FormatRoundTrip(n);
    DecimalRoundTrip(n);
  }

  /**
   * No match starts inside `pre` when `pre` does not hold the label: one
   * that ran past the end of `pre` would need an `M` inside the label,
   * which has its only `M` first.
   */
  lemma NoMatchBeforeLabel(pre: string, line: string, j: nat)
    requires !Contains(pre, SizeLabel) && IsPrefix(SizeLabel, line) && j < |pre|
    ensures MatchAt((pre + line)[j..]).None?
  {
    var s := pre + line;
    var t := s[j..];
    var m := |SizeLabel|;
    if j + m > |pre| {
      var k := |pre| - j;
      LabelHasOneM(k);
      assert t[k] == line[0] == 'M' != SizeLabel[k];
    } else {
      assert !IsPrefix(SizeLabel, pre[j..]);
      assert t[..m] == pre[j..][..m];
    }
    assert !IsPrefix(SizeLabel, t);
    NoLabelNoMatch(t);
  }

  lemma NoLabelNoMatch(t: string)
    requires !IsPrefix(SizeLabel, t)
    ensures MatchAt(t).None?
  {
  }

  /** The label has no `M` after its first character. */
  lemma LabelHasOneM(k: int)
    requires 0 < k < |SizeLabel|
    ensures SizeLabel[k] != 'M'
  {
  }

  /** When the first match is at `p`, the search returns its group. */
  lemma {:induction false} MemoryMatchAt(s: string, p: nat)
    requires p <= |s| && MatchAt(s[p..]).Some?
    requires forall j :: 0 <= j < p ==> MatchAt(s[j..]).None?
    ensures MemoryMatch(s) == MatchAt(s[p..])
  {
    assert s[0..] == s;
    if p > 0 {
      assert s[1..][p - 1..] == s[p..];
      forall j | 0 <= j < p - 1 ensures MatchAt(s[1..][j..]).None? {
        assert s[1..][j..] == s[j + 1..];
      }
      MemoryMatchAt(s[1..], p - 1);
    }
  }

  /** The grouped digit string keeps to `[\d_]`. */
  lemma {:induction false} GroupOfDigits(d: string)
    requires AllDigits(d)
    ensures forall i :: 0 <= i < |Group(d)| ==> IsSizeChar(Group(d)[i])
  {
    if |d| > 3 {
      GroupOfDigits(d[..|d| - 3]);
    }
  }

  /** The run stops at the first character outside `[\d_]`. */
  lemma SizeRunPrefix(s: string, k: nat)
    requires k < |s| && !IsSizeChar(s[k])
    requires forall i :: 0 <= i < k ==> IsSizeChar(s[i])
    ensures SizeRun(s) == k
  {
  }
}
