/**
 * The Python string operations the core relies on: substring test (`p in s`),
 * `str.lower`, `str.replace(pat, "")`, `str.strip` and `sep.join(xs)`.
 */
module Strings {

  // ---------------------------------------------------------------------------
  // Substrings
  // ---------------------------------------------------------------------------

  /** `p` occurs in `s` starting at index `i`. */
  predicate OccursAt(p: string, s: string, i: int) {
    0 <= i && i + |p| <= |s| && s[i..i + |p|] == p
  }

  /** Python's `p in s` on strings. */
  predicate Contains(s: string, p: string) {
    exists i :: 0 <= i <= |s| - |p| && OccursAt(p, s, i)
  }

  lemma OccursInMiddle(a: string, p: string, b: string)
    ensures OccursAt(p, a + p + b, |a|)
  {
    assert (a + p + b)[|a|..|a| + |p|] == p;
  }

  lemma ContainsMiddle(a: string, p: string, b: string)
    ensures Contains(a + p + b, p)
  {
    OccursInMiddle(a, p, b);
  }

  /** Being a substring is transitive. */
  lemma ContainsTransitive(t: string, s: string, p: string)
    requires Contains(t, s) && Contains(s, p)
    ensures Contains(t, p)
  {
    var i :| 0 <= i <= |t| - |s| && OccursAt(s, t, i);
    var j :| 0 <= j <= |s| - |p| && OccursAt(p, s, j);
    forall k | 0 <= k < |p|
      ensures t[i + j..i + j + |p|][k] == p[k]
    {
      assert p[k] == s[j + k] == t[i + j + k];
    }
    assert t[i + j..i + j + |p|] == p;
    assert OccursAt(p, t, i + j);
  }

  /** An occurrence in `t` is still one, at the same index, once `b` is appended. */
  lemma OccursBeforeSuffix(p: string, t: string, b: string, k: int)
    requires OccursAt(p, t, k)
    ensures OccursAt(p, t + b, k)
  {
    assert (t + b)[k..k + |p|] == t[k..k + |p|];
  }

  /** An occurrence in `t` is an occurrence in `a + t`, shifted by `|a|`. */
  lemma OccursAfterPrefix(p: string, a: string, t: string, k: int)
    requires OccursAt(p, t, k)
    ensures OccursAt(p, a + t, |a| + k)
  {
    assert (a + t)[|a| + k..|a| + k + |p|] == t[k..k + |p|];
  }

  lemma ContainsBeforeSuffix(t: string, b: string, p: string)
    requires Contains(t, p)
    ensures Contains(t + b, p)
  {
    var k :| 0 <= k <= |t| - |p| && OccursAt(p, t, k);
    OccursBeforeSuffix(p, t, b, k);
  }

  lemma ContainsAfterPrefix(a: string, t: string, p: string)
    requires Contains(t, p)
    ensures Contains(a + t, p)
  {
    var k :| 0 <= k <= |t| - |p| && OccursAt(p, t, k);
    OccursAfterPrefix(p, a, t, k);
  }

  /** A substring of a prefix is a substring of the whole. */
  lemma ContainsInPrefix(t: string, u: string, p: string)
    requires t <= u && Contains(t, p)
    ensures Contains(u, p)
  {
    var k :| 0 <= k <= |t| - |p| && OccursAt(p, t, k);
    assert u[k..k + |p|] == t[k..k + |p|];
    assert OccursAt(p, u, k);
  }

  /** A text contains itself. */
  lemma ContainsSelf(s: string)
    ensures Contains(s, s)
  {
    assert OccursAt(s, s, 0);
  }

  /** A substring of the middle part is a substring of the whole. */
  lemma ContainsInside(a: string, s: string, b: string, p: string)
    requires Contains(s, p)
    ensures Contains(a + s + b, p)
  {
    ContainsMiddle(a, s, b);
    ContainsTransitive(a + s + b, s, p);
  }

  /** A non-empty pattern does not occur in the empty string. */
  lemma NothingInEmpty(p: string)
    requires |p| > 0
    ensures !Contains("", p)
  {
  }

  /** A pattern holding a character that the text lacks does not occur in it. */
  lemma MissingCharacter(s: string, p: string, c: char)
    requires c in p && c !in s
    ensures !Contains(s, p)
  {
  }

  /** An occurrence in `[c] + t` starts at index 0 or lies inside `t`. */
  lemma ContainsCons(c: char, t: string, p: string)
    requires Contains([c] + t, p)
    ensures OccursAt(p, [c] + t, 0) || Contains(t, p)
  {
    var s := [c] + t;
    var i :| 0 <= i <= |s| - |p| && OccursAt(p, s, i);
    if i > 0 {
      assert t[i - 1..i - 1 + |p|] == s[i..i + |p|];
      assert OccursAt(p, t, i - 1);
    }
  }

  // ---------------------------------------------------------------------------
  // Lowercasing
  // ---------------------------------------------------------------------------

  /** Upper-case letters of ASCII and of the Latin-1 supplement (which holds the Portuguese capitals). */
  predicate IsUpper(c: char) {
    ('A' <= c <= 'Z') || ('À' <= c <= 'Þ' && c != '×')
  }

  function LowerChar(c: char): char {
    if IsUpper(c) then (c as int + 32) as char else c
  }

  /** Python's `str.lower`, character by character. */
  function Lower(s: string): string {
    seq(|s|, i requires 0 <= i < |s| => LowerChar(s[i]))
  }

  /** `s` holds no upper-case letter. */
  predicate NoUpper(s: string) {
    forall c :: c in s ==> !IsUpper(c)
  }

  /** Lowering a text without capitals changes nothing. */
  lemma LowerFixesNoUpper(s: string)
    requires NoUpper(s)
    ensures Lower(s) == s
  {
    forall i | 0 <= i < |s|
      ensures Lower(s)[i] == s[i]
    {
      assert s[i] in s;
    }
  }

  lemma LowerConcat(a: string, b: string)
    ensures Lower(a + b) == Lower(a) + Lower(b)
  {
  }

  /** Lowering a text whose only capital is its first character. */
  lemma LowerCapitalized(c: char, rest: string)
    requires NoUpper(rest)
    ensures Lower([c] + rest) == [LowerChar(c)] + rest
  {
    LowerConcat([c], rest);
    LowerFixesNoUpper(rest);
  }

  /** Lowercasing commutes with slicing. */
  lemma LowerSlice(s: string, i: int, j: int)
    requires 0 <= i <= j <= |s|
    ensures Lower(s)[i..j] == Lower(s[i..j])
  {
  }

  /** Lowercasing keeps substrings: if `p` occurs in `s`, `lower(p)` occurs in `lower(s)`. */
  lemma LowerKeepsContains(s: string, p: string)
    requires Contains(s, p)
    ensures Contains(Lower(s), Lower(p))
  {
    var i :| 0 <= i <= |s| - |p| && OccursAt(p, s, i);
    LowerSlice(s, i, i + |p|);
    assert OccursAt(Lower(p), Lower(s), i);
  }

  // ---------------------------------------------------------------------------
  // replace(pat, "")
  // ---------------------------------------------------------------------------

  /**
   * Python's `s.replace(pat, "")`: scans left to right and drops every
   * non-overlapping occurrence of `pat`.
   */
  function RemoveAll(s: string, pat: string): string
    requires |pat| > 0
    decreases |s|
  {
    if |s| < |pat| then s
    else if s[..|pat|] == pat then RemoveAll(s[|pat|..], pat)
    else [s[0]] + RemoveAll(s[1..], pat)
  }

  /** A text without any occurrence of `pat` is left unchanged. */
  lemma {:induction false} RemoveAllAbsent(s: string, pat: string)
    requires |pat| > 0 && !Contains(s, pat)
    ensures RemoveAll(s, pat) == s
    decreases |s|
  {
    if |s| >= |pat| {
      assert !OccursAt(pat, s, 0);
      assert s[..|pat|] != pat;
      if Contains(s[1..], pat) {
        var i :| 0 <= i <= |s[1..]| - |pat| && OccursAt(pat, s[1..], i);
        assert s[i + 1..i + 1 + |pat|] == s[1..][i..i + |pat|];
        assert OccursAt(pat, s, i + 1);
      }
      RemoveAllAbsent(s[1..], pat);
      assert s == [s[0]] + s[1..];
    }
  }

  // ---------------------------------------------------------------------------
  // strip()
  // ---------------------------------------------------------------------------

  /** The characters Python's `str.isspace` accepts, which `str.strip()` removes. */
  predicate IsSpace(c: char) {
    ('\t' <= c <= '\r') || ('\U{1C}' <= c <= '\U{1F}') || c == ' ' || c == '\U{85}' || c == '\U{A0}'
    || c == '\U{1680}' || ('\U{2000}' <= c <= '\U{200A}') || c == '\U{2028}' || c == '\U{2029}'
    || c == '\U{202F}' || c == '\U{205F}' || c == '\U{3000}'
  }

  /** Python's `str.lstrip()`: drops the leading whitespace, and only that. */
  function TrimLeft(s: string): (r: string)
    ensures |r| <= |s| && r == s[|s| - |r|..]
    ensures |r| > 0 ==> !IsSpace(r[0])
    ensures forall i :: 0 <= i < |s| - |r| ==> IsSpace(s[i])
  {
    if |s| > 0 && IsSpace(s[0]) then TrimLeft(s[1..]) else s
  }

  /** Python's `str.rstrip()`: drops the trailing whitespace, and only that. */
  function TrimRight(s: string): (r: string)
    ensures |r| <= |s| && r == s[..|r|]
    ensures |r| > 0 ==> !IsSpace(r[|r| - 1])
    ensures forall i :: |r| <= i < |s| ==> IsSpace(s[i])
  {
    if |s| > 0 && IsSpace(s[|s| - 1]) then TrimRight(s[..|s| - 1]) else s
  }

  /** Python's `str.strip()`. */
  function Strip(s: string): string {
    TrimRight(TrimLeft(s))
  }

  /** `strip()` returns a substring of its input, with no whitespace at either end. */
  lemma StripIsSubstring(s: string)
    ensures Contains(s, Strip(s))
    ensures var r := Strip(s); |r| > 0 ==> !IsSpace(r[0]) && !IsSpace(r[|r| - 1])
  {
    var l := TrimLeft(s);
    var r := TrimRight(l);
    var k := |s| - |l|;
    assert s[k..k + |r|] == l[..|r|] == r;
    assert OccursAt(r, s, k);
  }

  // ---------------------------------------------------------------------------
  // sep.join(xs)
  // ---------------------------------------------------------------------------

  /** Python's `sep.join(xs)`. */
  function Join(xs: seq<string>, sep: string): string
    decreases |xs|
  {
    if |xs| == 0 then ""
    else if |xs| == 1 then xs[0]
    else xs[0] + sep + Join(xs[1..], sep)
  }

  /** Where the `i`-th element starts in `Join(xs, sep)`. */
  function JoinOffset(xs: seq<string>, sep: string, i: nat): nat
    requires i <= |xs|
    decreases i
  {
    if i == 0 then 0 else |xs[0]| + |sep| + JoinOffset(xs[1..], sep, i - 1)
  }

  /** In `Join(xs, sep)`, element `i` starts at `JoinOffset(xs, sep, i)`. */
  lemma {:induction false} JoinPlacesElement(xs: seq<string>, sep: string, i: nat)
    requires i < |xs|
    ensures OccursAt(xs[i], Join(xs, sep), JoinOffset(xs, sep, i))
    decreases i
  {
    var j := Join(xs, sep);
    if |xs| == 1 {
      assert j[..|xs[0]|] == xs[0];
    } else {
      var rest := Join(xs[1..], sep);
      assert j == (xs[0] + sep) + rest;
      if i == 0 {
        assert j[..|xs[0]|] == xs[0];
      } else {
        JoinPlacesElement(xs[1..], sep, i - 1);
        OccursAfterPrefix(xs[i], xs[0] + sep, rest, JoinOffset(xs[1..], sep, i - 1));
      }
    }
  }

  /** Every element but the last is followed by `sep` in `Join(xs, sep)`. */
  lemma {:induction false} JoinPlacesSeparator(xs: seq<string>, sep: string, i: nat)
    requires i + 1 < |xs|
    ensures OccursAt(sep, Join(xs, sep), JoinOffset(xs, sep, i) + |xs[i]|)
    decreases i
  {
    var rest := Join(xs[1..], sep);
    assert Join(xs, sep) == xs[0] + sep + rest;
    if i == 0 {
      OccursInMiddle(xs[0], sep, rest);
    } else {
      JoinPlacesSeparator(xs[1..], sep, i - 1);
      assert Join(xs, sep) == (xs[0] + sep) + rest;
      OccursAfterPrefix(sep, xs[0] + sep, rest, JoinOffset(xs[1..], sep, i - 1) + |xs[i]|);
    }
  }

  /** The next element starts right after the separator that follows element `i`. */
  lemma {:induction false} JoinOffsetStep(xs: seq<string>, sep: string, i: nat)
    requires i < |xs|
    ensures JoinOffset(xs, sep, i + 1) == JoinOffset(xs, sep, i) + |xs[i]| + |sep|
    decreases i
  {
    if i > 0 {
      JoinOffsetStep(xs[1..], sep, i - 1);
    }
  }

  /** Every element of the list is a substring of the joined text. */
  lemma JoinContainsElement(xs: seq<string>, sep: string, i: nat)
    requires i < |xs|
    ensures Contains(Join(xs, sep), xs[i])
  {
    JoinPlacesElement(xs, sep, i);
  }
}
