/**
 * String helpers shared by the text builders: JavaScript's notion of white space and
 * `String.prototype.trim`, decimal rendering of numbers inside template strings,
 * `Array.prototype.join`, and a first-occurrence search that may fold ASCII case
 * (the `i` flag of a regular expression without the `u` flag).
 */
module Text {
  import opened Wrappers

  /** The characters JavaScript's `\s` and `trim` treat as white space or line terminators. */
  predicate IsSpace(c: char) {
    c == ' ' || c == '\t' || c == '\n' || c == '\r' || c == '\U{B}' || c == '\U{C}'
    || c == '\U{A0}' || c == '\U{FEFF}' || c == '\U{1680}'
    || ('\U{2000}' <= c <= '\U{200A}')
    || c == '\U{2028}' || c == '\U{2029}' || c == '\U{202F}' || c == '\U{205F}' || c == '\U{3000}'
  }

  /** The first index at or after `i` that does not hold white space (`|s|` when there is none). */
  function SkipSpaces(s: string, i: nat): (r: nat)
    requires i <= |s|
    ensures i <= r <= |s|
    ensures forall k :: i <= k < r ==> IsSpace(s[k])
    ensures r < |s| ==> !IsSpace(s[r])
    decreases |s| - i
  {
    if i < |s| && IsSpace(s[i]) then SkipSpaces(s, i + 1) else i
  }

  /** The start of the run of white space that ends at `j`, looking no further back than `lo`. */
  function BackSpaces(s: string, lo: nat, j: nat): (r: nat)
    requires lo <= j <= |s|
    ensures lo <= r <= j
    ensures forall k :: r <= k < j ==> IsSpace(s[k])
    ensures r > lo ==> !IsSpace(s[r - 1])
    decreases j
  {
    if j > lo && IsSpace(s[j - 1]) then BackSpaces(s, lo, j - 1) else j
  }

  /** `s.trim()`: the slice of `s` left after dropping white space at both ends. */
  function Trim(s: string): (r: string)
    ensures exists i, j ::
              && 0 <= i <= j <= |s| && r == s[i..j]
              && (forall k :: 0 <= k < i ==> IsSpace(s[k]))
              && (forall k :: j <= k < |s| ==> IsSpace(s[k]))
    ensures r != [] ==> !IsSpace(r[0]) && !IsSpace(r[|r| - 1])
  {
    var a := SkipSpaces(s, 0);
    var b := BackSpaces(s, a, |s|);
    assert b > a ==> !IsSpace(s[a..b][0]);
    s[a..b]
  }

  function Digit(d: nat): (c: char)
    requires d < 10
    ensures '0' <= c <= '9'
  {
    "0123456789"[d]
  }

  /** The value of a string of decimal digits, read left to right. */
  function DecimalValue(s: string): nat
    requires forall k :: 0 <= k < |s| ==> '0' <= s[k] <= '9'
  {
    if s == [] then 0 else DecimalValue(s[..|s| - 1]) * 10 + (s[|s| - 1] as int - '0' as int)
  }

  /** How a non-negative number prints inside a template literal. */
  function NatToString(n: nat): (r: string)
    ensures |r| >= 1 && forall k :: 0 <= k < |r| ==> '0' <= r[k] <= '9'
    ensures r[0] != '0' || n == 0
    ensures DecimalValue(r) == n
    decreases n
  {
    if n < 10 then
      assert "0123456789"[n] as int - '0' as int == n;
      [Digit(n)]
    else
      var p := NatToString(n / 10);
      var r := p + [Digit(n % 10)];
      assert r[..|r| - 1] == p;
      assert "0123456789"[n % 10] as int - '0' as int == n % 10;
      r
  }

  /** How an integer prints inside a template literal. */
  function IntToString(i: int): (r: string)
    ensures |r| >= 1
    ensures i >= 0 ==> r == NatToString(i)
    ensures i < 0 ==> r == "-" + NatToString(-i)
  {
    if i < 0 then "-" + NatToString(-i) else NatToString(i)
  }

  /** The printed integer reads back as that integer: a minus sign exactly for a negative one, then its magnitude in decimal. */
  lemma IntToStringValue(i: int)
    ensures var r := IntToString(i);
      (r[0] == '-' <==> i < 0) &&
      var m := if i < 0 then r[1..] else r;
      |m| >= 1 && (forall k :: 0 <= k < |m| ==> '0' <= m[k] <= '9') && DecimalValue(m) == if i < 0 then -i else i
  {
    if i < 0 {
      assert IntToString(i)[1..] == NatToString(-i);
    }
  }

  /** `parts.join(sep)`. */
  function Join(parts: seq<string>, sep: string): string
  {
    if parts == [] then ""
    else if |parts| == 1 then parts[0]
    else parts[0] + sep + Join(parts[1..], sep)
  }

  /** Concatenation of all parts, in order. */
  function Concat(parts: seq<string>): string
  {
    if parts == [] then "" else parts[0] + Concat(parts[1..])
  }

  /** ASCII case folding, the canonicalisation of a case-insensitive non-Unicode regular expression. */
  function Fold(c: char): char
  {
    if 'A' <= c <= 'Z' then (c as int + 32) as char else c
  }

  function FoldIf(ci: bool, c: char): char { if ci then Fold(c) else c }

  /** Whether `pat` occurs in `s` at position `i`, comparing folded characters when `ci` holds. */
  predicate MatchesAt(s: string, i: int, pat: string, ci: bool) {
    0 <= i && i + |pat| <= |s| && forall k :: 0 <= k < |pat| ==> FoldIf(ci, s[i + k]) == FoldIf(ci, pat[k])
  }

  /** The first position at or after `from` where `pat` occurs. */
  function Find(s: string, pat: string, from: nat, ci: bool): (r: Option<nat>)
    ensures r.Some? ==> from <= r.value && MatchesAt(s, r.value, pat, ci)
    ensures r.Some? ==> forall k :: from <= k < r.value ==> !MatchesAt(s, k, pat, ci)
    ensures r.None? <==> forall k :: from <= k ==> !MatchesAt(s, k, pat, ci)
    decreases |s| - from
  {
    if from + |pat| > |s| then
      assert forall k :: from <= k ==> !MatchesAt(s, k, pat, ci);
      None
    else if MatchesAt(s, from, pat, ci) then Some(from)
    else Find(s, pat, from + 1, ci)
  }

  /** `s.startsWith(prefix)`. */
  predicate StartsWith(s: string, prefix: string) {
    |prefix| <= |s| && s[..|prefix|] == prefix
  }

  /** `s.endsWith(suffix)`. */
  predicate EndsWith(s: string, suffix: string) {
    |suffix| <= |s| && s[|s| - |suffix|..] == suffix
  }

  /** A text starts with each of its left parts. */
  lemma StartsWithLeft(a: string, b: string)
    ensures StartsWith(a + b, a)
  {
    assert (a + b)[..|a|] == a;
  }

  /** A prefix stays a prefix when text is appended. */
  lemma StartsWithExtended(s: string, p: string, x: string)
    requires StartsWith(s, p)
    ensures StartsWith(s + x, p)
  {
    assert (s + x)[..|p|] == s[..|p|];
  }

  /** A text starting with `p + r` starts with `p`. */
  lemma StartsWithShorter(s: string, p: string, r: string)
    requires StartsWith(s, p + r)
    ensures StartsWith(s, p)
  {
    assert s[..|p|] == (p + r)[..|p|];
  }

  /** A choice between two words that differ at some index shows in the prefix of the text. */
  lemma ChoiceShows(h: string, w: string, e: string, other: string, k: nat)
    requires k < |w| && k < |other| && w[k] != other[k]
    ensures StartsWith(h + w + e, h + w)
    ensures !StartsWith(h + w + e, h + other)
  {
    StartsWithLeft(h + w, e);
    assert (h + w + e)[|h| + k] == w[k];
    assert (h + other)[|h| + k] == other[k];
  }

  /** A text ends with each of its right parts. */
  lemma EndsWithRight(a: string, b: string)
    ensures EndsWith(a + b, b)
  {
    assert (a + b)[|a|..] == b;
  }

  /** A text whose `k`-th character from the end differs from the suffix's does not end with it. */
  lemma EndsDiffer(a: string, w: string, suffix: string, k: nat)
    requires k < |w| && k < |suffix| && w[|w| - 1 - k] != suffix[|suffix| - 1 - k]
    ensures !EndsWith(a + w, suffix)
  {
    var s := a + w;
    assert s[|s| - 1 - k] == w[|w| - 1 - k];
  }

  /** `a + p` is a prefix of `a + (p + r)`. */
  lemma StartsWithPrefixes(a: string, p: string, r: string)
    ensures StartsWith(a + (p + r), a + p)
  {
    assert (a + (p + r))[..|a| + |p|] == a + p;
  }

  /** A text starting with `a + (p + r)` starts with `a + p`. */
  lemma StartsWithInner(s: string, a: string, p: string, r: string)
    requires StartsWith(s, a + (p + r))
    ensures StartsWith(s, a + p)
  {
    assert (a + (p + r))[..|a| + |p|] == a + p;
  }

  /** An empty part between two others drops out. */
  lemma EmptyBetween(a: string, b: string)
    ensures a + "" + b == a + b
  {
    assert a + "" == a;
  }

  /** `s.includes(pat)`. */
  predicate Contains(s: string, pat: string) {
    exists k :: 0 <= k <= |s| && MatchesAt(s, k, pat, false)
  }

  /** Text embedded in a longer text still occurs in it. */
  lemma ContainsExtended(a: string, s: string, c: string, pat: string)
    requires Contains(s, pat)
    ensures Contains(a + s + c, pat)
  {
    var k :| 0 <= k <= |s| && MatchesAt(s, k, pat, false);
    var t := a + s + c;
    assert forall m :: 0 <= m < |pat| ==> t[|a| + k + m] == s[k + m] && FoldIf(false, pat[m]) == pat[m];
    assert MatchesAt(t, |a| + k, pat, false);
  }

  /** Every text occurs in itself. */
  lemma ContainsSelf(s: string)
    ensures Contains(s, s)
  {
    assert MatchesAt(s, 0, s, false);
  }

  /** A text occurring in `a` occurs in `a + b`. */
  lemma ContainsLeft(a: string, b: string, pat: string)
    requires Contains(a, pat)
    ensures Contains(a + b, pat)
  {
    ContainsExtended("", a, b, pat);
    assert "" + a + b == a + b;
  }

  /** A text occurring in `b` occurs in `a + b`. */
  lemma ContainsRight(a: string, b: string, pat: string)
    requires Contains(b, pat)
    ensures Contains(a + b, pat)
  {
    ContainsExtended(a, b, "", pat);
    assert a + b + "" == a + b;
  }

  /** Every tail of a text occurs in it. */
  lemma ContainsTail(s: string, k: nat)
    requires k <= |s|
    ensures Contains(s, s[k..])
  {
    assert MatchesAt(s, k, s[k..], false);
  }

  /** Each part of a joined list occurs in the joined text. */
  lemma {:induction false} JoinContains(parts: seq<string>, sep: string, i: nat)
    requires i < |parts|
    ensures Contains(Join(parts, sep), parts[i])
    decreases |parts|
  {
    ContainsSelf(parts[i]);
    if |parts| == 1 {
    } else if i == 0 {
      ContainsExtended("", parts[0], sep + Join(parts[1..], sep), parts[0]);
      assert "" + parts[0] + (sep + Join(parts[1..], sep)) == Join(parts, sep);
    } else {
      JoinContains(parts[1..], sep, i - 1);
      ContainsExtended(parts[0] + sep, Join(parts[1..], sep), "", parts[i]);
      assert parts[0] + sep + Join(parts[1..], sep) + "" == Join(parts, sep);
    }
  }
}
