/**
 * The string operations of JavaScript that the core relies on, over `seq<char>`:
 * `toLowerCase` (ASCII letters only), `includes`, `trim`, decimal rendering of
 * integers (`String(n)`), `Number(s)` for digit strings, and a global
 * non-overlapping `replace`.
 */
module Strings {
  import opened Wrappers

  // ---------------------------------------------------------------------------
  // Lower case

  predicate IsUpper(c: char) {
    'A' <= c <= 'Z'
  }

  function LowerChar(c: char): (r: char)
    ensures !IsUpper(r)
    ensures IsUpper(c) ==> r as int == c as int + 32
    ensures !IsUpper(c) ==> r == c
  {
    if IsUpper(c) then (c as int + 32) as char else c
  }

  /** `s.toLowerCase()` restricted to the ASCII letters. */
  function Lower(s: string): (r: string)
    ensures |r| == |s|
    ensures forall i :: 0 <= i < |s| ==> r[i] == LowerChar(s[i])
  {
    seq(|s|, i requires 0 <= i < |s| => LowerChar(s[i]))
  }

  /** Lower-casing twice is lower-casing once. */
  lemma LowerIdempotent(s: string)
    ensures Lower(Lower(s)) == Lower(s)
  {
  }

  /** A string without capitals is its own lower case. */
  lemma LowerOfLowerCase(s: string)
    requires forall i :: 0 <= i < |s| ==> !IsUpper(s[i])
    ensures Lower(s) == s
  {
  }

  // ---------------------------------------------------------------------------
  // Substring search

  predicate OccursAt(s: string, sub: string, i: int) {
    0 <= i && i + |sub| <= |s| && s[i..i + |sub|] == sub
  }

  /** `s.includes(sub)`: some position of `s` starts a copy of `sub`. */
  function Contains(s: string, sub: string): (r: bool)
    ensures r <==> exists i :: OccursAt(s, sub, i)
    decreases |s|
  {
    if |sub| > |s| then false
    else if s[..|sub|] == sub then
      assert OccursAt(s, sub, 0);
      true
    else
      var rest := Contains(s[1..], sub);
      assert rest ==> exists i :: OccursAt(s, sub, i) by {
        if rest {
          var j :| OccursAt(s[1..], sub, j);
          assert s[1..][j..j + |sub|] == s[j + 1..j + 1 + |sub|];
          assert OccursAt(s, sub, j + 1);
        }
      }
      assert (exists i :: OccursAt(s, sub, i)) ==> rest by {
        if exists i :: OccursAt(s, sub, i) {
          var i :| OccursAt(s, sub, i);
          assert i != 0;
          assert s[1..][i - 1..i - 1 + |sub|] == s[i..i + |sub|];
          assert OccursAt(s[1..], sub, i - 1);
        }
      }
      rest
  }

  /** A string lacking one character of `sub` cannot contain `sub`. */
  lemma MissingCharExcludes(s: string, sub: string, k: int)
    requires 0 <= k < |sub| && sub[k] !in s
    ensures !Contains(s, sub)
  {
    forall i | 0 <= i && i + |sub| <= |s|
      ensures !OccursAt(s, sub, i)
    {
      assert s[i..i + |sub|][k] == s[i + k];
      assert s[i + k] in s;
    }
  }

  // ---------------------------------------------------------------------------
  // String.prototype.trim

  /** The characters `String.prototype.trim` removes: white space and line terminators. */
  predicate IsJsWhitespace(c: char) {
    || c == ' ' || c == '\t' || c == '\n' || c == '\U{B}' || c == '\U{C}' || c == '\r'
    || c == '\U{A0}' || c == '\U{1680}' || ('\U{2000}' <= c <= '\U{200A}')
    || c == '\U{2028}' || c == '\U{2029}' || c == '\U{202F}' || c == '\U{205F}'
    || c == '\U{3000}' || c == '\U{FEFF}'
  }

  predicate IsBlank(s: string) {
    forall i :: 0 <= i < |s| ==> IsJsWhitespace(s[i])
  }

  /** Drops the longest all-white-space prefix. */
  function TrimStart(s: string): (r: string)
    ensures |r| <= |s| && r == s[|s| - |r|..]
    ensures IsBlank(s[..|s| - |r|])
    ensures r == [] || !IsJsWhitespace(r[0])
    decreases |s|
  {
    if |s| > 0 && IsJsWhitespace(s[0]) then
      var r := TrimStart(s[1..]);
      assert s[..|s| - |r|] == [s[0]] + s[1..][..|s| - 1 - |r|];
      r
    else s
  }

  /** Drops the longest all-white-space suffix. */
  function TrimEnd(s: string): (r: string)
    ensures |r| <= |s| && r == s[..|r|]
    ensures IsBlank(s[|r|..])
    ensures r == [] || !IsJsWhitespace(r[|r| - 1])
    decreases |s|
  {
    if |s| > 0 && IsJsWhitespace(s[|s| - 1]) then
      var r := TrimEnd(s[..|s| - 1]);
      assert s[|r|..] == s[..|s| - 1][|r|..] + [s[|s| - 1]];
      r
    else s
  }

  /**
   * `s.trim()`: never longer than `s`, neither starting nor ending with white
   * space, and empty exactly when every character of `s` is white space.
   */
  function Trim(s: string): (r: string)
    ensures |r| <= |s|
    ensures r == [] || (!IsJsWhitespace(r[0]) && !IsJsWhitespace(r[|r| - 1]))
    ensures r == [] <==> IsBlank(s)
  {
    var t := TrimStart(s);
    var r := TrimEnd(t);
    assert r == [] || r[0] == t[0];
    assert t == [] ==> s[..|s|] == s;
    assert t != [] ==> r != [] && !IsJsWhitespace(s[|s| - |t|]);
    r
  }

  /** A string that starts with non-white-space has nothing to trim at the front. */
  lemma TrimStartOfSolidHead(s: string)
    requires s != [] && !IsJsWhitespace(s[0])
    ensures TrimStart(s) == s
  {
  }

  /** Trimming the end of `p + w` keeps `p` whole when `p` ends with non-white-space. */
  lemma TrimEndKeepsHead(p: string, w: string)
    requires p != [] && !IsJsWhitespace(p[|p| - 1])
    ensures |TrimEnd(p + w)| >= |p| && TrimEnd(p + w)[..|p|] == p
  {
    var s := p + w;
    var r := TrimEnd(s);
    assert forall i :: |r| <= i < |s| ==> s[i] == s[|r|..][i - |r|];
    assert s[|p| - 1] == p[|p| - 1];
  }

  /**
   * Trimming text that starts and ends with non-white-space followed by more
   * text keeps the first text whole; when what follows is blank, the first
   * text is all that is left.
   */
  lemma TrimKeepsContent(p: string, w: string)
    requires p != [] && !IsJsWhitespace(p[0]) && !IsJsWhitespace(p[|p| - 1])
    ensures |Trim(p + w)| >= |p| && Trim(p + w)[..|p|] == p
    ensures IsBlank(w) ==> Trim(p + w) == p
  {
    var s := p + w;
    assert s[0] == p[0];
    TrimStartOfSolidHead(s);
    TrimEndKeepsHead(p, w);
  }

  // ---------------------------------------------------------------------------
  // Decimal digits

  predicate IsDigit(c: char) {
    '0' <= c <= '9'
  }

  predicate AllDigits(s: string) {
    forall i :: 0 <= i < |s| ==> IsDigit(s[i])
  }

  function DigitChar(d: nat): (c: char)
    requires d < 10
    ensures IsDigit(c) && c as int - '0' as int == d
  {
    ('0' as int + d) as char
  }

  /** The value of a string of decimal digits (most significant first). */
  function DigitsValue(s: string): nat
    requires AllDigits(s)
    decreases |s|
  {
    if |s| == 0 then 0
    else DigitsValue(s[..|s| - 1]) * 10 + (s[|s| - 1] as int - '0' as int)
  }

  /** `String(n)` for a natural number: its decimal digits without leading zeros. */
  function NatToString(n: nat): (r: string)
    ensures |r| >= 1 && AllDigits(r)
    ensures r[0] == '0' ==> n == 0 && |r| == 1
    decreases n
  {
    if n < 10 then [DigitChar(n)] else NatToString(n / 10) + [DigitChar(n % 10)]
  }

  /** Reading back the digits of `String(n)` gives `n`. */
  lemma {:induction false} NatToStringRoundTrip(n: nat)
    ensures DigitsValue(NatToString(n)) == n
    decreases n
  {
    var r := NatToString(n);
    if n >= 10 {
      NatToStringRoundTrip(n / 10);
      assert r[..|r| - 1] == NatToString(n / 10);
    }
  }

  /** `String(i)` for an integer: a minus sign exactly when negative, then the digits of the magnitude. */
  function IntToString(i: int): (r: string)
    ensures |r| >= 1 && IsDigit(r[|r| - 1])
    ensures r[0] == '-' <==> i < 0
    ensures i >= 0 ==> r == NatToString(i)
    ensures i < 0 ==> r[1..] == NatToString(-i)
  {
    if i >= 0 then NatToString(i) else "-" + NatToString(-i)
  }

  /**
   * `Number(s)` for the strings this model interprets: after trimming, the
   * empty string is 0 and a run of decimal digits is its value; every other
   * string is NaN (`None`).
   */
  function ParseNumber(s: string): (r: Option<nat>)
    ensures IsBlank(s) ==> r == Some(0)
    ensures r.Some? && !IsBlank(s) ==> AllDigits(Trim(s)) && r.value == DigitsValue(Trim(s))
    ensures !IsBlank(s) && AllDigits(Trim(s)) ==> r == Some(DigitsValue(Trim(s)))
    ensures r.None? <==> !IsBlank(s) && !AllDigits(Trim(s))
  {
    var t := Trim(s);
    if t == "" then Some(0)
    else if AllDigits(t) then Some(DigitsValue(t))
    else None
  }

  /** `Number(String(n)) == n`. */
  lemma ParseNumberOfNatToString(n: nat)
    ensures ParseNumber(NatToString(n)) == Some(n)
  {
    ParseNumberOfDigits(NatToString(n));
    NatToStringRoundTrip(n);
  }

  /** `Number` of a non-empty digit string is its value. */
  lemma ParseNumberOfDigits(s: string)
    requires |s| > 0 && AllDigits(s)
    ensures ParseNumber(s) == Some(DigitsValue(s))
  {
    TrimOfDigits(s);
  }

  /** A digit is not white space. */
  lemma DigitIsNotWhitespace(c: char)
    requires IsDigit(c)
    ensures !IsJsWhitespace(c)
  {
  }

  /** A non-empty run of digits has no white space to trim. */
  lemma TrimOfDigits(s: string)
    requires |s| > 0 && AllDigits(s)
    ensures Trim(s) == s
  {
    DigitIsNotWhitespace(s[0]);
    assert TrimStart(s) == s;
    DigitIsNotWhitespace(s[|s| - 1]);
    assert TrimEnd(s) == s;
  }

  // ---------------------------------------------------------------------------
  // Global replace

  /**
   * `s.replace(/pat/g, rep)` for a literal pattern: a left-to-right scan that
   * replaces each non-overlapping occurrence of `pat` by `rep`.
   */
  function ReplaceAll(s: string, pat: string, rep: string): (r: string)
    requires |pat| > 0
    ensures |rep| <= |pat| ==> |r| <= |s|
    ensures |s| > 0 && |rep| > 0 ==> |r| > 0 && (r[0] == s[0] || r[0] == rep[0])
    decreases |s|
  {
    if |s| < |pat| then s
    else if s[..|pat|] == pat then rep + ReplaceAll(s[|pat|..], pat, rep)
    else [s[0]] + ReplaceAll(s[1..], pat, rep)
  }

  /** A string that does not contain the pattern is left unchanged. */
  lemma {:induction false} ReplaceAllWithoutOccurrence(s: string, pat: string, rep: string)
    requires |pat| > 0 && !Contains(s, pat)
    ensures ReplaceAll(s, pat, rep) == s
    decreases |s|
  {
    if |s| >= |pat| {
      assert s[..|pat|] != pat;
      assert !Contains(s[1..], pat);
      ReplaceAllWithoutOccurrence(s[1..], pat, rep);
      assert s == [s[0]] + s[1..];
    }
  }

  /** An occurrence of the pattern at the front is replaced and the scan resumes after it. */
  lemma ReplaceAllAtFront(pat: string, v: string, rep: string)
    requires |pat| > 0
    ensures ReplaceAll(pat + v, pat, rep) == rep + ReplaceAll(v, pat, rep)
  {
    assert (pat + v)[..|pat|] == pat;
    assert (pat + v)[|pat|..] == v;
  }

  /** A prefix without the pattern's first character is copied unchanged. */
  lemma {:induction false} ReplaceAllSkipsPrefix(u: string, v: string, pat: string, rep: string)
    requires |pat| > 0 && pat[0] !in u
    ensures ReplaceAll(u + v, pat, rep) == u + ReplaceAll(v, pat, rep)
    decreases |u|
  {
    if u != [] {
      var s := u + v;
      if |s| >= |pat| {
        assert s[..|pat|][0] == u[0];
        assert s[..|pat|] != pat;
        assert s[1..] == u[1..] + v;
        assert ReplaceAll(s, pat, rep) == [s[0]] + ReplaceAll(s[1..], pat, rep);
        ReplaceAllSkipsPrefix(u[1..], v, pat, rep);
        assert s[0] == u[0];
        assert [u[0]] + (u[1..] + ReplaceAll(v, pat, rep)) == u + ReplaceAll(v, pat, rep);
      } else {
        assert ReplaceAll(v, pat, rep) == v;
        assert ReplaceAll(s, pat, rep) == s;
      }
    } else {
      assert u + v == v;
    }
  }

  /** A string without the first character of the pattern is left unchanged. */
  lemma {:induction false} ReplaceAllWithoutLead(s: string, pat: string, rep: string)
    requires |pat| > 0 && pat[0] !in s
    ensures ReplaceAll(s, pat, rep) == s
    decreases |s|
  {
    if |s| >= |pat| {
      assert s[..|pat|][0] == s[0];
      assert s[..|pat|] != pat;
      ReplaceAllWithoutLead(s[1..], pat, rep);
    }
  }

  /** The end of `u` is no proper beginning of `pat`: no occurrence can straddle the end of `u`. */
  predicate EndsClear(u: string, pat: string) {
    forall k :: 0 < k < |pat| && k <= |u| ==> u[|u| - k..] != pat[..k]
  }

  /** A suffix of a string whose end is clear has a clear end. */
  lemma EndsClearSuffix(u: string, pat: string, j: nat)
    requires j <= |u| && EndsClear(u, pat)
    ensures EndsClear(u[j..], pat)
  {
    forall k | 0 < k < |pat| && k <= |u| - j
      ensures u[j..][|u| - j - k..] != pat[..k]
    {
      assert u[j..][|u| - j - k..] == u[|u| - k..];
    }
  }

  /** Text shorter than the pattern whose end is clear is copied unchanged in front of the scan of the rest. */
  lemma {:induction false} ReplaceAllShortSplit(u: string, v: string, pat: string, rep: string)
    requires |u| < |pat| && EndsClear(u, pat)
    ensures ReplaceAll(u + v, pat, rep) == u + ReplaceAll(v, pat, rep)
    decreases |u|
  {
    var s := u + v;
    if u == [] {
      assert s == v;
    } else if |s| >= |pat| {
      assert u[|u| - |u|..] == u;
      assert s[..|pat|][..|u|] == u;
      assert s[1..] == u[1..] + v;
      EndsClearSuffix(u, pat, 1);
      ReplaceAllShortSplit(u[1..], v, pat, rep);
      assert [u[0]] + u[1..] == u;
    }
  }

  /**
   * When no occurrence of the pattern can straddle the end of `u`, the scan
   * over `u + v` is the scan over `u` followed by the scan over `v`.
   */
  lemma {:induction false} ReplaceAllSplits(u: string, v: string, pat: string, rep: string)
    requires |pat| > 0 && EndsClear(u, pat)
    ensures ReplaceAll(u + v, pat, rep) == ReplaceAll(u, pat, rep) + ReplaceAll(v, pat, rep)
    decreases |u|
  {
    var s := u + v;
    if |u| < |pat| {
      ReplaceAllShortSplit(u, v, pat, rep);
    } else {
      var k := if u[..|pat|] == pat then |pat| else 1;
      assert s[..|pat|] == u[..|pat|];
      assert s[k..] == u[k..] + v;
      EndsClearSuffix(u, pat, k);
      ReplaceAllSplits(u[k..], v, pat, rep);
    }
  }

  /** No `b` in `s` is directly followed by `x`. */
  predicate NoPair(s: string, b: char, x: char) {
    forall i :: 0 <= i < |s| - 1 ==> !(s[i] == b && s[i + 1] == x)
  }

  /**
   * Replacing by one character `y` that is neither `b` nor `x` leaves no `b`
   * followed by `x`: it creates none, and when the pattern is that pair it
   * removes every one.
   */
  lemma {:induction false} ReplaceAllLeavesNoPair(s: string, pat: string, y: char, b: char, x: char)
    requires |pat| > 0 && y != b && y != x
    requires pat == [b, x] || NoPair(s, b, x)
    ensures NoPair(ReplaceAll(s, pat, [y]), b, x)
    decreases |s|
  {
    if |s| >= |pat| {
      var hit := s[..|pat|] == pat;
      var k := if hit then |pat| else 1;
      var t := s[k..];
      assert forall i :: 0 <= i < |t| ==> t[i] == s[i + k];
      ReplaceAllLeavesNoPair(t, pat, y, b, x);
      var rt := ReplaceAll(t, pat, [y]);
      var r := ReplaceAll(s, pat, [y]);
      if hit {
        assert r == [y] + rt;
      } else {
        assert r == [s[0]] + rt;
        assert |s| > 1 ==> !(s[0] == b && s[1] == x);
        assert |rt| > 0 ==> |t| > 0 && (rt[0] == t[0] || rt[0] == y);
      }
      assert forall i :: 1 <= i < |r| ==> r[i] == rt[i - 1];
    }
  }
}
