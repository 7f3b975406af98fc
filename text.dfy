/**
 * String helpers the CLI leans on: ASCII case mapping, Rust's `str::replace`
 * for a character and for a substring, and decimal formatting of integers
 * (what `format!("{}", n)` produces).
 */
module Text {

  /** ASCII upper-casing of one character; every other character is unchanged. */
  function UpperChar(c: char): char {
    if 'a' <= c <= 'z' then (c as int - 32) as char else c
  }

  /** ASCII lower-casing of one character; every other character is unchanged. */
  function LowerChar(c: char): char {
    if 'A' <= c <= 'Z' then (c as int + 32) as char else c
  }

  function ToUpper(s: string): (r: string)
    ensures |r| == |s|
  {
    seq(|s|, i requires 0 <= i < |s| => UpperChar(s[i]))
  }

  function ToLower(s: string): (r: string)
    ensures |r| == |s|
  {
    seq(|s|, i requires 0 <= i < |s| => LowerChar(s[i]))
  }

  /** `s.replace(from, to)` for single-character patterns. */
  function ReplaceChar(s: string, from: char, to: char): (r: string)
    ensures |r| == |s|
  {
    seq(|s|, i requires 0 <= i < |s| => if s[i] == from then to else s[i])
  }

  /** Two strings are equal once ASCII case is ignored, stated character by character. */
  ghost predicate EqualIgnoringCase(a: string, b: string) {
    |a| == |b| && forall i :: 0 <= i < |a| ==> LowerChar(a[i]) == LowerChar(b[i])
  }

  /** Comparing lower-cased strings is exactly comparing ignoring case, and so is comparing upper-cased ones. */
  lemma EqualIgnoringCaseIff(a: string, b: string)
    ensures EqualIgnoringCase(a, b) <==> ToLower(a) == ToLower(b)
    ensures EqualIgnoringCase(a, b) <==> ToUpper(a) == ToUpper(b)
  {
    if EqualIgnoringCase(a, b) {
      assert forall i :: 0 <= i < |a| ==> ToLower(a)[i] == ToLower(b)[i];
      assert forall i :: 0 <= i < |a| ==> ToUpper(a)[i] == ToUpper(b)[i];
    }
    if ToLower(a) == ToLower(b) {
      assert forall i :: 0 <= i < |a| ==> LowerChar(a[i]) == ToLower(a)[i] == ToLower(b)[i] == LowerChar(b[i]);
    }
    if ToUpper(a) == ToUpper(b) {
      assert forall i :: 0 <= i < |a| ==> UpperChar(a[i]) == ToUpper(a)[i] == ToUpper(b)[i] == UpperChar(b[i]);
    }
  }

  /**
   * Rust's `s.replace(pat, rep)`: every non-overlapping occurrence of `pat`,
   * scanning from the left, is replaced by `rep`.
   */
  function ReplaceAll(s: string, pat: string, rep: string): (r: string)
    requires |pat| > 0
    decreases |s|
  {
    if |s| < |pat| then s
    else if s[..|pat|] == pat then rep + ReplaceAll(s[|pat|..], pat, rep)
    else [s[0]] + ReplaceAll(s[1..], pat, rep)
  }

  /** No occurrence of `pat` can start inside a prefix that lacks `pat`'s first character. */
  lemma {:induction false} ReplaceAllSkipsPrefix(a: string, b: string, pat: string, rep: string)
    requires |pat| > 0 && pat[0] !in a
    ensures ReplaceAll(a + b, pat, rep) == a + ReplaceAll(b, pat, rep)
    decreases |a|
  {
    if a != [] {
      var s := a + b;
      assert s[0] == a[0] && a[0] != pat[0];
      if |s| >= |pat| {
        assert s[..|pat|] != pat;
      } else {
        assert |b| < |pat|;
        assert |b| < |pat| ==> ReplaceAll(b, pat, rep) == b;
      }
      assert s[1..] == a[1..] + b;
      ReplaceAllSkipsPrefix(a[1..], b, pat, rep);
    } else {
      assert a + b == b;
    }
  }

  /** A string that does not contain `pat`'s first character is left as it is. */
  lemma ReplaceAllIdentity(s: string, pat: string, rep: string)
    requires |pat| > 0 && pat[0] !in s
    ensures ReplaceAll(s, pat, rep) == s
  {
    ReplaceAllSkipsPrefix(s, [], pat, rep);
    assert s + [] == s;
  }

  /** `pat` occurs in `s` starting at position `i`. */
  predicate OccursAt(s: string, pat: string, i: nat)
    requires i + |pat| <= |s|
  {
    s[i..i + |pat|] == pat
  }

  /** `pat` occurs nowhere in `s`. */
  predicate Absent(s: string, pat: string) {
    forall i: nat :: i + |pat| <= |s| ==> !OccursAt(s, pat, i)
  }

  /** A string lacking `pat`'s first character lacks `pat`. */
  lemma AbsentWithoutFirst(s: string, pat: string)
    requires |pat| > 0 && pat[0] !in s
    ensures Absent(s, pat)
  {
    assert forall i: nat :: i + |pat| <= |s| ==> s[i..i + |pat|][0] == s[i];
  }

  /** A string in which `pat` occurs nowhere is left as it is. */
  lemma {:induction false} ReplaceAllAbsent(s: string, pat: string, rep: string)
    requires |pat| > 0 && Absent(s, pat)
    ensures ReplaceAll(s, pat, rep) == s
    decreases |s|
  {
    if |s| >= |pat| {
      assert !OccursAt(s, pat, 0);
      var t := s[1..];
      assert forall i: nat :: i + |pat| <= |t| ==> (OccursAt(t, pat, i) <==> OccursAt(s, pat, i + 1));
      ReplaceAllAbsent(t, pat, rep);
      assert [s[0]] + t == s;
    }
  }

  /** An occurrence of `pat` at the front is replaced, and scanning resumes after it. */
  lemma ReplaceAllAtFront(pat: string, b: string, rep: string)
    requires |pat| > 0
    ensures ReplaceAll(pat + b, pat, rep) == rep + ReplaceAll(b, pat, rep)
  {
    var s := pat + b;
    assert s[..|pat|] == pat;
    assert s[|pat|..] == b;
  }

  predicate IsDigit(c: char) {
    '0' <= c <= '9'
  }

  /** The decimal digit for `d`. */
  function DigitChar(d: nat): (c: char)
    requires d < 10
    ensures IsDigit(c)
  {
    (48 + d) as char
  }

  /** Decimal rendering of a natural number, without leading zeros. */
  function NatToString(n: nat): (r: string)
    ensures |r| > 0
    ensures forall i :: 0 <= i < |r| ==> IsDigit(r[i])
    ensures |r| == 1 <==> n < 10
  {
    if n < 10 then [DigitChar(n)] else NatToString(n / 10) + [DigitChar(n % 10)]
  }

  /** Different numbers render differently, so a rendered number identifies the number. */
  lemma {:induction false} NatToStringInjective(a: nat, b: nat)
    requires NatToString(a) == NatToString(b)
    ensures a == b
  {
    if a >= 10 && b >= 10 {
      var sa, sb := NatToString(a), NatToString(b);
      assert sa[|sa| - 1] == DigitChar(a % 10) && sb[|sb| - 1] == DigitChar(b % 10);
      assert a % 10 == b % 10;
      assert sa[..|sa| - 1] == NatToString(a / 10);
      assert sb[..|sb| - 1] == NatToString(b / 10);
      NatToStringInjective(a / 10, b / 10);
    }
  }

  /** Decimal rendering of an integer: a minus sign before the magnitude of a negative one. */
  function IntToString(n: int): (r: string)
    ensures |r| > 0
    ensures r[0] == '-' <==> n < 0
    ensures forall i :: 1 <= i < |r| ==> IsDigit(r[i])
  {
    if n < 0 then "-" + NatToString(-n) else NatToString(n)
  }

  /** Different integers render differently: the sign and the digits identify the number. */
  lemma IntToStringInjective(a: int, b: int)
    requires IntToString(a) == IntToString(b)
    ensures a == b
  {
    if a < 0 {
      assert IntToString(a)[1..] == NatToString(-a);
      assert IntToString(b)[1..] == NatToString(-b);
      NatToStringInjective(-a, -b);
    } else {
      NatToStringInjective(a, b);
    }
  }

  /** The position of the first `c` in `s`, or `|s|` when there is none. */
  function IndexOf(s: string, c: char): (k: nat)
    ensures k <= |s| && c !in s[..k]
    ensures k < |s| ==> s[k] == c
  {
    if s == [] then 0 else if s[0] == c then 0 else 1 + IndexOf(s[1..], c)
  }

  lemma {:induction false} IndexOfAfterPrefix(x: string, rest: string, c: char)
    requires c !in x
    ensures IndexOf(x + [c] + rest, c) == |x|
    decreases |x|
  {
    if x != [] {
      assert (x + [c] + rest)[1..] == x[1..] + [c] + rest;
      IndexOfAfterPrefix(x[1..], rest, c);
    }
  }

  /**
   * Splitting at the first occurrence of a separator that the front part
   * cannot contain is unambiguous.
   */
  lemma SplitAtSeparator(x: string, y: string, u: string, v: string, sep: char)
    requires sep !in x && sep !in u
    requires x + [sep] + y == u + [sep] + v
    ensures x == u && y == v
  {
    var s := x + [sep] + y;
    IndexOfAfterPrefix(x, y, sep);
    IndexOfAfterPrefix(u, v, sep);
    assert x == s[..|x|] == u;
    assert y == s[|x| + 1..] == v;
  }
}
