/**
 * The two string operations of JavaScript that the interpretation lookups and the
 * profection timeline rely on: `Number.prototype.toString` on integers (house
 * numbers used as JSON object keys, years in date ranges) and
 * `String.prototype.replace` with a string pattern, which replaces the FIRST
 * occurrence only.
 */
module Text {

  predicate IsDigit(c: char) { '0' <= c <= '9' }

  function DigitChar(d: nat): (c: char)
    requires d < 10
    ensures IsDigit(c) && c as int - '0' as int == d
  {
    ('0' as int + d) as char
  }

  /** Decimal digits of `n`, most significant first, without leading zeros. */
  function NatToString(n: nat): (s: string)
    ensures 1 <= |s|
    ensures forall i :: 0 <= i < |s| ==> IsDigit(s[i])
    ensures n >= 10 ==> s[0] != '0'
    decreases n
  {
    if n < 10 then [DigitChar(n)] else NatToString(n / 10) + [DigitChar(n % 10)]
  }

  /** The value of a string of decimal digits. */
  function ParseDigits(s: string): nat
    requires forall i :: 0 <= i < |s| ==> IsDigit(s[i])
  {
    if |s| == 0 then 0
    else
      assert IsDigit(s[|s| - 1]);
      ParseDigits(s[..|s| - 1]) * 10 + (s[|s| - 1] as int - '0' as int)
  }

  /** Reading back the digits that `NatToString` writes gives the number again. */
  lemma {:induction false} ParseNatToString(n: nat)
    ensures ParseDigits(NatToString(n)) == n
  {
    var s := NatToString(n);
    if n >= 10 {
      ParseNatToString(n / 10);
      assert s[..|s| - 1] == NatToString(n / 10);
    }
  }

  /** `String(i)` for an integer `i`: a minus sign before the digits of a negative number. */
  function IntToString(i: int): (s: string)
    ensures 1 <= |s|
    ensures (s[0] == '-') <==> i < 0
    ensures forall k :: (if i < 0 then 1 else 0) <= k < |s| ==> IsDigit(s[k])
  {
    if i < 0 then "-" + NatToString(-i) else NatToString(i)
  }

  /** Distinct naturals are written with different digits. */
  lemma NatToStringInjective(a: nat, b: nat)
    requires NatToString(a) == NatToString(b)
    ensures a == b
  {
    ParseNatToString(a);
    ParseNatToString(b);
  }

  /** Distinct integers are written differently, so house numbers make distinct JSON keys. */
  lemma IntToStringInjective(i: int, j: int)
    requires IntToString(i) == IntToString(j)
    ensures i == j
  {
    if i < 0 {
      assert j < 0;
      assert NatToString(-i) == IntToString(i)[1..];
      assert NatToString(-j) == IntToString(j)[1..];
      NatToStringInjective(-i, -j);
    } else {
      assert j >= 0;
      NatToStringInjective(i, j);
    }
  }

  /** `pat` occurs in `s` starting at index `i`. */
  predicate OccursAt(s: string, pat: string, i: int)
  {
    0 <= i && i + |pat| <= |s| && s[i..i + |pat|] == pat
  }

  /**
   * `s.indexOf(pat)`: the first index at which `pat` occurs in `s`, or -1 when it
   * occurs nowhere.
   */
  function IndexOf(s: string, pat: string): (k: int)
    ensures -1 <= k <= |s| && (k >= 0 ==> k + |pat| <= |s|)
    decreases |s|
  {
    if |pat| <= |s| && s[..|pat|] == pat then 0
    else if |s| == 0 then -1
    else
      var t := IndexOf(s[1..], pat);
      if t == -1 then -1 else t + 1
  }

  /** `IndexOf` finds the first occurrence, and gives -1 exactly when there is none. */
  lemma {:induction false} IndexOfFirst(s: string, pat: string)
    ensures var k := IndexOf(s, pat);
      && (k == -1 ==> forall i :: 0 <= i <= |s| ==> !OccursAt(s, pat, i))
      && (k >= 0 ==> OccursAt(s, pat, k) && forall j :: 0 <= j < k ==> !OccursAt(s, pat, j))
    decreases |s|
  {
    if |pat| <= |s| && s[..|pat|] == pat {
      assert OccursAt(s, pat, 0);
    } else if |s| > 0 {
      IndexOfFirst(s[1..], pat);
      IndexOfShift(s, pat, IndexOf(s[1..], pat));
    }
  }

  /** When `pat` does not start `s`, its first index in `s` is one more than in `s[1..]`. */
  lemma IndexOfShift(s: string, pat: string, t: int)
    requires |s| > 0 && !OccursAt(s, pat, 0)
    requires -1 <= t <= |s| - 1
    requires t == -1 ==> forall i :: 0 <= i <= |s| - 1 ==> !OccursAt(s[1..], pat, i)
    requires t >= 0 ==> OccursAt(s[1..], pat, t) && forall j :: 0 <= j < t ==> !OccursAt(s[1..], pat, j)
    ensures t == -1 ==> forall i :: 0 <= i <= |s| ==> !OccursAt(s, pat, i)
    ensures t >= 0 ==> OccursAt(s, pat, t + 1) && forall j :: 0 <= j < t + 1 ==> !OccursAt(s, pat, j)
  {
    forall i | 1 <= i <= |s|
      ensures OccursAt(s, pat, i) <==> OccursAt(s[1..], pat, i - 1)
    {
      OccursShift(s, pat, i);
    }
  }

  /**
   * What `s.replace(pat, rep)` gives when `pat` is a string: `s` itself when `pat`
   * does not occur in it, otherwise `s` with its FIRST occurrence of `pat` replaced
   * by `rep`.
   */
  ghost predicate ReplacesFirst(s: string, pat: string, rep: string, r: string)
  {
    && ((forall i :: 0 <= i <= |s| ==> !OccursAt(s, pat, i)) ==> r == s)
    && (forall i :: OccursAt(s, pat, i) && (forall j :: 0 <= j < i ==> !OccursAt(s, pat, j)) ==>
          r == s[..i] + rep + s[i + |pat|..])
  }

  /** `s.replace(pat, rep)` with a string pattern: the text around the first index of `pat`, with `rep` in its place. */
  function ReplaceFirst(s: string, pat: string, rep: string): (r: string)
    ensures var k := IndexOf(s, pat);
      r == if k == -1 then s else s[..k] + rep + s[k + |pat|..]
    decreases |s|
  {
    if |pat| <= |s| && s[..|pat|] == pat then
      rep + s[|pat|..]
    else if |s| == 0 then
      s
    else
      var tail := ReplaceFirst(s[1..], pat, rep);
      ReplaceAfterFirstChar(s, pat, rep, IndexOf(s[1..], pat), tail);
      [s[0]] + tail
  }

  /** `ReplaceFirst` replaces the first occurrence and only it, and leaves a text without one as it is. */
  lemma ReplaceFirstReplacesFirst(s: string, pat: string, rep: string)
    ensures ReplacesFirst(s, pat, rep, ReplaceFirst(s, pat, rep))
  {
    var k := IndexOf(s, pat);
    IndexOfFirst(s, pat);
    forall i | OccursAt(s, pat, i) && (forall j :: 0 <= j < i ==> !OccursAt(s, pat, j))
      ensures i == k
    {
      assert k != -1 by {
        assert OccursAt(s, pat, i) && 0 <= i <= |s|;
      }
      assert OccursAt(s, pat, k);
    }
  }

  /** Putting `s[0]` back in front of the replacement in `s[1..]` gives the replacement in `s`, one place further on. */
  lemma ReplaceAfterFirstChar(s: string, pat: string, rep: string, t: int, tail: string)
    requires |s| > 0 && -1 <= t && (t >= 0 ==> t + |pat| <= |s| - 1)
    requires tail == if t == -1 then s[1..] else s[1..][..t] + rep + s[1..][t + |pat|..]
    ensures [s[0]] + tail == if t == -1 then s else s[..t + 1] + rep + s[t + 1 + |pat|..]
  {
    if t >= 0 {
      assert s[..t + 1] == [s[0]] + s[1..][..t];
      assert s[t + 1 + |pat|..] == s[1..][t + |pat|..];
    }
  }

  /** An occurrence at `i >= 1` in `s` is an occurrence at `i - 1` in `s[1..]`, and back. */
  lemma OccursShift(s: string, pat: string, i: int)
    requires |s| > 0 && 1 <= i
    ensures OccursAt(s, pat, i) <==> OccursAt(s[1..], pat, i - 1)
  {
    if i + |pat| <= |s| {
      var a, b := s[i..i + |pat|], s[1..][i - 1..i - 1 + |pat|];
      assert |a| == |b|;
      assert forall k :: 0 <= k < |a| ==> a[k] == b[k];
      assert a == b;
    }
  }
}
