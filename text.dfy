/**
 * The few Python string operations the warehouse client relies on:
 * `str.upper()`, `str.find()` and `str(int)`, stated over `seq<char>`.
 */
module Text {

  /** `str.upper()` on one character; only the ASCII letters a-z change. */
  function UpperChar(c: char): char
  {
    if 'a' <= c <= 'z' then (c as int - 'a' as int + 'A' as int) as char else c
  }

  /** `str.upper()`: every character is upper-cased in place, the length is kept. */
  function Upper(s: string): (r: string)
  {
    seq(|s|, i requires 0 <= i < |s| => UpperChar(s[i]))
  }

  /** Upper-casing an upper-cased text changes nothing. */
  lemma UpperIdempotent(s: string)
    ensures Upper(Upper(s)) == Upper(s)
  {
    var u := Upper(s);
    assert forall i :: 0 <= i < |u| ==> Upper(u)[i] == u[i];
  }

  /** A text without lower-case letters is its own upper-case form. */
  lemma UpperNoLower(s: string)
    requires forall i :: 0 <= i < |s| ==> !('a' <= s[i] <= 'z')
    ensures Upper(s) == s
  {
    assert forall i :: 0 <= i < |s| ==> Upper(s)[i] == s[i];
  }

  /** Upper-casing distributes over concatenation. */
  lemma UpperConcat(a: string, b: string)
    ensures Upper(a + b) == Upper(a) + Upper(b)
  {
    assert forall i :: 0 <= i < |a + b| ==> Upper(a + b)[i] == (Upper(a) + Upper(b))[i];
  }

  /** A character that is not a lower-case letter occurs in `Upper(s)` only where it occurred in `s`. */
  lemma UpperKeepsAbsent(s: string, c: char)
    requires !('a' <= c <= 'z') && !('A' <= c <= 'Z')
    requires c !in s
    ensures c !in Upper(s)
  {
    forall i | 0 <= i < |s|
      ensures Upper(s)[i] != c
    {
      assert s[i] != c;
    }
  }

  /** `pat` occurs in `s` at index `i`. */
  predicate MatchAt(s: string, pat: string, i: int)
  {
    0 <= i && i + |pat| <= |s| && s[i..i + |pat|] == pat
  }

  /** `pat` occurs somewhere in `s`. */
  ghost predicate Occurs(s: string, pat: string)
  {
    exists i :: MatchAt(s, pat, i)
  }

  lemma MatchShift(s: string, pat: string, i: int)
    requires |s| > 0 && 0 <= i
    ensures MatchAt(s[1..], pat, i) <==> MatchAt(s, pat, i + 1)
  {
    if 0 <= i && i + |pat| <= |s| - 1 {
      assert s[1..][i..i + |pat|] == s[i + 1..i + 1 + |pat|];
    }
  }

  /**
   * `s.find(pat)`: the lowest index at which `pat` occurs in `s`, or -1
   * when it occurs nowhere.
   */
  function Find(s: string, pat: string): (r: int)
    ensures r == -1 || MatchAt(s, pat, r)
    ensures r == -1 <==> !Occurs(s, pat)
    ensures forall i :: 0 <= i < r ==> !MatchAt(s, pat, i)
    decreases |s|
  {
    if |s| < |pat| then
      -1
    else if s[..|pat|] == pat then
      assert MatchAt(s, pat, 0);
      0
    else
      var k := Find(s[1..], pat);
      assert !MatchAt(s, pat, 0);
      assert forall i :: 0 <= i ==> (MatchAt(s[1..], pat, i) <==> MatchAt(s, pat, i + 1)) by {
        forall i | 0 <= i ensures MatchAt(s[1..], pat, i) <==> MatchAt(s, pat, i + 1) {
          MatchShift(s, pat, i);
        }
      }
      assert forall i :: MatchAt(s, pat, i) ==> MatchAt(s[1..], pat, i - 1) by {
        forall i | MatchAt(s, pat, i) ensures MatchAt(s[1..], pat, i - 1) {
          MatchShift(s, pat, i - 1);
        }
      }
      if k == -1 then -1 else k + 1
  }

  /** A text that is spliced between two others is found. */
  lemma FindSpliced(a: string, m: string, b: string)
    ensures Find(a + m + b, m) != -1
  {
    var s := a + m + b;
    assert s[|a|..|a| + |m|] == m;
    assert MatchAt(s, m, |a|);
  }

  /**
   * The first occurrence of a single character `c` in `x + [c] + rest`,
   * when `x` does not hold `c`, is right after `x`.
   */
  lemma FindFirstSeparator(x: string, c: char, rest: string)
    requires c !in x
    ensures Find(x + [c] + rest, [c]) == |x|
  {
    var s := x + [c] + rest;
    assert s[|x|..|x| + 1] == [c];
    assert MatchAt(s, [c], |x|);
    forall i | 0 <= i < |x|
      ensures !MatchAt(s, [c], i)
    {
      assert s[i] == x[i] != c;
    }
  }

  /** The decimal digit character for `d`. */
  function DigitChar(d: int): char
    requires 0 <= d < 10
  {
    ('0' as int + d) as char
  }

  /** `str(n)` for a non-negative integer: its decimal digits, without leading zeros. */
  function NatToString(n: nat): (s: string)
    ensures |s| >= 1
    ensures forall i :: 0 <= i < |s| ==> '0' <= s[i] <= '9'
    ensures s[0] == '0' ==> n == 0
    decreases n
  {
    if n < 10 then [DigitChar(n)] else NatToString(n / 10) + [DigitChar(n % 10)]
  }

  /** `str(n)` for any integer: a minus sign, then the digits of the magnitude. */
  function IntToString(n: int): (s: string)
  {
    if n < 0 then "-" + NatToString(-n) else NatToString(n)
  }

  /** Reads a run of decimal digits back as a number. */
  function ParseDigits(s: string): int
  {
    if s == [] then 0 else ParseDigits(s[..|s| - 1]) * 10 + (s[|s| - 1] as int - '0' as int)
  }

  /** Reads an optionally signed decimal numeral back as a number. */
  function ParseInt(s: string): int
  {
    if |s| > 0 && s[0] == '-' then -ParseDigits(s[1..]) else ParseDigits(s)
  }

  lemma {:induction false} NatToStringRoundTrip(n: nat)
    ensures ParseDigits(NatToString(n)) == n
  {
    if n >= 10 {
      NatToStringRoundTrip(n / 10);
      var s := NatToString(n);
      assert s[..|s| - 1] == NatToString(n / 10);
    }
  }

  /** `str` on integers loses nothing: the numeral reads back as the number. */
  lemma IntToStringRoundTrip(n: int)
    ensures ParseInt(IntToString(n)) == n
  {
    if n < 0 {
      NatToStringRoundTrip(-n);
      assert IntToString(n)[1..] == NatToString(-n);
    } else {
      NatToStringRoundTrip(n);
    }
  }
}
