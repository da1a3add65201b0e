/** Text helpers with Python's meaning: ASCII lower-casing, replacing one
    character by a string, and decimal formatting of integers. */
module Text {

  function LowerChar(c: char): (d: char)
    ensures 'A' <= c <= 'Z' ==> d as int == c as int + 32
    ensures !('A' <= c <= 'Z') ==> d == c
  {
    if 'A' <= c <= 'Z' then (c as int + 32) as char else c
  }

  /** `str.lower()` on ASCII letters; every other character is kept. */
  function Lower(s: string): (t: string)
    ensures |t| == |s|
    ensures forall i :: 0 <= i < |s| ==> t[i] == LowerChar(s[i])
  {
    if |s| == 0 then "" else [LowerChar(s[0])] + Lower(s[1..])
  }

  /** `str.replace(c, r)` for a one-character pattern. */
  function Replace(s: string, c: char, r: string): (t: string)
  {
    if |s| == 0 then ""
    else (if s[0] == c then r else [s[0]]) + Replace(s[1..], c, r)
  }

  /** After replacing, the pattern is gone unless the replacement brings it;
      a character that is neither the pattern nor in the replacement is
      present afterwards exactly when it was present before. */
  lemma {:induction false} ReplaceMembers(s: string, c: char, r: string, d: char)
    ensures d == c && d !in r ==> d !in Replace(s, c, r)
    ensures d != c && d !in r ==> (d in Replace(s, c, r) <==> d in s)
  {
    if |s| > 0 {
      ReplaceMembers(s[1..], c, r, d);
      assert s == [s[0]] + s[1..];
    }
  }

  /** Replacing by a single character keeps the length; deleting shortens by
      the number of occurrences, so never lengthens. */
  lemma {:induction false} ReplaceLength(s: string, c: char, r: string)
    ensures |r| == 1 ==> |Replace(s, c, r)| == |s|
    ensures |r| == 0 ==> |Replace(s, c, r)| <= |s|
  {
    if |s| > 0 {
      ReplaceLength(s[1..], c, r);
    }
  }

  function DigitChar(d: nat): (c: char)
    requires d < 10
    ensures '0' <= c <= '9'
    ensures c as int - '0' as int == d
  {
    ('0' as int + d) as char
  }

  /** The decimal digits of `n`, most significant first. */
  function NatToString(n: nat): (s: string)
    ensures |s| > 0
    ensures forall i :: 0 <= i < |s| ==> '0' <= s[i] <= '9'
    decreases n
  {
    if n < 10 then [DigitChar(n)] else NatToString(n / 10) + [DigitChar(n % 10)]
  }

  /** `str(n)` for an integer, with a leading '-' when negative. */
  function IntToString(n: int): (s: string)
    ensures |s| > 0
    ensures n < 0 ==> s[0] == '-'
    ensures n >= 0 ==> '0' <= s[0] <= '9'
  {
    if n < 0 then "-" + NatToString(-n) else NatToString(n)
  }

  /** The number a string of decimal digits denotes. */
  function DecimalValue(s: string): (v: int)
    requires forall i :: 0 <= i < |s| ==> '0' <= s[i] <= '9'
  {
    if |s| == 0 then 0 else 10 * DecimalValue(s[..|s| - 1]) + (s[|s| - 1] as int - '0' as int)
  }

  /** Formatting is undone by reading the digits back. */
  lemma {:induction false} NatToStringValue(n: nat)
    ensures DecimalValue(NatToString(n)) == n
    decreases n
  {
    if n >= 10 {
      NatToStringValue(n / 10);
      var s := NatToString(n);
      assert s[..|s| - 1] == NatToString(n / 10);
    }
  }

  /** Different integers format differently. */
  lemma IntToStringInjective(m: int, n: int)
    requires IntToString(m) == IntToString(n)
    ensures m == n
  {
    if m < 0 && n < 0 {
      assert IntToString(m)[1..] == NatToString(-m);
      assert IntToString(n)[1..] == NatToString(-n);
      NatToStringValue(-m);
      NatToStringValue(-n);
    } else if m >= 0 && n >= 0 {
      NatToStringValue(m);
      NatToStringValue(n);
    }
  }
}
