/** The decimal rendering JavaScript uses when a non-negative integer (a `Date.now()`
    timestamp) is interpolated into a template string. */
module Decimal {
  predicate IsDigit(c: char) {
    '0' <= c <= '9'
  }

  predicate AllDigits(s: string) {
    forall i :: 0 <= i < |s| ==> IsDigit(s[i])
  }

  function DigitChar(d: nat): (c: char)
    requires d < 10
    ensures IsDigit(c) && c as int - '0' as int == d
  {
    ('0' as int + d) as char
  }

  /** `${n}`: the base-10 digits of n, most significant first, without leading zeros. */
  function NatToString(n: nat): (s: string)
    ensures |s| > 0 && AllDigits(s)
    ensures n > 0 ==> s[0] != '0'
    decreases n
  {
    if n < 10 then [DigitChar(n)] else NatToString(n / 10) + [DigitChar(n % 10)]
  }

  /** The number a string of digits denotes. */
  function DigitsValue(s: string): nat
    requires AllDigits(s)
  {
    if s == [] then 0
    else DigitsValue(s[..|s| - 1]) * 10 + (s[|s| - 1] as int - '0' as int)
  }

  /** Reading back the rendering gives the number. */
  lemma {:induction false} NatToStringValue(n: nat)
    ensures DigitsValue(NatToString(n)) == n
    decreases n
  {
    if n >= 10 {
      NatToStringValue(n / 10);
      var s := NatToString(n);
      assert s[..|s| - 1] == NatToString(n / 10);
    }
  }

  /** Distinct numbers render as distinct strings. */
  lemma NatToStringInjective(a: nat, b: nat)
    ensures NatToString(a) == NatToString(b) <==> a == b
  {
    NatToStringValue(a);
    NatToStringValue(b);
  }

  /** A string `d1 + [sep] + x1` whose leading part is digits and whose separator is
      not a digit splits at its first separator in only one way. */
  lemma SplitAfterDigits(d1: string, x1: string, d2: string, x2: string, sep: char)
    requires AllDigits(d1) && AllDigits(d2) && !IsDigit(sep)
    requires d1 + [sep] + x1 == d2 + [sep] + x2
    ensures d1 == d2 && x1 == x2
  {
    var s := d1 + [sep] + x1;
    var k := if |d1| < |d2| then |d1| else |d2|;
    assert s[k] == (d1 + [sep])[k] == (d2 + [sep])[k];
    assert d1 == s[..|d1|] == d2;
    assert x1 == s[|d1| + 1..] == x2;
  }

  /** A string `x1 + [sep] + d1` whose trailing part is digits splits at its last
      separator in only one way. */
  lemma SplitBeforeDigits(x1: string, d1: string, x2: string, d2: string, sep: char)
    requires AllDigits(d1) && AllDigits(d2) && !IsDigit(sep)
    requires x1 + [sep] + d1 == x2 + [sep] + d2
    ensures x1 == x2 && d1 == d2
  {
    var s := x1 + [sep] + d1;
    var n := |s|;
    var k := if |d1| < |d2| then |d1| else |d2|;
    assert s[n - 1 - k] == ([sep] + d1)[|d1| - k] == ([sep] + d2)[|d2| - k];
    assert d1 == s[n - |d1|..] == d2;
    assert x1 == s[..n - |d1| - 1] == x2;
  }
}
