/**
 * Decimal text for integers: the `str(n)` and `int(s)` conversions the
 * harness applies to shadow values, which travel as strings on the wire.
 */
module Numerals {
  import opened Wrappers

  predicate IsDigit(c: char) {
    '0' <= c <= '9'
  }

  predicate AllDigits(s: string) {
    forall i :: 0 <= i < |s| ==> IsDigit(s[i])
  }

  function DigitChar(d: nat): (c: char)
    requires d < 10
    ensures IsDigit(c)
    ensures DigitValue(c) == d
  {
    (48 + d) as char
  }

  function DigitValue(c: char): (d: nat)
    requires IsDigit(c)
    ensures d < 10
  {
    (c as int) - 48
  }

  /** `str(n)` for a natural number: decimal digits, no leading zero. */
  function NatToString(n: nat): (s: string)
    ensures |s| >= 1 && AllDigits(s)
    ensures s[0] == '0' <==> n == 0
    ensures n < 10 <==> |s| == 1
    decreases n
  {
    if n < 10 then [DigitChar(n)] else NatToString(n / 10) + [DigitChar(n % 10)]
  }

  /** The number a string of decimal digits denotes (most significant first). */
  function DigitsValue(s: string): nat
    requires AllDigits(s)
    decreases |s|
  {
    if |s| == 0 then 0 else 10 * DigitsValue(s[..|s| - 1]) + DigitValue(s[|s| - 1])
  }

  /** `str(i)` for any integer: a minus sign before the digits of a negative. */
  function IntToString(i: int): string {
    if i < 0 then "-" + NatToString(-i) else NatToString(i)
  }

  /** At least one decimal digit and nothing else. */
  predicate Unsigned(s: string) {
    |s| >= 1 && AllDigits(s)
  }

  /** A sign followed by at least one decimal digit. */
  predicate Signed(s: string, sign: char) {
    |s| >= 2 && s[0] == sign && AllDigits(s[1..])
  }

  /**
   * `int(s)`: an optional sign followed by at least one decimal digit;
   * anything else is the ValueError case, `None`.
   */
  function ParseInt(s: string): (r: Option<int>)
    ensures r.Some? <==> Unsigned(s) || Signed(s, '-') || Signed(s, '+')
    ensures Unsigned(s) ==> r == Some(DigitsValue(s))
    ensures Signed(s, '-') ==> r == Some(-(DigitsValue(s[1..]) as int))
    ensures Signed(s, '+') ==> r == Some(DigitsValue(s[1..]))
    ensures |s| >= 1 && !IsDigit(s[0]) && s[0] != '-' && s[0] != '+' ==> r.None?
  {
    if Signed(s, '-') then Some(0 - DigitsValue(s[1..]) as int)
    else if Signed(s, '+') then Some(DigitsValue(s[1..]))
    else if Unsigned(s) then Some(DigitsValue(s))
    else None
  }

  /** Reading the digits of `NatToString(n)` gives back `n`. */
  lemma {:induction false} NatToStringRoundTrip(n: nat)
    ensures DigitsValue(NatToString(n)) == n
    decreases n
  {
    if n >= 10 {
      NatToStringRoundTrip(n / 10);
      var s := NatToString(n);
      assert s[..|s| - 1] == NatToString(n / 10);
    }
  }

  /** `int(str(i)) == i` for every integer. */
  lemma ParseIntRoundTrip(i: int)
    ensures ParseInt(IntToString(i)) == Some(i)
  {
    var s := IntToString(i);
    if i < 0 {
      var t := NatToString(-i);
      assert s == "-" + t;
      assert s[1..] == t;
      NatToStringRoundTrip(-i);
      assert ParseInt(s) == Some(0 - DigitsValue(t) as int);
    } else {
      NatToStringRoundTrip(i);
      assert IsDigit(s[0]);
      assert ParseInt(s) == Some(DigitsValue(s));
    }
  }

  /** Distinct naturals print differently. */
  lemma NatToStringInjective(m: nat, n: nat)
    requires NatToString(m) == NatToString(n)
    ensures m == n
  {
    NatToStringRoundTrip(m);
    NatToStringRoundTrip(n);
  }
}
