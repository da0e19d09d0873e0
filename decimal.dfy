/**
 * The part of `java.lang.String.format` the time labels use: the `%d` and
 * `%02d` conversions of an integer, with ASCII digits, and a reader for the
 * `minutes:seconds` labels they build.
 */
module Decimal {
  import opened Optional

  predicate IsDigit(c: char)
  {
    '0' <= c <= '9'
  }

  predicate AllDigits(s: string)
  {
    forall i :: 0 <= i < |s| ==> IsDigit(s[i])
  }

  function DigitValue(c: char): (d: nat)
    requires IsDigit(c)
    ensures d < 10
  {
    c as int - '0' as int
  }

  function DigitChar(d: nat): (c: char)
    requires d < 10
    ensures IsDigit(c) && DigitValue(c) == d
  {
    ('0' as int + d) as char
  }

  /** The decimal digits of `n`, most significant first, without leading zeros. */
  function NatDigits(n: nat): (s: string)
    ensures AllDigits(s)
    ensures 1 <= |s| && (|s| == 1 <==> n < 10)
    ensures s[0] == '0' ==> n == 0
    decreases n
  {
    if n < 10 then [DigitChar(n)] else NatDigits(n / 10) + [DigitChar(n % 10)]
  }

  /** The number a string of decimal digits denotes. */
  function DigitsValue(s: string): nat
    requires AllDigits(s)
  {
    if s == [] then 0 else DigitsValue(s[..|s| - 1]) * 10 + DigitValue(s[|s| - 1])
  }

  lemma {:induction false} DigitsRoundTrip(n: nat)
    ensures DigitsValue(NatDigits(n)) == n
    decreases n
  {
    if n >= 10 {
      var s := NatDigits(n);
      assert s[..|s| - 1] == NatDigits(n / 10);
      DigitsRoundTrip(n / 10);
    }
  }

  /** `String.format("%d", n)`. */
  function FormatD(n: int): (s: string)
    ensures n >= 0 ==> |s| >= 1 && AllDigits(s) && DigitsValue(s) == n && (s[0] == '0' ==> |s| == 1)
    ensures n < 0 ==> |s| >= 2 && s[0] == '-' && AllDigits(s[1..]) && DigitsValue(s[1..]) == -n && s[1] != '0'
  {
    if n < 0 then
      DigitsRoundTrip(-n);
      assert ("-" + NatDigits(-n))[1..] == NatDigits(-n);
      "-" + NatDigits(-n)
    else
      DigitsRoundTrip(n);
      NatDigits(n)
  }

  /**
   * `String.format("%02d", n)`: at least two characters, zero-padded on the
   * left; a negative number already has two characters and keeps its sign.
   */
  function Format02D(n: int): (s: string)
    ensures |s| >= 2
    ensures n >= 0 ==> AllDigits(s) && DigitsValue(s) == n
    ensures 0 <= n < 100 ==> |s| == 2
    ensures n >= 10 ==> s[0] != '0'
    ensures n < 0 ==> s[0] == '-' && AllDigits(s[1..]) && DigitsValue(s[1..]) == -n && s[1] != '0'
  {
    if n < 0 then
      FormatD(n)
    else if n < 10 then
      assert DigitsValue("0" + NatDigits(n)) == DigitsValue("0") * 10 + n;
      "0" + NatDigits(n)
    else
      FormatD(n)
  }

  /**
   * Reads a `minutes:seconds` label whose seconds field is two digits:
   * the minutes and seconds it shows, or None if it is not such a label.
   */
  function ParseClock(s: string): (r: Option<(nat, nat)>)
    ensures r.Some? ==> |s| >= 4 && s[|s| - 3] == ':'
  {
    if |s| >= 4 && s[|s| - 3] == ':' && AllDigits(s[..|s| - 3]) && AllDigits(s[|s| - 2..]) then
      Some((DigitsValue(s[..|s| - 3]), DigitsValue(s[|s| - 2..])))
    else
      None
  }

  /** A label built from two digit strings reads back as their values. */
  lemma ParseClockOf(minutes: string, seconds: string)
    requires |minutes| >= 1 && AllDigits(minutes)
    requires |seconds| == 2 && AllDigits(seconds)
    ensures ParseClock(minutes + ":" + seconds) == Some((DigitsValue(minutes), DigitsValue(seconds)))
  {
    var s := minutes + ":" + seconds;
    assert s[..|s| - 3] == minutes;
    assert s[|s| - 2..] == seconds;
  }
}
