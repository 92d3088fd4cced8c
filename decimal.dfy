/**
 * Decimal printing of non-negative integers, as `StringBuilder.append(int)` and
 * `append(long)` do it, together with the digit arithmetic the card-number
 * generator relies on (digit count and leading digit).
 */
module Decimal {

  predicate IsDigitChar(c: char) {
    '0' <= c <= '9'
  }

  predicate AllDigits(s: string) {
    forall i :: 0 <= i < |s| ==> IsDigitChar(s[i])
  }

  function DigitChar(d: nat): (c: char)
    requires d < 10
    ensures IsDigitChar(c)
  {
    (d + '0' as int) as char
  }

  function DigitValue(c: char): (d: nat)
    requires IsDigitChar(c)
    ensures d < 10
  {
    c as int - '0' as int
  }

  lemma DigitRoundTrip(d: nat)
    requires d < 10
    ensures DigitValue(DigitChar(d)) == d
  {
  }

  /** The decimal text of `n`, without sign or leading zeros. */
  function DecimalString(n: nat): (s: string)
    ensures |s| >= 1 && AllDigits(s)
    ensures n >= 10 ==> s[0] != '0'
    decreases n
  {
    if n < 10 then [DigitChar(n)] else DecimalString(n / 10) + [DigitChar(n % 10)]
  }

  /** Reads a string of decimal digits back as a number (the partner of DecimalString). */
  function ParseDecimal(s: string): (n: nat)
    requires AllDigits(s)
    decreases |s|
  {
    if s == [] then 0 else ParseDecimal(s[..|s| - 1]) * 10 + DigitValue(s[|s| - 1])
  }

  lemma {:induction false} ParseDecimalOfDecimalString(n: nat)
    ensures ParseDecimal(DecimalString(n)) == n
    decreases n
  {
    if n < 10 {
      DigitRoundTrip(n);
    } else {
      var s := DecimalString(n);
      assert s[..|s| - 1] == DecimalString(n / 10);
      ParseDecimalOfDecimalString(n / 10);
      DigitRoundTrip(n % 10);
    }
  }

  /** Number of decimal digits of `n` (1 for 0 .. 9). */
  function DigitCount(n: nat): (c: nat)
    ensures c >= 1
    decreases n
  {
    if n < 10 then 1 else 1 + DigitCount(n / 10)
  }

  /** The first decimal digit of `n`. */
  function Leading(n: nat): (d: nat)
    ensures d < 10
    ensures n > 0 ==> d > 0
    decreases n
  {
    if n < 10 then n else Leading(n / 10)
  }

  function Pow10(k: nat): (p: nat)
    ensures p >= 1
  {
    if k == 0 then 1 else 10 * Pow10(k - 1)
  }

  /** DigitCount and Leading agree with the printed text: its length and first character. */
  lemma {:induction false} DecimalStringShape(n: nat)
    ensures |DecimalString(n)| == DigitCount(n)
    ensures DecimalString(n)[0] == DigitChar(Leading(n))
    decreases n
  {
    if n >= 10 {
      DecimalStringShape(n / 10);
    }
  }

  /** A number below 10^k has at most k digits. */
  lemma {:induction false} DigitCountBelow(n: nat, k: nat)
    requires k >= 1 && n < Pow10(k)
    ensures DigitCount(n) <= k
    decreases n
  {
    if n >= 10 {
      assert k >= 2;
      assert n / 10 < Pow10(k - 1);
      DigitCountBelow(n / 10, k - 1);
    }
  }
}
