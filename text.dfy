/** Decimal digits and the text of numbers, as Python's `str()`,
    `str.isdigit()` and format specifications such as `{:02d}` write and
    read them. */
module Text {

  predicate IsDigit(c: char) {
    '0' <= c <= '9'
  }

  /** `str.isdigit()`: non-empty and made of digits only. */
  predicate IsDigits(s: string) {
    |s| > 0 && forall i :: 0 <= i < |s| ==> IsDigit(s[i])
  }

  function DigitChar(d: nat): (c: char)
    requires d < 10
    ensures IsDigit(c)
  {
    ('0' as int + d) as char
  }

  function DigitValue(c: char): (d: nat)
    requires IsDigit(c)
    ensures d < 10 && DigitChar(d) == c
  {
    c as int - '0' as int
  }

  function Pow10(n: nat): (p: nat)
    ensures p >= 1
  {
    if n == 0 then 1 else 10 * Pow10(n - 1)
  }

  /** The number a string of decimal digits denotes. */
  function DigitsValue(s: string): (n: nat)
    requires forall i :: 0 <= i < |s| ==> IsDigit(s[i])
    ensures n < Pow10(|s|)
  {
    if |s| == 0 then 0
    else DigitsValue(s[..|s| - 1]) * 10 + DigitValue(s[|s| - 1])
  }

  /** The decimal digits of `n` in exactly `width` places, zero-padded on
      the left (as `strftime` writes years and months). */
  function PaddedDigits(n: nat, width: nat): (s: string)
    ensures |s| == width
    ensures forall i :: 0 <= i < |s| ==> IsDigit(s[i])
  {
    if width == 0 then "" else PaddedDigits(n / 10, width - 1) + [DigitChar(n % 10)]
  }

  /** Zero-padded digits read back as the number they were made from. */
  lemma {:induction false} PaddedDigitsValue(n: nat, width: nat)
    requires n < Pow10(width)
    ensures DigitsValue(PaddedDigits(n, width)) == n
  {
    if width > 0 {
      var s := PaddedDigits(n, width);
      assert s[..|s| - 1] == PaddedDigits(n / 10, width - 1);
      PaddedDigitsValue(n / 10, width - 1);
    }
  }

  /** `str(n)` for a natural number. */
  function NatText(n: nat): (s: string)
    ensures IsDigits(s)
  {
    if n < 10 then [DigitChar(n)] else NatText(n / 10) + [DigitChar(n % 10)]
  }

  lemma {:induction false} NatTextValue(n: nat)
    ensures DigitsValue(NatText(n)) == n
  {
    if n >= 10 {
      var s := NatText(n);
      assert s[..|s| - 1] == NatText(n / 10);
      NatTextValue(n / 10);
    }
  }

  /** `str(n)` for an integer: a minus sign before a negative one. */
  function IntText(n: int): (s: string)
    ensures |s| > 0
    ensures n >= 0 ==> s == NatText(n)
    ensures n < 0 ==> s == "-" + NatText(-n)
  {
    if n >= 0 then NatText(n) else "-" + NatText(-n)
  }
}
