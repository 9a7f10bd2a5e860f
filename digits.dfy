/**
 * Fixed-width, zero-padded decimal fields, as strftime writes `%d`, `%Y`,
 * `%H`, `%M`, `%S` and `%f`, and the reading of such a field back.
 */
module Digits {

  function Pow10(n: nat): (p: nat)
    ensures p >= 1
  {
    if n == 0 then 1 else 10 * Pow10(n - 1)
  }

  predicate IsDigit(c: char)
  {
    '0' <= c <= '9'
  }

  predicate AllDigits(s: string)
  {
    forall i :: 0 <= i < |s| ==> IsDigit(s[i])
  }

  function DigitChar(d: nat): (c: char)
    requires d < 10
    ensures IsDigit(c)
  {
    ('0' as int + d) as char
  }

  function DigitValue(c: char): (d: nat)
    requires IsDigit(c)
    ensures d < 10 && DigitChar(d) == c
  {
    c as int - '0' as int
  }

  /** `n` written with exactly `width` decimal digits, padded with leading zeros. */
  function Pad(n: nat, width: nat): (s: string)
    requires n < Pow10(width)
    ensures |s| == width && AllDigits(s)
  {
    if width == 0 then []
    else
      assert n / 10 < Pow10(width - 1);
      Pad(n / 10, width - 1) + [DigitChar(n % 10)]
  }

  /** The number a string of decimal digits denotes. */
  function Parse(s: string): (n: nat)
    requires AllDigits(s)
    ensures n < Pow10(|s|)
  {
    if s == [] then 0
    else
      var high := Parse(s[..|s| - 1]);
      assert high + 1 <= Pow10(|s| - 1);
      10 * high + DigitValue(s[|s| - 1])
  }

  /** Reading a padded field gives back the number that was written. */
  lemma {:induction false} ParsePad(n: nat, width: nat)
    requires n < Pow10(width)
    ensures Parse(Pad(n, width)) == n
  {
    if width > 0 {
      var s := Pad(n, width);
      assert s[..width - 1] == Pad(n / 10, width - 1);
      ParsePad(n / 10, width - 1);
    }
  }

  /** Every digit string is the padded form of the number it denotes. */
  lemma {:induction false} PadParse(s: string)
    requires AllDigits(s)
    ensures Pad(Parse(s), |s|) == s
  {
    if s != [] {
      var init := s[..|s| - 1];
      var n := Parse(s);
      assert AllDigits(init);
      PadParse(init);
      assert n / 10 == Parse(init) && n % 10 == DigitValue(s[|s| - 1]);
      assert s == init + [s[|s| - 1]];
    }
  }

  /** Two numbers of the same width have the same padded form only if they are equal. */
  lemma PadInjective(n: nat, m: nat, width: nat)
    requires n < Pow10(width) && m < Pow10(width)
    ensures Pad(n, width) == Pad(m, width) <==> n == m
  {
    ParsePad(n, width);
    ParsePad(m, width);
  }
}
