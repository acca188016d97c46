/**
 * Decimal digits: rendering a number as ASCII digits (Rust's integer
 * `to_string`, and the zero-padded fields of a date) and reading digits back.
 */
module Digits {

  predicate IsDigit(c: char) {
    '0' <= c <= '9'
  }

  predicate AllDigits(s: string) {
    forall i :: 0 <= i < |s| ==> IsDigit(s[i])
  }

  function DigitValue(c: char): (d: nat)
    requires IsDigit(c)
    ensures d < 10
  {
    c as int - '0' as int
  }

  /** The character of a single digit; reading it back gives the digit. */
  function DigitChar(d: nat): (c: char)
    requires d < 10
    ensures IsDigit(c) && DigitValue(c) == d
  {
    ('0' as int + d) as char
  }

  lemma DigitCharOfValue(c: char)
    requires IsDigit(c)
    ensures DigitChar(DigitValue(c)) == c
  {
  }

  function Pow10(k: nat): (p: nat)
    ensures p >= 1
  {
    if k == 0 then 1 else 10 * Pow10(k - 1)
  }

  /** The number a string of digits denotes, most significant digit first. */
  function Value(s: string): nat
    requires AllDigits(s)
  {
    if s == [] then 0 else Value(s[..|s| - 1]) * 10 + DigitValue(s[|s| - 1])
  }

  /** `n` written with exactly `width` digits: leading zeros, high digits dropped. */
  function Padded(n: nat, width: nat): (s: string)
    ensures |s| == width && AllDigits(s)
  {
    if width == 0 then [] else Padded(n / 10, width - 1) + [DigitChar(n % 10)]
  }

  /** Reading a padded rendering gives the number back when it fits the width. */
  lemma {:induction false} ValueOfPadded(n: nat, width: nat)
    requires n < Pow10(width)
    ensures Value(Padded(n, width)) == n
  {
    if width > 0 {
      var p := Pow10(width - 1);
      assert n / 10 < p by {
        assert n < 10 * p;
      }
      ValueOfPadded(n / 10, width - 1);
      var s := Padded(n, width);
      assert s[..|s| - 1] == Padded(n / 10, width - 1);
      assert s[|s| - 1] == DigitChar(n % 10);
      assert Value(s) == (n / 10) * 10 + n % 10;
    }
  }

  /** Rendering the value of a digit string at its own width gives the string back. */
  lemma {:induction false} PaddedOfValue(s: string)
    requires AllDigits(s)
    ensures Padded(Value(s), |s|) == s
  {
    if s != [] {
      var init := s[..|s| - 1];
      assert AllDigits(init);
      PaddedOfValue(init);
      var n := Value(s);
      assert n / 10 == Value(init) && n % 10 == DigitValue(s[|s| - 1]);
      DigitCharOfValue(s[|s| - 1]);
      assert s == init + [s[|s| - 1]];
    }
  }

  /** The shortest decimal rendering of a natural number (no leading zeros). */
  function Decimal(n: nat): (s: string)
    ensures |s| >= 1 && AllDigits(s)
  {
    if n < 10 then [DigitChar(n)] else Decimal(n / 10) + [DigitChar(n % 10)]
  }

  lemma {:induction false} ValueOfDecimal(n: nat)
    ensures Value(Decimal(n)) == n
  {
    if n >= 10 {
      ValueOfDecimal(n / 10);
      var s := Decimal(n);
      assert s[..|s| - 1] == Decimal(n / 10);
    } else {
      assert Decimal(n)[..0] == [];
    }
  }

  /** The shortest rendering has no leading zero: it starts with `0` only for zero itself. */
  lemma {:induction false} NoLeadingZero(n: nat)
    ensures Decimal(n)[0] == '0' ==> n == 0
  {
    if n >= 10 {
      NoLeadingZero(n / 10);
      assert Decimal(n)[0] == Decimal(n / 10)[0];
    }
  }

  /** The rendering of a signed integer: a minus sign, then the digits of its magnitude. */
  function SignedDecimal(n: int): string
  {
    if n < 0 then "-" + Decimal(-n) else Decimal(n)
  }

  /** Distinct integers have distinct renderings. */
  lemma SignedDecimalInjective(m: int, n: int)
    requires SignedDecimal(m) == SignedDecimal(n)
    ensures m == n
  {
    var s := SignedDecimal(m);
    assert IsDigit(Decimal(if m < 0 then -m else m)[0]);
    assert IsDigit(Decimal(if n < 0 then -n else n)[0]);
    assert (m < 0 <==> s[0] == '-') && (n < 0 <==> s[0] == '-');
    if m < 0 {
      assert Decimal(-m) == s[1..] == Decimal(-n);
      ValueOfDecimal(-m);
      ValueOfDecimal(-n);
    } else {
      ValueOfDecimal(m);
      ValueOfDecimal(n);
    }
  }
}
