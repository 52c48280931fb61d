/**
 * Decimal rendering of integers, as a JavaScript template literal `${n}` renders an
 * integral number whose magnitude is below 2^53 (above it JavaScript prints the shortest
 * digits that identify the double, padded with zeros, and from 10^21 on it uses exponent
 * form; neither is modelled), and the reading back of such a rendering.
 */
module Decimal {

  predicate IsDigit(c: char) {
    '0' <= c <= '9'
  }

  predicate AllDigits(s: string) {
    forall k :: 0 <= k < |s| ==> IsDigit(s[k])
  }

  function DigitChar(d: nat): (c: char)
    requires d < 10
    ensures IsDigit(c) && c as int - '0' as int == d
  {
    ('0' as int + d) as char
  }

  function DigitValue(c: char): nat
    requires IsDigit(c)
  {
    c as int - '0' as int
  }

  /** The decimal digits of `n`, most significant first, with no leading zero. */
  function ShowNat(n: nat): (r: string)
    ensures |r| >= 1 && AllDigits(r)
    ensures (r[0] == '0') == (n == 0)
    ensures |r| > 1 ==> r[0] != '0'
    decreases n
  {
    if n < 10 then [DigitChar(n)] else ShowNat(n / 10) + [DigitChar(n % 10)]
  }

  /**
   * An integer as JavaScript prints it below 2^53 in magnitude: a minus sign before the
   * digits of a negative number.
   */
  function ShowInt(i: int): (r: string)
    ensures |r| >= 1
    ensures (r[0] == '-') == (i < 0)
    ensures i >= 0 ==> AllDigits(r)
    ensures i < 0 ==> AllDigits(r[1..])
  {
    if i < 0 then "-" + ShowNat(-i) else ShowNat(i)
  }

  /** The number a string of digits denotes, reading the last digit as the units. */
  function DigitsValue(s: string): nat
    requires AllDigits(s)
    decreases |s|
  {
    if s == [] then 0 else DigitsValue(s[..|s| - 1]) * 10 + DigitValue(s[|s| - 1])
  }

  /** The length of the run of digits at the start of `s`. */
  function SpanDigits(s: string): (k: nat)
    ensures k <= |s| && AllDigits(s[..k])
    ensures k < |s| ==> !IsDigit(s[k])
    decreases |s|
  {
    if s == [] || !IsDigit(s[0]) then 0 else 1 + SpanDigits(s[1..])
  }

  /** Reading the digits of `n` back gives `n`. */
  lemma {:induction false} DigitsValueOfShowNat(n: nat)
    ensures DigitsValue(ShowNat(n)) == n
    decreases n
  {
    var s := ShowNat(n);
    if n >= 10 {
      assert s[..|s| - 1] == ShowNat(n / 10);
      DigitsValueOfShowNat(n / 10);
    }
  }

  /** The digit run of `d + t` is exactly `d` when `t` does not start with a digit. */
  lemma {:induction false} SpanDigitsOfAppend(d: string, t: string)
    requires AllDigits(d)
    requires t == [] || !IsDigit(t[0])
    ensures SpanDigits(d + t) == |d|
    decreases |d|
  {
    if d != [] {
      assert (d + t)[1..] == d[1..] + t;
      SpanDigitsOfAppend(d[1..], t);
    }
  }

  /** A digit string with a leading non-zero digit denotes a positive number. */
  lemma {:induction false} DigitsValuePositive(d: string)
    requires |d| >= 1 && AllDigits(d) && d[0] != '0'
    ensures DigitsValue(d) >= 1
    decreases |d|
  {
    if |d| > 1 {
      DigitsValuePositive(d[..|d| - 1]);
    }
  }

  /** A digit string without a leading zero is the rendering of the number it denotes. */
  lemma {:induction false} ShowNatOfDigitsValue(d: string)
    requires |d| >= 1 && AllDigits(d)
    requires |d| > 1 ==> d[0] != '0'
    ensures ShowNat(DigitsValue(d)) == d
    decreases |d|
  {
    var c := d[|d| - 1];
    if |d| > 1 {
      var front := d[..|d| - 1];
      DigitsValuePositive(front);
      ShowNatOfDigitsValue(front);
      var n := DigitsValue(d);
      assert n == DigitsValue(front) * 10 + DigitValue(c);
      assert n / 10 == DigitsValue(front) && n % 10 == DigitValue(c);
      assert DigitChar(DigitValue(c)) == c;
      assert d == front + [c];
    } else {
      assert DigitChar(DigitValue(c)) == c;
    }
  }
}
