/** Decimal text: JavaScript's `String(n)` for integers, `padStart` with a
    fill character, and reading a digit string back as a number. */
module Decimal {

  predicate IsDigit(c: char) {
    '0' <= c <= '9'
  }

  predicate IsDigits(s: string) {
    forall i :: 0 <= i < |s| ==> IsDigit(s[i])
  }

  function DigitValue(c: char): (d: nat)
    requires IsDigit(c)
    ensures d < 10
  {
    c as int - '0' as int
  }

  function DigitChar(d: nat): (c: char)
    requires d < 10
    ensures IsDigit(c) && DigitValue(c) == d
  {
    ('0' as int + d) as char
  }

  function Pow10(k: nat): (p: nat)
    ensures p >= 1
  {
    if k == 0 then 1 else 10 * Pow10(k - 1)
  }

  /** `String(n)` for a non-negative integer: shortest digits, no leading zero. */
  function NatToString(n: nat): (s: string)
    ensures |s| >= 1 && IsDigits(s)
    ensures |s| > 1 ==> s[0] != '0'
  {
    if n < 10 then [DigitChar(n)] else NatToString(n / 10) + [DigitChar(n % 10)]
  }

  /** `String(i)` for any integer: a minus sign before the magnitude. */
  function IntToString(i: int): (s: string)
    ensures i >= 0 ==> s == NatToString(i)
    ensures i < 0 ==> |s| >= 2 && s[0] == '-' && s[1..] == NatToString(-i)
  {
    if i < 0 then "-" + NatToString(-i) else NatToString(i)
  }

  /** The value of a digit string, most significant digit first; "" reads as 0. */
  function ParseNat(s: string): nat
    requires IsDigits(s)
  {
    if |s| == 0 then 0 else 10 * ParseNat(s[..|s| - 1]) + DigitValue(s[|s| - 1])
  }

  lemma {:induction false} ParseNatToString(n: nat)
    ensures ParseNat(NatToString(n)) == n
  {
    if n >= 10 {
      var s := NatToString(n);
      assert s[..|s| - 1] == NatToString(n / 10);
      ParseNatToString(n / 10);
    }
  }

  /** `String(n)` fits in `k` characters exactly when `n < 10^k`. */
  lemma {:induction false} NatToStringLength(n: nat, k: nat)
    requires k >= 1
    ensures |NatToString(n)| <= k <==> n < Pow10(k)
  {
    if n >= 10 {
      if k == 1 {
        assert Pow10(1) == 10;
      } else {
        NatToStringLength(n / 10, k - 1);
        var p := Pow10(k - 1);
        assert n == 10 * (n / 10) + n % 10;
        assert n / 10 < p <==> n < 10 * p;
      }
    } else {
      assert Pow10(k) == 10 * Pow10(k - 1);
    }
  }

  /** `s.padStart(width, fill)`: never truncates; `s` stays the suffix. */
  function PadStart(s: string, width: nat, fill: char): (r: string)
    ensures |r| == if |s| >= width then |s| else width
    ensures r[|r| - |s|..] == s
    ensures forall i :: 0 <= i < |r| - |s| ==> r[i] == fill
  {
    if |s| >= width then s else seq(width - |s|, _ => fill) + s
  }

  /** `n.toString().padStart(width, '0')`. */
  function ZeroPad(n: nat, width: nat): (r: string)
    ensures IsDigits(r)
    ensures |r| >= width && |r| >= |NatToString(n)|
  {
    PadStart(NatToString(n), width, '0')
  }

  lemma {:induction false} ParseNatZeros(z: string)
    requires forall i :: 0 <= i < |z| ==> z[i] == '0'
    ensures IsDigits(z) && ParseNat(z) == 0
  {
    if |z| > 0 {
      ParseNatZeros(z[..|z| - 1]);
    }
  }

  /** Leading zeros do not change the value of a digit string. */
  lemma {:induction false} ParseNatLeadingZeros(z: string, s: string)
    requires forall i :: 0 <= i < |z| ==> z[i] == '0'
    requires IsDigits(s)
    ensures IsDigits(z + s) && ParseNat(z + s) == ParseNat(s)
  {
    ParseNatZeros(z);
    if |s| == 0 {
      assert z + s == z;
    } else {
      var zs := z + s;
      assert zs[..|zs| - 1] == z + s[..|s| - 1];
      ParseNatLeadingZeros(z, s[..|s| - 1]);
    }
  }

  /** Zero padding reads back as the padded number, at any width. */
  lemma ZeroPadValue(n: nat, width: nat)
    ensures ParseNat(ZeroPad(n, width)) == n
  {
    var s := NatToString(n);
    var r := ZeroPad(n, width);
    var z := r[..|r| - |s|];
    assert r == z + s;
    ParseNatLeadingZeros(z, s);
    ParseNatToString(n);
  }

  /** Zero padding to `width` adds characters only to numbers shorter than it:
      the result has exactly `width` characters iff `n < 10^width`. */
  lemma ZeroPadLength(n: nat, width: nat)
    requires width >= 1
    ensures |ZeroPad(n, width)| == width <==> n < Pow10(width)
  {
    NatToStringLength(n, width);
  }
}
