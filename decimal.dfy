/** Decimal renderings of natural numbers.

    Both JavaScript's `String(n)` (used by the key templates) and Lua 5.1's
    number-to-string conversion (used by the rate-limit script when it builds
    a counter key) print a non-negative integral value as its plain decimal
    digits, without sign or leading zeros. */
module Decimal {

  predicate IsDigit(c: char) {
    '0' <= c <= '9'
  }

  predicate AllDigits(s: string) {
    forall i :: 0 <= i < |s| ==> IsDigit(s[i])
  }

  function DigitChar(d: nat): (c: char)
    requires d < 10
    ensures IsDigit(c)
  {
    ('0' as int + d) as char
  }

  function DigitValue(c: char): (d: nat)
    requires IsDigit(c)
    ensures d < 10
  {
    c as int - '0' as int
  }

  /** The decimal digits of `n`, most significant first. */
  function FromNat(n: nat): (s: string)
    ensures 1 <= |s| && AllDigits(s)
    ensures |s| > 1 ==> s[0] != '0'
    decreases n
  {
    if n < 10 then [DigitChar(n)] else FromNat(n / 10) + [DigitChar(n % 10)]
  }

  /** The number a string of digits denotes. */
  function ToNat(s: string): nat
    requires AllDigits(s)
    decreases |s|
  {
    if s == [] then 0 else ToNat(s[..|s| - 1]) * 10 + DigitValue(s[|s| - 1])
  }

  function Pow10(w: nat): (p: nat)
    ensures p >= 1
  {
    if w == 0 then 1 else 10 * Pow10(w - 1)
  }

  /** Reading back the digits that `FromNat` prints gives the number again. */
  lemma {:induction false} ToNatFromNat(n: nat)
    ensures ToNat(FromNat(n)) == n
    decreases n
  {
    if n >= 10 {
      var s := FromNat(n / 10);
      ToNatFromNat(n / 10);
      assert (s + [DigitChar(n % 10)])[..|s|] == s;
    }
  }

  /** Distinct numbers print differently. */
  lemma FromNatInjective(a: nat, b: nat)
    requires FromNat(a) == FromNat(b)
    ensures a == b
  {
    ToNatFromNat(a);
    ToNatFromNat(b);
  }

  /** A number with exactly `w` significant digits prints as `w` characters. */
  lemma {:induction false} FromNatWidth(n: nat, w: nat)
    requires 1 <= w && n < Pow10(w)
    requires w == 1 || Pow10(w - 1) <= n
    ensures |FromNat(n)| == w
    decreases w
  {
    if w > 1 {
      assert Pow10(w) == 10 * Pow10(w - 1);
      assert n >= 10 by {
        if w > 2 { assert Pow10(w - 1) == 10 * Pow10(w - 2); }
      }
      assert n / 10 < Pow10(w - 1);
      if w > 2 {
        assert Pow10(w - 1) == 10 * Pow10(w - 2);
        assert Pow10(w - 2) <= n / 10;
      }
      FromNatWidth(n / 10, w - 1);
    }
  }
}
