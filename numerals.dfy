/**
 * Decimal numerals, as the producer form converts them: `BigInt(value)` for the
 * price and ethers' `parseUnits(value, decimals)` for the amount. The inputs are
 * the values of HTML number inputs, so they are either empty or a number written
 * with an optional leading minus sign.
 */
module Numerals {
  import opened Base

  predicate IsDigit(c: char) {
    '0' <= c <= '9'
  }

  /** A non-empty run of decimal digits. */
  predicate IsDigits(s: string) {
    |s| > 0 && forall i :: 0 <= i < |s| ==> IsDigit(s[i])
  }

  /** The value of a run of decimal digits (leading zeros allowed). */
  function DigitsValue(s: string): nat
    requires forall i :: 0 <= i < |s| ==> IsDigit(s[i])
    decreases |s|
  {
    if s == [] then 0
    else
      assert IsDigit(s[|s| - 1]);
      10 * DigitsValue(s[..|s| - 1]) + (s[|s| - 1] as int - '0' as int)
  }

  function Digit(d: nat): (c: char)
    requires d < 10
    ensures IsDigit(c)
  {
    ('0' as int + d) as char
  }

  /** The canonical decimal numeral of `n`. */
  function ShowNat(n: nat): (s: string)
    ensures IsDigits(s)
    ensures |s| == 1 || s[0] != '0'
  {
    if n < 10 then [Digit(n)] else ShowNat(n / 10) + [Digit(n % 10)]
  }

  /** The canonical decimal numeral of `n`, with a minus sign when negative. */
  function ShowInt(n: int): string {
    if n < 0 then "-" + ShowNat(-n) else ShowNat(n)
  }

  function Pow10(k: nat): (p: nat)
    ensures p >= 1
  {
    if k == 0 then 1 else 10 * Pow10(k - 1)
  }

  /** Reading back a numeral gives the number it shows. */
  lemma {:induction false} DigitsValueShowNat(n: nat)
    ensures DigitsValue(ShowNat(n)) == n
  {
    if n >= 10 {
      DigitsValueShowNat(n / 10);
      var s := ShowNat(n);
      assert s[..|s| - 1] == ShowNat(n / 10);
    }
  }

  /**
   * `BigInt(s)` on the strings a number input yields: the empty string is 0,
   * a run of digits with an optional sign is its value, anything else (a
   * fraction, an exponent) throws a SyntaxError, here `None`.
   */
  function ParseBigInt(s: string): (r: Option<int>)
    ensures s == "" ==> r == Some(0)
    ensures IsDigits(s) ==> r == Some(DigitsValue(s))
    ensures |s| > 1 && s[0] == '-' && IsDigits(s[1..]) ==> r == Some(0 - DigitsValue(s[1..]))
    ensures |s| > 1 && s[0] == '+' && IsDigits(s[1..]) ==> r == Some(DigitsValue(s[1..]))
    ensures r.Some? && s != "" ==> IsDigits(s) || (IsDigits(s[1..]) && (s[0] == '-' || s[0] == '+'))
  {
    if s == "" then Some(0)
    else if s[0] == '-' && IsDigits(s[1..]) then Some(0 - DigitsValue(s[1..]))
    else if s[0] == '+' && IsDigits(s[1..]) then Some(DigitsValue(s[1..]))
    else if IsDigits(s) then Some(DigitsValue(s))
    else None
  }

  /**
   * ethers' `parseUnits(s, decimals)` on whole numbers: an optional minus sign
   * and a run of digits give the value scaled by 10^decimals; the empty string
   * and a lone sign throw.
   */
  function ParseUnits(s: string, decimals: nat): (r: Option<int>)
    ensures s == "" || s == "-" ==> r == None
    ensures IsDigits(s) ==> r == Some(DigitsValue(s) * Pow10(decimals))
  {
    if |s| > 0 && s[0] == '-' && IsDigits(s[1..]) then Some(0 - DigitsValue(s[1..]) * Pow10(decimals))
    else if IsDigits(s) then Some(DigitsValue(s) * Pow10(decimals))
    else None
  }

  /** BigInt reads back every integer's numeral. */
  lemma ParseBigIntShowInt(n: int)
    ensures ParseBigInt(ShowInt(n)) == Some(n)
  {
    if n < 0 {
      DigitsValueShowNat(-n);
      assert ShowInt(n)[1..] == ShowNat(-n);
    } else {
      DigitsValueShowNat(n);
    }
  }

  /** parseUnits scales every integer's numeral by 10^decimals. */
  lemma ParseUnitsShowInt(n: int, decimals: nat)
    ensures ParseUnits(ShowInt(n), decimals) == Some(n * Pow10(decimals))
  {
    var p := Pow10(decimals);
    var s := ShowInt(n);
    if n < 0 {
      DigitsValueShowNat(-n);
      assert s[0] == '-' && s[1..] == ShowNat(-n);
      assert ParseUnits(s, decimals) == Some(0 - (-n) * p);
      assert 0 - (-n) * p == n * p;
    } else {
      DigitsValueShowNat(n);
      assert ParseUnits(s, decimals) == Some(n * p);
    }
  }

  /** A numeral with a decimal point is not an integer: BigInt throws on it. */
  lemma ParseBigIntRejectsFraction(s: string, k: nat)
    requires k < |s| && s[k] == '.'
    ensures ParseBigInt(s) == None
  {
  }
}
