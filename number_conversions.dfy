/**
 * `base::StringToInt` as the modelled code uses it: an optional sign, one or
 * more decimal digits and nothing else, within the 32-bit `int` range; and
 * its inverse for non-negative values.
 */
module NumberConversions {
  import opened Wrappers

  const IntMin: int := -0x8000_0000
  const IntMax: int := 0x7fff_ffff

  predicate IsDigit(c: char) { '0' <= c <= '9' }

  predicate AllDigits(s: string)
  {
    forall i :: 0 <= i < |s| ==> IsDigit(s[i])
  }

  /** The value of a digit string, most significant digit first. */
  function DigitsValue(s: string): (v: nat)
    requires AllDigits(s)
    decreases |s|
  {
    if s == [] then 0
    else DigitsValue(s[..|s| - 1]) * 10 + (s[|s| - 1] as int - '0' as int)
  }

  /** `base::StringToInt`: `None` for an empty, signed-only, non-digit or out-of-range text. */
  function StringToInt(s: string): (r: Option<int>)
    ensures r.Some? ==> IntMin <= r.value <= IntMax
    ensures r.Some? ==> |s| > 0
  {
    var negative := |s| > 0 && s[0] == '-';
    var digits := if |s| > 0 && (s[0] == '-' || s[0] == '+') then s[1..] else s;
    if digits == [] || !AllDigits(digits) then None
    else
      var magnitude: int := DigitsValue(digits);
      var v := if negative then 0 - magnitude else magnitude;
      if IntMin <= v <= IntMax then Some(v) else None
  }

  /** Decimal text of a natural number, without sign or leading zeros. */
  function DecimalString(n: nat): (s: string)
    ensures |s| > 0 && AllDigits(s)
    decreases n
  {
    if n < 10 then [('0' as int + n) as char]
    else DecimalString(n / 10) + [('0' as int + n % 10) as char]
  }

  lemma {:induction false} DecimalStringValue(n: nat)
    ensures DigitsValue(DecimalString(n)) == n
    decreases n
  {
    var s := DecimalString(n);
    if n >= 10 {
      DecimalStringValue(n / 10);
      assert s[..|s| - 1] == DecimalString(n / 10);
    }
  }

  /** Reading back the decimal text of any `int`-sized natural gives the number. */
  lemma StringToIntOfDecimal(n: nat)
    requires n <= IntMax
    ensures StringToInt(DecimalString(n)) == Some(n)
  {
    DecimalStringValue(n);
    var s := DecimalString(n);
    assert IsDigit(s[0]);
  }

  /** A text that parses to a positive value has no leading minus sign. */
  lemma PositiveParseHasNoMinus(s: string)
    requires StringToInt(s).Some? && StringToInt(s).value > 0
    ensures s[0] != '-'
  {
  }
}
