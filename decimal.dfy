/**
 * Rust's `str::parse` for the integer types the system reads from text:
 * an optional sign (`+` always, `-` only for signed types) followed by at
 * least one ASCII digit, rejected when the value does not fit the type.
 */
module Decimal {
  import opened Wrappers

  predicate IsDigit(c: char) { '0' <= c <= '9' }

  predicate AllDigits(s: string) { forall i :: 0 <= i < |s| ==> IsDigit(s[i]) }

  function DigitValue(c: char): nat
    requires IsDigit(c)
  {
    c as int - '0' as int
  }

  function DigitChar(d: nat): (c: char)
    requires d < 10
    ensures IsDigit(c) && DigitValue(c) == d
  {
    ('0' as int + d) as char
  }

  /** The value of a string of decimal digits, most significant first. */
  function DigitsValue(s: string): nat
    requires AllDigits(s)
  {
    if s == [] then 0 else DigitsValue(s[..|s| - 1]) * 10 + DigitValue(s[|s| - 1])
  }

  /** The shortest decimal spelling of `n`, as `to_string` prints it. */
  function ToDecimal(n: nat): (s: string)
    ensures |s| >= 1 && AllDigits(s)
  {
    if n < 10 then [DigitChar(n)] else ToDecimal(n / 10) + [DigitChar(n % 10)]
  }

  /** `s.parse::<T>()` for an unsigned `T` whose largest value is `max`. */
  function ParseUnsigned(s: string, max: nat): (r: Option<nat>)
    ensures r.Some? ==> r.value <= max
    ensures s == [] ==> r.None?
    ensures r.Some? ==> exists i :: 0 <= i < |s| && IsDigit(s[i])
  {
    var digits := if |s| > 0 && s[0] == '+' then s[1..] else s;
    if digits == [] || !AllDigits(digits) then None
    else if DigitsValue(digits) <= max then
      assert IsDigit(s[|s| - 1]);
      Some(DigitsValue(digits))
    else None
  }

  /** `s.parse::<T>()` for a signed `T` with range `[min, max]`. */
  function ParseSigned(s: string, min: int, max: nat): (r: Option<int>)
    requires min <= 0
    ensures r.Some? ==> min <= r.value <= max
  {
    if |s| > 0 && s[0] == '-' then
      var digits := s[1..];
      if digits == [] || !AllDigits(digits) then None
      else
        var v: int := DigitsValue(digits);
        if -v >= min then Some(-v) else None
    else ParseUnsigned(s, max)
  }

  /** `n.to_string()` for a signed `n`. */
  function ToSignedDecimal(n: int): (s: string)
    ensures |s| >= 1
  {
    if n < 0 then "-" + ToDecimal(-n) else ToDecimal(n)
  }

  lemma {:induction false} DigitsValueOfToDecimal(n: nat)
    ensures DigitsValue(ToDecimal(n)) == n
  {
    if n >= 10 {
      var s := ToDecimal(n);
      assert s[..|s| - 1] == ToDecimal(n / 10);
      DigitsValueOfToDecimal(n / 10);
    }
  }

  /** Printing a value and parsing it back gives the value again. */
  lemma ParseToDecimal(n: nat, max: nat)
    requires n <= max
    ensures ParseUnsigned(ToDecimal(n), max) == Some(n)
  {
    DigitsValueOfToDecimal(n);
  }

  lemma ParseToSignedDecimal(n: int, min: int, max: nat)
    requires min <= n <= max && min <= 0
    ensures ParseSigned(ToSignedDecimal(n), min, max) == Some(n)
  {
    var s := ToSignedDecimal(n);
    if n < 0 {
      assert s == "-" + ToDecimal(-n);
      assert s[1..] == ToDecimal(-n);
      DigitsValueOfToDecimal(-n);
      assert DigitsValue(s[1..]) == -n;
    } else {
      assert s == ToDecimal(n) && IsDigit(s[0]);
      ParseToDecimal(n, max);
    }
  }
}
