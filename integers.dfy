/**
 * Fixed-width integers and Rust's `str::parse::<u32>()` / `str::parse::<i32>()`,
 * which the lookup uses to decide whether a path segment fits a typed
 * parameter. Both accept an optional sign followed by one or more ASCII
 * decimal digits (`-` only for the signed type) and fail on overflow; there
 * is no whitespace trimming.
 */
module Integers {
  import opened Wrappers
  import opened Text

  newtype u32 = x: int | 0 <= x < 0x1_0000_0000

  newtype i32 = x: int | -0x8000_0000 <= x < 0x8000_0000

  predicate IsDigit(c: char) {
    '0' <= c <= '9'
  }

  predicate AllDigits(s: string) {
    forall i :: 0 <= i < |s| ==> IsDigit(s[i])
  }

  /** The value of a string of decimal digits, most significant first. */
  function DigitsValue(s: string): nat
    requires AllDigits(s)
  {
    if |s| == 0 then 0
    else DigitsValue(s[..|s| - 1]) * 10 + (s[|s| - 1] as int - '0' as int)
  }

  /**
   * `u32::from_str`: an optional `+`, then at least one digit, and the value
   * must be below 2^32. A lone `+` and any `-` are rejected.
   */
  function ParseU32(s: string): (r: Option<u32>)
    ensures r.Some? ==> s != [] && (s[0] == '+' || IsDigit(s[0]))
    ensures r.Some? ==> forall i :: 0 < i < |s| ==> IsDigit(s[i])
  {
    var digits := if StartsWith(s, '+') then s[1..] else s;
    if |digits| > 0 && AllDigits(digits) && DigitsValue(digits) < 0x1_0000_0000 then
      Some(DigitsValue(digits) as u32)
    else
      None
  }

  /**
   * `i32::from_str`: an optional `+` or `-`, then at least one digit, and the
   * signed value must lie in [-2^31, 2^31). A lone sign is rejected.
   */
  function ParseI32(s: string): (r: Option<i32>)
    ensures r.Some? ==> s != [] && (s[0] == '+' || s[0] == '-' || IsDigit(s[0]))
    ensures r.Some? ==> forall i :: 0 < i < |s| ==> IsDigit(s[i])
  {
    var negative := StartsWith(s, '-');
    var digits := if StartsWith(s, '+') || negative then s[1..] else s;
    if |digits| > 0 && AllDigits(digits) then
      var n: int := DigitsValue(digits);
      var v := if negative then -n else n;
      if -0x8000_0000 <= v < 0x8000_0000 then Some(v as i32) else None
    else
      None
  }

  /** Decimal rendering without sign or leading zeros, as `Display` prints it. */
  function Decimal(n: nat): (r: string)
    ensures |r| > 0 && AllDigits(r)
  {
    var d := ['0' + (n % 10) as char];
    if n < 10 then d else Decimal(n / 10) + d
  }

  /** `i32`'s `Display`: a `-` before the magnitude of a negative value. */
  function FormatI32(v: i32): string {
    if v < 0 then "-" + Decimal(-(v as int)) else Decimal(v as int)
  }

  lemma {:induction false} DecimalValue(n: nat)
    ensures DigitsValue(Decimal(n)) == n
  {
    var d := ['0' + (n % 10) as char];
    if n >= 10 {
      var s := Decimal(n / 10) + d;
      assert s[..|s| - 1] == Decimal(n / 10);
      DecimalValue(n / 10);
    }
  }

  /** Every `u32` survives printing and parsing back. */
  lemma ParseU32RoundTrip(v: u32)
    ensures ParseU32(Decimal(v as int)) == Some(v)
  {
    DecimalValue(v as int);
  }

  /** Every `i32` survives printing and parsing back, negative ones included. */
  lemma ParseI32RoundTrip(v: i32)
    ensures ParseI32(FormatI32(v)) == Some(v)
  {
    if v < 0 {
      DecimalValue(-(v as int));
      assert ("-" + Decimal(-(v as int)))[1..] == Decimal(-(v as int));
    } else {
      DecimalValue(v as int);
    }
  }

  /** A `u32` text whose value fits 31 bits is an `i32` text with the same value. */
  lemma ParseU32FitsI32(s: string)
    requires ParseU32(s).Some? && ParseU32(s).value < 0x8000_0000
    ensures ParseI32(s).Some? && ParseI32(s).value as int == ParseU32(s).value as int
  {
  }

  /** `-` followed by the digits of `n` is an `i32` exactly when `n` is at most 2^31. */
  lemma NegativeDecimal(n: nat)
    ensures ParseI32("-" + Decimal(n)) == if n <= 0x8000_0000 then Some((-(n as int)) as i32) else None
  {
    DecimalValue(n);
    assert ("-" + Decimal(n))[1..] == Decimal(n);
  }

  /** The digits of `n` are an `i32` exactly when `n` is below 2^31. */
  lemma PositiveDecimal(n: nat)
    ensures ParseI32(Decimal(n)) == if n < 0x8000_0000 then Some(n as i32) else None
  {
    DecimalValue(n);
  }

  /** Neither parse accepts a sign without digits. */
  lemma LoneSignRejected()
    ensures ParseU32("+").None? && ParseI32("+").None? && ParseI32("-").None?
  {
  }

  /** Only the signed parse accepts a leading `-`, and neither accepts a lone sign. */
  lemma SignRules(s: string)
    ensures ParseU32("-" + s).None?
    ensures ParseU32("+").None? && ParseI32("+").None? && ParseI32("-").None?
    ensures ParseI32("-" + Decimal(0x8000_0000)) == Some(-0x8000_0000 as i32)
    ensures ParseI32(Decimal(0x8000_0000)).None?
  {
    assert ("-" + s)[0] == '-';
    LoneSignRejected();
    NegativeDecimal(0x8000_0000);
    PositiveDecimal(0x8000_0000);
  }
}
