/** Positional numerals as Python writes and reads them: `str(n)` (decimal),
    `f'{n:X}'` (upper-case hexadecimal, no prefix) and `int(s, base)` restricted to
    plain digit strings. */
module Numerals {
  import opened Wrappers

  type Radix = r: nat | 2 <= r <= 16 witness 10

  predicate IsDecimalDigit(c: char) {
    '0' <= c <= '9'
  }

  /** Every character of `s` is an ASCII decimal digit. */
  predicate AllDecimalDigits(s: string) {
    forall k :: 0 <= k < |s| ==> IsDecimalDigit(s[k])
  }

  /** The digit character for `d`; letters are upper- or lower-case as asked. */
  function DigitChar(d: nat, upper: bool): (c: char)
    requires d < 16
  {
    if d < 10 then ('0' as int + d) as char
    else if upper then ('A' as int + d - 10) as char
    else ('a' as int + d - 10) as char
  }

  /** The value Python's `int(_, base)` gives a single digit character, in either case. */
  function DigitValue(c: char): Option<nat> {
    if '0' <= c <= '9' then Some(c as int - '0' as int)
    else if 'a' <= c <= 'z' then Some(c as int - 'a' as int + 10)
    else if 'A' <= c <= 'Z' then Some(c as int - 'A' as int + 10)
    else None
  }

  predicate IsDigitIn(c: char, radix: Radix) {
    DigitValue(c).Some? && DigitValue(c).value < radix
  }

  predicate AllDigitsIn(s: string, radix: Radix) {
    forall k :: 0 <= k < |s| ==> IsDigitIn(s[k], radix)
  }

  /** Value of a digit string, most significant digit first. */
  function DigitsValue(s: string, radix: Radix): nat
    requires AllDigitsIn(s, radix)
  {
    if |s| == 0 then 0
    else DigitsValue(s[..|s| - 1], radix) * radix + DigitValue(s[|s| - 1]).value
  }

  /** `int(s, radix)` on a string of plain digits; the empty string and any other
      character are rejected, as Python raises `ValueError` for them. */
  function ParseRadix(s: string, radix: Radix): (r: Option<nat>)
    ensures r.Some? <==> |s| > 0 && AllDigitsIn(s, radix)
  {
    if |s| > 0 && AllDigitsIn(s, radix) then Some(DigitsValue(s, radix)) else None
  }

  /** Canonical numeral of `n`: no sign, no prefix, no leading zero. */
  function ToRadix(n: nat, radix: Radix, upper: bool): (s: string)
    ensures |s| > 0 && AllDigitsIn(s, radix)
    ensures s[0] == '0' ==> n == 0
    ensures n < radix ==> |s| == 1
    ensures |s| > 1 ==> s[0] != '0'
  {
    if n < radix then
      DigitRoundTrip(n, upper);
      [DigitChar(n, upper)]
    else
      DivModStep(n, radix);
      DigitRoundTrip(n % radix, upper);
      var prefix := ToRadix(n / radix, radix, upper);
      prefix + [DigitChar(n % radix, upper)]
  }

  lemma DivModStep(n: nat, radix: Radix)
    requires n >= radix
    ensures 0 < n / radix < n
    ensures n % radix < radix
    ensures n == (n / radix) * radix + n % radix
  {
  }

  lemma DigitRoundTrip(d: nat, upper: bool)
    requires d < 16
    ensures DigitValue(DigitChar(d, upper)) == Some(d)
  {
  }

  lemma {:induction false} ToRadixRoundTrip(n: nat, radix: Radix, upper: bool)
    ensures ParseRadix(ToRadix(n, radix, upper), radix) == Some(n)
  {
    var s := ToRadix(n, radix, upper);
    if n < radix {
      DigitRoundTrip(n, upper);
      assert s[..0] == [];
    } else {
      DivModStep(n, radix);
      ToRadixRoundTrip(n / radix, radix, upper);
      DigitRoundTrip(n % radix, upper);
      var prefix := ToRadix(n / radix, radix, upper);
      assert s == prefix + [DigitChar(n % radix, upper)];
      assert s[..|s| - 1] == prefix;
      assert DigitsValue(s, radix) == DigitsValue(prefix, radix) * radix + n % radix;
    }
  }

  /** `t` is the canonical decimal numeral of `n`: ASCII digits only, no leading
      zero, reading back as `n`. Exactly one string satisfies this for each `n`. */
  predicate IsDecimalOf(t: string, n: nat) {
    AllDecimalDigits(t) && ParseRadix(t, 10) == Some(n) && (|t| > 1 ==> t[0] != '0')
  }

  predicate IsUpperHexDigit(c: char) {
    IsDecimalDigit(c) || 'A' <= c <= 'F'
  }

  /** `t` is the canonical upper-case hexadecimal numeral of `n`: 0-9 and A-F only,
      no prefix, no leading zero, reading back as `n`. */
  predicate IsUpperHexOf(t: string, n: nat) {
    (forall k :: 0 <= k < |t| ==> IsUpperHexDigit(t[k]))
    && ParseRadix(t, 16) == Some(n) && (|t| > 1 ==> t[0] != '0')
  }

  /** Python's `str(n)` for a non-negative integer. */
  function Decimal(n: nat): (s: string)
    ensures |s| > 0 && IsDecimalOf(s, n)
  {
    ToRadixRoundTrip(n, 10, false);
    ToRadix(n, 10, false)
  }

  /** Python's `str(i)` for any integer: the decimal digits of the magnitude,
      without leading zero, after a minus sign when `i` is negative. */
  function IntDecimal(i: int): (s: string)
    ensures i >= 0 ==> IsDecimalOf(s, i)
    ensures i < 0 ==> |s| > 1 && s[0] == '-' && IsDecimalOf(s[1..], -i)
  {
    if i < 0 then "-" + Decimal(-i) else Decimal(i)
  }

  /** Python's `f'{i:X}'`: upper-case hexadecimal digits, no `0x` prefix, a minus
      sign for negative values. */
  function IntHexUpper(i: int): (s: string)
    ensures i >= 0 ==> IsUpperHexOf(s, i)
    ensures i < 0 ==> |s| > 1 && s[0] == '-' && IsUpperHexOf(s[1..], -i)
  {
    var mag := if i < 0 then -i else i;
    ToRadixRoundTrip(mag, 16, true);
    var digits := ToRadix(mag, 16, true);
    UpperDigitsOnly(mag);
    if i < 0 then
      assert ("-" + digits)[1..] == digits;
      "-" + digits
    else digits
  }

  lemma {:induction false} UpperDigitsOnly(n: nat)
    ensures forall k :: 0 <= k < |ToRadix(n, 16, true)| ==> IsUpperHexDigit(ToRadix(n, 16, true)[k])
  {
    if n >= 16 {
      UpperDigitsOnly(n / 16);
    }
  }
}
