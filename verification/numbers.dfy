/**
 * JavaScript's conversions between strings and integers as far as the
 * workspace uses them: `parseInt(s)` with no radix, as ECMAScript defines it
 * (NaN is None), and `n.toString()` for a non-negative integer.
 */
module Numbers {
  import opened Wrappers
  import opened Text

  // ---------------------------------------------------------------------------
  // parseInt

  predicate IsDecimalDigit(c: char) {
    '0' <= c <= '9'
  }

  predicate IsRadixDigit(c: char, radix: nat) {
    IsDecimalDigit(c) || (radix == 16 && ('a' <= c <= 'f' || 'A' <= c <= 'F'))
  }

  /** The value of a hexadecimal digit; only ever applied to digits. */
  function DigitValue(c: char): nat {
    if IsDecimalDigit(c) then c as int - '0' as int
    else if 'a' <= c <= 'f' then c as int - 'a' as int + 10
    else if 'A' <= c <= 'F' then c as int - 'A' as int + 10
    else 0
  }

  /** The run of digits of `radix` at the start of `s`. */
  function DigitPrefix(s: string, radix: nat): (z: string)
    ensures z <= s
  {
    if s != [] && IsRadixDigit(s[0], radix) then [s[0]] + DigitPrefix(s[1..], radix) else []
  }

  /** `DigitPrefix` is the longest prefix made only of digits of `radix`. */
  lemma {:induction false} DigitPrefixLongest(s: string, radix: nat)
    ensures forall i :: 0 <= i < |DigitPrefix(s, radix)| ==> IsRadixDigit(DigitPrefix(s, radix)[i], radix)
    ensures |DigitPrefix(s, radix)| < |s| ==> !IsRadixDigit(s[|DigitPrefix(s, radix)|], radix)
    decreases |s|
  {
    if s != [] && IsRadixDigit(s[0], radix) {
      DigitPrefixLongest(s[1..], radix);
    }
  }

  /** The number that the digit string `z` denotes in base `radix`. */
  function DigitsValue(z: string, radix: nat): nat {
    if z == [] then 0
    else DigitsValue(z[..|z| - 1], radix) * radix + DigitValue(z[|z| - 1])
  }

  /**
   * `parseInt(s)`: skip leading white space, take an optional sign, read a
   * hexadecimal number after `0x`/`0X` or else a decimal one, stopping at the
   * first character that is not a digit; no digit at all gives NaN.
   */
  function ParseInt(s: string): Option<int> {
    var t := TrimStart(s);
    ParseUnsigned(t != [] && t[0] == '-', StripSign(t))
  }

  /** `t` without its leading `+` or `-`, if it has one. */
  function StripSign(t: string): (u: string)
    ensures |u| <= |t| && u == t[|t| - |u|..]
  {
    if t != [] && (t[0] == '-' || t[0] == '+') then t[1..] else t
  }

  /** The number after the sign: hexadecimal after `0x`/`0X`, decimal otherwise. */
  function ParseUnsigned(negative: bool, u: string): Option<int> {
    if |u| >= 2 && u[0] == '0' && (u[1] == 'x' || u[1] == 'X') then
      SignedValue(negative, DigitPrefix(u[2..], 16), 16)
    else
      SignedValue(negative, DigitPrefix(u, 10), 10)
  }

  /** The value of the digits `z` with the sign applied; no digits is NaN. */
  function SignedValue(negative: bool, z: string, radix: nat): Option<int> {
    if z == [] then None
    else
      var magnitude: int := DigitsValue(z, radix);
      Some(if negative then -magnitude else magnitude)
  }

  lemma {:induction false} DigitPrefixOfDigits(s: string)
    requires forall i :: 0 <= i < |s| ==> IsDecimalDigit(s[i])
    ensures DigitPrefix(s, 10) == s
  {
    if s != [] {
      DigitPrefixOfDigits(s[1..]);
    }
  }

  lemma TrimStartOfDigits(s: string)
    requires s != [] && IsDecimalDigit(s[0])
    ensures TrimStart(s) == s
  {
  }

  /** With no leading white space and no sign, `parseInt` reads the string as it is. */
  lemma ParseIntUnsignedStart(s: string)
    requires s != [] && TrimStart(s) == s && s[0] != '-' && s[0] != '+'
    ensures ParseInt(s) == ParseUnsigned(false, s)
  {
    assert StripSign(s) == s;
  }

  /** Without a `0x`/`0X` prefix the number is read in decimal. */
  lemma ParseUnsignedDecimal(s: string)
    requires s != [] && IsDecimalDigit(s[0])
    requires !(|s| >= 2 && (s[1] == 'x' || s[1] == 'X'))
    ensures ParseUnsigned(false, s) == SignedValue(false, DigitPrefix(s, 10), 10)
  {
  }

  /** A string that starts with a digit and is not `0x`/`0X`-prefixed is read as a decimal. */
  lemma ParseIntUnsignedDecimal(s: string)
    requires s != [] && IsDecimalDigit(s[0])
    requires !(|s| >= 2 && (s[1] == 'x' || s[1] == 'X'))
    ensures ParseInt(s) == SignedValue(false, DigitPrefix(s, 10), 10)
  {
    TrimStartOfDigits(s);
    ParseIntUnsignedStart(s);
    ParseUnsignedDecimal(s);
  }

  /** A non-empty string of decimal digits parses to the number it spells. */
  lemma ParseIntOfDigits(s: string)
    requires s != [] && forall i :: 0 <= i < |s| ==> IsDecimalDigit(s[i])
    ensures ParseInt(s) == Some(DigitsValue(s, 10))
  {
    assert |s| >= 2 ==> IsDecimalDigit(s[1]);
    ParseIntUnsignedDecimal(s);
    DigitPrefixOfDigits(s);
  }

  /** A string without any decimal digit parses to NaN. */
  lemma ParseIntWithoutDigits(s: string)
    requires forall i :: 0 <= i < |s| ==> !IsDecimalDigit(s[i])
    ensures ParseInt(s).None?
  {
    var u := StripSign(TrimStart(s));
    assert u == [] || !IsDecimalDigit(u[0]) by {
      if u != [] {
        assert u[0] == s[|s| - |u|];
      }
    }
  }

  /** A one-digit string parses to the digit it holds. */
  lemma ParseIntOneDigit(s: string)
    requires |s| == 1 && IsDecimalDigit(s[0])
    ensures ParseInt(s) == Some(s[0] as int - '0' as int)
  {
    ParseIntOfDigits(s);
    DigitsValueOfOne(s);
  }

  lemma DigitsValueOfOne(s: string)
    requires |s| == 1 && IsDecimalDigit(s[0])
    ensures DigitsValue(s, 10) == s[0] as int - '0' as int
  {
    assert s[..0] == [];
  }

  // ---------------------------------------------------------------------------
  // Number.prototype.toString() on non-negative integers

  function DigitChar(d: nat): (c: char)
    requires d < 10
    ensures IsDecimalDigit(c) && DigitValue(c) == d
  {
    ('0' as int + d) as char
  }

  /** `n.toString()`: the decimal digits of `n`, without leading zeros. */
  function DecimalString(n: nat): (r: string)
    ensures r != []
    ensures forall i :: 0 <= i < |r| ==> IsDecimalDigit(r[i])
    ensures r[0] == '0' ==> n == 0
  {
    if n < 10 then [DigitChar(n)] else DecimalString(n / 10) + [DigitChar(n % 10)]
  }

  /** Reading the digits of `n.toString()` back gives `n`. */
  lemma {:induction false} DecimalStringValue(n: nat)
    ensures DigitsValue(DecimalString(n), 10) == n
  {
    var r := DecimalString(n);
    if n < 10 {
      assert r[..0] == [];
    } else {
      DecimalStringValue(n / 10);
      assert r[..|r| - 1] == DecimalString(n / 10);
    }
  }

  /** `parseInt(n.toString())` is `n`. */
  lemma ParseIntOfDecimalString(n: nat)
    ensures ParseInt(DecimalString(n)) == Some(n)
  {
    ParseIntOfDigits(DecimalString(n));
    DecimalStringValue(n);
  }

  /** Distinct numbers have distinct decimal strings. */
  lemma DecimalStringInjective(a: nat, b: nat)
    ensures DecimalString(a) == DecimalString(b) ==> a == b
  {
    DecimalStringValue(a);
    DecimalStringValue(b);
  }
}
