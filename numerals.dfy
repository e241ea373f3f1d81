/**
 * Integer text: `int(s, 16)` as the alarm-taxonomy loader reads alarm type
 * codes, and `str(n)` as the offline report prints unknown device codes.
 */
module Numerals {
  import opened Wrappers

  predicate IsHexDigit(c: char) {
    ('0' <= c <= '9') || ('a' <= c <= 'f') || ('A' <= c <= 'F')
  }

  predicate AllHexDigits(s: string) {
    forall i :: 0 <= i < |s| ==> IsHexDigit(s[i])
  }

  function HexDigitValue(c: char): (v: nat)
    requires IsHexDigit(c)
    ensures v < 16
  {
    if '0' <= c <= '9' then c as int - '0' as int
    else if 'a' <= c <= 'f' then c as int - 'a' as int + 10
    else c as int - 'A' as int + 10
  }

  /** The value of a string of hex digits, most significant first. */
  function HexValue(s: string): nat
    requires AllHexDigits(s)
  {
    if |s| == 0 then 0 else HexValue(s[..|s| - 1]) * 16 + HexDigitValue(s[|s| - 1])
  }

  /**
   * `int(s, 16)` for plain hex text: a value exactly when `s` is a
   * non-empty run of hex digits, None where Python raises ValueError.
   */
  function ParseHex(s: string): (r: Option<nat>)
    ensures r.Some? <==> |s| > 0 && AllHexDigits(s)
  {
    if |s| > 0 && AllHexDigits(s) then Some(HexValue(s)) else None
  }

  function HexChar(d: nat): (c: char)
    requires d < 16
    ensures IsHexDigit(c) && HexDigitValue(c) == d
  {
    if d < 10 then ('0' as int + d) as char else ('a' as int + d - 10) as char
  }

  /** Lower-case hexadecimal text of `n`, without leading zeros. */
  function HexString(n: nat): (s: string)
    ensures |s| > 0 && AllHexDigits(s)
  {
    if n < 16 then [HexChar(n)] else HexString(n / 16) + [HexChar(n % 16)]
  }

  /** Every natural number is read back from its hexadecimal text. */
  lemma {:induction false} ParseHexRoundTrip(n: nat)
    ensures ParseHex(HexString(n)) == Some(n)
  {
    HexValueOfString(n);
  }

  lemma {:induction false} HexValueOfString(n: nat)
    ensures HexValue(HexString(n)) == n
  {
    var s := HexString(n);
    if n >= 16 {
      HexValueOfString(n / 16);
      assert s[..|s| - 1] == HexString(n / 16);
    }
  }

  /** A leading zero does not change what `int(s, 16)` reads. */
  lemma {:induction false} ParseHexLeadingZero(s: string)
    requires |s| > 0
    ensures ParseHex("0" + s) == ParseHex(s)
  {
    if AllHexDigits(s) {
      assert AllHexDigits("0" + s);
      HexValueLeadingZero(s);
    } else {
      var i :| 0 <= i < |s| && !IsHexDigit(s[i]);
      assert ("0" + s)[i + 1] == s[i];
    }
  }

  lemma {:induction false} HexValueLeadingZero(s: string)
    requires AllHexDigits(s)
    ensures AllHexDigits("0" + s) && HexValue("0" + s) == HexValue(s)
  {
    assert AllHexDigits("0" + s);
    if |s| > 0 {
      HexValueLeadingZero(s[..|s| - 1]);
      assert ("0" + s)[..|"0" + s| - 1] == "0" + s[..|s| - 1];
    }
  }

  predicate IsDecimalDigit(c: char) {
    '0' <= c <= '9'
  }

  predicate AllDecimalDigits(s: string) {
    forall i :: 0 <= i < |s| ==> IsDecimalDigit(s[i])
  }

  function DecimalValue(s: string): nat
    requires AllDecimalDigits(s)
  {
    if |s| == 0 then 0 else DecimalValue(s[..|s| - 1]) * 10 + (s[|s| - 1] as int - '0' as int)
  }

  function DecimalChar(d: nat): (c: char)
    requires d < 10
    ensures IsDecimalDigit(c) && c as int - '0' as int == d
  {
    ('0' as int + d) as char
  }

  /** Decimal digits of `n`, without leading zeros. */
  function DecimalDigits(n: nat): (s: string)
    ensures |s| > 0 && AllDecimalDigits(s)
  {
    if n < 10 then [DecimalChar(n)] else DecimalDigits(n / 10) + [DecimalChar(n % 10)]
  }

  /** Python's `str(n)` for an integer. */
  function Decimal(n: int): string {
    if n < 0 then "-" + DecimalDigits(-n) else DecimalDigits(n)
  }

  /** Reads an optionally signed run of decimal digits. */
  function ParseDecimal(s: string): Option<int> {
    if |s| > 1 && s[0] == '-' && AllDecimalDigits(s[1..]) then Some(0 - DecimalValue(s[1..]) as int)
    else if |s| > 0 && AllDecimalDigits(s) then Some(DecimalValue(s))
    else None
  }

  /** Every integer is read back from its decimal text. */
  lemma {:induction false} ParseDecimalRoundTrip(n: int)
    ensures ParseDecimal(Decimal(n)) == Some(n)
  {
    if n < 0 {
      DecimalValueOfDigits(-n);
      assert Decimal(n)[1..] == DecimalDigits(-n);
    } else {
      DecimalValueOfDigits(n);
    }
  }

  lemma {:induction false} DecimalValueOfDigits(n: nat)
    ensures DecimalValue(DecimalDigits(n)) == n
  {
    var s := DecimalDigits(n);
    if n >= 10 {
      DecimalValueOfDigits(n / 10);
      assert s[..|s| - 1] == DecimalDigits(n / 10);
    }
  }

  /** Distinct integers have distinct decimal text. */
  lemma DecimalInjective(m: int, n: int)
    requires Decimal(m) == Decimal(n)
    ensures m == n
  {
    ParseDecimalRoundTrip(m);
    ParseDecimalRoundTrip(n);
  }
}
