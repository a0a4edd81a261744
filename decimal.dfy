/**
 * Decimal rendering of Java `int` values, as `String.format("%d", n)` writes them
 * (ASCII digits, a leading '-' for negatives, no leading zeros), and the parser
 * that inverts it.
 */
module Decimal {
  import opened Wrappers

  /** Java's 32-bit signed `int`. */
  type Int32 = x: int | -0x8000_0000 <= x < 0x8000_0000

  predicate IsDigit(c: char) {
    '0' <= c <= '9'
  }

  function DigitChar(d: nat): (c: char)
    requires d < 10
    ensures IsDigit(c) && c as int - '0' as int == d
  {
    ('0' as int + d) as char
  }

  /** The digits of `n`, most significant first, without leading zeros. */
  function NatToDecimal(n: nat): (s: string)
    decreases n
  {
    if n < 10 then [DigitChar(n)] else NatToDecimal(n / 10) + [DigitChar(n % 10)]
  }

  /** `%d`: a minus sign in front of the magnitude for negative numbers. */
  function IntToDecimal(n: int): (s: string)
  {
    if n < 0 then "-" + NatToDecimal(-n) else NatToDecimal(n)
  }

  /** The value of a string of digits, read most significant first. */
  function DigitsValue(s: string): (value: nat)
    requires forall i :: 0 <= i < |s| ==> IsDigit(s[i])
  {
    if s == [] then 0
    else DigitsValue(s[..|s| - 1]) * 10 + DigitValue(s[|s| - 1])
  }

  function DigitValue(c: char): (d: nat)
    requires IsDigit(c)
  {
    c as int - '0' as int
  }

  function ParseNat(s: string): (r: Option<nat>)
    ensures r.Some? <==> s != [] && forall i :: 0 <= i < |s| ==> IsDigit(s[i])
  {
    if s != [] && forall i :: 0 <= i < |s| ==> IsDigit(s[i]) then Some(DigitsValue(s)) else None
  }

  /** Reads an optional leading '-' followed by at least one digit. */
  function ParseInt(s: string): (r: Option<int>)
  {
    if s != [] && s[0] == '-' then
      match ParseNat(s[1..])
      case Some(m) => Some(-(m as int))
      case None => None
    else
      match ParseNat(s)
      case Some(m) => Some(m as int)
      case None => None
  }

  /**
   * The rendering of a natural number is a non-empty string of digits whose value is the
   * number, with no leading zero unless the number is 0.
   */
  lemma {:induction false} NatToDecimalDigits(n: nat)
    ensures NatToDecimal(n) != []
    ensures forall i :: 0 <= i < |NatToDecimal(n)| ==> IsDigit(NatToDecimal(n)[i])
    ensures DigitsValue(NatToDecimal(n)) == n
    ensures n >= 10 ==> NatToDecimal(n)[0] != '0'
    decreases n
  {
    var s := NatToDecimal(n);
    if n >= 10 {
      var prefix := NatToDecimal(n / 10);
      NatToDecimalDigits(n / 10);
      assert s == prefix + [DigitChar(n % 10)];
      assert s[..|s| - 1] == prefix;
      assert s[0] == prefix[0];
      if n / 10 < 10 {
        assert prefix == [DigitChar(n / 10)];
      }
    }
  }

  /** `ParseInt` inverts `%d` rendering. */
  lemma IntToDecimalRoundTrip(n: int)
    ensures ParseInt(IntToDecimal(n)) == Some(n)
  {
    var m: nat := if n < 0 then -n else n;
    var digits := NatToDecimal(m);
    NatToDecimalDigits(m);
    assert ParseNat(digits) == Some(m);
    if n < 0 {
      var s := IntToDecimal(n);
      assert s == "-" + digits;
      assert s[0] == '-' && s[1..] == digits;
    } else {
      assert IntToDecimal(n) == digits;
      assert IsDigit(digits[0]);
    }
  }

  /** A rendered number holds only digits and possibly a leading '-': never ':' or '/'. */
  lemma IntToDecimalCharacters(n: int)
    ensures IntToDecimal(n) != []
    ensures forall i :: 0 <= i < |IntToDecimal(n)| ==> IntToDecimal(n)[i] == '-' || IsDigit(IntToDecimal(n)[i])
  {
    var m: nat := if n < 0 then -n else n;
    var digits := NatToDecimal(m);
    NatToDecimalDigits(m);
    var s := IntToDecimal(n);
    if n < 0 {
      assert s == ['-'] + digits;
      forall i | 0 <= i < |s|
        ensures s[i] == '-' || IsDigit(s[i])
      {
        if i > 0 {
          assert s[i] == digits[i - 1];
        }
      }
    } else {
      assert s == digits;
    }
  }
}
