/**
 * The `%d` verb of Go's fmt package applied to an int: an optional minus
 * sign followed by the decimal digits, most significant first, with no
 * leading zeros. ParseInt reads such a text back.
 */
module Decimal {
  import opened Wrappers

  predicate IsDigit(ch: char) {
    '0' <= ch <= '9'
  }

  /** A character `%d` can print: a digit or the minus sign. */
  predicate IsNumeric(ch: char) {
    IsDigit(ch) || ch == '-'
  }

  predicate AllDigits(s: string) {
    forall i :: 0 <= i < |s| ==> IsDigit(s[i])
  }

  function DigitValue(ch: char): (d: nat)
    requires IsDigit(ch)
    ensures d < 10
  {
    (ch as int) - ('0' as int)
  }

  function DigitChar(d: nat): (ch: char)
    requires d < 10
    ensures IsDigit(ch) && DigitValue(ch) == d
  {
    (('0' as int) + d) as char
  }

  /** `%d` of a non-negative value. */
  function NatToDecimal(n: nat): (s: string)
    ensures |s| >= 1 && AllDigits(s)
    ensures |s| > 1 ==> s[0] != '0'
    ensures n < 10 <==> |s| == 1
  {
    if n < 10 then [DigitChar(n)] else NatToDecimal(n / 10) + [DigitChar(n % 10)]
  }

  /** `%d` of any int. */
  function IntToDecimal(i: int): (s: string)
    ensures |s| >= 1
    ensures forall k :: 0 <= k < |s| ==> IsNumeric(s[k])
    ensures s[0] == '-' <==> i < 0
  {
    if i < 0 then "-" + NatToDecimal(-i) else NatToDecimal(i)
  }

  /** The value of a string of decimal digits (0 for the empty string). */
  function ParseNat(s: string): nat
    requires AllDigits(s)
  {
    if s == [] then 0 else ParseNat(s[..|s| - 1]) * 10 + DigitValue(s[|s| - 1])
  }

  /** The int a `%d` text denotes, or None when the text is not one. */
  function ParseInt(s: string): Option<int> {
    if |s| >= 2 && s[0] == '-' && AllDigits(s[1..]) then Some(0 - ParseNat(s[1..]) as int)
    else if |s| >= 1 && AllDigits(s) then Some(ParseNat(s))
    else None
  }

  lemma {:induction false} ParseNatToDecimal(n: nat)
    ensures ParseNat(NatToDecimal(n)) == n
  {
    if n >= 10 {
      var s := NatToDecimal(n);
      assert s[..|s| - 1] == NatToDecimal(n / 10);
      ParseNatToDecimal(n / 10);
    }
  }

  /** Reading back what `%d` printed gives the printed value. */
  lemma ParseIntToDecimal(i: int)
    ensures ParseInt(IntToDecimal(i)) == Some(i)
  {
    var s := IntToDecimal(i);
    if i < 0 {
      assert s[1..] == NatToDecimal(-i);
      ParseNatToDecimal(-i);
    } else {
      ParseNatToDecimal(i);
    }
  }

  /** The length of the longest prefix of `s` made of numeric characters. */
  function NumericPrefixLength(s: string): (k: nat)
    ensures k <= |s|
    ensures forall i :: 0 <= i < k ==> IsNumeric(s[i])
    ensures k < |s| ==> !IsNumeric(s[k])
  {
    if s != [] && IsNumeric(s[0]) then 1 + NumericPrefixLength(s[1..]) else 0
  }

  /** A numeric text followed by a non-numeric character is exactly the numeric prefix. */
  lemma {:induction false} NumericPrefixOf(d: string, rest: string)
    requires forall i :: 0 <= i < |d| ==> IsNumeric(d[i])
    requires rest != [] && !IsNumeric(rest[0])
    ensures NumericPrefixLength(d + rest) == |d|
  {
    if d != [] {
      assert (d + rest)[1..] == d[1..] + rest;
      NumericPrefixOf(d[1..], rest);
    } else {
      assert d + rest == rest;
    }
  }
}
