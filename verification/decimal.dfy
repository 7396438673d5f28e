/** `String(z)` for an integer `z`: optional minus sign, then decimal digits with no
    leading zeros. Used by the fallback element label. */
module Decimal {

  function DigitChar(d: nat): (c: char)
    requires d < 10
    ensures '0' <= c <= '9' && (c as int) - ('0' as int) == d
  {
    (('0' as int) + d) as char
  }

  predicate IsDigit(c: char) {
    '0' <= c <= '9'
  }

  /** Decimal digits of a natural number, most significant first. */
  function NatToString(n: nat): (s: string)
    ensures |s| >= 1 && forall k :: 0 <= k < |s| ==> IsDigit(s[k])
    decreases n
  {
    if n < 10 then [DigitChar(n)] else NatToString(n / 10) + [DigitChar(n % 10)]
  }

  /** `String(z)` for an integer. */
  function IntToString(z: int): (s: string)
    ensures |s| >= 1
    ensures s[0] == '-' <==> z < 0
    ensures forall k :: 1 <= k < |s| ==> IsDigit(s[k])
  {
    if z < 0 then "-" + NatToString(-z) else NatToString(z)
  }

  /** Reads back a string of decimal digits. */
  function ParseNat(s: string): nat
    decreases |s|
  {
    if s == [] then 0
    else ParseNat(s[..|s| - 1]) * 10 + (if IsDigit(s[|s| - 1]) then (s[|s| - 1] as int) - ('0' as int) else 0)
  }

  /** Reads back what `IntToString` writes. */
  function ParseInt(s: string): int {
    if |s| > 0 && s[0] == '-' then -(ParseNat(s[1..]) as int) else ParseNat(s)
  }

  lemma {:induction false} ParseNatToString(n: nat)
    ensures ParseNat(NatToString(n)) == n
    decreases n
  {
    if n >= 10 {
      var s := NatToString(n);
      assert s[..|s| - 1] == NatToString(n / 10);
      ParseNatToString(n / 10);
    }
  }

  /** `String(z)` loses no information: parsing it gives `z` back. */
  lemma ParseIntToString(z: int)
    ensures ParseInt(IntToString(z)) == z
  {
    if z < 0 {
      assert IntToString(z)[1..] == NatToString(-z);
      ParseNatToString(-z);
    } else {
      ParseNatToString(z);
    }
  }

  /** Distinct integers have distinct decimal strings. */
  lemma IntToStringInjective(a: int, b: int)
    requires a != b
    ensures IntToString(a) != IntToString(b)
  {
    ParseIntToString(a);
    ParseIntToString(b);
  }
}
