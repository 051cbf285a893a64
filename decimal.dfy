/**
 * The decimal text that sprintf's `%d` conversion writes for an int: an
 * optional minus sign followed by the digits of the magnitude, most
 * significant first, with no leading zeros.  ParseInt reads such text back.
 */
module Decimal {
  import opened Wrappers

  predicate IsDigit(c: char)
  {
    '0' <= c <= '9'
  }

  predicate AllDigits(s: string)
  {
    forall i :: 0 <= i < |s| ==> IsDigit(s[i])
  }

  function DigitChar(d: nat): (c: char)
    requires d < 10
    ensures IsDigit(c) && DigitValue(c) == d
  {
    ('0' as int + d) as char
  }

  function DigitValue(c: char): nat
    requires IsDigit(c)
  {
    c as int - '0' as int
  }

  /** The digits of n: at least one, and no leading zero unless n is zero. */
  function NatToString(n: nat): (s: string)
    ensures |s| >= 1 && AllDigits(s)
    ensures s[0] == '0' ==> n == 0
    decreases n
  {
    if n < 10 then [DigitChar(n)] else NatToString(n / 10) + [DigitChar(n % 10)]
  }

  /** `%d` of v: a minus sign exactly when v is negative, then the digits of |v|. */
  function IntToString(v: int): (s: string)
    ensures |s| >= 1 && AllDigits(s[1..])
    ensures s[0] == '-' <==> v < 0
    ensures s[0] == '-' || IsDigit(s[0])
  {
    if v < 0 then "-" + NatToString(-v) else NatToString(v)
  }

  /** The number a string of digits denotes. */
  function DigitsValue(s: string): nat
    requires AllDigits(s)
    decreases |s|
  {
    if |s| == 0 then 0 else DigitsValue(s[..|s| - 1]) * 10 + DigitValue(s[|s| - 1])
  }

  /** Reads an optionally negative decimal number; None for any other text. */
  function ParseInt(s: string): (r: Option<int>)
    ensures r.Some? ==> |s| >= 1 && (s[0] == '-' || IsDigit(s[0]))
  {
    if |s| >= 2 && s[0] == '-' && AllDigits(s[1..]) then Some(-(DigitsValue(s[1..]) as int))
    else if |s| >= 1 && AllDigits(s) then Some(DigitsValue(s))
    else None
  }

  function Pow10(k: nat): (p: nat)
    ensures p >= 1
  {
    if k == 0 then 1 else 10 * Pow10(k - 1)
  }

  /** The digits of n denote n. */
  lemma {:induction false} NatToStringValue(n: nat)
    ensures DigitsValue(NatToString(n)) == n
  {
    if n >= 10 {
      NatToStringValue(n / 10);
      var s := NatToString(n);
      assert s[..|s| - 1] == NatToString(n / 10);
    }
  }

  /** Reading back what `%d` writes gives the value written. */
  lemma IntToStringRoundTrip(v: int)
    ensures ParseInt(IntToString(v)) == Some(v)
  {
    var s := IntToString(v);
    if v < 0 {
      NatToStringValue(-v);
      assert s[1..] == NatToString(-v);
    } else {
      NatToStringValue(v);
    }
  }

  /** So different values are written as different text. */
  lemma IntToStringInjective(a: int, b: int)
    ensures IntToString(a) == IntToString(b) ==> a == b
  {
    IntToStringRoundTrip(a);
    IntToStringRoundTrip(b);
  }

  /** A number below 10^k has at most k digits. */
  lemma {:induction false} NatToStringLength(n: nat, k: nat)
    requires 1 <= k && n < Pow10(k)
    ensures |NatToString(n)| <= k
  {
    if n >= 10 {
      NatToStringLength(n / 10, k - 1);
    }
  }

  /** `%d` of an int32_t writes at most 11 characters: a sign and ten digits. */
  lemma IntToStringLength(v: int)
    requires -0x8000_0000 <= v < 0x8000_0000
    ensures |IntToString(v)| <= 11
  {
    assert Pow10(10) == 10_000_000_000;
    if v < 0 {
      NatToStringLength(-v, 10);
    } else {
      NatToStringLength(v, 10);
    }
  }
}
