/** Decimal text of integers, as Python's `str(int)` writes them, and reading it back. */
module Decimal {
  import opened Wrappers

  predicate IsDigit(c: char) {
    '0' <= c <= '9'
  }

  predicate AllDigits(s: string) {
    forall i :: 0 <= i < |s| ==> IsDigit(s[i])
  }

  function DigitChar(d: nat): (c: char)
    requires d < 10
    ensures IsDigit(c) && DigitValue(c) == d
  {
    (d + '0' as int) as char
  }

  function DigitValue(c: char): (d: nat)
    requires IsDigit(c)
    ensures d < 10
  {
    c as int - '0' as int
  }

  /** One or more digits, with no leading zero unless the number is 0 itself. */
  predicate Canonical(s: string) {
    |s| > 0 && AllDigits(s) && (s[0] == '0' ==> |s| == 1)
  }

  /** The decimal digits of `n`, most significant first, with no leading zero. */
  function NatToDecimal(n: nat): (s: string)
    ensures Canonical(s)
    ensures s[0] == '0' ==> n == 0
    decreases n
  {
    if n < 10 then [DigitChar(n)] else NatToDecimal(n / 10) + [DigitChar(n % 10)]
  }

  /** The value of a string of decimal digits (the empty string reads as 0). */
  function DecimalToNat(s: string): nat
    requires AllDigits(s)
  {
    if s == [] then 0 else DecimalToNat(s[..|s| - 1]) * 10 + DigitValue(s[|s| - 1])
  }

  /** `str(i)`: a minus sign for negative values, then the digits of the magnitude. */
  function IntToDecimal(i: int): (s: string)
    ensures |s| > 0
    ensures (s[0] == '-') <==> i < 0
    ensures i < 0 ==> Canonical(s[1..]) && s[1..] != "0"
    ensures i >= 0 ==> Canonical(s)
  {
    if i < 0 then "-" + NatToDecimal(-i) else NatToDecimal(i)
  }

  /**
   * Reads exactly the texts `str` produces: canonical digits, optionally after
   * a minus sign that is not followed by a lone zero.
   */
  function ParseInt(s: string): (r: Option<int>)
    ensures r.Some? ==> |s| > 0
  {
    if |s| > 1 && s[0] == '-' && Canonical(s[1..]) && s[1..] != "0" then Some(0 - DecimalToNat(s[1..]) as int)
    else if Canonical(s) then Some(DecimalToNat(s))
    else None
  }

  /** Digits that do not start with a zero have a positive value. */
  lemma {:induction false} LeadingDigitPositive(s: string)
    requires |s| > 0 && AllDigits(s) && s[0] != '0'
    ensures DecimalToNat(s) >= 1
    decreases |s|
  {
    if |s| > 1 {
      LeadingDigitPositive(s[..|s| - 1]);
    }
  }

  /** Canonical digits are the decimal text of their own value. */
  lemma {:induction false} CanonicalRoundTrip(s: string)
    requires Canonical(s)
    ensures NatToDecimal(DecimalToNat(s)) == s
    decreases |s|
  {
    var n := DecimalToNat(s);
    if |s| > 1 {
      var init := s[..|s| - 1];
      LeadingDigitPositive(init);
      CanonicalRoundTrip(init);
      assert n / 10 == DecimalToNat(init) && n % 10 == DigitValue(s[|s| - 1]);
      assert s == init + [s[|s| - 1]];
    } else {
      assert s[..|s| - 1] == [];
      assert DecimalToNat(s[..|s| - 1]) == 0;
      assert n == DigitValue(s[0]);
    }
  }

  /** Only the decimal text of `i` reads back as `i`: `str` and ParseInt are inverse both ways. */
  lemma ParseIntUnique(s: string)
    ensures ParseInt(s).Some? ==> IntToDecimal(ParseInt(s).value) == s
  {
    if |s| > 1 && s[0] == '-' && Canonical(s[1..]) && s[1..] != "0" {
      var m := s[1..];
      CanonicalRoundTrip(m);
      assert DecimalToNat(m) != 0;
      assert s == "-" + m;
    } else if Canonical(s) {
      CanonicalRoundTrip(s);
    }
  }

  lemma {:induction false} NatRoundTrip(n: nat)
    ensures DecimalToNat(NatToDecimal(n)) == n
    decreases n
  {
    if n >= 10 {
      var s := NatToDecimal(n);
      var init := NatToDecimal(n / 10);
      assert s[..|s| - 1] == init;
      NatRoundTrip(n / 10);
    }
  }

  /** Reading back the decimal text of any integer gives that integer. */
  lemma IntRoundTrip(i: int)
    ensures ParseInt(IntToDecimal(i)) == Some(i)
  {
    var s := IntToDecimal(i);
    if i < 0 {
      assert s[1..] == NatToDecimal(-i);
      NatRoundTrip(-i);
    } else {
      NatRoundTrip(i);
    }
  }
}
