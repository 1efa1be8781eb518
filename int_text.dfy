/**
  Decimal text of integers, as Swift's string interpolation renders an `Int`
  (`"\(n)"`: a minus sign for negative values, then the digits of the magnitude
  without leading zeros), and the reading of such text back into an integer.
 */
module IntText {
  import opened Wrappers

  /** Swift's `Int` on the 64-bit platforms the library is built for. */
  type Int64 = x: int | -0x8000_0000_0000_0000 <= x < 0x8000_0000_0000_0000

  predicate IsDigit(c: char) {
    '0' <= c <= '9'
  }

  predicate AllDigits(s: string) {
    forall i | 0 <= i < |s| :: IsDigit(s[i])
  }

  /** A non-empty run of digits with no superfluous leading zero. */
  predicate Canonical(s: string) {
    |s| >= 1 && AllDigits(s) && (s[0] == '0' ==> |s| == 1)
  }

  function DigitChar(d: nat): (c: char)
    requires d < 10
    ensures IsDigit(c) && c as int - '0' as int == d
  {
    ('0' as int + d) as char
  }

  function DigitValue(c: char): (d: nat)
    requires IsDigit(c)
    ensures d < 10 && DigitChar(d) == c
  {
    c as int - '0' as int
  }

  /** The digits of a natural number, most significant first. */
  function NatDigits(n: nat): (s: string)
    ensures Canonical(s)
    ensures s[0] == '0' <==> n == 0
  {
    if n < 10 then [DigitChar(n)] else NatDigits(n / 10) + [DigitChar(n % 10)]
  }

  /** The number a run of digits denotes. */
  function DigitsValue(s: string): nat
    requires AllDigits(s)
  {
    if |s| == 0 then 0 else DigitsValue(s[..|s| - 1]) * 10 + DigitValue(s[|s| - 1])
  }

  /** `"\(n)"` for an integer `n`. */
  function Decimal(n: int): (s: string)
    ensures |s| >= 1 && '_' !in s
    ensures s[0] == '-' <==> n < 0
  {
    if n < 0 then "-" + NatDigits(-n) else NatDigits(n)
  }

  /** Reads a canonical run of digits. */
  function ParseNat(s: string): Option<nat> {
    if Canonical(s) then Some(DigitsValue(s)) else None
  }

  /** Reads exactly the texts `Decimal` produces; rejects "-0", "+1", "007" and "". */
  function ParseDecimal(s: string): Option<int> {
    if |s| >= 1 && s[0] == '-' then
      match ParseNat(s[1..])
      case Some(v) => if v > 0 then Some(-(v as int)) else None
      case None => None
    else
      match ParseNat(s)
      case Some(v) => Some(v)
      case None => None
  }

  /** Reads the decimal text of a Swift `Int`, rejecting values outside its range. */
  function ParseInt64(s: string): Option<Int64> {
    match ParseDecimal(s)
    case Some(v) =>
      if -0x8000_0000_0000_0000 <= v < 0x8000_0000_0000_0000 then Some(v) else None
    case None => None
  }

  lemma {:induction false} NatDigitsValue(n: nat)
    ensures DigitsValue(NatDigits(n)) == n
  {
    if n >= 10 {
      var s := NatDigits(n);
      NatDigitsValue(n / 10);
      assert s[..|s| - 1] == NatDigits(n / 10);
    }
  }

  lemma {:induction false} LeadingDigitPositive(s: string)
    requires Canonical(s) && s[0] != '0'
    ensures DigitsValue(s) > 0
  {
    if |s| > 1 {
      var p := s[..|s| - 1];
      assert p[0] == s[0];
      LeadingDigitPositive(p);
    } else {
      assert DigitValue(s[0]) != 0;
    }
  }

  lemma {:induction false} ValueNatDigits(s: string)
    requires Canonical(s)
    ensures NatDigits(DigitsValue(s)) == s
  {
    if |s| > 1 {
      var p := s[..|s| - 1];
      assert p[0] == s[0];
      LeadingDigitPositive(p);
      ValueNatDigits(p);
      var v := DigitsValue(s);
      assert v / 10 == DigitsValue(p) && v % 10 == DigitValue(s[|s| - 1]);
      assert s == p + [s[|s| - 1]];
    } else {
      assert DigitsValue(s) == DigitValue(s[0]);
      assert s == [s[0]];
    }
  }

  /** `ParseDecimal` reads back every rendering, and only renderings. */
  lemma DecimalBijection(s: string, n: int)
    ensures ParseDecimal(s) == Some(n) <==> s == Decimal(n)
  {
    if s == Decimal(n) {
      if n < 0 {
        assert s[1..] == NatDigits(-n);
        NatDigitsValue(-n);
      } else {
        NatDigitsValue(n);
      }
    }
    if ParseDecimal(s) == Some(n) {
      if |s| >= 1 && s[0] == '-' {
        ValueNatDigits(s[1..]);
        assert s == "-" + s[1..];
      } else {
        ValueNatDigits(s);
      }
    }
  }

  /** The decimal text of every Swift `Int` reads back to the same value. */
  lemma Int64RoundTrip(n: Int64)
    ensures ParseInt64(Decimal(n)) == Some(n)
  {
    DecimalBijection(Decimal(n), n);
  }
}
