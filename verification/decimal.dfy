/**
 Decimal rendering of integers as Python's `str(int)` produces it (no leading
 zeros, a leading '-' for negative values), together with the parser that
 inverts it. The serial commands of the ESP32 firmware embed such renderings.
 */
module Decimal {

  import opened Options

  predicate IsDigit(c: char) {
    '0' <= c <= '9'
  }

  function DigitValue(c: char): (d: nat)
    requires IsDigit(c)
    ensures d < 10
  {
    c as int - '0' as int
  }

  function DigitChar(d: nat): (c: char)
    requires d < 10
    ensures IsDigit(c) && DigitValue(c) == d
  {
    (d + '0' as int) as char
  }

  predicate AllDigits(s: string) {
    forall i :: 0 <= i < |s| ==> IsDigit(s[i])
  }

  /** A non-empty digit run without a superfluous leading zero. */
  predicate Canonical(s: string) {
    && |s| > 0
    && AllDigits(s)
    && (s[0] == '0' ==> |s| == 1)
  }

  /** `str(n)` for a non-negative integer. */
  function NatToString(n: nat): (s: string)
    ensures Canonical(s)
    ensures s[0] == '0' ==> n == 0
    decreases n
  {
    if n < 10 then [DigitChar(n)] else NatToString(n / 10) + [DigitChar(n % 10)]
  }

  /** The number a digit run denotes, most significant digit first. */
  function DigitsValue(s: string): nat
    requires AllDigits(s)
    decreases |s|
  {
    if s == [] then 0 else DigitsValue(s[..|s| - 1]) * 10 + DigitValue(s[|s| - 1])
  }

  /** `str(i)` for any integer. */
  function IntToString(i: int): (s: string)
    ensures |s| > 0
    ensures s[0] == '-' <==> i < 0
    ensures i >= 0 ==> Canonical(s)
  {
    if i < 0 then "-" + NatToString(-i) else NatToString(i)
  }

  function ParseNat(s: string): Option<nat> {
    if Canonical(s) then Some(DigitsValue(s)) else None
  }

  /** Inverse of IntToString: accepts exactly the strings IntToString produces. */
  function ParseInt(s: string): Option<int> {
    if |s| > 0 && s[0] == '-' then
      match ParseNat(s[1..])
      case Some(n) => if n > 0 then Some(0 - n as int) else None
      case None => None
    else
      match ParseNat(s)
      case Some(n) => Some(n)
      case None => None
  }

  lemma {:induction false} ValueOfNatToString(n: nat)
    ensures DigitsValue(NatToString(n)) == n
    decreases n
  {
    var s := NatToString(n);
    if n >= 10 {
      ValueOfNatToString(n / 10);
      assert s[..|s| - 1] == NatToString(n / 10);
    }
  }

  /** A canonical run of two or more digits denotes at least 10. */
  lemma {:induction false} CanonicalValueLowerBound(s: string)
    requires Canonical(s) && s[0] != '0'
    ensures DigitsValue(s) >= 1
    ensures |s| >= 2 ==> DigitsValue(s) >= 10
    decreases |s|
  {
    if |s| >= 2 {
      var p := s[..|s| - 1];
      assert p[0] == s[0];
      CanonicalValueLowerBound(p);
    }
  }

  lemma {:induction false} NatToStringOfValue(s: string)
    requires Canonical(s)
    ensures NatToString(DigitsValue(s)) == s
    decreases |s|
  {
    if |s| >= 2 {
      var p := s[..|s| - 1];
      assert p[0] == s[0];
      CanonicalValueLowerBound(s);
      CanonicalValueLowerBound(p);
      NatToStringOfValue(p);
      var n := DigitsValue(s);
      assert n / 10 == DigitsValue(p) && n % 10 == DigitValue(s[|s| - 1]);
      assert s == p + [s[|s| - 1]];
    }
  }

  /** ParseNat(s) yields n exactly when s is the rendering of n. */
  lemma ParseNatExact(s: string, n: nat)
    ensures ParseNat(s) == Some(n) <==> s == NatToString(n)
  {
    if s == NatToString(n) {
      ValueOfNatToString(n);
    }
    if ParseNat(s) == Some(n) {
      NatToStringOfValue(s);
    }
  }

  /** ParseInt(s) yields i exactly when s is the rendering of i. */
  lemma ParseIntExact(s: string, i: int)
    ensures ParseInt(s) == Some(i) <==> s == IntToString(i)
  {
    if i < 0 {
      if |s| > 0 {
        ParseNatExact(s[1..], -i);
        if s == IntToString(i) {
          assert s[1..] == NatToString(-i);
        }
        if ParseInt(s) == Some(i) {
          assert s == "-" + s[1..];
        }
      }
    } else {
      ParseNatExact(s, i);
      if ParseInt(s) == Some(i) && |s| > 0 && s[0] == '-' {
        assert false;
      }
    }
  }

  /** Distinct integers have distinct renderings. */
  lemma IntToStringInjective(i: int, j: int)
    requires IntToString(i) == IntToString(j)
    ensures i == j
  {
    ParseIntExact(IntToString(i), i);
    ParseIntExact(IntToString(j), j);
  }

}
