/**
 * Decimal text of integers, as Go's strconv.Itoa and strconv.Atoi produce and
 * read it, and the fixed-width zero-padded digits that Go's time layouts
 * ("02", "01", "2006") print and parse.
 */
module Decimal {
  import opened Wrappers

  const INT64_MIN: int := -0x8000_0000_0000_0000
  const INT64_MAX: int := 0x7FFF_FFFF_FFFF_FFFF

  predicate IsDigit(c: char) { '0' <= c <= '9' }

  predicate AllDigits(s: string) { forall i :: 0 <= i < |s| ==> IsDigit(s[i]) }

  function DigitValue(c: char): (n: nat)
    requires IsDigit(c)
    ensures n <= 9
  {
    c as int - '0' as int
  }

  function DigitChar(n: int): (c: char)
    requires 0 <= n <= 9
    ensures IsDigit(c) && DigitValue(c) == n
  {
    ('0' as int + n) as char
  }

  function Pow10(n: nat): (p: nat)
    ensures p >= 1
  {
    if n == 0 then 1 else 10 * Pow10(n - 1)
  }

  /** The number a string of decimal digits denotes (most significant digit first). */
  function DigitsValue(s: string): nat
    requires AllDigits(s)
  {
    if s == [] then 0 else 10 * DigitsValue(s[..|s| - 1]) + DigitValue(s[|s| - 1])
  }

  /** The shortest decimal digits of a natural number, as strconv.Itoa writes them. */
  function NatDigits(n: nat): (s: string)
    ensures |s| > 0 && AllDigits(s)
    ensures |s| > 1 ==> s[0] != '0'
    decreases n
  {
    if n < 10 then [DigitChar(n)] else NatDigits(n / 10) + [DigitChar(n % 10)]
  }

  /** strconv.Itoa: a leading '-' for negative numbers, then the digits of the magnitude. */
  function Itoa(n: int): (s: string)
    ensures |s| > 0
    ensures n >= 0 <==> IsDigit(s[0])
    ensures n < 0 <==> s[0] == '-'
  {
    if n < 0 then "-" + NatDigits(-n) else NatDigits(n)
  }

  /**
   * strconv.Atoi: an optional '+' or '-', then one or more decimal digits whose
   * value must fit in Go's 64-bit int; anything else is a syntax or range error.
   */
  function Atoi(s: string): (r: Option<int>)
    ensures r.Some? ==> INT64_MIN <= r.value <= INT64_MAX
    ensures r.Some? && |s| > 0 && IsDigit(s[0]) ==> r.value >= 0
  {
    var signed := |s| > 0 && (s[0] == '-' || s[0] == '+');
    var digits := if signed then s[1..] else s;
    if |digits| == 0 || !AllDigits(digits) then None
    else
      var v: int := if signed && s[0] == '-' then 0 - DigitsValue(digits) as int else DigitsValue(digits);
      if INT64_MIN <= v <= INT64_MAX then Some(v) else None
  }

  /** The last w decimal digits of n, zero-padded on the left (Go's appendInt(b, n, w) for n < 10^w). */
  function ZeroPad(n: nat, w: nat): (s: string)
    ensures |s| == w && AllDigits(s)
  {
    if w == 0 then [] else ZeroPad(n / 10, w - 1) + [DigitChar(n % 10)]
  }

  lemma {:induction false} DigitsValueBound(s: string)
    requires AllDigits(s)
    ensures DigitsValue(s) < Pow10(|s|)
  {
    if s != [] {
      DigitsValueBound(s[..|s| - 1]);
    }
  }

  /** Reading back what NatDigits wrote gives the number. */
  lemma {:induction false} DigitsValueOfNatDigits(n: nat)
    ensures DigitsValue(NatDigits(n)) == n
    decreases n
  {
    if n >= 10 {
      var s := NatDigits(n);
      DigitsValueOfNatDigits(n / 10);
      assert s[..|s| - 1] == NatDigits(n / 10);
    }
  }

  /** Round trip: strconv.Atoi reads back every 64-bit integer that strconv.Itoa writes. */
  lemma AtoiOfItoa(n: int)
    requires INT64_MIN <= n <= INT64_MAX
    ensures Atoi(Itoa(n)) == Some(n)
  {
    if n < 0 {
      AtoiOfNegative(n);
    } else {
      DigitsValueOfNatDigits(n);
    }
  }

  lemma AtoiOfNegative(n: int)
    requires INT64_MIN <= n < 0
    ensures Atoi(Itoa(n)) == Some(n)
  {
    var s := Itoa(n);
    DigitsValueOfNatDigits(-n);
    assert s[0] == '-' && s[1..] == NatDigits(-n);
    assert AllDigits(s[1..]) && |s[1..]| > 0;
  }

  /** strconv.Atoi reads an unsigned string of at most four digits as its plain value. */
  lemma AtoiOfDigits(s: string)
    requires 0 < |s| <= 4 && AllDigits(s)
    ensures Atoi(s) == Some(DigitsValue(s))
  {
    DigitsValueBound(s);
    Pow10Monotone(|s|, 4);
    assert Pow10(4) == 10 * 10 * 10 * 10;
  }

  lemma {:induction false} Pow10Monotone(a: nat, b: nat)
    requires a <= b
    ensures Pow10(a) <= Pow10(b)
    decreases b - a
  {
    if a < b {
      Pow10Monotone(a, b - 1);
    }
  }

  /** Zero-padded printing, then reading the digits, gives the number back. */
  lemma {:induction false} DigitsValueOfZeroPad(n: nat, w: nat)
    requires n < Pow10(w)
    ensures DigitsValue(ZeroPad(n, w)) == n
  {
    if w > 0 {
      var s := ZeroPad(n, w);
      DigitsValueOfZeroPad(n / 10, w - 1);
      assert s[..|s| - 1] == ZeroPad(n / 10, w - 1);
    }
  }

  /** Reading a digit string, then printing it zero-padded to its own width, gives the string back. */
  lemma {:induction false} ZeroPadOfDigitsValue(s: string)
    requires AllDigits(s)
    ensures ZeroPad(DigitsValue(s), |s|) == s
  {
    if s != [] {
      var init := s[..|s| - 1];
      ZeroPadOfDigitsValue(init);
      var v := DigitsValue(s);
      assert v / 10 == DigitsValue(init) && v % 10 == DigitValue(s[|s| - 1]);
      assert DigitChar(DigitValue(s[|s| - 1])) == s[|s| - 1];
      assert s == init + [s[|s| - 1]];
    }
  }

  /** The value of two decimal digits. */
  lemma DigitsValueTwo(s: string)
    requires |s| == 2 && AllDigits(s)
    ensures DigitsValue(s) == 10 * DigitValue(s[0]) + DigitValue(s[1])
  {
    var first := s[..1];
    assert first[..0] == [] && first[0] == s[0];
    assert DigitsValue(first) == DigitValue(s[0]);
    assert DigitsValue(s) == 10 * DigitsValue(first) + DigitValue(s[1]);
  }

  /** The value of four decimal digits. */
  lemma DigitsValueFour(s: string)
    requires |s| == 4 && AllDigits(s)
    ensures DigitsValue(s) == 1000 * DigitValue(s[0]) + 100 * DigitValue(s[1]) + 10 * DigitValue(s[2]) + DigitValue(s[3])
  {
    var three := s[..3];
    assert three[..2] == s[..2] && three[2] == s[2];
    DigitsValueTwo(s[..2]);
    assert DigitsValue(three) == 10 * DigitsValue(s[..2]) + DigitValue(s[2]);
    assert DigitsValue(s) == 10 * DigitsValue(three) + DigitValue(s[3]);
  }
}
