/** Decimal numbers: printing them, and parsing them into 64 bits. */
module Decimals {
  import opened Types

  const MIN_INT64: int := -0x8000_0000_0000_0000
  const MAX_INT64: int := 0x7FFF_FFFF_FFFF_FFFF

  predicate IsInt64(n: int) {
    MIN_INT64 <= n <= MAX_INT64
  }

  predicate IsDigit(c: char) {
    '0' <= c <= '9'
  }

  predicate AllDigits(s: string) {
    forall i :: 0 <= i < |s| ==> IsDigit(s[i])
  }

  function Digits(n: nat): string {
    if n < 10 then ["0123456789"[n]] else Digits(n / 10) + ["0123456789"[n % 10]]
  }

  function Decimal(n: int): string {
    if n < 0 then "-" + Digits(-n) else Digits(n)
  }

  function Value(s: string): nat
    requires AllDigits(s)
  {
    if s == "" then 0 else 10 * Value(s[..|s| - 1]) + (s[|s| - 1] as int - '0' as int)
  }

  /** Optional sign, digits, range check. */
  function ParseInt(s: string): Option<int> {
    var (negative, digits) := if s != "" && (s[0] == '-' || s[0] == '+') then (s[0] == '-', s[1..]) else (false, s);
    if digits == "" || !AllDigits(digits) then None
    else
      var n: int := if negative then 0 - Value(digits) else Value(digits);
      if IsInt64(n) then Some(n) else None
  }

  lemma {:induction false} DigitsHaveValue(n: nat)
    ensures Digits(n) != "" && AllDigits(Digits(n)) && Value(Digits(n)) == n
  {
    if n >= 10 {
      DigitsHaveValue(n / 10);
      var s := Digits(n);
      assert s[..|s| - 1] == Digits(n / 10);
    } else {
      var s := Digits(n);
      assert s[..0] == "";
    }
  }

  /** Every 64-bit number reads back. */
  lemma ParsePrinted(n: int)
    ensures ParseInt(Decimal(n)) == if IsInt64(n) then Some(n) else None
    ensures Decimal(n) != "" && (Decimal(n)[0] == '-' || IsDigit(Decimal(n)[0]))
    ensures forall i :: 0 <= i < |Decimal(n)| ==> Decimal(n)[i] == '-' || IsDigit(Decimal(n)[i])
  {
    DigitsHaveValue(if n < 0 then -n else n);
    if n < 0 {
      assert Decimal(n)[1..] == Digits(-n);
    } else {
      assert IsDigit(Digits(n)[0]);
    }
  }

  lemma {:induction false} LeadingZero(s: string)
    requires AllDigits(s)
    ensures AllDigits("0" + s) && Value("0" + s) == Value(s)
  {
    if s != "" {
      var front := s[..|s| - 1];
      LeadingZero(front);
      assert ("0" + s)[..|s|] == "0" + front;
    } else {
      assert "0" + s == "0" && "0"[..0] == "";
    }
  }

  /** Other spellings: a plus sign and leading zeros do not matter, and a minus sign negates. */
  lemma OtherSpellings(s: string)
    requires s != "" && AllDigits(s)
    ensures ParseInt("+" + s) == ParseInt(s) == (if IsInt64(Value(s)) then Some(Value(s)) else None)
    ensures ParseInt("-" + s) == (if IsInt64(0 - Value(s)) then Some(0 - Value(s)) else None)
    ensures AllDigits("0" + s) && Value("0" + s) == Value(s)
  {
    assert ("+" + s)[1..] == s && ("-" + s)[1..] == s;
    LeadingZero(s);
    assert IsDigit(s[0]);
  }

  lemma NumbersAreDigits(s: string)
    ensures ParseInt(s).Some? ==> s != "" && (AllDigits(s) || ((s[0] == '-' || s[0] == '+') && s[1..] != "" && AllDigits(s[1..])))
  {
  }

  lemma DecimalIsInjective(a: int, b: int)
    requires Decimal(a) == Decimal(b)
    ensures a == b
  {
    DigitsHaveValue(if a < 0 then -a else a);
    DigitsHaveValue(if b < 0 then -b else b);
    assert a >= 0 ==> IsDigit(Decimal(a)[0]);
    assert b >= 0 ==> IsDigit(Decimal(b)[0]);
    assert a < 0 ==> Decimal(a)[1..] == Digits(-a);
    assert b < 0 ==> Decimal(b)[1..] == Digits(-b);
  }
}
