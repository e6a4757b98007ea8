/** Decimal rendering of integers, the behaviour of Go's `strconv.Itoa` that
    the accessors use to put page numbers and link ids into a request, and
    the parse that reads such a rendering back. */
module Decimal {

  predicate IsDigit(c: char)
  {
    '0' <= c <= '9'
  }

  predicate AllDigits(s: string)
  {
    forall i :: 0 <= i < |s| ==> IsDigit(s[i])
  }

  /** A canonical decimal numeral: an optional '-', then at least one digit,
      with no leading zero and no "-0". */
  predicate IsNumeral(s: string)
  {
    if |s| > 0 && s[0] == '-' then
      |s| > 1 && AllDigits(s[1..]) && s[1] != '0'
    else
      |s| > 0 && AllDigits(s) && (s[0] == '0' ==> |s| == 1)
  }

  function DigitChar(d: nat): (c: char)
    requires d < 10
    ensures IsDigit(c)
  {
    (('0' as int) + d) as char
  }

  function DigitValue(c: char): (d: nat)
    requires IsDigit(c)
    ensures d < 10
  {
    (c as int - '0' as int) as nat
  }

  /** The digits of `n`, most significant first, without leading zeros. */
  function Digits(n: nat): (s: string)
    ensures |s| > 0 && AllDigits(s)
    ensures s[0] == '0' <==> n == 0
    ensures n == 0 ==> s == "0"
    decreases n
  {
    if n < 10 then [DigitChar(n)] else Digits(n / 10) + [DigitChar(n % 10)]
  }

  /** `strconv.Itoa`: a '-' for negative values, then the digits of the
      magnitude. */
  function Itoa(i: int): (s: string)
    ensures IsNumeral(s)
    ensures s[0] == '-' <==> i < 0
  {
    if i < 0 then "-" + Digits(-i) else Digits(i)
  }

  /** The value of a string of digits. */
  function ParseDigits(s: string): (n: nat)
    requires AllDigits(s)
    decreases |s|
  {
    if |s| == 0 then 0
    else ParseDigits(s[..|s| - 1]) * 10 + DigitValue(s[|s| - 1])
  }

  /** The value of a numeral. */
  function Parse(s: string): int
    requires IsNumeral(s)
  {
    if s[0] == '-' then -(ParseDigits(s[1..]) as int) else ParseDigits(s)
  }

  lemma {:induction false} ParseDigitsOfDigits(n: nat)
    ensures ParseDigits(Digits(n)) == n
    decreases n
  {
    if n >= 10 {
      var s := Digits(n);
      ParseDigitsOfDigits(n / 10);
      assert s[..|s| - 1] == Digits(n / 10);
      assert DigitValue(DigitChar(n % 10)) == n % 10;
    } else {
      assert DigitValue(DigitChar(n)) == n;
    }
  }

  /** Parsing undoes `Itoa`, so distinct integers render differently. */
  lemma ParseItoa(i: int)
    ensures Parse(Itoa(i)) == i
  {
    if i < 0 {
      assert Itoa(i)[1..] == Digits(-i);
      ParseDigitsOfDigits(-i);
    } else {
      ParseDigitsOfDigits(i);
    }
  }

  /** A rendered integer never holds the path separator '/' nor the
      parameter separator ','. */
  lemma ItoaHasNoSeparators(i: int)
    ensures '/' !in Itoa(i) && ',' !in Itoa(i)
  {
  }
}
