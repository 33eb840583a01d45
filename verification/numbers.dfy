/** Decimal numerals: the subset of `float.TryParse` / `int.Parse` input the
    model accepts (an optional sign followed by decimal digits), the
    `ToString` that turns a coordinate back into text, and 32-bit integers. */
module Numbers {
  import opened Results

  predicate IsDigit(c: char) {
    '0' <= c <= '9'
  }

  predicate AllDigits(s: string) {
    forall i :: 0 <= i < |s| ==> IsDigit(s[i])
  }

  /** An optional sign followed by at least one digit. */
  predicate IsNumeral(t: string) {
    && |t| >= 1
    && if t[0] == '+' || t[0] == '-' then |t| >= 2 && AllDigits(t[1..]) else AllDigits(t)
  }

  /** The numerals `ToString` produces: no `+`, no leading zero, no `-0`. */
  predicate IsCanonical(t: string) {
    || t == "0"
    || (|t| >= 2 && t[0] == '-' && AllDigits(t[1..]) && t[1] != '0')
    || (|t| >= 1 && AllDigits(t) && t[0] != '0')
  }

  function DigitValue(c: char): nat
    requires IsDigit(c)
  {
    c as int - '0' as int
  }

  function DigitChar(d: nat): (c: char)
    requires d < 10
    ensures IsDigit(c) && DigitValue(c) == d
  {
    ('0' as int + d) as char
  }

  /** Value of a digit string read most significant digit first. */
  function DigitsValue(s: string): nat
    requires AllDigits(s)
    decreases |s|
  {
    if |s| == 0 then 0 else DigitsValue(s[..|s| - 1]) * 10 + DigitValue(s[|s| - 1])
  }

  /** The decimal parser: the value of a numeral, `None` for anything else. */
  function ParseNumber(t: string): (r: Option<int>)
    ensures r.Some? <==> IsNumeral(t)
  {
    if |t| == 0 then None
    else if t[0] == '-' then
      if |t| >= 2 && AllDigits(t[1..]) then Some(-(DigitsValue(t[1..]) as int)) else None
    else if t[0] == '+' then
      if |t| >= 2 && AllDigits(t[1..]) then Some(DigitsValue(t[1..])) else None
    else if AllDigits(t) then Some(DigitsValue(t))
    else None
  }

  /** A leading zero does not change the value of a digit string. */
  lemma {:induction false} LeadingZero(d: string)
    requires AllDigits(d)
    ensures AllDigits("0" + d) && DigitsValue("0" + d) == DigitsValue(d)
    decreases |d|
  {
    if |d| > 0 {
      var n := |d| - 1;
      LeadingZero(d[..n]);
      assert ("0" + d)[..|d|] == "0" + d[..n];
    }
  }

  /** A `+` sign and a leading zero leave the value alone, and a `-` sign
      negates it; with `FormatParse` this gives the value of every numeral,
      canonical or not. */
  lemma SignAndZeros(d: string)
    requires |d| >= 1 && AllDigits(d)
    ensures ParseNumber("+" + d) == ParseNumber(d)
    ensures ParseNumber("-" + d) == Some(-ParseNumber(d).value)
    ensures ParseNumber("0" + d) == ParseNumber(d)
  {
    LeadingZero(d);
    assert ("+" + d)[1..] == d;
    assert ("-" + d)[1..] == d;
  }

  /** Decimal digits of a natural number, without leading zeros. */
  function NatDigits(n: nat): (s: string)
    ensures |s| >= 1 && AllDigits(s)
    ensures |s| > 1 ==> s[0] != '0'
    ensures n > 0 ==> s[0] != '0'
    decreases n
  {
    if n < 10 then [DigitChar(n)] else NatDigits(n / 10) + [DigitChar(n % 10)]
  }

  /** `ToString` of a whole coordinate. */
  function FormatInt(n: int): (s: string)
    ensures IsCanonical(s)
  {
    if n < 0 then "-" + NatDigits(-n) else NatDigits(n)
  }

  lemma {:induction false} DigitsOfNat(n: nat)
    ensures DigitsValue(NatDigits(n)) == n
    decreases n
  {
    var s := NatDigits(n);
    if n >= 10 {
      DigitsOfNat(n / 10);
      assert s[..|s| - 1] == NatDigits(n / 10);
    }
  }

  /** Formatting then parsing a coordinate gives it back. */
  lemma ParseFormat(n: int)
    ensures ParseNumber(FormatInt(n)) == Some(n)
  {
    var s := FormatInt(n);
    if n < 0 {
      assert s[1..] == NatDigits(-n);
      DigitsOfNat(-n);
    } else {
      DigitsOfNat(n);
    }
  }

  /** A digit string without a leading zero denotes a positive number. */
  lemma {:induction false} LeadingDigitPositive(s: string)
    requires |s| >= 1 && AllDigits(s) && s[0] != '0'
    ensures DigitsValue(s) >= 1
    decreases |s|
  {
    if |s| > 1 {
      LeadingDigitPositive(s[..|s| - 1]);
    }
  }

  lemma {:induction false} NatOfDigits(s: string)
    requires |s| >= 1 && AllDigits(s)
    requires |s| > 1 ==> s[0] != '0'
    ensures NatDigits(DigitsValue(s)) == s
    decreases |s|
  {
    if |s| > 1 {
      var a := s[..|s| - 1];
      var v := DigitsValue(s);
      NatOfDigits(a);
      LeadingDigitPositive(a);
      assert v / 10 == DigitsValue(a) && v % 10 == DigitValue(s[|s| - 1]);
      assert s == a + [s[|s| - 1]];
    }
  }

  /** Parsing then formatting a canonical numeral gives it back. */
  lemma FormatParse(t: string)
    requires IsCanonical(t)
    ensures ParseNumber(t).Some? && FormatInt(ParseNumber(t).value) == t
  {
    if t == "0" {
      assert DigitsValue(t) == 0;
    } else if t[0] == '-' {
      NatOfDigits(t[1..]);
      LeadingDigitPositive(t[1..]);
      assert t == "-" + t[1..];
    } else {
      NatOfDigits(t);
      LeadingDigitPositive(t);
    }
  }

  const Int32Min: int := -0x8000_0000
  const Int32Max: int := 0x7fff_ffff
  const TwoTo32: int := 0x1_0000_0000

  predicate InInt32(n: int) {
    Int32Min <= n <= Int32Max
  }

  /** Two's-complement wrap-around of C#'s unchecked `int` arithmetic. */
  function Wrap32(n: int): (r: int)
    ensures InInt32(r)
    ensures (r - n) % TwoTo32 == 0
    ensures InInt32(n) ==> r == n
  {
    (n - Int32Min) % TwoTo32 + Int32Min
  }
}
