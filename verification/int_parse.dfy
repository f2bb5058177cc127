/**
 * Java's `Integer.parseInt(String)` restricted to ASCII digits: an optional
 * leading '-' or '+', at least one digit, and a value within the 32-bit
 * `int` range. Anything else is a `NumberFormatException`, here `None`.
 */
module IntParse {
  import opened Wrappers

  const MinInt: int := -0x8000_0000
  const MaxInt: int := 0x7FFF_FFFF

  predicate IsDigit(c: char) {
    '0' <= c <= '9'
  }

  predicate AllDigits(s: string) {
    forall i :: 0 <= i < |s| ==> IsDigit(s[i])
  }

  function DigitValue(c: char): (d: nat)
    requires IsDigit(c)
    ensures d < 10
  {
    (c as int) - ('0' as int)
  }

  function DigitChar(d: nat): (c: char)
    requires d < 10
    ensures IsDigit(c) && DigitValue(c) == d
  {
    (('0' as int) + d) as char
  }

  /** The value of a string of decimal digits, most significant first. */
  function DigitsValue(s: string): nat
    requires AllDigits(s)
  {
    if |s| == 0 then 0
    else DigitsValue(s[..|s| - 1]) * 10 + DigitValue(s[|s| - 1])
  }

  /** A numeral split into its sign and the characters after the sign. */
  datatype Signed = Signed(negative: bool, digits: string)

  function SplitSign(s: string): Signed
  {
    if |s| > 0 && s[0] == '-' then Signed(true, s[1..])
    else if |s| > 0 && s[0] == '+' then Signed(false, s[1..])
    else Signed(false, s)
  }

  /** The value a numeral denotes, with its sign. */
  function SignedValue(n: Signed): int
    requires AllDigits(n.digits)
  {
    if n.negative then -(DigitsValue(n.digits) as int) else DigitsValue(n.digits)
  }

  /** `Integer.parseInt(s)`: the value of an optionally signed decimal
      numeral in the `int` range, or `None` (a `NumberFormatException`). */
  function ParseInt(s: string): (r: Option<int>)
    ensures r.Some? ==> MinInt <= r.value <= MaxInt
    ensures r.Some? ==> forall i :: 0 <= i < |s| ==> IsDigit(s[i]) || (i == 0 && (s[i] == '-' || s[i] == '+'))
    ensures r.Some? <==>
      |SplitSign(s).digits| > 0 && AllDigits(SplitSign(s).digits) && MinInt <= SignedValue(SplitSign(s)) <= MaxInt
    ensures r.Some? ==> r.value == SignedValue(SplitSign(s))
  {
    var n := SplitSign(s);
    if |n.digits| == 0 || !AllDigits(n.digits) then None
    else if MinInt <= SignedValue(n) <= MaxInt then
      assert forall i :: 0 < i < |s| && |n.digits| < |s| ==> s[i] == n.digits[i - 1];
      Some(SignedValue(n))
    else None
  }

  /** Decimal digits of `n` without leading zeros (Java's `Integer.toString`). */
  function NatToDigits(n: nat): (s: string)
    ensures |s| > 0 && AllDigits(s)
    ensures DigitsValue(s) == n
    decreases n
  {
    if n < 10 then [DigitChar(n)]
    else
      var prefix := NatToDigits(n / 10);
      var s := prefix + [DigitChar(n % 10)];
      assert s[..|s| - 1] == prefix;
      s
  }

  function IntToString(n: int): (s: string)
    ensures |s| > 0
  {
    if n < 0 then "-" + NatToDigits(-n) else NatToDigits(n)
  }

  /** Every `int` printed in decimal parses back to itself. */
  lemma ParseIntToString(n: int)
    requires MinInt <= n <= MaxInt
    ensures ParseInt(IntToString(n)) == Some(n)
  {
    var s := IntToString(n);
    if n < 0 {
      assert s[0] == '-' && s[1..] == NatToDigits(-n);
    } else {
      assert IsDigit(s[0]);
      assert SplitSign(s) == Signed(false, s);
    }
  }

  /** A decimal number outside the `int` range does not parse. */
  lemma ParseIntOutOfRange(n: int)
    requires n < MinInt || MaxInt < n
    ensures ParseInt(IntToString(n)) == None
  {
    var s := IntToString(n);
    if n < 0 {
      assert s[0] == '-' && s[1..] == NatToDigits(-n);
    } else {
      assert IsDigit(s[0]);
      assert SplitSign(s) == Signed(false, s);
    }
  }
}
