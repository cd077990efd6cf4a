/** Decimal text for integers: the `%d` verb of Go's fmt package, which the
    stack-trace renderer uses, and `strconv.Atoi`, which the listener uses to
    check the port. Go's `int` is 64 bits wide here. */
module Decimal {

  const MinInt64: int := -0x8000_0000_0000_0000
  const MaxInt64: int := 0x7fff_ffff_ffff_ffff

  predicate IsDigit(c: char) {
    '0' <= c <= '9'
  }

  predicate AllDigits(s: string) {
    forall i :: 0 <= i < |s| ==> IsDigit(s[i])
  }

  function DigitChar(d: nat): (c: char)
    requires d < 10
    ensures IsDigit(c) && c as int - '0' as int == d
  {
    ['0', '1', '2', '3', '4', '5', '6', '7', '8', '9'][d]
  }

  /** The value of a string of decimal digits, most significant first. */
  function DigitsValue(s: string): nat
    requires AllDigits(s)
  {
    if s == [] then 0
    else DigitsValue(s[..|s| - 1]) * 10 + (s[|s| - 1] as int - '0' as int)
  }

  /** `%d` of a natural number: shortest decimal form, no leading zeros. */
  function NatToDecimal(n: nat): (s: string)
    ensures |s| > 0 && AllDigits(s)
    ensures |s| > 1 ==> s[0] != '0'
  {
    if n < 10 then [DigitChar(n)] else NatToDecimal(n / 10) + [DigitChar(n % 10)]
  }

  /** `%d` of an integer: a minus sign for negative values, then the
      shortest decimal form of the magnitude. */
  function IntToDecimal(x: int): (s: string)
    ensures |s| > 0 && IsDigit(s[|s| - 1])
    ensures (x < 0) == (s[0] == '-')
    ensures x < 0 ==> s[1..] == NatToDecimal(-x)
    ensures x >= 0 ==> s == NatToDecimal(x)
  {
    if x < 0 then "-" + NatToDecimal(-x) else NatToDecimal(x)
  }

  /** The sentinel line number of an unresolved stack frame prints as "-1". */
  lemma MinusOnePrints()
    ensures IntToDecimal(-1) == "-1"
  {
    assert NatToDecimal(1) == "1";
  }

  /** `%<width>d`: spaces on the left up to `width`, never truncated. */
  function PadLeft(s: string, width: nat): (r: string)
    ensures |r| == if |s| < width then width else |s|
    ensures r[|r| - |s|..] == s
    ensures r[..|r| - |s|] == seq(|r| - |s|, _ => ' ')
  {
    if |s| < width then seq(width - |s|, _ => ' ') + s else s
  }

  lemma {:induction false} NatToDecimalValue(n: nat)
    ensures DigitsValue(NatToDecimal(n)) == n
  {
    var s := NatToDecimal(n);
    if n >= 10 {
      NatToDecimalValue(n / 10);
      assert s[..|s| - 1] == NatToDecimal(n / 10);
    }
  }

  /** Numbers below 100 print in at most two characters, so `%2d` pads them
      to exactly two. */
  lemma NatToDecimalWidth(n: nat)
    requires n < 100
    ensures |PadLeft(NatToDecimal(n), 2)| == 2
  {
    if n >= 10 {
      PaddedTwoDigits(n);
    } else {
      PaddedOneDigit(n);
    }
  }

  /** A one-digit index is printed after one space. */
  lemma PaddedOneDigit(n: nat)
    requires n < 10
    ensures PadLeft(NatToDecimal(n), 2) == [' ', DigitChar(n)]
  {
    assert NatToDecimal(n) == [DigitChar(n)];
    assert seq(1, _ => ' ') == [' '];
  }

  /** A two-digit index is printed as its tens and then its units digit. */
  lemma PaddedTwoDigits(n: nat)
    requires 10 <= n < 100
    ensures PadLeft(NatToDecimal(n), 2) == [DigitChar(n / 10), DigitChar(n % 10)]
  {
    var q := n / 10;
    assert q < 10;
    assert NatToDecimal(q) == [DigitChar(q)];
    assert NatToDecimal(n) == [DigitChar(q), DigitChar(n % 10)];
  }

  /** How `strconv.Atoi` fails: the text is not a number, or it is a
      number outside the 64-bit range. */
  datatype AtoiResult = Parsed(value: int) | Failed(message: string)

  /** Digits after an optional leading sign. */
  function Unsigned(s: string): string {
    if |s| > 0 && (s[0] == '+' || s[0] == '-') then s[1..] else s
  }

  predicate AtoiSyntax(s: string) {
    |Unsigned(s)| > 0 && AllDigits(Unsigned(s))
  }

  function SignedValue(s: string): int
    requires AtoiSyntax(s)
  {
    var magnitude: int := DigitsValue(Unsigned(s));
    if s[0] == '-' then -magnitude else magnitude
  }

  function AtoiError(s: string, reason: string): string {
    "strconv.Atoi: parsing \"" + s + "\": " + reason
  }

  /** `strconv.Atoi(s)`: an optional sign, then one or more decimal digits,
      whose value must fit in 64 bits. */
  function Atoi(s: string): (r: AtoiResult)
    ensures r.Parsed? <==> AtoiSyntax(s) && MinInt64 <= SignedValue(s) <= MaxInt64
    ensures r.Parsed? ==> r.value == SignedValue(s)
    ensures r.Parsed? ==> s != "" && s != "+" && s != "-"
    ensures r.Failed? ==> r.message == AtoiError(s, if AtoiSyntax(s) then "value out of range" else "invalid syntax")
  {
    if !AtoiSyntax(s) then Failed(AtoiError(s, "invalid syntax"))
    else if MinInt64 <= SignedValue(s) <= MaxInt64 then Parsed(SignedValue(s))
    else Failed(AtoiError(s, "value out of range"))
  }

  /** `strconv.Atoi` reads back what `%d` prints, for every 64-bit value. */
  lemma AtoiInvertsIntToDecimal(x: int)
    requires MinInt64 <= x <= MaxInt64
    ensures Atoi(IntToDecimal(x)) == Parsed(x)
  {
    var s := IntToDecimal(x);
    var magnitude := if x < 0 then -x else x;
    var digits := NatToDecimal(magnitude);
    if x < 0 {
      assert s[1..] == digits;
    } else {
      assert s == digits && IsDigit(s[0]);
    }
    assert Unsigned(s) == digits;
    NatToDecimalValue(magnitude);
    assert SignedValue(s) == x;
  }

  /** Values that are not numbers at all. */
  lemma AtoiRejectsNonNumbers()
    ensures Atoi("").Failed? && Atoi("abc").Failed? && Atoi("-").Failed? && Atoi("12a").Failed?
  {
    assert !IsDigit("abc"[0]);
    assert !IsDigit("12a"[2]);
  }
}
