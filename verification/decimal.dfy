/**
 * JavaScript's `String(n)` and `Number(text)` restricted to decimal integers.
 * `String` is modelled exactly for integers written in plain decimal notation;
 * `Number` is modelled exactly on text that is an optional minus sign followed by
 * ASCII digits, and every other text is handed to a caller-supplied function.
 */
module Decimal {
  import opened Optional

  predicate IsDigit(c: char) {
    '0' <= c <= '9'
  }

  predicate AllDigits(s: string) {
    forall i :: 0 <= i < |s| ==> IsDigit(s[i])
  }

  function DigitValue(c: char): (d: nat)
    requires IsDigit(c)
    ensures d < 10
  {
    (c as int) - ('0' as int)
  }

  function DigitChar(d: nat): (c: char)
    requires d < 10
    ensures IsDigit(c) && DigitValue(c) == d
  {
    (('0' as int) + d) as char
  }

  /** The decimal digits of `n`, most significant first, without leading zeros. */
  function Digits(n: nat): (s: string)
    ensures |s| > 0 && AllDigits(s)
    ensures |s| > 1 ==> s[0] != '0'
    decreases n
  {
    if n < 10 then [DigitChar(n)] else Digits(n / 10) + [DigitChar(n % 10)]
  }

  /** The value of a string of decimal digits (0 for the empty string). */
  function DigitsValue(s: string): (n: nat)
    requires AllDigits(s)
    decreases |s|
  {
    if |s| == 0 then 0 else DigitsValue(s[..|s| - 1]) * 10 + DigitValue(s[|s| - 1])
  }

  /** `String(n)` for an integer `n`: a minus sign for negatives, then the digits. */
  function ToDecimal(n: int): (s: string)
    ensures |s| > 0
    ensures s[0] == '-' <==> n < 0
    ensures n >= 0 ==> AllDigits(s) && (|s| > 1 ==> s[0] != '0')
    ensures n < 0 ==> |s| > 1 && AllDigits(s[1..]) && s[1] != '0'
  {
    if n < 0 then "-" + Digits(-n) else Digits(n)
  }

  /** Reads an optional minus sign followed by at least one digit; anything else is not a decimal integer. */
  function ParseDecimal(s: string): (r: Option<int>) {
    if |s| > 1 && s[0] == '-' && AllDigits(s[1..]) then Some(0 - DigitsValue(s[1..]) as int)
    else if |s| > 0 && AllDigits(s) then Some(DigitsValue(s))
    else None
  }

  /**
   * `Number(text)`: the exact value for decimal-integer text; for any other text
   * (whitespace, fractions, exponents, NaN-producing text) the result of `other`.
   */
  function JsNumber(text: string, other: string -> int): (v: int)
    ensures ParseDecimal(text).Some? ==> v == ParseDecimal(text).value
  {
    match ParseDecimal(text)
    case Some(n) => n
    case None => other(text)
  }

  lemma {:induction false} DigitsRoundTrip(n: nat)
    ensures DigitsValue(Digits(n)) == n
    decreases n
  {
    if n >= 10 {
      var s := Digits(n);
      DigitsRoundTrip(n / 10);
      assert s[..|s| - 1] == Digits(n / 10);
    }
  }

  /** Reading back what `String` wrote gives the same integer. */
  lemma DecimalRoundTrip(n: int)
    ensures ParseDecimal(ToDecimal(n)) == Some(n)
  {
    if n < 0 {
      DigitsRoundTrip(-n);
      assert ToDecimal(n)[1..] == Digits(-n);
    } else {
      DigitsRoundTrip(n);
    }
  }

  /** `Number` agrees with `String` on every integer, whatever `other` does with non-decimal text. */
  lemma NumberOfStringIsIdentity(n: int, other: string -> int)
    ensures JsNumber(ToDecimal(n), other) == n
  {
    DecimalRoundTrip(n);
  }

  /** The two literal cases the edit form relies on: "0" reads as 0 and "250" as 250. */
  lemma LiteralsParse(other: string -> int)
    ensures JsNumber("0", other) == 0
    ensures JsNumber("250", other) == 250
  {
    assert DigitsValue("2") == 2;
    assert "250"[..2] == "25" && "25"[..1] == "2";
  }
}
