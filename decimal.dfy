/**
 * Decimal text for amounts. An amount of `c` cents is written the way
 * `String.format(Locale.US, "%.2f", c / 100.0)` writes it: an optional minus sign, the
 * whole units without leading zeros, a point and exactly two digits. `ParseCents` reads
 * such text back.
 */
module Decimal {
  import opened Wrappers

  predicate IsDigit(c: char) {
    '0' <= c <= '9'
  }

  predicate AllDigits(s: string) {
    forall i :: 0 <= i < |s| ==> IsDigit(s[i])
  }

  function DigitChar(d: int): (c: char)
    requires 0 <= d < 10
    ensures IsDigit(c) && (c as int) - ('0' as int) == d
  {
    (('0' as int) + d) as char
  }

  function DigitValue(c: char): (d: nat)
    requires IsDigit(c)
    ensures d < 10 && DigitChar(d) == c
  {
    (c as int) - ('0' as int)
  }

  /** The decimal numeral of `n`, without leading zeros. */
  function NatToDecimal(n: nat): (s: string)
    ensures |s| > 0 && AllDigits(s)
    ensures |s| > 1 ==> s[0] != '0'
  {
    if n < 10 then [DigitChar(n)] else NatToDecimal(n / 10) + [DigitChar(n % 10)]
  }

  /** The number a string of digits denotes. */
  function DecimalValue(s: string): nat
    requires AllDigits(s)
  {
    if s == [] then 0 else DecimalValue(s[..|s| - 1]) * 10 + DigitValue(s[|s| - 1])
  }

  lemma {:induction false} DecimalRoundTrip(n: nat)
    ensures DecimalValue(NatToDecimal(n)) == n
  {
    if n >= 10 {
      var s := NatToDecimal(n);
      assert s[..|s| - 1] == NatToDecimal(n / 10);
      DecimalRoundTrip(n / 10);
    }
  }

  /** The two fraction digits of a magnitude in cents. */
  function Fraction(m: nat): (s: string)
    ensures |s| == 2 && AllDigits(s) && DecimalValue(s) == m % 100
  {
    var s := [DigitChar(m % 100 / 10), DigitChar(m % 10)];
    assert s[..1] == [DigitChar(m % 100 / 10)];
    assert DecimalValue(s[..1]) == m % 100 / 10 by {
      assert s[..1][..0] == [];
    }
    s
  }

  /** The `%.2f` text of an amount of `cents` hundredths. */
  function FormatCents(cents: int): (s: string)
    ensures |s| >= 4 && s[|s| - 3] == '.'
    ensures (s[0] == '-') <==> cents < 0
    ensures '"' !in s && ',' !in s && '\n' !in s
  {
    var m: nat := if cents < 0 then -cents else cents;
    var body := NatToDecimal(m / 100) + "." + Fraction(m);
    assert forall i :: 0 <= i < |body| ==> IsDigit(body[i]) || body[i] == '.';
    if cents < 0 then "-" + body else body
  }

  /** Reads `%.2f` text back into cents; `None` for text of any other shape. */
  function ParseCents(s: string): (r: Option<int>) {
    var neg := |s| > 0 && s[0] == '-';
    var body := if neg then s[1..] else s;
    if |body| < 4 || body[|body| - 3] != '.' then None
    else if !AllDigits(body[..|body| - 3]) || !AllDigits(body[|body| - 2..]) then None
    else
      var v := DecimalValue(body[..|body| - 3]) * 100 + DecimalValue(body[|body| - 2..]);
      Some(if neg then -v else v)
  }

  /** The text of an amount reads back as that amount: `%.2f` of a whole number of cents loses nothing. */
  lemma FormatParseRoundTrip(cents: int)
    ensures ParseCents(FormatCents(cents)) == Some(cents)
  {
    var m: nat := if cents < 0 then -cents else cents;
    var whole := NatToDecimal(m / 100);
    var body := whole + "." + Fraction(m);
    assert body[..|body| - 3] == whole;
    assert body[|body| - 2..] == Fraction(m);
    DecimalRoundTrip(m / 100);
    if cents < 0 {
      assert ("-" + body)[1..] == body;
    } else {
      assert whole[0] != '-';
    }
  }
}
