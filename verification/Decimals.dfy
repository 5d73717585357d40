/** Canonical decimal texts: numbers without sign, leading zero or exponent. */
module Decimals {
  import opened Options

  /** The canonical decimal text of a number. */
  function Decimal(n: nat): string {
    var digits := "0123456789";
    if n < 10 then [digits[n]] else Decimal(n / 10) + [digits[n % 10]]
  }

  lemma {:induction false} DecimalDigits(n: nat, i: nat)
    requires i < |Decimal(n)|
    ensures '0' <= Decimal(n)[i] <= '9'
  {
    if n >= 10 && i < |Decimal(n / 10)| {
      DecimalDigits(n / 10, i);
    }
  }

  lemma {:induction false} DecimalInjective(a: nat, b: nat)
    requires Decimal(a) == Decimal(b)
    ensures a == b
  {
    DecimalLength(a);
    DecimalLength(b);
    if a >= 10 && b >= 10 {
      var x, y := Decimal(a), Decimal(b);
      assert x[..|x| - 1] == Decimal(a / 10) && y[..|y| - 1] == Decimal(b / 10);
      DecimalInjective(a / 10, b / 10);
      DigitInjective(a % 10, b % 10);
    } else if a < 10 && b < 10 {
      DigitInjective(a, b);
    }
  }

  lemma DecimalLength(n: nat)
    ensures |Decimal(n)| >= 1 && (|Decimal(n)| == 1 <==> n < 10)
  {
  }

  lemma DigitInjective(a: nat, b: nat)
    requires a < 10 && b < 10 && "0123456789"[a] == "0123456789"[b]
    ensures a == b
  {
  }

  function Digit(c: char): Option<nat> {
    if '0' <= c <= '9' then Some((c as int) - ('0' as int)) else None
  }

  lemma DigitOf(d: nat)
    requires d < 10
    ensures Digit("0123456789"[d]) == Some(d)
  {
  }

  lemma DigitText(c: char)
    ensures Digit(c).Some? ==> Digit(c).value < 10 && "0123456789"[Digit(c).value] == c
  {
  }

  /** The number a text is the canonical decimal of. */
  function ParseDecimal(text: string): Option<nat> {
    if text == "" then None
    else
      var last := Digit(text[|text| - 1]);
      if last.None? then None
      else if |text| == 1 then last
      else
        var high := ParseDecimal(text[..|text| - 1]);
        if high.None? || high.value == 0 then None else Some(high.value * 10 + last.value)
  }

  lemma {:induction false} ParsedDecimal(text: string)
    ensures ParseDecimal(text).Some? ==> Decimal(ParseDecimal(text).value) == text
  {
    if ParseDecimal(text).Some? {
      var last := text[|text| - 1];
      DigitText(last);
      if |text| > 1 {
        ParsedDecimal(text[..|text| - 1]);
        Shift(ParseDecimal(text[..|text| - 1]).value, Digit(last).value);
        assert text == text[..|text| - 1] + [last];
      }
    }
  }

  lemma Shift(high: nat, low: nat)
    requires low < 10
    ensures (high * 10 + low) / 10 == high && (high * 10 + low) % 10 == low
  {
  }

  lemma {:induction false} ParseOfDecimal(n: nat)
    ensures ParseDecimal(Decimal(n)) == Some(n)
  {
    DecimalLength(n);
    DigitOf(n % 10);
    if n >= 10 {
      ParseOfDecimal(n / 10);
      assert Decimal(n)[..|Decimal(n)| - 1] == Decimal(n / 10);
    }
  }
}
