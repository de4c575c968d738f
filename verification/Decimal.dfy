/** Natural numbers as decimal text. */
module Decimal {

  function Digit(n: nat): char
    requires n < 10
  {
    ('0' as int + n) as char
  }

  function Digits(n: nat): string {
    (if n < 10 then "" else Digits(n / 10)) + [Digit(n % 10)]
  }

  lemma {:induction false} DigitsAreInjective(m: nat, n: nat)
    requires Digits(m) == Digits(n)
    ensures m == n
    decreases m
  {
    var a, b := Digits(m), Digits(n);
    assert a[|a| - 1] == Digit(m % 10) && b[|b| - 1] == Digit(n % 10);
    assert a[..|a| - 1] == (if m < 10 then "" else Digits(m / 10));
    assert b[..|b| - 1] == (if n < 10 then "" else Digits(n / 10));
    if m >= 10 && n >= 10 { DigitsAreInjective(m / 10, n / 10); }
  }

  lemma {:induction false} DigitsAreDigits(n: nat, other: char)
    requires other < '0' || other > '9'
    ensures other !in Digits(n)
  {
    if n >= 10 { DigitsAreDigits(n / 10, other); }
  }

  /** The number a text of digits stands for. */
  function NumberOf(text: string): int {
    if text == "" then 0 else 10 * NumberOf(text[..|text| - 1]) + (text[|text| - 1] as int - '0' as int)
  }

  lemma {:induction false} DigitsStandForNumber(n: nat)
    ensures NumberOf(Digits(n)) == n
  {
    assert Digits(n)[..|Digits(n)| - 1] == (if n < 10 then "" else Digits(n / 10));
    if n >= 10 { DigitsStandForNumber(n / 10); }
  }
}
