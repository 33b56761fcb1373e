/** Decimal numerals: the reference the number printers are measured against. */
module Decimal {
  function Digit(d: nat): char
    requires d < 10
  {
    ['0', '1', '2', '3', '4', '5', '6', '7', '8', '9'][d]
  }

  /** The decimal numeral of n, without leading zeros. */
  function Numeral(n: nat): string {
    if n < 10 then [Digit(n)] else Numeral(n / 10) + [Digit(n % 10)]
  }

  function DigitValue(c: char): int { c as int - '0' as int }

  /** The number a string of digits stands for. */
  function Value(s: string): int {
    if s == "" then 0 else 10 * Value(s[..|s| - 1]) + DigitValue(s[|s| - 1])
  }

  lemma DigitBack(d: nat)
    requires d < 10
    ensures DigitValue(Digit(d)) == d && (Digit(d) == '0' <==> d == 0)
  {
  }

  /** A numeral stands for its number and has no leading zero unless it is 0 itself. */
  lemma {:induction false} NumeralExact(n: nat)
    ensures Value(Numeral(n)) == n && Numeral(n) != "" && (n > 0 ==> Numeral(n)[0] != '0')
  {
    hide Digit, DigitValue;
    var s := Numeral(n);
    if n < 10 {
      DigitBack(n);
      assert s[..0] == "";
    } else {
      NumeralExact(n / 10);
      DigitBack(n % 10);
      assert s[..|s| - 1] == Numeral(n / 10);
    }
  }
}
