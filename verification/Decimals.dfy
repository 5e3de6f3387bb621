/** Decimal numerals of natural numbers, as Python's `str` and `int` print and read them. */
module Decimals {

  predicate IsDigit(c: char) {
    '0' <= c <= '9'
  }

  predicate AllDigits(s: string) {
    forall i :: 0 <= i < |s| ==> IsDigit(s[i])
  }

  function Digit(n: nat): char
    requires n < 10
  {
    '0' + n as char
  }

  function Print(n: nat): (s: string)
    ensures s != "" && AllDigits(s)
  {
    if n < 10 then [Digit(n)] else Print(n / 10) + [Digit(n % 10)]
  }

  /** `int(s)` on a numeral, leading zeros allowed. */
  function Value(s: string): nat
    requires AllDigits(s)
  {
    if s == "" then 0 else Value(s[..|s| - 1]) * 10 + (s[|s| - 1] as int - '0' as int)
  }

  lemma {:induction false} ValueOfPrint(n: nat)
    ensures Value(Print(n)) == n
  {
    if n >= 10 {
      ValueOfPrint(n / 10);
      assert Print(n)[..|Print(n)| - 1] == Print(n / 10);
    } else {
      assert Print(n)[..0] == "";
    }
  }
}
