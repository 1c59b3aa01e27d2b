/** Decimal numbers as strconv.Itoa writes them. */
module Decimal {
  function Digit(d: nat): char
    requires d < 10
  {
    '0' + d as char
  }

  function Digits(n: nat): string {
    if n < 10 then [Digit(n)] else Digits(n / 10) + [Digit(n % 10)]
  }

  function Itoa(n: int): string {
    if n < 0 then "-" + Digits(-n) else Digits(n)
  }

  predicate IsDigit(c: char) {
    '0' <= c <= '9'
  }

  lemma {:induction false} DigitsAreDigits(n: nat)
    ensures Digits(n) != "" && forall c :: c in Digits(n) ==> IsDigit(c)
  {
    if n >= 10 {
      DigitsAreDigits(n / 10);
    }
  }

  lemma {:induction false} ItoaPlain(n: int)
    ensures Itoa(n) != "" && forall c :: c in Itoa(n) ==> IsDigit(c) || c == '-'
  {
    DigitsAreDigits(if n < 0 then -n else n);
  }

  /** Without leading zeros, and with a sign in front of a negative number. */
  lemma {:induction false} ItoaShape(n: int)
    ensures n < 0 ==> Itoa(n) == "-" + Itoa(-n)
    ensures n >= 0 ==> Itoa(n) != "" && (Itoa(n)[0] == '0' ==> n == 0 && |Itoa(n)| == 1) && forall c :: c in Itoa(n) ==> '0' <= c <= '9'
  {
    if n >= 10 {
      ItoaShape(n / 10);
    }
  }

  /** The number a string of digits stands for. */
  function Value(s: string): nat
    requires forall c :: c in s ==> IsDigit(c)
  {
    if s == "" then 0
    else
      var c := s[|s| - 1];
      assert c in s && IsDigit(c);
      10 * Value(s[..|s| - 1]) + (c as int - '0' as int)
  }

  /** Reading back what was written gives the number, so different numbers are written differently. */
  lemma {:induction false} DigitsValue(n: nat)
    ensures (forall c :: c in Digits(n) ==> IsDigit(c)) && Value(Digits(n)) == n
  {
    DigitsAreDigits(n);
    if n >= 10 {
      DigitsValue(n / 10);
      var s := Digits(n);
      assert s[..|s| - 1] == Digits(n / 10);
    } else {
      assert Digits(n)[..0] == "";
    }
  }
}
