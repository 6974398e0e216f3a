/** Numbers written out in decimal, as they appear in generated names. */
module Decimal {

  predicate IsDigit(c: char) {
    '0' <= c <= '9'
  }

  function Digits(n: nat): string {
    var digit := ['0' + (n % 10) as char];
    if n < 10 then digit else Digits(n / 10) + digit
  }

  lemma {:induction false} DigitsAreDigits(n: nat)
    ensures Digits(n) != [] && forall c <- Digits(n) :: IsDigit(c)
  {
    if n >= 10 {
      DigitsAreDigits(n / 10);
    }
  }

  lemma {:induction false} DigitsInjective(m: nat, n: nat)
    requires Digits(m) == Digits(n)
    ensures m == n
  {
    var a, b := Digits(m), Digits(n);
    assert a[|a| - 1] == '0' + (m % 10) as char && b[|b| - 1] == '0' + (n % 10) as char;
    DigitsAreDigits(m / 10);
    DigitsAreDigits(n / 10);
    if m >= 10 && n >= 10 {
      assert a[..|a| - 1] == Digits(m / 10) && b[..|b| - 1] == Digits(n / 10);
      DigitsInjective(m / 10, n / 10);
    }
  }

  /** With something behind it that is no digit, no number is the beginning of another. */
  lemma NoNumberStartsAnother(before: string, m: nat, n: nat, end: char)
    requires !IsDigit(end) && before + Digits(m) + [end] <= before + Digits(n) + [end]
    ensures m == n
  {
    DigitsAreDigits(m);
    DigitsAreDigits(n);
    var a, b, p := Digits(m), Digits(n), |before|;
    var x, y := before + a + [end], before + b + [end];
    assert x == y[..|x|];
    assert forall i :: 0 <= i < |a| ==> x[p + i] == a[i];
    assert forall i :: 0 <= i < |b| ==> y[p + i] == b[i];
    assert x[p + |a|] == end;
    assert forall i :: p <= i < |y| - 1 ==> IsDigit(y[i]);
    assert a == b;
    DigitsInjective(m, n);
  }
}
