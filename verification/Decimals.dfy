/** Numbers as they are printed. */
module Decimals {
  function Decimal(n: nat): string {
    if n < 10 then ["0123456789"[n]] else Decimal(n / 10) + ["0123456789"[n % 10]]
  }

  lemma {:induction false} DecimalHasNoNul(n: nat)
    ensures '\0' !in Decimal(n) && Decimal(n) != []
  {
    var digits := "0123456789";
    assert forall i :: 0 <= i < 10 ==> digits[i] != '\0';
    if n >= 10 {
      DecimalHasNoNul(n / 10);
    }
  }

  lemma {:induction false} DecimalInjective(m: nat, n: nat)
    requires Decimal(m) == Decimal(n)
    ensures m == n
  {
    var digits := "0123456789";
    assert forall i, j :: 0 <= i < j < 10 ==> digits[i] != digits[j];
    DecimalHasNoNul(m / 10);
    DecimalHasNoNul(n / 10);
    var a, b := Decimal(m), Decimal(n);
    assert a[|a| - 1] == digits[m % 10] && b[|b| - 1] == digits[n % 10];
    if m >= 10 && n >= 10 {
      assert a[..|a| - 1] == Decimal(m / 10) && b[..|b| - 1] == Decimal(n / 10);
      DecimalInjective(m / 10, n / 10);
    }
  }

  /** What digits stand for, the last one for the units. */
  function Value(digits: string): int {
    if digits == [] then 0 else 10 * Value(digits[..|digits| - 1]) + (digits[|digits| - 1] as int - '0' as int)
  }

  /** A printed number is made of digits, without a needless zero in front, and stands for the number. */
  lemma {:induction false} DecimalIsTheNumber(n: nat)
    ensures Value(Decimal(n)) == n
    ensures forall c :: c in Decimal(n) ==> '0' <= c <= '9'
    ensures Decimal(n) != [] && (n > 0 ==> Decimal(n)[0] != '0')
  {
    var digits := "0123456789";
    assert forall i :: 0 <= i < 10 ==> digits[i] as int == '0' as int + i;
    var s := Decimal(n);
    assert s[..|s| - 1] == if n < 10 then [] else Decimal(n / 10);
    if n >= 10 {
      DecimalIsTheNumber(n / 10);
    }
  }
}
