// Integers as Python's f-strings print them.
module Decimal {
  function Digit(d: nat): char
    requires d < 10
  {
    '0' + d as char
  }

  function Digits(n: nat): string {
    if n < 10 then [Digit(n)] else Digits(n / 10) + [Digit(n % 10)]
  }

  function Print(i: int): string {
    if i < 0 then "-" + Digits(-i) else Digits(i)
  }

  lemma {:induction false} DigitsAreDigits(n: nat)
    ensures Digits(n) != [] && forall k :: 0 <= k < |Digits(n)| ==> '0' <= Digits(n)[k] <= '9'
  {
    if n >= 10 {
      DigitsAreDigits(n / 10);
    }
  }

  lemma {:induction false} DigitsAreUnique(m: nat, n: nat)
    requires Digits(m) == Digits(n)
    ensures m == n
  {
    DigitsAreDigits(m / 10);
    DigitsAreDigits(n / 10);
    var dm, dn := Digits(m), Digits(n);
    assert dm[|dm| - 1] == Digit(m % 10) && dn[|dn| - 1] == Digit(n % 10);
    if m >= 10 && n >= 10 {
      assert dm[..|dm| - 1] == Digits(m / 10) && dn[..|dn| - 1] == Digits(n / 10);
      DigitsAreUnique(m / 10, n / 10);
    }
  }

  // Different integers print differently, and never with a colon.
  lemma {:induction false} PrintIsUnique(i: int, j: int)
    ensures Print(i) == Print(j) <==> i == j
    ensures ':' !in Print(i)
  {
    DigitsAreDigits(if i < 0 then -i else i);
    DigitsAreDigits(if j < 0 then -j else j);
    assert (i < 0 <==> Print(i)[0] == '-') && (j < 0 <==> Print(j)[0] == '-');
    if Print(i) == Print(j) {
      if i < 0 && j < 0 {
        assert Print(i)[1..] == Digits(-i) && Print(j)[1..] == Digits(-j);
        DigitsAreUnique(-i, -j);
      } else {
        DigitsAreUnique(i, j);
      }
    }
  }

  // The number that decimal digits stand for.
  function ValueOf(digits: string): int {
    if digits == [] then 0
    else 10 * ValueOf(digits[..|digits| - 1]) + (digits[|digits| - 1] as int - '0' as int)
  }

  lemma {:induction false} DigitsRead(n: nat)
    ensures ValueOf(Digits(n)) == n && (n >= 10 ==> Digits(n)[0] != '0')
  {
    DigitsAreDigits(n);
    if n >= 10 {
      DigitsAreDigits(n / 10);
      DigitsRead(n / 10);
      assert Digits(n)[..|Digits(n)| - 1] == Digits(n / 10);
    } else {
      assert Digits(n)[..0] == [];
    }
  }

  // What is printed is the number in decimal, without leading zeros, behind a minus
  // sign if it is negative.
  lemma {:induction false} PrintReads(i: int)
    ensures var digits := if i < 0 then Print(i)[1..] else Print(i);
            && ValueOf(digits) == (if i < 0 then -i else i)
            && (|digits| > 1 ==> digits[0] != '0')
            && (forall k :: 0 <= k < |digits| ==> '0' <= digits[k] <= '9')
    ensures i < 0 ==> Print(i)[0] == '-'
  {
    var n: nat := if i < 0 then -i else i;
    DigitsRead(n);
    DigitsAreDigits(n);
    assert i < 0 ==> Print(i)[1..] == Digits(n);
  }
}
