/** Decimal and hexadecimal numerals, printed and read back digit by digit. */
module Numerals {

  datatype Base = Ten | Sixteen {
    function Size(): nat {
      match this
      case Ten => 10
      case Sixteen => 16
    }

    function Shift(n: nat): nat {
      match this
      case Ten => n * 10
      case Sixteen => n * 16
    }

    function Quotient(n: nat): nat {
      match this
      case Ten => n / 10
      case Sixteen => n / 16
    }

    function Remainder(n: nat): (d: nat)
      ensures d < Size()
    {
      match this
      case Ten => n % 10
      case Sixteen => n % 16
    }
  }

  function Pow10(n: nat): (p: nat)
    ensures p > 0
  {
    if n == 0 then 1 else 10 * Pow10(n - 1)
  }

  const DIGITS := "0123456789abcdef"

  /** The value of a digit character, or 16 when it is none. */
  function DigitValue(c: char): nat {
    if '0' <= c <= '9' then c as nat - '0' as nat
    else if 'a' <= c <= 'f' then 10 + c as nat - 'a' as nat
    else 16
  }

  lemma DigitInverse(d: nat)
    requires d < 16
    ensures DigitValue(DIGITS[d]) == d
  {
  }

  lemma DigitValueInverse(c: char)
    requires DigitValue(c) < 16
    ensures DIGITS[DigitValue(c)] == c
  {
  }

  predicate AllDigits(s: string, base: Base) {
    forall i :: 0 <= i < |s| ==> DigitValue(s[i]) < base.Size()
  }

  function Value(s: string, base: Base): nat {
    if s == [] then 0 else base.Shift(Value(s[..|s| - 1], base)) + DigitValue(s[|s| - 1])
  }

  function Print(n: nat, base: Base): (s: string)
    ensures s != []
  {
    if n < base.Size() then [DIGITS[n]] else Print(base.Quotient(n), base) + [DIGITS[base.Remainder(n)]]
  }

  /** No superfluous leading zero. */
  predicate Canonical(s: string) {
    s != [] && (s[0] == '0' ==> |s| == 1)
  }

  lemma ValueSnoc(s: string, c: char, base: Base)
    ensures Value(s + [c], base) == base.Shift(Value(s, base)) + DigitValue(c)
  {
    assert (s + [c])[..|s|] == s;
  }

  lemma Recompose(n: nat, base: Base)
    ensures base.Shift(base.Quotient(n)) + base.Remainder(n) == n
    ensures n >= base.Size() ==> base.Quotient(n) > 0
  {
  }

  lemma {:induction false} PrintRead(n: nat, base: Base)
    ensures AllDigits(Print(n, base), base) && Value(Print(n, base), base) == n
    ensures Canonical(Print(n, base))
    ensures n > 0 ==> Print(n, base)[0] != '0'
  {
    if n < base.Size() {
      DigitInverse(n);
      ValueSnoc([], DIGITS[n], base);
      assert [] + [DIGITS[n]] == Print(n, base);
    } else {
      var init, digit := Print(base.Quotient(n), base), DIGITS[base.Remainder(n)];
      PrintRead(base.Quotient(n), base);
      DigitInverse(base.Remainder(n));
      ValueSnoc(init, digit, base);
      Recompose(n, base);
      assert (init + [digit])[0] == init[0];
    }
  }

  lemma PrintSnoc(v: nat, d: nat, base: Base)
    requires v > 0 && d < base.Size()
    ensures Print(base.Shift(v) + d, base) == Print(v, base) + [DIGITS[d]]
  {
    var n := base.Shift(v) + d;
    assert base.Quotient(n) == v && base.Remainder(n) == d && n >= base.Size();
  }

  lemma PrintDigit(d: nat, base: Base)
    requires d < base.Size()
    ensures Print(d, base) == [DIGITS[d]] && base.Shift(Value([], base)) + d == d
  {
  }

  lemma {:induction false} ReadPrint(s: string, base: Base)
    requires AllDigits(s, base) && Canonical(s)
    ensures Print(Value(s, base), base) == s
  {
    hide Print, Value;
    var init, last := s[..|s| - 1], s[|s| - 1];
    assert s == init + [last];
    if init == [] {
      ReadPrintDigit(last, base);
    } else {
      assert init[0] == s[0];
      ReadPrint(init, base);
      ReadPrintSnoc(init, last, base);
    }
  }

  lemma ReadPrintDigit(c: char, base: Base)
    requires DigitValue(c) < base.Size()
    ensures Print(Value([c], base), base) == [c]
  {
    DigitValueInverse(c);
    ValueSnoc([], c, base);
    assert [] + [c] == [c];
    PrintDigit(DigitValue(c), base);
  }

  lemma ReadPrintSnoc(init: string, last: char, base: Base)
    requires AllDigits(init, base) && init != [] && init[0] != '0' && DigitValue(last) < base.Size()
    requires Print(Value(init, base), base) == init
    ensures Print(Value(init + [last], base), base) == init + [last]
  {
    hide Print, Value;
    DigitValueInverse(last);
    ValueSnoc(init, last, base);
    ValuePositive(init, base);
    PrintSnoc(Value(init, base), DigitValue(last), base);
  }

  lemma {:induction false} ValuePositive(s: string, base: Base)
    requires AllDigits(s, base) && s != [] && s[0] != '0'
    ensures Value(s, base) > 0
  {
    var init, last := s[..|s| - 1], s[|s| - 1];
    assert s == init + [last];
    ValueSnoc(init, last, base);
    if init != [] {
      ValuePositive(init, base);
    } else {
      DigitValueInverse(last);
    }
  }
}
