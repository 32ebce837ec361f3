/** Numbers as digit strings in a base up to ten: `toString(base)`, `parseInt` and
    `padStart`, with the laws the codecs rest on. */
module Numerals {
  import opened Wrappers

  function Pow(b: nat, e: nat): nat {
    if e == 0 then 1 else b * Pow(b, e - 1)
  }

  function Digit(d: nat): char
    requires d < 10
  {
    "0123456789"[d]
  }

  predicate IsDigit(c: char) {
    '0' <= c <= '9'
  }

  predicate AllDigits(s: string) {
    forall c <- s :: IsDigit(c)
  }

  function DigitValue(c: char): (d: nat)
    requires IsDigit(c)
    ensures d < 10
  {
    c as int - '0' as int
  }

  lemma DigitReadsBack(d: nat)
    requires d < 10
    ensures IsDigit(Digit(d)) && DigitValue(Digit(d)) == d
  {
  }

  lemma DigitWritesBack(c: char)
    requires IsDigit(c)
    ensures Digit(DigitValue(c)) == c
  {
  }

  /** One more digit on the right. */
  function Shift(value: nat, base: nat, digit: nat): nat {
    value * base + digit
  }

  lemma ShiftBelow(value: nat, base: nat, digit: nat, limit: nat)
    requires digit < base
    ensures Shift(value, base, digit) < base * limit <==> value < limit
  {
    if value < limit {
      assert value * base <= (limit - 1) * base;
    } else {
      assert value * base >= limit * base;
    }
  }

  lemma Apart(v: nat, w: nat, base: nat)
    ensures v < w ==> v * base + base <= w * base
  {
    if v < w {
      assert v * base <= (w - 1) * base;
    }
  }

  lemma ShiftInjective(v: nat, w: nat, base: nat, d: nat, e: nat)
    requires d < base && e < base && Shift(v, base, d) == Shift(w, base, e)
    ensures v == w && d == e
  {
    Apart(v, w, base);
    Apart(w, v, base);
  }

  lemma ShiftDivides(n: nat, base: nat)
    requires base >= 2
    ensures Shift(n / base, base, n % base) == n
    ensures n >= base ==> 0 < n / base < n
  {
  }

  /** `n.toString(base)`: no leading zero, and "0" for zero. */
  function Numeral(n: nat, base: nat): (s: string)
    requires 2 <= base <= 10
    ensures s != []
    decreases n
  {
    if n < base then [Digit(n)]
    else
      ShiftDivides(n, base);
      Numeral(n / base, base) + [Digit(n % base)]
  }

  /** `Number.parseInt(s, base)` on a string of digits. */
  function Parse(s: string, base: nat): nat
    requires AllDigits(s)
  {
    if s == [] then 0 else Shift(Parse(Init(s), base), base, DigitValue(Last(s)))
  }

  lemma ParseSnoc(s: string, c: char, base: nat)
    requires AllDigits(s) && IsDigit(c)
    ensures AllDigits(s + [c]) && Parse(s + [c], base) == Shift(Parse(s, base), base, DigitValue(c))
  {
    assert Init(s + [c]) == s;
  }

  predicate AllBelow(s: string, base: nat) {
    forall c <- s :: IsDigit(c) && DigitValue(c) < base
  }

  function Zeros(n: nat): (s: string)
    ensures |s| == n && AllDigits(s)
  {
    seq(n, _ => '0')
  }

  function PadStart(s: string, width: nat): string {
    if |s| >= width then s else Zeros(width - |s|) + s
  }

  lemma OneDigit(c: char, base: nat)
    requires IsDigit(c)
    ensures Parse([c], base) == DigitValue(c)
  {
    ParseSnoc([], c, base);
    assert [] + [c] == [c];
  }

  lemma {:induction false} ParseNumeral(n: nat, base: nat)
    requires 2 <= base <= 10
    ensures AllBelow(Numeral(n, base), base) && Parse(Numeral(n, base), base) == n
    decreases n
  {
    hide Shift, Digit, DigitValue, Parse;
    if n < base {
      DigitReadsBack(n);
      OneDigit(Digit(n), base);
    } else {
      ShiftDivides(n, base);
      DigitReadsBack(n % base);
      ParseNumeral(n / base, base);
      ParseSnoc(Numeral(n / base, base), Digit(n % base), base);
    }
  }

  lemma {:induction false} ParseZeros(n: nat, s: string, base: nat)
    requires AllDigits(s)
    ensures AllDigits(Zeros(n) + s) && Parse(Zeros(n) + s, base) == Parse(s, base)
    decreases n + |s|
  {
    if s != [] {
      hide Parse, Shift, DigitValue;
      ParseZeros(n, Init(s), base);
      ParseSnoc(Zeros(n) + Init(s), Last(s), base);
      ParseSnoc(Init(s), Last(s), base);
      assert Zeros(n) + s == Zeros(n) + Init(s) + [Last(s)] && s == Init(s) + [Last(s)];
    } else if n > 0 {
      ParseZeros(n - 1, s, base);
      assert Zeros(n) + s == Zeros(n - 1) + s + ['0'];
      ParseSnoc(Zeros(n - 1) + s, '0', base);
    }
  }

  lemma {:induction false} NumeralFits(n: nat, base: nat, width: nat)
    requires 2 <= base <= 10 && width >= 1 && n < Pow(base, width)
    ensures |Numeral(n, base)| <= width
    decreases n
  {
    hide Shift, Digit;
    if n >= base {
      ShiftDivides(n, base);
      ShiftBelow(n / base, base, n % base, Pow(base, width - 1));
      assert width > 1;
      NumeralFits(n / base, base, width - 1);
    }
  }

  /** A padded number that fits has exactly the width, is all digits and reads back. */
  lemma Padded(n: nat, base: nat, width: nat)
    requires 2 <= base <= 10 && width >= 1 && n < Pow(base, width)
    ensures var s := PadStart(Numeral(n, base), width);
            |s| == width && AllBelow(s, base) && AllDigits(s) && Parse(s, base) == n
  {
    hide Parse, Numeral, Pow;
    var s := Numeral(n, base);
    NumeralFits(n, base, width);
    ParseNumeral(n, base);
    if |s| < width {
      ParseZeros(width - |s|, s, base);
    }
  }

  lemma {:induction false} ParseBound(s: string, base: nat)
    requires base >= 2 && AllBelow(s, base)
    ensures Parse(s, base) < Pow(base, |s|)
  {
    if s != [] {
      ParseBound(Init(s), base);
      ShiftBelow(Parse(Init(s), base), base, DigitValue(Last(s)), Pow(base, |s| - 1));
      hide Shift;
    }
  }

  /** Equal-width digit strings with the same value are the same string. */
  lemma {:induction false} ParseInjective(a: string, b: string, base: nat)
    requires AllBelow(a, base) && AllBelow(b, base) && |a| == |b| && base >= 2
    requires Parse(a, base) == Parse(b, base)
    ensures a == b
    decreases |a|
  {
    if a != [] {
      ShiftInjective(Parse(Init(a), base), Parse(Init(b), base), base, DigitValue(Last(a)), DigitValue(Last(b)));
      hide Shift;
      ParseInjective(Init(a), Init(b), base);
      DigitWritesBack(Last(a));
      DigitWritesBack(Last(b));
      assert a == Init(a) + [Last(a)] && b == Init(b) + [Last(b)];
    }
  }
}
