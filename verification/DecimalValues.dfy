/** The decimals of `Decimals` as real numbers, and what scaling and rounding do to them. */
module DecimalValues {
  import opened Numerals
  import opened Decimals

  /** `m` times ten to the `e`. */
  function Times10(m: int, e: int): real {
    if e >= 0 then (m * Pow(10, e)) as real
    else
      PowPositive(10, -e);
      m as real / Pow(10, -e) as real
  }

  function AsReal(d: Number): real {
    Times10(d.m, d.e)
  }

  lemma Ratio(a: real, b: real)
    requires b > 0.0
    ensures 10.0 * a / (10.0 * b) == a / b
    ensures 10.0 * a / 10.0 == a
  {
  }

  lemma Associate(a: int, b: int, c: int)
    ensures a * b * c == a * (b * c)
  {
  }

  /** A zero moved from the significand to the exponent. */
  lemma MoveZero(m: int, e: int)
    ensures Times10(10 * m, e) == Times10(m, e + 1)
  {
    if e >= 0 {
      Associate(m, 10, Pow(10, e));
    } else {
      PowPositive(10, -e);
      PowPositive(10, -e - 1);
      var b := Pow(10, -e - 1);
      assert Pow(10, -e) == 10 * b;
      Ratio(m as real, b as real);
    }
  }

  lemma {:induction false} NormaliseKeepsValue(m: int, e: int)
    ensures AsReal(Normalise(m, e)) == Times10(m, e)
    decreases Abs(m)
  {
    if m == 0 {
      if e < 0 {
        PowPositive(10, -e);
      }
    } else if m % 10 == 0 {
      MoveZero(m / 10, e);
      NormaliseKeepsValue(m / 10, e + 1);
    }
  }

  lemma IntegerIsItself(i: int)
    ensures AsReal(OfInt(i)) == i as real
  {
    NormaliseKeepsValue(i, 0);
  }

  lemma Divide(a: real, k: real, b: real)
    requires b > 0.0
    ensures k * a / b == k * (a / b)
  {
  }

  lemma RealProduct(a: int, b: int)
    ensures (a * b) as real == a as real * b as real
  {
  }

  lemma QuotientTimes(a: real, b: real)
    requires b > 0.0
    ensures a / b * b == a
  {
  }

  lemma TenTimes(x: int)
    ensures 10 * x % 10 == 0 && 10 * x / 10 == x
  {
  }

  lemma TimesLinear(k: int, m: int, e: int)
    ensures Times10(k * m, e) == k as real * Times10(m, e)
  {
    if e >= 0 {
      Associate(k, m, Pow(10, e));
      RealProduct(k, m * Pow(10, e));
    } else {
      PowPositive(10, -e);
      RealProduct(k, m);
      Divide(m as real, k as real, Pow(10, -e) as real);
    }
  }

  lemma ScaleByTwo(d: Number)
    ensures AsReal(Scale(d, 2)) == 100.0 * AsReal(d)
  {
    if d.m != 0 {
      MoveZero(d.m, d.e + 1);
      MoveZero(10 * d.m, d.e);
      TimesLinear(100, d.m, d.e);
    } else {
      IntegerIsItself(0);
    }
  }

  lemma ScaleBack(d: Number)
    ensures 100.0 * AsReal(Scale(d, -2)) == AsReal(d)
  {
    ScaleByTwo(Scale(d, -2));
  }

  lemma CancelFactor(x: real, y: real, b: real)
    requires b > 0.0
    ensures x * b < y * b <==> x < y
  {
  }

  lemma NearestFactor(q: real, b: real, r: real, a: real)
    requires b > 0.0 && q * b == a && (2.0 * r - 1.0) * b <= 2.0 * a < (2.0 * r + 1.0) * b
    ensures r - 0.5 <= q < r + 0.5
  {
    assert 2.0 * (q * b) == (2.0 * q) * b;
    CancelFactor(2.0 * q, 2.0 * r - 1.0, b);
    CancelFactor(2.0 * q, 2.0 * r + 1.0, b);
  }

  /** `2 * r - 1 <= 2 * a / b < 2 * r + 1` as a statement about the quotient. */
  lemma NearestQuotient(a: int, b: nat, r: int)
    requires b > 0 && (2 * r - 1) * b <= 2 * a < (2 * r + 1) * b
    ensures r as real - 0.5 <= a as real / b as real < r as real + 0.5
  {
    var q := a as real / b as real;
    QuotientTimes(a as real, b as real);
    RealProduct(2 * r - 1, b);
    RealProduct(2 * r + 1, b);
    assert (2 * r - 1) as real == 2.0 * r as real - 1.0 && (2 * r + 1) as real == 2.0 * r as real + 1.0;
    assert ((2 * r - 1) * b) as real <= (2 * a) as real < ((2 * r + 1) * b) as real;
    NearestFactor(q, b as real, r as real, a as real);
  }

  lemma NotZero(a: int, b: int)
    requires a != 0 && b != 0
    ensures a * b != 0
  {
  }

  lemma {:induction false} NormaliseShifted(m: int, k: nat, e: int)
    requires m % 10 != 0
    ensures Normalise(m * Pow(10, k), e) == Dec(m, e + k)
    decreases k
  {
    if k == 0 {
      assert m * Pow(10, 0) == m;
    } else {
      PowPositive(10, k - 1);
      var tens := Pow(10, k - 1);
      assert Pow(10, k) == 10 * tens;
      var shifted := m * tens;
      hide Pow;
      Associate(10, m, tens);
      assert m * Pow(10, k) == 10 * shifted;
      TenTimes(shifted);
      NotZero(m, tens);
      NormaliseShifted(m, k - 1, e + 1);
    }
  }

  lemma IntegerValue(d: Number)
    requires d.e >= 0
    ensures OfInt(d.m * Pow(10, d.e)) == d
  {
    if d.m == 0 {
      assert d.m * Pow(10, d.e) == 0;
    } else {
      NormaliseShifted(d.m, d.e, 0);
    }
  }

  /** Rounding gives the integer nearest to the number, a half going up. */
  lemma RoundedValue(d: Number) returns (r: int)
    ensures Round(d) == OfInt(r)
    ensures r as real - 0.5 <= AsReal(d) < r as real + 0.5
  {
    if d.e >= 0 {
      r := d.m * Pow(10, d.e);
      IntegerValue(d);
    } else {
      RoundIsNearest(d);
      var p := Pow(10, -d.e);
      PowPositive(10, -d.e);
      r :| Round(d) == OfInt(r) && (2 * r - 1) * p <= 2 * d.m < (2 * r + 1) * p;
      NearestQuotient(d.m, p, r);
    }
  }

  lemma QuotientIs(m: real, b: real, q: real)
    requires b > 0.0 && q * b == m
    ensures m / b == q
  {
  }

  lemma QuotientOfQuotient(m: real, p: real, n: real)
    requires p > 0.0 && n > 0.0
    ensures n * p > 0.0 && m / (n * p) == m / p / n
  {
    var q := m / p / n;
    QuotientTimes(m / p, n);
    QuotientTimes(m, p);
    assert q * (n * p) == q * n * p;
    QuotientIs(m, n * p, q);
  }

  lemma OverIsQuotient(d: Number, divisor: nat)
    requires divisor > 0
    ensures var (a, b) := Over(d, divisor); b > 0 && a as real / b as real == AsReal(d) / divisor as real
  {
    OverPositive(d, divisor);
    if d.e < 0 {
      PowPositive(10, -d.e);
      var p := Pow(10, -d.e);
      var m, n := d.m as real, divisor as real;
      RealProduct(divisor, p);
      QuotientOfQuotient(m, p as real, n);
    }
  }

  /** A rounded quotient is the integer nearest to the quotient, a half going up. */
  lemma RoundedQuotientValue(d: Number, divisor: nat) returns (r: int)
    requires divisor > 0
    ensures RoundedQuotient(d, divisor) == OfInt(r)
    ensures r as real - 0.5 <= AsReal(d) / divisor as real < r as real + 0.5
  {
    if divisor == 1 {
      r := RoundedValue(d);
    } else {
      RoundedQuotientIsNearest(d, divisor);
      OverIsQuotient(d, divisor);
      var (a, b) := Over(d, divisor);
      r :| RoundedQuotient(d, divisor) == OfInt(r) && (2 * r - 1) * b <= 2 * a < (2 * r + 1) * b;
      NearestQuotient(a, b, r);
    }
  }
}
