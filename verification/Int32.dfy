/** JavaScript's bitwise operators: operands and results are 32-bit two's complement. */
module Int32 {
  import opened Numerals

  const TWO31 := 0x8000_0000
  const TWO32 := 0x1_0000_0000

  function ToUint32(x: int): nat {
    x % TWO32
  }

  function ToInt32(x: int): int {
    var u := ToUint32(x);
    if u < TWO31 then u else u - TWO32
  }

  /** Two's complement: the one number of this range that differs by a multiple of 2^32. */
  lemma ToInt32IsTheResidue(x: int)
    ensures -0x8000_0000 <= ToInt32(x) < 0x8000_0000 && (x - ToInt32(x)) % 0x1_0000_0000 == 0
    ensures 0 <= ToUint32(x) < 0x1_0000_0000 && (x - ToUint32(x)) % 0x1_0000_0000 == 0
  {
  }

  /** Bit by bit, lowest first. */
  function And(a: nat, b: nat): nat
    decreases a
  {
    if a == 0 then 0 else 2 * And(a / 2, b / 2) + (if a % 2 == 1 && b % 2 == 1 then 1 else 0)
  }

  function Or(a: nat, b: nat): nat
    decreases a + b
  {
    if a == 0 && b == 0 then 0 else 2 * Or(a / 2, b / 2) + (if a % 2 == 1 || b % 2 == 1 then 1 else 0)
  }

  function BitAnd(a: int, b: int): int {
    ToInt32(And(ToUint32(a), ToUint32(b)))
  }

  function BitOr(a: int, b: int): int {
    ToInt32(Or(ToUint32(a), ToUint32(b)))
  }

  function ShiftLeft(a: int, k: nat): int {
    ToInt32(a * Pow(2, k))
  }

  lemma {:induction false} AndZero(a: nat)
    ensures And(a, 0) == 0
  {
    if a > 0 {
      AndZero(a / 2);
    }
  }

  lemma RemainderIs(a: nat, m: nat, q: nat, r: nat)
    requires r < m && a == m * q + r
    ensures a % m == r && a / m == q
  {
    var q', r' := a / m, a % m;
    assert m * q' + r' == m * q + r;
    ShiftInjective(q', q, m, r', r);
  }

  lemma HalfRemainder(a: nat, p: nat)
    requires p >= 1
    ensures a % (2 * p) == 2 * (a / 2 % p) + a % 2
  {
    var q, r := a / 2 / p, a / 2 % p;
    assert a == 2 * p * q + (2 * r + a % 2);
    RemainderIs(a, 2 * p, q, 2 * r + a % 2);
  }

  /** A mask of `k` ones keeps the remainder. */
  lemma {:induction false} AndMask(a: nat, k: nat)
    ensures Pow(2, k) >= 1 && And(a, Pow(2, k) - 1) == a % Pow(2, k)
    decreases k
  {
    if k == 0 {
      AndZero(a);
    } else {
      AndMask(a / 2, k - 1);
      var p := Pow(2, k - 1);
      assert Pow(2, k) == 2 * p;
      assert (2 * p - 1) / 2 == p - 1 && (2 * p - 1) % 2 == 1;
      HalfRemainder(a, p);
    }
  }

  lemma OrEven(a: nat, b: nat)
    ensures Or(2 * a, b) == 2 * Or(a, b / 2) + b % 2
  {
  }

  lemma {:induction false} OrZero(a: nat)
    ensures Or(a, 0) == a
    decreases a
  {
    if a > 0 {
      OrZero(a / 2);
    }
  }

  lemma Doubled(a: nat, p: nat)
    ensures a * (2 * p) == 2 * (a * p)
  {
  }

  /** Operands whose bits do not overlap are added. */
  lemma {:induction false} OrDisjoint(a: nat, b: nat, k: nat)
    requires b < Pow(2, k)
    ensures Or(a * Pow(2, k), b) == a * Pow(2, k) + b
    decreases k
  {
    if k == 0 {
      OrZero(a);
    } else {
      var p := Pow(2, k - 1);
      assert Pow(2, k) == 2 * p;
      hide Or, Pow;
      OrDisjoint(a, b / 2, k - 1);
      OrEven(a * p, b);
      Doubled(a, p);
    }
  }

  /** Below 2^31 the conversions change nothing. */
  lemma Small(x: int)
    requires 0 <= x < TWO31
    ensures ToInt32(x) == x && ToUint32(x) == x
  {
  }

  lemma Mask(x: nat, k: nat)
    requires x < TWO31 && Pow(2, k) <= TWO31
    ensures Pow(2, k) >= 1 && BitAnd(x, Pow(2, k) - 1) == x % Pow(2, k)
  {
    hide And, ToInt32, ToUint32, Pow;
    AndMask(x, k);
    Small(x);
    Small(Pow(2, k) - 1);
    Small(x % Pow(2, k));
  }

  lemma SmallShift(x: nat, k: nat)
    requires x * Pow(2, k) < TWO31
    ensures ShiftLeft(x, k) == x * Pow(2, k)
  {
    hide Pow;
    Small(x * Pow(2, k));
  }

  lemma OrAdds(a: nat, b: nat, k: nat)
    requires b < Pow(2, k) && a * Pow(2, k) + b < TWO31
    ensures BitOr(a * Pow(2, k), b) == a * Pow(2, k) + b
  {
    hide Or, ToInt32, ToUint32, Pow;
    OrDisjoint(a, b, k);
    Small(a * Pow(2, k));
    Small(b);
    Small(a * Pow(2, k) + b);
  }
}
