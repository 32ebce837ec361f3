/** Exact decimals with JavaScript's number syntax: `String(x)` as ECMAScript prints
    it, `Number(s)` as ECMAScript reads it, and `Math.round`. */
module Decimals {
  import opened Wrappers
  import opened Text
  import opened Numerals

  /** `m` times ten to the `e`. */
  datatype Dec = Dec(m: int, e: int)

  /** No trailing zero in the significand, so equal numbers are equal values. */
  predicate Normal(d: Dec) {
    if d.m == 0 then d.e == 0 else d.m % 10 != 0
  }

  type Number = d: Dec | Normal(d) witness Dec(0, 0)

  const ZERO: Number := Dec(0, 0)

  function Abs(x: int): nat {
    if x < 0 then -x else x
  }

  function Normalise(m: int, e: int): Number
    decreases Abs(m)
  {
    if m == 0 then ZERO else if m % 10 == 0 then Normalise(m / 10, e + 1) else Dec(m, e)
  }

  function OfInt(i: int): Number {
    Normalise(i, 0)
  }

  predicate IsInteger(d: Number) {
    d.e >= 0
  }

  lemma {:induction false} NormaliseExponent(m: int, e: int)
    ensures m != 0 ==> Normalise(m, e).e >= e
    decreases Abs(m)
  {
    if m != 0 && m % 10 == 0 {
      NormaliseExponent(m / 10, e + 1);
    }
  }

  /** `x * 10 ** k`. */
  function Scale(d: Number, k: int): Number {
    if d.m == 0 then ZERO else Dec(d.m, d.e + k)
  }

  lemma {:induction false} PowPositive(b: nat, n: nat)
    requires b > 0
    ensures Pow(b, n) > 0
  {
    if n > 0 {
      PowPositive(b, n - 1);
    }
  }

  /** `Math.round`: the nearest integer, a half going up. */
  function Round(d: Number): Number {
    if d.e >= 0 then d
    else
      PowPositive(10, -d.e);
      OfInt((2 * d.m + Pow(10, -d.e)) / (2 * Pow(10, -d.e)))
  }

  lemma RoundIsInteger(d: Number)
    ensures IsInteger(Round(d))
  {
    if d.e < 0 {
      PowPositive(10, -d.e);
      NormaliseExponent((2 * d.m + Pow(10, -d.e)) / (2 * Pow(10, -d.e)), 0);
    }
  }

  // -------------------------------------------------------------------- printing

  /** "e+21", "e-7". */
  function ExponentText(x: int): string {
    ['e', if x < 0 then '-' else '+'] + Numeral(Abs(x), 10)
  }

  /** Number::toString for a positive number: `s` its digits, the point after the
      first `n` of them, positional when -6 < n <= 21. */
  function PrintPositive(m: nat, e: int): string {
    var s := Numeral(m, 10);
    var k, n := |s|, |s| + e;
    if k <= n <= 21 then s + Zeros(n - k)
    else if 0 < n <= 21 then s[..n] + "." + s[n..]
    else if -6 < n <= 0 then "0." + Zeros(-n) + s
    else if k == 1 then s + ExponentText(n - 1)
    else s[..1] + "." + s[1..] + ExponentText(n - 1)
  }

  function Print(d: Number): string {
    if d.m == 0 then "0"
    else if d.m < 0 then "-" + PrintPositive(-d.m, d.e)
    else PrintPositive(d.m, d.e)
  }

  // --------------------------------------------------------------------- reading

  function LeadDigits(s: string): (n: nat)
    ensures n <= |s| && AllDigits(s[..n]) && (n < |s| ==> !IsDigit(s[n]))
  {
    if s == "" || !IsDigit(s[0]) then 0
    else
      var n := LeadDigits(s[1..]);
      assert s[..n + 1] == [s[0]] + s[1..][..n];
      n + 1
  }

  /** A signed run of digits. */
  function ReadInteger(s: string): Option<int> {
    var signed := s != "" && (s[0] == '+' || s[0] == '-');
    var digits := if signed then s[1..] else s;
    if digits == "" || !AllDigits(digits) then None
    else
      var value: int := Parse(digits, 10);
      Some(if signed && s[0] == '-' then -value else value)
  }

  function ReadExponent(s: string): Option<int> {
    if s == "" then Some(0) else if s[0] == 'e' || s[0] == 'E' then ReadInteger(s[1..]) else None
  }

  function Decimal(digits: string, places: nat, exponent: int): Number
    requires AllDigits(digits)
  {
    Normalise(Parse(digits, 10), exponent - places)
  }

  /** The fraction after a point, if there is one. */
  function ReadFraction(s: string): string {
    if s != "" && s[0] == '.' then s[1..][..LeadDigits(s[1..])] else ""
  }

  function AfterFraction(s: string): string {
    if s != "" && s[0] == '.' then s[1..][LeadDigits(s[1..])..] else s
  }

  /** StrUnsignedDecimalLiteral without Infinity. */
  function ReadUnsigned(s: string): Option<Number> {
    var whole, rest := s[..LeadDigits(s)], s[LeadDigits(s)..];
    var exponent := ReadExponent(AfterFraction(rest));
    if whole + ReadFraction(rest) == "" || exponent.None? then None
    else Some(Decimal(whole + ReadFraction(rest), |ReadFraction(rest)|, exponent.value))
  }

  function Negated(d: Option<Number>): Option<Number> {
    if d.None? then None else Some(Dec(-d.value.m, d.value.e))
  }

  function RadixDigit(c: char): nat {
    if '0' <= c <= '9' then c as int - '0' as int
    else if 'a' <= c <= 'f' then c as int - 'a' as int + 10
    else if 'A' <= c <= 'F' then c as int - 'A' as int + 10
    else 16
  }

  function ReadRadix(s: string, base: nat): nat {
    if s == "" then 0 else ReadRadix(Init(s), base) * base + RadixDigit(Last(s))
  }

  function RadixOf(s: string): nat {
    if |s| < 2 || s[0] != '0' then 0
    else match s[1]
         case 'x' => 16 case 'X' => 16
         case 'o' => 8 case 'O' => 8
         case 'b' => 2 case 'B' => 2
         case _ => 0
  }

  /** `Number(s)`, with None for NaN and the infinities. */
  function Read(s: string): Option<Number> {
    var t := Trim(s);
    if t == "" then Some(ZERO)
    else if RadixOf(t) > 0 then
      if |t| > 2 && forall c <- t[2..] :: RadixDigit(c) < RadixOf(t)
      then Some(OfInt(ReadRadix(t[2..], RadixOf(t))))
      else None
    else if t[0] == '-' then Negated(ReadUnsigned(t[1..]))
    else if t[0] == '+' then ReadUnsigned(t[1..])
    else ReadUnsigned(t)
  }

  // ------------------------------------------------------------------- round trip

  lemma {:induction false} LeadDigitsOf(a: string, b: string)
    requires AllDigits(a) && (b != "" ==> !IsDigit(b[0]))
    ensures LeadDigits(a + b) == |a|
  {
    if a == "" {
      assert a + b == b;
    } else {
      assert (a + b)[1..] == a[1..] + b && (a + b)[0] == a[0] && a[0] in a;
      LeadDigitsOf(a[1..], b);
    }
  }

  lemma BelowTenAreDigits(s: string)
    requires AllBelow(s, 10)
    ensures AllDigits(s)
  {
  }

  lemma ReadIntegerBack(x: int)
    ensures ReadInteger([if x < 0 then '-' else '+'] + Numeral(Abs(x), 10)) == Some(x)
  {
    hide Parse, Numeral;
    var sign, digits := if x < 0 then '-' else '+', Numeral(Abs(x), 10);
    ParseNumeral(Abs(x), 10);
    assert ([sign] + digits)[1..] == digits;
    BelowTenAreDigits(digits);
  }

  lemma ExponentReadsBack(x: int)
    ensures ReadExponent(ExponentText(x)) == Some(x)
  {
    ReadIntegerBack(x);
    hide ReadInteger, Numeral;
    assert ExponentText(x)[1..] == [if x < 0 then '-' else '+'] + Numeral(Abs(x), 10);
  }

  /** Digits, an optional fraction and an optional exponent read as their decimal. */
  lemma ReadsAsDecimal(whole: string, frac: string, tail: string, exponent: int)
    requires AllDigits(whole) && AllDigits(frac) && whole != ""
    requires tail == "" || tail[0] == 'e' || tail[0] == 'E'
    requires ReadExponent(tail) == Some(exponent)
    ensures AllDigits(whole + frac)
    ensures frac != "" ==> ReadUnsigned(whole + "." + frac + tail) == Some(Decimal(whole + frac, |frac|, exponent))
    ensures frac == "" ==> ReadUnsigned(whole + tail) == Some(Decimal(whole, 0, exponent))
  {
    hide LeadDigits, ReadExponent, Decimal;
    if frac == "" {
      LeadDigitsOf(whole, tail);
      assert (whole + tail)[..|whole|] == whole && (whole + tail)[|whole|..] == tail;
      assert whole + "" == whole;
    } else {
      var rest := "." + frac + tail;
      assert whole + "." + frac + tail == whole + rest;
      LeadDigitsOf(whole, rest);
      assert (whole + rest)[..|whole|] == whole && (whole + rest)[|whole|..] == rest;
      assert rest[1..] == frac + tail;
      LeadDigitsOf(frac, tail);
      assert (frac + tail)[..|frac|] == frac && (frac + tail)[|frac|..] == tail;
    }
  }

  lemma {:induction false} ParseTrailingZeros(s: string, z: nat)
    requires AllDigits(s)
    ensures AllDigits(s + Zeros(z)) && Parse(s + Zeros(z), 10) == Parse(s, 10) * Pow(10, z)
    decreases z
  {
    hide Parse;
    if z == 0 {
      assert s + Zeros(0) == s;
    } else {
      ParseTrailingZeros(s, z - 1);
      assert s + Zeros(z) == s + Zeros(z - 1) + ['0'];
      ParseSnoc(s + Zeros(z - 1), '0', 10);
      var p, q := Parse(s, 10), Pow(10, z - 1);
      assert p * q * 10 == p * (10 * q);
    }
  }

  lemma DropsZero(p: int, e: int)
    requires p != 0
    ensures Normalise(10 * p, e) == Normalise(p, e + 1)
  {
  }

  lemma Reassociate(m: int, q: int)
    requires m != 0 && q > 0
    ensures m * (10 * q) == 10 * (m * q) && m * q != 0
  {
  }

  lemma {:induction false} NormaliseTrailingZeros(m: int, z: nat, e: int)
    requires m % 10 != 0
    ensures Normalise(m * Pow(10, z), e) == Dec(m, e + z)
    decreases z
  {
    if z > 0 {
      var q := Pow(10, z - 1);
      PowPositive(10, z - 1);
      assert Pow(10, z) == 10 * q;
      hide Pow, Normalise;
      Reassociate(m, q);
      DropsZero(m * q, e);
      NormaliseTrailingZeros(m, z - 1, e + 1);
    }
  }

  lemma EmptyExponent()
    ensures ReadExponent("") == Some(0)
  {
  }

  lemma ExponentStartsWithE(x: int)
    ensures ExponentText(x) != "" && ExponentText(x)[0] == 'e'
  {
  }

  lemma PowZero()
    ensures Pow(10, 0) == 1
  {
  }

  lemma PositiveReadsBack(m: nat, e: int)
    requires m % 10 != 0
    ensures ReadUnsigned(PrintPositive(m, e)) == Some(Dec(m, e))
  {
    hide Parse, Numeral, ReadUnsigned, ReadExponent, Normalise, ExponentText, Pow;
    var s := Numeral(m, 10);
    ParseNumeral(m, 10);
    BelowTenAreDigits(s);
    var k, n := |s|, |s| + e;
    NormaliseTrailingZeros(m, 0, e);
    assert Pow(10, 0) == 1 by { PowZero(); }
    EmptyExponent();
    if k <= n <= 21 {
      ParseTrailingZeros(s, n - k);
      ReadsAsDecimal(s + Zeros(n - k), "", "", 0);
      NormaliseTrailingZeros(m, n - k, 0);
      assert s + Zeros(n - k) + "" == s + Zeros(n - k);
    } else if 0 < n <= 21 {
      ReadsAsDecimal(s[..n], s[n..], "", 0);
      assert s[..n] + s[n..] == s;
      assert s[..n] + "." + s[n..] + "" == s[..n] + "." + s[n..];
    } else if -6 < n <= 0 {
      var frac := Zeros(-n) + s;
      ParseZeros(1 - n, s, 10);
      assert "0" + frac == Zeros(1 - n) + s;
      ReadsAsDecimal("0", frac, "", 0);
      assert "0" + "." + frac + "" == "0." + Zeros(-n) + s;
    } else {
      ExponentReadsBack(n - 1);
      ExponentStartsWithE(n - 1);
      ReadsAsDecimal(s[..1], s[1..], ExponentText(n - 1), n - 1);
      assert s[..1] + s[1..] == s;
      if k == 1 {
        assert s[..1] == s && s[1..] == "";
      }
    }
  }

  /** The characters a printed number uses. */
  predicate NumberChar(c: char) {
    IsDigit(c) || c == '.' || c == 'e' || c == '+' || c == '-'
  }

  lemma PositivePrintsNumberChars(m: nat, e: int)
    ensures PrintPositive(m, e) != "" && IsDigit(PrintPositive(m, e)[0])
    ensures forall c <- PrintPositive(m, e) :: NumberChar(c)
  {
    hide Numeral;
    var s := Numeral(m, 10);
    ParseNumeral(m, 10);
    BelowTenAreDigits(s);
    var x := |s| + e - 1;
    ParseNumeral(Abs(x), 10);
    BelowTenAreDigits(Numeral(Abs(x), 10));
    assert s[0] in s;
  }

  lemma PrintsNumberChars(d: Number)
    ensures Print(d) != "" && forall c <- Print(d) :: NumberChar(c)
  {
    hide PrintPositive;
    if d.m != 0 {
      PositivePrintsNumberChars(Abs(d.m), d.e);
    }
  }

  lemma ZeroReads()
    ensures ReadUnsigned("0") == Some(ZERO)
  {
    EmptyExponent();
    ReadsAsDecimal("0", "", "", 0);
    assert "0" + "" == "0";
    assert Init("0") == "";
  }

  /** Reading undoes printing, for every decimal. */
  lemma ReadPrint(d: Number)
    ensures Read(Print(d)) == Some(d)
  {
    hide PrintPositive, ReadUnsigned, LeadDigits;
    var s := Print(d);
    PrintsNumberChars(d);
    assert Trimmed(s) by {
      assert s[0] in s && Last(s) in s;
    }
    TrimOfTrimmed(s, IsJsSpace);
    assert RadixOf(s) == 0 by {
      assert |s| >= 2 ==> s[1] in s;
    }
    if d.m == 0 {
      ZeroReads();
    } else {
      PositivePrintsNumberChars(Abs(d.m), d.e);
      PositiveReadsBack(Abs(d.m), d.e);
      if d.m < 0 {
        assert s[1..] == PrintPositive(-d.m, d.e);
      }
    }
  }

  /** Rounding what is already an integer changes nothing. */
  lemma RoundOfInteger(d: Number)
    requires IsInteger(d)
    ensures Round(d) == d
  {
  }

  lemma FloorBounds(a: int, b: int)
    requires b > 0
    ensures b * (a / b) <= a < b * (a / b) + b
  {
  }

  /** `Math.round` is the integer nearest to the number, a half going up:
      2r - 1 <= 2x < 2r + 1, with both sides scaled to integers. */
  lemma RoundIsNearest(d: Number)
    requires d.e < 0
    ensures var p := Pow(10, -d.e);
            exists r: int :: Round(d) == OfInt(r) && (2 * r - 1) * p <= 2 * d.m < (2 * r + 1) * p
  {
    var p := Pow(10, -d.e);
    PowPositive(10, -d.e);
    var r := (2 * d.m + p) / (2 * p);
    FloorBounds(2 * d.m + p, 2 * p);
    assert Round(d) == OfInt(r);
    assert 2 * p * r == 2 * (p * r) && (2 * r - 1) * p == 2 * (p * r) - p && (2 * r + 1) * p == 2 * (p * r) + p;
  }

  // -------------------------------------------------------------------- quotients

  /** `x / divisor` as a fraction of integers. */
  function Over(d: Number, divisor: nat): (int, nat) {
    if d.e >= 0 then (d.m * Pow(10, d.e), divisor) else (d.m, divisor * Pow(10, -d.e))
  }

  lemma OverPositive(d: Number, divisor: nat)
    requires divisor > 0
    ensures Over(d, divisor).1 > 0
  {
    if d.e < 0 {
      PowPositive(10, -d.e);
    }
  }

  /** `Math.round(x / divisor)`. */
  function RoundedQuotient(d: Number, divisor: nat): Number
    requires divisor > 0
  {
    if divisor == 1 then Round(d)
    else
      OverPositive(d, divisor);
      var (a, b) := Over(d, divisor);
      OfInt((2 * a + b) / (2 * b))
  }

  lemma RoundedQuotientIsInteger(d: Number, divisor: nat)
    requires divisor > 0
    ensures IsInteger(RoundedQuotient(d, divisor))
  {
    if divisor == 1 {
      RoundIsInteger(d);
    } else {
      OverPositive(d, divisor);
      var (a, b) := Over(d, divisor);
      NormaliseExponent((2 * a + b) / (2 * b), 0);
    }
  }

  /** The integer nearest to `x / divisor`, a half going up: with x / divisor = a / b,
      2r - 1 <= 2a / b < 2r + 1. */
  lemma RoundedQuotientIsNearest(d: Number, divisor: nat)
    requires divisor > 1
    ensures var (a, b) := Over(d, divisor);
            exists r: int :: RoundedQuotient(d, divisor) == OfInt(r) && (2 * r - 1) * b <= 2 * a < (2 * r + 1) * b
  {
    OverPositive(d, divisor);
    var (a, b) := Over(d, divisor);
    var r := (2 * a + b) / (2 * b);
    FloorBounds(2 * a + b, 2 * b);
    assert RoundedQuotient(d, divisor) == OfInt(r);
    assert 2 * b * r == 2 * (b * r) && (2 * r - 1) * b == 2 * (b * r) - b && (2 * r + 1) * b == 2 * (b * r) + b;
  }
}
