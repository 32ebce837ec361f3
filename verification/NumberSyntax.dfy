/** What JavaScript's number syntax means: which value a text of digits has, which
    texts are numbers at all, when a printed number has an exponent, and what grouping
    marks do. */
module NumberSyntax {
  import opened Wrappers
  import opened Text
  import opened Numerals
  import opened Decimals
  import opened DecimalValues
  import opened ProfileWire

  // ---------------------------------------------------------------------- reading

  lemma DigitsAreNoBlanks(c: char)
    requires NumberChar(c)
    ensures !IsJsSpace(c) && c != 'x' && c != 'X' && c != 'o' && c != 'O' && c != 'b' && c != 'B'
  {
  }

  /** A text of number characters is trimmed, and has no radix prefix. */
  lemma PlainText(s: string)
    requires s != "" && forall c <- s :: NumberChar(c)
    ensures Trim(s) == s && RadixOf(s) == 0
  {
    assert s[0] in s && Last(s) in s;
    DigitsAreNoBlanks(s[0]);
    DigitsAreNoBlanks(Last(s));
    TrimOfTrimmed(s, IsJsSpace);
    if |s| >= 2 {
      assert s[1] in s;
      DigitsAreNoBlanks(s[1]);
    }
  }

  function PointThen(frac: string): string {
    if frac == "" then "" else "." + frac
  }

  lemma UnsignedReads(whole: string, frac: string)
    requires whole != "" && AllDigits(whole) && AllDigits(frac)
    ensures ReadUnsigned(whole + PointThen(frac)).Some?
    ensures AllDigits(whole + frac)
    ensures AsReal(ReadUnsigned(whole + PointThen(frac)).value) == Times10(Parse(whole + frac, 10), -|frac|)
  {
    hide ReadUnsigned, Parse;
    EmptyExponent();
    ReadsAsDecimal(whole, frac, "", 0);
    NormaliseKeepsValue(Parse(whole + frac, 10), -|frac|);
    if frac == "" {
      assert whole + "" == whole;
    } else {
      assert whole + "." + frac + "" == whole + PointThen(frac);
    }
  }

  lemma TimesMinus(d: Number)
    ensures Normal(Dec(-d.m, d.e)) && AsReal(Dec(-d.m, d.e)) == -AsReal(d)
  {
    TimesLinear(-1, d.m, d.e);
  }

  lemma PlainReads(s: string)
    requires s != "" && forall c <- s :: NumberChar(c)
    ensures Read(s) == if s[0] == '-' then Negated(ReadUnsigned(s[1..]))
                       else if s[0] == '+' then ReadUnsigned(s[1..]) else ReadUnsigned(s)
  {
    PlainText(s);
    hide ReadUnsigned, Trim, RadixOf;
  }

  /** Digits, perhaps with a point among them and a sign before them, have the value
      they spell. */
  lemma DecimalReads(sign: string, whole: string, frac: string)
    requires sign == "" || sign == "+" || sign == "-"
    requires whole != "" && AllDigits(whole) && AllDigits(frac)
    ensures AllDigits(whole + frac)
    ensures var read := Read(sign + (whole + PointThen(frac)));
            var value := Times10(Parse(whole + frac, 10), -|frac|);
            read.Some? && AsReal(read.value) == if sign == "-" then -value else value
  {
    UnsignedReads(whole, frac);
    var digits := whole + PointThen(frac);
    var s := sign + digits;
    assert digits[0] == whole[0] && whole[0] in whole;
    assert forall c <- digits :: NumberChar(c);
    assert forall c <- s :: NumberChar(c);
    PlainReads(s);
    hide Read, ReadUnsigned, Parse, Times10;
    if sign == "" {
      assert s == digits;
    } else {
      assert s[1..] == digits;
      TimesMinus(ReadUnsigned(digits).value);
    }
  }

  function Signed(sign: string, digits: string): int
    requires AllDigits(digits)
  {
    var value: int := Parse(digits, 10);
    if sign == "-" then -value else value
  }

  lemma ReadsExponent(mark: string, sign: string, digits: string)
    requires mark == "e" || mark == "E"
    requires sign == "" || sign == "+" || sign == "-"
    requires digits != "" && AllDigits(digits)
    ensures ReadExponent(mark + (sign + digits)) == Some(Signed(sign, digits))
  {
    assert (mark + (sign + digits))[1..] == sign + digits;
    assert digits[0] in digits;
    if sign == "" {
      assert sign + digits == digits;
    } else {
      assert (sign + digits)[1..] == digits;
    }
    hide Parse;
  }

  lemma ValueOfDecimal(whole: string, frac: string, exponent: int)
    requires AllDigits(whole + frac)
    ensures AsReal(Decimal(whole + frac, |frac|, exponent)) == Times10(Parse(whole + frac, 10), exponent - |frac|)
  {
    NormaliseKeepsValue(Parse(whole + frac, 10), exponent - |frac|);
  }

  lemma JoinedPoint(whole: string, frac: string, tail: string)
    ensures frac == "" ==> whole + PointThen(frac) + tail == whole + tail && whole + frac == whole
    ensures frac != "" ==> whole + PointThen(frac) + tail == whole + "." + frac + tail
  {
  }

  /** An exponent, its letter in either case, moves the point. */
  lemma ExponentReads(whole: string, frac: string, mark: string, sign: string, digits: string)
    requires whole != "" && AllDigits(whole) && AllDigits(frac)
    requires mark == "e" || mark == "E"
    requires sign == "" || sign == "+" || sign == "-"
    requires digits != "" && AllDigits(digits)
    ensures AllDigits(whole + frac)
    ensures var read := ReadUnsigned(whole + PointThen(frac) + (mark + (sign + digits)));
            read.Some? && AsReal(read.value) == Times10(Parse(whole + frac, 10), Signed(sign, digits) - |frac|)
  {
    var tail := mark + (sign + digits);
    var exponent := Signed(sign, digits);
    ReadsExponent(mark, sign, digits);
    assert tail[0] == mark[0];
    hide *;
    ReadsAsDecimal(whole, frac, tail, exponent);
    ValueOfDecimal(whole, frac, exponent);
    JoinedPoint(whole, frac, tail);
  }

  /** Digits are needed: none after the letter of an exponent, or none at all, is no number. */
  lemma DigitsAreNeeded(whole: string)
    requires AllDigits(whole)
    ensures ReadUnsigned(whole + "e") == None && ReadUnsigned(whole + "e+") == None
    ensures ReadUnsigned(".") == None && ReadUnsigned("") == None
  {
    LeadDigitsOf(whole, "e");
    LeadDigitsOf(whole, "e+");
    assert (whole + "e")[|whole|..] == "e" && (whole + "e+")[|whole|..] == "e+";
    assert "e"[1..] == "" && "e+"[1..] == "+" && "+"[1..] == "" && "."[1..] == "";
    assert LeadDigits("") == 0 && LeadDigits(".") == 0;
    assert ""[..0] == "" && "."[..0] == "";
  }

  lemma RadixReads(prefix: string, digits: string, base: nat)
    requires (prefix, base) in {("0x", 16), ("0X", 16), ("0o", 8), ("0O", 8), ("0b", 2), ("0B", 2)}
    requires digits != "" && forall c <- digits :: RadixDigit(c) < base
    ensures Read(prefix + digits) == Some(OfInt(ReadRadix(digits, base)))
  {
    var s := prefix + digits;
    assert s[2..] == digits && Last(s) == Last(digits) && Last(digits) in digits;
    assert RadixDigit(Last(s)) < 16;
    assert !IsJsSpace(Last(s));
    TrimOfTrimmed(s, IsJsSpace);
    hide Trim, ReadUnsigned, ReadRadix, OfInt, RadixDigit;
  }

  /** A radix prefix alone is no number. */
  lemma PrefixNeedsDigits()
    ensures Read("0x") == None && Read("0o") == None && Read("0b") == None
  {
    TrimOfTrimmed("0x", IsJsSpace);
    TrimOfTrimmed("0o", IsJsSpace);
    TrimOfTrimmed("0b", IsJsSpace);
  }

  /** A sign before a radix prefix makes it no number. */
  lemma SignedRadix(sign: char, s: string)
    requires sign == '-' || sign == '+'
    requires |s| > 2 && s[0] == '0' && s[1] in "xXoObB" && !IsJsSpace(Last(s))
    ensures Read([sign] + s) == None
  {
    var t := [sign] + s;
    assert Last(t) == Last(s);
    TrimOfTrimmed(t, IsJsSpace);
    assert t[1..] == s;
    assert s == ['0'] + s[1..];
    LeadDigitsOf("0", s[1..]);
    assert "0" + s[1..] == s;
    assert s[LeadDigits(s)..] == s[1..] && s[1..][0] == s[1];
  }

  /** Binary and octal digits have the value they spell. */
  lemma {:induction false} RadixIsParse(s: string, base: nat)
    requires AllDigits(s)
    ensures ReadRadix(s, base) == Parse(s, base)
  {
    if s != "" {
      assert Last(s) in s;
      assert forall c <- Init(s) :: c in s;
      RadixIsParse(Init(s), base);
    }
  }

  lemma RadixNumeralReads(n: nat)
    ensures Read("0b" + Numeral(n, 2)) == Some(OfInt(n)) && Read("0o" + Numeral(n, 8)) == Some(OfInt(n))
  {
    ParseNumeral(n, 2);
    ParseNumeral(n, 8);
    RadixIsParse(Numeral(n, 2), 2);
    RadixIsParse(Numeral(n, 8), 8);
    hide Numeral, Parse, ReadRadix, Read;
    RadixReads("0b", Numeral(n, 2), 2);
    RadixReads("0o", Numeral(n, 8), 8);
  }

  /** The hexadecimal digits, either case, are worth what they are in order. */
  lemma HexDigits(i: nat)
    requires i < 16
    ensures RadixDigit("0123456789abcdef"[i]) == i == RadixDigit("0123456789ABCDEF"[i])
  {
  }

  predicate ExponentChar(c: char) {
    NumberChar(c) || c == 'E'
  }

  lemma ExponentChars(s: string)
    requires ReadExponent(s).Some?
    ensures forall c <- s :: ExponentChar(c)
  {
    if s != "" {
      assert s == [s[0]] + s[1..];
      if s[1..] != "" && (s[1] == '+' || s[1] == '-') {
        assert s[1..] == [s[1]] + s[1..][1..];
      }
    }
  }

  lemma FractionSplits(rest: string)
    ensures var f := ReadFraction(rest);
            AllDigits(f) && (rest == AfterFraction(rest) || rest == "." + f + AfterFraction(rest))
  {
  }

  lemma UnsignedChars(s: string)
    requires ReadUnsigned(s).Some?
    ensures forall c <- s :: ExponentChar(c)
  {
    var whole, rest := s[..LeadDigits(s)], s[LeadDigits(s)..];
    assert s == whole + rest;
    FractionSplits(rest);
    assert ReadExponent(AfterFraction(rest)).Some?;
    hide ReadUnsigned, LeadDigits, ReadExponent, AfterFraction, ReadFraction;
    ExponentChars(AfterFraction(rest));
  }

  predicate HexChar(c: char) {
    RadixDigit(c) < 16 || c in "xXoObB"
  }

  /** Nothing else is a number: one character that belongs in none, blanks around it
      apart, and the whole text is none. */
  lemma OtherTextsAreNoNumbers(s: string)
    ensures Read(s).Some? ==> forall c <- Trim(s) :: ExponentChar(c) || HexChar(c)
  {
    var t := Trim(s);
    hide Trim, ReadUnsigned;
    if Read(s).Some? && t != "" {
      assert t == [t[0]] + t[1..];
      if RadixOf(t) > 0 {
        assert t == t[..2] + t[2..];
        assert forall c <- t[..2] :: c == t[0] || c == t[1];
      } else if t[0] == '-' || t[0] == '+' {
        UnsignedChars(t[1..]);
      } else {
        UnsignedChars(t);
      }
    }
  }

  /** Blanks around a number make no difference, and nothing but blanks is zero. */
  lemma BlanksAround(before: string, s: string, after: string)
    requires AllBlank(before, IsJsSpace) && AllBlank(after, IsJsSpace) && Trimmed(s)
    ensures Read(before + s + after) == Read(s)
    ensures Read("") == Some(ZERO)
  {
    TrimAround(before, s, after, IsJsSpace);
    TrimOfTrimmed(s, IsJsSpace);
    TrimOfTrimmed("", IsJsSpace);
  }

  // --------------------------------------------------------------------- printing

  lemma DigitsHaveNoExponent(s: string)
    requires AllDigits(s)
    ensures 'e' !in s
  {
  }

  lemma NumeralIsDigits(n: nat)
    ensures AllDigits(Numeral(n, 10))
  {
    ParseNumeral(n, 10);
  }

  /** A number is printed with an exponent exactly when its first digit stands more than
      twenty-one places before the point or more than six after it. */
  lemma ExponentIsPrintedExactly(d: Number)
    ensures 'e' in Print(d) <==>
              var places := |Numeral(Abs(d.m), 10)| + d.e;
              d.m != 0 && (places > 21 || places <= -6)
  {
    if d.m != 0 {
      var s := Numeral(Abs(d.m), 10);
      NumeralIsDigits(Abs(d.m));
      var k, n := |s|, |s| + d.e;
      hide Numeral;
      assert 'e' !in s by { DigitsHaveNoExponent(s); }
      assert forall z: nat :: 'e' !in Zeros(z);
      assert forall i | 0 <= i <= |s| :: 'e' !in s[..i] && 'e' !in s[i..];
      if n > 21 || n <= -6 {
        assert 'e' == ExponentText(n - 1)[0];
      }
    }
  }

  // --------------------------------------------------------------- grouping marks

  lemma {:induction false} RemoveAll(s: string, drop: char -> bool)
    requires forall c <- s :: drop(c)
    ensures Remove(s, drop) == ""
  {
    if s != "" {
      assert s[0] in s;
      RemoveAll(s[1..], drop);
    }
  }

  predicate Typed(s: string) {
    forall c <- s :: NumberChar(c) || c == ',' || c == ' '
  }

  lemma TrimThenRemove(s: string)
    requires Typed(s)
    ensures Remove(Trim(s), IsGroupMark) == Remove(s, IsGroupMark)
  {
    var before, after := TrimTakesBlanks(s, IsJsSpace);
    assert forall c <- before :: c in s && c == ' ' by {
      assert forall c <- before :: c in s && IsJsSpace(c);
    }
    assert forall c <- after :: c in s && c == ' ' by {
      assert forall c <- after :: c in s && IsJsSpace(c);
    }
    hide Trim, Remove, TrimBy;
    RemoveAppend(before + Trim(s), after, IsGroupMark);
    RemoveAppend(before, Trim(s), IsGroupMark);
    RemoveAll(before, IsGroupMark);
    RemoveAll(after, IsGroupMark);
  }

  lemma MarkIsRemoved(a: string, mark: string, b: string)
    requires mark == "," || mark == " "
    ensures Remove(a + mark + b, IsGroupMark) == Remove(a + b, IsGroupMark)
  {
    RemoveAll(mark, IsGroupMark);
    hide Remove;
    RemoveAppend(a + mark, b, IsGroupMark);
    RemoveAppend(a, mark, IsGroupMark);
    RemoveAppend(a, b, IsGroupMark);
  }

  /** Nothing but blanks is no answer. */
  lemma BlankIsNoAnswer(s: string)
    requires AllBlank(s, IsJsSpace)
    ensures N(s) == None
  {
    TrimAround(s, "", "", IsJsSpace);
    assert s + "" + "" == s;
    NothingReadsAsNone();
  }

  /** Commas and spaces typed anywhere in a number make no difference. */
  lemma GroupMarksDoNotMatter(a: string, mark: string, b: string)
    requires Typed(a) && Typed(b) && (mark == "," || mark == " ")
    ensures N(a + mark + b) == N(a + b)
    ensures N("").None?
  {
    NothingReadsAsNone();
    assert Typed(a + mark + b) && Typed(a + b);
    hide Trim, Read, Remove, Typed;
    TrimThenRemove(a + mark + b);
    TrimThenRemove(a + b);
    MarkIsRemoved(a, mark, b);
  }
}
