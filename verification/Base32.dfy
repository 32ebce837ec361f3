/** The browser's base32 decoder, against the encoder of RFC 4648 section 6. */
module Base32 {
  import opened Wrappers
  import opened Text
  import opened Numerals

  type Byte = x: int | 0 <= x < 256

  const ALPHABET := "ABCDEFGHIJKLMNOPQRSTUVWXYZ234567"

  lemma AlphabetAt(v: nat)
    requires v < 32
    ensures ALPHABET[v] == if v < 26 then ('A' as int + v) as char else ('2' as int + (v - 26)) as char
  {
  }

  predicate Separator(c: char) {
    IsJsSpace(c) || c == '=' || c == '-'
  }

  /** `ALPHABET.indexOf(char)`: a value below 32, or -1 for a character outside the alphabet. */
  function SymbolValue(c: char): (v: int)
    ensures -1 <= v < 32
  {
    IndexOf(ALPHABET, [c])
  }

  lemma SymbolOfAlphabet(v: nat)
    requires v < 32
    ensures SymbolValue(ALPHABET[v]) == v
  {
    hide IndexOf;
    var c := ALPHABET[v];
    OccursChar(ALPHABET, c, v);
    AlphabetAt(v);
    forall j | 0 <= j < v ensures !OccursAt(ALPHABET, [c], j) {
      OccursChar(ALPHABET, c, j);
      AlphabetAt(j);
    }
    FirstOccurrence(ALPHABET, [c], v);
  }

  lemma SeparatorIsNoSymbol(c: char)
    requires Separator(c)
    ensures SymbolValue(c) == -1
  {
    hide IndexOf;
    IndexOfFirst(ALPHABET, [c]);
    var v := SymbolValue(c);
    if v != -1 {
      OccursChar(ALPHABET, c, v);
      AlphabetAt(v);
    }
  }

  // ------------------------------------------------------------------- decoding

  predicate BitString(s: string) {
    AllBelow(s, 2)
  }

  /** `value.toString(2).padStart(5, "0")`, or nothing for a skipped character. */
  function CharBits(c: char): string {
    if SymbolValue(c) < 0 then "" else PadStart(Numeral(SymbolValue(c), 2), 5)
  }

  lemma Pow2()
    ensures Pow(2, 5) == 32 && Pow(2, 8) == 256
  {
    assert Pow(2, 4) == 16;
    assert Pow(2, 6) == 64;
    assert Pow(2, 8) == 256;
  }

  lemma CharBitsAreFive(c: char)
    ensures BitString(CharBits(c)) && |CharBits(c)| == if SymbolValue(c) < 0 then 0 else 5
    ensures SymbolValue(c) >= 0 ==> Parse(CharBits(c), 2) == SymbolValue(c)
  {
    if SymbolValue(c) >= 0 {
      assert Pow(2, 5) == 32 by { Pow2(); }
      Padded(SymbolValue(c), 2, 5);
    }
  }

  function SymbolBits(s: string): string {
    if s == [] then "" else SymbolBits(Init(s)) + CharBits(Last(s))
  }

  lemma {:induction false} SymbolBitsAreBits(s: string)
    ensures BitString(SymbolBits(s))
  {
    hide CharBits;
    if s != [] {
      SymbolBitsAreBits(Init(s));
      CharBitsAreFive(Last(s));
    }
  }

  function Cleaned(secret: string): string {
    Remove(UpperCase(secret), Separator)
  }

  function ByteAt(bits: string, i: nat): Byte
    requires BitString(bits) && 8 * i + 8 <= |bits|
  {
    ParseBound(bits[8 * i..8 * i + 8], 2);
    Pow2();
    Parse(bits[8 * i..8 * i + 8], 2)
  }

  /** Whole bytes; the leftover bits, fewer than eight, are dropped. */
  function Unpacked(bits: string): seq<Byte>
    requires BitString(bits)
  {
    seq(|bits| / 8, i requires 0 <= i < |bits| / 8 => ByteAt(bits, i))
  }

  function Decoded(secret: string): seq<Byte> {
    SymbolBitsAreBits(Cleaned(secret));
    Unpacked(SymbolBits(Cleaned(secret)))
  }

  lemma SkippedBits(c: char)
    requires SymbolValue(c) < 0
    ensures CharBits(c) == ""
  {
  }

  lemma SpelledBits(c: char)
    requires SymbolValue(c) >= 0
    ensures CharBits(c) == PadStart(Numeral(SymbolValue(c), 2), 5)
  {
  }

  method DecodeBase32(secret: string) returns (bytes: array<Byte>)
    ensures fresh(bytes)
    ensures bytes[..] == Decoded(secret)
  {
    hide CharBits, Parse, Numeral, Remove;
    var cleaned := Cleaned(secret);
    var bits := "";
    for n := 0 to |cleaned|
      invariant bits == SymbolBits(cleaned[..n])
    {
      var value := SymbolValue(cleaned[n]);
      assert Init(cleaned[..n + 1]) == cleaned[..n];
      if value < 0 {
        assert CharBits(cleaned[n]) == "" by { SkippedBits(cleaned[n]); }
        continue;
      }
      assert CharBits(cleaned[n]) == PadStart(Numeral(value, 2), 5) by { SpelledBits(cleaned[n]); }
      bits := bits + PadStart(Numeral(value, 2), 5);
    }
    assert cleaned[..|cleaned|] == cleaned;
    SymbolBitsAreBits(cleaned);
    bytes := new Byte[|bits| / 8];
    for i := 0 to bytes.Length
      invariant bytes[..i] == Unpacked(bits)[..i]
    {
      bytes[i] := ByteAt(bits, i);
    }
  }

  // ------------------------------------------------- encoding, RFC 4648 section 6

  function EightBits(b: Byte): (s: string)
    ensures |s| == 8 && BitString(s) && Parse(s, 2) == b
  {
    Pow2();
    Padded(b, 2, 8);
    PadStart(Numeral(b, 2), 8)
  }

  function BitsOf(bytes: seq<Byte>): (s: string)
    ensures |s| == 8 * |bytes| && BitString(s)
  {
    if bytes == [] then "" else BitsOf(Init(bytes)) + EightBits(Last(bytes))
  }

  /** The group of five bits as a character; a short last group is filled with zero bits. */
  function GroupChar(group: string): char
    requires BitString(group) && |group| == 5
  {
    ParseBound(group, 2);
    Pow2();
    ALPHABET[Parse(group, 2)]
  }

  function Groups(bits: string): string
    requires BitString(bits)
    decreases |bits|
  {
    if bits == [] then ""
    else if |bits| < 5 then [GroupChar(bits + Zeros(5 - |bits|))]
    else [GroupChar(bits[..5])] + Groups(bits[5..])
  }

  function Padding(n: nat): (s: string)
    ensures |s| == n
  {
    seq(n, _ => '=')
  }

  /** The encoding is filled to a multiple of eight characters with "=". */
  function Encode(bytes: seq<Byte>): string {
    var symbols := Groups(BitsOf(bytes));
    symbols + Padding((8 - |symbols| % 8) % 8)
  }

  // ------------------------------------------------------------------- round trip

  /** A character none of whose capitals is in the alphabet: blanks, dashes, padding
      and most others, but not 'ß' or 'ſ', whose capitals are letters S. */
  predicate Silent(c: char) {
    forall u <- Uppercased(c) :: SymbolValue(u) < 0
  }

  lemma NoSymbolBeyondAscii(u: char)
    requires u >= '\U{80}'
    ensures SymbolValue(u) == -1
  {
    hide IndexOf;
    IndexOfFirst(ALPHABET, [u]);
    var v := SymbolValue(u);
    if v != -1 {
      OccursChar(ALPHABET, u, v);
      AlphabetAt(v);
    }
  }

  /** The characters beyond ASCII that are read as letters, all of them. */
  lemma LoudBeyondAscii(c: char)
    requires c >= '\U{80}'
    ensures !Silent(c) <==>
              || c == '\U{DF}' || c == '\U{131}' || c == '\U{149}' || c == '\U{17F}' || c == '\U{1F0}'
              || '\U{1E96}' <= c <= '\U{1E9A}' || '\U{FB00}' <= c <= '\U{FB06}'
  {
    forall v: nat | v < 26 ensures SymbolValue(ALPHABET[v]) == v && ALPHABET[v] == ('A' as int + v) as char {
      SymbolOfAlphabet(v);
      AlphabetAt(v);
    }
    forall u: char | u >= '\U{80}' ensures SymbolValue(u) == -1 {
      NoSymbolBeyondAscii(u);
    }
    hide SymbolValue;
    if Uppercased(c) != [c] {
      var u := Uppercased(c)[if c == '\U{149}' then 1 else 0];
      assert 'A' <= u <= 'Z' && u in Uppercased(c);
      assert u == ALPHABET[u as int - 'A' as int];
    }
  }

  /** `s` is `code` with any letters in lower case, any silent characters put in, and
      any padding left out. */
  predicate Decorates(s: string, code: string) {
    if s == [] then code == Padding(|code|)
    else
      || (Silent(s[0]) && Decorates(s[1..], code))
      || (code != [] && Uppercased(s[0]) == Uppercased(code[0]) && Decorates(s[1..], code[1..]))
  }

  /** The bits a string spells. */
  function Spelled(s: string): string {
    SymbolBits(Cleaned(s))
  }

  lemma {:induction false} SymbolBitsAppend(a: string, b: string)
    ensures SymbolBits(a + b) == SymbolBits(a) + SymbolBits(b)
    decreases |b|
  {
    hide CharBits;
    if b == [] {
      assert a + b == a;
    } else {
      assert Init(a + b) == a + Init(b) && Last(a + b) == Last(b);
      SymbolBitsAppend(a, Init(b));
      var x, y, z := SymbolBits(a), SymbolBits(Init(b)), CharBits(Last(b));
      assert x + y + z == x + (y + z);
    }
  }

  /** The bits one character spells once it is in upper case. */
  function Spells(c: char): string {
    SymbolBits(Remove(Uppercased(c), Separator))
  }

  lemma SpelledFirst(s: string)
    requires s != []
    ensures Spelled(s) == Spells(s[0]) + Spelled(s[1..])
  {
    hide CharBits, Uppercased, SymbolBits, Remove;
    RemoveAppend(Uppercased(s[0]), UpperCase(s[1..]), Separator);
    SymbolBitsAppend(Remove(Uppercased(s[0]), Separator), Cleaned(s[1..]));
  }

  lemma {:induction false} NoSymbolsNoBits(u: string)
    requires forall c <- u :: SymbolValue(c) < 0
    ensures SymbolBits(u) == ""
  {
    if u != "" {
      hide CharBits, SymbolValue;
      assert Last(u) in u;
      SkippedBits(Last(u));
      NoSymbolsNoBits(Init(u));
    }
  }

  lemma SilentSpellsNothing(c: char)
    requires Silent(c)
    ensures Spells(c) == ""
  {
    hide SymbolValue, Uppercased, SymbolBits;
    NoSymbolsNoBits(Remove(Uppercased(c), Separator));
  }

  lemma PaddingIsSkipped()
    ensures Spells('=') == ""
  {
    hide IndexOf;
    SeparatorIsNoSymbol('=');
    assert Uppercased('=') == "=";
    SilentSpellsNothing('=');
  }

  lemma {:induction false} PaddingSpellsNothing(n: nat)
    ensures Spelled(Padding(n)) == ""
  {
    var code := Padding(n);
    if n == 0 {
      assert Cleaned(code) == "";
    } else {
      assert code[0] == '=' && code[1..] == Padding(n - 1);
      hide *;
      SpelledFirst(code);
      PaddingIsSkipped();
      PaddingSpellsNothing(n - 1);
    }
  }

  lemma SameCapitalsSpellTheSame(c: char, d: char)
    requires Uppercased(c) == Uppercased(d)
    ensures Spells(c) == Spells(d)
  {
  }

  lemma {:induction false} DecorationSpellsTheSame(s: string, code: string)
    requires Decorates(s, code)
    ensures Spelled(s) == Spelled(code)
    decreases |s|
  {
    hide CharBits, Cleaned, SymbolBits, Spells, Silent, Uppercased;
    if s == [] {
      PaddingSpellsNothing(|code|);
      PaddingSpellsNothing(0);
      assert Padding(0) == s;
    } else {
      SpelledFirst(s);
      if Silent(s[0]) && Decorates(s[1..], code) {
        SilentSpellsNothing(s[0]);
        DecorationSpellsTheSame(s[1..], code);
      } else {
        SpelledFirst(code);
        SameCapitalsSpellTheSame(s[0], code[0]);
        DecorationSpellsTheSame(s[1..], code[1..]);
      }
    }
  }

  lemma AlphabetSpellsItself(v: nat)
    requires v < 32
    ensures Spells(ALPHABET[v]) == CharBits(ALPHABET[v])
  {
    hide IndexOf, CharBits;
    var c := ALPHABET[v];
    AlphabetAt(v);
    assert Uppercased(c) == [c] && !Separator(c);
    RemoveNothing([c], Separator);
    assert Init([c]) == "";
  }

  lemma GroupSpellsItself(group: string)
    requires BitString(group) && |group| == 5
    ensures Spells(GroupChar(group)) == group
  {
    var v := Parse(group, 2);
    ParseBound(group, 2);
    Pow2();
    hide Parse, Numeral, Pow, IndexOf;
    AlphabetAt(v);
    AlphabetSpellsItself(v);
    SymbolOfAlphabet(v);
    CharBitsAreFive(ALPHABET[v]);
    ParseInjective(CharBits(ALPHABET[v]), group, 2);
  }

  /** The encoder's characters, with any padding, spell the bits and fewer than five zeros more. */
  lemma {:induction false} GroupsSpellTheBits(bits: string, n: nat)
    requires BitString(bits)
    ensures var s := Spelled(Groups(bits) + Padding(n));
            |bits| <= |s| < |bits| + 5 && s[..|bits|] == bits
    decreases |bits|
  {
    hide CharBits, Cleaned, SymbolBits, Spells, Parse, GroupChar;
    var code := Groups(bits) + Padding(n);
    if bits == [] {
      assert code == Padding(n);
      PaddingSpellsNothing(n);
    } else {
      SpelledFirst(code);
      if |bits| < 5 {
        var group := bits + Zeros(5 - |bits|);
        GroupSpellsItself(group);
        assert code[1..] == Padding(n);
        PaddingSpellsNothing(n);
      } else {
        GroupSpellsItself(bits[..5]);
        assert code[1..] == Groups(bits[5..]) + Padding(n);
        GroupsSpellTheBits(bits[5..], n);
        assert bits == bits[..5] + bits[5..];
      }
    }
  }

  lemma {:induction false} BitsOfAt(bytes: seq<Byte>, i: nat)
    requires i < |bytes|
    ensures BitsOf(bytes)[8 * i..8 * i + 8] == EightBits(bytes[i])
  {
    hide EightBits;
    if i < |bytes| - 1 {
      BitsOfAt(Init(bytes), i);
      assert BitsOf(bytes)[8 * i..8 * i + 8] == BitsOf(Init(bytes))[8 * i..8 * i + 8];
    }
  }

  lemma {:induction false} UnpackedBits(bytes: seq<Byte>, rest: string)
    requires BitString(rest) && |rest| < 8
    ensures Unpacked(BitsOf(bytes) + rest) == bytes
  {
    hide Parse, EightBits;
    var bits := BitsOf(bytes) + rest;
    forall i: nat | i < |bytes| ensures ByteAt(bits, i) == bytes[i] {
      BitsOfAt(bytes, i);
      assert bits[8 * i..8 * i + 8] == BitsOf(bytes)[8 * i..8 * i + 8];
    }
  }

  /** Decoding inverts the RFC 4648 encoding of every byte sequence, whatever case,
      spaces, dashes or padding the secret was written with. */
  lemma DecodeInvertsEncode(bytes: seq<Byte>, secret: string)
    requires Decorates(secret, Encode(bytes))
    ensures Decoded(secret) == bytes
  {
    hide CharBits, Cleaned, SymbolBits, Groups, Unpacked, BitsOf, Decorates;
    var symbols := Groups(BitsOf(bytes));
    var n := (8 - |symbols| % 8) % 8;
    assert Encode(bytes) == symbols + Padding(n);
    DecorationSpellsTheSame(secret, Encode(bytes));
    GroupsSpellTheBits(BitsOf(bytes), n);
    var bits := Spelled(secret);
    SymbolBitsAreBits(Cleaned(secret));
    var rest := bits[8 * |bytes|..];
    assert bits == BitsOf(bytes) + rest;
    UnpackedBits(bytes, rest);
  }

  lemma {:induction false} SpelledAppend(a: string, b: string)
    ensures Spelled(a + b) == Spelled(a) + Spelled(b)
  {
    hide CharBits, SymbolBits, Remove;
    UpperCaseAppend(a, b);
    RemoveAppend(UpperCase(a), UpperCase(b), Separator);
    SymbolBitsAppend(Cleaned(a), Cleaned(b));
  }

  lemma OneSymbol(c: char)
    ensures SymbolBits([c]) == CharBits(c)
  {
    hide CharBits;
    assert Init([c]) == "";
  }

  lemma {:induction false} SymbolIsSpelled(u: string, k: nat)
    requires k < |u| && SymbolValue(u[k]) >= 0
    ensures SymbolBits(Remove(u, Separator)) != ""
  {
    hide CharBits, IndexOf, Remove, SymbolBits;
    if Separator(u[k]) {
      SeparatorIsNoSymbol(u[k]);
    }
    assert u == u[..k] + [u[k]] + u[k + 1..];
    RemoveAppend(u[..k] + [u[k]], u[k + 1..], Separator);
    RemoveAppend(u[..k], [u[k]], Separator);
    RemoveNothing([u[k]], Separator);
    SymbolBitsAppend(Remove(u[..k], Separator) + [u[k]], Remove(u[k + 1..], Separator));
    SymbolBitsAppend(Remove(u[..k], Separator), [u[k]]);
    OneSymbol(u[k]);
    CharBitsAreFive(u[k]);
  }

  lemma SpellsIs(c: char)
    ensures Spells(c) == SymbolBits(Remove(Uppercased(c), Separator))
  {
  }

  /** A character may be put in anywhere without changing what a secret spells, if
      and only if it is silent. */
  lemma InsertionIsHarmlessIffSilent(c: char)
    ensures (forall a, b :: Spelled(a + [c] + b) == Spelled(a + b)) <==> Silent(c)
  {
    hide CharBits, IndexOf, Uppercased, SymbolBits, Cleaned, Spelled, Spells, Remove;
    assert [c][1..] == "";
    SpelledFirst([c]);
    PaddingSpellsNothing(0);
    assert Padding(0) == "" && [c] + "" == [c];
    if Silent(c) {
      SilentSpellsNothing(c);
      forall a, b ensures Spelled(a + [c] + b) == Spelled(a + b) {
        SpelledAppend(a + [c], b);
        SpelledAppend(a, [c]);
        SpelledAppend(a, b);
      }
    } else {
      var k :| 0 <= k < |Uppercased(c)| && SymbolValue(Uppercased(c)[k]) >= 0;
      SymbolIsSpelled(Uppercased(c), k);
      SpellsIs(c);
      assert Spelled("" + [c] + "") != Spelled("" + "") by {
        assert "" + [c] + "" == [c] && "" + "" == "";
      }
    }
  }

  /** The encoding itself is the plainest decoration. */
  lemma {:induction false} EncodingDecoratesItself(code: string)
    ensures Decorates(code, code)
  {
    if code != [] {
      EncodingDecoratesItself(code[1..]);
    }
  }
}
