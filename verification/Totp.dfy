/** One-time passwords: the browser's generator (`totpCode`) against RFC 4226 and
    RFC 6238. HMAC is any function to twenty bytes. */
module Totp {
  import opened Wrappers
  import opened Numerals
  import opened Int32
  import opened Base32

  type Digest = d: seq<Byte> | |d| == 20 witness seq(20, _ => 0)

  type Hmac = (seq<Byte>, seq<Byte>) -> Digest

  // --------------------------------------------------------- RFC 4226 section 5.3

  /** A big-endian unsigned integer. */
  function BigEndian(bytes: seq<Byte>): nat {
    if bytes == [] then 0 else Shift(BigEndian(Init(bytes)), 256, Last(bytes))
  }

  /** The `n` bytes whose big-endian value is `value`, modulo 256 to the `n`. */
  function ToBytes(value: nat, n: nat): (bytes: seq<Byte>)
    ensures |bytes| == n
  {
    if n == 0 then [] else ToBytes(value / 256, n - 1) + [value % 256]
  }

  /** The last 31 bits of the four bytes at the offset the last nibble gives. */
  function RfcTruncate(h: Digest): nat {
    var offset := h[19] % 16;
    BigEndian(h[offset..offset + 4]) % TWO31
  }

  /** The example of RFC 4226 section 5.4. */
  lemma RfcExample(h: Digest)
    requires h == [0x1f, 0x86, 0x98, 0x69, 0x0e, 0x02, 0xca, 0x16, 0x61, 0x85,
                   0x50, 0xef, 0x7f, 0x19, 0xda, 0x8e, 0x94, 0x5b, 0x55, 0x5a]
    ensures RfcTruncate(h) == 0x50ef7f19 && RfcTruncate(h) % 1_000_000 == 872921
  {
    var four := h[10..14];
    assert four == [0x50, 0xef, 0x7f, 0x19];
    assert Init(four) == [0x50, 0xef, 0x7f] && Init(Init(four)) == [0x50, 0xef];
    assert Init(Init(Init(four))) == [0x50] && Init(Init(Init(Init(four)))) == [];
    assert BigEndian([0x50]) == 0x50;
    assert BigEndian([0x50, 0xef]) == 0x50ef;
    assert BigEndian([0x50, 0xef, 0x7f]) == 0x50ef7f;
    assert BigEndian(four) == 0x50ef7f19;
  }

  const MODULUS := 1_000_000

  /** The HOTP value: six decimal digits. */
  function Hotp(hmac: Hmac, key: seq<Byte>, counter: nat): string {
    PadStart(Numeral(RfcTruncate(hmac(key, ToBytes(counter, 8))) % MODULUS, 10), 6)
  }

  lemma ModulusIsPower()
    ensures Pow(10, 6) == MODULUS
  {
    assert Pow(10, 2) == 100;
    assert Pow(10, 4) == 10000;
  }

  /** Always exactly six digits, spelling the truncated value modulo a million. */
  lemma HotpIsSixDigits(hmac: Hmac, key: seq<Byte>, counter: nat)
    ensures var code := Hotp(hmac, key, counter);
            && |code| == 6 && AllDigits(code)
            && Parse(code, 10) == RfcTruncate(hmac(key, ToBytes(counter, 8))) % 1_000_000
  {
    ModulusIsPower();
    Padded(RfcTruncate(hmac(key, ToBytes(counter, 8))) % MODULUS, 10, 6);
  }

  // ----------------------------------------------------------------- the browser

  lemma Powers()
    ensures Pow(2, 4) == 0x10 && Pow(2, 7) == 0x80 && Pow(2, 8) == 0x100
    ensures Pow(2, 16) == 0x1_0000 && Pow(2, 24) == 0x100_0000
  {
    Pow2();
    assert Pow(2, 4) == 2 * Pow(2, 3) && Pow(2, 5) == 2 * Pow(2, 4) && Pow(2, 8) == 2 * Pow(2, 7);
    assert Pow(2, 10) == 4 * Pow(2, 8) && Pow(2, 12) == 4 * Pow(2, 10) && Pow(2, 14) == 4 * Pow(2, 12);
    assert Pow(2, 16) == 4 * Pow(2, 14) && Pow(2, 18) == 4 * Pow(2, 16) && Pow(2, 20) == 4 * Pow(2, 18);
    assert Pow(2, 22) == 4 * Pow(2, 20) && Pow(2, 24) == 4 * Pow(2, 22);
  }

  lemma ByteMasks(x: Byte)
    ensures BitAnd(x, 0x0f) == x % 16 && BitAnd(x, 0x7f) == x % 128 && BitAnd(x, 0xff) == x
  {
    hide BitAnd, Pow;
    Powers();
    Mask(x, 4);
    Mask(x, 7);
    Mask(x, 8);
  }

  /** Four masked bytes put together with shifts and ors; every read is in bounds. */
  function Truncated(h: Digest): int {
    ByteMasks(h[19]);
    var offset := BitAnd(h[19], 0x0f);
    BitOr(BitOr(BitOr(ShiftLeft(BitAnd(h[offset], 0x7f), 24),
                      ShiftLeft(BitAnd(h[offset + 1], 0xff), 16)),
                ShiftLeft(BitAnd(h[offset + 2], 0xff), 8)),
          BitAnd(h[offset + 3], 0xff))
  }

  lemma BigEndianOfFour(a: Byte, b: Byte, c: Byte, d: Byte)
    ensures BigEndian([a, b, c, d]) == a * 0x100_0000 + b * 0x1_0000 + c * 0x100 + d
  {
    assert Init([a, b, c, d]) == [a, b, c] && Init([a, b, c]) == [a, b] && Init([a, b]) == [a] && Init([a]) == [];
    assert BigEndian([a]) == a;
    assert BigEndian([a, b]) == a * 0x100 + b;
    assert BigEndian([a, b, c]) == a * 0x1_0000 + b * 0x100 + c;
  }

  lemma OrOfFourBytes(a: nat, b: Byte, c: Byte, d: Byte)
    requires a < 128
    ensures BitOr(BitOr(BitOr(ShiftLeft(a, 24), ShiftLeft(b, 16)), ShiftLeft(c, 8)), d)
            == a * 0x100_0000 + b * 0x1_0000 + c * 0x100 + d
  {
    hide BitOr, ShiftLeft, Pow;
    Powers();
    SmallShift(a, 24);
    SmallShift(b, 16);
    SmallShift(c, 8);
    OrAdds(a, b * 0x1_0000, 24);
    OrAdds(a * 0x100 + b, c * 0x100, 16);
    OrAdds(a * 0x1_0000 + b * 0x100 + c, d, 8);
  }

  lemma TopBitCleared(a: nat, rest: nat)
    requires rest < 0x100_0000
    ensures (a * 0x100_0000 + rest) % TWO31 == a % 128 * 0x100_0000 + rest
  {
  }

  /** The shifts and ors compute the RFC's 31-bit integer for every digest. */
  lemma TruncationIsRfc4226(h: Digest)
    ensures Truncated(h) == RfcTruncate(h)
  {
    hide BitOr, BitAnd, ShiftLeft, BigEndian;
    ByteMasks(h[19]);
    var offset := h[19] % 16;
    var a, b, c, d := h[offset], h[offset + 1], h[offset + 2], h[offset + 3];
    ByteMasks(a);
    ByteMasks(b);
    ByteMasks(c);
    ByteMasks(d);
    OrOfFourBytes(a % 128, b, c, d);
    assert h[offset..offset + 4] == [a, b, c, d];
    BigEndianOfFour(a, b, c, d);
    TopBitCleared(a as int, (b as int) * 0x1_0000 + (c as int) * 0x100 + d as int);
  }

  function CounterBytes(counter: int): seq<Byte> {
    ToBytes(0, 4) + ToBytes(ToUint32(counter), 4)
  }

  lemma ToBytesOfWord(word: nat)
    requires word < TWO32
    ensures ToBytes(word, 4) == [word / 0x100_0000, word / 0x1_0000 % 256, word / 0x100 % 256, word % 256]
    ensures ToBytes(0, 4) == [0, 0, 0, 0]
  {
    var a, b, c := word / 256, word / 256 / 256, word / 256 / 256 / 256;
    assert ToBytes(c, 1) == [c % 256] && ToBytes(b, 2) == [c % 256, b % 256];
    assert ToBytes(a, 3) == [c % 256, b % 256, a % 256];
    assert ToBytes(0, 1) == [0] && ToBytes(0, 2) == [0, 0] && ToBytes(0, 3) == [0, 0, 0];
  }

  /** `setUint32(4, counter)` on eight zero bytes. */
  method CounterBuffer(counter: int) returns (buffer: array<Byte>)
    ensures fresh(buffer) && buffer.Length == 8
    ensures buffer[..] == CounterBytes(counter)
  {
    buffer := new Byte[8](_ => 0);
    var word := ToUint32(counter);
    buffer[4], buffer[5] := word / 0x100_0000, word / 0x1_0000 % 256;
    buffer[6], buffer[7] := word / 0x100 % 256, word % 256;
    ToBytesOfWord(word);
  }

  lemma RemainderStep(value: nat, p: nat)
    requires p > 0
    ensures value % (256 * p) == value / 256 % p * 256 + value % 256
  {
    var q, r := value / 256 / p, value / 256 % p;
    assert value == 256 * p * q + (256 * r + value % 256);
    RemainderIs(value, 256 * p, q, 256 * r + value % 256);
  }

  lemma {:induction false} BigEndianOfBytes(value: nat, n: nat)
    ensures Pow(256, n) > 0 && BigEndian(ToBytes(value, n)) == value % Pow(256, n)
  {
    if n > 0 {
      BigEndianOfBytes(value / 256, n - 1);
      assert Init(ToBytes(value, n)) == ToBytes(value / 256, n - 1);
      RemainderStep(value, Pow(256, n - 1));
    }
  }

  lemma {:induction false} BigEndianOfZeros(n: nat, bytes: seq<Byte>)
    ensures BigEndian(ToBytes(0, n) + bytes) == BigEndian(bytes)
    decreases n + |bytes|
  {
    if bytes != [] {
      assert Init(ToBytes(0, n) + bytes) == ToBytes(0, n) + Init(bytes);
      BigEndianOfZeros(n, Init(bytes));
    } else if n > 0 {
      assert ToBytes(0, n) + bytes == ToBytes(0, n - 1) + [0];
      assert Init(ToBytes(0, n - 1) + [0]) == ToBytes(0, n - 1) + bytes;
      BigEndianOfZeros(n - 1, bytes);
    }
  }

  lemma {:induction false} SameBytes(a: seq<Byte>, b: seq<Byte>)
    requires |a| == |b| && BigEndian(a) == BigEndian(b)
    ensures a == b
  {
    if a != [] {
      ShiftInjective(BigEndian(Init(a)), BigEndian(Init(b)), 256, Last(a), Last(b));
      hide Shift;
      SameBytes(Init(a), Init(b));
      assert a == Init(a) + [Last(a)] && b == Init(b) + [Last(b)];
    }
  }

  /** The buffer is the RFC's eight-byte counter exactly below 2^32. */
  lemma CounterIsRightBelowTwo32(counter: nat)
    requires counter < Pow(256, 8)
    ensures CounterBytes(counter) == ToBytes(counter, 8) <==> counter < TWO32
  {
    hide BigEndian, ToBytes;
    BigEndianOfBytes(counter, 8);
    BigEndianOfZeros(4, ToBytes(ToUint32(counter), 4));
    BigEndianOfBytes(ToUint32(counter), 4);
    assert Pow(256, 4) == TWO32 by { assert Pow(256, 2) == 0x1_0000; }
    if counter < TWO32 {
      SameBytes(CounterBytes(counter), ToBytes(counter, 8));
    }
  }

  const STEP_MS := 30_000

  function BrowserCode(hmac: Hmac, secret: string, at: int): string {
    PadStart(Numeral(Truncated(hmac(Decoded(secret), CounterBytes(at / 1000 / 30))) % MODULUS, 10), 6)
  }

  /** `totpCode(secret, at)`, `at` in milliseconds. */
  method TotpCode(hmac: Hmac, secret: string, at: int) returns (code: string)
    ensures code == BrowserCode(hmac, secret, at)
  {
    var key := DecodeBase32(secret);
    var counter := at / 1000 / 30;
    var buffer := CounterBuffer(counter);
    var truncated := Truncated(hmac(key[..], buffer[..]));
    code := PadStart(Numeral(truncated % MODULUS, 10), 6);
  }

  /** The browser computes the RFC 6238 code of the step it is in, for any way of
      writing the key, until the counter passes 2^32. */
  lemma BrowserCodeIsRfc6238(hmac: Hmac, key: seq<Byte>, secret: string, at: nat)
    requires Decorates(secret, Encode(key)) && at / 30_000 < TWO32
    ensures BrowserCode(hmac, secret, at) == Hotp(hmac, key, at / 30_000)
  {
    hide Truncated, RfcTruncate, Decoded, Decorates, CounterBytes, ToBytes, Numeral;
    DecodeInvertsEncode(key, secret);
    assert at / 1000 / 30 == at / STEP_MS;
    assert Pow(256, 8) >= TWO32 by {
      assert Pow(256, 2) == 0x1_0000;
      assert Pow(256, 4) == 0x1_0000 * Pow(256, 2);
      assert Pow(256, 6) == 0x1_0000 * Pow(256, 4);
      assert Pow(256, 8) == 0x1_0000 * Pow(256, 6);
    }
    CounterIsRightBelowTwo32(at / STEP_MS);
    TruncationIsRfc4226(hmac(key, ToBytes(at / STEP_MS, 8)));
  }
}
