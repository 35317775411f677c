/**
 The Base32 codec of the TOTP secrets (section 6 of RFC 4648), loops over a 32-bit
 accumulator that wraps, against the definition by bit strings.
 */
module Base32 {

  type Byte = n: int | 0 <= n < 256
  type Symbol = n: int | 0 <= n < 32

  const MAX_BASE32_SECRET_LENGTH := 4_096

  /* ---------- 32-bit integers, as the language's shifts treat them ---------- */

  function ToUint32(x: int): nat { x % 0x1_0000_0000 }

  function ToInt32(x: int): int {
    var u := ToUint32(x);
    if u >= 0x8000_0000 then u - 0x1_0000_0000 else u
  }

  function Doubled(x: int, n: nat): int
    decreases n
  {
    if n == 0 then x else Doubled(2 * x, n - 1)
  }

  function Halved(x: nat, n: nat): nat
    decreases n
  {
    if n == 0 then x else Halved(x / 2, n - 1)
  }

  function ShiftLeft(x: int, n: nat): int { ToInt32(Doubled(x, n)) }

  function ShiftRightUnsigned(x: int, n: nat): nat { Halved(ToUint32(x), n) }

  /** `x | low`, where the bits of `x` below `unit` are clear. */
  function WithLow(x: int, low: nat, unit: nat): int
    requires low < unit && x % unit == 0
  {
    x + low
  }

  /* ---------- bit strings ---------- */

  /** The low `n` bits of `v`, highest first. */
  function BitsOf(v: nat, n: nat): seq<bool> {
    if n == 0 then [] else BitsOf(v / 2, n - 1) + [v % 2 == 1]
  }

  function ByteBits(bytes: seq<Byte>): seq<bool> {
    if bytes == [] then [] else ByteBits(bytes[..|bytes| - 1]) + BitsOf(bytes[|bytes| - 1], 8)
  }

  function SymbolBits(symbols: seq<Symbol>): seq<bool> {
    if symbols == [] then [] else SymbolBits(symbols[..|symbols| - 1]) + BitsOf(symbols[|symbols| - 1], 5)
  }

  function Zeros(n: nat): seq<bool> { seq(n, _ => false) }

  /* ---------- the alphabet ---------- */

  const BASE32_ALPHABET := "ABCDEFGHIJKLMNOPQRSTUVWXYZ234567"

  function Letter(s: Symbol): char {
    if s < 26 then 'A' + s as char else '2' + (s - 26) as char
  }

  predicate IsLetter(c: char) { 'A' <= c <= 'Z' || '2' <= c <= '7' }

  function IndexOf(c: char): Symbol
    requires IsLetter(c)
  {
    if c <= '7' then c as int - '2' as int + 26 else c as int - 'A' as int
  }

  lemma AlphabetSpelled(s: Symbol)
    ensures Letter(s) == BASE32_ALPHABET[s]
    ensures IsLetter(Letter(s)) && IndexOf(Letter(s)) == s
  {
  }

  predicate AllLetters(text: string) { forall k :: 0 <= k < |text| ==> IsLetter(text[k]) }

  function SymbolsOf(text: string): (r: seq<Symbol>)
    requires AllLetters(text)
    ensures |r| == |text|
  {
    seq(|text|, k requires 0 <= k < |text| => IndexOf(text[k]))
  }

  /* ---------- the definition ---------- */

  /** The text's five-bit groups are the bytes' bits, with fewer than five zeros to fill the last group. */
  ghost predicate Encodes(text: string, bytes: seq<Byte>) {
    AllLetters(text) && exists z: nat :: z < 5 && SymbolBits(SymbolsOf(text)) == ByteBits(bytes) + Zeros(z)
  }

  function Padding(length: nat): string {
    seq((8 - length % 8) % 8, _ => '=')
  }

  /** The bare encoding or the one padded to a multiple of eight, not empty and not too long. */
  ghost predicate Acceptable(input: string, bytes: seq<Byte>) {
    && 0 < |input| <= 4_096
    && exists text: string :: Encodes(text, bytes) && (input == text || input == text + Padding(|text|))
  }

  /* ---------- bit arithmetic ---------- */

  lemma {:induction false} BitsLength(v: nat, n: nat)
    ensures |BitsOf(v, n)| == n
  {
    if n > 0 { BitsLength(v / 2, n - 1); }
  }

  lemma {:induction false} SplitBits(v: nat, m: nat, n: nat)
    ensures BitsOf(v, m + n) == BitsOf(Halved(v, n), m) + BitsOf(v, n)
  {
    if n > 0 {
      SplitBits(v / 2, m, n - 1);
    } else {
      assert BitsOf(v, m) + [] == BitsOf(v, m);
    }
  }

  function Pow2(n: nat): nat {
    if n == 0 then 1 else 2 * Pow2(n - 1)
  }

  /** The low bits do not depend on what is above them. */
  lemma {:induction false} LowBits(v: nat, j: nat, n: nat, k: nat, unit: nat)
    requires n <= k && unit == Pow2(k)
    ensures BitsOf(v + j * unit, n) == BitsOf(v, n)
    decreases n
  {
    if n > 0 {
      var half := Pow2(k - 1);
      var t := j * half;
      assert j * unit == j * (2 * half) == 2 * t;
      assert (v + 2 * t) / 2 == v / 2 + t && (v + 2 * t) % 2 == v % 2;
      LowBits(v / 2, j, n - 1, k - 1, half);
    }
  }

  lemma Pow2Values()
    ensures Pow2(5) == 32 && Pow2(8) == 256 && Pow2(24) == 0x100_0000 && Pow2(27) == 0x800_0000
  {
    assert Pow2(8) == 256;
    assert Pow2(16) == 0x1_0000;
    assert Pow2(24) == 0x100_0000;
    assert Pow2(27) == 0x800_0000;
  }

  /** Zeros below are what a shift to the left adds. */
  lemma {:induction false} DoubledBits(v: nat, m: nat, n: nat)
    decreases n
    ensures Doubled(v, n) >= 0
    ensures BitsOf(Doubled(v, n), m + n) == BitsOf(v, m) + Zeros(n)
  {
    if n > 0 {
      DoubledBits(2 * v, m + 1, n - 1);
      assert BitsOf(2 * v, m + 1) == BitsOf(v, m) + [false];
      assert BitsOf(v, m) + [false] + Zeros(n - 1) == BitsOf(v, m) + Zeros(n);
      assert m + 1 + (n - 1) == m + n;
    } else {
      assert BitsOf(v, m) + Zeros(0) == BitsOf(v, m);
    }
  }

  /* ---------- one turn of each accumulator ---------- */

  lemma Remainder32(k: int, r: int)
    requires 0 <= r < 0x1_0000_0000
    ensures ToUint32(k * 0x1_0000_0000 + r) == r
  {
  }

  lemma WrapKeepsBits(x: int)
    ensures ToUint32(ToInt32(x)) == ToUint32(x)
  {
  }

  lemma Doubled5And8(x: int)
    ensures Doubled(x, 5) == 32 * x && Doubled(x, 8) == 256 * x
  {
    assert Doubled(8 * x, 2) == 32 * x && Doubled(x, 5) == Doubled(8 * x, 2);
    assert Doubled(x, 8) == Doubled(8 * x, 5) == Doubled(64 * x, 2);
  }

  /** A shift by eight drops what is above the low 24 bits. */
  lemma ShiftedByte(x: int)
    ensures ToUint32(ShiftLeft(x, 8)) == (ToUint32(x) % 0x100_0000) * 256
  {
    var q, u := x / 0x1_0000_0000, ToUint32(x);
    var a, r := u / 0x100_0000, u % 0x100_0000;
    Doubled5And8(x);
    Remainder32(256 * q + a, 256 * r);
    WrapKeepsBits(256 * x);
  }

  lemma ShiftedSymbol(x: int)
    ensures ToUint32(ShiftLeft(x, 5)) == (ToUint32(x) % 0x800_0000) * 32
  {
    var q, u := x / 0x1_0000_0000, ToUint32(x);
    var a, r := u / 0x800_0000, u % 0x800_0000;
    Doubled5And8(x);
    Remainder32(32 * q + a, 32 * r);
    WrapKeepsBits(32 * x);
  }

  lemma MultipleOf(t: int)
    ensures (256 * t) % 256 == 0 && (32 * t) % 32 == 0
  {
  }

  /** Wrapping takes away a multiple of the word. */
  lemma Wrapped(y: int) returns (k: int)
    ensures ToInt32(y) == y - k * 0x1_0000_0000
  {
    k := if ToUint32(y) >= 0x8000_0000 then y / 0x1_0000_0000 + 1 else y / 0x1_0000_0000;
  }

  lemma ShiftedIsClear(x: int)
    ensures ShiftLeft(x, 8) % 256 == 0 && ShiftLeft(x, 5) % 32 == 0
  {
    Doubled5And8(x);
    var k := Wrapped(256 * x);
    MultipleOf(x - k * 0x100_0000);
    var j := Wrapped(32 * x);
    MultipleOf(x - j * 0x800_0000);
  }

  lemma Halved5And8(x: nat)
    ensures Halved(x, 5) == x / 32 && Halved(x, 8) == x / 256
  {
    assert Halved(x, 5) == Halved(x / 8, 2) && Halved(x / 8, 2) == x / 32;
    assert Halved(x, 8) == Halved(x / 8, 5) && Halved(x / 8, 5) == Halved(x / 64, 2);
  }

  lemma LowAdded8(x: int, low: nat)
    requires low < 256 && x % 256 == 0
    ensures ToUint32(WithLow(x, low, 256)) == ToUint32(x) + low
  {
    var u := ToUint32(x);
    assert u % 256 == 0;
    Remainder32(x / 0x1_0000_0000, u + low);
  }

  lemma BitsAppended8(v: nat, low: nat, bits: nat)
    requires low < 256
    ensures BitsOf(v * 256 + low, bits + 8) == BitsOf(v, bits) + BitsOf(low, 8)
  {
    assert (v * 256 + low) / 256 == v;
    SplitBits(v * 256 + low, bits, 8);
    Halved5And8(v * 256 + low);
    Pow2Values();
    LowBits(low, v, 8, 8, 256);
  }

  lemma LowAdded5(x: int, low: nat)
    requires low < 32 && x % 32 == 0
    ensures ToUint32(WithLow(x, low, 32)) == ToUint32(x) + low
  {
    var u := ToUint32(x);
    assert u % 32 == 0;
    Remainder32(x / 0x1_0000_0000, u + low);
  }

  lemma BitsAppended5(v: nat, low: nat, bits: nat)
    requires low < 32
    ensures BitsOf(v * 32 + low, bits + 5) == BitsOf(v, bits) + BitsOf(low, 5)
  {
    assert (v * 32 + low) / 32 == v;
    SplitBits(v * 32 + low, bits, 5);
    Halved5And8(v * 32 + low);
    Pow2Values();
    LowBits(low, v, 5, 5, 32);
  }

  lemma HighDropped(u: nat, bits: nat, k: nat, unit: nat)
    requires (k == 24 && unit == 0x100_0000) || (k == 27 && unit == 0x800_0000)
    requires bits <= k
    ensures BitsOf(u % unit, bits) == BitsOf(u, bits)
  {
    Pow2Values();
    LowBits(u % unit, u / unit, bits, k, unit);
  }

  /** Taking in a byte: its bits follow those already there. */
  lemma ByteTaken(x: int, bits: nat, b: Byte)
    requires bits <= 24 && ShiftLeft(x, 8) % 256 == 0
    ensures BitsOf(ToUint32(WithLow(ShiftLeft(x, 8), b, 256)), bits + 8) == BitsOf(ToUint32(x), bits) + BitsOf(b, 8)
  {
    ShiftedByte(x);
    LowAdded8(ShiftLeft(x, 8), b);
    BitsAppended8(ToUint32(x) % 0x100_0000, b, bits);
    HighDropped(ToUint32(x), bits, 24, 0x100_0000);
  }

  lemma SymbolTaken(x: int, bits: nat, s: Symbol)
    requires bits <= 27 && ShiftLeft(x, 5) % 32 == 0
    ensures BitsOf(ToUint32(WithLow(ShiftLeft(x, 5), s, 32)), bits + 5) == BitsOf(ToUint32(x), bits) + BitsOf(s, 5)
  {
    ShiftedSymbol(x);
    LowAdded5(ShiftLeft(x, 5), s);
    BitsAppended5(ToUint32(x) % 0x800_0000, s, bits);
    HighDropped(ToUint32(x), bits, 27, 0x800_0000);
  }

  /** Giving out the highest five bits, or the highest eight. */
  lemma SymbolGiven(x: int, bits: nat)
    requires 5 <= bits
    ensures BitsOf(ToUint32(x), bits) == BitsOf(ShiftRightUnsigned(x, bits - 5) % 32, 5) + BitsOf(ToUint32(x), bits - 5)
  {
    SplitBits(ToUint32(x), 5, bits - 5);
    Pow2Values();
    var v := ShiftRightUnsigned(x, bits - 5);
    LowBits(v % 32, v / 32, 5, 5, 32);
  }

  lemma ByteGiven(x: int, bits: nat)
    requires 8 <= bits
    ensures BitsOf(ToUint32(x), bits) == BitsOf(ShiftRightUnsigned(x, bits - 8) % 256, 8) + BitsOf(ToUint32(x), bits - 8)
  {
    SplitBits(ToUint32(x), 8, bits - 8);
    Pow2Values();
    var v := ShiftRightUnsigned(x, bits - 8);
    LowBits(v % 256, v / 256, 8, 8, 256);
  }
}
