/** Encoding and strict decoding of Base32 secrets, and that each undoes the other. */
module Base32Codec {
  import opened Wrappers
  import opened Base32

  /* ---------- appending ---------- */

  lemma SymbolsAppend(text: string, s: Symbol)
    requires AllLetters(text)
    ensures AllLetters(text + [Letter(s)]) && SymbolsOf(text + [Letter(s)]) == SymbolsOf(text) + [s]
  {
    AlphabetSpelled(s);
  }

  lemma SymbolBitsAppend(symbols: seq<Symbol>, s: Symbol)
    ensures SymbolBits(symbols + [s]) == SymbolBits(symbols) + BitsOf(s, 5)
  {
    assert (symbols + [s])[..|symbols|] == symbols;
  }

  lemma ByteBitsAppend(bytes: seq<Byte>, b: Byte)
    ensures ByteBits(bytes + [b]) == ByteBits(bytes) + BitsOf(b, 8)
  {
    assert (bytes + [b])[..|bytes|] == bytes;
  }

  /* ---------- base32Encode ---------- */

  /** The last symbol: the bits left over, then zeros. */
  lemma LastSymbol(x: int, bits: nat)
    requires 0 < bits < 5
    ensures BitsOf(ShiftLeft(x, 5 - bits) % 32, 5) == BitsOf(ToUint32(x), bits) + Zeros(5 - bits)
  {
    var u, n := ToUint32(x), 5 - bits;
    DoubledBits(u, bits, n);
    var d := Doubled(u, n);
    assert ShiftLeft(x, n) % 32 == d % 32 by { ShiftedLow(x, n); }
    Pow2Values();
    LowBits(d % 32, d / 32, 5, 5, 32);
  }

  lemma LowOfSum(k: int, v: int)
    ensures (k * 0x1_0000_0000 + v) % 32 == v % 32
  {
    assert k * 0x1_0000_0000 + v == 32 * (k * 0x800_0000 + v / 32) + v % 32;
  }

  lemma LowOfWrapped(y: int)
    ensures ToInt32(y) % 32 == y % 32
  {
    var q, u := y / 0x1_0000_0000, ToUint32(y);
    LowOfSum(q, u);
    LowOfSum(-1, u);
  }

  lemma ShiftedLow(x: int, n: nat)
    requires 1 <= n <= 4
    ensures ShiftLeft(x, n) % 32 == Doubled(ToUint32(x), n) % 32
  {
    var q, u := x / 0x1_0000_0000, ToUint32(x);
    LowOfWrapped(Doubled(x, n));
    assert n == 1 ==> Doubled(x, n) == 2 * x && Doubled(u, n) == 2 * u;
    assert n == 2 ==> Doubled(x, n) == 4 * x && Doubled(u, n) == 4 * u;
    assert n == 3 ==> Doubled(x, n) == 8 * x && Doubled(u, n) == 8 * u;
    assert n == 4 ==> Doubled(x, n) == 16 * x && Doubled(u, n) == 16 * u;
    LowOfSum(2 * q, 2 * u);
    LowOfSum(4 * q, 4 * u);
    LowOfSum(8 * q, 8 * u);
    LowOfSum(16 * q, 16 * u);
  }

  /** What has been written, followed by what the accumulator still holds. */
  ghost predicate Written(text: string, value: int, bits: nat, target: seq<bool>) {
    AllLetters(text) && SymbolBits(SymbolsOf(text)) + BitsOf(ToUint32(value), bits) == target
  }

  lemma Associative<T>(a: seq<T>, b: seq<T>, c: seq<T>)
    ensures a + (b + c) == a + b + c
  {
  }

  lemma WrittenMore(text: string, held: seq<bool>, value: int, bits: nat, buffer: seq<Byte>, k: nat)
    requires k < |buffer| && AllLetters(text) && SymbolBits(SymbolsOf(text)) + held == ByteBits(buffer[..k])
    requires BitsOf(ToUint32(value), bits) == held + BitsOf(buffer[k], 8)
    ensures Written(text, value, bits, ByteBits(buffer[..k + 1]))
  {
    ByteBitsAppend(buffer[..k], buffer[k]);
    assert buffer[..k + 1] == buffer[..k] + [buffer[k]];
    Associative(SymbolBits(SymbolsOf(text)), held, BitsOf(buffer[k], 8));
  }

  lemma TakeByte(text: string, value: int, bits: nat, buffer: seq<Byte>, k: nat)
    requires k < |buffer| && bits < 5 && Written(text, value, bits, ByteBits(buffer[..k]))
    ensures ShiftLeft(value, 8) % 256 == 0
    ensures Written(text, WithLow(ShiftLeft(value, 8), buffer[k], 256), bits + 8, ByteBits(buffer[..k + 1]))
  {
    ShiftedIsClear(value);
    ByteTaken(value, bits, buffer[k]);
    WrittenMore(text, BitsOf(ToUint32(value), bits), WithLow(ShiftLeft(value, 8), buffer[k], 256), bits + 8, buffer, k);
  }

  lemma GiveSymbol(text: string, value: int, bits: nat, target: seq<bool>)
    requires 5 <= bits && Written(text, value, bits, target)
    ensures Written(text + [BASE32_ALPHABET[ShiftRightUnsigned(value, bits - 5) % 32]], value, bits - 5, target)
  {
    var s: Symbol := ShiftRightUnsigned(value, bits - 5) % 32;
    SymbolGiven(value, bits);
    SymbolsAppend(text, s);
    SymbolBitsAppend(SymbolsOf(text), s);
    AlphabetSpelled(s);
  }

  lemma FinishText(text: string, value: int, bits: nat, buffer: seq<Byte>)
    requires bits < 5 && Written(text, value, bits, ByteBits(buffer))
    ensures Encodes(if bits > 0 then text + [BASE32_ALPHABET[ShiftLeft(value, 5 - bits) % 32]] else text, buffer)
  {
    if bits > 0 {
      var s: Symbol := ShiftLeft(value, 5 - bits) % 32;
      LastSymbol(value, bits);
      SymbolsAppend(text, s);
      SymbolBitsAppend(SymbolsOf(text), s);
      AlphabetSpelled(s);
      assert SymbolBits(SymbolsOf(text + [Letter(s)])) == ByteBits(buffer) + Zeros(5 - bits);
    } else {
      assert SymbolBits(SymbolsOf(text)) == ByteBits(buffer) + Zeros(0);
    }
  }

  /** The inner loop: symbols as long as five bits are there. */
  method GiveSymbols(text: string, value: int, held: nat, ghost target: seq<bool>) returns (output: string, bits: nat)
    requires Written(text, value, held, target)
    ensures bits < 5 && Written(output, value, bits, target)
  {
    output, bits := text, held;
    while bits >= 5
      invariant Written(output, value, bits, target)
    {
      GiveSymbol(output, value, bits, target);
      output := output + [BASE32_ALPHABET[ShiftRightUnsigned(value, bits - 5) % 32]];
      bits := bits - 5;
    }
  }

  method Base32Encode(buffer: seq<Byte>) returns (output: string)
    ensures Encodes(output, buffer)
  {
    var bits: nat, value: int := 0, 0;
    output := "";
    for k := 0 to |buffer|
      invariant bits < 5 && Written(output, value, bits, ByteBits(buffer[..k]))
    {
      TakeByte(output, value, bits, buffer, k);
      value := WithLow(ShiftLeft(value, 8), buffer[k], 256);
      bits := bits + 8;
      output, bits := GiveSymbols(output, value, bits, ByteBits(buffer[..k + 1]));
    }
    assert buffer[..|buffer|] == buffer;
    FinishText(output, value, bits, buffer);
    if bits > 0 { output := output + [BASE32_ALPHABET[ShiftLeft(value, 5 - bits) % 32]]; }
  }

  /* ---------- a text encodes one byte string, a byte string has one text ---------- */

  lemma {:induction false} SymbolBitsLength(symbols: seq<Symbol>)
    ensures |SymbolBits(symbols)| == 5 * |symbols|
  {
    if symbols != [] {
      SymbolBitsLength(symbols[..|symbols| - 1]);
      BitsLength(symbols[|symbols| - 1], 5);
    }
  }

  lemma {:induction false} ByteBitsLength(bytes: seq<Byte>)
    ensures |ByteBits(bytes)| == 8 * |bytes|
  {
    if bytes != [] {
      ByteBitsLength(bytes[..|bytes| - 1]);
      BitsLength(bytes[|bytes| - 1], 8);
    }
  }

  lemma SplitEqual<T>(a: seq<T>, b: seq<T>, c: seq<T>, d: seq<T>)
    requires a + b == c + d && |a| == |c|
    ensures a == c && b == d
  {
    assert a == (a + b)[..|a|] && c == (c + d)[..|a|];
    assert b == (a + b)[|a|..] && d == (c + d)[|a|..];
  }

  lemma {:induction false} BitsDetermine(v: nat, w: nat, n: nat)
    requires BitsOf(v, n) == BitsOf(w, n) && v < Pow2(n) && w < Pow2(n)
    ensures v == w
  {
    if n > 0 {
      SplitEqual(BitsOf(v / 2, n - 1), [v % 2 == 1], BitsOf(w / 2, n - 1), [w % 2 == 1]) by {
        BitsLength(v / 2, n - 1);
        BitsLength(w / 2, n - 1);
      }
      BitsDetermine(v / 2, w / 2, n - 1);
    }
  }

  lemma {:induction false} SymbolsDetermined(x: seq<Symbol>, y: seq<Symbol>)
    requires SymbolBits(x) == SymbolBits(y)
    ensures x == y
  {
    SymbolBitsLength(x);
    SymbolBitsLength(y);
    if x != [] {
      var n := |x| - 1;
      BitsLength(x[n], 5);
      BitsLength(y[n], 5);
      SplitEqual(SymbolBits(x[..n]), BitsOf(x[n], 5), SymbolBits(y[..n]), BitsOf(y[n], 5)) by {
        SymbolBitsLength(x[..n]);
        SymbolBitsLength(y[..n]);
      }
      Pow2Values();
      BitsDetermine(x[n], y[n], 5);
      SymbolsDetermined(x[..n], y[..n]);
      assert x == x[..n] + [x[n]] && y == y[..n] + [y[n]];
    }
  }

  lemma {:induction false} BytesDetermined(x: seq<Byte>, y: seq<Byte>)
    requires ByteBits(x) == ByteBits(y)
    ensures x == y
  {
    ByteBitsLength(x);
    ByteBitsLength(y);
    if x != [] {
      var n := |x| - 1;
      BitsLength(x[n], 8);
      BitsLength(y[n], 8);
      SplitEqual(ByteBits(x[..n]), BitsOf(x[n], 8), ByteBits(y[..n]), BitsOf(y[n], 8)) by {
        ByteBitsLength(x[..n]);
        ByteBitsLength(y[..n]);
      }
      Pow2Values();
      BitsDetermine(x[n], y[n], 8);
      BytesDetermined(x[..n], y[..n]);
      assert x == x[..n] + [x[n]] && y == y[..n] + [y[n]];
    }
  }

  lemma LetterOfIndex(c: char)
    requires IsLetter(c)
    ensures Letter(IndexOf(c)) == c
  {
  }

  lemma TextDetermined(s: string, t: string)
    requires AllLetters(s) && AllLetters(t) && SymbolsOf(s) == SymbolsOf(t)
    ensures s == t
  {
    forall k | 0 <= k < |s| ensures s[k] == t[k] {
      assert SymbolsOf(s)[k] == SymbolsOf(t)[k];
      LetterOfIndex(s[k]);
      LetterOfIndex(t[k]);
    }
  }

  /** A byte string has one encoding, of length 8n/5 rounded up. */
  lemma EncodingUnique(s: string, t: string, bytes: seq<Byte>)
    requires Encodes(s, bytes) && Encodes(t, bytes)
    ensures s == t
  {
    var y: nat :| y < 5 && SymbolBits(SymbolsOf(s)) == ByteBits(bytes) + Zeros(y);
    var z: nat :| z < 5 && SymbolBits(SymbolsOf(t)) == ByteBits(bytes) + Zeros(z);
    SymbolBitsLength(SymbolsOf(s));
    SymbolBitsLength(SymbolsOf(t));
    assert 5 * |s| - y == 5 * |t| - z;
    assert y == z;
    SymbolsDetermined(SymbolsOf(s), SymbolsOf(t));
    TextDetermined(s, t);
  }

  /** A text encodes one byte string: the whole bytes among its bits. */
  lemma WholeBytes(text: string, bytes: seq<Byte>, decoded: seq<Byte>, rest: seq<bool>)
    requires Encodes(text, bytes) && |rest| < 8 && SymbolBits(SymbolsOf(text)) == ByteBits(decoded) + rest
    ensures decoded == bytes
  {
    var z: nat :| z < 5 && SymbolBits(SymbolsOf(text)) == ByteBits(bytes) + Zeros(z);
    ByteBitsLength(bytes);
    ByteBitsLength(decoded);
    assert 8 * |bytes| + z == 8 * |decoded| + |rest|;
    SplitEqual(ByteBits(bytes), Zeros(z), ByteBits(decoded), rest);
    BytesDetermined(bytes, decoded);
  }

  /* ---------- base32DecodeStrict ---------- */

  /** The longest prefix without an equals sign. */
  function Stem(input: string): (r: string)
    ensures |r| <= |input| && r == input[..|r|] && (|r| < |input| ==> input[|r|] == '=') && '=' !in r
  {
    if input == "" || input[0] == '=' then "" else [input[0]] + Stem(input[1..])
  }

  /** The shape `^[A-Z2-7]+={0,6}$`. */
  predicate WellShaped(input: string) {
    var n := |Stem(input)|;
    && n > 0 && AllLetters(Stem(input)) && |input| - n <= 6
    && forall k :: n <= k < |input| ==> input[k] == '='
  }

  ghost predicate Read(bytes: seq<Byte>, value: int, bits: nat, target: seq<bool>) {
    ByteBits(bytes) + BitsOf(ToUint32(value), bits) == target
  }

  lemma ReadMore(bytes: seq<Byte>, held: seq<bool>, value: int, bits: nat, symbols: seq<Symbol>, k: nat)
    requires k < |symbols| && ByteBits(bytes) + held == SymbolBits(symbols[..k])
    requires BitsOf(ToUint32(value), bits) == held + BitsOf(symbols[k], 5)
    ensures Read(bytes, value, bits, SymbolBits(symbols[..k + 1]))
  {
    SymbolBitsAppend(symbols[..k], symbols[k]);
    assert symbols[..k + 1] == symbols[..k] + [symbols[k]];
    Associative(ByteBits(bytes), held, BitsOf(symbols[k], 5));
  }

  lemma TakeSymbol(bytes: seq<Byte>, value: int, bits: nat, symbols: seq<Symbol>, k: nat)
    requires k < |symbols| && bits < 8 && Read(bytes, value, bits, SymbolBits(symbols[..k]))
    ensures ShiftLeft(value, 5) % 32 == 0
    ensures Read(bytes, WithLow(ShiftLeft(value, 5), symbols[k], 32), bits + 5, SymbolBits(symbols[..k + 1]))
  {
    ShiftedIsClear(value);
    SymbolTaken(value, bits, symbols[k]);
    ReadMore(bytes, BitsOf(ToUint32(value), bits), WithLow(ShiftLeft(value, 5), symbols[k], 32), bits + 5, symbols, k);
  }

  lemma GiveByte(bytes: seq<Byte>, value: int, bits: nat, target: seq<bool>)
    requires 8 <= bits && Read(bytes, value, bits, target)
    ensures Read(bytes + [ShiftRightUnsigned(value, bits - 8) % 256], value, bits - 8, target)
  {
    ByteGiven(value, bits);
    ByteBitsAppend(bytes, ShiftRightUnsigned(value, bits - 8) % 256);
  }

  /** The bytes in the text's bits, without what is left over. */
  method WholeBytesOf(unpadded: string) returns (bytes: seq<Byte>, ghost rest: seq<bool>)
    requires AllLetters(unpadded)
    ensures |rest| < 8 && SymbolBits(SymbolsOf(unpadded)) == ByteBits(bytes) + rest
  {
    ghost var symbols := SymbolsOf(unpadded);
    var bits: nat, value: int := 0, 0;
    bytes := [];
    for k := 0 to |unpadded|
      invariant bits < 8 && Read(bytes, value, bits, SymbolBits(symbols[..k]))
    {
      var index := IndexOf(unpadded[k]);
      TakeSymbol(bytes, value, bits, symbols, k);
      value := WithLow(ShiftLeft(value, 5), index, 32);
      bits := bits + 5;
      if bits >= 8 {
        GiveByte(bytes, value, bits, SymbolBits(symbols[..k + 1]));
        bytes := bytes + [ShiftRightUnsigned(value, bits - 8) % 256];
        bits := bits - 8;
      }
    }
    assert symbols[..|unpadded|] == symbols;
    rest := BitsOf(ToUint32(value), bits);
    BitsLength(ToUint32(value), bits);
  }

  lemma {:induction false} StemOf(text: string, pad: string)
    requires '=' !in text && forall k :: 0 <= k < |pad| ==> pad[k] == '='
    ensures Stem(text + pad) == text
  {
    if text == "" {
      assert text + pad == pad;
    } else {
      assert (text + pad)[1..] == text[1..] + pad;
      StemOf(text[1..], pad);
    }
  }

  /** Of the remainders a length can have, those of an encoding need at most six signs of padding. */
  lemma EncodingLength(text: string, bytes: seq<Byte>)
    requires Encodes(text, bytes)
    ensures 8 * |bytes| <= 5 * |text| < 8 * |bytes| + 5
    ensures |Padding(|text|)| <= 6 && (|text| + |Padding(|text|)|) % 8 == 0
  {
    var z: nat :| z < 5 && SymbolBits(SymbolsOf(text)) == ByteBits(bytes) + Zeros(z);
    SymbolBitsLength(SymbolsOf(text));
    ByteBitsLength(bytes);
    PaddingShort(|text|, |bytes|, z);
  }

  lemma PaddingShort(n: nat, m: nat, z: nat)
    requires 5 * n == 8 * m + z && z < 5
    ensures (8 - n % 8) % 8 <= 6 && (n + (8 - n % 8) % 8) % 8 == 0
  {
    var q, r := n / 8, n % 8;
    assert 5 * r == 8 * (m - 5 * q) + z;
  }

  lemma PaddedShape(text: string, pad: string)
    requires text != "" && AllLetters(text) && |pad| <= 6 && forall k :: 0 <= k < |pad| ==> pad[k] == '='
    ensures WellShaped(text + pad) && Stem(text + pad) == text
  {
    StemOf(text, pad);
  }

  lemma NothingPadsNothing()
    ensures Padding(0) == ""
  {
  }

  /** What the decoder asks of an input besides its bits. */
  predicate Trimmed(input: string) {
    Stem(input) == input || (|input| % 8 == 0 && input == Stem(input) + Padding(|Stem(input)|))
  }

  lemma BareShape(text: string)
    requires text != "" && AllLetters(text)
    ensures WellShaped(text) && Stem(text) == text
  {
    PaddedShape(text, "");
    assert text + "" == text;
  }

  /** The checks a padded or bare encoding passes, and what is left of it without padding. */
  lemma AcceptableShape(input: string, bytes: seq<Byte>)
    requires Acceptable(input, bytes)
    ensures WellShaped(input) && Encodes(Stem(input), bytes) && Trimmed(input)
  {
    var text: string :| Encodes(text, bytes) && (input == text || input == text + Padding(|text|));
    NothingPadsNothing();
    if input == text {
      BareShape(text);
    } else {
      PaddedInput(text, bytes);
    }
  }

  lemma PaddedInput(text: string, bytes: seq<Byte>)
    requires Encodes(text, bytes) && text != ""
    ensures var input := text + Padding(|text|); WellShaped(input) && Stem(input) == text && |input| % 8 == 0
  {
    EncodingLength(text, bytes);
    PaddedShape(text, Padding(|text|));
  }

  lemma NothingEncodesToLetters(text: string)
    requires Encodes(text, [])
    ensures text == ""
  {
    EncodingLength(text, []);
  }

  /**
   Accepts exactly the encodings of non-empty byte strings, bare or with exact padding and
   within the length bound, and returns the byte string.
   */
  method Base32DecodeStrict(input: string) returns (decoded: Option<seq<Byte>>)
    ensures decoded.Some? ==> decoded.value != [] && Acceptable(input, decoded.value)
    ensures decoded.None? ==> forall bytes :: bytes != [] ==> !Acceptable(input, bytes)
  {
    forall bytes | Acceptable(input, bytes)
      ensures WellShaped(input) && Encodes(Stem(input), bytes) && Trimmed(input)
    {
      AcceptableShape(input, bytes);
    }
    if |input| == 0 || |input| > MAX_BASE32_SECRET_LENGTH || !WellShaped(input) {
      return None;
    }
    var unpadded := Stem(input);
    if unpadded != input && |input| % 8 != 0 { return None; }
    var bytes, rest := WholeBytesOf(unpadded);
    var canonical := Base32Encode(bytes);
    forall b | Encodes(unpadded, b) ensures b == bytes {
      WholeBytes(unpadded, b, bytes, rest);
    }
    if canonical != unpadded {
      forall b ensures !Encodes(unpadded, b) {
        if Encodes(unpadded, b) { EncodingUnique(unpadded, canonical, bytes); }
      }
      return None;
    }
    if unpadded != input && canonical + Padding(|canonical|) != input { return None; }
    if bytes == [] { NothingEncodesToLetters(canonical); }
    return Some(bytes);
  }

  /** Decoding undoes encoding, and the secret a text stands for is unique. */
  lemma AcceptedOnce(input: string, b: seq<Byte>, c: seq<Byte>)
    requires Acceptable(input, b) && Acceptable(input, c)
    ensures b == c
  {
    AcceptableShape(input, b);
    AcceptableShape(input, c);
    EncodedOnce(Stem(input), b, c);
  }

  lemma EncodedOnce(text: string, b: seq<Byte>, c: seq<Byte>)
    requires Encodes(text, b) && Encodes(text, c)
    ensures b == c
  {
    var z: nat :| z < 5 && SymbolBits(SymbolsOf(text)) == ByteBits(c) + Zeros(z);
    WholeBytes(text, b, c, Zeros(z));
  }

  /** The round trip, for every secret that fits. */
  method RoundTrip(secret: seq<Byte>) returns (text: string, back: Option<seq<Byte>>)
    ensures Encodes(text, secret)
    ensures secret != [] && |secret| <= 2_560 ==> back == Some(secret)
  {
    text := Base32Encode(secret);
    back := Base32DecodeStrict(text);
    EncodingLength(text, secret);
    if secret != [] && |secret| <= 2_560 {
      assert Acceptable(text, secret);
      if back.Some? { AcceptedOnce(text, secret, back.value); }
    }
  }
}
