/**
 make_text_hash and hexify of src/store/utils.cpp, from the decoded wide string on: 64-bit FNV-1a over the symbols,
 written as sixteen upper-case hexadecimal digits.
 */
module Hashes {
  import opened Text

  const MODULUS: nat := 0x1_0000_0000_0000_0000
  const FNV_PRIME: nat := 1099511628211
  const FNV_OFFSET_BASIS: uint64 := 14695981039346656037

  /** The inverse of FNV_PRIME modulo 2^64. */
  const FNV_INVERSE: nat := 14886173955864302971

  type uint64 = x: int | 0 <= x < 0x1_0000_0000_0000_0000

  /** Exclusive or, bit by bit. */
  function Xor(a: nat, b: nat): nat {
    if a == 0 && b == 0 then 0 else 2 * Xor(a / 2, b / 2) + (a + b) % 2
  }

  function Power2(n: nat): nat {
    if n == 0 then 1 else 2 * Power2(n - 1)
  }

  lemma {:induction false} XorFits(a: nat, b: nat, bits: nat)
    requires a < Power2(bits) && b < Power2(bits)
    ensures Xor(a, b) < Power2(bits)
  {
    if bits > 0 { XorFits(a / 2, b / 2, bits - 1); }
  }

  lemma WordSize()
    ensures Power2(64) == MODULUS
  {
    assert Power2(8) == 0x100;
    assert Power2(16) == 0x1_0000;
    assert Power2(24) == 0x100_0000;
    assert Power2(32) == 0x1_0000_0000;
    assert Power2(40) == 0x100_0000_0000;
    assert Power2(48) == 0x1_0000_0000_0000;
    assert Power2(56) == 0x100_0000_0000_0000;
  }

  function XorWord(a: uint64, b: uint64): uint64 {
    WordSize();
    XorFits(a, b, 64);
    Xor(a, b)
  }

  /** static_cast<uint64_t> of a wchar_t, a signed 32-bit integer. */
  function Widened(symbol: int32): uint64 {
    symbol % MODULUS
  }

  /** Multiplication of uint64_t by a constant. */
  function Times(h: uint64, factor: nat): uint64 {
    h * factor % MODULUS
  }

  /** The body of the hashing loop. */
  function Mixed(h: uint64, symbol: int32): uint64 {
    Times(XorWord(h, Widened(symbol)), FNV_PRIME)
  }

  function Hashed(h: uint64, text: seq<int32>): uint64 {
    if text == [] then h else Mixed(Hashed(h, text[..|text| - 1]), text[|text| - 1])
  }

  // ---------------------------------------------------------------------------------------------------------
  // Every step is a permutation of the states
  // ---------------------------------------------------------------------------------------------------------

  /** The state before a step, from the state after it. */
  function Unmixed(h: uint64, symbol: int32): uint64 {
    XorWord(Times(h, FNV_INVERSE), Widened(symbol))
  }

  function Unhashed(h: uint64, text: seq<int32>): uint64
    decreases |text|
  {
    if text == [] then h else Unhashed(Unmixed(h, text[|text| - 1]), text[..|text| - 1])
  }

  lemma Remainder(n: int, x: nat, j: int)
    requires x < MODULUS && n == x + MODULUS * j
    ensures n % MODULUS == x
  {
  }

  lemma ProductUndone(x: nat, q: int, r: nat, k: int)
    requires x < MODULUS && r < MODULUS && x * FNV_PRIME == q * MODULUS + r
    requires FNV_PRIME * FNV_INVERSE == 1 + k * MODULUS
    ensures (r * FNV_INVERSE) % MODULUS == x
  {
    Remainder(r * FNV_INVERSE, x, x * k - q * FNV_INVERSE);
  }

  lemma QuotientUndone(x: nat, q: int, r: nat, k: int)
    requires x < MODULUS && r < MODULUS && x * FNV_INVERSE == q * MODULUS + r
    requires FNV_PRIME * FNV_INVERSE == 1 + k * MODULUS
    ensures (r * FNV_PRIME) % MODULUS == x
  {
    Remainder(r * FNV_PRIME, x, x * k - q * FNV_PRIME);
  }

  lemma TimesUndone(h: uint64)
    ensures Times(Times(h, FNV_PRIME), FNV_INVERSE) == h
    ensures Times(Times(h, FNV_INVERSE), FNV_PRIME) == h
  {
    var x := h;
    var p, i := x * FNV_PRIME, x * FNV_INVERSE;
    ProductUndone(x, p / MODULUS, p % MODULUS, 887285111055);
    QuotientUndone(x, i / MODULUS, i % MODULUS, 887285111055);
  }

  lemma LastBit(rest: nat, a: nat, b: nat)
    ensures var c := 2 * rest + (a + b) % 2; c / 2 == rest && (c + b) % 2 == a % 2
  {
  }

  lemma {:induction false} XorUndone(a: nat, b: nat)
    ensures Xor(Xor(a, b), b) == a
    decreases a + b
  {
    if a != 0 || b != 0 {
      LastBit(Xor(a / 2, b / 2), a, b);
      XorUndone(a / 2, b / 2);
    }
  }

  lemma {:induction false} XorTells(h: nat, v: nat, w: nat)
    ensures Xor(h, v) == Xor(h, w) ==> v == w
    decreases h + v + w
  {
    if h != 0 || v != 0 || w != 0 { XorTells(h / 2, v / 2, w / 2); }
  }

  /** Each symbol permutes the states: the step can be undone, and every state is the result of a step. */
  lemma MixPermutes(h: uint64, symbol: int32)
    ensures Unmixed(Mixed(h, symbol), symbol) == h
    ensures Mixed(Unmixed(h, symbol), symbol) == h
  {
    hide Times, Widened, Xor;
    TimesUndone(XorWord(h, Widened(symbol)));
    TimesUndone(h);
    XorUndone(h, Widened(symbol));
    XorUndone(Times(h, FNV_INVERSE), Widened(symbol));
  }

  lemma {:induction false} HashPermutes(h: uint64, text: seq<int32>)
    ensures Unhashed(Hashed(h, text), text) == h
    ensures Hashed(Unhashed(h, text), text) == h
    decreases |text|
  {
    hide Mixed, Unmixed;
    if text != [] {
      var front, last := text[..|text| - 1], text[|text| - 1];
      HashPermutes(h, front);
      HashPermutes(Unmixed(h, last), front);
      MixPermutes(Hashed(h, front), last);
      MixPermutes(h, last);
    }
  }

  /** From the same state different symbols lead to different states. */
  lemma MixTells(h: uint64, a: int32, b: int32)
    ensures Mixed(h, a) == Mixed(h, b) <==> a == b
  {
    hide Times, Xor;
    TimesUndone(XorWord(h, Widened(a)));
    TimesUndone(XorWord(h, Widened(b)));
    XorTells(h, Widened(a), Widened(b));
  }

  lemma {:induction false} HashedAppend(h: uint64, front: seq<int32>, back: seq<int32>)
    ensures Hashed(h, front + back) == Hashed(Hashed(h, front), back)
  {
    hide Mixed;
    if back == [] {
      assert front + back == front;
    } else {
      var both := front + back;
      assert both[..|both| - 1] == front + back[..|back| - 1];
      HashedAppend(h, front, back[..|back| - 1]);
    }
  }

  // ---------------------------------------------------------------------------------------------------------
  // The text of a hash
  // ---------------------------------------------------------------------------------------------------------

  const DIGITS := "0123456789ABCDEF"

  /** What std::hex and std::uppercase make of a number. */
  function HexText(value: nat): string {
    (if value < 16 then [] else HexText(value / 16)) + [DIGITS[value % 16]]
  }

  /** std::setw with std::setfill('0'). */
  function Padded(text: string, width: nat): (r: string)
    ensures |r| == if |text| < width then width else |text|
    decreases width - |text|
  {
    if |text| < width then Padded("0" + text, width) else text
  }

  function Hexify(value: uint64): string {
    Padded(HexText(value), 16)
  }

  predicate IsDigit(c: char) {
    '0' <= c <= '9' || 'A' <= c <= 'F'
  }

  function DigitValue(c: char): int {
    if c <= '9' then c as int - '0' as int else c as int - 'A' as int + 10
  }

  /** The number that a text of hexadecimal digits stands for. */
  function HexValue(text: string): int {
    if text == [] then 0 else 16 * HexValue(text[..|text| - 1]) + DigitValue(text[|text| - 1])
  }

  lemma {:induction false} HexTextReads(value: nat, width: nat)
    requires 1 <= width
    ensures var text := HexText(value);
      HexValue(text) == value && (forall i :: 0 <= i < |text| ==> IsDigit(text[i]))
    ensures value < Power16(width) ==> |HexText(value)| <= width
    decreases value
  {
    var text := HexText(value);
    assert text[|text| - 1] == DIGITS[value % 16];
    if value < 16 {
      assert HexValue([]) == 0 && text[..0] == [];
    } else {
      HexTextReads(value / 16, if width == 1 then 1 else width - 1);
      assert text[..|text| - 1] == HexText(value / 16);
      assert Power16(1) == 16 * Power16(0);
    }
  }

  function Power16(n: nat): nat {
    if n == 0 then 1 else 16 * Power16(n - 1)
  }

  lemma {:induction false} LeadingZero(text: string)
    ensures HexValue("0" + text) == HexValue(text)
  {
    if text == [] {
      assert "0"[..0] == [];
    } else {
      assert ("0" + text)[..|text|] == "0" + text[..|text| - 1];
      LeadingZero(text[..|text| - 1]);
    }
  }

  lemma {:induction false} PaddedReads(text: string, width: nat)
    requires forall i :: 0 <= i < |text| ==> IsDigit(text[i])
    ensures HexValue(Padded(text, width)) == HexValue(text)
    ensures forall i :: 0 <= i < width && i < |Padded(text, width)| ==> IsDigit(Padded(text, width)[i])
    decreases width - |text|
  {
    if |text| < width {
      LeadingZero(text);
      PaddedReads("0" + text, width);
    }
  }

  /** hexify writes sixteen upper-case digits that give the value back, so it is injective. */
  lemma HexifyReads(value: uint64)
    ensures |Hexify(value)| == 16
    ensures forall i :: 0 <= i < 16 ==> IsDigit(Hexify(value)[i])
    ensures HexValue(Hexify(value)) == value
  {
    assert Power16(4) == 0x1_0000;
    assert Power16(8) == 0x1_0000_0000;
    assert Power16(12) == 0x1_0000_0000_0000;
    assert Power16(16) == MODULUS;
    HexTextReads(value, 16);
    PaddedReads(HexText(value), 16);
  }

  lemma HexifyTells(a: uint64, b: uint64)
    ensures Hexify(a) == Hexify(b) <==> a == b
  {
    hide Hexify, HexValue;
    HexifyReads(a);
    HexifyReads(b);
  }

  // ---------------------------------------------------------------------------------------------------------
  // Text hashes
  // ---------------------------------------------------------------------------------------------------------

  function TextHash(unicode: seq<int32>): string {
    Hexify(Hashed(FNV_OFFSET_BASIS, unicode))
  }

  method MakeTextHash(unicode: seq<int32>) returns (text: string)
    ensures text == TextHash(unicode)
  {
    hide Widened, Times;
    var hash := FNV_OFFSET_BASIS;
    for i := 0 to |unicode|
      invariant hash == Hashed(FNV_OFFSET_BASIS, unicode[..i])
    {
      assert unicode[..i + 1][..i] == unicode[..i];
      hash := XorWord(hash, Widened(unicode[i]));
      hash := Times(hash, FNV_PRIME);
    }
    assert unicode[..|unicode|] == unicode;
    text := Hexify(hash);
  }

  /** What two texts have in common at the end neither makes nor hides a collision. */
  lemma CommonEndIsNeutral(a: seq<int32>, b: seq<int32>, end: seq<int32>)
    ensures TextHash(a + end) == TextHash(b + end) <==> TextHash(a) == TextHash(b)
  {
    hide Hexify, Hashed, Unhashed;
    var g, h := Hashed(FNV_OFFSET_BASIS, a), Hashed(FNV_OFFSET_BASIS, b);
    HashedAppend(FNV_OFFSET_BASIS, a, end);
    HashedAppend(FNV_OFFSET_BASIS, b, end);
    HashPermutes(g, end);
    HashPermutes(h, end);
    HexifyTells(Hashed(g, end), Hashed(h, end));
    HexifyTells(g, h);
  }

  /** Texts of one length that differ in exactly one symbol have different hashes. */
  lemma OneSymbolTells(a: seq<int32>, b: seq<int32>, at: nat)
    requires |a| == |b| && at < |a| && a[at] != b[at]
    requires forall i :: 0 <= i < |a| && i != at ==> a[i] == b[i]
    ensures TextHash(a) != TextHash(b)
  {
    hide Hexify, Mixed;
    var start := Hashed(FNV_OFFSET_BASIS, a[..at]);
    assert a[..at] == b[..at] && a[at + 1..] == b[at + 1..];
    assert a == a[..at + 1] + a[at + 1..] && b == b[..at + 1] + b[at + 1..];
    assert a[..at + 1][..at] == a[..at] && b[..at + 1][..at] == b[..at];
    CommonEndIsNeutral(a[..at + 1], b[..at + 1], a[at + 1..]);
    MixTells(start, a[at], b[at]);
    HexifyTells(Mixed(start, a[at]), Mixed(start, b[at]));
  }

  // ---------------------------------------------------------------------------------------------------------
  // Known values
  // ---------------------------------------------------------------------------------------------------------

  lemma XorStep(a: nat, b: nat)
    ensures Xor(a, b) == 2 * Xor(a / 2, b / 2) + (a + b) % 2
  {
    if a == 0 && b == 0 { assert Xor(0, 0) == 0; }
  }

  /** A symbol of one byte is mixed into the lowest byte of the state. */
  lemma {:induction false} XorLow(high: nat, low: nat, symbol: nat, bits: nat)
    requires low < Power2(bits) && symbol < Power2(bits)
    ensures Xor(high * Power2(bits) + low, symbol) == high * Power2(bits) + Xor(low, symbol)
    decreases bits
  {
    hide Xor;
    if bits == 0 {
      assert low == 0 && symbol == 0;
      XorNothing(high);
      XorNothing(0);
    } else {
      var half := Power2(bits - 1);
      var n := high * Power2(bits) + low;
      HalfOf(high, low, half, symbol);
      XorLow(high, low / 2, symbol / 2, bits - 1);
      XorStep(n, symbol);
      XorStep(low, symbol);
    }
  }

  lemma HalfOf(high: nat, low: nat, half: nat, symbol: nat)
    ensures var n := high * (2 * half) + low;
      && n / 2 == high * half + low / 2 && (n + symbol) % 2 == (low + symbol) % 2
      && high * (2 * half) == 2 * (high * half)
  {
    var n := high * half;
    assert high * (2 * half) == 2 * n;
  }

  lemma {:induction false} XorNothing(a: nat)
    ensures Xor(a, 0) == a
  {
    if a != 0 { XorNothing(a / 2); }
  }

  lemma MixedLow(high: nat, low: nat, symbol: nat)
    requires low < 0x100 && symbol < 0x80 && high * 0x100 + low < MODULUS
    ensures Mixed(high * 0x100 + low, symbol) == (high * 0x100 + Xor(low, symbol)) * FNV_PRIME % MODULUS
  {
    hide Xor;
    assert Power2(8) == 0x100 by { ByteSize(); }
    XorLow(high, low, symbol, 8);
  }

  lemma ByteSize()
    ensures Power2(8) == 0x100
  {
    assert Power2(4) == 0x10;
  }

  /** The published FNV-1a hashes of the empty text, of "a" and of "ab". */
  lemma KnownHashes()
    ensures Hashed(FNV_OFFSET_BASIS, []) == 0xCBF2_9CE4_8422_2325
    ensures Hashed(FNV_OFFSET_BASIS, [0x61]) == 0xAF63_DC4C_8601_EC8C
    ensures Hashed(FNV_OFFSET_BASIS, [0x61, 0x62]) == 0x089C_4407_B545_986A
  {
    hide Mixed, Xor, Power2;
    assert Xor(0x25, 0x61) == 0x44 && Xor(0x8C, 0x62) == 0xEE by { KnownXors(); }
    MixedLow(0xCB_F29C_E484_2223, 0x25, 0x61);
    MixedLow(0xAF_63DC_4C86_01EC, 0x8C, 0x62);
    assert [0x61][..0] == [] && [0x61, 0x62][..1] == [0x61];
  }

  lemma KnownXors()
    ensures Xor(0x25, 0x61) == 0x44 && Xor(0x8C, 0x62) == 0xEE
  {
    hide Xor;
    FirstXor();
    SecondXor();
  }

  lemma FirstXor()
    ensures Xor(0x25, 0x61) == 0x44
  {
    hide Xor;
    XorNothing(0);
    XorStep(0x25, 0x61);
    XorStep(0x12, 0x30);
    XorStep(0x9, 0x18);
    XorStep(0x4, 0xC);
    XorStep(0x2, 0x6);
    XorStep(0x1, 0x3);
    XorStep(0x0, 0x1);
  }

  lemma SecondXor()
    ensures Xor(0x8C, 0x62) == 0xEE
  {
    hide Xor;
    XorNothing(0);
    XorStep(0x8C, 0x62);
    XorStep(0x46, 0x31);
    XorStep(0x23, 0x18);
    XorStep(0x11, 0xC);
    XorStep(0x8, 0x6);
    XorStep(0x4, 0x3);
    XorStep(0x2, 0x1);
    XorStep(0x1, 0x0);
  }

  /** A negative symbol is widened with its sign. */
  lemma NegativeSymbol()
    ensures Widened(-1) == 0xFFFF_FFFF_FFFF_FFFF && Widened(0x7FFF_FFFF) == 0x7FFF_FFFF
  {
  }

  lemma HexDigit(value: nat, digit: nat, text: string)
    requires 0 < value && digit < 16 && HexText(value) == text
    ensures HexText(16 * value + digit) == text + [DIGITS[digit]]
  {
    var n := 16 * value + digit;
    Sixteen(value, digit);
    assert HexText(n) == HexText(n / 16) + [DIGITS[n % 16]];
  }

  lemma Sixteen(value: nat, digit: nat)
    requires digit < 16
    ensures (16 * value + digit) / 16 == value && (16 * value + digit) % 16 == digit
  {
  }

  /** The hash of the empty text, as text. */
  lemma EmptyTextHash()
    ensures TextHash([]) == "CBF29CE484222325"
  {
    hide HexText;
    assert HexText(0xC) == "C" by { OneDigit(); }
    HexDigit(0xC, 11, "C");
    HexDigit(0xCB, 15, "CB");
    HexDigit(0xCBF, 2, "CBF");
    HexDigit(0xCBF2, 9, "CBF2");
    HexDigit(0xCBF29, 12, "CBF29");
    HexDigit(0xCBF29C, 14, "CBF29C");
    HexDigit(0xCBF29CE, 4, "CBF29CE");
    HexDigit(0xCBF29CE4, 8, "CBF29CE4");
    HexDigit(0xCBF29CE48, 4, "CBF29CE48");
    HexDigit(0xCBF29CE484, 2, "CBF29CE484");
    HexDigit(0xCBF29CE4842, 2, "CBF29CE4842");
    HexDigit(0xCBF29CE48422, 2, "CBF29CE48422");
    HexDigit(0xCBF29CE484222, 3, "CBF29CE484222");
    HexDigit(0xCBF29CE4842223, 2, "CBF29CE4842223");
    HexDigit(0xCBF29CE48422232, 5, "CBF29CE48422232");
  }

  lemma OneDigit()
    ensures HexText(0xC) == "C"
  {
    assert [] + [DIGITS[12]] == "C";
  }
}
