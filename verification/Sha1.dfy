/**
 `Sha1DigestHex` against SHA-1 as FIPS 180-4 defines it: padding (section
 5.1.1), message schedule and rounds (section 6.1.2), functions and constants
 (sections 4.1.1 and 4.2.1), with bytes taken most significant first.
 */
module Sha1 {
  import opened Bits

  datatype Hash = Hash(a: Word, b: Word, c: Word, d: Word, e: Word)

  function Word32(n: nat): Word { ToBits(n, 32) }

  // The standard

  function Initial(): Hash {
    Hash(Word32(0x67452301), Word32(0xefcdab89), Word32(0x98badcfe), Word32(0x10325476), Word32(0xc3d2e1f0))
  }

  function Ch(x: Word, y: Word, z: Word): Word { Xor(And(x, y), And(Not(x), z)) }

  function Parity(x: Word, y: Word, z: Word): Word { Xor(Xor(x, y), z) }

  function Maj(x: Word, y: Word, z: Word): Word { Xor(Xor(And(x, y), And(x, z)), And(y, z)) }

  function F(t: nat, x: Word, y: Word, z: Word): Word {
    if t < 20 then Ch(x, y, z) else if t < 40 then Parity(x, y, z) else if t < 60 then Maj(x, y, z) else Parity(x, y, z)
  }

  function K(t: nat): Word {
    if t < 20 then Word32(0x5a827999)
    else if t < 40 then Word32(0x6ed9eba1)
    else if t < 60 then Word32(0x8f1bbcdc)
    else Word32(0xca62c1d6)
  }

  lemma WordValue(n: nat)
    requires n < 0x1_0000_0000
    ensures Value(Word32(n)) == n
  {
    Pow2Is32();
    ValueOfBits(n, 32);
  }

  const TWO60 := 0x1000_0000_0000_0000

  /** The numbers whose square roots the round constants come from. */
  function Radicand(t: nat): nat { if t < 20 then 2 else if t < 40 then 3 else if t < 60 then 5 else 10 }

  /** The integer part of 2^30 times the square root of `c`. */
  predicate IsRoot(k: nat, c: nat) { k * k <= c * TWO60 < (k + 1) * (k + 1) }

  lemma Roots()
    ensures IsRoot(0x5a827999, 2) && IsRoot(0x6ed9eba1, 3) && IsRoot(0x8f1bbcdc, 5) && IsRoot(0xca62c1d6, 10)
  {
  }

  /** The round constants come from the square roots of 2, 3, 5 and 10. */
  lemma RoundConstants(t: nat)
    ensures IsRoot(Value(K(t)), Radicand(t))
  {
    Roots();
    WordValue(0x5a827999);
    WordValue(0x6ed9eba1);
    WordValue(0x8f1bbcdc);
    WordValue(0xca62c1d6);
  }

  /** Four bytes from the least significant one on, each larger than the one before by `step`. */
  function Ladder(first: int, step: int): int {
    first + 0x100 * (first + step) + 0x1_0000 * (first + 2 * step) + 0x100_0000 * (first + 3 * step)
  }

  /** The initial hash value counts up and down in nibbles: 01 23 45 67 and so on. */
  lemma InitialPattern()
    ensures Value(Initial().a) == Ladder(0x01, 0x22) && Value(Initial().b) == Ladder(0x89, 0x22)
    ensures Value(Initial().c) == Ladder(0xfe, -0x22) && Value(Initial().d) == Ladder(0x76, -0x22)
    ensures Value(Initial().e) == Ladder(0xf0, -0x0f)
  {
    WordValue(0x67452301);
    WordValue(0xefcdab89);
    WordValue(0x98badcfe);
    WordValue(0x10325476);
    WordValue(0xc3d2e1f0);
  }

  /** Four bytes end to end. */
  function Join(b0: Bits, b1: Bits, b2: Bits, b3: Bits): Bits { b0 + b1 + b2 + b3 }

  /** The t-th word of the i-th block. */
  function BlockWord(msg: seq<Byte>, i: nat, t: nat): Word
    requires 64 * i + 64 <= |msg| && t < 16
  {
    var k := 64 * i + 4 * t;
    Join(msg[k], msg[k + 1], msg[k + 2], msg[k + 3])
  }

  /** The message schedule. */
  function W(msg: seq<Byte>, i: nat, t: nat): Word
    requires 64 * i + 64 <= |msg|
  {
    if t < 16 then BlockWord(msg, i, t)
    else RotateLeft(Xor(Xor(Xor(W(msg, i, t - 3), W(msg, i, t - 8)), W(msg, i, t - 14)), W(msg, i, t - 16)), 1)
  }

  function Round(h: Hash, t: nat, w: Word): Hash {
    Hash(Plus(Plus(Plus(Plus(RotateLeft(h.a, 5), F(t, h.b, h.c, h.d)), h.e), K(t)), w),
         h.a, RotateLeft(h.b, 30), h.c, h.d)
  }

  /** The working variables after `t` rounds on the i-th block. */
  function Rounds(h: Hash, msg: seq<Byte>, i: nat, t: nat): Hash
    requires 64 * i + 64 <= |msg|
  {
    if t == 0 then h else Round(Rounds(h, msg, i, t - 1), t - 1, W(msg, i, t - 1))
  }

  function Add(x: Hash, y: Hash): Hash {
    Hash(Plus(x.a, y.a), Plus(x.b, y.b), Plus(x.c, y.c), Plus(x.d, y.d), Plus(x.e, y.e))
  }

  /** The hash value after one more block. */
  function NextHash(h: Hash, msg: seq<Byte>, i: nat): Hash
    requires 64 * i + 64 <= |msg|
  {
    Add(h, Rounds(h, msg, i, 80))
  }

  /** The hash value after `n` blocks. */
  function Blocks(msg: seq<Byte>, n: nat): Hash
    requires 64 * n <= |msg|
  {
    if n == 0 then Initial() else NextHash(Blocks(msg, n - 1), msg, n - 1)
  }

  /** The smallest number of zero bytes that brings a message of `n` bytes and the marker to 56 modulo 64. */
  function ZeroBytes(n: nat): nat { (55 - n) % 64 }

  lemma ZeroBytesSmallest(n: nat, z: nat)
    ensures (n + 1 + ZeroBytes(n)) % 64 == 56
    ensures (n + 1 + z) % 64 == 56 ==> ZeroBytes(n) <= z
  {
  }

  function ZeroRun(n: nat): (r: seq<Byte>)
    ensures |r| == n
  {
    if n == 0 then [] else ZeroRun(n - 1) + [ToBits(0, 8)]
  }

  /** The marker bit, the zeros and the length of the message in bits, as 64 bits. */
  function Padded(data: seq<Byte>): seq<Byte> {
    data + [ToBits(0x80, 8)] + ZeroRun(ZeroBytes(|data|)) + BigEndian(8 * |data|, 8)
  }

  lemma EightMore(x: nat)
    requires x % 64 == 56
    ensures (x + 8) % 64 == 0
  {
  }

  lemma PaddedLength(data: seq<Byte>)
    ensures |Padded(data)| == |data| + 1 + ZeroBytes(|data|) + 8 && |Padded(data)| % 64 == 0
  {
    ZeroBytesSmallest(|data|, 0);
    EightMore(|data| + 1 + ZeroBytes(|data|));
    assert |Padded(data)| == |data| + 1 + ZeroBytes(|data|) + 8;
  }

  function Digest(h: Hash): seq<Byte> { Cut(h.a, 4) + Cut(h.b, 4) + Cut(h.c, 4) + Cut(h.d, 4) + Cut(h.e, 4) }

  function Sha1(data: seq<Byte>): seq<Byte> {
    PaddedLength(data);
    Digest(Blocks(Padded(data), |Padded(data)| / 64))
  }

  // The code's own forms

  lemma ChOr(x: Word, y: Word, z: Word)
    ensures Or(And(x, y), And(Not(x), z)) == Ch(x, y, z)
  {
  }

  lemma MajOr(x: Word, y: Word, z: Word)
    ensures Or(Or(And(x, y), And(x, z)), And(y, z)) == Maj(x, y, z)
  {
  }

  /** A byte widened to a word and shifted into place. */
  function Placed(b: Byte, shift: nat): Word
    requires shift <= 24
  {
    ShiftLeft(Zeros(24) + b, shift)
  }

  lemma WordOr(b0: Byte, b1: Byte, b2: Byte, b3: Byte)
    ensures Or(Or(Or(Placed(b0, 24), Placed(b1, 16)), Placed(b2, 8)), Placed(b3, 0)) == Join(b0, b1, b2, b3)
  {
  }

  /** The low byte of a number, after a right shift. */
  function LowByte(n: nat): Byte { ToBits(n, 8) }

  /** What remains of a `width`-byte number above its low `i` bytes, in bytes. */
  function TopBytes(n: nat, width: nat, i: nat): seq<Byte>
    requires i <= width
  {
    BigEndian(Halve(n, 8 * i), width - i)
  }

  /** Shifting and masking picks one more byte of the number, most significant first. */
  lemma NextByte(n: nat, width: nat, i: nat)
    requires i < width
    ensures TopBytes(n, width, i) == TopBytes(n, width, i + 1) + [LowByte(Halve(n, 8 * i))]
  {
    var m, rest := Halve(n, 8 * i), 8 * (width - i - 1);
    HalveSum(n, 8 * i, 8);
    SplitAt(m, rest, 8);
    CutSnoc(ToBits(Halve(m, 8), rest), width - i - 1, LowByte(m));
  }

  /** The length field is the length in bits, whenever that fits 64 bits. */
  lemma LengthField(data: seq<Byte>)
    requires |data| < 0x2000_0000_0000_0000
    ensures Value(ToBits(8 * |data|, 64)) == 8 * |data|
  {
    Pow2Is32();
    Pow2Sum(32, 32);
    ValueOfBits(8 * |data|, 64);
  }

  // The code

  lemma MoreZeros(n: nat, z: nat)
    requires (n + 1 + z) % 64 != 56 && z <= ZeroBytes(n)
    ensures z < ZeroBytes(n)
  {
  }

  lemma EnoughZeros(n: nat, z: nat)
    requires (n + 1 + z) % 64 == 56 && z <= ZeroBytes(n)
    ensures z == ZeroBytes(n)
  {
  }

  lemma ZeroRunSnoc(start: seq<Byte>, z: nat)
    requires z > 0
    ensures start + ZeroRun(z - 1) + [ToBits(0, 8)] == start + ZeroRun(z)
  {
  }

  method PadZeros(data: seq<Byte>) returns (msg: seq<Byte>)
    ensures msg == data + [ToBits(0x80, 8)] + ZeroRun(ZeroBytes(|data|))
  {
    var start := data + [ToBits(0x80, 8)];
    msg := start;
    ghost var z := 0;
    assert start + ZeroRun(0) == start;
    while |msg| % 64 != 56
      invariant z <= ZeroBytes(|data|) && msg == start + ZeroRun(z) && |msg| == |data| + 1 + z
      decreases ZeroBytes(|data|) - z
    {
      MoreZeros(|data|, z);
      msg := msg + [ToBits(0, 8)];
      z := z + 1;
      ZeroRunSnoc(start, z);
    }
    EnoughZeros(|data|, z);
  }

  /** Appends the bytes of a number, most significant first, by shifting and masking. */
  method AppendNumber(msg: seq<Byte>, n: nat, width: nat) returns (r: seq<Byte>)
    ensures r == msg + BigEndian(n, width)
  {
    r := msg;
    assert TopBytes(n, width, width) == [] && TopBytes(n, width, 0) == BigEndian(n, width);
    var i := width - 1;
    while i >= 0
      invariant -1 <= i < width && r == msg + TopBytes(n, width, i + 1)
    {
      NextByte(n, width, i);
      r := r + [LowByte(Halve(n, 8 * i))];
      i := i - 1;
    }
  }

  method Pad(data: seq<Byte>) returns (msg: seq<Byte>)
    ensures msg == Padded(data)
  {
    msg := PadZeros(data);
    msg := AppendNumber(msg, 8 * |data|, 8);
  }

  method LoadWord(msg: seq<Byte>, i: nat, t: nat) returns (w: Word)
    requires 64 * i + 64 <= |msg| && t < 16
    ensures w == BlockWord(msg, i, t)
  {
    var o := 64 * i + 4 * t;
    WordOr(msg[o], msg[o + 1], msg[o + 2], msg[o + 3]);
    w := Or(Or(Or(Placed(msg[o], 24), Placed(msg[o + 1], 16)), Placed(msg[o + 2], 8)), Placed(msg[o + 3], 0));
  }

  method RotateOne(w3: Word, w8: Word, w14: Word, w16: Word) returns (w: Word)
    ensures w == RotateLeft(Xor(Xor(Xor(w3, w8), w14), w16), 1)
  {
    var val := Xor(Xor(Xor(w3, w8), w14), w16);
    RotateByShifts(val, 1);
    w := Or(ShiftLeft(val, 1), ShiftRight(val, 31));
  }

  /** The first `t` words of the schedule. */
  ghost function Words(msg: seq<Byte>, i: nat, t: nat): (r: seq<Word>)
    requires 64 * i + 64 <= |msg|
    ensures |r| == t
  {
    if t == 0 then [] else Words(msg, i, t - 1) + [W(msg, i, t - 1)]
  }

  lemma {:induction false} WordsAt(msg: seq<Byte>, i: nat, t: nat, k: nat)
    requires 64 * i + 64 <= |msg| && k < t
    ensures Words(msg, i, t)[k] == W(msg, i, k)
  {
    if k < t - 1 { WordsAt(msg, i, t - 1, k); }
  }

  method Expand(msg: seq<Byte>, i: nat, w: array<Word>, t: nat) returns (x: Word)
    requires 64 * i + 64 <= |msg| && 16 <= t < w.Length && w[..t] == Words(msg, i, t)
    ensures x == W(msg, i, t)
  {
    WordsAt(msg, i, t, t - 3);
    WordsAt(msg, i, t, t - 8);
    WordsAt(msg, i, t, t - 14);
    WordsAt(msg, i, t, t - 16);
    x := RotateOne(w[t - 3], w[t - 8], w[t - 14], w[t - 16]);
  }

  method Schedule(msg: seq<Byte>, i: nat, w: array<Word>)
    requires 64 * i + 64 <= |msg| && w.Length == 80
    modifies w
    ensures w[..] == Words(msg, i, 80)
  {
    var t := 0;
    while t < w.Length
      invariant 0 <= t <= w.Length && w[..t] == Words(msg, i, t)
    {
      var x;
      if t < 16 {
        x := LoadWord(msg, i, t);
      } else {
        x := Expand(msg, i, w, t);
      }
      w[t] := x;
      t := t + 1;
      assert w[..t] == w[..t - 1] + [x];
    }
    assert w[..] == w[..t];
  }

  method Mix(t: nat, b: Word, c: Word, d: Word) returns (f: Word, k: Word)
    ensures f == F(t, b, c, d) && k == K(t)
  {
    if t < 20 {
      ChOr(b, c, d);
      f, k := Or(And(b, c), And(Not(b), d)), Word32(0x5a827999);
    } else if t < 40 {
      f, k := Xor(Xor(b, c), d), Word32(0x6ed9eba1);
    } else if t < 60 {
      MajOr(b, c, d);
      f, k := Or(Or(And(b, c), And(b, d)), And(c, d)), Word32(0x8f1bbcdc);
    } else {
      f, k := Xor(Xor(b, c), d), Word32(0xca62c1d6);
    }
  }

  method OneRound(h: Hash, t: nat, w: Word) returns (r: Hash)
    ensures r == Round(h, t, w)
  {
    var a, b, c, d, e := h.a, h.b, h.c, h.d, h.e;
    var f, k := Mix(t, b, c, d);
    RotateByShifts(a, 5);
    RotateByShifts(b, 30);
    var temp := Plus(Plus(Plus(Plus(Or(ShiftLeft(a, 5), ShiftRight(a, 27)), f), e), k), w);
    e := d;
    d := c;
    c := Or(ShiftLeft(b, 30), ShiftRight(b, 2));
    b := a;
    a := temp;
    r := Hash(a, b, c, d, e);
  }

  method Compress(msg: seq<Byte>, i: nat, w: array<Word>, h: Hash) returns (r: Hash)
    requires 64 * i + 64 <= |msg| && w.Length == 80 && w[..] == Words(msg, i, 80)
    ensures r == Rounds(h, msg, i, 80)
  {
    r := h;
    for t := 0 to 80
      invariant r == Rounds(h, msg, i, t)
    {
      WordsAt(msg, i, 80, t);
      r := OneRound(r, t, w[..][t]);
    }
  }

  method HashBlock(h: Hash, msg: seq<Byte>, i: nat) returns (h': Hash)
    requires 64 * i + 64 <= |msg|
    ensures h' == NextHash(h, msg, i)
  {
    var w := new Word[80](_ => Zeros(32));
    Schedule(msg, i, w);
    var r := Compress(msg, i, w, h);
    h' := Hash(Plus(h.a, r.a), Plus(h.b, r.b), Plus(h.c, r.c), Plus(h.d, r.d), Plus(h.e, r.e));
  }

  method HashBlocks(msg: seq<Byte>) returns (h: Hash)
    requires |msg| % 64 == 0
    ensures h == Blocks(msg, |msg| / 64)
  {
    h := Initial();
    var n := |msg| / 64;
    for i := 0 to n
      invariant h == Blocks(msg, i)
    {
      h := HashBlock(h, msg, i);
    }
  }

  method AppendWord(digest: seq<Byte>, w: Word) returns (r: seq<Byte>)
    ensures r == digest + Cut(w, 4)
  {
    BitsOfValue(w);
    r := AppendNumber(digest, Value(w), 4);
  }

  /** `Sha1DigestHex` is SHA-1; its 20 bytes are raw, whatever its name says. */
  method Sha1DigestHex(data: seq<Byte>) returns (digest: seq<Byte>)
    ensures digest == Sha1(data)
  {
    PaddedLength(data);
    var msg := Pad(data);
    var h := HashBlocks(msg);
    digest := AppendWord([], h.a);
    digest := AppendWord(digest, h.b);
    digest := AppendWord(digest, h.c);
    digest := AppendWord(digest, h.d);
    digest := AppendWord(digest, h.e);
    assert [] + Cut(h.a, 4) == Cut(h.a, 4);
  }
}
