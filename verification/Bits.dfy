/**
 Machine words as sequences of bits, most significant first: the bitwise
 operations, shifts, rotations and wrap-around addition that unsigned C
 integers have.
 */
module Bits {

  type Bits = seq<bool>

  function Zeros(n: nat): (r: Bits)
    ensures |r| == n && forall i :: 0 <= i < n ==> !r[i]
  {
    seq(n, i => false)
  }

  type Byte = b: Bits | |b| == 8 witness Zeros(8)

  type Word = w: Bits | |w| == 32 witness Zeros(32)

  function And(x: Word, y: Word): (r: Word)
    ensures forall i :: 0 <= i < 32 ==> (r[i] <==> x[i] && y[i])
  {
    seq(32, i requires 0 <= i < 32 => x[i] && y[i])
  }

  function Or(x: Word, y: Word): (r: Word)
    ensures forall i :: 0 <= i < 32 ==> (r[i] <==> x[i] || y[i])
  {
    seq(32, i requires 0 <= i < 32 => x[i] || y[i])
  }

  function Xor(x: Word, y: Word): (r: Word)
    ensures forall i :: 0 <= i < 32 ==> (r[i] <==> x[i] != y[i])
  {
    seq(32, i requires 0 <= i < 32 => x[i] != y[i])
  }

  function Not(x: Word): (r: Word)
    ensures forall i :: 0 <= i < 32 ==> (r[i] <==> !x[i])
  {
    seq(32, i requires 0 <= i < 32 => !x[i])
  }

  function ShiftLeft(x: Word, n: nat): Word
    requires n <= 32
  {
    x[n..] + Zeros(n)
  }

  function ShiftRight(x: Word, n: nat): Word
    requires n <= 32
  {
    Zeros(n) + x[..32 - n]
  }

  function RotateLeft(x: Word, n: nat): Word
    requires n <= 32
  {
    x[n..] + x[..n]
  }

  /** Rotation written with two shifts. */
  lemma RotateByShifts(x: Word, n: nat)
    requires n <= 32
    ensures Or(ShiftLeft(x, n), ShiftRight(x, 32 - n)) == RotateLeft(x, n)
  {
  }

  // Numbers

  function Value(b: Bits): nat {
    if b == [] then 0 else 2 * Value(b[..|b| - 1]) + if b[|b| - 1] then 1 else 0
  }

  /** The low `width` bits of a number. */
  function ToBits(n: nat, width: nat): (r: Bits)
    ensures |r| == width
  {
    if width == 0 then [] else ToBits(n / 2, width - 1) + [n % 2 == 1]
  }

  function Pow2(n: nat): (r: nat)
    ensures r > 0
  {
    if n == 0 then 1 else 2 * Pow2(n - 1)
  }

  lemma {:induction false} ValueBound(b: Bits)
    ensures Value(b) < Pow2(|b|)
  {
    if b != [] { ValueBound(b[..|b| - 1]); }
  }

  lemma {:induction false} BitsOfValue(b: Bits)
    ensures ToBits(Value(b), |b|) == b
  {
    if b != [] {
      BitsOfValue(b[..|b| - 1]);
      assert Value(b) / 2 == Value(b[..|b| - 1]);
    }
  }

  lemma {:induction false} ValueOfBits(n: nat, width: nat)
    requires n < Pow2(width)
    ensures Value(ToBits(n, width)) == n
  {
    if width > 0 {
      ValueOfBits(n / 2, width - 1);
      assert ToBits(n, width)[..width - 1] == ToBits(n / 2, width - 1);
    }
  }

  lemma {:induction false} LeadingZero(b: Bits)
    ensures Value([false] + b) == Value(b)
  {
    if b == [] {
      assert [false] + b == [false] && [false][..0] == [];
    } else {
      LeadingZero(b[..|b| - 1]);
      assert ([false] + b)[..|b|] == [false] + b[..|b| - 1];
    }
  }

  /** Addition modulo 2^32. */
  function Plus(x: Word, y: Word): Word { ToBits(Value(x) + Value(y), 32) }

  /** `Plus` wraps around. */
  lemma PlusWraps(x: Word, y: Word)
    ensures Value(Plus(x, y)) == (Value(x) + Value(y)) % 0x1_0000_0000
  {
    Pow2Is32();
    LowBits(Value(x) + Value(y), 32);
  }

  lemma Pow2Is32()
    ensures Pow2(32) == 0x1_0000_0000
  {
    assert Pow2(8) == 256;
    assert Pow2(16) == 65536;
    assert Pow2(24) == 0x1000000;
  }

  lemma {:induction false} Pow2Sum(a: nat, b: nat)
    ensures Pow2(a + b) == Pow2(a) * Pow2(b)
    decreases b
  {
    if b > 0 { Pow2Sum(a, b - 1); }
  }

  /** Only the remainder modulo 2^width shows in `width` bits. */
  lemma {:induction false} LowBits(n: nat, width: nat)
    ensures Value(ToBits(n, width)) == n % Pow2(width)
  {
    if width > 0 {
      LowBits(n / 2, width - 1);
      assert ToBits(n, width)[..width - 1] == ToBits(n / 2, width - 1);
      HalfMod(n, Pow2(width - 1));
    }
  }

  lemma HalfMod(n: nat, m: nat)
    requires m > 0
    ensures n % (2 * m) == 2 * ((n / 2) % m) + n % 2
  {
    var q, r := (n / 2) / m, (n / 2) % m;
    assert n / 2 == q * m + r;
    assert n == (2 * m) * q + (2 * r + n % 2);
    Remainder(n, 2 * m, q, 2 * r + n % 2);
  }

  lemma Remainder(n: nat, m: nat, q: nat, r: nat)
    requires n == m * q + r && r < m
    ensures n % m == r && n / m == q
  {
    var d := n / m - q;
    assert n == m * (n / m) + n % m;
    assert m * d == r - n % m by {
      assert m * (n / m) - m * q == m * d;
    }
    assert d >= 1 ==> m * d >= m;
    assert d <= -1 ==> m * d <= 0 - m;
  }

  /** A right shift by `k`. */
  function Halve(n: nat, k: nat): nat { if k == 0 then n else Halve(n / 2, k - 1) }

  lemma {:induction false} SplitAt(n: nat, width: nat, low: nat)
    ensures ToBits(n, width + low) == ToBits(Halve(n, low), width) + ToBits(n, low)
    decreases low
  {
    if low > 0 {
      var high, rest, bit := ToBits(Halve(n, low), width), ToBits(n / 2, low - 1), [n % 2 == 1];
      SplitAt(n / 2, width, low - 1);
      assert (high + rest) + bit == high + (rest + bit);
    }
  }

  lemma {:induction false} HalveSum(n: nat, a: nat, b: nat)
    ensures Halve(n, a + b) == Halve(Halve(n, a), b)
    decreases a
  {
    if a > 0 { HalveSum(n / 2, a - 1, b); }
  }

  // Bytes of longer words

  /** Bits cut into `n` bytes. */
  function Cut(b: Bits, n: nat): (r: seq<Byte>)
    requires |b| == 8 * n
    ensures |r| == n
    decreases n
  {
    if n == 0 then [] else Cut(b[..|b| - 8], n - 1) + [b[|b| - 8..]]
  }

  /** Bytes end to end. */
  function Joined(bytes: seq<Byte>): (r: Bits)
    ensures |r| == 8 * |bytes|
  {
    if bytes == [] then [] else Joined(bytes[..|bytes| - 1]) + bytes[|bytes| - 1]
  }

  lemma CutSnoc(b: Bits, n: nat, last: Byte)
    requires |b| == 8 * n
    ensures |b + last| == 8 * (n + 1) && Cut(b + last, n + 1) == Cut(b, n) + [last]
  {
    assert (b + last)[..|b|] == b && (b + last)[|b|..] == last;
  }

  lemma JoinedSnoc(bytes: seq<Byte>, last: Byte)
    ensures Joined(bytes + [last]) == Joined(bytes) + last
  {
    assert (bytes + [last])[..|bytes|] == bytes;
  }

  lemma {:induction false} JoinedCut(b: Bits, n: nat)
    requires |b| == 8 * n
    ensures Joined(Cut(b, n)) == b
    decreases n
  {
    if n > 0 {
      var k := |b| - 8;
      JoinedCut(b[..k], n - 1);
      JoinedSnoc(Cut(b[..k], n - 1), b[k..]);
      assert b == b[..k] + b[k..];
    }
  }

  /** A number in `count` bytes, most significant first, as `htonl` and its kin leave it in memory. */
  function BigEndian(n: nat, count: nat): (r: seq<Byte>)
    ensures |r| == count
  {
    Cut(ToBits(n, 8 * count), count)
  }

  function Number(bytes: seq<Byte>): nat { Value(Joined(bytes)) }

  lemma NumberOfBigEndian(n: nat, count: nat)
    requires n < Pow2(8 * count)
    ensures Number(BigEndian(n, count)) == n
  {
    JoinedCut(ToBits(n, 8 * count), count);
    ValueOfBits(n, 8 * count);
  }

  /** The first byte counts most. */
  lemma {:induction false} NumberSnoc(bytes: seq<Byte>, last: Byte)
    ensures Number(bytes + [last]) == 256 * Number(bytes) + Value(last)
  {
    JoinedSnoc(bytes, last);
    ValueConcat(Joined(bytes), last);
    assert Pow2(8) == 256;
  }

  lemma {:induction false} ValueConcat(a: Bits, b: Bits)
    ensures Value(a + b) == Pow2(|b|) * Value(a) + Value(b)
    decreases |b|
  {
    if b == [] {
      assert a + b == a;
    } else {
      var n := |b| - 1;
      ValueConcat(a, b[..n]);
      assert (a + b)[..|a + b| - 1] == a + b[..n] && (a + b)[|a + b| - 1] == b[n];
      Doubled(Pow2(n), Value(a));
    }
  }

  lemma Doubled(p: nat, v: nat)
    ensures 2 * (p * v) == (2 * p) * v
  {
  }

  /** Pointwise operations on bytes. */
  function AndByte(x: Byte, y: Byte): (r: Byte)
    ensures forall i :: 0 <= i < 8 ==> (r[i] <==> x[i] && y[i])
  {
    seq(8, i requires 0 <= i < 8 => x[i] && y[i])
  }

  function OrByte(x: Byte, y: Byte): (r: Byte)
    ensures forall i :: 0 <= i < 8 ==> (r[i] <==> x[i] || y[i])
  {
    seq(8, i requires 0 <= i < 8 => x[i] || y[i])
  }

  function XorByte(x: Byte, y: Byte): (r: Byte)
    ensures forall i :: 0 <= i < 8 ==> (r[i] <==> x[i] != y[i])
  {
    seq(8, i requires 0 <= i < 8 => x[i] != y[i])
  }

  lemma XorTwice(x: Byte, y: Byte)
    ensures XorByte(XorByte(x, y), y) == x
  {
  }
}
