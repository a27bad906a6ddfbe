/** 64-bit words, bitwise operations on them, and byte-addressed little-endian memory. */
module Words {

  const TWO32: nat := 0x1_0000_0000
  const TWO64: nat := 0x1_0000_0000_0000_0000

  type Word = w: nat | w < 0x1_0000_0000_0000_0000
  type Byte = b: nat | b < 256

  /** The residue of x modulo 2^64 (never negative). */
  function Wrap(x: int): Word {
    x % 0x1_0000_0000_0000_0000
  }

  lemma WrapAdd(x: int, y: int)
    ensures Wrap(Wrap(x) + y) == Wrap(x + y)
  {
  }

  lemma Fits(x: int)
    requires 0 <= x < TWO64
    ensures Wrap(x) == x
  {
  }

  // ----- bitwise operations

  /** The bitwise conjunction of two naturals. */
  function BitAnd(x: nat, y: nat): (r: nat)
    ensures r <= x && r <= y
    decreases x
  {
    if x == 0 || y == 0 then 0
    else (if x % 2 == 1 && y % 2 == 1 then 1 else 0) + 2 * BitAnd(x / 2, y / 2)
  }

  /** The bitwise exclusive or of two naturals. */
  function BitXor(x: nat, y: nat): (r: nat)
    decreases x
  {
    if x == 0 then y
    else if y == 0 then x
    else (if x % 2 == y % 2 then 0 else 1) + 2 * BitXor(x / 2, y / 2)
  }

  function Pow2(n: nat): (r: nat)
    ensures r > 0
  {
    if n == 0 then 1 else 2 * Pow2(n - 1)
  }

  lemma Pow2Of64()
    ensures Pow2(64) == TWO64
  {
    assert Pow2(8) == 0x100;
    assert Pow2(16) == 0x1_0000;
    assert Pow2(24) == 0x100_0000;
    assert Pow2(32) == 0x1_0000_0000;
    assert Pow2(40) == 0x100_0000_0000;
    assert Pow2(48) == 0x1_0000_0000_0000;
    assert Pow2(56) == 0x100_0000_0000_0000;
  }

  lemma {:induction false} AndOnes(x: nat, n: nat)
    requires x < Pow2(n)
    ensures BitAnd(x, Pow2(n) - 1) == x
  {
    if x != 0 {
      AndOnes(x / 2, n - 1);
      assert (Pow2(n) - 1) / 2 == Pow2(n - 1) - 1;
    }
  }

  function ShiftRight(x: nat, n: nat): nat {
    if n == 0 then x else ShiftRight(x / 2, n - 1)
  }

  /** Masking with 2^n - 1 keeps the low n bits and drops the rest. */
  lemma {:induction false} AndMask(x: nat, n: nat)
    ensures x == BitAnd(x, Pow2(n) - 1) + Pow2(n) * ShiftRight(x, n)
    ensures BitAnd(x, Pow2(n) - 1) < Pow2(n)
    decreases n
  {
    hide BitAnd, ShiftRight;
    if n == 0 {
      MaskNothing(x);
    } else {
      AndMask(x / 2, n - 1);
      AndHalf(x, Pow2(n - 1));
      ShiftStep(x, n);
      DoubleProduct(Pow2(n - 1), ShiftRight(x / 2, n - 1));
    }
  }

  lemma MaskNothing(x: nat)
    ensures BitAnd(x, 0) == 0 && ShiftRight(x, 0) == x
  {
  }

  lemma ShiftStep(x: nat, n: nat)
    requires n >= 1
    ensures ShiftRight(x, n) == ShiftRight(x / 2, n - 1)
  {
  }

  lemma DoubleProduct(a: nat, b: nat)
    ensures 2 * a * b == 2 * (a * b)
  {
  }

  lemma AndHalf(x: nat, h: nat)
    requires h > 0
    ensures BitAnd(x, 2 * h - 1) == x % 2 + 2 * BitAnd(x / 2, h - 1)
  {
    assert (2 * h - 1) / 2 == h - 1;
  }

  lemma {:induction false} XorBound(x: nat, y: nat, n: nat)
    requires x < Pow2(n) && y < Pow2(n)
    ensures BitXor(x, y) < Pow2(n)
  {
    if x != 0 && y != 0 {
      XorBound(x / 2, y / 2, n - 1);
    }
  }

  lemma {:induction false} XorOnes(x: nat, n: nat)
    requires x < Pow2(n)
    ensures BitXor(x, Pow2(n) - 1) == Pow2(n) - 1 - x
    decreases n
  {
    if n != 0 && x != 0 {
      XorOnes(x / 2, n - 1);
      assert (Pow2(n) - 1) / 2 == Pow2(n - 1) - 1;
    }
  }

  lemma {:induction false} XorCancel(x: nat, y: nat)
    ensures BitXor(BitXor(x, y), y) == x
    decreases x + y
  {
    if x == 0 {
      XorSelf(y);
    } else if y != 0 {
      XorCancel(x / 2, y / 2);
    }
  }

  lemma {:induction false} XorSelf(x: nat)
    ensures BitXor(x, x) == 0
  {
    if x != 0 {
      XorSelf(x / 2);
    }
  }

  lemma XorZeroIff(x: nat, y: nat)
    ensures BitXor(x, y) == 0 <==> x == y
  {
    XorCancel(x, y);
    XorSelf(x);
  }

  /** The 64-bit exclusive or. */
  function XorWord(x: Word, y: Word): Word {
    Wrap(BitXor(x, y))
  }

  lemma XorWordExact(x: Word, y: Word)
    ensures XorWord(x, y) == BitXor(x, y)
  {
    Pow2Of64();
    XorBound(x, y, 64);
  }

  lemma XorWordSelf(x: Word)
    ensures XorWord(x, x) == 0
  {
    XorSelf(x);
  }

  /** A word masked by all ones is itself, and two exclusive ors with one value cancel. */
  lemma MaskLaws(x: Word, y: Word)
    ensures BitAnd(x, TWO64 - 1) == x
    ensures XorWord(XorWord(x, y), y) == x
    ensures XorWord(0, y) == y
    ensures XorWord(x, TWO64 - 1) == TWO64 - 1 - x
    ensures XorWord(x, y) == 0 <==> x == y
  {
    Pow2Of64();
    AndOnes(x, 64);
    XorWordExact(x, y);
    XorWordExact(XorWord(x, y), y);
    XorCancel(x, y);
    XorZeroIff(x, y);
    XorOnes(x, 64);
  }

  // ----- little-endian byte strings

  function Pow256(n: nat): (r: nat)
    ensures r > 0
  {
    if n == 0 then 1 else 256 * Pow256(n - 1)
  }

  /** The value of a little-endian byte string. */
  function Value(bs: seq<Byte>): nat {
    if bs == [] then 0 else bs[0] + 256 * Value(bs[1..])
  }

  /** Byte i of v counted from the least significant. */
  function ByteOf(v: nat, i: nat): Byte {
    if i == 0 then v % 256 else ByteOf(v / 256, i - 1)
  }

  /** The n low bytes of v, least significant first. */
  function LittleEndian(v: nat, n: nat): (bs: seq<Byte>) {
    seq(n, i requires 0 <= i < n => ByteOf(v, i))
  }

  lemma {:induction false} ValueLittleEndian(v: nat, n: nat)
    requires v < Pow256(n)
    ensures Value(LittleEndian(v, n)) == v
  {
    var bs := LittleEndian(v, n);
    if n != 0 {
      ValueLittleEndian(v / 256, n - 1);
      assert bs[1..] == LittleEndian(v / 256, n - 1);
    }
  }

  lemma {:induction false} ValueBound(bs: seq<Byte>)
    ensures Value(bs) < Pow256(|bs|)
  {
    if bs != [] {
      ValueBound(bs[1..]);
    }
  }

  // ----- memory

  /** Byte-addressed memory; an address with no entry reads as zero. */
  type Memory = map<nat, Byte>

  function ByteAt(m: Memory, a: nat): Byte {
    if a in m then m[a] else 0
  }

  function Bytes(m: Memory, a: nat, n: nat): (bs: seq<Byte>)
    ensures |bs| == n
  {
    seq<Byte>(n, i requires 0 <= i < n => ByteAt(m, a + i))
  }

  /** Memory after the byte string bs is written at address a. */
  function Write(m: Memory, a: nat, bs: seq<Byte>): (r: Memory)
    ensures forall x: nat :: ByteAt(r, x) == if a <= x < a + |bs| then bs[x - a] else ByteAt(m, x)
    decreases |bs|
  {
    if bs == [] then m else Write(m[a := bs[0]], a + 1, bs[1..])
  }

  function Load64(m: Memory, a: nat): Word {
    ValueBound(Bytes(m, a, 8));
    assert Pow256(8) == TWO64;
    Value(Bytes(m, a, 8))
  }

  function Load32(m: Memory, a: nat): (w: Word)
    ensures w < TWO32
  {
    ValueBound(Bytes(m, a, 4));
    assert Pow256(4) == TWO32;
    Value(Bytes(m, a, 4))
  }

  function Store64(m: Memory, a: nat, v: Word): Memory {
    Write(m, a, LittleEndian(v, 8))
  }

  /** The two memories hold the same bytes at every address in [lo, hi). */
  ghost predicate Agree(m: Memory, m': Memory, lo: nat, hi: nat) {
    forall x :: lo <= x < hi ==> ByteAt(m, x) == ByteAt(m', x)
  }

  /** The two memories hold the same bytes at every address outside [lo, hi). */
  ghost predicate AgreeOutside(m: Memory, m': Memory, lo: nat, hi: nat) {
    forall x: nat :: !(lo <= x < hi) ==> ByteAt(m, x) == ByteAt(m', x)
  }

  lemma AgreeTrans(m: Memory, m': Memory, m'': Memory, lo: nat, hi: nat)
    requires AgreeOutside(m, m', lo, hi) && AgreeOutside(m', m'', lo, hi)
    ensures AgreeOutside(m, m'', lo, hi)
  {
  }

  lemma Load64Agree(m: Memory, m': Memory, a: nat)
    requires Agree(m, m', a, a + 8)
    ensures Load64(m, a) == Load64(m', a)
  {
    assert Bytes(m, a, 8) == Bytes(m', a, 8);
  }

  lemma Load32Agree(m: Memory, m': Memory, a: nat)
    requires Agree(m, m', a, a + 4)
    ensures Load32(m, a) == Load32(m', a)
  {
    assert Bytes(m, a, 4) == Bytes(m', a, 4);
  }

  /** A store is read back, and changes only the eight bytes it names. */
  lemma Store64Laws(m: Memory, a: nat, v: Word)
    ensures Load64(Store64(m, a, v), a) == v
    ensures AgreeOutside(m, Store64(m, a, v), a, a + 8)
  {
    assert Bytes(Store64(m, a, v), a, 8) == LittleEndian(v, 8);
    assert Pow256(8) == TWO64;
    ValueLittleEndian(v, 8);
  }

  lemma Load64Store64Other(m: Memory, a: nat, v: Word, b: nat)
    requires b + 8 <= a || a + 8 <= b
    ensures Load64(Store64(m, a, v), b) == Load64(m, b)
  {
    Load64Agree(m, Store64(m, a, v), b);
  }
}
