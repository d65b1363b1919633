/** Bytes, 32-bit words as memcpy lays them out, and exclusive-or of byte strings. */
module Bytes {
  import opened Basics

  type Byte = x: int | 0 <= x < 256

  /** The bytes of a SHA-256 hash. */
  const HASH_SIZE: nat := 32

  /** The 32-bit word that holds x. */
  function Wrap32(x: int): (w: nat)
    ensures w < WORD32
  {
    x % WORD32
  }

  /** A uint32_t in memory. */
  function Le32(x: nat): (s: seq<Byte>)
    ensures |s| == 4
  {
    [x % 0x100, x / 0x100 % 0x100, x / 0x1_0000 % 0x100, x / 0x100_0000 % 0x100]
  }

  function FromLe32(s: seq<Byte>): (x: nat)
    requires |s| == 4
    ensures x < WORD32
  {
    s[0] as int + 0x100 * (s[1] as int) + 0x1_0000 * (s[2] as int) + 0x100_0000 * (s[3] as int)
  }

  /** Reading back a stored uint32_t. */
  lemma Le32RoundTrip(x: nat)
    requires x < WORD32
    ensures FromLe32(Le32(x)) == x
  {
    assert x / 0x1_0000 == x / 0x100 / 0x100;
    assert x / 0x100_0000 == x / 0x1_0000 / 0x100;
  }

  /** Byte k of a stored word is the digit of its value that weighs 256^k. */
  lemma Le32At(x: nat, k: nat)
    requires k < 4
    ensures Le32(x)[k] == x / Pow2(8 * k) % Pow2(8)
  {
    assert Pow2(8) == 256 by {
      assert Pow2(4) == 16;
    }
    assert Pow2(16) == 256 * Pow2(8) by {
      assert Pow2(12) == 16 * Pow2(8);
    }
    assert Pow2(24) == 256 * Pow2(16) by {
      assert Pow2(20) == 16 * Pow2(16);
    }
  }

  /** Bit i of x. */
  function Bit(x: nat, i: nat): nat {
    x / Pow2(i) % 2
  }

  /** Exclusive-or of the lowest n bits. */
  function XorBits(a: nat, b: nat, n: nat): (r: nat)
    decreases n
  {
    if n == 0 then 0 else (a + b) % 2 + 2 * XorBits(a / 2, b / 2, n - 1)
  }

  lemma {:induction false} XorBitsBound(a: nat, b: nat, n: nat)
    ensures XorBits(a, b, n) < Pow2(n)
    decreases n
  {
    if n > 0 {
      XorBitsBound(a / 2, b / 2, n - 1);
    }
  }

  lemma ParityTwice(a: nat, b: nat, x: nat)
    ensures var r := (a + b) % 2 + 2 * x; r / 2 == x && (r + b) % 2 == a % 2
  {
  }

  lemma {:induction false} XorBitsTwice(a: nat, b: nat, n: nat)
    requires a < Pow2(n)
    ensures XorBits(XorBits(a, b, n), b, n) == a
    decreases n
  {
    if n > 0 {
      XorBitsTwice(a / 2, b / 2, n - 1);
      ParityTwice(a, b, XorBits(a / 2, b / 2, n - 1));
    }
  }

  function XorByte(a: Byte, b: Byte): Byte {
    XorBitsBound(a, b, 8);
    XorBits(a, b, 8)
  }

  lemma {:induction false} HalfBit(x: nat, i: nat)
    requires i > 0
    ensures Bit(x, i) == Bit(x / 2, i - 1)
  {
    var p := Pow2(i - 1);
    assert Pow2(i) == 2 * p;
    assert x / (2 * p) == x / 2 / p by {
      DivideTwice(x, p);
    }
  }

  lemma DivideTwice(x: nat, p: nat)
    requires p > 0
    ensures x / (2 * p) == x / 2 / p
  {
    var q := x / 2 / p;
    assert x / 2 == q * p + x / 2 % p;
    var r := 2 * (x / 2 % p) + x % 2;
    assert x == q * (2 * p) + r && r < 2 * p;
    DivideUnique(x, 2 * p, q, r);
  }

  lemma DivideUnique(x: int, n: int, q: int, r: int)
    requires n > 0 && 0 <= r < n && x == q * n + r
    ensures x / n == q
  {
    ModUnique(x, n, q, r);
    assert x / n * n == q * n;
  }

  lemma XorBitsHalf(a: nat, b: nat, n: nat)
    requires n > 0
    ensures XorBits(a, b, n) / 2 == XorBits(a / 2, b / 2, n - 1)
    ensures XorBits(a, b, n) % 2 == if a % 2 != b % 2 then 1 else 0
  {
    LowDigit((a + b) % 2, XorBits(a / 2, b / 2, n - 1));
    SumParity(a, b);
  }

  lemma LowDigit(d: nat, rest: nat)
    requires d < 2
    ensures (d + 2 * rest) / 2 == rest && (d + 2 * rest) % 2 == d
  {
  }

  lemma SumParity(a: nat, b: nat)
    ensures (a + b) % 2 == if a % 2 != b % 2 then 1 else 0
  {
  }

  lemma FirstBit(x: nat)
    ensures Bit(x, 0) == x % 2
  {
    assert Pow2(0) == 1;
  }

  lemma {:induction false} XorBitsBit(a: nat, b: nat, n: nat, i: nat)
    requires i < n
    ensures Bit(XorBits(a, b, n), i) == if Bit(a, i) != Bit(b, i) then 1 else 0
    decreases n
  {
    hide *;
    XorBitsHalf(a, b, n);
    if i == 0 {
      FirstBit(XorBits(a, b, n));
      FirstBit(a);
      FirstBit(b);
    } else {
      XorBitsBit(a / 2, b / 2, n - 1, i - 1);
      HalfBit(XorBits(a, b, n), i);
      HalfBit(a, i);
      HalfBit(b, i);
    }
  }

  /** Each bit of the exclusive-or tells whether the two bits differ. */
  lemma XorByteBit(a: Byte, b: Byte, i: nat)
    requires i < 8
    ensures Bit(XorByte(a, b), i) == if Bit(a, i) != Bit(b, i) then 1 else 0
  {
    XorBitsBit(a, b, 8, i);
  }

  lemma {:induction false} BitsDecide(x: nat, y: nat, n: nat)
    requires x < Pow2(n) && y < Pow2(n) && forall i: nat | i < n :: Bit(x, i) == Bit(y, i)
    ensures x == y
    decreases n
  {
    if n > 0 {
      assert Bit(x, 0) == Bit(y, 0) && Pow2(0) == 1;
      forall i: nat | i < n - 1
        ensures Bit(x / 2, i) == Bit(y / 2, i)
      {
        HalfBit(x, i + 1);
        HalfBit(y, i + 1);
        assert Bit(x, i + 1) == Bit(y, i + 1);
      }
      BitsDecide(x / 2, y / 2, n - 1);
    }
  }

  /** The bits of r are set where those of a and b differ. */
  ghost predicate Differing(a: Byte, b: Byte, r: Byte) {
    forall i: nat | i < 8 :: Bit(r, i) == 1 <==> Bit(a, i) != Bit(b, i)
  }

  lemma XorByteExactly(a: Byte, b: Byte, r: Byte)
    ensures r == XorByte(a, b) <==> Differing(a, b, r)
  {
    hide XorByte, Bit;
    forall i: nat | i < 8
      ensures Bit(XorByte(a, b), i) == if Bit(a, i) != Bit(b, i) then 1 else 0
    {
      XorByteBit(a, b, i);
    }
    if Differing(a, b, r) {
      forall i: nat | i < 8
        ensures Bit(r, i) == Bit(XorByte(a, b), i)
      {
        BitIs(r, i);
      }
      BytePower(r);
      BytePower(XorByte(a, b));
      BitsDecide(r, XorByte(a, b), 8);
    }
  }

  lemma BitIs(x: nat, i: nat)
    ensures Bit(x, i) == 0 || Bit(x, i) == 1
  {
  }

  lemma BytePower(x: Byte)
    ensures x < Pow2(8)
  {
    assert Pow2(4) == 16;
  }

  lemma XorByteTwice(a: Byte, b: Byte)
    ensures XorByte(XorByte(a, b), b) == a
  {
    XorBitsTwice(a, b, 8);
  }

  /** Byte by byte, as far as the first string goes. */
  function Xor(a: seq<Byte>, b: seq<Byte>): (r: seq<Byte>)
    requires |a| <= |b|
    ensures |r| == |a|
  {
    seq(|a|, i requires 0 <= i < |a| => XorByte(a[i], b[i]))
  }

  /** r is as long as a, with a bit set exactly where a's and b's bits differ. */
  ghost predicate IsXor(a: seq<Byte>, b: seq<Byte>, r: seq<Byte>) {
    |r| == |a| <= |b| && forall i | 0 <= i < |a| :: Differing(a[i], b[i], r[i])
  }

  /** The exclusive-or is the one string whose bits tell where those of the other two differ. */
  lemma XorExactly(a: seq<Byte>, b: seq<Byte>, r: seq<Byte>)
    requires |a| <= |b|
    ensures r == Xor(a, b) <==> IsXor(a, b, r)
  {
    hide XorByte, Differing;
    forall i | 0 <= i < |a| && i < |r|
      ensures r[i] == Xor(a, b)[i] <==> Differing(a[i], b[i], r[i])
    {
      XorByteExactly(a[i], b[i], r[i]);
    }
  }

  /** Masking twice with the same mask is no masking. */
  lemma XorTwice(a: seq<Byte>, b: seq<Byte>)
    requires |a| <= |b|
    ensures Xor(Xor(a, b), b) == a
  {
    hide XorByte;
    forall i | 0 <= i < |a|
      ensures Xor(Xor(a, b), b)[i] == a[i]
    {
      XorByteTwice(a[i], b[i]);
    }
  }
}
