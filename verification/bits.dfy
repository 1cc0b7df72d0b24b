/**
 * Bytes, words and the bit-level view of them that the 6502 flag rules are
 * stated in: bit 7 is the sign (the N flag), and ORA, AND and EOR act on the
 * eight bits independently.
 */
module Bits {

  /** An 8-bit value: A, X, Y, SP and every memory cell. */
  type Byte = x: int | 0 <= x < 0x100

  /** A 16-bit value: the program counter and every address. */
  type Word = x: int | 0 <= x < 0x1_0000

  function Pow2(n: nat): (r: nat)
    ensures r >= 1
  {
    if n == 0 then 1 else 2 * Pow2(n - 1)
  }

  /** Bit i of x, counting from the least significant bit. */
  predicate Bit(x: nat, i: nat)
  {
    if i == 0 then x % 2 == 1 else Bit(x / 2, i - 1)
  }

  /** The sign of a byte read as two's complement; the N flag copies it. */
  predicate Negative(x: Byte)
  {
    x >= 0x80
  }

  /** The two's-complement value of a byte, in [-128, 127]. */
  function ToSigned(x: Byte): (r: int)
    ensures -0x80 <= r < 0x80
    ensures (r < 0) == Negative(x)
    ensures (r - x) % 0x100 == 0
  {
    if x < 0x80 then x else x - 0x100
  }

  /** Shifting a low bit in below q: bit 0 is that bit, bit i+1 is bit i of q. */
  lemma BitOfShifted(low: nat, q: nat, i: nat)
    requires low < 2
    ensures Bit(low + 2 * q, i) == if i == 0 then low == 1 else Bit(q, i - 1)
  {
    assert (low + 2 * q) / 2 == q;
  }

  /** The number whose bits, least significant first, are `bits`. */
  function FromBits(bits: seq<bool>): nat
  {
    if |bits| == 0 then 0 else (if bits[0] then 1 else 0) + 2 * FromBits(bits[1..])
  }

  /** FromBits fits in |bits| bits and bit i of it is bits[i]. */
  lemma {:induction false} FromBitsBits(bits: seq<bool>)
    ensures FromBits(bits) < Pow2(|bits|)
    ensures forall i :: 0 <= i < |bits| ==> Bit(FromBits(bits), i) == bits[i]
  {
    if |bits| > 0 {
      var low := if bits[0] then 1 else 0;
      FromBitsBits(bits[1..]);
      forall i | 0 <= i < |bits|
        ensures Bit(low + 2 * FromBits(bits[1..]), i) == bits[i]
      {
        BitOfShifted(low, FromBits(bits[1..]), i);
        if i > 0 {
          assert bits[1..][i - 1] == bits[i];
        }
      }
    }
  }

  /** Every bit at or above `width` of a number below 2^width is clear. */
  lemma {:induction false} HighBitsClear(x: nat, width: nat, i: nat)
    requires x < Pow2(width)
    requires width <= i
    ensures !Bit(x, i)
  {
    if i > 0 {
      if width == 0 {
        assert x == 0;
        HighBitsClear(x / 2, 0, i - 1);
      } else {
        HighBitsClear(x / 2, width - 1, i - 1);
      }
    }
  }

  /** Two numbers below 2^width with the same low `width` bits are equal. */
  lemma {:induction false} BitsDetermine(x: nat, y: nat, width: nat)
    requires x < Pow2(width) && y < Pow2(width)
    requires forall i :: 0 <= i < width ==> Bit(x, i) == Bit(y, i)
    ensures x == y
  {
    if width > 0 {
      forall i | 0 <= i < width - 1
        ensures Bit(x / 2, i) == Bit(y / 2, i)
      {
        assert Bit(x, i + 1) == Bit(y, i + 1);
      }
      BitsDetermine(x / 2, y / 2, width - 1);
      assert Bit(x, 0) == Bit(y, 0);
    }
  }

  /** Bit `width` of a number below 2^(width+1) is set iff it is at least 2^width. */
  lemma {:induction false} TopBit(x: nat, width: nat)
    requires x < Pow2(width + 1)
    ensures Bit(x, width) <==> x >= Pow2(width)
  {
    if width > 0 {
      TopBit(x / 2, width - 1);
    }
  }

  /** N reads bit 7: a byte is negative exactly when its bit 7 is set. */
  lemma NegativeIsBit7(x: Byte)
    ensures Negative(x) <==> Bit(x, 7)
  {
    assert Pow2(8) == 0x100 && Pow2(7) == 0x80;
    TopBit(x, 7);
  }

  /** A byte is zero exactly when all eight of its bits are clear. */
  lemma ZeroIffNoBits(x: Byte)
    ensures x == 0 ==> forall i :: 0 <= i < 8 ==> !Bit(x, i)
    ensures (forall i :: 0 <= i < 8 ==> !Bit(x, i)) ==> x == 0
  {
    assert Pow2(8) == 0x100;
    forall i | 0 <= i < 8
      ensures !Bit(0, i)
    {
      HighBitsClear(0, 0, i);
    }
    if forall i :: 0 <= i < 8 ==> !Bit(x, i) {
      BitsDetermine(x, 0, 8);
    }
  }

  /** Bitwise OR of two bytes (ORA), computed on the 8-bit vector. */
  function BitOr(a: Byte, b: Byte): Byte
  {
    ((a as bv8) | (b as bv8)) as int
  }

  /** Bitwise AND of two bytes (AND). */
  function BitAnd(a: Byte, b: Byte): Byte
  {
    ((a as bv8) & (b as bv8)) as int
  }

  /** Bitwise exclusive OR of two bytes (EOR). */
  function BitXor(a: Byte, b: Byte): Byte
  {
    ((a as bv8) ^ (b as bv8)) as int
  }

  /** The 8-bit vector with only bit i set. */
  function Mask(i: nat): bv8
    requires i < 8
  {
    if i == 0 then 1 else if i == 1 then 2 else if i == 2 then 4 else if i == 3 then 8
    else if i == 4 then 16 else if i == 5 then 32 else if i == 6 then 64 else 128
  }

  /** Bit i of a vector: set when masking with Mask(i) leaves it nonzero. */
  predicate VBit(x: bv8, i: nat)
    requires i < 8
  {
    x & Mask(i) != 0
  }

  /** Bit i + 1 of a vector is bit i of the vector shifted right once. */
  lemma VBitShift(x: bv8, i: nat)
    requires i < 7
    ensures VBit(x, i + 1) == VBit(x >> 1, i)
  {
    if i == 0 {
    } else if i == 1 {
    } else if i == 2 {
    } else if i == 3 {
    } else if i == 4 {
    } else if i == 5 {
    } else {
    }
  }

  /** Bit i of a byte is bit i of its 8-bit vector. */
  lemma {:induction false} VectorBit(x: bv8, i: nat)
    requires i < 8
    ensures Bit(x as int, i) == VBit(x, i)
  {
    if i == 0 {
      assert (x as int) % 2 == 1 <==> x & 1 == 1;
    } else {
      assert (x as int) / 2 == (x >> 1) as int;
      VectorBit(x >> 1, i - 1);
      VBitShift(x, i - 1);
    }
  }

  /** Mask(i) has exactly one bit set. */
  lemma MaskSingle(i: nat)
    requires i < 8
    ensures Mask(i) != 0 && Mask(i) & (Mask(i) - 1) == 0
  {
  }

  /** Under a one-bit mask, OR, AND and exclusive OR act on that bit alone. */
  lemma SingleBitOps(x: bv8, y: bv8, m: bv8)
    requires m != 0 && m & (m - 1) == 0
    ensures (x | y) & m != 0 <==> (x & m != 0 || y & m != 0)
    ensures (x & y) & m != 0 <==> (x & m != 0 && y & m != 0)
    ensures (x ^ y) & m != 0 <==> (x & m != 0) != (y & m != 0)
  {
  }

  /** On vectors, bit i of x | y is set when bit i of x or of y is. */
  lemma VectorOrBit(x: bv8, y: bv8, i: nat)
    requires i < 8
    ensures VBit(x | y, i) == (VBit(x, i) || VBit(y, i))
  {
    MaskSingle(i);
    SingleBitOps(x, y, Mask(i));
  }

  /** On vectors, bit i of x & y is set when bit i of both x and y is. */
  lemma VectorAndBit(x: bv8, y: bv8, i: nat)
    requires i < 8
    ensures VBit(x & y, i) == (VBit(x, i) && VBit(y, i))
  {
    MaskSingle(i);
    SingleBitOps(x, y, Mask(i));
  }

  /** On vectors, bit i of x ^ y is set when exactly one of bit i of x and of y is. */
  lemma VectorXorBit(x: bv8, y: bv8, i: nat)
    requires i < 8
    ensures VBit(x ^ y, i) == (VBit(x, i) != VBit(y, i))
  {
    MaskSingle(i);
    SingleBitOps(x, y, Mask(i));
  }

  /** A byte converts to an 8-bit vector and back unchanged. */
  lemma ByteVector(a: Byte)
    ensures (a as bv8) as int == a
  {
    assert a % 0x100 == a;
  }

  /** Bit i of a byte is bit i of its 8-bit vector. */
  lemma ByteBit(a: Byte, i: nat)
    requires i < 8
    ensures Bit(a, i) == VBit(a as bv8, i)
  {
    ByteVector(a);
    VectorBit(a as bv8, i);
  }

  /** Bit i of a | b is set when bit i of a or of b is. */
  lemma OrBit(a: Byte, b: Byte, i: nat)
    requires i < 8
    ensures Bit(BitOr(a, b), i) == (Bit(a, i) || Bit(b, i))
  {
    var x, y := a as bv8, b as bv8;
    ByteBit(a, i);
    ByteBit(b, i);
    assert Bit(BitOr(a, b), i) == VBit(x | y, i) by {
      VectorBit(x | y, i);
    }
    VectorOrBit(x, y, i);
  }

  /** Bit i of a & b is set when bit i of both a and b is. */
  lemma AndBit(a: Byte, b: Byte, i: nat)
    requires i < 8
    ensures Bit(BitAnd(a, b), i) == (Bit(a, i) && Bit(b, i))
  {
    var x, y := a as bv8, b as bv8;
    ByteBit(a, i);
    ByteBit(b, i);
    assert Bit(BitAnd(a, b), i) == VBit(x & y, i) by {
      VectorBit(x & y, i);
    }
    VectorAndBit(x, y, i);
  }

  /** Bit i of a ^ b is set when exactly one of bit i of a and of b is. */
  lemma XorBit(a: Byte, b: Byte, i: nat)
    requires i < 8
    ensures Bit(BitXor(a, b), i) == (Bit(a, i) != Bit(b, i))
  {
    var x, y := a as bv8, b as bv8;
    ByteBit(a, i);
    ByteBit(b, i);
    assert Bit(BitXor(a, b), i) == VBit(x ^ y, i) by {
      VectorBit(x ^ y, i);
    }
    VectorXorBit(x, y, i);
  }

  /** Bit i of A | M, A & M and A ^ M is the OR, AND and exclusive OR of bit i of A and of M. */
  lemma BitwiseBits(a: Byte, b: Byte)
    ensures forall i :: 0 <= i < 8 ==> Bit(BitOr(a, b), i) == (Bit(a, i) || Bit(b, i))
    ensures forall i :: 0 <= i < 8 ==> Bit(BitAnd(a, b), i) == (Bit(a, i) && Bit(b, i))
    ensures forall i :: 0 <= i < 8 ==> Bit(BitXor(a, b), i) == (Bit(a, i) != Bit(b, i))
  {
    forall i | 0 <= i < 8
      ensures Bit(BitOr(a, b), i) == (Bit(a, i) || Bit(b, i))
      ensures Bit(BitAnd(a, b), i) == (Bit(a, i) && Bit(b, i))
      ensures Bit(BitXor(a, b), i) == (Bit(a, i) != Bit(b, i))
    {
      OrBit(a, b, i);
      AndBit(a, b, i);
      XorBit(a, b, i);
    }
  }

  /** Exclusive OR with the same byte twice gives back the original byte. */
  lemma XorInvolution(a: Byte, m: Byte)
    ensures BitXor(BitXor(a, m), m) == a
  {
    BitwiseBits(a, m);
    BitwiseBits(BitXor(a, m), m);
    assert Pow2(8) == 0x100;
    BitsDetermine(BitXor(BitXor(a, m), m), a, 8);
  }
}
