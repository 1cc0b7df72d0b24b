/**
 * The binary arithmetic of the 6502: the 8-bit adder with carry in and
 * carry out, subtraction as addition of the one's complement, and the
 * compare instructions, which are a subtraction whose result is dropped.
 */
module Alu {
  import opened Bits

  /** One pass through the 8-bit adder: the result byte, carry out and signed overflow. */
  datatype Sum = Sum(value: Byte, carry: bool, overflow: bool)

  function CarryValue(c: bool): (r: nat)
    ensures r < 2 && (r == 1 <==> c)
  {
    if c then 1 else 0
  }

  /**
   * Binary ADC: a 9-bit sum A + M + C. The low eight bits are the result,
   * the ninth is the carry, and V is set when A and M have the same sign and
   * the result has the other one.
   */
  function AddWithCarry(a: Byte, m: Byte, carryIn: bool): (r: Sum)
    ensures r.value + 0x100 * CarryValue(r.carry) == a + m + CarryValue(carryIn)
    ensures r.overflow <==> !(-0x80 <= ToSigned(a) + ToSigned(m) + CarryValue(carryIn) < 0x80)
  {
    var total := a + m + CarryValue(carryIn);
    var value := total % 0x100;
    Sum(value, total > 0xFF, Negative(a) == Negative(m) && Negative(value) != Negative(a))
  }

  /** The one's complement of a byte: every bit inverted (see ComplementBits). */
  function Complement(m: Byte): Byte
  {
    0xFF - m
  }

  /** 0xFF - m inverts every bit of m: adding it to m gives all ones without carries. */
  lemma ComplementBits(m: Byte)
    ensures forall i :: 0 <= i < 8 ==> Bit(Complement(m), i) != Bit(m, i)
  {
    ComplementBitsWidth(m, 0xFF - m, 8);
  }

  lemma {:induction false} ComplementBitsWidth(m: nat, k: nat, width: nat)
    requires m + k == Pow2(width) - 1
    ensures forall i :: 0 <= i < width ==> Bit(k, i) != Bit(m, i)
  {
    if width > 0 {
      assert (m % 2) + (k % 2) == 1;
      assert m / 2 + k / 2 == Pow2(width - 1) - 1;
      ComplementBitsWidth(m / 2, k / 2, width - 1);
      forall i | 0 <= i < width
        ensures Bit(k, i) != Bit(m, i)
      {
        if i > 0 {
          assert Bit(k, i) == Bit(k / 2, i - 1);
          assert Bit(m, i) == Bit(m / 2, i - 1);
        }
      }
    }
  }

  /**
   * Binary SBC: A - M - (1 - C), computed as ADC of the one's complement of M.
   * C reads "no borrow": it is set when the true difference is not negative.
   */
  function SubtractWithBorrow(a: Byte, m: Byte, carryIn: bool): (r: Sum)
    ensures r.value == (a - m - (1 - CarryValue(carryIn))) % 0x100
    ensures r.carry <==> a - m - (1 - CarryValue(carryIn)) >= 0
    ensures r.overflow <==> !(-0x80 <= ToSigned(a) - ToSigned(m) - (1 - CarryValue(carryIn)) < 0x80)
  {
    var r := AddWithCarry(a, Complement(m), carryIn);
    assert ToSigned(Complement(m)) == -1 - ToSigned(m);
    r
  }

  /**
   * CMP, CPX and CPY: register - M through the adder with carry in set,
   * keeping only the flags. C is set when register >= M (unsigned).
   */
  function Compare(register: Byte, m: Byte): (r: Sum)
    ensures r.carry <==> register >= m
    ensures r.value == 0 <==> register == m
    ensures r.value == (register - m) % 0x100
  {
    var r := SubtractWithBorrow(register, m, true);
    assert CarryValue(true) == 1;
    SmallModZero(register - m);
    r
  }

  /** A difference of two bytes is 0 modulo 256 only when it is 0. */
  lemma SmallModZero(d: int)
    requires -0x100 < d < 0x100
    ensures d % 0x100 == 0 <==> d == 0
  {
    if d < 0 {
      assert d % 0x100 == d + 0x100;
    }
  }
}
