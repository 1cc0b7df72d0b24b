/**
 * What each modelled instruction does, stated against independent
 * references: bitwise meaning for ORA/AND/EOR, the 9-bit and signed sums for
 * binary ADC/SBC, the decimal sum and difference for decimal mode, and the
 * unsigned order for the compares. Each lemma also says which registers and
 * flags the instruction leaves alone.
 */
module Semantics {
  import opened Bits
  import opened Status
  import opened Alu
  import opened Bcd
  import opened Bus
  import opened Cpu

  /** ORA: A gets A | M bit by bit; Z iff the result is 0, N iff its bit 7 is set; nothing else changes. */
  lemma OraSemantics(s: State, m: Byte)
    ensures var r := Execute(s, ORA, m);
      && (forall i :: 0 <= i < 8 ==> Bit(r.a, i) == (Bit(s.a, i) || Bit(m, i)))
      && (r.flags.z <==> r.a == 0)
      && (r.flags.n <==> Bit(s.a, 7) || Bit(m, 7))
      && r == s.(a := r.a, flags := s.flags.(n := r.flags.n, z := r.flags.z))
  {
    BitwiseBits(s.a, m);
    NegativeIsBit7(BitOr(s.a, m));
  }

  /** AND: A gets A & M bit by bit; Z iff the result is 0, N iff bit 7 is set in both; nothing else changes. */
  lemma AndSemantics(s: State, m: Byte)
    ensures var r := Execute(s, AND, m);
      && (forall i :: 0 <= i < 8 ==> Bit(r.a, i) == (Bit(s.a, i) && Bit(m, i)))
      && (r.flags.z <==> r.a == 0)
      && (r.flags.n <==> Bit(s.a, 7) && Bit(m, 7))
      && r == s.(a := r.a, flags := s.flags.(n := r.flags.n, z := r.flags.z))
  {
    BitwiseBits(s.a, m);
    NegativeIsBit7(BitAnd(s.a, m));
  }

  /** EOR: A gets A ^ M bit by bit; Z iff A equalled M, N iff the bit 7s differ; nothing else changes. */
  lemma EorSemantics(s: State, m: Byte)
    ensures var r := Execute(s, EOR, m);
      && (forall i :: 0 <= i < 8 ==> Bit(r.a, i) == (Bit(s.a, i) != Bit(m, i)))
      && (r.flags.z <==> s.a == m)
      && (r.flags.n <==> Bit(s.a, 7) != Bit(m, 7))
      && r == s.(a := r.a, flags := s.flags.(n := r.flags.n, z := r.flags.z))
  {
    var v := BitXor(s.a, m);
    BitwiseBits(s.a, m);
    NegativeIsBit7(v);
    assert Pow2(8) == 0x100;
    ZeroIffNoBits(v);
    if v == 0 {
      BitsDetermine(s.a, m, 8);
    }
  }

  /** EOR twice with the same operand restores A. */
  lemma EorTwiceRestores(s: State, m: Byte)
    ensures Execute(Execute(s, EOR, m), EOR, m).a == s.a
  {
    XorInvolution(s.a, m);
  }

  /** LDA, LDX and LDY copy M into their register; Z iff M is 0, N iff bit 7 of M; nothing else changes. */
  lemma LoadSemantics(s: State, m: Byte)
    ensures var r := Execute(s, LDA, m); r.a == m && r == s.(a := m, flags := s.flags.(n := Bit(m, 7), z := m == 0))
    ensures var r := Execute(s, LDX, m); r.x == m && r == s.(x := m, flags := s.flags.(n := Bit(m, 7), z := m == 0))
    ensures var r := Execute(s, LDY, m); r.y == m && r == s.(y := m, flags := s.flags.(n := Bit(m, 7), z := m == 0))
  {
    NegativeIsBit7(m);
  }

  /**
   * Binary ADC: A' = (A + M + C) mod 256 and C' = (A + M + C > 255), that is
   * A' + 256 * C' = A + M + C; V' iff A and M share a sign that A' lacks,
   * which is exactly when the signed sum leaves -128..127; N and Z from A'.
   */
  lemma AdcBinarySemantics(s: State, m: Byte)
    requires !s.flags.d
    ensures var r := Execute(s, ADC, m);
      var total := s.a + m + CarryValue(s.flags.c);
      && r.a == total % 0x100
      && (r.flags.c <==> total > 0xFF)
      && (r.flags.v <==> Negative(s.a) == Negative(m) && Negative(r.a) != Negative(s.a))
      && (r.flags.v <==> !(-0x80 <= ToSigned(s.a) + ToSigned(m) + CarryValue(s.flags.c) < 0x80))
      && (r.flags.n <==> Bit(r.a, 7))
      && (r.flags.z <==> r.a == 0)
      && r == s.(a := r.a, flags := s.flags.(n := r.flags.n, v := r.flags.v, z := r.flags.z, c := r.flags.c))
  {
    NegativeIsBit7(Execute(s, ADC, m).a);
  }

  /**
   * Binary SBC: A' = (A - M - (1 - C)) mod 256; C' iff no borrow, that is
   * A >= M + (1 - C); V' iff the signed difference leaves -128..127; N and Z from A'.
   */
  lemma SbcBinarySemantics(s: State, m: Byte)
    requires !s.flags.d
    ensures var r := Execute(s, SBC, m);
      var diff := s.a - m - (1 - CarryValue(s.flags.c));
      && r.a == diff % 0x100
      && (r.flags.c <==> s.a >= m + (1 - CarryValue(s.flags.c)))
      && (r.flags.v <==> !(-0x80 <= ToSigned(s.a) - ToSigned(m) - (1 - CarryValue(s.flags.c)) < 0x80))
      && (r.flags.n <==> Bit(r.a, 7))
      && (r.flags.z <==> r.a == 0)
      && r == s.(a := r.a, flags := s.flags.(n := r.flags.n, v := r.flags.v, z := r.flags.z, c := r.flags.c))
  {
    NegativeIsBit7(Execute(s, SBC, m).a);
  }

  /**
   * Decimal ADC on BCD operands: A' is the BCD form of (a + b + c) mod 100,
   * C' iff a + b + c >= 100, Z iff that sum is 0 mod 100, N and V clear,
   * D stays set; X, Y, PC, SP, I and B unchanged.
   */
  lemma AdcDecimalSemantics(s: State, m: Byte)
    requires s.flags.d && BcdValid(s.a) && BcdValid(m)
    ensures var r := Execute(s, ADC, m);
      var total := BcdValue(s.a) + BcdValue(m) + CarryValue(s.flags.c);
      && r.a == ToBcd(total % 100)
      && BcdValue(r.a) == total % 100
      && (r.flags.c <==> total >= 100)
      && (r.flags.z <==> total % 100 == 0)
      && !r.flags.n && !r.flags.v && r.flags.d
      && r == s.(a := r.a, flags := s.flags.(n := false, v := false, z := r.flags.z, c := r.flags.c))
  {
    DecimalAddCorrect(s.a, m, s.flags.c);
  }

  /**
   * Decimal SBC on BCD operands: A' is the BCD form of (a - b - (1 - c)) mod 100,
   * C' iff that difference is not negative, Z iff it is 0 mod 100, N and V
   * clear, D stays set; X, Y, PC, SP, I and B unchanged.
   */
  lemma SbcDecimalSemantics(s: State, m: Byte)
    requires s.flags.d && BcdValid(s.a) && BcdValid(m)
    ensures var r := Execute(s, SBC, m);
      var diff := BcdValue(s.a) - BcdValue(m) - (1 - CarryValue(s.flags.c));
      && r.a == ToBcd(diff % 100)
      && BcdValue(r.a) == diff % 100
      && (r.flags.c <==> diff >= 0)
      && (r.flags.z <==> diff % 100 == 0)
      && !r.flags.n && !r.flags.v && r.flags.d
      && r == s.(a := r.a, flags := s.flags.(n := false, v := false, z := r.flags.z, c := r.flags.c))
  {
    DecimalSubtractCorrect(s.a, m, s.flags.c);
  }

  /**
   * CMP, CPX and CPY: C iff the register >= M (unsigned), Z iff they are
   * equal, N is bit 7 of (register - M) mod 256; no register and no other
   * flag changes.
   */
  lemma CompareSemantics(s: State, op: Operation, m: Byte)
    requires op == CMP || op == CPX || op == CPY
    ensures var r := Execute(s, op, m);
      var register := CompareRegister(s, op);
      && (r.flags.c <==> register >= m)
      && (r.flags.z <==> register == m)
      && (r.flags.n <==> Bit((register - m) % 0x100, 7))
      && r == s.(flags := s.flags.(n := r.flags.n, z := r.flags.z, c := r.flags.c))
  {
    NegativeIsBit7((CompareRegister(s, op) - m) % 0x100);
  }

  /** CLC, read off the P byte: bit 0 (C) cleared, every other bit of P kept; A, X, Y, PC and SP unchanged. */
  lemma ClcSemantics(s: State, m: Byte)
    ensures var p := StatusByte(s.flags); var r := Execute(s, CLC, m); var q := StatusByte(r.flags);
      && !Bit(q, 0) && (forall i :: 1 <= i < 8 ==> Bit(q, i) == Bit(p, i))
      && r.a == s.a && r.x == s.x && r.y == s.y && r.pc == s.pc && r.sp == s.sp
  {
    assert Execute(s, CLC, m) == s.(flags := s.flags.(c := false));
    CarryBitOnly(s.flags, false);
  }

  /** SEC, read off the P byte: bit 0 (C) set, every other bit of P kept; A, X, Y, PC and SP unchanged. */
  lemma SecSemantics(s: State, m: Byte)
    ensures var p := StatusByte(s.flags); var r := Execute(s, SEC, m); var q := StatusByte(r.flags);
      && Bit(q, 0) && (forall i :: 1 <= i < 8 ==> Bit(q, i) == Bit(p, i))
      && r.a == s.a && r.x == s.x && r.y == s.y && r.pc == s.pc && r.sp == s.sp
  {
    assert Execute(s, SEC, m) == s.(flags := s.flags.(c := true));
    CarryBitOnly(s.flags, true);
  }

  /** SED, read off the P byte: bit 3 (D) set, every other bit of P kept; A, X, Y, PC and SP unchanged. */
  lemma SedSemantics(s: State, m: Byte)
    ensures var p := StatusByte(s.flags); var r := Execute(s, SED, m); var q := StatusByte(r.flags);
      && Bit(q, 3) && (forall i :: 0 <= i < 8 && i != 3 ==> Bit(q, i) == Bit(p, i))
      && r.a == s.a && r.x == s.x && r.y == s.y && r.pc == s.pc && r.sp == s.sp
  {
    assert Execute(s, SED, m) == s.(flags := s.flags.(d := true));
    DecimalBitOnly(s.flags, true);
  }

  /** Reset produces the same state whatever the state before it, and resetting twice is resetting once. */
  lemma ResetIgnoresPrior(s1: State, s2: State, mem: Memory)
    ensures Reset(s1, mem) == Reset(s2, mem)
    ensures Reset(Reset(s1, mem), mem) == Reset(s1, mem)
  {
  }
}
