/**
 * The processor status register P. The flags are kept as a record of
 * booleans; StatusByte packs them into the byte the CPU reports, laid out
 * from bit 7 down as N V 1 B D I Z C (bit 5 always reads as 1).
 */
module Status {
  import opened Bits

  datatype Flags = Flags(
    n: bool,  // negative: bit 7 of the last result
    v: bool,  // signed overflow
    b: bool,  // break
    d: bool,  // decimal mode for ADC and SBC
    i: bool,  // interrupt disable
    z: bool,  // zero result
    c: bool   // carry, or "no borrow" after a subtraction
  )

  /** The P byte: the flags packed most significant first as N V 1 B D I Z C. */
  function StatusByte(f: Flags): Byte
  {
    FromBitsBits(StatusBits(f));
    assert Pow2(8) == 0x100;
    FromBits(StatusBits(f))
  }

  /** The bits of the P byte, least significant first: C Z I D B 1 V N. */
  function StatusBits(f: Flags): (bits: seq<bool>)
    ensures |bits| == 8
  {
    [f.c, f.z, f.i, f.d, f.b, true, f.v, f.n]
  }

  /** Reads the flags back out of a P byte; bit 5 is ignored. */
  function FlagsOf(p: Byte): Flags
  {
    Flags(n := Bit(p, 7), v := Bit(p, 6), b := Bit(p, 4), d := Bit(p, 3),
          i := Bit(p, 2), z := Bit(p, 1), c := Bit(p, 0))
  }

  /** Each flag sits at its own bit of the P byte (C at bit 0 up to N at bit 7), and bit 5 is always set. */
  lemma StatusByteBits(f: Flags)
    ensures StatusByte(f) < 0x100
    ensures forall i :: 0 <= i < 8 ==> Bit(StatusByte(f), i) == StatusBits(f)[i]
  {
    FromBitsBits(StatusBits(f));
  }

  /** Setting C to c makes bit 0 of P read c and leaves bits 1 to 7 as they were. */
  lemma CarryBitOnly(f: Flags, c: bool)
    ensures Bit(StatusByte(f.(c := c)), 0) == c
    ensures forall i :: 1 <= i < 8 ==> Bit(StatusByte(f.(c := c)), i) == Bit(StatusByte(f), i)
  {
    var g := f.(c := c);
    assert StatusBits(g) == StatusBits(f)[0 := c];
    StatusByteBits(f);
    StatusByteBits(g);
  }

  /** Setting D to d makes bit 3 of P read d and leaves the other seven bits as they were. */
  lemma DecimalBitOnly(f: Flags, d: bool)
    ensures Bit(StatusByte(f.(d := d)), 3) == d
    ensures forall i :: 0 <= i < 8 && i != 3 ==> Bit(StatusByte(f.(d := d)), i) == Bit(StatusByte(f), i)
  {
    var g := f.(d := d);
    assert StatusBits(g) == StatusBits(f)[3 := d];
    StatusByteBits(f);
    StatusByteBits(g);
  }

  /** Packing the flags and reading them back gives the same flags. */
  lemma FlagsRoundTrip(f: Flags)
    ensures FlagsOf(StatusByte(f)) == f
  {
    var p := StatusByte(f);
    var bits := StatusBits(f);
    StatusByteBits(f);
    assert Bit(p, 7) == f.n && Bit(p, 6) == f.v && Bit(p, 4) == f.b && Bit(p, 3) == f.d by {
      assert bits[7] == f.n && bits[6] == f.v && bits[4] == f.b && bits[3] == f.d;
    }
    assert Bit(p, 2) == f.i && Bit(p, 1) == f.z && Bit(p, 0) == f.c by {
      assert bits[2] == f.i && bits[1] == f.z && bits[0] == f.c;
    }
  }

  /** The always-one bit alone: of the low eight bits, 0x20 has only bit 5 set. */
  lemma AlwaysOneBit()
    ensures forall i :: 0 <= i < 8 ==> (Bit(0x20, i) <==> i == 5)
  {
    forall i | 0 <= i < 8
      ensures Bit(0x20, i) <==> i == 5
    {
      assert i == 0 || i == 1 || i == 2 || i == 3 || i == 4 || i == 5 || i == 6 || i == 7;
    }
  }

  /** The bits FlagsOf(p) packs are p's own bits, except bit 5 which is always set. */
  lemma RepackedBits(p: Byte)
    ensures forall i :: 0 <= i < 8 ==> StatusBits(FlagsOf(p))[i] == (i == 5 || Bit(p, i))
  {
    forall i | 0 <= i < 8
      ensures StatusBits(FlagsOf(p))[i] == (i == 5 || Bit(p, i))
    {
      assert i == 0 || i == 1 || i == 2 || i == 3 || i == 4 || i == 5 || i == 6 || i == 7;
    }
  }

  /** Reading a P byte's flags and packing them again gives the byte with bit 5 forced on. */
  lemma StatusRoundTrip(p: Byte)
    ensures StatusByte(FlagsOf(p)) == BitOr(p, 0x20)
  {
    var q := StatusByte(FlagsOf(p));
    var o := BitOr(p, 0x20);
    FromBitsBits(StatusBits(FlagsOf(p)));
    RepackedBits(p);
    AlwaysOneBit();
    BitwiseBits(p, 0x20);
    assert Pow2(8) == 0x100;
    BitsDetermine(q, o, 8);
  }
}
