/**
 * The immediate-mode test suite of the emulator, replayed against the model.
 * The fixture sets the reset vector to the default load address and resets
 * the CPU; each case loads its program's bytes there and steps. Cases are
 * stated for any state before the reset and any memory contents, since the
 * suite resets and reloads between sub-cases without clearing memory.
 */
module ImmediateModeCases {
  import opened Bits
  import opened Status
  import opened Alu
  import opened Bcd
  import opened Bus
  import opened Cpu
  import opened Program

  /** Every flag clear: P reads 0x20 with only the always-one bit set. */
  const Cleared := Flags(false, false, false, false, false, false, false)

  /** The state the fixture's reset leaves: registers zero, PC at the load address, SP 0xFF, P 0x20. */
  function Ready(): State
  {
    State(0, 0, 0, DefaultLoadAddress, 0xFF, Cleared)
  }

  /** The fixture's memory: the reset vector at 0xFFFC/0xFFFD holds the default load address, low byte first. */
  function Fixture(mem: Memory): (r: Memory)
    ensures r(ResetVector) == 0x00 && r(ResetVector + 1) == 0x02
    ensures forall a: Word :: a < ResetVector ==> r(a) == mem(a)
  {
    Load(mem, ResetVector, WordBytes(DefaultLoadAddress))
  }

  /** The fixture: after reset the registers read 0, 0, 0, PC 0x200, SP 0xFF and P 0x20. */
  lemma SetUp(prior: State, mem: Memory)
    ensures var s := Reset(prior, Fixture(mem));
      && s == Ready()
      && s.a == 0 && s.x == 0 && s.y == 0 && s.pc == 0x200 && s.sp == 0xFF && StatusByte(s.flags) == 0x20
  {
  }

  /** A test case: reset with the fixture's vector, load the program at 0x200, then take n steps. */
  function Run(prior: State, mem: Memory, program: seq<Byte>, n: nat): StepResult
    requires |program| <= 0x100
  {
    StepN(n, Reset(prior, Fixture(mem)), Load(Fixture(mem), DefaultLoadAddress, program))
  }

  /** A test case runs its program as written: n steps execute its first n instructions from the reset state. */
  lemma Replay(prior: State, mem: Memory, prog: seq<Instruction>, n: nat)
    requires |Encode(prog)| <= 0x100 && n <= |prog|
    ensures Run(prior, mem, Encode(prog), n) == Stepped(Final(prog[..n], Ready()))
  {
    var m := Load(Fixture(mem), DefaultLoadAddress, Encode(prog));
    SetUp(prior, mem);
    EncodedProgram(m, DefaultLoadAddress, prog);
    RunsAsWritten(Ready(), m, prog, n);
  }

  /** A test case that runs its whole program executes every instruction of it in order. */
  lemma ReplayAll(prior: State, mem: Memory, prog: seq<Instruction>)
    requires |Encode(prog)| <= 0x100
    ensures Run(prior, mem, Encode(prog), |prog|) == Stepped(Final(prog, Ready()))
  {
    Replay(prior, mem, prog, |prog|);
    assert prog[..|prog|] == prog;
  }

  lemma Listing1(i1: Instruction, s: State)
    ensures Encode([i1]) == EncodeOne(i1)
    ensures Final([i1], s) == Advance(s, i1)
  {
    assert [i1][1..] == [];
  }

  lemma Listing2(i1: Instruction, i2: Instruction, s: State)
    ensures Encode([i1, i2]) == EncodeOne(i1) + EncodeOne(i2)
    ensures Final([i1, i2], s) == Advance(Advance(s, i1), i2)
  {
    assert [i1, i2][1..] == [i2];
    Listing1(i2, Advance(s, i1));
  }

  lemma Listing3(i1: Instruction, i2: Instruction, i3: Instruction, s: State)
    ensures Encode([i1, i2, i3]) == EncodeOne(i1) + EncodeOne(i2) + EncodeOne(i3)
    ensures Final([i1, i2, i3], s) == Advance(Advance(Advance(s, i1), i2), i3)
  {
    assert [i1, i2, i3][1..] == [i2, i3];
    Listing2(i2, i3, Advance(s, i1));
  }

  lemma Listing4(i1: Instruction, i2: Instruction, i3: Instruction, i4: Instruction, s: State)
    ensures Encode([i1, i2, i3, i4]) == EncodeOne(i1) + EncodeOne(i2) + EncodeOne(i3) + EncodeOne(i4)
    ensures Final([i1, i2, i3, i4], s) == Advance(Advance(Advance(Advance(s, i1), i2), i3), i4)
  {
    assert [i1, i2, i3, i4][1..] == [i2, i3, i4];
    Listing3(i2, i3, i4, Advance(s, i1));
  }

  lemma Runs1(prior: State, mem: Memory, i1: Instruction)
    ensures Run(prior, mem, EncodeOne(i1), 1) == Stepped(Advance(Ready(), i1))
  {
    Listing1(i1, Ready());
    ReplayAll(prior, mem, [i1]);
  }

  lemma Runs2(prior: State, mem: Memory, i1: Instruction, i2: Instruction)
    ensures Run(prior, mem, EncodeOne(i1) + EncodeOne(i2), 2) == Stepped(Advance(Advance(Ready(), i1), i2))
  {
    Listing2(i1, i2, Ready());
    ReplayAll(prior, mem, [i1, i2]);
  }

  lemma Runs3(prior: State, mem: Memory, i1: Instruction, i2: Instruction, i3: Instruction)
    ensures Run(prior, mem, EncodeOne(i1) + EncodeOne(i2) + EncodeOne(i3), 3)
         == Stepped(Advance(Advance(Advance(Ready(), i1), i2), i3))
  {
    Listing3(i1, i2, i3, Ready());
    ReplayAll(prior, mem, [i1, i2, i3]);
  }

  lemma Runs4(prior: State, mem: Memory, i1: Instruction, i2: Instruction, i3: Instruction, i4: Instruction)
    ensures Run(prior, mem, EncodeOne(i1) + EncodeOne(i2) + EncodeOne(i3) + EncodeOne(i4), 4)
         == Stepped(Advance(Advance(Advance(Advance(Ready(), i1), i2), i3), i4))
  {
    Listing4(i1, i2, i3, i4, Ready());
    ReplayAll(prior, mem, [i1, i2, i3, i4]);
  }

  /** From reset, ORA v leaves A = 0 | v, with N and Z from it. */
  lemma OraFromReset(prior: State, mem: Memory, v: Byte)
    ensures var r := BitOr(0, v);
      Run(prior, mem, [0x09, v], 1) == Stepped(State(r, 0, 0, 0x202, 0xFF, WithNZ(Cleared, r)))
  {
    Runs1(prior, mem, Instruction(ORA, v));
  }

  /** From reset, LDA v loads A with v, with N and Z from v. */
  lemma LdaFromReset(prior: State, mem: Memory, v: Byte)
    ensures Run(prior, mem, [0xA9, v], 1) == Stepped(State(v, 0, 0, 0x202, 0xFF, WithNZ(Cleared, v)))
  {
    Runs1(prior, mem, Instruction(LDA, v));
  }

  /** From reset, LDX v loads X with v, with N and Z from v. */
  lemma LdxFromReset(prior: State, mem: Memory, v: Byte)
    ensures Run(prior, mem, [0xA2, v], 1) == Stepped(State(0, v, 0, 0x202, 0xFF, WithNZ(Cleared, v)))
  {
    Runs1(prior, mem, Instruction(LDX, v));
  }

  /** From reset, LDY v loads Y with v, with N and Z from v. */
  lemma LdyFromReset(prior: State, mem: Memory, v: Byte)
    ensures Run(prior, mem, [0xA0, v], 1) == Stepped(State(0, 0, v, 0x202, 0xFF, WithNZ(Cleared, v)))
  {
    Runs1(prior, mem, Instruction(LDY, v));
  }

  /** The bytes and the effect of the listing AndAfterLoad. */
  lemma AndAfterLoadListing(r: Byte, m: Byte)
    ensures EncodeOne(Instruction(LDA, r)) + EncodeOne(Instruction(AND, m)) == [0xA9, r, 0x29, m]
    ensures var v := BitAnd(r, m);
      Advance(Advance(Ready(), Instruction(LDA, r)), Instruction(AND, m)) == State(v, 0, 0, 0x204, 0xFF, WithNZ(Cleared, v))
  {
  }

  /** LDA r; AND m leaves A = r & m, with N and Z from it. */
  lemma AndAfterLoad(prior: State, mem: Memory, r: Byte, m: Byte)
    ensures var v := BitAnd(r, m);
      Run(prior, mem, [0xA9, r, 0x29, m], 2)
        == Stepped(State(v, 0, 0, 0x204, 0xFF, WithNZ(Cleared, v)))
  {
    AndAfterLoadListing(r, m);
    Runs2(prior, mem, Instruction(LDA, r), Instruction(AND, m));
  }

  /** The bytes and the effect of the listing AdcAfterLoad. */
  lemma AdcAfterLoadListing(r: Byte, m: Byte)
    ensures EncodeOne(Instruction(LDA, r)) + EncodeOne(Instruction(ADC, m)) == [0xA9, r, 0x69, m]
    ensures var sum := AddWithCarry(r, m, false);
      Advance(Advance(Ready(), Instruction(LDA, r)), Instruction(ADC, m)) == State(sum.value, 0, 0, 0x204, 0xFF, WithNZ(Cleared, sum.value).(v := sum.overflow, c := sum.carry))
  {
  }

  /** LDA r; ADC m with the carry clear after reset leaves the binary sum r + m and its carry and overflow. */
  lemma AdcAfterLoad(prior: State, mem: Memory, r: Byte, m: Byte)
    ensures var sum := AddWithCarry(r, m, false);
      Run(prior, mem, [0xA9, r, 0x69, m], 2)
        == Stepped(State(sum.value, 0, 0, 0x204, 0xFF, WithNZ(Cleared, sum.value).(v := sum.overflow, c := sum.carry)))
  {
    AdcAfterLoadListing(r, m);
    Runs2(prior, mem, Instruction(LDA, r), Instruction(ADC, m));
  }

  /** The bytes and the effect of the listing AdcAfterSetCarry. */
  lemma AdcAfterSetCarryListing(r: Byte, m: Byte)
    ensures EncodeOne(Instruction(LDA, r)) + EncodeOne(Instruction(SEC, 0)) + EncodeOne(Instruction(ADC, m)) == [0xA9, r, 0x38, 0x69, m]
    ensures var sum := AddWithCarry(r, m, true);
      Advance(Advance(Advance(Ready(), Instruction(LDA, r)), Instruction(SEC, 0)), Instruction(ADC, m)) == State(sum.value, 0, 0, 0x205, 0xFF, WithNZ(Cleared, sum.value).(v := sum.overflow, c := sum.carry))
  {
  }

  /** LDA r; SEC; ADC m adds the carry in: the binary sum r + m + 1. */
  lemma AdcAfterSetCarry(prior: State, mem: Memory, r: Byte, m: Byte)
    ensures var sum := AddWithCarry(r, m, true);
      Run(prior, mem, [0xA9, r, 0x38, 0x69, m], 3)
        == Stepped(State(sum.value, 0, 0, 0x205, 0xFF, WithNZ(Cleared, sum.value).(v := sum.overflow, c := sum.carry)))
  {
    AdcAfterSetCarryListing(r, m);
    Runs3(prior, mem, Instruction(LDA, r), Instruction(SEC, 0), Instruction(ADC, m));
  }

  /** The bytes and the effect of the listing DecimalAdcAfterLoad. */
  lemma DecimalAdcAfterLoadListing(r: Byte, m: Byte)
    ensures EncodeOne(Instruction(SED, 0)) + EncodeOne(Instruction(LDA, r)) + EncodeOne(Instruction(ADC, m)) == [0xF8, 0xA9, r, 0x69, m]
    ensures var d := DecimalAdd(r, m, false);
      Advance(Advance(Advance(Ready(), Instruction(SED, 0)), Instruction(LDA, r)), Instruction(ADC, m)) == State(d.value, 0, 0, 0x205, 0xFF, Cleared.(d := true, z := d.value == 0, c := d.carry))
  {
  }

  /** SED; LDA r; ADC m leaves the decimal sum of r and m with its decimal carry; N and V are clear, D stays set. */
  lemma DecimalAdcAfterLoad(prior: State, mem: Memory, r: Byte, m: Byte)
    ensures var d := DecimalAdd(r, m, false);
      Run(prior, mem, [0xF8, 0xA9, r, 0x69, m], 3)
        == Stepped(State(d.value, 0, 0, 0x205, 0xFF, Cleared.(d := true, z := d.value == 0, c := d.carry)))
  {
    DecimalAdcAfterLoadListing(r, m);
    Runs3(prior, mem, Instruction(SED, 0), Instruction(LDA, r), Instruction(ADC, m));
  }

  /** The bytes and the effect of the listing SbcAfterLoad. */
  lemma SbcAfterLoadListing(r: Byte, m: Byte)
    ensures EncodeOne(Instruction(LDA, r)) + EncodeOne(Instruction(SBC, m)) == [0xA9, r, 0xE9, m]
    ensures var diff := SubtractWithBorrow(r, m, false);
      Advance(Advance(Ready(), Instruction(LDA, r)), Instruction(SBC, m)) == State(diff.value, 0, 0, 0x204, 0xFF, WithNZ(Cleared, diff.value).(v := diff.overflow, c := diff.carry))
  {
  }

  /** LDA r; SBC m with the carry clear after reset subtracts m and one more. */
  lemma SbcAfterLoad(prior: State, mem: Memory, r: Byte, m: Byte)
    ensures var diff := SubtractWithBorrow(r, m, false);
      Run(prior, mem, [0xA9, r, 0xE9, m], 2)
        == Stepped(State(diff.value, 0, 0, 0x204, 0xFF, WithNZ(Cleared, diff.value).(v := diff.overflow, c := diff.carry)))
  {
    SbcAfterLoadListing(r, m);
    Runs2(prior, mem, Instruction(LDA, r), Instruction(SBC, m));
  }

  /** The bytes and the effect of the listing SbcAfterCarryFlag. */
  lemma SbcAfterCarryFlagListing(flag: Operation, r: Byte, m: Byte)
    requires flag == CLC || flag == SEC
    ensures EncodeOne(Instruction(flag, 0)) + EncodeOne(Instruction(LDA, r)) + EncodeOne(Instruction(SBC, m)) == [Opcode(flag), 0xA9, r, 0xE9, m]
    ensures var diff := SubtractWithBorrow(r, m, flag == SEC);
      Advance(Advance(Advance(Ready(), Instruction(flag, 0)), Instruction(LDA, r)), Instruction(SBC, m)) == State(diff.value, 0, 0, 0x205, 0xFF, WithNZ(Cleared, diff.value).(v := diff.overflow, c := diff.carry))
  {
  }

  /** CLC or SEC, then LDA r; SBC m: the borrow is the complement of the carry just set. */
  lemma SbcAfterCarryFlag(prior: State, mem: Memory, flag: Operation, r: Byte, m: Byte)
    requires flag == CLC || flag == SEC
    ensures var diff := SubtractWithBorrow(r, m, flag == SEC);
      Run(prior, mem, [Opcode(flag), 0xA9, r, 0xE9, m], 3)
        == Stepped(State(diff.value, 0, 0, 0x205, 0xFF, WithNZ(Cleared, diff.value).(v := diff.overflow, c := diff.carry)))
  {
    SbcAfterCarryFlagListing(flag, r, m);
    Runs3(prior, mem, Instruction(flag, 0), Instruction(LDA, r), Instruction(SBC, m));
  }

  /** The bytes and the effect of the listing DecimalSbcAfterLoad. */
  lemma DecimalSbcAfterLoadListing(r: Byte, m: Byte)
    ensures EncodeOne(Instruction(SED, 0)) + EncodeOne(Instruction(LDA, r)) + EncodeOne(Instruction(SBC, m)) == [0xF8, 0xA9, r, 0xE9, m]
    ensures var d := DecimalSubtract(r, m, false);
      Advance(Advance(Advance(Ready(), Instruction(SED, 0)), Instruction(LDA, r)), Instruction(SBC, m)) == State(d.value, 0, 0, 0x205, 0xFF, Cleared.(d := true, z := d.value == 0, c := d.carry))
  {
  }

  /** SED; LDA r; SBC m with the carry clear leaves the decimal difference r - m - 1 and the no-borrow carry. */
  lemma DecimalSbcAfterLoad(prior: State, mem: Memory, r: Byte, m: Byte)
    ensures var d := DecimalSubtract(r, m, false);
      Run(prior, mem, [0xF8, 0xA9, r, 0xE9, m], 3)
        == Stepped(State(d.value, 0, 0, 0x205, 0xFF, Cleared.(d := true, z := d.value == 0, c := d.carry)))
  {
    DecimalSbcAfterLoadListing(r, m);
    Runs3(prior, mem, Instruction(SED, 0), Instruction(LDA, r), Instruction(SBC, m));
  }

  /** The bytes and the effect of the listing DecimalSbcAfterSetCarry. */
  lemma DecimalSbcAfterSetCarryListing(r: Byte, m: Byte)
    ensures EncodeOne(Instruction(SEC, 0)) + EncodeOne(Instruction(SED, 0)) + EncodeOne(Instruction(LDA, r)) + EncodeOne(Instruction(SBC, m)) == [0x38, 0xF8, 0xA9, r, 0xE9, m]
    ensures var d := DecimalSubtract(r, m, true);
      Advance(Advance(Advance(Advance(Ready(), Instruction(SEC, 0)), Instruction(SED, 0)), Instruction(LDA, r)), Instruction(SBC, m)) == State(d.value, 0, 0, 0x206, 0xFF, Cleared.(d := true, z := d.value == 0, c := d.carry))
  {
  }

  /** SEC; SED; LDA r; SBC m leaves the decimal difference r - m and the no-borrow carry. */
  lemma DecimalSbcAfterSetCarry(prior: State, mem: Memory, r: Byte, m: Byte)
    ensures var d := DecimalSubtract(r, m, true);
      Run(prior, mem, [0x38, 0xF8, 0xA9, r, 0xE9, m], 4)
        == Stepped(State(d.value, 0, 0, 0x206, 0xFF, Cleared.(d := true, z := d.value == 0, c := d.carry)))
  {
    DecimalSbcAfterSetCarryListing(r, m);
    Runs4(prior, mem, Instruction(SEC, 0), Instruction(SED, 0), Instruction(LDA, r), Instruction(SBC, m));
  }

  /** The bytes and the effect of the listing CmpAfterLoad. */
  lemma CmpAfterLoadListing(r: Byte, m: Byte)
    ensures EncodeOne(Instruction(LDA, r)) + EncodeOne(Instruction(CMP, m)) == [0xA9, r, 0xC9, m]
    ensures var cmp := Compare(r, m);
      Advance(Advance(Ready(), Instruction(LDA, r)), Instruction(CMP, m)) == State(r, 0, 0, 0x204, 0xFF, WithNZ(Cleared, cmp.value).(c := cmp.carry))
  {
  }

  /** LDA r; CMP m: A keeps r; C, Z and N come from r - m. */
  lemma CmpAfterLoad(prior: State, mem: Memory, r: Byte, m: Byte)
    ensures var cmp := Compare(r, m);
      Run(prior, mem, [0xA9, r, 0xC9, m], 2)
        == Stepped(State(r, 0, 0, 0x204, 0xFF, WithNZ(Cleared, cmp.value).(c := cmp.carry)))
  {
    CmpAfterLoadListing(r, m);
    Runs2(prior, mem, Instruction(LDA, r), Instruction(CMP, m));
  }

  /** The bytes and the effect of the listing CpxAfterLoad. */
  lemma CpxAfterLoadListing(r: Byte, m: Byte)
    ensures EncodeOne(Instruction(LDX, r)) + EncodeOne(Instruction(CPX, m)) == [0xA2, r, 0xE0, m]
    ensures var cmp := Compare(r, m);
      Advance(Advance(Ready(), Instruction(LDX, r)), Instruction(CPX, m)) == State(0, r, 0, 0x204, 0xFF, WithNZ(Cleared, cmp.value).(c := cmp.carry))
  {
  }

  /** LDX r; CPX m: X keeps r; C, Z and N come from r - m. */
  lemma CpxAfterLoad(prior: State, mem: Memory, r: Byte, m: Byte)
    ensures var cmp := Compare(r, m);
      Run(prior, mem, [0xA2, r, 0xE0, m], 2)
        == Stepped(State(0, r, 0, 0x204, 0xFF, WithNZ(Cleared, cmp.value).(c := cmp.carry)))
  {
    CpxAfterLoadListing(r, m);
    Runs2(prior, mem, Instruction(LDX, r), Instruction(CPX, m));
  }

  /** The bytes and the effect of the listing CpyAfterLoad. */
  lemma CpyAfterLoadListing(r: Byte, m: Byte)
    ensures EncodeOne(Instruction(LDY, r)) + EncodeOne(Instruction(CPY, m)) == [0xA0, r, 0xC0, m]
    ensures var cmp := Compare(r, m);
      Advance(Advance(Ready(), Instruction(LDY, r)), Instruction(CPY, m)) == State(0, 0, r, 0x204, 0xFF, WithNZ(Cleared, cmp.value).(c := cmp.carry))
  {
  }

  /** LDY r; CPY m: Y keeps r; C, Z and N come from r - m. */
  lemma CpyAfterLoad(prior: State, mem: Memory, r: Byte, m: Byte)
    ensures var cmp := Compare(r, m);
      Run(prior, mem, [0xA0, r, 0xC0, m], 2)
        == Stepped(State(0, 0, r, 0x204, 0xFF, WithNZ(Cleared, cmp.value).(c := cmp.carry)))
  {
    CpyAfterLoadListing(r, m);
    Runs2(prior, mem, Instruction(LDY, r), Instruction(CPY, m));
  }

  /** The bitwise results along the OraAccumulates listing. */
  lemma OraAccumulatesValues()
    ensures BitOr(0x00, 0x00) == 0x00
    ensures BitOr(0x00, 0x11) == 0x11
    ensures BitOr(0x11, 0x22) == 0x33
    ensures BitOr(0x33, 0x44) == 0x77
    ensures BitOr(0x77, 0x88) == 0xFF
  {
  }

  /** Each instruction of the OraAccumulates listing in turn, from the reset state. */
  lemma OraAccumulatesTrace()
    ensures Advance(Ready(), Instruction(ORA, 0x00)) == State(0x00, 0x00, 0x00, 0x202, 0xFF, Cleared.(z := true))
    ensures Advance(State(0x00, 0x00, 0x00, 0x202, 0xFF, Cleared.(z := true)), Instruction(ORA, 0x11)) == State(0x11, 0x00, 0x00, 0x204, 0xFF, Cleared)
    ensures Advance(State(0x11, 0x00, 0x00, 0x204, 0xFF, Cleared), Instruction(ORA, 0x22)) == State(0x33, 0x00, 0x00, 0x206, 0xFF, Cleared)
    ensures Advance(State(0x33, 0x00, 0x00, 0x206, 0xFF, Cleared), Instruction(ORA, 0x44)) == State(0x77, 0x00, 0x00, 0x208, 0xFF, Cleared)
    ensures Advance(State(0x77, 0x00, 0x00, 0x208, 0xFF, Cleared), Instruction(ORA, 0x88)) == State(0xFF, 0x00, 0x00, 0x20A, 0xFF, Cleared.(n := true))
  {
    OraAccumulatesValues();
  }

  /** The bytes the OraAccumulates listing assembles to. */
  lemma OraAccumulatesBytes()
    ensures Encode([Instruction(ORA, 0x00), Instruction(ORA, 0x11), Instruction(ORA, 0x22), Instruction(ORA, 0x44), Instruction(ORA, 0x88)]) == [0x09, 0x00, 0x09, 0x11, 0x09, 0x22, 0x09, 0x44, 0x09, 0x88]
  {
  }

  /** The state after each checked prefix of the OraAccumulates listing. */
  lemma OraAccumulatesPrefixes()
    ensures Final([Instruction(ORA, 0x00), Instruction(ORA, 0x11), Instruction(ORA, 0x22), Instruction(ORA, 0x44), Instruction(ORA, 0x88)][..1], Ready()) == State(0x00, 0x00, 0x00, 0x202, 0xFF, Cleared.(z := true))
    ensures Final([Instruction(ORA, 0x00), Instruction(ORA, 0x11), Instruction(ORA, 0x22), Instruction(ORA, 0x44), Instruction(ORA, 0x88)][..2], Ready()) == State(0x11, 0x00, 0x00, 0x204, 0xFF, Cleared)
    ensures Final([Instruction(ORA, 0x00), Instruction(ORA, 0x11), Instruction(ORA, 0x22), Instruction(ORA, 0x44), Instruction(ORA, 0x88)][..3], Ready()) == State(0x33, 0x00, 0x00, 0x206, 0xFF, Cleared)
    ensures Final([Instruction(ORA, 0x00), Instruction(ORA, 0x11), Instruction(ORA, 0x22), Instruction(ORA, 0x44), Instruction(ORA, 0x88)][..4], Ready()) == State(0x77, 0x00, 0x00, 0x208, 0xFF, Cleared)
    ensures Final([Instruction(ORA, 0x00), Instruction(ORA, 0x11), Instruction(ORA, 0x22), Instruction(ORA, 0x44), Instruction(ORA, 0x88)][..5], Ready()) == State(0xFF, 0x00, 0x00, 0x20A, 0xFF, Cleared.(n := true))
  {
    var p := [Instruction(ORA, 0x00), Instruction(ORA, 0x11), Instruction(ORA, 0x22), Instruction(ORA, 0x44), Instruction(ORA, 0x88)];
    OraAccumulatesTrace();
    FinalNext(p, 0, Ready());
    FinalNext(p, 1, Ready());
    FinalNext(p, 2, Ready());
    FinalNext(p, 3, Ready());
    FinalNext(p, 4, Ready());
  }

  /** ORA ORs each operand into A in turn. */
  lemma OraAccumulates(prior: State, mem: Memory)
    ensures Run(prior, mem, [0x09, 0x00, 0x09, 0x11, 0x09, 0x22, 0x09, 0x44, 0x09, 0x88], 1) == Stepped(State(0x00, 0x00, 0x00, 0x202, 0xFF, Cleared.(z := true)))
    ensures Run(prior, mem, [0x09, 0x00, 0x09, 0x11, 0x09, 0x22, 0x09, 0x44, 0x09, 0x88], 2) == Stepped(State(0x11, 0x00, 0x00, 0x204, 0xFF, Cleared))
    ensures Run(prior, mem, [0x09, 0x00, 0x09, 0x11, 0x09, 0x22, 0x09, 0x44, 0x09, 0x88], 3) == Stepped(State(0x33, 0x00, 0x00, 0x206, 0xFF, Cleared))
    ensures Run(prior, mem, [0x09, 0x00, 0x09, 0x11, 0x09, 0x22, 0x09, 0x44, 0x09, 0x88], 4) == Stepped(State(0x77, 0x00, 0x00, 0x208, 0xFF, Cleared))
    ensures Run(prior, mem, [0x09, 0x00, 0x09, 0x11, 0x09, 0x22, 0x09, 0x44, 0x09, 0x88], 5) == Stepped(State(0xFF, 0x00, 0x00, 0x20A, 0xFF, Cleared.(n := true)))
  {
    var p := [Instruction(ORA, 0x00), Instruction(ORA, 0x11), Instruction(ORA, 0x22), Instruction(ORA, 0x44), Instruction(ORA, 0x88)];
    OraAccumulatesBytes();
    OraAccumulatesPrefixes();
    Replay(prior, mem, p, 1);
    Replay(prior, mem, p, 2);
    Replay(prior, mem, p, 3);
    Replay(prior, mem, p, 4);
    Replay(prior, mem, p, 5);
  }

  /** The arithmetic behind OraFlags. */
  lemma OraFlagsValues()
    ensures BitOr(0x00, 0x00) == 0x00
    ensures BitOr(0x00, 0x01) == 0x01
    ensures BitOr(0x00, 0x80) == 0x80
    ensures BitOr(0x00, 0x7F) == 0x7F
  {
  }

  /** ORA sets Z exactly when the result is zero and N exactly when its bit 7 is set. */
  lemma OraFlags(prior: State, mem: Memory)
    ensures Run(prior, mem, [0x09, 0x00], 1) == Stepped(State(0x00, 0x00, 0x00, 0x202, 0xFF, Cleared.(z := true)))
    ensures Run(prior, mem, [0x09, 0x01], 1) == Stepped(State(0x01, 0x00, 0x00, 0x202, 0xFF, Cleared))
    ensures Run(prior, mem, [0x09, 0x80], 1) == Stepped(State(0x80, 0x00, 0x00, 0x202, 0xFF, Cleared.(n := true)))
    ensures Run(prior, mem, [0x09, 0x7F], 1) == Stepped(State(0x7F, 0x00, 0x00, 0x202, 0xFF, Cleared))
  {
    OraFlagsValues();
    OraFromReset(prior, mem, 0x00);
    OraFromReset(prior, mem, 0x01);
    OraFromReset(prior, mem, 0x80);
    OraFromReset(prior, mem, 0x7F);
  }

  /** The bitwise results along the AndMasks listing. */
  lemma AndMasksValues()
    ensures BitAnd(0x00, 0x00) == 0x00
    ensures BitAnd(0x00, 0x11) == 0x00
    ensures BitAnd(0xAA, 0xFF) == 0xAA
    ensures BitAnd(0xAA, 0x99) == 0x88
    ensures BitAnd(0x88, 0x11) == 0x00
  {
  }

  /** Each instruction of the AndMasks listing in turn, from the reset state. */
  lemma AndMasksTrace()
    ensures Advance(Ready(), Instruction(AND, 0x00)) == State(0x00, 0x00, 0x00, 0x202, 0xFF, Cleared.(z := true))
    ensures Advance(State(0x00, 0x00, 0x00, 0x202, 0xFF, Cleared.(z := true)), Instruction(AND, 0x11)) == State(0x00, 0x00, 0x00, 0x204, 0xFF, Cleared.(z := true))
    ensures Advance(State(0x00, 0x00, 0x00, 0x204, 0xFF, Cleared.(z := true)), Instruction(LDA, 0xAA)) == State(0xAA, 0x00, 0x00, 0x206, 0xFF, Cleared.(n := true))
    ensures Advance(State(0xAA, 0x00, 0x00, 0x206, 0xFF, Cleared.(n := true)), Instruction(AND, 0xFF)) == State(0xAA, 0x00, 0x00, 0x208, 0xFF, Cleared.(n := true))
    ensures Advance(State(0xAA, 0x00, 0x00, 0x208, 0xFF, Cleared.(n := true)), Instruction(AND, 0x99)) == State(0x88, 0x00, 0x00, 0x20A, 0xFF, Cleared.(n := true))
    ensures Advance(State(0x88, 0x00, 0x00, 0x20A, 0xFF, Cleared.(n := true)), Instruction(AND, 0x11)) == State(0x00, 0x00, 0x00, 0x20C, 0xFF, Cleared.(z := true))
  {
    AndMasksValues();
  }

  /** The bytes the AndMasks listing assembles to. */
  lemma AndMasksBytes()
    ensures Encode([Instruction(AND, 0x00), Instruction(AND, 0x11), Instruction(LDA, 0xAA), Instruction(AND, 0xFF), Instruction(AND, 0x99), Instruction(AND, 0x11)]) == [0x29, 0x00, 0x29, 0x11, 0xA9, 0xAA, 0x29, 0xFF, 0x29, 0x99, 0x29, 0x11]
  {
  }

  /** The state after each checked prefix of the AndMasks listing. */
  lemma AndMasksPrefixes()
    ensures Final([Instruction(AND, 0x00), Instruction(AND, 0x11), Instruction(LDA, 0xAA), Instruction(AND, 0xFF), Instruction(AND, 0x99), Instruction(AND, 0x11)][..1], Ready()) == State(0x00, 0x00, 0x00, 0x202, 0xFF, Cleared.(z := true))
    ensures Final([Instruction(AND, 0x00), Instruction(AND, 0x11), Instruction(LDA, 0xAA), Instruction(AND, 0xFF), Instruction(AND, 0x99), Instruction(AND, 0x11)][..2], Ready()) == State(0x00, 0x00, 0x00, 0x204, 0xFF, Cleared.(z := true))
    ensures Final([Instruction(AND, 0x00), Instruction(AND, 0x11), Instruction(LDA, 0xAA), Instruction(AND, 0xFF), Instruction(AND, 0x99), Instruction(AND, 0x11)][..4], Ready()) == State(0xAA, 0x00, 0x00, 0x208, 0xFF, Cleared.(n := true))
    ensures Final([Instruction(AND, 0x00), Instruction(AND, 0x11), Instruction(LDA, 0xAA), Instruction(AND, 0xFF), Instruction(AND, 0x99), Instruction(AND, 0x11)][..5], Ready()) == State(0x88, 0x00, 0x00, 0x20A, 0xFF, Cleared.(n := true))
    ensures Final([Instruction(AND, 0x00), Instruction(AND, 0x11), Instruction(LDA, 0xAA), Instruction(AND, 0xFF), Instruction(AND, 0x99), Instruction(AND, 0x11)][..6], Ready()) == State(0x00, 0x00, 0x00, 0x20C, 0xFF, Cleared.(z := true))
  {
    var p := [Instruction(AND, 0x00), Instruction(AND, 0x11), Instruction(LDA, 0xAA), Instruction(AND, 0xFF), Instruction(AND, 0x99), Instruction(AND, 0x11)];
    AndMasksTrace();
    FinalNext(p, 0, Ready());
    FinalNext(p, 1, Ready());
    FinalNext(p, 2, Ready());
    FinalNext(p, 3, Ready());
    FinalNext(p, 4, Ready());
    FinalNext(p, 5, Ready());
  }

  /** AND masks A with each operand in turn; LDA reloads it midway. */
  lemma AndMasks(prior: State, mem: Memory)
    ensures Run(prior, mem, [0x29, 0x00, 0x29, 0x11, 0xA9, 0xAA, 0x29, 0xFF, 0x29, 0x99, 0x29, 0x11], 1) == Stepped(State(0x00, 0x00, 0x00, 0x202, 0xFF, Cleared.(z := true)))
    ensures Run(prior, mem, [0x29, 0x00, 0x29, 0x11, 0xA9, 0xAA, 0x29, 0xFF, 0x29, 0x99, 0x29, 0x11], 2) == Stepped(State(0x00, 0x00, 0x00, 0x204, 0xFF, Cleared.(z := true)))
    ensures Run(prior, mem, [0x29, 0x00, 0x29, 0x11, 0xA9, 0xAA, 0x29, 0xFF, 0x29, 0x99, 0x29, 0x11], 4) == Stepped(State(0xAA, 0x00, 0x00, 0x208, 0xFF, Cleared.(n := true)))
    ensures Run(prior, mem, [0x29, 0x00, 0x29, 0x11, 0xA9, 0xAA, 0x29, 0xFF, 0x29, 0x99, 0x29, 0x11], 5) == Stepped(State(0x88, 0x00, 0x00, 0x20A, 0xFF, Cleared.(n := true)))
    ensures Run(prior, mem, [0x29, 0x00, 0x29, 0x11, 0xA9, 0xAA, 0x29, 0xFF, 0x29, 0x99, 0x29, 0x11], 6) == Stepped(State(0x00, 0x00, 0x00, 0x20C, 0xFF, Cleared.(z := true)))
  {
    var p := [Instruction(AND, 0x00), Instruction(AND, 0x11), Instruction(LDA, 0xAA), Instruction(AND, 0xFF), Instruction(AND, 0x99), Instruction(AND, 0x11)];
    AndMasksBytes();
    AndMasksPrefixes();
    Replay(prior, mem, p, 1);
    Replay(prior, mem, p, 2);
    Replay(prior, mem, p, 4);
    Replay(prior, mem, p, 5);
    Replay(prior, mem, p, 6);
  }

  /** The arithmetic behind AndFlags. */
  lemma AndFlagsValues()
    ensures BitAnd(0x88, 0x11) == 0x00
    ensures BitAnd(0x88, 0xF1) == 0x80
    ensures BitAnd(0x88, 0xF0) == 0x80
    ensures BitAnd(0x88, 0x0F) == 0x08
  {
  }

  /** AND sets Z exactly when the result is zero and N exactly when its bit 7 is set. */
  lemma AndFlags(prior: State, mem: Memory)
    ensures Run(prior, mem, [0xA9, 0x88, 0x29, 0x11], 2) == Stepped(State(0x00, 0x00, 0x00, 0x204, 0xFF, Cleared.(z := true)))
    ensures Run(prior, mem, [0xA9, 0x88, 0x29, 0xF1], 2) == Stepped(State(0x80, 0x00, 0x00, 0x204, 0xFF, Cleared.(n := true)))
    ensures Run(prior, mem, [0xA9, 0x88, 0x29, 0xF0], 2) == Stepped(State(0x80, 0x00, 0x00, 0x204, 0xFF, Cleared.(n := true)))
    ensures Run(prior, mem, [0xA9, 0x88, 0x29, 0x0F], 2) == Stepped(State(0x08, 0x00, 0x00, 0x204, 0xFF, Cleared))
  {
    AndFlagsValues();
    AndAfterLoad(prior, mem, 0x88, 0x11);
    AndAfterLoad(prior, mem, 0x88, 0xF1);
    AndAfterLoad(prior, mem, 0x88, 0xF0);
    AndAfterLoad(prior, mem, 0x88, 0x0F);
  }

  /** The bitwise results along the EorToggles listing. */
  lemma EorTogglesValues()
    ensures BitXor(0x88, 0x00) == 0x88
    ensures BitXor(0x88, 0xFF) == 0x77
    ensures BitXor(0x77, 0x33) == 0x44
  {
  }

  /** Each instruction of the EorToggles listing in turn, from the reset state. */
  lemma EorTogglesTrace()
    ensures Advance(Ready(), Instruction(LDA, 0x88)) == State(0x88, 0x00, 0x00, 0x202, 0xFF, Cleared.(n := true))
    ensures Advance(State(0x88, 0x00, 0x00, 0x202, 0xFF, Cleared.(n := true)), Instruction(EOR, 0x00)) == State(0x88, 0x00, 0x00, 0x204, 0xFF, Cleared.(n := true))
    ensures Advance(State(0x88, 0x00, 0x00, 0x204, 0xFF, Cleared.(n := true)), Instruction(EOR, 0xFF)) == State(0x77, 0x00, 0x00, 0x206, 0xFF, Cleared)
    ensures Advance(State(0x77, 0x00, 0x00, 0x206, 0xFF, Cleared), Instruction(EOR, 0x33)) == State(0x44, 0x00, 0x00, 0x208, 0xFF, Cleared)
  {
    EorTogglesValues();
  }

  /** The bytes the EorToggles listing assembles to. */
  lemma EorTogglesBytes()
    ensures Encode([Instruction(LDA, 0x88), Instruction(EOR, 0x00), Instruction(EOR, 0xFF), Instruction(EOR, 0x33)]) == [0xA9, 0x88, 0x49, 0x00, 0x49, 0xFF, 0x49, 0x33]
  {
  }

  /** The state after each checked prefix of the EorToggles listing. */
  lemma EorTogglesPrefixes()
    ensures Final([Instruction(LDA, 0x88), Instruction(EOR, 0x00), Instruction(EOR, 0xFF), Instruction(EOR, 0x33)][..2], Ready()) == State(0x88, 0x00, 0x00, 0x204, 0xFF, Cleared.(n := true))
    ensures Final([Instruction(LDA, 0x88), Instruction(EOR, 0x00), Instruction(EOR, 0xFF), Instruction(EOR, 0x33)][..3], Ready()) == State(0x77, 0x00, 0x00, 0x206, 0xFF, Cleared)
    ensures Final([Instruction(LDA, 0x88), Instruction(EOR, 0x00), Instruction(EOR, 0xFF), Instruction(EOR, 0x33)][..4], Ready()) == State(0x44, 0x00, 0x00, 0x208, 0xFF, Cleared)
  {
    var p := [Instruction(LDA, 0x88), Instruction(EOR, 0x00), Instruction(EOR, 0xFF), Instruction(EOR, 0x33)];
    EorTogglesTrace();
    FinalNext(p, 0, Ready());
    FinalNext(p, 1, Ready());
    FinalNext(p, 2, Ready());
    FinalNext(p, 3, Ready());
  }

  /** EOR toggles the bits of A that are set in the operand. */
  lemma EorToggles(prior: State, mem: Memory)
    ensures Run(prior, mem, [0xA9, 0x88, 0x49, 0x00, 0x49, 0xFF, 0x49, 0x33], 2) == Stepped(State(0x88, 0x00, 0x00, 0x204, 0xFF, Cleared.(n := true)))
    ensures Run(prior, mem, [0xA9, 0x88, 0x49, 0x00, 0x49, 0xFF, 0x49, 0x33], 3) == Stepped(State(0x77, 0x00, 0x00, 0x206, 0xFF, Cleared))
    ensures Run(prior, mem, [0xA9, 0x88, 0x49, 0x00, 0x49, 0xFF, 0x49, 0x33], 4) == Stepped(State(0x44, 0x00, 0x00, 0x208, 0xFF, Cleared))
  {
    var p := [Instruction(LDA, 0x88), Instruction(EOR, 0x00), Instruction(EOR, 0xFF), Instruction(EOR, 0x33)];
    EorTogglesBytes();
    EorTogglesPrefixes();
    Replay(prior, mem, p, 2);
    Replay(prior, mem, p, 3);
    Replay(prior, mem, p, 4);
  }

  /** The bitwise results along the EorFlags listing. */
  lemma EorFlagsValues()
    ensures BitXor(0x77, 0x77) == 0x00
    ensures BitXor(0x00, 0xFF) == 0xFF
  {
  }

  /** Each instruction of the EorFlags listing in turn, from the reset state. */
  lemma EorFlagsTrace()
    ensures Advance(Ready(), Instruction(LDA, 0x77)) == State(0x77, 0x00, 0x00, 0x202, 0xFF, Cleared)
    ensures Advance(State(0x77, 0x00, 0x00, 0x202, 0xFF, Cleared), Instruction(EOR, 0x77)) == State(0x00, 0x00, 0x00, 0x204, 0xFF, Cleared.(z := true))
    ensures Advance(State(0x00, 0x00, 0x00, 0x204, 0xFF, Cleared.(z := true)), Instruction(EOR, 0xFF)) == State(0xFF, 0x00, 0x00, 0x206, 0xFF, Cleared.(n := true))
  {
    EorFlagsValues();
  }

  /** The bytes the EorFlags listing assembles to. */
  lemma EorFlagsBytes()
    ensures Encode([Instruction(LDA, 0x77), Instruction(EOR, 0x77), Instruction(EOR, 0xFF)]) == [0xA9, 0x77, 0x49, 0x77, 0x49, 0xFF]
  {
  }

  /** The state after each checked prefix of the EorFlags listing. */
  lemma EorFlagsPrefixes()
    ensures Final([Instruction(LDA, 0x77), Instruction(EOR, 0x77), Instruction(EOR, 0xFF)][..2], Ready()) == State(0x00, 0x00, 0x00, 0x204, 0xFF, Cleared.(z := true))
    ensures Final([Instruction(LDA, 0x77), Instruction(EOR, 0x77), Instruction(EOR, 0xFF)][..3], Ready()) == State(0xFF, 0x00, 0x00, 0x206, 0xFF, Cleared.(n := true))
  {
    var p := [Instruction(LDA, 0x77), Instruction(EOR, 0x77), Instruction(EOR, 0xFF)];
    EorFlagsTrace();
    FinalNext(p, 0, Ready());
    FinalNext(p, 1, Ready());
    FinalNext(p, 2, Ready());
  }

  /** EOR sets Z and N from its result. */
  lemma EorFlags(prior: State, mem: Memory)
    ensures Run(prior, mem, [0xA9, 0x77, 0x49, 0x77, 0x49, 0xFF], 2) == Stepped(State(0x00, 0x00, 0x00, 0x204, 0xFF, Cleared.(z := true)))
    ensures Run(prior, mem, [0xA9, 0x77, 0x49, 0x77, 0x49, 0xFF], 3) == Stepped(State(0xFF, 0x00, 0x00, 0x206, 0xFF, Cleared.(n := true)))
  {
    var p := [Instruction(LDA, 0x77), Instruction(EOR, 0x77), Instruction(EOR, 0xFF)];
    EorFlagsBytes();
    EorFlagsPrefixes();
    Replay(prior, mem, p, 2);
    Replay(prior, mem, p, 3);
  }

  /** The arithmetic behind AdcBinary. */
  lemma AdcBinaryValues1()
    ensures AddWithCarry(0x00, 0x01, false) == Sum(0x01, false, false)
    ensures AddWithCarry(0x7F, 0x01, false) == Sum(0x80, false, true)
    ensures AddWithCarry(0x80, 0x01, false) == Sum(0x81, false, false)
    ensures AddWithCarry(0xFF, 0x01, false) == Sum(0x00, true, false)
  {
  }

  /** The arithmetic behind AdcBinary. */
  lemma AdcBinaryValues2()
    ensures AddWithCarry(0x00, 0xFF, false) == Sum(0xFF, false, false)
    ensures AddWithCarry(0x7F, 0xFF, false) == Sum(0x7E, true, false)
    ensures AddWithCarry(0x80, 0xFF, false) == Sum(0x7F, true, true)
    ensures AddWithCarry(0xFF, 0xFF, false) == Sum(0xFE, true, false)
  {
  }

  /** Binary ADC: sum, carry out of bit 7, signed overflow, N and Z. */
  lemma AdcBinary(prior: State, mem: Memory)
    ensures Run(prior, mem, [0xA9, 0x00, 0x69, 0x01], 2) == Stepped(State(0x01, 0x00, 0x00, 0x204, 0xFF, Cleared))
    ensures Run(prior, mem, [0xA9, 0x7F, 0x69, 0x01], 2) == Stepped(State(0x80, 0x00, 0x00, 0x204, 0xFF, Cleared.(n := true, v := true)))
    ensures Run(prior, mem, [0xA9, 0x80, 0x69, 0x01], 2) == Stepped(State(0x81, 0x00, 0x00, 0x204, 0xFF, Cleared.(n := true)))
    ensures Run(prior, mem, [0xA9, 0xFF, 0x69, 0x01], 2) == Stepped(State(0x00, 0x00, 0x00, 0x204, 0xFF, Cleared.(z := true, c := true)))
    ensures Run(prior, mem, [0xA9, 0x00, 0x69, 0xFF], 2) == Stepped(State(0xFF, 0x00, 0x00, 0x204, 0xFF, Cleared.(n := true)))
    ensures Run(prior, mem, [0xA9, 0x7F, 0x69, 0xFF], 2) == Stepped(State(0x7E, 0x00, 0x00, 0x204, 0xFF, Cleared.(c := true)))
    ensures Run(prior, mem, [0xA9, 0x80, 0x69, 0xFF], 2) == Stepped(State(0x7F, 0x00, 0x00, 0x204, 0xFF, Cleared.(v := true, c := true)))
    ensures Run(prior, mem, [0xA9, 0xFF, 0x69, 0xFF], 2) == Stepped(State(0xFE, 0x00, 0x00, 0x204, 0xFF, Cleared.(n := true, c := true)))
  {
    AdcBinaryValues1();
    AdcBinaryValues2();
    AdcAfterLoad(prior, mem, 0x00, 0x01);
    AdcAfterLoad(prior, mem, 0x7F, 0x01);
    AdcAfterLoad(prior, mem, 0x80, 0x01);
    AdcAfterLoad(prior, mem, 0xFF, 0x01);
    AdcAfterLoad(prior, mem, 0x00, 0xFF);
    AdcAfterLoad(prior, mem, 0x7F, 0xFF);
    AdcAfterLoad(prior, mem, 0x80, 0xFF);
    AdcAfterLoad(prior, mem, 0xFF, 0xFF);
  }

  /** The arithmetic behind AdcIncludesCarry. */
  lemma AdcIncludesCarryValues()
    ensures AddWithCarry(0x00, 0x01, true) == Sum(0x02, false, false)
  {
  }

  /** ADC adds the carry in; the listing's LDA operand byte is 0x00. */
  lemma AdcIncludesCarry(prior: State, mem: Memory)
    ensures Run(prior, mem, [0xA9, 0x00, 0x38, 0x69, 0x01], 3) == Stepped(State(0x02, 0x00, 0x00, 0x205, 0xFF, Cleared))
  {
    AdcIncludesCarryValues();
    AdcAfterSetCarry(prior, mem, 0x00, 0x01);
  }

  /** The arithmetic behind AdcDecimal. */
  lemma AdcDecimalValues1()
    ensures DecimalAdd(0x01, 0x01, false) == DecimalSum(0x02, false)
    ensures DecimalAdd(0x49, 0x01, false) == DecimalSum(0x50, false)
    ensures DecimalAdd(0x50, 0x01, false) == DecimalSum(0x51, false)
    ensures DecimalAdd(0x99, 0x01, false) == DecimalSum(0x00, true)
  {
    DecimalAddDigits(0x01, 0x01, false);
    DecimalAddDigits(0x49, 0x01, false);
    DecimalAddDigits(0x50, 0x01, false);
    DecimalAddDigits(0x99, 0x01, false);
  }

  /** The arithmetic behind AdcDecimal. */
  lemma AdcDecimalValues2()
    ensures DecimalAdd(0x00, 0x99, false) == DecimalSum(0x99, false)
    ensures DecimalAdd(0x49, 0x99, false) == DecimalSum(0x48, true)
    ensures DecimalAdd(0x50, 0x99, false) == DecimalSum(0x49, true)
  {
    DecimalAddDigits(0x00, 0x99, false);
    DecimalAddDigits(0x49, 0x99, false);
    DecimalAddDigits(0x50, 0x99, false);
  }

  /** Decimal ADC on BCD operands: BCD sum and decimal carry, N and V clear. */
  lemma AdcDecimal(prior: State, mem: Memory)
    ensures Run(prior, mem, [0xF8, 0xA9, 0x01, 0x69, 0x01], 3) == Stepped(State(0x02, 0x00, 0x00, 0x205, 0xFF, Cleared.(d := true)))
    ensures Run(prior, mem, [0xF8, 0xA9, 0x49, 0x69, 0x01], 3) == Stepped(State(0x50, 0x00, 0x00, 0x205, 0xFF, Cleared.(d := true)))
    ensures Run(prior, mem, [0xF8, 0xA9, 0x50, 0x69, 0x01], 3) == Stepped(State(0x51, 0x00, 0x00, 0x205, 0xFF, Cleared.(d := true)))
    ensures Run(prior, mem, [0xF8, 0xA9, 0x99, 0x69, 0x01], 3) == Stepped(State(0x00, 0x00, 0x00, 0x205, 0xFF, Cleared.(d := true, z := true, c := true)))
    ensures Run(prior, mem, [0xF8, 0xA9, 0x00, 0x69, 0x99], 3) == Stepped(State(0x99, 0x00, 0x00, 0x205, 0xFF, Cleared.(d := true)))
    ensures Run(prior, mem, [0xF8, 0xA9, 0x49, 0x69, 0x99], 3) == Stepped(State(0x48, 0x00, 0x00, 0x205, 0xFF, Cleared.(d := true, c := true)))
    ensures Run(prior, mem, [0xF8, 0xA9, 0x50, 0x69, 0x99], 3) == Stepped(State(0x49, 0x00, 0x00, 0x205, 0xFF, Cleared.(d := true, c := true)))
  {
    AdcDecimalValues1();
    AdcDecimalValues2();
    DecimalAdcAfterLoad(prior, mem, 0x01, 0x01);
    DecimalAdcAfterLoad(prior, mem, 0x49, 0x01);
    DecimalAdcAfterLoad(prior, mem, 0x50, 0x01);
    DecimalAdcAfterLoad(prior, mem, 0x99, 0x01);
    DecimalAdcAfterLoad(prior, mem, 0x00, 0x99);
    DecimalAdcAfterLoad(prior, mem, 0x49, 0x99);
    DecimalAdcAfterLoad(prior, mem, 0x50, 0x99);
  }

  /** LDY loads Y and sets Z and N from the value. */
  lemma LdySetsY(prior: State, mem: Memory)
    ensures Run(prior, mem, [0xA0, 0x12], 1) == Stepped(State(0x00, 0x00, 0x12, 0x202, 0xFF, Cleared))
    ensures Run(prior, mem, [0xA0, 0x00], 1) == Stepped(State(0x00, 0x00, 0x00, 0x202, 0xFF, Cleared.(z := true)))
    ensures Run(prior, mem, [0xA0, 0x12], 1) == Stepped(State(0x00, 0x00, 0x12, 0x202, 0xFF, Cleared))
    ensures Run(prior, mem, [0xA0, 0x80], 1) == Stepped(State(0x00, 0x00, 0x80, 0x202, 0xFF, Cleared.(n := true)))
    ensures Run(prior, mem, [0xA0, 0x7F], 1) == Stepped(State(0x00, 0x00, 0x7F, 0x202, 0xFF, Cleared))
  {
    LdyFromReset(prior, mem, 0x12);
    LdyFromReset(prior, mem, 0x00);
    LdyFromReset(prior, mem, 0x12);
    LdyFromReset(prior, mem, 0x80);
    LdyFromReset(prior, mem, 0x7F);
  }

  /** LDX loads X and sets Z and N from the value. */
  lemma LdxSetsX(prior: State, mem: Memory)
    ensures Run(prior, mem, [0xA2, 0x12], 1) == Stepped(State(0x00, 0x12, 0x00, 0x202, 0xFF, Cleared))
    ensures Run(prior, mem, [0xA2, 0x00], 1) == Stepped(State(0x00, 0x00, 0x00, 0x202, 0xFF, Cleared.(z := true)))
    ensures Run(prior, mem, [0xA2, 0x12], 1) == Stepped(State(0x00, 0x12, 0x00, 0x202, 0xFF, Cleared))
    ensures Run(prior, mem, [0xA2, 0x80], 1) == Stepped(State(0x00, 0x80, 0x00, 0x202, 0xFF, Cleared.(n := true)))
    ensures Run(prior, mem, [0xA2, 0x7F], 1) == Stepped(State(0x00, 0x7F, 0x00, 0x202, 0xFF, Cleared))
  {
    LdxFromReset(prior, mem, 0x12);
    LdxFromReset(prior, mem, 0x00);
    LdxFromReset(prior, mem, 0x12);
    LdxFromReset(prior, mem, 0x80);
    LdxFromReset(prior, mem, 0x7F);
  }

  /** LDA loads A and sets Z and N from the value. */
  lemma LdaSetsA(prior: State, mem: Memory)
    ensures Run(prior, mem, [0xA9, 0x12], 1) == Stepped(State(0x12, 0x00, 0x00, 0x202, 0xFF, Cleared))
    ensures Run(prior, mem, [0xA9, 0x00], 1) == Stepped(State(0x00, 0x00, 0x00, 0x202, 0xFF, Cleared.(z := true)))
    ensures Run(prior, mem, [0xA9, 0x12], 1) == Stepped(State(0x12, 0x00, 0x00, 0x202, 0xFF, Cleared))
    ensures Run(prior, mem, [0xA9, 0x80], 1) == Stepped(State(0x80, 0x00, 0x00, 0x202, 0xFF, Cleared.(n := true)))
    ensures Run(prior, mem, [0xA9, 0x7F], 1) == Stepped(State(0x7F, 0x00, 0x00, 0x202, 0xFF, Cleared))
  {
    LdaFromReset(prior, mem, 0x12);
    LdaFromReset(prior, mem, 0x00);
    LdaFromReset(prior, mem, 0x12);
    LdaFromReset(prior, mem, 0x80);
    LdaFromReset(prior, mem, 0x7F);
  }

  /** The comparisons behind CmpEqual, CpxEqual and CpyEqual. */
  lemma CompareEqualValues()
    ensures Compare(0x00, 0x00) == Sum(0x00, true, false)
    ensures Compare(0x01, 0x01) == Sum(0x00, true, false)
    ensures Compare(0x7F, 0x7F) == Sum(0x00, true, false)
    ensures Compare(0xFF, 0xFF) == Sum(0x00, true, false)
  {
  }

  /** CPY of equal values sets C and Z and clears N. */
  lemma CpyEqual(prior: State, mem: Memory)
    ensures Run(prior, mem, [0xA0, 0x00, 0xC0, 0x00], 2) == Stepped(State(0x00, 0x00, 0x00, 0x204, 0xFF, Cleared.(z := true, c := true)))
    ensures Run(prior, mem, [0xA0, 0x01, 0xC0, 0x01], 2) == Stepped(State(0x00, 0x00, 0x01, 0x204, 0xFF, Cleared.(z := true, c := true)))
    ensures Run(prior, mem, [0xA0, 0x7F, 0xC0, 0x7F], 2) == Stepped(State(0x00, 0x00, 0x7F, 0x204, 0xFF, Cleared.(z := true, c := true)))
    ensures Run(prior, mem, [0xA0, 0xFF, 0xC0, 0xFF], 2) == Stepped(State(0x00, 0x00, 0xFF, 0x204, 0xFF, Cleared.(z := true, c := true)))
  {
    CompareEqualValues();
    CpyAfterLoad(prior, mem, 0x00, 0x00);
    CpyAfterLoad(prior, mem, 0x01, 0x01);
    CpyAfterLoad(prior, mem, 0x7F, 0x7F);
    CpyAfterLoad(prior, mem, 0xFF, 0xFF);
  }

  /** The comparisons behind CmpOrdered, CpxOrdered and CpyOrdered. */
  lemma CompareOrderedValues()
    ensures Compare(0x0A, 0x08) == Sum(0x02, true, false)
    ensures Compare(0xFA, 0x80) == Sum(0x7A, true, false)
    ensures Compare(0x08, 0x0A) == Sum(0xFE, false, false)
    ensures Compare(0x70, 0x80) == Sum(0xF0, false, true)
  {
  }

  /** CPY sets C when Y >= operand; N is bit 7 of Y - operand. */
  lemma CpyOrdered(prior: State, mem: Memory)
    ensures Run(prior, mem, [0xA0, 0x0A, 0xC0, 0x08], 2) == Stepped(State(0x00, 0x00, 0x0A, 0x204, 0xFF, Cleared.(c := true)))
    ensures Run(prior, mem, [0xA0, 0xFA, 0xC0, 0x80], 2) == Stepped(State(0x00, 0x00, 0xFA, 0x204, 0xFF, Cleared.(c := true)))
    ensures Run(prior, mem, [0xA0, 0x08, 0xC0, 0x0A], 2) == Stepped(State(0x00, 0x00, 0x08, 0x204, 0xFF, Cleared.(n := true)))
    ensures Run(prior, mem, [0xA0, 0x70, 0xC0, 0x80], 2) == Stepped(State(0x00, 0x00, 0x70, 0x204, 0xFF, Cleared.(n := true)))
  {
    CompareOrderedValues();
    CpyAfterLoad(prior, mem, 0x0A, 0x08);
    CpyAfterLoad(prior, mem, 0xFA, 0x80);
    CpyAfterLoad(prior, mem, 0x08, 0x0A);
    CpyAfterLoad(prior, mem, 0x70, 0x80);
  }

  /** CMP of equal values sets C and Z and clears N. */
  lemma CmpEqual(prior: State, mem: Memory)
    ensures Run(prior, mem, [0xA9, 0x00, 0xC9, 0x00], 2) == Stepped(State(0x00, 0x00, 0x00, 0x204, 0xFF, Cleared.(z := true, c := true)))
    ensures Run(prior, mem, [0xA9, 0x01, 0xC9, 0x01], 2) == Stepped(State(0x01, 0x00, 0x00, 0x204, 0xFF, Cleared.(z := true, c := true)))
    ensures Run(prior, mem, [0xA9, 0x7F, 0xC9, 0x7F], 2) == Stepped(State(0x7F, 0x00, 0x00, 0x204, 0xFF, Cleared.(z := true, c := true)))
    ensures Run(prior, mem, [0xA9, 0xFF, 0xC9, 0xFF], 2) == Stepped(State(0xFF, 0x00, 0x00, 0x204, 0xFF, Cleared.(z := true, c := true)))
  {
    CompareEqualValues();
    CmpAfterLoad(prior, mem, 0x00, 0x00);
    CmpAfterLoad(prior, mem, 0x01, 0x01);
    CmpAfterLoad(prior, mem, 0x7F, 0x7F);
    CmpAfterLoad(prior, mem, 0xFF, 0xFF);
  }

  /** CMP sets C when A >= operand; N is bit 7 of A - operand. */
  lemma CmpOrdered(prior: State, mem: Memory)
    ensures Run(prior, mem, [0xA9, 0x0A, 0xC9, 0x08], 2) == Stepped(State(0x0A, 0x00, 0x00, 0x204, 0xFF, Cleared.(c := true)))
    ensures Run(prior, mem, [0xA9, 0xFA, 0xC9, 0x80], 2) == Stepped(State(0xFA, 0x00, 0x00, 0x204, 0xFF, Cleared.(c := true)))
    ensures Run(prior, mem, [0xA9, 0x08, 0xC9, 0x0A], 2) == Stepped(State(0x08, 0x00, 0x00, 0x204, 0xFF, Cleared.(n := true)))
    ensures Run(prior, mem, [0xA9, 0x70, 0xC9, 0x80], 2) == Stepped(State(0x70, 0x00, 0x00, 0x204, 0xFF, Cleared.(n := true)))
  {
    CompareOrderedValues();
    CmpAfterLoad(prior, mem, 0x0A, 0x08);
    CmpAfterLoad(prior, mem, 0xFA, 0x80);
    CmpAfterLoad(prior, mem, 0x08, 0x0A);
    CmpAfterLoad(prior, mem, 0x70, 0x80);
  }

  /** CPX of equal values sets C and Z and clears N. */
  lemma CpxEqual(prior: State, mem: Memory)
    ensures Run(prior, mem, [0xA2, 0x00, 0xE0, 0x00], 2) == Stepped(State(0x00, 0x00, 0x00, 0x204, 0xFF, Cleared.(z := true, c := true)))
    ensures Run(prior, mem, [0xA2, 0x01, 0xE0, 0x01], 2) == Stepped(State(0x00, 0x01, 0x00, 0x204, 0xFF, Cleared.(z := true, c := true)))
    ensures Run(prior, mem, [0xA2, 0x7F, 0xE0, 0x7F], 2) == Stepped(State(0x00, 0x7F, 0x00, 0x204, 0xFF, Cleared.(z := true, c := true)))
    ensures Run(prior, mem, [0xA2, 0xFF, 0xE0, 0xFF], 2) == Stepped(State(0x00, 0xFF, 0x00, 0x204, 0xFF, Cleared.(z := true, c := true)))
  {
    CompareEqualValues();
    CpxAfterLoad(prior, mem, 0x00, 0x00);
    CpxAfterLoad(prior, mem, 0x01, 0x01);
    CpxAfterLoad(prior, mem, 0x7F, 0x7F);
    CpxAfterLoad(prior, mem, 0xFF, 0xFF);
  }

  /** CPX sets C when X >= operand; N is bit 7 of X - operand. */
  lemma CpxOrdered(prior: State, mem: Memory)
    ensures Run(prior, mem, [0xA2, 0x0A, 0xE0, 0x08], 2) == Stepped(State(0x00, 0x0A, 0x00, 0x204, 0xFF, Cleared.(c := true)))
    ensures Run(prior, mem, [0xA2, 0xFA, 0xE0, 0x80], 2) == Stepped(State(0x00, 0xFA, 0x00, 0x204, 0xFF, Cleared.(c := true)))
    ensures Run(prior, mem, [0xA2, 0x08, 0xE0, 0x0A], 2) == Stepped(State(0x00, 0x08, 0x00, 0x204, 0xFF, Cleared.(n := true)))
    ensures Run(prior, mem, [0xA2, 0x70, 0xE0, 0x80], 2) == Stepped(State(0x00, 0x70, 0x00, 0x204, 0xFF, Cleared.(n := true)))
  {
    CompareOrderedValues();
    CpxAfterLoad(prior, mem, 0x0A, 0x08);
    CpxAfterLoad(prior, mem, 0xFA, 0x80);
    CpxAfterLoad(prior, mem, 0x08, 0x0A);
    CpxAfterLoad(prior, mem, 0x70, 0x80);
  }

  /** The arithmetic behind SbcBinary. */
  lemma SbcBinaryValues1()
    ensures SubtractWithBorrow(0x00, 0x01, false) == Sum(0xFE, false, false)
    ensures SubtractWithBorrow(0x7F, 0x01, false) == Sum(0x7D, true, false)
    ensures SubtractWithBorrow(0x80, 0x01, false) == Sum(0x7E, true, true)
    ensures SubtractWithBorrow(0xFF, 0x01, false) == Sum(0xFD, true, false)
  {
  }

  /** The arithmetic behind SbcBinary. */
  lemma SbcBinaryValues2()
    ensures SubtractWithBorrow(0x02, 0x01, false) == Sum(0x00, true, false)
  {
  }

  /** Binary SBC with the carry clear after reset subtracts one more. */
  lemma SbcBinary(prior: State, mem: Memory)
    ensures Run(prior, mem, [0xA9, 0x00, 0xE9, 0x01], 2) == Stepped(State(0xFE, 0x00, 0x00, 0x204, 0xFF, Cleared.(n := true)))
    ensures Run(prior, mem, [0xA9, 0x7F, 0xE9, 0x01], 2) == Stepped(State(0x7D, 0x00, 0x00, 0x204, 0xFF, Cleared.(c := true)))
    ensures Run(prior, mem, [0xA9, 0x80, 0xE9, 0x01], 2) == Stepped(State(0x7E, 0x00, 0x00, 0x204, 0xFF, Cleared.(v := true, c := true)))
    ensures Run(prior, mem, [0xA9, 0xFF, 0xE9, 0x01], 2) == Stepped(State(0xFD, 0x00, 0x00, 0x204, 0xFF, Cleared.(n := true, c := true)))
    ensures Run(prior, mem, [0xA9, 0x02, 0xE9, 0x01], 2) == Stepped(State(0x00, 0x00, 0x00, 0x204, 0xFF, Cleared.(z := true, c := true)))
  {
    SbcBinaryValues1();
    SbcBinaryValues2();
    SbcAfterLoad(prior, mem, 0x00, 0x01);
    SbcAfterLoad(prior, mem, 0x7F, 0x01);
    SbcAfterLoad(prior, mem, 0x80, 0x01);
    SbcAfterLoad(prior, mem, 0xFF, 0x01);
    SbcAfterLoad(prior, mem, 0x02, 0x01);
  }

  /** The arithmetic behind SbcIncludesNotOfCarry. */
  lemma SbcIncludesNotOfCarryValues()
    ensures Opcode(CLC) == 0x18 && Opcode(SEC) == 0x38 && CLC != SEC
    ensures SubtractWithBorrow(0x05, 0x01, false) == Sum(0x03, true, false)
    ensures SubtractWithBorrow(0x00, 0x01, false) == Sum(0xFE, false, false)
    ensures SubtractWithBorrow(0x05, 0x01, true) == Sum(0x04, true, false)
    ensures SubtractWithBorrow(0x00, 0x01, true) == Sum(0xFF, false, false)
  {
  }

  /** SBC subtracts the complement of the carry; the LDA operand bytes are as loaded, not as commented. */
  lemma SbcIncludesNotOfCarry(prior: State, mem: Memory)
    ensures Run(prior, mem, [0x18, 0xA9, 0x05, 0xE9, 0x01], 3) == Stepped(State(0x03, 0x00, 0x00, 0x205, 0xFF, Cleared.(c := true)))
    ensures Run(prior, mem, [0x18, 0xA9, 0x00, 0xE9, 0x01], 3) == Stepped(State(0xFE, 0x00, 0x00, 0x205, 0xFF, Cleared.(n := true)))
    ensures Run(prior, mem, [0x38, 0xA9, 0x05, 0xE9, 0x01], 3) == Stepped(State(0x04, 0x00, 0x00, 0x205, 0xFF, Cleared.(c := true)))
    ensures Run(prior, mem, [0x38, 0xA9, 0x00, 0xE9, 0x01], 3) == Stepped(State(0xFF, 0x00, 0x00, 0x205, 0xFF, Cleared.(n := true)))
  {
    SbcIncludesNotOfCarryValues();
    SbcAfterCarryFlag(prior, mem, CLC, 0x05, 0x01);
    SbcAfterCarryFlag(prior, mem, CLC, 0x00, 0x01);
    SbcAfterCarryFlag(prior, mem, SEC, 0x05, 0x01);
    SbcAfterCarryFlag(prior, mem, SEC, 0x00, 0x01);
  }

  /** The arithmetic behind SbcDecimal. */
  lemma SbcDecimalValues1()
    ensures DecimalSubtract(0x00, 0x01, false) == DecimalSum(0x98, false)
    ensures DecimalSubtract(0x99, 0x01, false) == DecimalSum(0x97, true)
    ensures DecimalSubtract(0x50, 0x01, false) == DecimalSum(0x48, true)
    ensures DecimalSubtract(0x02, 0x01, false) == DecimalSum(0x00, true)
  {
    DecimalSubtractDigits(0x00, 0x01, false);
    DecimalSubtractDigits(0x99, 0x01, false);
    DecimalSubtractDigits(0x50, 0x01, false);
    DecimalSubtractDigits(0x02, 0x01, false);
  }

  /** The arithmetic behind SbcDecimal. */
  lemma SbcDecimalValues2()
    ensures DecimalSubtract(0x10, 0x11, false) == DecimalSum(0x98, false)
    ensures DecimalSubtract(0x05, 0x01, true) == DecimalSum(0x04, true)
    ensures DecimalSubtract(0x00, 0x01, true) == DecimalSum(0x99, false)
  {
    DecimalSubtractDigits(0x10, 0x11, false);
    DecimalSubtractDigits(0x05, 0x01, true);
    DecimalSubtractDigits(0x00, 0x01, true);
  }

  /** Decimal SBC on BCD operands: BCD difference and no-borrow carry, N and V clear, D kept. */
  lemma SbcDecimal(prior: State, mem: Memory)
    ensures Run(prior, mem, [0xF8, 0xA9, 0x00, 0xE9, 0x01], 3) == Stepped(State(0x98, 0x00, 0x00, 0x205, 0xFF, Cleared.(d := true)))
    ensures Run(prior, mem, [0xF8, 0xA9, 0x99, 0xE9, 0x01], 3) == Stepped(State(0x97, 0x00, 0x00, 0x205, 0xFF, Cleared.(d := true, c := true)))
    ensures Run(prior, mem, [0xF8, 0xA9, 0x50, 0xE9, 0x01], 3) == Stepped(State(0x48, 0x00, 0x00, 0x205, 0xFF, Cleared.(d := true, c := true)))
    ensures Run(prior, mem, [0xF8, 0xA9, 0x02, 0xE9, 0x01], 3) == Stepped(State(0x00, 0x00, 0x00, 0x205, 0xFF, Cleared.(d := true, z := true, c := true)))
    ensures Run(prior, mem, [0xF8, 0xA9, 0x10, 0xE9, 0x11], 3) == Stepped(State(0x98, 0x00, 0x00, 0x205, 0xFF, Cleared.(d := true)))
    ensures Run(prior, mem, [0x38, 0xF8, 0xA9, 0x05, 0xE9, 0x01], 4) == Stepped(State(0x04, 0x00, 0x00, 0x206, 0xFF, Cleared.(d := true, c := true)))
    ensures Run(prior, mem, [0x38, 0xF8, 0xA9, 0x00, 0xE9, 0x01], 4) == Stepped(State(0x99, 0x00, 0x00, 0x206, 0xFF, Cleared.(d := true)))
  {
    SbcDecimalValues1();
    SbcDecimalValues2();
    DecimalSbcAfterLoad(prior, mem, 0x00, 0x01);
    DecimalSbcAfterLoad(prior, mem, 0x99, 0x01);
    DecimalSbcAfterLoad(prior, mem, 0x50, 0x01);
    DecimalSbcAfterLoad(prior, mem, 0x02, 0x01);
    DecimalSbcAfterLoad(prior, mem, 0x10, 0x11);
    DecimalSbcAfterSetCarry(prior, mem, 0x05, 0x01);
    DecimalSbcAfterSetCarry(prior, mem, 0x00, 0x01);
  }

}
