# A model of the symon 6502 core, as its immediate-mode test suite fixes it

symon is a 6502 system emulator written in Java. Its CPU fetches an opcode at
PC, decodes it, reads the operand, and updates the registers A, X, Y, PC and
SP and the status register P. P is laid out from bit 7 down as N V 1 B D I Z C.
`CpuImmediateModeTest` pins down this core for the immediate addressing mode.
Its fixture writes the reset vector, resets the CPU and checks the reset
state. Each case then loads a short program at the default load address
0x0200, steps the CPU a given number of times, and asserts a register (A, X
or Y) and flags.

This project models that core in Dafny as pure functions:

- `Bits`: bytes and 16-bit words as bounded integers, their bits, the signed
  reading of a byte, and bitwise OR, AND and exclusive OR.
- `Status`: the flags as a record and the P byte they pack into.
- `Alu`: the binary adder (ADC), subtraction as addition of the one's
  complement (SBC), and the compare instructions.
- `Bcd`: decimal-mode ADC and SBC, as nibble-wise correction by 6. They are
  proved equal to the decimal sum and difference on packed-BCD operands.
- `Bus`: the 64 KB address space as a total map from address to byte, the
  little-endian reset vector at 0xFFFC/0xFFFD, and the program loader.
- `Cpu`: the register state, reset, the opcode table and the step.
  - The table covers the eleven immediate-mode instructions ORA $09, AND $29,
    EOR $49, ADC $69, LDY $A0, LDX $A2, LDA $A9, CPY $C0, CMP $C9, CPX $E0 and
    SBC $E9.
  - It also covers the three implied-mode flag instructions the suite uses:
    CLC $18, SEC $38 and SED $F8.
  - A step at any other opcode stops with an "unimplemented opcode" result
    that names the byte, its address and the register state there. `StepN`
    takes n steps and stops at the first such opcode, keeping the registers
    the earlier steps set.
- `Semantics`: what each instruction does, stated against independent
  references. These are the bitwise meaning, the 9-bit and signed sums, the
  decimal sum and difference, and the unsigned order of the compares. Each
  lemma also says what the instruction leaves alone.
- `Program`: a listing of instructions, the bytes it assembles to, and the
  proof that stepping through a loaded listing executes it instruction by
  instruction.
- `ImmediateModeCases`: the suite replayed.
  - The fixture is `SetUp` and a test case is `Run`.
  - Each instruction pattern the suite uses is proved for all operand values
    (`AdcAfterLoad`, `SbcAfterCarryFlag`, ...).
  - Each point where a test method checks the CPU (a listing loaded and
    stepped some number of times) is one `ensures` clause, in suite order.
    A lemma holds the clauses of one test method, or of a run of short
    consecutive methods that probe the same instruction: the four ORA flag
    methods are `OraFlags`, the five LDY methods are `LdySetsY`, and the two
    ordered-compare methods of each register are `CmpOrdered`, `CpxOrdered`
    and `CpyOrdered`.
  - Each clause states the full register state after the checked steps.
    That is more than the assertions check, and it holds for every state
    before the reset and every memory content.

Modelling decisions:

- The suite loads the bytes, not the comments beside them, and the model
  follows the bytes. The comments disagree with the bytes at
  `CpuImmediateModeTest.java` lines 271, 329, 350, 731 and 751:
  - line 271 says `LDA #$01`, but the byte is $00;
  - line 329 says `ADC #$01`, but the byte is $99;
  - line 350 says `LDA #$59`, but the byte is $50;
  - lines 731 and 751 say `LDA #$00`, but the byte is $05.
- In decimal mode ADC and SBC clear N and V, and set Z exactly when the BCD
  result is 0. The suite asserts N clear for the results $99 and $98, whose
  bit 7 is set, so N does not come from bit 7 of the result here.
- Reset leaves C clear, and SBC subtracts 1 - C on top of the operand. So the
  suite's `LDA; SBC #$01` without SEC subtracts two: 0x00 gives 0xFE in
  binary and 0x98 in decimal. With SEC first, decimal 0x00 - 0x01 gives
  0x99, as the suite asserts (`SbcDecimal`).
- Memory is a total function from address to byte. None of the modelled
  instructions writes memory, so a step returns only the new register state.

## Model

| member | source | states |
|---|---|---|
| Cpu.Reset | symon/src/test/java/com/loomcom/symon/CpuImmediateModeTest.java:14-33 | After reset A, X and Y are 0, SP is 0xFF, every flag is clear so P reads 0x20, and PC is the little-endian word stored at 0xFFFC/0xFFFD. |
| Semantics.ResetIgnoresPrior | symon/src/test/java/com/loomcom/symon/CpuImmediateModeTest.java:196-200 | Reset gives the same state whatever state it interrupts, and resetting twice is resetting once; so the suite's mid-test `cpu.reset()` restarts every sub-case identically. |
| Bus.WordRoundTrip | symon/src/test/java/com/loomcom/symon/CpuImmediateModeTest.java:21-23 | Writing a word as its low byte then its high byte and reading it back little-endian gives the word: the fixture's reset vector points at the default load address. |
| Bus.Load | symon/src/test/java/com/loomcom/symon/CpuImmediateModeTest.java:55-57 | Loading a program writes its bytes at consecutive addresses from the start address and leaves every other address as it was. |
| Status.FlagsRoundTrip | symon/src/test/java/com/loomcom/symon/CpuImmediateModeTest.java:32 | Packing the seven flags into the P byte (N V 1 B D I Z C) and reading them back gives the same flags. |
| Status.StatusRoundTrip | symon/src/test/java/com/loomcom/symon/CpuImmediateModeTest.java:32 | Reading the flags out of a P byte and packing them again gives the byte with the always-one bit 5 set. |
| Status.StatusByteBits | symon/src/test/java/com/loomcom/symon/CpuImmediateModeTest.java:32 | Each flag sits at its own bit of P, from C at bit 0 to N at bit 7, and bit 5 is always 1. |
| ImmediateModeCases.SetUp | symon/src/test/java/com/loomcom/symon/CpuImmediateModeTest.java:14-33 | The fixture's reset leaves A = X = Y = 0, PC = 0x200, SP = 0xFF and P = 0x20. |
| Cpu.Decode | symon/src/test/java/com/loomcom/symon/CpuImmediateModeTest.java:35-51 | The opcode table: a byte decodes to an instruction exactly when it is that instruction's opcode byte; any other byte has no entry. |
| Cpu.DecodeOpcode | symon/src/test/java/com/loomcom/symon/CpuImmediateModeTest.java:35-51 | Decoding each instruction's opcode byte gives that instruction back. |
| Cpu.Length | symon/src/test/java/com/loomcom/symon/CpuImmediateModeTest.java:55-60 | An instruction takes two bytes in immediate mode (opcode and operand) and one in implied mode. |
| Cpu.Step | symon/src/test/java/com/loomcom/symon/CpuImmediateModeTest.java:55-60 | One step stops exactly when the opcode byte has no table entry, reporting that byte, its address and the register state unchanged; otherwise PC moves past the instruction and SP, I and B are kept. |
| Cpu.Execute | symon/src/test/java/com/loomcom/symon/CpuImmediateModeTest.java:55-75 | No modelled instruction moves PC or SP or touches the I and B flags. |
| Cpu.StepNInvariants | symon/src/test/java/com/loomcom/symon/CpuImmediateModeTest.java:55-75 | A run of n steps keeps SP, I and B; a run that stops reports an opcode with no table entry read from the address it names, together with the registers reached there (PC at that address, SP, I and B as at the start), and stepping that state again gives the same stop; zero steps change nothing. |
| Cpu.StopsAt | symon/src/test/java/com/loomcom/symon/CpuImmediateModeTest.java:55-75 | Once a run reaches a state at an opcode with no table entry, every longer run stops there too, reporting that opcode, its address and that state, so the registers set by the earlier steps survive the stop. |
| Cpu.StepNAdd | symon/src/test/java/com/loomcom/symon/CpuImmediateModeTest.java:55-75 | Running m + n steps is running m steps and then n more from where they ended. |
| Program.EncodedProgram | symon/src/test/java/com/loomcom/symon/CpuImmediateModeTest.java:55-60 | A loaded listing's bytes lay the listing out in memory, instruction by instruction. |
| Program.StepFirst | symon/src/test/java/com/loomcom/symon/CpuImmediateModeTest.java:55-60 | A step at the first instruction of a laid-out listing executes exactly that instruction. |
| Program.RunsAsWritten | symon/src/test/java/com/loomcom/symon/CpuImmediateModeTest.java:55-75 | Stepping n times through a laid-out listing (n at most its length) never stops and executes its first n instructions in order. |
| Program.FinalNext | symon/src/test/java/com/loomcom/symon/CpuImmediateModeTest.java:55-75 | Executing one more instruction of a listing extends the result of the prefix by that instruction. |
| Program.AdvancePc | symon/src/test/java/com/loomcom/symon/CpuImmediateModeTest.java:55-60 | Short of the top of memory an instruction moves PC on by its length. |
| Program.ImpliedIgnoresOperand | symon/src/test/java/com/loomcom/symon/CpuImmediateModeTest.java:270-280 | CLC, SEC and SED do not depend on the byte after their opcode. |
| ImmediateModeCases.Replay | symon/src/test/java/com/loomcom/symon/CpuImmediateModeTest.java:55-75 | A test case that loads a listing's bytes at 0x200 and steps n times ends in the state reached by executing the listing's first n instructions from the reset state. |
| ImmediateModeCases.ReplayAll | symon/src/test/java/com/loomcom/symon/CpuImmediateModeTest.java:188-193 | A test case that steps once per instruction executes the whole listing. |
| Bits.BitwiseBits | symon/src/test/java/com/loomcom/symon/CpuImmediateModeTest.java:55-184 | Bit i of A OR M, A AND M and A XOR M is the OR, AND and exclusive OR of bit i of A and of M. |
| Bits.NegativeIsBit7 | symon/src/test/java/com/loomcom/symon/CpuImmediateModeTest.java:89-99 | A byte is negative (as the N flag reports) exactly when its bit 7 is set. |
| Bits.ZeroIffNoBits | symon/src/test/java/com/loomcom/symon/CpuImmediateModeTest.java:77-87 | A byte is zero exactly when none of its bits is set. |
| Bits.XorInvolution | symon/src/test/java/com/loomcom/symon/CpuImmediateModeTest.java:156-169 | Exclusive OR with the same byte twice gives the original byte back. |
| Alu.AddWithCarry | symon/src/test/java/com/loomcom/symon/CpuImmediateModeTest.java:188-280 | Binary ADC: the result plus 256 times the carry out is A + M + C, and V is set exactly when the signed sum leaves -128..127. |
| Alu.ComplementBits | symon/src/test/java/com/loomcom/symon/CpuImmediateModeTest.java:677-726 | SBC's one's complement of M inverts every bit of M. |
| Alu.SubtractWithBorrow | symon/src/test/java/com/loomcom/symon/CpuImmediateModeTest.java:677-767 | Binary SBC: the result is A - M - (1 - C) modulo 256, C is set exactly when that difference is not negative, V exactly when the signed difference leaves -128..127. |
| Alu.Compare | symon/src/test/java/com/loomcom/symon/CpuImmediateModeTest.java:458-673 | A compare sets C exactly when register >= M, gives a zero result exactly when they are equal, and its result is register - M modulo 256. |
| Bcd.BcdRoundTrip | symon/src/test/java/com/loomcom/symon/CpuImmediateModeTest.java:282-358 | A valid packed-BCD byte read as a number 0..99 and encoded again is the same byte. |
| Bcd.DecimalAddDigits | symon/src/test/java/com/loomcom/symon/CpuImmediateModeTest.java:282-358 | Decimal ADC digit by digit: each digit is its digit sum less 10 when it carried; C is the carry out of the tens. |
| Bcd.DecimalAddCorrect | symon/src/test/java/com/loomcom/symon/CpuImmediateModeTest.java:282-358 | On BCD operands decimal ADC gives the BCD form of (a + b + c) mod 100 and sets C exactly when a + b + c reaches 100. |
| Bcd.DecimalSubtractDigits | symon/src/test/java/com/loomcom/symon/CpuImmediateModeTest.java:769-861 | Decimal SBC digit by digit: a digit that borrowed gets 10 added back; C is set exactly when the tens did not borrow. |
| Bcd.DecimalSubtractCorrect | symon/src/test/java/com/loomcom/symon/CpuImmediateModeTest.java:769-861 | On BCD operands decimal SBC gives the BCD form of (a - b - (1 - c)) mod 100 and sets C exactly when that difference is not negative. |
| Bcd.DecimalResultsValid | symon/src/test/java/com/loomcom/symon/CpuImmediateModeTest.java:282-358 | Decimal ADC and SBC on BCD operands give BCD results. |
| Semantics.OraSemantics | symon/src/test/java/com/loomcom/symon/CpuImmediateModeTest.java:53-100 | ORA: A becomes A OR M bit by bit; Z is set exactly when the result is 0, N exactly when bit 7 of A or M is set; nothing else changes. |
| Semantics.AndSemantics | symon/src/test/java/com/loomcom/symon/CpuImmediateModeTest.java:101-153 | AND: A becomes A AND M bit by bit; Z exactly when the result is 0, N exactly when bit 7 is set in both; nothing else changes. |
| Semantics.EorSemantics | symon/src/test/java/com/loomcom/symon/CpuImmediateModeTest.java:154-185 | EOR: A becomes A XOR M bit by bit; Z exactly when A equalled M, N exactly when their bit 7s differ; nothing else changes. |
| Semantics.EorTwiceRestores | symon/src/test/java/com/loomcom/symon/CpuImmediateModeTest.java:156-169 | EOR with the same operand twice restores A. |
| Semantics.LoadSemantics | symon/src/test/java/com/loomcom/symon/CpuImmediateModeTest.java:360-455 | LDA, LDX and LDY copy M into their register; Z exactly when M is 0, N exactly when bit 7 of M is set; nothing else changes. |
| Semantics.AdcBinarySemantics | symon/src/test/java/com/loomcom/symon/CpuImmediateModeTest.java:188-280 | Binary ADC: A' = (A + M + C) mod 256, C' exactly when the sum exceeds 255, V' exactly when the signed sum overflows (equivalently when A and M share a sign A' lacks), N and Z from A'; nothing else changes. |
| Semantics.SbcBinarySemantics | symon/src/test/java/com/loomcom/symon/CpuImmediateModeTest.java:677-767 | Binary SBC: A' = (A - M - (1 - C)) mod 256, C' exactly when A >= M + (1 - C), V' exactly when the signed difference overflows, N and Z from A'; nothing else changes. |
| Semantics.AdcDecimalSemantics | symon/src/test/java/com/loomcom/symon/CpuImmediateModeTest.java:282-358 | Decimal ADC on BCD operands: A' is the BCD form of (a + b + c) mod 100, C' exactly when the sum reaches 100, Z exactly when the BCD result is 0, N and V clear, D kept. |
| Semantics.SbcDecimalSemantics | symon/src/test/java/com/loomcom/symon/CpuImmediateModeTest.java:769-861 | Decimal SBC on BCD operands: A' is the BCD form of (a - b - (1 - c)) mod 100, C' exactly when the difference is not negative, Z exactly when it is 0 mod 100, N and V clear, D kept. |
| Semantics.CompareSemantics | symon/src/test/java/com/loomcom/symon/CpuImmediateModeTest.java:456-675 | CMP, CPX and CPY: C exactly when the register >= M, Z exactly when they are equal, N is bit 7 of register - M; no register changes. |
| Semantics.ClcSemantics | symon/src/test/java/com/loomcom/symon/CpuImmediateModeTest.java:728-737 | CLC clears bit 0 (C) of the P byte and keeps bits 1 to 7; A, X, Y, PC and SP are unchanged. |
| Semantics.SecSemantics | symon/src/test/java/com/loomcom/symon/CpuImmediateModeTest.java:270-280 | SEC sets bit 0 (C) of the P byte and keeps bits 1 to 7; A, X, Y, PC and SP are unchanged. |
| Semantics.SedSemantics | symon/src/test/java/com/loomcom/symon/CpuImmediateModeTest.java:282-292 | SED sets bit 3 (D) of the P byte and keeps the other seven bits; A, X, Y, PC and SP are unchanged. |
| ImmediateModeCases.OraFromReset | symon/src/test/java/com/loomcom/symon/CpuImmediateModeTest.java:77-99 | For every operand v, the one-instruction case ORA #v leaves A = 0 OR v, with N and Z from it and PC at 0x202. |
| ImmediateModeCases.LdaFromReset | symon/src/test/java/com/loomcom/symon/CpuImmediateModeTest.java:426-454 | For every v, LDA #v from reset leaves A = v, Z exactly when v = 0, N exactly when bit 7 of v is set, PC at 0x202. |
| ImmediateModeCases.LdxFromReset | symon/src/test/java/com/loomcom/symon/CpuImmediateModeTest.java:394-422 | For every v, LDX #v from reset leaves X = v with N and Z from v. |
| ImmediateModeCases.LdyFromReset | symon/src/test/java/com/loomcom/symon/CpuImmediateModeTest.java:362-390 | For every v, LDY #v from reset leaves Y = v with N and Z from v. |
| ImmediateModeCases.AndAfterLoad | symon/src/test/java/com/loomcom/symon/CpuImmediateModeTest.java:126-152 | For every r and m, LDA #r; AND #m leaves A = r AND m with N and Z from it. |
| ImmediateModeCases.AdcAfterLoad | symon/src/test/java/com/loomcom/symon/CpuImmediateModeTest.java:188-268 | For every r and m, LDA #r; ADC #m with the carry clear from reset leaves the binary sum with its carry and overflow. |
| ImmediateModeCases.AdcAfterSetCarry | symon/src/test/java/com/loomcom/symon/CpuImmediateModeTest.java:270-280 | For every r and m, LDA #r; SEC; ADC #m adds the carry: the binary sum r + m + 1. |
| ImmediateModeCases.DecimalAdcAfterLoad | symon/src/test/java/com/loomcom/symon/CpuImmediateModeTest.java:282-358 | For every r and m, SED; LDA #r; ADC #m leaves the nibble-corrected sum and its carry (the decimal sum on BCD operands), N and V clear, D set. |
| ImmediateModeCases.SbcAfterLoad | symon/src/test/java/com/loomcom/symon/CpuImmediateModeTest.java:677-726 | For every r and m, LDA #r; SBC #m with the carry clear from reset subtracts one more than m. |
| ImmediateModeCases.SbcAfterCarryFlag | symon/src/test/java/com/loomcom/symon/CpuImmediateModeTest.java:728-767 | For every r and m, CLC or SEC then LDA #r; SBC #m subtracts m plus the complement of the carry that flag left. |
| ImmediateModeCases.DecimalSbcAfterLoad | symon/src/test/java/com/loomcom/symon/CpuImmediateModeTest.java:769-832 | For every r and m, SED; LDA #r; SBC #m with the carry clear leaves the nibble-corrected difference with a borrow in (on BCD operands the decimal difference less one), N and V clear. |
| ImmediateModeCases.DecimalSbcAfterSetCarry | symon/src/test/java/com/loomcom/symon/CpuImmediateModeTest.java:836-861 | For every r and m, SEC; SED; LDA #r; SBC #m leaves the nibble-corrected difference and its no-borrow carry (on BCD operands the decimal difference r - m). |
| ImmediateModeCases.CmpAfterLoad | symon/src/test/java/com/loomcom/symon/CpuImmediateModeTest.java:531-600 | For every r and m, LDA #r; CMP #m keeps A = r and sets C, Z and N from r - m. |
| ImmediateModeCases.CpxAfterLoad | symon/src/test/java/com/loomcom/symon/CpuImmediateModeTest.java:604-673 | For every r and m, LDX #r; CPX #m keeps X = r and sets C, Z and N from r - m. |
| ImmediateModeCases.CpyAfterLoad | symon/src/test/java/com/loomcom/symon/CpuImmediateModeTest.java:458-527 | For every r and m, LDY #r; CPY #m keeps Y = r and sets C, Z and N from r - m. |
| ImmediateModeCases.OraAccumulates | symon/src/test/java/com/loomcom/symon/CpuImmediateModeTest.java:55-75 | ORA #$00, #$11, #$22, #$44, #$88 leaves A = 0x00 (Z), 0x11, 0x33, 0x77, 0xFF (N) after steps 1 to 5. |
| ImmediateModeCases.OraFlags | symon/src/test/java/com/loomcom/symon/CpuImmediateModeTest.java:77-99 | ORA of 0x00, 0x01, 0x80 and 0x7F from reset: Z only for 0x00, N only for 0x80. |
| ImmediateModeCases.AndMasks | symon/src/test/java/com/loomcom/symon/CpuImmediateModeTest.java:103-124 | AND #$00, AND #$11, LDA #$AA, AND #$FF, AND #$99, AND #$11 leaves A = 0, 0, 0xAA, 0x88, 0 at the checked steps, with N and Z to match. |
| ImmediateModeCases.AndFlags | symon/src/test/java/com/loomcom/symon/CpuImmediateModeTest.java:126-152 | LDA #$88 then AND of 0x11, 0xF1, 0xF0, 0x0F gives 0x00 (Z), 0x80 (N), 0x80 (N), 0x08. |
| ImmediateModeCases.EorToggles | symon/src/test/java/com/loomcom/symon/CpuImmediateModeTest.java:156-169 | LDA #$88; EOR #$00, #$FF, #$33 leaves A = 0x88 (N), 0x77, 0x44. |
| ImmediateModeCases.EorFlags | symon/src/test/java/com/loomcom/symon/CpuImmediateModeTest.java:171-184 | LDA #$77; EOR #$77; EOR #$FF leaves A = 0 with Z, then 0xFF with N. |
| ImmediateModeCases.AdcBinary | symon/src/test/java/com/loomcom/symon/CpuImmediateModeTest.java:188-268 | The eight binary ADC cases: sum, N, V, Z and C exactly as the suite asserts (0x7F + 0x01 gives 0x80 with N and V; 0x80 + 0xFF gives 0x7F with V and C). |
| ImmediateModeCases.AdcIncludesCarry | symon/src/test/java/com/loomcom/symon/CpuImmediateModeTest.java:270-280 | LDA #$00; SEC; ADC #$01 leaves A = 0x02 with every flag clear. |
| ImmediateModeCases.AdcDecimal | symon/src/test/java/com/loomcom/symon/CpuImmediateModeTest.java:282-358 | The seven decimal ADC cases: BCD sums 0x02, 0x50, 0x51, 0x00 (Z, C), 0x99, 0x48 (C), 0x49 (C), N and V clear, D set. |
| ImmediateModeCases.LdySetsY | symon/src/test/java/com/loomcom/symon/CpuImmediateModeTest.java:362-390 | LDY of 0x12, 0x00, 0x12, 0x80, 0x7F sets Y with Z only for 0x00 and N only for 0x80. |
| ImmediateModeCases.LdxSetsX | symon/src/test/java/com/loomcom/symon/CpuImmediateModeTest.java:394-422 | LDX of 0x12, 0x00, 0x12, 0x80, 0x7F sets X with Z only for 0x00 and N only for 0x80. |
| ImmediateModeCases.LdaSetsA | symon/src/test/java/com/loomcom/symon/CpuImmediateModeTest.java:426-454 | LDA of 0x12, 0x00, 0x12, 0x80, 0x7F sets A with Z only for 0x00 and N only for 0x80. |
| ImmediateModeCases.CpyEqual | symon/src/test/java/com/loomcom/symon/CpuImmediateModeTest.java:458-489 | CPY of equal values 0x00, 0x01, 0x7F, 0xFF sets Z and C and clears N. |
| ImmediateModeCases.CpyOrdered | symon/src/test/java/com/loomcom/symon/CpuImmediateModeTest.java:491-527 | CPY with Y above the operand sets C; with Y below it clears C and sets N as bit 7 of Y - M shows. |
| ImmediateModeCases.CmpEqual | symon/src/test/java/com/loomcom/symon/CpuImmediateModeTest.java:531-562 | CMP of equal values 0x00, 0x01, 0x7F, 0xFF sets Z and C and clears N. |
| ImmediateModeCases.CmpOrdered | symon/src/test/java/com/loomcom/symon/CpuImmediateModeTest.java:564-600 | CMP with A above the operand sets C; with A below it clears C and sets N as bit 7 of A - M shows. |
| ImmediateModeCases.CpxEqual | symon/src/test/java/com/loomcom/symon/CpuImmediateModeTest.java:604-635 | CPX of equal values 0x00, 0x01, 0x7F, 0xFF sets Z and C and clears N. |
| ImmediateModeCases.CpxOrdered | symon/src/test/java/com/loomcom/symon/CpuImmediateModeTest.java:637-673 | CPX with X above the operand sets C; with X below it clears C and sets N as bit 7 of X - M shows. |
| ImmediateModeCases.SbcBinary | symon/src/test/java/com/loomcom/symon/CpuImmediateModeTest.java:677-726 | The five binary SBC cases with the carry clear after reset: 0x00 - 0x01 gives 0xFE (N, borrow), 0x80 - 0x01 gives 0x7E (V, C), 0x02 - 0x01 gives 0x00 (Z, C). |
| ImmediateModeCases.SbcIncludesNotOfCarry | symon/src/test/java/com/loomcom/symon/CpuImmediateModeTest.java:728-767 | CLC or SEC before LDA; SBC #$01: 0x05 gives 0x03 after CLC and 0x04 after SEC; 0x00 gives 0xFE and 0xFF with N and a borrow. |
| ImmediateModeCases.SbcDecimal | symon/src/test/java/com/loomcom/symon/CpuImmediateModeTest.java:769-861 | The seven decimal SBC cases: 0x98, 0x97, 0x48, 0x00, 0x98 with the carry clear, 0x04 and 0x99 after SEC, N and V clear, D set. |

## Left out

- The other addressing modes and opcodes of the 6502 are not modelled. Only
  the immediate-mode instructions and the three flag instructions the suite
  runs are: the fourteen opcodes ORA, AND, EOR, ADC, SBC, CMP, CPX, CPY,
  LDA, LDX and LDY in immediate mode, and CLC, SEC and SED. Any other opcode
  byte makes a step stop as "unimplemented opcode", reporting the byte, its
  address and the register state at that point.
- Interrupts (IRQ, NMI, BRK), the stack and cycle counting are not modelled.
  The suite does not exercise them.
- `Bus` and `Memory` device mapping and their exceptions
  (`MemoryRangeException`, `MemoryAccessException`) are left out. Memory here
  is one flat 64 KB map that is always readable.
- Decimal mode on operands that are not valid BCD (a nibble above 9) is
  computed by the same nibble algorithm. No property is claimed for it,
  because the suite does not constrain it.
- The JUnit framework itself is not modelled: assertions, `TestCase`, and the
  order the methods run in. Each checked point of a test method becomes one
  `ensures` clause over every prior state and memory.
