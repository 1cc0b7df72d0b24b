/**
 * The 6502 processor: its register state, reset, the opcode table for the
 * immediate-mode and flag instructions, and the fetch-decode-execute step.
 * Everything is a pure function of the current state and memory; none of
 * the modelled instructions writes memory, so a step returns only the new
 * register state.
 */
module Cpu {
  import opened Bits
  import opened Status
  import opened Alu
  import opened Bcd
  import opened Bus

  /** The programmer-visible registers: A, X, Y, PC, SP and P (as flags). */
  datatype State = State(a: Byte, x: Byte, y: Byte, pc: Word, sp: Byte, flags: Flags)

  /** The instructions modelled: eleven with an immediate operand and three that set or clear a flag. */
  datatype Operation =
    | ORA | AND | EOR | ADC | LDY | LDX | LDA | CPY | CMP | CPX | SBC
    | CLC | SEC | SED

  datatype Mode = Immediate | Implied

  datatype Option<T> = None | Some(value: T)

  /**
   * Outcome of one step: the next state, or a stop at an opcode byte the
   * table has no entry for, with the address it was fetched from and the
   * register state the CPU holds there (PC still at the opcode), so that a
   * caller can halt, skip the byte or substitute an instruction.
   */
  datatype StepResult = Stepped(next: State) | UnimplementedOpcode(opcode: Byte, at: Word, state: State)

  /** The opcode byte of each instruction. */
  function Opcode(op: Operation): Byte
  {
    match op
    case ORA => 0x09
    case AND => 0x29
    case EOR => 0x49
    case ADC => 0x69
    case LDY => 0xA0
    case LDX => 0xA2
    case LDA => 0xA9
    case CPY => 0xC0
    case CMP => 0xC9
    case CPX => 0xE0
    case SBC => 0xE9
    case CLC => 0x18
    case SEC => 0x38
    case SED => 0xF8
  }

  /** The decode table: the instruction an opcode byte selects, if any. */
  function Decode(b: Byte): (r: Option<Operation>)
    ensures r.Some? ==> Opcode(r.value) == b
    ensures r.None? ==> forall op: Operation :: Opcode(op) != b
  {
    if b == 0x09 then Some(ORA)
    else if b == 0x29 then Some(AND)
    else if b == 0x49 then Some(EOR)
    else if b == 0x69 then Some(ADC)
    else if b == 0xA0 then Some(LDY)
    else if b == 0xA2 then Some(LDX)
    else if b == 0xA9 then Some(LDA)
    else if b == 0xC0 then Some(CPY)
    else if b == 0xC9 then Some(CMP)
    else if b == 0xE0 then Some(CPX)
    else if b == 0xE9 then Some(SBC)
    else if b == 0x18 then Some(CLC)
    else if b == 0x38 then Some(SEC)
    else if b == 0xF8 then Some(SED)
    else None
  }

  /** Decoding an instruction's opcode gives that instruction back. */
  lemma DecodeOpcode(op: Operation)
    ensures Decode(Opcode(op)) == Some(op)
  {
  }

  function ModeOf(op: Operation): Mode
  {
    match op
    case CLC | SEC | SED => Implied
    case _ => Immediate
  }

  /** Bytes the instruction occupies: the opcode, plus one operand byte in immediate mode. */
  function Length(op: Operation): (n: nat)
    ensures n == 1 || n == 2
    ensures n == 2 <==> ModeOf(op) == Immediate
  {
    match ModeOf(op)
    case Immediate => 2
    case Implied => 1
  }

  /** N and Z from a result byte; every other flag kept. */
  function WithNZ(f: Flags, value: Byte): Flags
  {
    f.(n := Negative(value), z := value == 0)
  }

  /** The register CMP, CPX or CPY compares against. */
  function CompareRegister(s: State, op: Operation): Byte
    requires op == CMP || op == CPX || op == CPY
  {
    match op
    case CMP => s.a
    case CPX => s.x
    case CPY => s.y
  }

  /** The effect of one instruction with operand m on the registers and flags (PC already advanced). */
  function Execute(s: State, op: Operation, m: Byte): (r: State)
    ensures r.pc == s.pc && r.sp == s.sp
    ensures r.flags.i == s.flags.i && r.flags.b == s.flags.b
  {
    match op
    case ORA => var v := BitOr(s.a, m); s.(a := v, flags := WithNZ(s.flags, v))
    case AND => var v := BitAnd(s.a, m); s.(a := v, flags := WithNZ(s.flags, v))
    case EOR => var v := BitXor(s.a, m); s.(a := v, flags := WithNZ(s.flags, v))
    case LDA => s.(a := m, flags := WithNZ(s.flags, m))
    case LDX => s.(x := m, flags := WithNZ(s.flags, m))
    case LDY => s.(y := m, flags := WithNZ(s.flags, m))
    case ADC =>
      if s.flags.d then
        var d := DecimalAdd(s.a, m, s.flags.c);
        s.(a := d.value, flags := s.flags.(n := false, v := false, z := d.value == 0, c := d.carry))
      else
        var sum := AddWithCarry(s.a, m, s.flags.c);
        s.(a := sum.value, flags := WithNZ(s.flags, sum.value).(v := sum.overflow, c := sum.carry))
    case SBC =>
      if s.flags.d then
        var d := DecimalSubtract(s.a, m, s.flags.c);
        s.(a := d.value, flags := s.flags.(n := false, v := false, z := d.value == 0, c := d.carry))
      else
        var diff := SubtractWithBorrow(s.a, m, s.flags.c);
        s.(a := diff.value, flags := WithNZ(s.flags, diff.value).(v := diff.overflow, c := diff.carry))
    case CMP | CPX | CPY =>
      var cmp := Compare(CompareRegister(s, op), m);
      s.(flags := WithNZ(s.flags, cmp.value).(c := cmp.carry))
    case CLC => s.(flags := s.flags.(c := false))
    case SEC => s.(flags := s.flags.(c := true))
    case SED => s.(flags := s.flags.(d := true))
  }

  /**
   * Reset: A, X and Y cleared, SP = 0xFF, P = 0x20 (only the always-one bit),
   * PC loaded from the reset vector. The state before the reset plays no part.
   */
  function Reset(prior: State, mem: Memory): (r: State)
    ensures r.a == 0 && r.x == 0 && r.y == 0 && r.sp == 0xFF
    ensures StatusByte(r.flags) == 0x20
    ensures !r.flags.n && !r.flags.v && !r.flags.b && !r.flags.d && !r.flags.i && !r.flags.z && !r.flags.c
    ensures r.pc == mem(ResetVector) + 0x100 * mem(ResetVector + 1)
  {
    State(0, 0, 0, ReadWord(mem, ResetVector), 0xFF, FlagsOf(0x20))
  }

  /**
   * One instruction: fetch the opcode at PC, decode it, read the operand
   * byte after it, advance PC past the instruction (wrapping at 64 KB) and
   * execute. An opcode with no table entry stops the step with PC unmoved.
   */
  function Step(s: State, mem: Memory): (r: StepResult)
    ensures r.UnimplementedOpcode? <==> Decode(mem(s.pc)).None?
    ensures r.UnimplementedOpcode? ==> r.opcode == mem(s.pc) && r.at == s.pc && r.state == s
    ensures r.Stepped? ==> r.next.pc == (s.pc + Length(Decode(mem(s.pc)).value)) % 0x1_0000
    ensures r.Stepped? ==> r.next.sp == s.sp && r.next.flags.i == s.flags.i && r.next.flags.b == s.flags.b
  {
    var opcode := mem(s.pc);
    match Decode(opcode)
    case None => UnimplementedOpcode(opcode, s.pc, s)
    case Some(op) =>
      var operand := mem((s.pc + 1) % 0x1_0000);
      Stepped(Execute(s.(pc := (s.pc + Length(op)) % 0x1_0000), op, operand))
  }

  /** A step at a decodable opcode executes that instruction with the following byte as operand and PC moved past it. */
  lemma StepExecutes(s: State, mem: Memory, op: Operation)
    requires mem(s.pc) == Opcode(op)
    ensures Step(s, mem) == Stepped(Execute(s.(pc := (s.pc + Length(op)) % 0x1_0000), op, mem((s.pc + 1) % 0x1_0000)))
  {
    DecodeOpcode(op);
  }

  /** Continues a run that is still going with n more steps; a stopped run stays stopped. */
  function Continue(r: StepResult, n: nat, mem: Memory): StepResult
  {
    match r
    case Stepped(s) => StepN(n, s, mem)
    case UnimplementedOpcode(_, _, _) => r
  }

  /** n steps in sequence, stopping at the first unimplemented opcode. */
  function StepN(n: nat, s: State, mem: Memory): StepResult
  {
    if n == 0 then Stepped(s)
    else
      var r := Step(s, mem);
      match r
      case Stepped(t) => StepN(n - 1, t, mem)
      case UnimplementedOpcode(_, _, _) => r
  }

  /**
   * No modelled instruction touches SP or the I and B flags, so a run keeps
   * them, up to the end or up to a stop. A run that stops names an opcode the
   * table has no entry for, read from the address it reports; the state it
   * reports has PC at that address, and stepping that state stops there
   * again. Zero steps leave the state as it was.
   */
  lemma {:induction false} StepNInvariants(n: nat, s: State, mem: Memory)
    ensures var r := StepN(n, s, mem);
      && (r.Stepped? ==> r.next.sp == s.sp && r.next.flags.i == s.flags.i && r.next.flags.b == s.flags.b)
      && (r.UnimplementedOpcode? ==> mem(r.at) == r.opcode && Decode(r.opcode).None?)
      && (r.UnimplementedOpcode? ==> r.state.pc == r.at && Step(r.state, mem) == r)
      && (r.UnimplementedOpcode? ==> r.state.sp == s.sp && r.state.flags.i == s.flags.i && r.state.flags.b == s.flags.b)
      && (n == 0 ==> r == Stepped(s))
  {
    if n > 0 {
      var r := Step(s, mem);
      if r.Stepped? {
        StepNInvariants(n - 1, r.next, mem);
      }
    }
  }

  /** A run of n + 1 steps is one step, then (if it did not stop) n more. */
  lemma StepNFirst(n: nat, s: State, mem: Memory)
    ensures StepN(n + 1, s, mem) == Continue(Step(s, mem), n, mem)
  {
  }

  /** After a step from s to t, the rest of a run continues from t. */
  lemma StepNAfter(n: nat, s: State, t: State, mem: Memory)
    requires Step(s, mem) == Stepped(t)
    ensures StepN(n + 1, s, mem) == StepN(n, t, mem)
  {
    StepNFirst(n, s, mem);
  }

  /** Running m + n steps is running m steps and then n more. */
  lemma {:induction false} StepNAdd(m: nat, n: nat, s: State, mem: Memory)
    ensures StepN(m + n, s, mem) == Continue(StepN(m, s, mem), n, mem)
  {
    if m == 0 {
      assert StepN(m, s, mem) == Stepped(s);
    } else {
      StepNFirst(m - 1, s, mem);
      StepNFirst(m - 1 + n, s, mem);
      var r := Step(s, mem);
      if r.Stepped? {
        StepNAdd(m - 1, n, r.next, mem);
        assert StepN(m, s, mem) == StepN(m - 1, r.next, mem);
        assert StepN(m + n, s, mem) == StepN(m - 1 + n, r.next, mem);
      } else {
        assert StepN(m, s, mem) == r;
        assert StepN(m + n, s, mem) == r;
      }
    }
  }

  /**
   * A run that reaches state t at an opcode with no table entry stops there:
   * any longer run reports that opcode, its address and t itself, so the
   * registers the earlier steps set are kept.
   */
  lemma StopsAt(m: nat, n: nat, s: State, t: State, mem: Memory)
    requires StepN(m, s, mem) == Stepped(t) && Decode(mem(t.pc)).None?
    ensures StepN(m + 1 + n, s, mem) == UnimplementedOpcode(mem(t.pc), t.pc, t)
  {
    StepNAdd(m, 1 + n, s, mem);
  }
}
