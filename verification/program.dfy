/**
 * Straight-line programs of the modelled instructions: their encoding as
 * bytes, and the theorem that a program laid out in memory runs
 * instruction by instruction, each step executing the next instruction with
 * its own operand.
 */
module Program {
  import opened Bits
  import opened Bus
  import opened Cpu

  /** One instruction as written in a listing: the operation and its operand (ignored in implied mode). */
  datatype Instruction = Instruction(op: Operation, operand: Byte)

  /** The bytes of one instruction: the opcode, then the operand in immediate mode. */
  function EncodeOne(i: Instruction): (bytes: seq<Byte>)
    ensures |bytes| == Length(i.op)
  {
    if ModeOf(i.op) == Immediate then [Opcode(i.op), i.operand] else [Opcode(i.op)]
  }

  /** The bytes of a program: its instructions' bytes back to back. */
  function Encode(prog: seq<Instruction>): (bytes: seq<Byte>)
    ensures |prog| <= |bytes| <= 2 * |prog|
  {
    if |prog| == 0 then [] else EncodeOne(prog[0]) + Encode(prog[1..])
  }

  /** mem holds `bytes` from address `start` on. */
  ghost predicate BytesAt(mem: Memory, start: Word, bytes: seq<Byte>)
  {
    start + |bytes| <= 0x1_0000 && forall a: Word :: start <= a < start + |bytes| ==> mem(a) == bytes[a - start]
  }

  /** mem holds the program from address `start` on: each opcode, and each immediate operand after it. */
  ghost predicate ProgramAt(mem: Memory, start: Word, prog: seq<Instruction>)
    decreases |prog|
  {
    |prog| == 0 ||
    (var len := Length(prog[0].op);
     && start + len < 0x1_0000
     && mem(start) == Opcode(prog[0].op)
     && (len == 2 ==> mem(start + 1) == prog[0].operand)
     && ProgramAt(mem, start + len, prog[1..]))
  }

  /** One instruction's effect: PC moved past it, then the operation with the listing's operand. */
  function Advance(s: State, i: Instruction): State
  {
    Execute(s.(pc := (s.pc + Length(i.op)) % 0x1_0000), i.op, i.operand)
  }

  /** Short of the top of memory, an instruction moves PC on by its length. */
  lemma AdvancePc(s: State, i: Instruction)
    requires s.pc + Length(i.op) < 0x1_0000
    ensures Advance(s, i).pc == s.pc + Length(i.op)
  {
  }

  /** The state after running the whole program from s, one instruction after another. */
  function Final(prog: seq<Instruction>, s: State): State
  {
    if |prog| == 0 then s else Final(prog[1..], Advance(s, prog[0]))
  }

  /** Running one more instruction of a program extends the run by that instruction. */
  lemma {:induction false} FinalNext(prog: seq<Instruction>, n: nat, s: State)
    requires n < |prog|
    ensures Final(prog[..0], s) == s
    ensures Final(prog[..n + 1], s) == Advance(Final(prog[..n], s), prog[n])
    decreases n
  {
    assert prog[..0] == [];
    if n > 0 {
      FinalNext(prog[1..], n - 1, Advance(s, prog[0]));
      assert prog[..n + 1][1..] == prog[1..][..n];
      assert prog[..n][1..] == prog[1..][..n - 1];
    } else {
      assert prog[..1][1..] == [];
    }
  }

  /** Loading a program's bytes lays the program out instruction by instruction. */
  lemma {:induction false} EncodedProgram(mem: Memory, start: Word, prog: seq<Instruction>)
    requires BytesAt(mem, start, Encode(prog))
    requires start + |Encode(prog)| < 0x1_0000
    ensures ProgramAt(mem, start, prog)
    decreases |prog|
  {
    if |prog| > 0 {
      var first := EncodeOne(prog[0]);
      var rest := Encode(prog[1..]);
      var len := Length(prog[0].op);
      assert Encode(prog) == first + rest;
      assert mem(start) == Opcode(prog[0].op) by {
        assert Encode(prog)[0] == first[0];
      }
      if len == 2 {
        assert mem(start + 1) == prog[0].operand by {
          assert Encode(prog)[1] == first[1];
        }
      }
      assert BytesAt(mem, start + len, rest) by {
        forall a: Word | start + len <= a < start + len + |rest|
          ensures mem(a) == rest[a - (start + len)]
        {
          assert Encode(prog)[a - start] == rest[a - (start + len)];
        }
      }
      EncodedProgram(mem, start + len, prog[1..]);
    }
  }

  /** An implied-mode instruction ignores the byte after its opcode. */
  lemma ImpliedIgnoresOperand(s: State, op: Operation, x: Byte, y: Byte)
    requires ModeOf(op) == Implied
    ensures Execute(s, op, x) == Execute(s, op, y)
  {
  }

  /** A step at an instruction's opcode, with its operand after it in immediate mode, executes exactly that instruction. */
  lemma StepInstruction(s: State, mem: Memory, i: Instruction)
    requires mem(s.pc) == Opcode(i.op)
    requires ModeOf(i.op) == Immediate ==> mem((s.pc + 1) % 0x1_0000) == i.operand
    ensures Step(s, mem) == Stepped(Advance(s, i))
  {
    var t := s.(pc := (s.pc + Length(i.op)) % 0x1_0000);
    StepExecutes(s, mem, i.op);
    if ModeOf(i.op) == Implied {
      ImpliedIgnoresOperand(t, i.op, mem((s.pc + 1) % 0x1_0000), i.operand);
    }
  }

  /** A step at the first instruction of a laid-out program executes exactly that instruction. */
  lemma StepFirst(s: State, mem: Memory, prog: seq<Instruction>)
    requires |prog| > 0 && ProgramAt(mem, s.pc, prog)
    ensures Step(s, mem) == Stepped(Advance(s, prog[0]))
  {
    StepInstruction(s, mem, prog[0]);
  }

  /** After its first instruction, the rest of a laid-out program starts at the new PC. */
  lemma ProgramRest(s: State, mem: Memory, prog: seq<Instruction>)
    requires |prog| > 0 && ProgramAt(mem, s.pc, prog)
    ensures ProgramAt(mem, Advance(s, prog[0]).pc, prog[1..])
  {
    AdvancePc(s, prog[0]);
  }

  /** Running a prefix of n > 0 instructions is the first instruction, then the rest of the prefix. */
  lemma FinalFirst(prog: seq<Instruction>, n: nat, s: State)
    requires 0 < n <= |prog|
    ensures Final(prog[..n], s) == Final(prog[1..][..n - 1], Advance(s, prog[0]))
  {
    assert prog[..n][1..] == prog[1..][..n - 1];
  }

  /** No steps run no instructions. */
  lemma RunsEmpty(s: State, mem: Memory, prog: seq<Instruction>)
    ensures StepN(0, s, mem) == Stepped(Final(prog[..0], s))
  {
    assert prog[..0] == [];
  }

  /** If the rest of the program runs as written from the state after its first instruction, the whole program does from s. */
  lemma RunsFromNext(s: State, mem: Memory, prog: seq<Instruction>, n: nat)
    requires 0 < n <= |prog| && ProgramAt(mem, s.pc, prog)
    requires StepN(n - 1, Advance(s, prog[0]), mem) == Stepped(Final(prog[1..][..n - 1], Advance(s, prog[0])))
    ensures StepN(n, s, mem) == Stepped(Final(prog[..n], s))
  {
    var t := Advance(s, prog[0]);
    assert StepN(n, s, mem) == StepN(n - 1, t, mem) by {
      StepFirst(s, mem, prog);
      StepNAfter(n - 1, s, t, mem);
    }
    FinalFirst(prog, n, s);
  }

  /**
   * A program laid out from PC runs as written: n steps (at most its length)
   * execute its first n instructions in order, and none stops on an
   * unimplemented opcode.
   */
  lemma {:induction false} RunsAsWritten(s: State, mem: Memory, prog: seq<Instruction>, n: nat)
    requires ProgramAt(mem, s.pc, prog)
    requires n <= |prog|
    ensures StepN(n, s, mem) == Stepped(Final(prog[..n], s))
    decreases n
  {
    if n == 0 {
      RunsEmpty(s, mem, prog);
    } else {
      var t := Advance(s, prog[0]);
      var rest := prog[1..];
      assert StepN(n - 1, t, mem) == Stepped(Final(rest[..n - 1], t)) by {
        ProgramRest(s, mem, prog);
        RunsAsWritten(t, mem, rest, n - 1);
      }
      RunsFromNext(s, mem, prog, n);
    }
  }
}
