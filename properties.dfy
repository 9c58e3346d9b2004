/**
 * Properties of the LS-8 reference semantics that relate several instructions or a
 * whole run, and worked runs of small programs.
 */
module LS8Properties {
  import opened LS8Spec
  import Loader

  /** A fresh machine with `program` stored from address 0. */
  function Boot(program: seq<nat>): (m: Machine)
    requires |program| <= RamSize
    ensures Valid(m)
    ensures forall k :: 0 <= k < |program| ==> m.ram[k] == program[k]
    ensures forall k :: |program| <= k < RamSize ==> m.ram[k] == 0
    ensures m.pc == 0 && m.running && m.output == [] && m.reg == Init().reg
  {
    Init().(ram := Loader.Image(Init().ram, program))
  }

  /**
   * PUSH r followed by POP r gives back every register, the stack pointer included,
   * and moves pc past both instructions; the only trace left is the pushed value in
   * the memory cell just below the original stack pointer.
   */
  lemma PushThenPop(m: Machine, r: int)
    requires Valid(m) && InReg(r)
    requires m.pc + 3 < RamSize
    requires m.ram[m.pc] == Encode(PUSH) && m.ram[m.pc + 1] == r
    requires m.ram[m.pc + 2] == Encode(POP) && m.ram[m.pc + 3] == r
    requires InRam(m.reg[SP] - 1)
    // the pushed value must not overwrite the POP instruction itself
    requires m.reg[SP] - 1 != m.pc + 2 && m.reg[SP] - 1 != m.pc + 3
    ensures Step(m).Ok? && Step(Step(m).m).Ok?
    ensures
      var (m2, sp) := (Step(Step(m).m).m, m.reg[SP] - 1);
      m2.reg == m.reg && m2.pc == m.pc + 4 &&
      m2.ram == m.ram[sp := if r == SP then sp else m.reg[r]] &&
      m2.running == m.running && m2.output == m.output
  {
    var m1 := Step(m).m;
    assert Step(m) == Ok(Push(m).m);
    assert m1.pc == m.pc + 2 && m1.ram[m1.pc] == Encode(POP) && m1.ram[m1.pc + 1] == r;
    assert Step(m1) == Ok(Pop(m1).m);
    var m2 := Step(m1).m;
    assert m2.reg == m.reg by {
      forall j | 0 <= j < RegCount ensures m2.reg[j] == m.reg[j] {
      }
    }
  }

  /** LDI r, v followed by PRN r prints v. */
  lemma LdiThenPrn(m: Machine, r: int, v: int)
    requires Valid(m) && InReg(r)
    requires m.pc + 4 < RamSize
    requires m.ram[m.pc] == Encode(LDI) && m.ram[m.pc + 1] == r && m.ram[m.pc + 2] == v
    requires m.ram[m.pc + 3] == Encode(PRN) && m.ram[m.pc + 4] == r
    ensures Step(m).Ok? && Step(Step(m).m).Ok?
    ensures Step(Step(m).m).m.output == m.output + [v]
    ensures Step(Step(m).m).m.pc == m.pc + 5
  {
    var m1 := Step(m).m;
    assert Step(m) == Ok(Ldi(m).m);
    assert m1.pc == m.pc + 3 && m1.ram[m1.pc] == Encode(PRN);
    assert Step(m1) == Ok(Prn(m1).m);
  }

  predicate NonNegativeSeq(s: seq<int>)
  {
    forall k :: 0 <= k < |s| ==> s[k] >= 0
  }

  /** Every memory cell and register holds a non-negative value. */
  predicate NonNegative(m: Machine)
  {
    NonNegativeSeq(m.ram) && NonNegativeSeq(m.reg)
  }

  /** A handler that completes on a non-negative machine keeps it non-negative. */
  lemma ExecuteKeepsNonNegative(op: Opcode, m: Machine)
    requires Valid(m) && NonNegative(m)
    ensures Execute(op, m).Ok? ==> NonNegative(Execute(op, m).m)
    ensures Execute(op, m).Ok? ==> NonNegativeSeq(Execute(op, m).m.output[|m.output|..])
  {
    match op
    case MUL =>
      if Mul(m).Ok? {
        var (a, b) := (m.ram[m.pc + 1], m.ram[m.pc + 2]);
        assert Mul(m).m.reg[a] == m.reg[a] * m.reg[b];
      }
    case _ =>
  }

  /**
   * An instruction that completes keeps every value non-negative, so no instruction
   * that completes ever uses a negative index; PUSH with the stack pointer at 0 is
   * the one instruction that reaches for address -1, and it fails.
   */
  lemma StepKeepsNonNegative(m: Machine)
    requires Valid(m) && NonNegative(m)
    ensures Step(m).Ok? ==> NonNegative(Step(m).m)
    ensures Step(m).Ok? ==> NonNegativeSeq(Step(m).m.output[|m.output|..])
  {
    if m.pc < RamSize && Decode(m.ram[m.pc]).Some? {
      ExecuteKeepsNonNegative(Decode(m.ram[m.pc]).value, m);
    }
  }

  /** Output printed in two non-negative stretches is non-negative as a whole. */
  lemma NonNegativeOutput(o0: seq<int>, o1: seq<int>, o2: seq<int>)
    requires o0 <= o1 <= o2
    requires NonNegativeSeq(o1[|o0|..]) && NonNegativeSeq(o2[|o1|..])
    ensures NonNegativeSeq(o2[|o0|..])
  {
    assert o2[|o0|..] == o1[|o0|..] + o2[|o1|..];
  }

  /** A run from a non-negative machine only ever prints non-negative values. */
  lemma {:induction false} RunPrintsNonNegative(m: Machine)
    requires Valid(m) && NonNegative(m)
    ensures NonNegativeSeq(Run(m).m.output[|m.output|..])
    ensures Run(m).Ok? ==> NonNegative(Run(m).m)
    decreases RunMeasure(m)
  {
    if m.running {
      StepKeepsNonNegative(m);
      if Step(m).Ok? {
        var m' := Step(m).m;
        RunPrintsNonNegative(m');
        NonNegativeOutput(m.output, m'.output, Run(m).m.output);
      }
    }
  }

  /** A run from pc = 0 fetches at most 128 opcodes before it halts or fails. */
  lemma FetchBound(m: Machine)
    requires Valid(m) && m.pc == 0
    ensures Fetches(m) <= 128
  {
  }

  /** An empty memory holds opcode 0, which is not in the branch table. */
  lemma EmptyProgramFails()
    ensures Run(Init()) == Failed(Init(), UnknownInstruction(0, 0))
  {
    assert Decode(Init().ram[0]).None?;
  }

  /** LDI r, v on a running machine sets r to v and the run goes on at the next instruction. */
  lemma LdiRun(m: Machine, r: int, v: int)
    requires Valid(m) && m.running && m.pc + 2 < RamSize && InReg(r)
    requires m.ram[m.pc] == Encode(LDI) && m.ram[m.pc + 1] == r && m.ram[m.pc + 2] == v
    ensures Run(m) == Run(m.(reg := m.reg[r := v], pc := m.pc + 3))
  {
    RunThrough(m, LDI);
  }

  /** MUL a, b on a running machine multiplies a by b and the run goes on at the next instruction. */
  lemma MulRun(m: Machine, a: int, b: int)
    requires Valid(m) && m.running && m.pc + 2 < RamSize && InReg(a) && InReg(b)
    requires m.ram[m.pc] == Encode(MUL) && m.ram[m.pc + 1] == a && m.ram[m.pc + 2] == b
    ensures Run(m) == Run(m.(reg := m.reg[a := m.reg[a] * m.reg[b]], pc := m.pc + 3))
  {
    RunThrough(m, MUL);
  }

  /** PRN r on a running machine prints r and the run goes on at the next instruction. */
  lemma PrnRun(m: Machine, r: int)
    requires Valid(m) && m.running && m.pc + 1 < RamSize && InReg(r)
    requires m.ram[m.pc] == Encode(PRN) && m.ram[m.pc + 1] == r
    ensures Run(m) == Run(m.(output := m.output + [m.reg[r]], pc := m.pc + 2))
  {
    RunThrough(m, PRN);
  }

  /** HLT on a running machine ends the run normally, with everything else as it was. */
  lemma HltRun(m: Machine)
    requires Valid(m) && m.running && m.pc < RamSize && m.ram[m.pc] == Encode(HLT)
    ensures Run(m) == Ok(m.(running := false))
  {
    RunThrough(m, HLT);
  }

  /** The example print program, LDI R0,v; PRN R0; HLT, with the value as a parameter. */
  function PrintCode(v: nat): (p: seq<nat>)
    ensures |p| == 6
  {
    [0x82, 0x00, v, 0x47, 0x00, 0x01]
  }

  /** The print program booted from address 0 prints v and halts with pc at the HLT. */
  lemma PrintProgram(v: nat)
    ensures
      var r := Run(Boot(PrintCode(v)));
      r.Ok? && r.m.output == [v] && !r.m.running && r.m.pc == 5
  {
    var p := PrintCode(v);
    var m0 := Boot(p);
    assert m0.ram[0] == 0x82 && m0.ram[1] == 0 && m0.ram[2] == v
      by { assert p[0] == 0x82 && p[1] == 0 && p[2] == v; }
    assert m0.ram[3] == 0x47 && m0.ram[4] == 0 && m0.ram[5] == 1
      by { assert p[3] == 0x47 && p[4] == 0 && p[5] == 1; }
    LdiRun(m0, 0, v);
    var m1 := m0.(reg := m0.reg[0 := v], pc := 3);
    PrnRun(m1, 0);
    HltRun(m1.(output := [v], pc := 5));
  }

  /** LDI R0,8; PRN R0; HLT prints 8 and halts with pc at the HLT. */
  lemma PrintEight()
    ensures
      var r := Run(Boot([0x82, 0x00, 0x08, 0x47, 0x00, 0x01]));
      r.Ok? && r.m.output == [8] && !r.m.running && r.m.pc == 5
  {
    PrintProgram(8);
    assert PrintCode(8) == [0x82, 0x00, 0x08, 0x47, 0x00, 0x01];
  }

  /**
   * MUL R0,R1; PRN R0; HLT at pc prints the product of R0 and R1 and halts at the
   * HLT.
   */
  lemma MulPrintHalt(m: Machine)
    requires Valid(m) && m.running && m.pc + 5 < RamSize
    requires m.ram[m.pc] == Encode(MUL) && m.ram[m.pc + 1] == 0 && m.ram[m.pc + 2] == 1
    requires m.ram[m.pc + 3] == Encode(PRN) && m.ram[m.pc + 4] == 0 && m.ram[m.pc + 5] == Encode(HLT)
    ensures
      var r := Run(m);
      r.Ok? && r.m.output == m.output + [m.reg[0] * m.reg[1]] && !r.m.running && r.m.pc == m.pc + 5
  {
    MulRun(m, 0, 1);
    var m1 := m.(reg := m.reg[0 := m.reg[0] * m.reg[1]], pc := m.pc + 3);
    PrnRun(m1, 0);
    HltRun(m1.(output := m.output + [m.reg[0] * m.reg[1]], pc := m.pc + 5));
  }

  /**
   * LDI R0,a; LDI R1,b; MUL R0,R1; PRN R0; HLT at pc prints a times b and halts at
   * the HLT.
   */
  lemma PrintProduct(m: Machine, a: int, b: int)
    requires Valid(m) && m.running && m.pc + 11 < RamSize
    requires m.ram[m.pc] == Encode(LDI) && m.ram[m.pc + 1] == 0 && m.ram[m.pc + 2] == a
    requires m.ram[m.pc + 3] == Encode(LDI) && m.ram[m.pc + 4] == 1 && m.ram[m.pc + 5] == b
    requires m.ram[m.pc + 6] == Encode(MUL) && m.ram[m.pc + 7] == 0 && m.ram[m.pc + 8] == 1
    requires m.ram[m.pc + 9] == Encode(PRN) && m.ram[m.pc + 10] == 0 && m.ram[m.pc + 11] == Encode(HLT)
    ensures
      var r := Run(m);
      r.Ok? && r.m.output == m.output + [a * b] && !r.m.running && r.m.pc == m.pc + 11
  {
    LdiRun(m, 0, a);
    var m1 := m.(reg := m.reg[0 := a], pc := m.pc + 3);
    LdiRun(m1, 1, b);
    var m2 := m1.(reg := m1.reg[1 := b], pc := m1.pc + 3);
    MulPrintHalt(m2);
  }

  /** The example multiplication program, with the two factors as parameters. */
  function ProductCode(a: nat, b: nat): (p: seq<nat>)
    ensures |p| == 12
  {
    [0x82, 0x00, a, 0x82, 0x01, b, 0xA2, 0x00, 0x01, 0x47, 0x00, 0x01]
  }

  /**
   * The example multiplication program, LDI R0,a; LDI R1,b; MUL R0,R1; PRN R0; HLT,
   * booted from address 0, prints a times b and halts with pc at the HLT.
   */
  lemma ProductProgram(a: nat, b: nat)
    ensures
      var r := Run(Boot(ProductCode(a, b)));
      r.Ok? && r.m.output == [a * b] && !r.m.running && r.m.pc == 11
  {
    var p := ProductCode(a, b);
    var m := Boot(p);
    assert m.ram[0] == 0x82 && m.ram[1] == 0 && m.ram[2] == a && m.ram[3] == 0x82 && m.ram[4] == 1 && m.ram[5] == b
      by { assert p[0] == 0x82 && p[1] == 0 && p[2] == a && p[3] == 0x82 && p[4] == 1 && p[5] == b; }
    assert m.ram[6] == 0xA2 && m.ram[7] == 0 && m.ram[8] == 1 && m.ram[9] == 0x47 && m.ram[10] == 0 && m.ram[11] == 1
      by { assert p[6] == 0xA2 && p[7] == 0 && p[8] == 1 && p[9] == 0x47 && p[10] == 0 && p[11] == 1; }
    PrintProduct(m, a, b);
  }

  /** LDI R0,9; LDI R1,10; MUL R0,R1; PRN R0; HLT prints 90. */
  lemma PrintNinety()
    ensures
      var r := Run(Boot([0x82, 0x00, 0x09, 0x82, 0x01, 0x0A, 0xA2, 0x00, 0x01, 0x47, 0x00, 0x01]));
      r.Ok? && r.m.output == [90] && !r.m.running && r.m.pc == 11
  {
    ProductProgram(9, 10);
    assert ProductCode(9, 10) == [0x82, 0x00, 0x09, 0x82, 0x01, 0x0A, 0xA2, 0x00, 0x01, 0x47, 0x00, 0x01];
  }
}
