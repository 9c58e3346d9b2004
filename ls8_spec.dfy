/**
 * Reference semantics of the LS-8 machine: its state as a value and the effect of
 * every instruction, of one fetch/dispatch step and of a whole run as functions.
 * The CPU class in module LS8 is proved to compute exactly these functions.
 *
 * Register and memory cells hold unbounded integers: the machine being modelled
 * never wraps a value to 8 bits.
 */
module LS8Spec {
  import opened Wrappers

  const RamSize: nat := 256
  const RegCount: nat := 8
  /** R7 is the stack pointer. */
  const SP: nat := 7
  /** Initial value of the stack pointer. */
  const StackStart: int := 0xF4

  /** The six instructions of the branch table. */
  datatype Opcode = LDI | PRN | HLT | MUL | PUSH | POP

  /** The opcode byte of each instruction. */
  function Encode(op: Opcode): int
  {
    match op
    case LDI => 0x82
    case PRN => 0x47
    case HLT => 0x01
    case MUL => 0xA2
    case PUSH => 0x45
    case POP => 0x46
  }

  /** Looks an opcode byte up in the branch table. */
  function Decode(b: int): (r: Option<Opcode>)
    ensures forall op :: r == Some(op) <==> Encode(op) == b
  {
    if b == 0x82 then Some(LDI)
    else if b == 0x47 then Some(PRN)
    else if b == 0x01 then Some(HLT)
    else if b == 0xA2 then Some(MUL)
    else if b == 0x45 then Some(PUSH)
    else if b == 0x46 then Some(POP)
    else None
  }

  /** The whole observable state; `output` is the sequence of printed values. */
  datatype Machine = Machine(ram: seq<int>, reg: seq<int>, pc: nat, running: bool, output: seq<int>)

  predicate Valid(m: Machine)
  {
    |m.ram| == RamSize && |m.reg| == RegCount
  }

  predicate InRam(a: int) { 0 <= a < RamSize }

  predicate InReg(i: int) { 0 <= i < RegCount }

  /** Why an instruction handler stopped: an index outside a list, or a bad ALU operation. */
  datatype HandlerError = IndexOutOfRange | UnsupportedAluOperation

  /** Why a run stopped abnormally. */
  datatype RunError =
    | FetchOutOfRange(pc: int)
    | UnknownInstruction(opcode: int, pc: int)
    | HandlerFailed(opcode: int, pc: int, cause: HandlerError)

  /**
   * The state an operation leaves behind, and whether it completed. A failed
   * operation keeps whatever it changed before the failure.
   */
  datatype Outcome<+E> = Ok(m: Machine) | Failed(m: Machine, error: E)
  {
    function ToStatus(): Status<E>
    {
      if Ok? then Pass else Fail(error)
    }
  }

  /** `b` equals `a` except possibly at index `i`. */
  predicate SameExcept(a: seq<int>, b: seq<int>, i: int)
  {
    |a| == |b| && forall j :: 0 <= j < |a| && j != i ==> a[j] == b[j]
  }

  /** A freshly constructed machine. */
  function Init(): (m: Machine)
    ensures Valid(m)
    ensures forall a :: 0 <= a < RamSize ==> m.ram[a] == 0
    ensures forall i :: 0 <= i < SP ==> m.reg[i] == 0
    ensures m.reg[SP] == 0xF4
    ensures m.pc == 0 && m.running && m.output == []
  {
    Machine(seq(RamSize, _ => 0), seq(RegCount, i => if i == SP then StackStart else 0), 0, true, [])
  }

  /** LDI: load the immediate at pc+2 into the register named at pc+1. */
  function Ldi(m: Machine): (r: Outcome<HandlerError>)
    requires Valid(m)
    ensures Valid(r.m)
    ensures r.Ok? <==> m.pc + 2 < RamSize && InReg(m.ram[m.pc + 1])
    ensures r.Ok? ==>
      var i := m.ram[m.pc + 1];
      r.m.reg[i] == m.ram[m.pc + 2] && SameExcept(m.reg, r.m.reg, i) &&
      r.m.ram == m.ram && r.m.pc == m.pc + 3 &&
      r.m.running == m.running && r.m.output == m.output
    ensures r.Failed? ==> r == Failed(m, IndexOutOfRange)
  {
    if m.pc + 2 >= RamSize then Failed(m, IndexOutOfRange)
    else
      var index := m.ram[m.pc + 1];
      var value := m.ram[m.pc + 2];
      if !InReg(index) then Failed(m, IndexOutOfRange)
      else Ok(m.(reg := m.reg[index := value], pc := m.pc + 3))
  }

  /** PRN: print the register named at pc+1. */
  function Prn(m: Machine): (r: Outcome<HandlerError>)
    requires Valid(m)
    ensures Valid(r.m)
    ensures r.Ok? <==> m.pc + 1 < RamSize && InReg(m.ram[m.pc + 1])
    ensures r.Ok? ==>
      r.m.output == m.output + [m.reg[m.ram[m.pc + 1]]] &&
      r.m.reg == m.reg && r.m.ram == m.ram && r.m.pc == m.pc + 2 && r.m.running == m.running
    ensures r.Failed? ==> r == Failed(m, IndexOutOfRange)
  {
    if m.pc + 1 >= RamSize then Failed(m, IndexOutOfRange)
    else
      var index := m.ram[m.pc + 1];
      if !InReg(index) then Failed(m, IndexOutOfRange)
      else Ok(m.(output := m.output + [m.reg[index]], pc := m.pc + 2))
  }

  /** HLT: stop the machine. */
  function Hlt(m: Machine): (r: Outcome<HandlerError>)
    requires Valid(m)
    ensures r.Ok? && !r.m.running
    ensures r.m.pc == m.pc && r.m.reg == m.reg && r.m.ram == m.ram && r.m.output == m.output
  {
    Ok(m.(running := false))
  }

  /** The ALU: `reg[a] := reg[a] op reg[b]` for "ADD" and "MUL"; it also advances pc by 3. */
  function Alu(m: Machine, op: string, a: int, b: int): (r: Outcome<HandlerError>)
    requires Valid(m)
    ensures Valid(r.m)
    ensures op != "ADD" && op != "MUL" ==> r == Failed(m, UnsupportedAluOperation)
    ensures (op == "ADD" || op == "MUL") ==>
      (r.Ok? <==> InReg(a) && InReg(b)) &&
      (r.Failed? ==> r == Failed(m, IndexOutOfRange))
    ensures r.Ok? ==>
      r.m.reg[a] == (if op == "ADD" then m.reg[a] + m.reg[b] else m.reg[a] * m.reg[b]) &&
      SameExcept(m.reg, r.m.reg, a) &&
      r.m.ram == m.ram && r.m.pc == m.pc + 3 &&
      r.m.running == m.running && r.m.output == m.output
  {
    if op == "ADD" then
      if !InReg(a) || !InReg(b) then Failed(m, IndexOutOfRange)
      else Ok(m.(reg := m.reg[a := m.reg[a] + m.reg[b]], pc := m.pc + 3))
    else if op == "MUL" then
      if !InReg(a) || !InReg(b) then Failed(m, IndexOutOfRange)
      else Ok(m.(reg := m.reg[a := m.reg[a] * m.reg[b]], pc := m.pc + 3))
    else Failed(m, UnsupportedAluOperation)
  }

  /** MUL: multiply the registers named at pc+1 and pc+2 through the ALU. */
  function Mul(m: Machine): (r: Outcome<HandlerError>)
    requires Valid(m)
    ensures Valid(r.m)
    ensures r.Ok? <==> m.pc + 2 < RamSize && InReg(m.ram[m.pc + 1]) && InReg(m.ram[m.pc + 2])
    ensures r.Ok? ==>
      var (a, b) := (m.ram[m.pc + 1], m.ram[m.pc + 2]);
      r.m.reg[a] == m.reg[a] * m.reg[b] && SameExcept(m.reg, r.m.reg, a) &&
      r.m.ram == m.ram && r.m.pc == m.pc + 3 &&
      r.m.running == m.running && r.m.output == m.output
    ensures r.Failed? ==> r == Failed(m, IndexOutOfRange)
  {
    if m.pc + 2 >= RamSize then Failed(m, IndexOutOfRange)
    else Alu(m, "MUL", m.ram[m.pc + 1], m.ram[m.pc + 2])
  }

  /**
   * PUSH: decrement the stack pointer, then store the register named at pc+1 at the
   * new top of the stack. The decrement happens first, so it survives a later fault.
   */
  function Push(m: Machine): (r: Outcome<HandlerError>)
    requires Valid(m)
    ensures Valid(r.m)
    ensures r.Ok? <==> m.pc + 1 < RamSize && InReg(m.ram[m.pc + 1]) && InRam(m.reg[SP] - 1)
    ensures r.Ok? ==>
      var (i, sp) := (m.ram[m.pc + 1], m.reg[SP] - 1);
      r.m.reg == m.reg[SP := sp] &&
      r.m.ram == m.ram[sp := if i == SP then sp else m.reg[i]] &&
      r.m.pc == m.pc + 2 && r.m.running == m.running && r.m.output == m.output
    ensures r.Failed? ==> r == Failed(m.(reg := m.reg[SP := m.reg[SP] - 1]), IndexOutOfRange)
  {
    var m1 := m.(reg := m.reg[SP := m.reg[SP] - 1]);
    if m.pc + 1 >= RamSize then Failed(m1, IndexOutOfRange)
    else
      var index := m.ram[m.pc + 1];
      if !InReg(index) then Failed(m1, IndexOutOfRange)
      else
        var value := m1.reg[index];
        var sp := m1.reg[SP];
        if !InRam(sp) then Failed(m1, IndexOutOfRange)
        else Ok(m1.(ram := m1.ram[sp := value], pc := m.pc + 2))
  }

  /**
   * POP: load the top of the stack into the register named at pc+1, then increment
   * the stack pointer.
   */
  function Pop(m: Machine): (r: Outcome<HandlerError>)
    requires Valid(m)
    ensures Valid(r.m)
    ensures r.Ok? <==> m.pc + 1 < RamSize && InReg(m.ram[m.pc + 1]) && InRam(m.reg[SP])
    ensures r.Ok? ==>
      var (i, v) := (m.ram[m.pc + 1], m.ram[m.reg[SP]]);
      (i == SP ==> r.m.reg[SP] == v + 1) &&
      (i != SP ==> r.m.reg[i] == v && r.m.reg[SP] == m.reg[SP] + 1) &&
      (forall j :: 0 <= j < RegCount && j != i && j != SP ==> r.m.reg[j] == m.reg[j]) &&
      r.m.ram == m.ram && r.m.pc == m.pc + 2 &&
      r.m.running == m.running && r.m.output == m.output
    ensures r.Failed? ==> r == Failed(m, IndexOutOfRange)
  {
    if m.pc + 1 >= RamSize then Failed(m, IndexOutOfRange)
    else
      var index := m.ram[m.pc + 1];
      var sp := m.reg[SP];
      if !InRam(sp) || !InReg(index) then Failed(m, IndexOutOfRange)
      else
        var reg1 := m.reg[index := m.ram[sp]];
        Ok(m.(reg := reg1[SP := reg1[SP] + 1], pc := m.pc + 2))
  }

  /** The handler the branch table holds for `op`. */
  function Execute(op: Opcode, m: Machine): (r: Outcome<HandlerError>)
    requires Valid(m)
    ensures Valid(r.m)
    ensures op == HLT ==> r == Ok(m.(running := false))
    ensures op != HLT && r.Ok? ==> m.pc + 2 <= r.m.pc <= RamSize && r.m.running == m.running
    ensures r.Ok? ==> m.output <= r.m.output
    ensures r.Failed? ==> r.error == IndexOutOfRange
    ensures r.Failed? ==> r.m == if op == PUSH then m.(reg := m.reg[SP := m.reg[SP] - 1]) else m
  {
    match op
    case LDI => Ldi(m)
    case PRN => Prn(m)
    case HLT => Hlt(m)
    case MUL => Mul(m)
    case PUSH => Push(m)
    case POP => Pop(m)
  }

  /**
   * One iteration of the run loop: fetch the opcode at pc, look it up and call its
   * handler. Only HLT clears `running`; every other handler that completes moves pc
   * forward by at least 2 and never past the end of memory.
   */
  function Step(m: Machine): (r: Outcome<RunError>)
    requires Valid(m)
    ensures Valid(r.m)
    ensures r == Failed(m, FetchOutOfRange(m.pc)) <==> m.pc >= RamSize
    ensures m.pc < RamSize ==>
      (r == Failed(m, UnknownInstruction(m.ram[m.pc], m.pc)) <==> Decode(m.ram[m.pc]).None?)
    ensures r.Ok? ==> m.pc < RamSize && r.m.pc <= RamSize
    ensures r.Ok? && r.m.running ==> r.m.pc >= m.pc + 2
    ensures r.Ok? && !r.m.running && m.running ==>
      m.ram[m.pc] == Encode(HLT) && r.m.pc == m.pc && r.m.ram == m.ram
    ensures r.m.running == m.running || (r.Ok? && !r.m.running)
    ensures m.output <= r.m.output
    ensures m.pc < RamSize && Decode(m.ram[m.pc]).Some? ==>
      var e := Execute(Decode(m.ram[m.pc]).value, m);
      e.Failed? ==> r == Failed(e.m, HandlerFailed(m.ram[m.pc], m.pc, e.error))
  {
    if m.pc >= RamSize then Failed(m, FetchOutOfRange(m.pc))
    else
      var ir := m.ram[m.pc];
      match Decode(ir)
      case None => Failed(m, UnknownInstruction(ir, m.pc))
      case Some(op) =>
        match Execute(op, m)
        case Ok(m') => Ok(m')
        case Failed(m', e) => Failed(m', HandlerFailed(ir, m.pc, e))
  }

  /** Measure that every iteration of the run loop decreases. */
  function RunMeasure(m: Machine): nat
  {
    if m.running && m.pc <= RamSize then RamSize + 1 - m.pc else 0
  }

  /**
   * The run loop: step while `running`. It ends normally exactly when the machine is
   * halted, and the halting instruction was a HLT at the final pc.
   */
  function Run(m: Machine): (r: Outcome<RunError>)
    requires Valid(m)
    ensures Valid(r.m)
    ensures r.Ok? <==> !r.m.running
    ensures !m.running ==> r == Ok(m)
    ensures r.Ok? && m.running ==> r.m.pc < RamSize && r.m.ram[r.m.pc] == Encode(HLT)
    ensures m.output <= r.m.output
    decreases RunMeasure(m)
  {
    if !m.running then Ok(m)
    else
      match Step(m)
      case Failed(m', e) => Failed(m', e)
      case Ok(m') => Run(m')
  }

  /**
   * A running machine whose next instruction completes goes on with the run from
   * the state that instruction leaves.
   */
  lemma RunThrough(m: Machine, op: Opcode)
    requires Valid(m) && m.running && m.pc < RamSize && Decode(m.ram[m.pc]) == Some(op)
    requires Execute(op, m).Ok?
    ensures Step(m) == Ok(Execute(op, m).m)
    ensures Run(m) == Run(Execute(op, m).m)
  {
  }

  /** A step that fails on a running machine ends the run with that step's error and state. */
  lemma RunStopsAtFailure(m: Machine)
    requires Valid(m) && m.running && Step(m).Failed?
    ensures Run(m) == Step(m)
  {
  }

  /** A running machine whose pc is past the end of memory fails to fetch, and changes nothing. */
  lemma RunFetchFails(m: Machine)
    requires Valid(m) && m.running && m.pc >= RamSize
    ensures Run(m) == Failed(m, FetchOutOfRange(m.pc))
  {
    RunStopsAtFailure(m);
  }

  /** An opcode missing from the branch table ends the run, changing nothing. */
  lemma RunUnknownFails(m: Machine)
    requires Valid(m) && m.running && m.pc < RamSize && Decode(m.ram[m.pc]).None?
    ensures Run(m) == Failed(m, UnknownInstruction(m.ram[m.pc], m.pc))
  {
    RunStopsAtFailure(m);
  }

  /**
   * A handler that faults ends the run: the error names the opcode, its address and
   * the handler's own cause, and the state is the one the handler left.
   */
  lemma RunHandlerFails(m: Machine, op: Opcode)
    requires Valid(m) && m.running && m.pc < RamSize && Decode(m.ram[m.pc]) == Some(op)
    requires Execute(op, m).Failed?
    ensures Run(m) ==
      Failed(Execute(op, m).m, HandlerFailed(m.ram[m.pc], m.pc, Execute(op, m).error))
  {
    RunStopsAtFailure(m);
  }

  /**
   * The number of opcodes the run loop fetches from memory. Since pc grows by at
   * least 2 per instruction, a run from pc = 0 fetches at most 128 of them.
   */
  function Fetches(m: Machine): (n: nat)
    requires Valid(m)
    ensures m.pc <= RamSize ==> 2 * n <= RamSize + 1 - m.pc
    ensures m.pc > RamSize ==> n == 0
    decreases RunMeasure(m)
  {
    if !m.running || m.pc >= RamSize then 0
    else
      match Step(m)
      case Failed(_, _) => 1
      case Ok(m') => 1 + Fetches(m')
  }
}
