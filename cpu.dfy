/**
 * The LS-8 CPU as an object: a 256-cell memory and an 8-slot register file held in
 * arrays that the instructions update in place, a program counter, a running flag,
 * and the sequence of values printed so far. Every handler, `Step` and `Run` are
 * proved to leave the state and status that the matching function of LS8Spec
 * describes; `Load` is proved against the Loader functions, and `RamRead` and
 * `RamWrite` state their effect on memory directly.
 */
module LS8 {
  import opened Wrappers
  import S = LS8Spec
  import Loader

  /** Loading failed because the program has more values than memory has cells. */
  datatype LoadError = ProgramTooLarge

  class CPU {
    const ram: array<int>
    const reg: array<int>
    var pc: nat
    var running: bool
    /** The values PRN has printed, oldest first. */
    var output: seq<int>

    ghost predicate Valid()
      reads this
    {
      ram.Length == S.RamSize && reg.Length == S.RegCount
    }

    /** The machine state this object holds. */
    ghost function State(): (m: S.Machine)
      reads this, ram, reg
    {
      S.Machine(ram[..], reg[..], pc, running, output)
    }

    constructor ()
      ensures Valid() && State() == S.Init()
      ensures fresh(ram) && fresh(reg)
    {
      ram := new int[S.RamSize](_ => 0);
      var r := new int[S.RegCount](_ => 0);
      r[S.SP] := S.StackStart;
      reg := r;
      pc := 0;
      running := true;
      output := [];
    }

    method RamRead(address: int) returns (r: Result<int, S.HandlerError>)
      requires Valid()
      ensures S.InRam(address) ==> r == Success(ram[address])
      ensures !S.InRam(address) ==> r == Failure(S.IndexOutOfRange)
    {
      if !S.InRam(address) {
        return Failure(S.IndexOutOfRange);
      }
      return Success(ram[address]);
    }

    method RamWrite(address: int, value: int) returns (st: Status<S.HandlerError>)
      requires Valid()
      modifies ram
      ensures S.InRam(address) ==> st == Pass && ram[..] == old(ram[..])[address := value]
      ensures !S.InRam(address) ==> st == Fail(S.IndexOutOfRange) && ram[..] == old(ram[..])
    {
      if !S.InRam(address) {
        return Fail(S.IndexOutOfRange);
      }
      ram[address] := value;
      return Pass;
    }

    method Ldi() returns (st: Status<S.HandlerError>)
      requires Valid()
      modifies reg, this`pc
      ensures Valid()
      ensures State() == S.Ldi(old(State())).m && st == S.Ldi(old(State())).ToStatus()
    {
      if pc + 2 >= S.RamSize {
        return Fail(S.IndexOutOfRange);
      }
      var index := ram[pc + 1];
      var value := ram[pc + 2];
      if !S.InReg(index) {
        return Fail(S.IndexOutOfRange);
      }
      reg[index] := value;
      pc := pc + 3;
      return Pass;
    }

    method Prn() returns (st: Status<S.HandlerError>)
      requires Valid()
      modifies this`pc, this`output
      ensures Valid()
      ensures State() == S.Prn(old(State())).m && st == S.Prn(old(State())).ToStatus()
    {
      if pc + 1 >= S.RamSize {
        return Fail(S.IndexOutOfRange);
      }
      var index := ram[pc + 1];
      if !S.InReg(index) {
        return Fail(S.IndexOutOfRange);
      }
      output := output + [reg[index]];
      pc := pc + 2;
      return Pass;
    }

    method Hlt()
      requires Valid()
      modifies this`running
      ensures Valid()
      ensures State() == S.Hlt(old(State())).m
    {
      running := false;
    }

    method Alu(op: string, a: int, b: int) returns (st: Status<S.HandlerError>)
      requires Valid()
      modifies reg, this`pc
      ensures Valid()
      ensures State() == S.Alu(old(State()), op, a, b).m
      ensures st == S.Alu(old(State()), op, a, b).ToStatus()
    {
      if op == "ADD" {
        if !S.InReg(a) || !S.InReg(b) {
          return Fail(S.IndexOutOfRange);
        }
        reg[a] := reg[a] + reg[b];
        pc := pc + 3;
      } else if op == "MUL" {
        if !S.InReg(a) || !S.InReg(b) {
          return Fail(S.IndexOutOfRange);
        }
        reg[a] := reg[a] * reg[b];
        pc := pc + 3;
      } else {
        return Fail(S.UnsupportedAluOperation);
      }
      return Pass;
    }

    method Mul() returns (st: Status<S.HandlerError>)
      requires Valid()
      modifies reg, this`pc
      ensures Valid()
      ensures State() == S.Mul(old(State())).m && st == S.Mul(old(State())).ToStatus()
    {
      if pc + 2 >= S.RamSize {
        return Fail(S.IndexOutOfRange);
      }
      var a := ram[pc + 1];
      var b := ram[pc + 2];
      st := Alu("MUL", a, b);
    }

    method Push() returns (st: Status<S.HandlerError>)
      requires Valid()
      modifies ram, reg, this`pc
      ensures Valid()
      ensures State() == S.Push(old(State())).m && st == S.Push(old(State())).ToStatus()
    {
      reg[S.SP] := reg[S.SP] - 1;
      if pc + 1 >= S.RamSize {
        return Fail(S.IndexOutOfRange);
      }
      var index := ram[pc + 1];
      if !S.InReg(index) {
        return Fail(S.IndexOutOfRange);
      }
      var value := reg[index];
      var sp := reg[S.SP];
      if !S.InRam(sp) {
        return Fail(S.IndexOutOfRange);
      }
      ram[sp] := value;
      pc := pc + 2;
      return Pass;
    }

    method Pop() returns (st: Status<S.HandlerError>)
      requires Valid()
      modifies reg, this`pc
      ensures Valid()
      ensures State() == S.Pop(old(State())).m && st == S.Pop(old(State())).ToStatus()
    {
      if pc + 1 >= S.RamSize {
        return Fail(S.IndexOutOfRange);
      }
      var index := ram[pc + 1];
      var sp := reg[S.SP];
      if !S.InRam(sp) || !S.InReg(index) {
        return Fail(S.IndexOutOfRange);
      }
      reg[index] := ram[sp];
      reg[S.SP] := reg[S.SP] + 1;
      pc := pc + 2;
      return Pass;
    }

    /** One iteration of the run loop: fetch, dispatch on the opcode byte, execute. */
    method Step() returns (st: Status<S.RunError>)
      requires Valid()
      modifies ram, reg, this`pc, this`running, this`output
      ensures Valid()
      ensures State() == S.Step(old(State())).m && st == S.Step(old(State())).ToStatus()
    {
      if pc >= S.RamSize {
        return Fail(S.FetchOutOfRange(pc));
      }
      var at := pc;
      var ir := ram[pc];
      var hs: Status<S.HandlerError>;
      match S.Decode(ir) {
        case None =>
          return Fail(S.UnknownInstruction(ir, at));
        case Some(op) =>
          match op {
            case LDI => hs := Ldi();
            case PRN => hs := Prn();
            case HLT => Hlt(); hs := Pass;
            case MUL => hs := Mul();
            case PUSH => hs := Push();
            case POP => hs := Pop();
          }
      }
      if hs.Fail? {
        return Fail(S.HandlerFailed(ir, at, hs.error));
      }
      return Pass;
    }

    /**
     * Steps while the machine is running; stops at the first failure. `fetched`
     * counts the opcodes read from memory.
     */
    method Run() returns (st: Status<S.RunError>, ghost fetched: nat)
      requires Valid()
      modifies ram, reg, this`pc, this`running, this`output
      ensures Valid()
      ensures State() == S.Run(old(State())).m && st == S.Run(old(State())).ToStatus()
      ensures fetched == S.Fetches(old(State()))
      ensures old(pc) == 0 ==> fetched <= 128
    {
      fetched := 0;
      while running
        invariant Valid()
        invariant S.Run(State()) == S.Run(old(State()))
        invariant fetched + S.Fetches(State()) == S.Fetches(old(State()))
        decreases S.RunMeasure(State())
      {
        if pc < S.RamSize {
          fetched := fetched + 1;
        }
        st := Step();
        if st.Fail? {
          return;
        }
      }
      st := Pass;
    }

    /**
     * Stores the value of every parseable line at consecutive addresses from 0, in
     * file order. A program with more values than memory has cells fills memory
     * and then fails.
     */
    method Load(lines: seq<string>) returns (st: Status<LoadError>)
      requires Valid()
      modifies ram
      ensures Valid()
      ensures ram[..] == Loader.Image(old(ram[..]), Loader.Program(lines))
      ensures st == if |Loader.Program(lines)| <= S.RamSize then Pass else Fail(ProgramTooLarge)
    {
      var program := Loader.ParseProgram(lines);
      ghost var initial := ram[..];
      var address := 0;
      while address < |program|
        invariant 0 <= address <= |program| && address <= S.RamSize
        invariant ram[..] == Loader.Image(initial, program[..address])
      {
        if address >= S.RamSize {
          Loader.ImageFull(initial, program);
          return Fail(ProgramTooLarge);
        }
        Loader.ImageAppend(initial, program, address);
        ram[address] := program[address];
        address := address + 1;
      }
      assert program[..address] == program;
      return Pass;
    }
  }
}
