# LS-8 virtual machine, modelled in Dafny

The LS-8 is a small educational 8-bit CPU emulator. One `CPU` object holds a
256-cell memory (`ram`), eight registers (`reg`, with R7 the stack pointer,
starting at 0xF4), a program counter and a `running` flag. `load` reads a program
file whose lines are base-2 numbers with optional `#` comments and packs the
values into memory from address 0. `run` then fetches the opcode at `pc`, looks it
up in a branch table and calls its handler until HLT clears `running`. The six
instructions are LDI, PRN, HLT, MUL (through the ALU, which also knows ADD), PUSH
and POP.

The project has four modules:

- `LS8Spec` (`ls8_spec.dfy`) is the reference semantics. The machine state is a value
  (`Machine`). Each handler, the ALU, one fetch/dispatch step (`Step`) and a whole run
  (`Run`) are functions. Their contracts state each instruction's exact effect and
  its failure cases. Every handler other than HLT moves `pc` forward, so `Run` always
  terminates.
- `LS8` (`cpu.dfy`) is the `CPU` class. Memory and registers are arrays that are
  updated in place. Every handler, `Step` and the `Run` loop are proved to leave
  exactly the state and status that the matching `LS8Spec` function describes;
  the `Load` loop is proved against the `Loader` functions. `RamRead` and
  `RamWrite` have no `LS8Spec` counterpart and state their effect on memory
  directly.
- `Loader` (`loader.dfy`) covers the text side of loading. It defines the per-line
  parse, the resulting program and the memory image. Its lemmas show where each line
  is stored and that blank and comment lines are skipped.
- `LS8Properties` (`properties.dfy`) holds properties that span several
  instructions (PUSH/POP round trip, LDI then PRN, values never go negative) and
  worked runs of the example programs.

Modelling choices:

- Register and memory cells are unbounded integers. The source never truncates to
  8 bits, because Python integers do not wrap.
- PRN appends to an `output` sequence instead of printing.
- `load` takes the file's lines as a sequence of strings.
- A failing operation returns an error status. The state it leaves is the partial
  state the source leaves when it raises. For example, PUSH has already decremented
  R7 when it faults.
- Run errors come in three kinds:
  - `FetchOutOfRange`: the fetch at `pc >= 256`, an IndexError that escapes `run`.
  - `UnknownInstruction`: an opcode missing from the branch table.
  - `HandlerFailed`: a handler raised; the error keeps the handler's own cause.

## Model

| member | source | states |
|---|---|---|
| LS8Spec.Init | ls8/cpu.py:8-16 | a new machine has 256 zero memory cells, registers R0-R6 zero and R7 = 0xF4, pc 0, running, nothing printed |
| LS8.CPU.constructor | ls8/cpu.py:8-16 | the constructed object holds exactly the `Init` state in fresh arrays |
| LS8Spec.Decode | ls8/cpu.py:18-25 | the branch table: a byte decodes to an instruction exactly when it is that instruction's opcode (0x82, 0x47, 0x01, 0xA2, 0x45, 0x46), so decoding inverts `Encode` |
| LS8.CPU.RamRead | ls8/cpu.py:28-29 | returns the memory cell at an address in 0..255 and an index error for any other address |
| LS8.CPU.RamWrite | ls8/cpu.py:32-33 | stores the value at an address in 0..255 and changes no other cell; any other address is an index error that changes nothing |
| LS8Spec.Ldi | ls8/cpu.py:35-39 | succeeds iff the operands are in memory and the first names a register; then that register holds the immediate, the other registers, memory, output and flag are unchanged and pc grows by 3; on failure nothing changes |
| LS8.CPU.Ldi | ls8/cpu.py:35-39 | the in-place handler leaves exactly the state and status of `LS8Spec.Ldi` |
| LS8Spec.Prn | ls8/cpu.py:41-44 | succeeds iff the operand is in memory and names a register; then that register's value is appended to the output, registers and memory are unchanged and pc grows by 2 |
| LS8.CPU.Prn | ls8/cpu.py:41-44 | the in-place handler leaves exactly the state and status of `LS8Spec.Prn` |
| LS8Spec.Hlt | ls8/cpu.py:46-47 | always succeeds, clears `running` and leaves pc, registers, memory and output unchanged |
| LS8.CPU.Hlt | ls8/cpu.py:46-47 | the in-place handler leaves exactly the state of `LS8Spec.Hlt` |
| LS8Spec.Alu | ls8/cpu.py:79-88 | "ADD"/"MUL" succeed iff both register indices are valid and set reg[a] to the old sum/product, without wrap-around; all other registers, including reg[b] when b differs from a, are unchanged and pc grows by 3; any other operation fails with `UnsupportedAluOperation` and changes nothing |
| LS8.CPU.Alu | ls8/cpu.py:79-88 | the in-place ALU leaves exactly the state and status of `LS8Spec.Alu` |
| LS8Spec.Mul | ls8/cpu.py:49-52 | succeeds iff both operands are in memory and name registers; then reg[a] becomes old reg[a] times old reg[b], every other register is unchanged and pc grows by 3 |
| LS8.CPU.Mul | ls8/cpu.py:49-52 | the in-place handler leaves exactly the state and status of `LS8Spec.Mul` |
| LS8Spec.Push | ls8/cpu.py:54-58 | R7 is decremented first, and stays decremented even when the push then fails; it succeeds iff the operand names a register and the new R7 is an address; then the register's value is stored at memory[R7] and pc grows by 2 |
| LS8.CPU.Push | ls8/cpu.py:54-58 | the in-place handler leaves exactly the state and status of `LS8Spec.Push` |
| LS8Spec.Pop | ls8/cpu.py:60-64 | succeeds iff the operand names a register and R7 is an address; the register receives memory[R7], then R7 is incremented (POP R7 leaves R7 = popped value + 1), other registers and memory are unchanged and pc grows by 2 |
| LS8.CPU.Pop | ls8/cpu.py:60-64 | the in-place handler leaves exactly the state and status of `LS8Spec.Pop` |
| LS8Spec.Step | ls8/cpu.py:110-117 | a fetch at pc >= 256 fails and changes nothing; an opcode missing from the table fails as unknown; a handler that faults gives `HandlerFailed` with the opcode, its address, the handler's cause and the state the handler left; a completed step leaves pc at most 256; only HLT clears `running` and keeps pc; every other completed instruction moves pc forward by at least 2; output only grows |
| LS8Spec.Execute | ls8/cpu.py:115 | calling the handler the branch table holds: HLT always completes and only clears `running`; every other completed handler keeps `running` and moves pc forward by at least 2 and at most to 256; output only grows; a fault is an index error that leaves the machine unchanged, except that a faulting PUSH has already decremented R7 |
| LS8.CPU.Step | ls8/cpu.py:110-117 | one iteration of the loop, looking the opcode up in the branch table (`Decode`) and calling its handler, leaves exactly the state and status of `LS8Spec.Step` |
| LS8Spec.Run | ls8/cpu.py:110-117 | a run ends normally exactly when the machine is halted; a halted machine is left as it is; a normal end from a running machine stops at a HLT opcode; printed output is only appended |
| LS8Spec.RunThrough | ls8/cpu.py:110-117 | when the instruction at pc completes on a running machine, the step is that handler's result and the run continues from it |
| LS8Spec.RunStopsAtFailure | ls8/cpu.py:110-117 | a step that fails on a running machine ends the run with that step's error and state |
| LS8Spec.RunFetchFails | ls8/cpu.py:112-113 | a running machine with pc past memory ends the run with `FetchOutOfRange(pc)` and changes nothing |
| LS8Spec.RunUnknownFails | ls8/cpu.py:113-117 | an opcode missing from the branch table ends the run with `UnknownInstruction(opcode, pc)` and changes nothing |
| LS8Spec.RunHandlerFails | ls8/cpu.py:113-117 | a handler that faults ends the run with `HandlerFailed(opcode, pc, cause)` in the state the handler left |
| LS8.CPU.Run | ls8/cpu.py:110-117 | the `while running` loop terminates and leaves exactly the state and status of `LS8Spec.Run`; the number of opcodes it fetches is `LS8Spec.Fetches` of the starting state, at most 128 from pc 0 |
| LS8Spec.Fetches | ls8/cpu.py:110-117 | the number of opcodes a run fetches, n, satisfies 2n <= 257 - pc: pc grows by at least 2 per instruction |
| LS8Properties.FetchBound | ls8/cpu.py:110-117 | a run from pc 0 fetches at most 128 opcodes before it halts or fails |
| LS8Properties.PushThenPop | ls8/cpu.py:54-64 | PUSH r then POP r restores every register, R7 included, and advances pc by 4; the only trace is the pushed value just below the old stack pointer |
| LS8Properties.LdiThenPrn | ls8/cpu.py:35-44 | LDI r, v followed by PRN r appends exactly v to the output |
| LS8Properties.LdiRun | ls8/cpu.py:35-39 | within a run, LDI r, v sets exactly register r to v, moves pc by 3 and the run continues |
| LS8Properties.MulRun | ls8/cpu.py:49-52 | within a run, MUL a, b replaces register a by the product and moves pc by 3 |
| LS8Properties.PrnRun | ls8/cpu.py:41-44 | within a run, PRN r appends register r to the output and moves pc by 2 |
| LS8Properties.HltRun | ls8/cpu.py:46-47 | HLT on a running machine ends the run normally, changing nothing but the flag |
| LS8Properties.MulPrintHalt | ls8/cpu.py:110-117 | MUL R0,R1; PRN R0; HLT prints the product of R0 and R1 and halts at the HLT |
| LS8Properties.PrintProduct | ls8/cpu.py:110-117 | LDI R0,a; LDI R1,b; MUL R0,R1; PRN R0; HLT at any pc prints a times b |
| LS8Properties.ProductProgram | ls8/cpu.py:110-117 | the multiplication program booted from address 0 prints a times b, for every a and b, and halts with pc 11 |
| LS8Properties.PrintProgram | ls8/cpu.py:110-117 | the print program booted from address 0 prints its value and halts with pc 5 |
| LS8Properties.ExecuteKeepsNonNegative | ls8/cpu.py:35-64 | a handler that completes on non-negative memory and registers keeps them non-negative and prints only non-negative values |
| LS8Properties.StepKeepsNonNegative | ls8/cpu.py:35-64 | an instruction that completes on non-negative memory and registers keeps them non-negative and prints only non-negative values |
| LS8Properties.RunPrintsNonNegative | ls8/cpu.py:110-117 | a run from non-negative memory and registers prints only non-negative values and, if it halts, halts in a non-negative state |
| LS8Properties.EmptyProgramFails | ls8/cpu.py:110-117 | a fresh machine with nothing loaded fails at once on unknown opcode 0 at address 0 |
| LS8Properties.PrintEight | ls8/cpu.py:110-117 | LDI R0,8; PRN R0; HLT prints exactly 8 and halts with pc 5 |
| LS8Properties.PrintNinety | ls8/cpu.py:110-117 | LDI R0,9; LDI R1,10; MUL R0,R1; PRN R0; HLT prints exactly 90 and halts with pc 11 |
| LS8Properties.Boot | ls8/cpu.py:66-77 | a fresh machine (pc 0, running, initial registers, nothing printed) whose memory holds the program from address 0 and zero in every other cell |
| Loader.BeforeComment | ls8/cpu.py:71 | the part of a line before its first `#`: a prefix of the line with no `#` that ends at the first `#` or at the end of the line |
| Loader.BeforeCommentStopsAtHash | ls8/cpu.py:71 | text without `#` followed by `#` and any comment splits back into that text |
| Loader.ParseBinary | ls8/cpu.py:73 | `int(s, 2)` in the simplified syntax (see `Loader.ParseBinary` under Left out): every text that is a non-empty run of 0/1 digits with only spaces, tabs, CRs or LFs around it (`Padded`) parses, as the number those digits denote |
| Loader.ParseBinaryOnlyPadded | ls8/cpu.py:73 | conversely, a text that parses is such a padded run of digits, so every other text raises ValueError and is skipped |
| Loader.BeforeCommentFirstHash | ls8/cpu.py:71 | `split('#')[0]` is the whole line when it has no `#`, and otherwise the text before its first `#` |
| Loader.ParseLine | ls8/cpu.py:71-73 | a line's value is the number written before its first `#`, or in the whole line when it has no `#` |
| Loader.DigitsParse | ls8/cpu.py:73 | binary digits, alone or followed by one white-space character, read as the number the digits denote |
| Loader.SpacesParseNothing | ls8/cpu.py:73 | a text of white space alone is not a number, so `int` raises and the line is skipped |
| Loader.BinaryValueOfDigits | ls8/cpu.py:73 | reading back the base-2 digits of a number that fits the width gives the number |
| Loader.BinaryLineParses | ls8/cpu.py:71-75 | a line holding a number's digits loads that number, whether the digits stand alone, end with a newline, or are followed by a space and a `#` comment |
| Loader.DigitsLineParses | ls8/cpu.py:71-75 | a line holding binary digits loads the number they denote, whether they stand alone, end with a newline, or are followed by a space and a `#` comment |
| Loader.BlankOrCommentSkipped | ls8/cpu.py:71-77 | a blank line, or white space followed by a comment, loads nothing |
| Loader.Program | ls8/cpu.py:70-75 | the values loaded from a file: at most one per line, and exactly one per line when every line parses |
| Loader.ProgramValues | ls8/cpu.py:70-75 | a value is in the program exactly when some line of the file parses to it |
| Loader.PresentValues | ls8/cpu.py:70-77 | a value is collected exactly when some line's parse holds it |
| Loader.ProgramPrefix | ls8/cpu.py:70-75 | the values loaded from the first i lines are a prefix of those loaded from the whole file |
| Loader.PresentPrefix | ls8/cpu.py:70-75 | the values of the lines before position i are a prefix of the values of all lines |
| Loader.ProgramExtend | ls8/cpu.py:70-77 | one more line adds its value if it parses and nothing otherwise |
| Loader.ProgramSnoc | ls8/cpu.py:70-77 | appending a line to a file appends its value, if it parses, to the program |
| Loader.LineAddress | ls8/cpu.py:68-77 | a parseable line is stored at the address equal to the number of parseable lines before it; an unparseable line takes no address |
| Loader.ProgramOfFile | ls8/cpu.py:66-77 | a file of newline-terminated lines, each blank, a comment, or 8 binary digits with or without a comment, loads exactly the values, in file order |
| Loader.Image | ls8/cpu.py:74 | memory after loading: cells below the program length hold the program, the rest keep their old values, and the size is unchanged |
| Loader.ImageAppend | ls8/cpu.py:74-75 | storing one more value writes it at the next free address |
| Loader.ImageFull | ls8/cpu.py:74 | once memory is full, further values change nothing |
| Loader.ParseProgram | ls8/cpu.py:70-77 | the parse loop collects exactly the program: the values of the parseable lines, in file order |
| LS8.CPU.Load | ls8/cpu.py:66-77 | memory ends as the image of the parseable lines' values, in file order from address 0; the load fails, after filling memory, exactly when there are more than 256 values |

## Left out

- `trace` (ls8/cpu.py:90-108) is a diagnostic printer with no effect on state.
- Opening and iterating the file (ls8/cpu.py:69): `Load` takes the lines as strings.
- `print` (ls8/cpu.py:43): printed values go to the `output` sequence.
- The exception message text (ls8/cpu.py:88, ls8/cpu.py:117): errors are datatype values.
- The source reports a missing opcode and a failing handler with the same exception.
  The model gives them separate error kinds. A fetch past memory is an IndexError
  that escapes `run` unwrapped; the model calls it `FetchOutOfRange`.
- Loader.ParseBinary: accepts a simplification of Python's `int(s, 2)`. The digits
  must be 0 and 1, non-empty, and may have spaces, tabs, carriage returns and line
  feeds around them. Signs, `_` separators, a `0b` prefix, the white space `\v`
  and `\f`, other Unicode white space and non-ASCII decimal digits (such as the
  Arabic-Indic digit one, which `int(s, 2)` reads as 1) are not accepted; such
  lines load nothing in the model, while the source loads them (a line `-1` loads
  -1).
- Negative indices: Python reads `ram[-1]` as `ram[255]` and `reg[-1]` as `reg[7]`.
  The model treats every negative index as an index error. In the source a
  negative index arises in two ways. The first is a signed program line such as
  `-1`, which `int` accepts. Its value can be used as a register operand
  (ls8/cpu.py:38, 42, 57, 62, 82, 85). It can also reach R7, by LDI R7, by MUL
  into R7 or by POP R7 of a negative cell, and then serve as a memory index for
  PUSH or POP (ls8/cpu.py:57, 62): with R7 = -1, PUSH R0 writes `ram[-2]`, that
  is `ram[254]`. The second is PUSH with R7 = 0. With the model's unsigned parse
  only the second remains, and it fails: `StepKeepsNonNegative` shows that
  completed instructions never produce a negative value.
- LS8.CPU.Load: past 256 parsed values the source raises IndexError. The model
  returns `ProgramTooLarge` and leaves the same memory (the first 256 values).
  The source parses and stores line by line; `Load` parses every line first
  (`ParseProgram`) and then stores the values. Memory and status at the end are
  the same, because parsing has no effect on the machine.
- No 8-bit wrap-around, and no stack overflow or underflow guard beyond the memory
  bounds, because the source has neither.
- The repository's other, older copy of the machine, which lacks PUSH/POP and the
  stack-pointer setup, is not part of this model.
