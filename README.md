# LS-8 CPU emulator core in Dafny

This project models the `CPU` class of the LS-8 emulator (`ls8/cpu.py`). The
LS-8 is an 8-register machine with 256 memory cells. The class holds the
registers, the memory, the program counter `pc`, the index of the
stack-pointer register (`sp`, always 7) and the flags register `fl`. Its
`run` method is a fetch-decode-execute loop over LDI, PRN, MUL, PUSH, POP,
CMP, JMP, JEQ and HLT. Its `alu` method implements ADD and CMP.

Files:

- `pylist.dfy` (module `PyList`): Python list subscription, which is how the
  class reads and writes its registers and memory. Negative subscripts count
  from the end. A subscript outside `[-len, len)` raises `IndexError`.
- `semantics.dfy` (module `Semantics`): the machine as a value (`Machine`),
  and the ALU, each instruction, one loop iteration (`Step`) and a run of at
  most `fuel` iterations (`Run`) as functions. Each instruction's contract
  states its effect on registers, memory, `pc`, flags and output, including
  what it leaves unchanged and when it raises.
- `cpu.dfy` (module `Cpu`): the class `CPU`. Registers and memory are arrays
  updated in place, and `pc`, `fl` and the printed output are fields. Each
  method (`RamWrite`, `Alu`, `Step`, `Run`) is proved to leave the object in
  exactly the state a specification function gives: `RamWrite` that of
  `PyList.Store`; `Alu`, `Step` and `Run` that of the matching `Semantics`
  function. The constructor gives `Semantics.Boot` of the empty image.
- `properties.dfy` (module `Properties`) and `scenarios.dfy` (module
  `Scenarios`): lemmas relating several steps, and whole example programs.

How each step can end is a `Status`:
- `Running`: the loop goes on.
- `Halted`: HLT stopped it.
- `UnknownOpcode(op)`: the "Command not found" branch stopped it.
- `Raised(IndexError)` or `Raised(UnsupportedAluOp)`: an exception escaped
  `run` or `alu`.

Where the emulator's intended design and its code disagree, the model
follows the code:
- CMP passes the raw operand bytes to the ALU, not the values of the
  registers they name (`ls8/cpu.py:145`). `CompareBranchProgram` shows the
  effect: with R0 = R1 = 5, `CMP R0,R1` sets the "less" flag and the JEQ
  that follows is not taken.
- Registers and memory cells hold unbounded integers. Neither ADD nor MUL
  wraps to 8 bits.
- The stack-pointer register starts at 0. The first PUSH therefore writes
  to subscript -1, which is the last memory cell (`FirstPushWrapsToTop`).
- There are no stack overflow or underflow errors. A stack address outside
  `[-256, 256)` raises `IndexError`. A PUSH raises only after it has
  decremented the stack pointer.
- CALL and RET have opcode constants but no dispatch branch (their bodies
  are commented out). They are unknown opcodes.
- Line 151 reads `elif == JEQ:`, which is not valid Python. The model reads
  it as `elif IR == JEQ:`.
- The two operand bytes are fetched on every iteration. An instruction in
  one of the last two memory cells, HLT included, therefore raises
  `IndexError` (`FetchPastEndRaises`).

## Model

| member | source | states |
|---|---|---|
| PyList.Index | ls8/cpu.py:81-85 | a Python subscript denotes a cell exactly when it lies in [-n, n), and that cell is the unique one in [0, n) congruent to it modulo n |
| PyList.Load | ls8/cpu.py:81-82 | reading `xs[i]` succeeds exactly for subscripts in range and yields the cell the subscript denotes |
| PyList.Store | ls8/cpu.py:84-85 | writing `xs[i]` succeeds exactly for subscripts in range and keeps the length |
| PyList.StoreThenLoad | ls8/cpu.py:81-85 | after a successful write, every subscript denoting the written cell reads the new value, and every other subscript reads what it read before |
| Cpu.CPU.constructor | ls8/cpu.py:8-14 | a new CPU has 8 registers and 256 memory cells, all 0, with pc 0, stack-pointer index 7 and flags 0; as a Machine it is `Boot` of the empty image |
| Cpu.CPU.RamRead | ls8/cpu.py:81-82 | `ram_read` returns the cell at the address, with Python's negative subscripts; out-of-range addresses raise |
| Cpu.CPU.RamWrite | ls8/cpu.py:84-85 | `ram_write` updates exactly the addressed cell, or raises IndexError and leaves memory unchanged |
| Semantics.Compare | ls8/cpu.py:50-56 | the comparison stores exactly one of the flags 0b100, 0b010, 0b001, the one matching the order of its two arguments |
| Semantics.Alu | ls8/cpu.py:44-58 | ADD adds register b into register a, changing nothing else, and raises IndexError on a bad register; CMP sets the flags from its two arguments without touching registers; any other operation raises |
| Cpu.CPU.Alu | ls8/cpu.py:44-58 | the object after `alu` is the ALU function's result, or unchanged when it raises |
| Semantics.Fetch | ls8/cpu.py:104-106 | the opcode and both operand bytes are read, from the cells at pc, pc+1 and pc+2, on every iteration; this fails exactly when pc is outside [-256, 253] |
| Semantics.Ldi | ls8/cpu.py:108-110 | LDI a b sets register a to b and pc += 3; all other registers, memory, flags and output are unchanged; a bad register raises with nothing changed |
| Semantics.Prn | ls8/cpu.py:112-114 | PRN a appends register a's value to the output and pc += 2; nothing else changes |
| Semantics.Mul | ls8/cpu.py:116-118 | MUL a b sets register a to the unbounded product of registers a and b and pc += 3; nothing else changes |
| Semantics.Push | ls8/cpu.py:120-124 | PUSH a moves the stack pointer down by exactly 1 and stores register a's value, captured before the decrement, at the new stack address; all other cells, registers and flags are unchanged; pc += 2 |
| Semantics.Pop | ls8/cpu.py:126-130 | POP a loads the cell at the stack pointer into register a, then moves the stack pointer up by 1 (into register 7 this leaves the popped value plus 1); memory and flags are unchanged; pc += 2 |
| Semantics.Cmp | ls8/cpu.py:144-146 | CMP a b sets the flags from the order of the operand bytes a and b, leaves registers, memory and output alone, and pc += 3 |
| Semantics.Jmp | ls8/cpu.py:148-149 | JMP a sets pc to register a's value and changes nothing else |
| Semantics.Jeq | ls8/cpu.py:151-155 | JEQ a sets pc to register a's value when the flags are exactly 0b001, otherwise pc += 2; nothing else changes |
| Semantics.Step | ls8/cpu.py:103-162 | one loop iteration only appends to the output and keeps the flags register 0 or a single flag |
| Semantics.Run | ls8/cpu.py:101-103 | any number of iterations only appends to the output and keeps the flags register 0 or a single flag |
| Cpu.CPU.Step | ls8/cpu.py:103-162 | one iteration of `run` on the object does exactly what `Semantics.Step` says, on registers, memory, pc, flags and output |
| Cpu.CPU.Run | ls8/cpu.py:87-162 | `run`, cut off after `fuel` iterations, leaves the object in the state and status `Semantics.Run` gives |
| Properties.PushThenPop | ls8/cpu.py:120-130 | PUSH ra then POP rb (rb not register 7) puts ra's old value in rb, restores the stack pointer, leaves other registers and flags alone, and advances pc by 4 |
| Properties.JeqRule | ls8/cpu.py:151-155 | JEQ jumps to register a exactly when the flags equal 0b001, else pc += 2, and nothing but pc changes |
| Properties.JeqNotTakenIgnoresOperand | ls8/cpu.py:151-155 | an untaken JEQ never reads its register operand, so it cannot raise |
| Properties.OnlyCmpWritesFlags | ls8/cpu.py:103-162 | no instruction other than CMP changes the flags |
| Properties.CmpStep | ls8/cpu.py:144-146 | the CMP instruction changes only the flags, set from its operand bytes, and pc += 3 |
| Properties.CmpIgnoresRegisterContents | ls8/cpu.py:144-146 | CMP a,b with two different register numbers never reports "equal", even when both registers hold the same value (and reports "less" when a < b) |
| Properties.HaltStops | ls8/cpu.py:157-158 | HLT ends the loop with the machine unchanged |
| Properties.UnknownOpcodeStops | ls8/cpu.py:160-162 | any opcode outside the table ends the loop, reporting that opcode, with the machine unchanged |
| Properties.CallAndRetAreUnknown | ls8/cpu.py:133-162 | CALL and RET fall into the unknown-opcode branch |
| Properties.FetchPastEndRaises | ls8/cpu.py:104-106 | an instruction in one of the last two memory cells raises IndexError, whatever its opcode |
| Properties.FirstPushWrapsToTop | ls8/cpu.py:120-124 | with the stack pointer at its initial 0, PUSH stores into the last memory cell and leaves the stack pointer at -1 |
| Properties.LdiThenPrn | ls8/cpu.py:108-114 | LDI r v followed by PRN r prints v |
| Properties.RunAdditive | ls8/cpu.py:101-103 | running n + k iterations is running n and then, if still running, k more |
| Properties.StoppedRunIsFinal | ls8/cpu.py:157-162 | once the loop has stopped, more fuel changes nothing |
| Semantics.Boot | ls8/cpu.py:8-14 | a freshly constructed CPU with a program image at address 0: all registers, pc and flags 0, memory past the image 0 |
| Scenarios.MultiplyProgram | ls8/cpu.py:103-162 | LDI R0,8; LDI R1,9; MUL R0,R1; PRN R0; HLT prints 72 and halts with R0 = 72, R1 = 9 |
| Scenarios.CompareBranchProgram | ls8/cpu.py:144-155 | with R0 = R1 = 5, CMP R0,R1 sets "less", so the following JEQ is not taken and nothing is printed |
| Scenarios.UnknownOpcodeProgram | ls8/cpu.py:160-162 | a one-byte program holding an unknown opcode stops after one iteration, with the machine exactly as loaded |

## Left out

- `load` (ls8/cpu.py:16-42): argument handling, file reading and parsing of binary text. The program image is the initial content of `ram` (`Semantics.Boot` for the pure model).
- `trace` (ls8/cpu.py:60-79): debug printing only.
- Printing: PRN appends the number to an output sequence instead of writing a line. The "Command not found" message becomes the status `UnknownOpcode(op)`.
- Non-termination: a program that loops forever is cut off by the `fuel` bound. A result with status `Running` means the fuel ran out.
- Exceptions are modelled as a status. Their messages and Python's traceback are not.
- The commented-out CALL and RET bodies (ls8/cpu.py:133-142) are not live code. They appear only as opcodes that reach the unknown-opcode branch.
