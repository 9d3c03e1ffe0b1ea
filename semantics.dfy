/** The LS-8 machine as a value, and one step of its fetch-decode-execute loop
    as a function of that value. The class in cpu.dfy is proved to behave
    exactly as these functions say. */
module Semantics {
  import opened PyList

  // Opcodes, as the emulator's `run` defines them (binary in the comments).
  const LDI: int := 0x82   // 10000010
  const PRN: int := 0x47   // 01000111
  const HLT: int := 0x01   // 00000001
  const MUL: int := 0xA2   // 10100010
  const PUSH: int := 0x45  // 01000101
  const POP: int := 0x46   // 01000110
  const CALL: int := 0x50  // 01010000, defined but not dispatched
  const RET: int := 0x11   // 00010001, defined but not dispatched
  const CMP: int := 0xA7   // 10100111
  const JMP: int := 0x54   // 01010100
  const JEQ: int := 0x55   // 01010101

  const NumRegisters: nat := 8
  const RamSize: nat := 256
  /** Index of the register that holds the stack pointer. */
  const SP: nat := 7

  // The values CMP stores in the flags register.
  const FlagLess: int := 0x04     // 00000100
  const FlagGreater: int := 0x02  // 00000010
  const FlagEqual: int := 0x01    // 00000001

  /** The whole machine state. Registers and memory cells hold unbounded
      integers: nothing in the emulator masks them to a byte. `output` is what
      PRN has printed so far, one number per line. */
  datatype Machine = Machine(reg: seq<int>, ram: seq<int>, pc: int, fl: int, output: seq<int>)

  predicate WellFormed(m: Machine) {
    |m.reg| == NumRegisters && |m.ram| == RamSize
  }

  /** A freshly constructed CPU after the loader has placed `image` at address
      0: registers (the stack pointer register included), pc and flags are 0,
      memory past the image is 0, nothing has been printed. */
  function Boot(image: seq<int>): (m: Machine)
    requires |image| <= RamSize
    ensures WellFormed(m) && m.ram[..|image|] == image
    ensures forall i :: |image| <= i < RamSize ==> m.ram[i] == 0
    ensures forall i :: 0 <= i < NumRegisters ==> m.reg[i] == 0
    ensures m.pc == 0 && m.fl == 0 && m.output == []
  {
    Machine(seq(NumRegisters, _ => 0), image + seq(RamSize - |image|, _ => 0), 0, 0, [])
  }

  /** The flags register is 0 (never compared) or exactly one comparison flag. */
  predicate FlagsValid(fl: int) {
    fl == 0 || fl == FlagLess || fl == FlagGreater || fl == FlagEqual
  }

  /** Exceptions the emulator can raise: a list subscript out of range, and an
      ALU operation it does not implement. */
  datatype Error = IndexError | UnsupportedAluOp

  /** How a step ends: the loop goes on (Running), HLT stopped it, an opcode
      outside the table stopped it ("Command not found"), or an exception
      escaped from `run`. */
  datatype Status = Running | Halted | UnknownOpcode(opcode: int) | Raised(error: Error)

  /** A state together with how the step (or run) that produced it ended. On
      Raised, the state is the one at the moment of the exception. */
  datatype Outcome = Outcome(machine: Machine, status: Status)

  datatype AluResult = Done(machine: Machine) | Fails(error: Error)

  /** `xs` and `ys` have the same length and agree everywhere except possibly
      at position `i`. */
  predicate AgreeExcept(xs: seq<int>, ys: seq<int>, i: nat) {
    |ys| == |xs| && forall k :: 0 <= k < |xs| && k != i ==> ys[k] == xs[k]
  }

  /** The flag value CMP stores for its two arguments: exactly one flag, the
      one matching their order. */
  function Compare(x: int, y: int): (f: int)
    ensures FlagsValid(f) && f != 0
    ensures f == FlagLess <==> x < y
    ensures f == FlagGreater <==> x > y
    ensures f == FlagEqual <==> x == y
  {
    if x < y then FlagLess
    else if x > y then FlagGreater
    else FlagEqual  // the source tests `==` here, which always holds for integers
  }

  /** The ALU: "ADD" adds register b into register a, "CMP" compares its two
      ARGUMENTS (whatever numbers the caller passes) into the flags; any other
      operation name raises. */
  function Alu(m: Machine, op: string, a: int, b: int): (r: AluResult)
    requires WellFormed(m)
    ensures r.Fails? <==> (op != "ADD" && op != "CMP")
                          || (op == "ADD" && (Index(a, NumRegisters).None? || Index(b, NumRegisters).None?))
    ensures r.Fails? ==> r.error == if op == "ADD" then IndexError else UnsupportedAluOp
    ensures r.Done? ==> WellFormed(r.machine) && r.machine.ram == m.ram
                        && r.machine.pc == m.pc && r.machine.output == m.output
    ensures r.Done? && op == "ADD" ==>
      var i, j := Index(a, NumRegisters).value, Index(b, NumRegisters).value;
      r.machine.reg[i] == m.reg[i] + m.reg[j] && AgreeExcept(m.reg, r.machine.reg, i)
      && r.machine.fl == m.fl
    ensures r.Done? && op == "CMP" ==> r.machine.fl == Compare(a, b) && r.machine.reg == m.reg
  {
    if op == "ADD" then
      match (Load(m.reg, a), Load(m.reg, b))
      case (Some(x), Some(y)) => Done(m.(reg := Store(m.reg, a, x + y).value))
      case _ => Fails(IndexError)
    else if op == "CMP" then
      Done(m.(fl := Compare(a, b)))
    else
      Fails(UnsupportedAluOp)
  }

  /** The opcode at `pc` and the two bytes after it, all read unconditionally;
      any of the three reads can raise IndexError. */
  function Fetch(m: Machine): (f: Option<(int, int, int)>)
    requires WellFormed(m)
    ensures f.Some? <==> -(RamSize as int) <= m.pc && m.pc + 2 < RamSize
    ensures f.Some? ==> Load(m.ram, m.pc) == Some(f.value.0)
                        && Load(m.ram, m.pc + 1) == Some(f.value.1)
                        && Load(m.ram, m.pc + 2) == Some(f.value.2)
  {
    match (Load(m.ram, m.pc), Load(m.ram, m.pc + 1), Load(m.ram, m.pc + 2))
    case (Some(ir), Some(a), Some(b)) => Some((ir, a, b))
    case _ => None
  }

  /** LDI a b: register a := the literal b. */
  function Ldi(m: Machine, a: int, b: int): (o: Outcome)
    requires WellFormed(m)
    ensures WellFormed(o.machine)
    ensures o.status == Running <==> Index(a, NumRegisters).Some?
    ensures o.status != Running ==> o == Outcome(m, Raised(IndexError))
    ensures o.status == Running ==>
      Load(o.machine.reg, a) == Some(b) && AgreeExcept(m.reg, o.machine.reg, Index(a, NumRegisters).value)
      && o.machine.ram == m.ram && o.machine.fl == m.fl && o.machine.output == m.output
      && o.machine.pc == m.pc + 3
  {
    match Store(m.reg, a, b)
    case Some(r) => Outcome(m.(reg := r, pc := m.pc + 3), Running)
    case None => Outcome(m, Raised(IndexError))
  }

  /** PRN a: print the value of register a. */
  function Prn(m: Machine, a: int): (o: Outcome)
    requires WellFormed(m)
    ensures WellFormed(o.machine)
    ensures o.status == Running <==> Index(a, NumRegisters).Some?
    ensures o.status != Running ==> o == Outcome(m, Raised(IndexError))
    ensures o.status == Running ==>
      o.machine.output == m.output + [m.reg[Index(a, NumRegisters).value]]
      && o.machine.reg == m.reg && o.machine.ram == m.ram && o.machine.fl == m.fl
      && o.machine.pc == m.pc + 2
  {
    match Load(m.reg, a)
    case Some(v) => Outcome(m.(output := m.output + [v], pc := m.pc + 2), Running)
    case None => Outcome(m, Raised(IndexError))
  }

  /** MUL a b: register a := register a * register b, unbounded. */
  function Mul(m: Machine, a: int, b: int): (o: Outcome)
    requires WellFormed(m)
    ensures WellFormed(o.machine)
    ensures o.status == Running <==> Index(a, NumRegisters).Some? && Index(b, NumRegisters).Some?
    ensures o.status != Running ==> o == Outcome(m, Raised(IndexError))
    ensures o.status == Running ==>
      var i, j := Index(a, NumRegisters).value, Index(b, NumRegisters).value;
      o.machine.reg[i] == m.reg[i] * m.reg[j] && AgreeExcept(m.reg, o.machine.reg, i)
      && o.machine.ram == m.ram && o.machine.fl == m.fl && o.machine.output == m.output
      && o.machine.pc == m.pc + 3
  {
    match (Load(m.reg, a), Load(m.reg, b))
    case (Some(x), Some(y)) => Outcome(m.(reg := Store(m.reg, a, x * y).value, pc := m.pc + 3), Running)
    case _ => Outcome(m, Raised(IndexError))
  }

  /** PUSH a: capture register a, decrement the stack pointer, then store the
      captured value at the address the stack pointer now holds. A bad address
      raises after the decrement has happened. */
  function Push(m: Machine, a: int): (o: Outcome)
    requires WellFormed(m)
    ensures WellFormed(o.machine)
    ensures o.status == Running <==>
      Index(a, NumRegisters).Some? && Index(m.reg[SP] - 1, RamSize).Some?
    ensures o.status != Running ==> o.status == Raised(IndexError) && o.machine.ram == m.ram
                                    && o.machine.pc == m.pc
    ensures Index(a, NumRegisters).None? ==> o.machine == m
    ensures Index(a, NumRegisters).Some? ==>
      o.machine.reg[SP] == m.reg[SP] - 1 && AgreeExcept(m.reg, o.machine.reg, SP)
      && o.machine.fl == m.fl && o.machine.output == m.output
    ensures o.status == Running ==>
      var top := Index(m.reg[SP] - 1, RamSize).value;
      o.machine.ram[top] == m.reg[Index(a, NumRegisters).value]
      && AgreeExcept(m.ram, o.machine.ram, top)
      && o.machine.pc == m.pc + 2
  {
    match Load(m.reg, a)
    case None => Outcome(m, Raised(IndexError))
    case Some(v) =>
      var m1 := m.(reg := m.reg[SP := m.reg[SP] - 1]);
      match Store(m1.ram, m1.reg[SP], v)
      case Some(ram) => Outcome(m1.(ram := ram, pc := m.pc + 2), Running)
      case None => Outcome(m1, Raised(IndexError))
  }

  /** POP a: read memory at the stack pointer, store it in register a, then
      increment the stack pointer register (so POP into register 7 leaves the
      popped value plus one there). */
  function Pop(m: Machine, a: int): (o: Outcome)
    requires WellFormed(m)
    ensures WellFormed(o.machine)
    ensures o.status == Running <==>
      Index(m.reg[SP], RamSize).Some? && Index(a, NumRegisters).Some?
    ensures o.status != Running ==> o == Outcome(m, Raised(IndexError))
    ensures o.status == Running ==>
      var v, i := m.ram[Index(m.reg[SP], RamSize).value], Index(a, NumRegisters).value;
      (i != SP ==> o.machine.reg[i] == v && o.machine.reg[SP] == m.reg[SP] + 1)
      && (i == SP ==> o.machine.reg[SP] == v + 1)
      && (forall k :: 0 <= k < NumRegisters && k != i && k != SP ==> o.machine.reg[k] == m.reg[k])
      && o.machine.ram == m.ram && o.machine.fl == m.fl && o.machine.output == m.output
      && o.machine.pc == m.pc + 2
  {
    match Load(m.ram, m.reg[SP])
    case None => Outcome(m, Raised(IndexError))
    case Some(v) =>
      match Store(m.reg, a, v)
      case None => Outcome(m, Raised(IndexError))
      case Some(r) => Outcome(m.(reg := r[SP := r[SP] + 1], pc := m.pc + 2), Running)
  }

  /** CMP a b: hands the raw operand bytes a and b (not the registers they
      name) to the ALU's comparison. */
  function Cmp(m: Machine, a: int, b: int): (o: Outcome)
    requires WellFormed(m)
    ensures WellFormed(o.machine)
    ensures o.status == Running
    ensures o.machine.fl == Compare(a, b)
    ensures o.machine.reg == m.reg && o.machine.ram == m.ram && o.machine.output == m.output
            && o.machine.pc == m.pc + 3
  {
    var r := Alu(m, "CMP", a, b);
    Outcome(r.machine.(pc := m.pc + 3), Running)
  }

  /** JMP a: jump to the address held in register a. */
  function Jmp(m: Machine, a: int): (o: Outcome)
    requires WellFormed(m)
    ensures WellFormed(o.machine)
    ensures o.status == Running <==> Index(a, NumRegisters).Some?
    ensures o.status != Running ==> o == Outcome(m, Raised(IndexError))
    ensures o.status == Running ==> o.machine.pc == m.reg[Index(a, NumRegisters).value]
    ensures o.machine.reg == m.reg && o.machine.ram == m.ram && o.machine.fl == m.fl
            && o.machine.output == m.output
  {
    match Load(m.reg, a)
    case Some(target) => Outcome(m.(pc := target), Running)
    case None => Outcome(m, Raised(IndexError))
  }

  /** JEQ a: jump to the address in register a when the flags hold exactly the
      equal flag, otherwise move past this two-byte instruction. Register a is
      only subscripted when the jump is taken. */
  function Jeq(m: Machine, a: int): (o: Outcome)
    requires WellFormed(m)
    ensures WellFormed(o.machine)
    ensures o.status == Running <==> m.fl != FlagEqual || Index(a, NumRegisters).Some?
    ensures o.status != Running ==> o == Outcome(m, Raised(IndexError))
    ensures o.status == Running ==>
      o.machine.pc == if m.fl == FlagEqual then m.reg[Index(a, NumRegisters).value] else m.pc + 2
    ensures o.machine.reg == m.reg && o.machine.ram == m.ram && o.machine.fl == m.fl
            && o.machine.output == m.output
  {
    if m.fl == FlagEqual then Jmp(m, a)
    else Outcome(m.(pc := m.pc + 2), Running)
  }

  /** One iteration of the loop in `run`: fetch, then dispatch on the opcode.
      CALL and RET have no branch, so they fall into the unknown-opcode case
      with everything else outside the table. */
  function Step(m: Machine): (o: Outcome)
    requires WellFormed(m)
    ensures WellFormed(o.machine)
    ensures m.output <= o.machine.output
    ensures FlagsValid(m.fl) ==> FlagsValid(o.machine.fl)
  {
    match Fetch(m)
    case None => Outcome(m, Raised(IndexError))
    case Some((ir, a, b)) =>
      if ir == LDI then Ldi(m, a, b)
      else if ir == PRN then Prn(m, a)
      else if ir == MUL then Mul(m, a, b)
      else if ir == PUSH then Push(m, a)
      else if ir == POP then Pop(m, a)
      else if ir == CMP then Cmp(m, a, b)
      else if ir == JMP then Jmp(m, a)
      else if ir == JEQ then Jeq(m, a)
      else if ir == HLT then Outcome(m, Halted)
      else Outcome(m, UnknownOpcode(ir))
  }

  /** At most `fuel` iterations of the loop; status Running means the fuel ran
      out before the program stopped. */
  function Run(m: Machine, fuel: nat): (o: Outcome)
    requires WellFormed(m)
    ensures WellFormed(o.machine)
    ensures m.output <= o.machine.output
    ensures FlagsValid(m.fl) ==> FlagsValid(o.machine.fl)
    decreases fuel
  {
    if fuel == 0 then Outcome(m, Running)
    else
      var o := Step(m);
      if o.status == Running then Run(o.machine, fuel - 1) else o
  }
}
