/** The emulator's CPU object: registers and memory as arrays updated in
    place, the program counter and flags as fields. Every method is proved to
    do to the object exactly what the functions of module Semantics say. */
module Cpu {
  import opened PyList
  import opened Semantics

  class CPU {
    /** The eight registers. */
    const reg: array<int>
    /** The 256 memory cells; the program image is whatever they hold when
        `Run` starts. */
    const ram: array<int>
    /** Index of the stack-pointer register (not its value). */
    const sp: nat := SP
    var pc: int
    var fl: int
    /** Numbers printed by PRN so far. */
    ghost var output: seq<int>

    ghost predicate Valid() {
      reg.Length == NumRegisters && ram.Length == RamSize && reg != ram
    }

    /** The object as a Machine value. */
    ghost function State(): (m: Machine)
      reads this, reg, ram
      requires Valid()
      ensures WellFormed(m)
    {
      Machine(reg[..], ram[..], pc, fl, output)
    }

    /** All registers (the stack pointer register included) and all memory
        cells are 0, as are pc and the flags. */
    constructor ()
      ensures Valid() && fresh(reg) && fresh(ram)
      ensures forall i :: 0 <= i < reg.Length ==> reg[i] == 0
      ensures forall i :: 0 <= i < ram.Length ==> ram[i] == 0
      ensures pc == 0 && sp == 7 && fl == 0 && output == []
      ensures State() == Boot([])
    {
      reg := new int[NumRegisters](_ => 0);
      ram := new int[RamSize](_ => 0);
      pc := 0;
      fl := 0;
      output := [];
    }

    /** `ram_read`: the cell at `address`, or None where Python raises. */
    function RamRead(address: int): (r: Option<int>)
      reads ram
      requires Valid()
      ensures r == Load(ram[..], address)
    {
      match Index(address, ram.Length)
      case Some(k) => Some(ram[k])
      case None => None
    }

    /** `ram_write`: store `value` at `address`; on IndexError memory is left
        as it was. */
    method RamWrite(address: int, value: int) returns (err: Option<Error>)
      requires Valid()
      modifies ram
      ensures err.None? <==> Store(old(ram[..]), address, value).Some?
      ensures err.None? ==> Store(old(ram[..]), address, value) == Some(ram[..])
      ensures err.Some? ==> err == Some(IndexError) && ram[..] == old(ram[..])
    {
      var k := Index(address, ram.Length);
      if k.None? {
        return Some(IndexError);
      }
      ram[k.value] := value;
      err := None;
    }

    /** `alu`: the object afterwards is the ALU function's result, or the
        object unchanged when the ALU raises. */
    method Alu(op: string, a: int, b: int) returns (err: Option<Error>)
      requires Valid()
      modifies this, reg
      ensures Semantics.Alu(old(State()), op, a, b)
              == if err.None? then Done(State()) else Fails(err.value)
      ensures err.Some? ==> State() == old(State())
    {
      if op == "ADD" {
        var i, j := Index(a, reg.Length), Index(b, reg.Length);
        if i.None? || j.None? {
          return Some(IndexError);
        }
        reg[i.value] := reg[i.value] + reg[j.value];
      } else if op == "CMP" {
        if a < b {
          fl := FlagLess;
        } else if a > b {
          fl := FlagGreater;
        } else {
          fl := FlagEqual;
        }
      } else {
        return Some(UnsupportedAluOp);
      }
      err := None;
    }

    /** One iteration of the loop in `run`. */
    method Step() returns (status: Status)
      requires Valid()
      modifies this, reg, ram
      ensures Outcome(State(), status) == Semantics.Step(old(State()))
    {
      var ir := RamRead(pc);
      var operandA := RamRead(pc + 1);
      var operandB := RamRead(pc + 2);
      if ir.None? || operandA.None? || operandB.None? {
        return Raised(IndexError);
      }
      var op, a, b := ir.value, operandA.value, operandB.value;
      if op == LDI {
        var i := Index(a, reg.Length);
        if i.None? {
          return Raised(IndexError);
        }
        reg[i.value] := b;
        pc := pc + 3;
      } else if op == PRN {
        var i := Index(a, reg.Length);
        if i.None? {
          return Raised(IndexError);
        }
        output := output + [reg[i.value]];
        pc := pc + 2;
      } else if op == MUL {
        var i, j := Index(a, reg.Length), Index(b, reg.Length);
        if i.None? || j.None? {
          return Raised(IndexError);
        }
        reg[i.value] := reg[i.value] * reg[j.value];
        pc := pc + 3;
      } else if op == PUSH {
        var i := Index(a, reg.Length);
        if i.None? {
          return Raised(IndexError);
        }
        var val := reg[i.value];
        reg[sp] := reg[sp] - 1;
        var err := RamWrite(reg[sp], val);
        if err.Some? {
          return Raised(err.value);
        }
        pc := pc + 2;
      } else if op == POP {
        var val := RamRead(reg[sp]);
        if val.None? {
          return Raised(IndexError);
        }
        var i := Index(a, reg.Length);
        if i.None? {
          return Raised(IndexError);
        }
        reg[i.value] := val.value;
        reg[sp] := reg[sp] + 1;
        pc := pc + 2;
      } else if op == CMP {
        var err := Alu("CMP", a, b);  // the ALU never raises on CMP
        pc := pc + 3;
      } else if op == JMP {
        var i := Index(a, reg.Length);
        if i.None? {
          return Raised(IndexError);
        }
        pc := reg[i.value];
      } else if op == JEQ {
        if fl == FlagEqual {
          var i := Index(a, reg.Length);
          if i.None? {
            return Raised(IndexError);
          }
          pc := reg[i.value];
        } else {
          pc := pc + 2;
        }
      } else if op == HLT {
        return Halted;
      } else {
        return UnknownOpcode(op);
      }
      status := Running;
    }

    /** `run`, cut off after at most `fuel` iterations: the loop stops on HLT,
        on an unknown opcode, on an exception, or when the fuel is used up
        (status Running). */
    method Run(fuel: nat) returns (status: Status)
      requires Valid()
      modifies this, reg, ram
      ensures Outcome(State(), status) == Semantics.Run(old(State()), fuel)
    {
      var running := true;
      var left := fuel;
      status := Running;
      while running && left > 0
        invariant running <==> status == Running
        invariant Semantics.Run(old(State()), fuel)
                  == if running then Semantics.Run(State(), left) else Outcome(State(), status)
        decreases left
      {
        status := Step();
        running := status == Running;
        left := left - 1;
      }
    }
  }
}
