/** What the emulator's instruction semantics guarantee, stated over the
    Semantics functions. */
module Properties {
  import opened PyList
  import opened Semantics

  /** The instruction at `pc` has opcode `op` and first operand byte `a`. */
  predicate Decodes(m: Machine, op: int, a: int)
    requires WellFormed(m)
  {
    Fetch(m).Some? && Fetch(m).value.0 == op && Fetch(m).value.1 == a
  }

  /** PUSH ra followed by POP rb (rb not the stack-pointer register) copies the
      old value of ra into rb, restores the stack pointer to its value before
      the PUSH, leaves every other register and the flags alone, and moves pc
      past both instructions. */
  lemma PushThenPop(m: Machine, a: int, b: int)
    requires WellFormed(m) && Decodes(m, PUSH, a) && Step(m).status == Running
    requires Decodes(Step(m).machine, POP, b)
    requires Index(b, NumRegisters).Some? && Index(b, NumRegisters).value != SP
    ensures var o := Step(Step(m).machine);
      var j := Index(b, NumRegisters).value;
      o.status == Running
      && o.machine.reg[j] == m.reg[Index(a, NumRegisters).value]
      && o.machine.reg[SP] == m.reg[SP]
      && AgreeExcept(m.reg, o.machine.reg, j)
      && o.machine.fl == m.fl && o.machine.output == m.output
      && o.machine.pc == m.pc + 4
  {
  }

  /** JEQ a, with register a in range: the jump to register a is taken exactly
      when the flags equal FlagEqual; otherwise pc moves on by 2. Nothing but pc
      changes either way. */
  lemma JeqRule(m: Machine, a: int)
    requires WellFormed(m) && Decodes(m, JEQ, a) && Index(a, NumRegisters).Some?
    ensures Step(m).status == Running
    ensures Step(m).machine
            == if m.fl == FlagEqual then m.(pc := m.reg[Index(a, NumRegisters).value])
               else m.(pc := m.pc + 2)
  {
  }

  /** JEQ when the equal flag is not set never looks at its register operand,
      so it cannot raise even when that operand is out of range. */
  lemma JeqNotTakenIgnoresOperand(m: Machine, a: int)
    requires WellFormed(m) && Decodes(m, JEQ, a) && m.fl != FlagEqual
    ensures Step(m) == Outcome(m.(pc := m.pc + 2), Running)
  {
  }

  /** Only CMP writes the flags register. */
  lemma OnlyCmpWritesFlags(m: Machine)
    requires WellFormed(m) && Fetch(m).Some? && Fetch(m).value.0 != CMP
    ensures Step(m).machine.fl == m.fl
  {
  }

  /** CMP sets the flags from the order of its two operand BYTES and changes
      nothing but the flags and pc. */
  lemma CmpStep(m: Machine, a: int, b: int)
    requires WellFormed(m) && Decodes(m, CMP, a) && Fetch(m).value.2 == b
    ensures Step(m) == Outcome(m.(fl := Compare(a, b), pc := m.pc + 3), Running)
  {
  }

  /** Because CMP compares operand bytes, `CMP a,b` with two different
      register numbers never reports "equal", even when the two registers hold
      the same value; for `CMP R0,R1` it reports "less". */
  lemma CmpIgnoresRegisterContents(m: Machine, a: int, b: int)
    requires WellFormed(m) && Decodes(m, CMP, a) && Fetch(m).value.2 == b && a != b
    requires Index(a, NumRegisters).Some? && Index(b, NumRegisters).Some?
    requires m.reg[Index(a, NumRegisters).value] == m.reg[Index(b, NumRegisters).value]
    ensures Step(m).machine.fl != FlagEqual
    ensures Step(m).machine.fl
            != Compare(m.reg[Index(a, NumRegisters).value], m.reg[Index(b, NumRegisters).value])
    ensures a < b ==> Step(m).machine.fl == FlagLess
  {
  }

  /** HLT stops the loop and changes nothing. */
  lemma HaltStops(m: Machine)
    requires WellFormed(m) && Fetch(m).Some? && Fetch(m).value.0 == HLT
    ensures Step(m) == Outcome(m, Halted)
  {
  }

  /** Every byte outside the dispatch table, CALL and RET included, stops the
      loop with an unknown-opcode report and changes nothing. */
  lemma UnknownOpcodeStops(m: Machine, op: int)
    requires WellFormed(m) && Fetch(m).Some? && Fetch(m).value.0 == op
    requires op !in {LDI, PRN, MUL, PUSH, POP, CMP, JMP, JEQ, HLT}
    ensures Step(m) == Outcome(m, UnknownOpcode(op))
  {
  }

  lemma CallAndRetAreUnknown(m: Machine)
    requires WellFormed(m) && Fetch(m).Some? && Fetch(m).value.0 in {CALL, RET}
    ensures Step(m) == Outcome(m, UnknownOpcode(Fetch(m).value.0))
  {
  }

  /** The two operand bytes are read even when the opcode does not use them,
      so an instruction in one of the last two cells (HLT included) raises
      IndexError. */
  lemma FetchPastEndRaises(m: Machine)
    requires WellFormed(m) && RamSize - 2 <= m.pc < RamSize
    ensures Step(m) == Outcome(m, Raised(IndexError))
  {
  }

  /** With the stack pointer register at its initial 0, PUSH stores at -1,
      which Python's negative subscript turns into the last memory cell. */
  lemma FirstPushWrapsToTop(m: Machine, a: int)
    requires WellFormed(m) && Decodes(m, PUSH, a) && Index(a, NumRegisters).Some?
    requires m.reg[SP] == 0
    ensures Step(m).status == Running
    ensures Step(m).machine.reg[SP] == -1
    ensures Step(m).machine.ram[RamSize - 1] == m.reg[Index(a, NumRegisters).value]
  {
  }

  /** LDI r v followed by PRN r prints v. */
  lemma LdiThenPrn(m: Machine, a: int, v: int)
    requires WellFormed(m) && Decodes(m, LDI, a) && Fetch(m).value.2 == v
    requires Index(a, NumRegisters).Some?
    requires Decodes(Step(m).machine, PRN, a)
    ensures Step(Step(m).machine).status == Running
    ensures Step(Step(m).machine).machine.output == m.output + [v]
  {
  }

  /** Running n + k iterations is running n and then, if the program is still
      going, k more. */
  lemma {:induction false} RunAdditive(m: Machine, n: nat, k: nat)
    requires WellFormed(m)
    ensures Run(m, n + k)
            == var o := Run(m, n); if o.status == Running then Run(o.machine, k) else o
    decreases n
  {
    if n > 0 {
      var o := Step(m);
      if o.status == Running {
        RunAdditive(o.machine, n - 1, k);
        assert n + k - 1 == (n - 1) + k;
      }
    }
  }

  /** Once the program has stopped, more fuel changes nothing. */
  lemma StoppedRunIsFinal(m: Machine, n: nat, n': nat)
    requires WellFormed(m) && n <= n' && Run(m, n).status != Running
    ensures Run(m, n') == Run(m, n)
  {
    RunAdditive(m, n, n' - n);
  }
}
