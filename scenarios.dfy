/** Whole programs run from a freshly loaded memory image. */
module Scenarios {
  import opened PyList
  import opened Semantics
  import opened Properties

  /** LDI R0,8; LDI R1,9; MUL R0,R1; PRN R0; HLT prints 72 and halts after
      five iterations with R0 = 72 and R1 = 9. */
  lemma MultiplyProgram()
    ensures var o := Run(Boot([LDI, 0, 8, LDI, 1, 9, MUL, 0, 1, PRN, 0, HLT]), 5);
      o.status == Halted && o.machine.output == [72]
      && o.machine.reg[0] == 72 && o.machine.reg[1] == 9 && o.machine.pc == 11
  {
  }

  /** LDI R2,15; LDI R0,5; LDI R1,5; CMP R0,R1; JEQ R2; HLT; PRN R0; HLT.
      Both registers hold 5, but CMP compares the operand bytes 0 and 1, so
      the flags say "less", JEQ falls through to the HLT at 14 and nothing is
      printed. */
  lemma CompareBranchProgram()
    ensures var o := Run(Boot([LDI, 2, 15, LDI, 0, 5, LDI, 1, 5, CMP, 0, 1, JEQ, 2, HLT, PRN, 0, HLT]), 6);
      o.status == Halted && o.machine.output == [] && o.machine.fl == FlagLess
      && o.machine.pc == 14 && o.machine.reg[0] == o.machine.reg[1] == 5
  {
    var m0 := Boot([LDI, 2, 15, LDI, 0, 5, LDI, 1, 5, CMP, 0, 1, JEQ, 2, HLT, PRN, 0, HLT]);
    var m1 := m0.(reg := m0.reg[2 := 15], pc := 3);
    var m2 := m1.(reg := m1.reg[0 := 5], pc := 6);
    var m3 := m2.(reg := m2.reg[1 := 5], pc := 9);
    var m4 := m3.(fl := FlagLess, pc := 12);
    var m5 := m4.(pc := 14);
    assert Step(m0) == Outcome(m1, Running) by { assert Fetch(m0) == Some((LDI, 2, 15)); }
    assert Step(m1) == Outcome(m2, Running) by { assert Fetch(m1) == Some((LDI, 0, 5)); }
    assert Step(m2) == Outcome(m3, Running) by { assert Fetch(m2) == Some((LDI, 1, 5)); }
    assert Step(m3) == Outcome(m4, Running) by { assert Fetch(m3) == Some((CMP, 0, 1)); }
    assert Step(m4) == Outcome(m5, Running) by { assert Fetch(m4) == Some((JEQ, 2, HLT)); }
    assert Step(m5) == Outcome(m5, Halted) by { assert Fetch(m5).value.0 == HLT; }
  }

  /** A program made of one byte outside the table stops on the first
      iteration, reporting that byte, with the machine exactly as loaded. */
  lemma UnknownOpcodeProgram(op: int, fuel: nat)
    requires op !in {LDI, PRN, MUL, PUSH, POP, CMP, JMP, JEQ, HLT} && fuel >= 1
    ensures Run(Boot([op]), fuel) == Outcome(Boot([op]), UnknownOpcode(op))
  {
  }
}
