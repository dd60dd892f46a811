/**
 * THUMB format 3, move/compare/add/subtract with an 8-bit immediate
 * (cpu/thumb/Immediate.kt). Rd is bits 8-10 and the immediate bits 0-7.
 * Each handler is a function on the machine state and a method on `Cpu`
 * proved to have that function's effect; the lemmas say what the source
 * promises of each.
 */
module ThumbImmediate {
  import opened Extensions
  import opened CpuFlags
  import opened CpuUtils
  import opened CpuModel
  import opened Processor

  /** `instr.destination`: bits 8-10. */
  function Destination(instr: bv32): (rd: nat)
    ensures rd < 8
  {
    ((instr >> 8) & 7) as nat
  }

  /** `instr.immediate`: bits 0-7. */
  function Immediate(instr: bv32): (imm: bv32)
    ensures imm < 0x100
  {
    instr & 0xFF
  }

  /** `thumbMovImm`: Rd = imm8, N and Z from it. */
  function MovImm(m: Machine, instr: bv32): (r: Machine)
    requires Wf(m)
    ensures Wf(r)
  {
    var imm := Immediate(instr);
    m.(registers := m.registers[Destination(instr) := imm], cpsr := SetNZ(m.cpsr, imm))
  }

  /** `thumbCmpImm`: the flags of Rd - imm8, with no register written. */
  function CmpImm(m: Machine, instr: bv32): (r: Machine)
    requires Wf(m)
  {
    var imm := Immediate(instr);
    var rd := m.registers[Destination(instr)];
    m.(cpsr := SubtractFlags(m.cpsr, rd, imm, Minus(rd, imm)))
  }

  /** `thumbSubImm`: Rd = Rd - imm8, with the flags of the subtraction. */
  function SubImm(m: Machine, instr: bv32): (r: Machine)
    requires Wf(m)
    ensures Wf(r)
  {
    var imm := Immediate(instr);
    var rd := m.registers[Destination(instr)];
    m.(registers := m.registers[Destination(instr) := Minus(rd, imm)], cpsr := SubtractFlags(m.cpsr, rd, imm, Minus(rd, imm)))
  }

  /** `thumbAddImm`: Rd = Rd + imm8, with the flags of the addition. */
  function AddImm(m: Machine, instr: bv32): (r: Machine)
    requires Wf(m)
    ensures Wf(r)
  {
    var imm := Immediate(instr);
    var rd := m.registers[Destination(instr)];
    m.(registers := m.registers[Destination(instr) := Plus(rd, imm)], cpsr := AddFlags(m.cpsr, rd, imm, Plus(rd, imm)))
  }

  method RunMovImm(cpu: Cpu, instr: bv32)
    requires cpu.Valid()
    modifies cpu
    ensures cpu.Valid() && cpu.View() == MovImm(old(cpu.View()), instr)
  {
    var imm := Immediate(instr);
    cpu.registers := cpu.registers[Destination(instr) := imm];
    cpu.cpsr := SetNZ(cpu.cpsr, imm);
  }

  method RunCmpImm(cpu: Cpu, instr: bv32)
    requires cpu.Valid()
    modifies cpu
    ensures cpu.Valid() && cpu.View() == CmpImm(old(cpu.View()), instr)
  {
    var imm := Immediate(instr);
    var rd := cpu.registers[Destination(instr)];
    var result := Minus(rd, imm);
    cpu.cpsr := SubtractFlags(cpu.cpsr, rd, imm, result);
  }

  method RunSubImm(cpu: Cpu, instr: bv32)
    requires cpu.Valid()
    modifies cpu
    ensures cpu.Valid() && cpu.View() == SubImm(old(cpu.View()), instr)
  {
    var imm := Immediate(instr);
    var rd := cpu.registers[Destination(instr)];
    var result := Minus(rd, imm);
    cpu.registers := cpu.registers[Destination(instr) := result];
    cpu.cpsr := SubtractFlags(cpu.cpsr, rd, imm, result);
  }

  method RunAddImm(cpu: Cpu, instr: bv32)
    requires cpu.Valid()
    modifies cpu
    ensures cpu.Valid() && cpu.View() == AddImm(old(cpu.View()), instr)
  {
    var imm := Immediate(instr);
    var rd := cpu.registers[Destination(instr)];
    var result := Plus(rd, imm);
    cpu.registers := cpu.registers[Destination(instr) := result];
    cpu.cpsr := AddFlags(cpu.cpsr, rd, imm, result);
  }

  /** The flags MOV leaves: N clear (an 8-bit immediate is never negative), Z iff it is zero, C and V kept. */
  lemma MovImmFlags(m: Machine, instr: bv32)
    requires Wf(m)
    ensures Flags(MovImm(m, instr).cpsr) == Flags(m.cpsr).(n := false, z := Immediate(instr) == 0)
  {
    var imm := Immediate(instr);
    assert MovImm(m, instr).cpsr == SetNZ(m.cpsr, imm);
    ByteNotNegative(imm);
    FlagsOfSetNZ(m.cpsr, imm);
  }

  lemma ByteNotNegative(b: bv32)
    requires b < 0x100
    ensures !Negative(b)
  {
  }

  /** MOV writes the immediate to Rd. */
  lemma MovImmWrites(m: Machine, instr: bv32)
    requires Wf(m)
    ensures MovImm(m, instr).registers[Destination(instr)] == Immediate(instr)
  {
  }

  /** CMP writes no register and sets exactly the flags SUB would. */
  lemma CmpImmIsSubImmFlags(m: Machine, instr: bv32)
    requires Wf(m)
    ensures CmpImm(m, instr) == SubImm(m, instr).(registers := m.registers)
  {
  }

  /** The flag writes of CMP as a single status-word update. */
  lemma CmpImmSetsNZCV(m: Machine, instr: bv32)
    requires Wf(m)
    ensures var rd := m.registers[Destination(instr)]; var imm := Immediate(instr);
      Flags(CmpImm(m, instr).cpsr) ==
        Flags(m.cpsr).(n := Negative(Minus(rd, imm)), z := Minus(rd, imm) == 0, c := NoBorrow(rd, imm, true), v := SubOverflow(Minus(rd, imm), rd, imm))
  {
    var rd := m.registers[Destination(instr)];
    var imm := Immediate(instr);
    assert CmpImm(m, instr).cpsr == SetNZCV(m.cpsr, Minus(rd, imm), NoBorrow(rd, imm, true), SubOverflow(Minus(rd, imm), rd, imm));
    FlagsOfSetNZCV(m.cpsr, Minus(rd, imm), NoBorrow(rd, imm, true), SubOverflow(Minus(rd, imm), rd, imm));
  }

  /**
   * The flags of CMP Rd, #imm: Z iff Rd equals the immediate, C iff Rd is
   * not below it (unsigned), N and V from the difference.
   */
  lemma CmpImmFlags(m: Machine, instr: bv32)
    requires Wf(m)
    ensures var rd := m.registers[Destination(instr)]; var imm := Immediate(instr);
      Flags(CmpImm(m, instr).cpsr) ==
        Flags(m.cpsr).(n := Negative(Minus(rd, imm)), z := rd == imm, c := rd >= imm, v := SubOverflow(Minus(rd, imm), rd, imm))
  {
    var rd := m.registers[Destination(instr)];
    var imm := Immediate(instr);
    CmpImmSetsNZCV(m, instr);
    MinusZero(rd, imm);
  }

  lemma CmpImmKeepsControl(m: Machine, instr: bv32)
    requires Wf(m)
    ensures SameControl(CmpImm(m, instr).cpsr, m.cpsr)
  {
    var rd := m.registers[Destination(instr)];
    var imm := Immediate(instr);
    assert CmpImm(m, instr).cpsr == SetNZCV(m.cpsr, Minus(rd, imm), NoBorrow(rd, imm, true), SubOverflow(Minus(rd, imm), rd, imm));
    SetNZCVKeepsControl(m.cpsr, Minus(rd, imm), NoBorrow(rd, imm, true), SubOverflow(Minus(rd, imm), rd, imm));
  }

  /** ADD Rd, #imm followed by SUB Rd, #imm gives Rd back, and no other register changes. */
  lemma SubImmUndoesAddImm(m: Machine, instr: bv32)
    requires Wf(m)
    ensures SubImm(AddImm(m, instr), instr).registers == m.registers
  {
    var d := Destination(instr);
    var imm := Immediate(instr);
    var rd := m.registers[d];
    var a := AddImm(m, instr);
    assert a.registers == m.registers[d := Plus(rd, imm)];
    MinusPlus(rd, imm);
    assert SubImm(a, instr).registers == a.registers[d := Minus(Plus(rd, imm), imm)];
    assert m.registers[d := Plus(rd, imm)][d := rd] == m.registers;
  }

  /** The flags of ADD Rd, #imm: Z iff the wrapped sum is zero, C on carry-out, V on signed overflow. */
  lemma AddImmFlags(m: Machine, instr: bv32)
    requires Wf(m)
    ensures var rd := m.registers[Destination(instr)]; var imm := Immediate(instr); var sum := Plus(rd, imm);
      Flags(AddImm(m, instr).cpsr) ==
        Flags(m.cpsr).(n := Negative(sum), z := sum == 0, c := Carry(rd, imm, false), v := AddOverflow(sum, rd, imm))
  {
    var rd := m.registers[Destination(instr)];
    var imm := Immediate(instr);
    assert AddImm(m, instr).cpsr == AddFlags(m.cpsr, rd, imm, Plus(rd, imm));
    FlagsOfAdd(m.cpsr, rd, imm, Plus(rd, imm));
  }
}
