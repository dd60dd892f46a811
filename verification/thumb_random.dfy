/**
 * THUMB formats 1 and 2 (cpu/thumb/Random.kt): `thumbMovs`, a move of a low
 * register shifted by a five-bit immediate, and `thumbAddSub`, an add or
 * subtract of a register or a three-bit immediate. Shift type 3 makes
 * `thumbMovs` throw; here it is the `Err` result and the state is left alone.
 */
module ThumbRandom {
  import opened Wrappers
  import opened Extensions
  import opened CpuFlags
  import opened CpuUtils
  import opened CpuModel
  import opened BarrelShifter
  import opened Processor
  import opened ThumbFields

  /** Bits 11-12 of a shift-by-immediate instruction: 0 LSL, 1 LSR, 2 ASR; 3 is not a shift. */
  function ShiftType(instr: bv32): (t: bv32)
    ensures t < 4
  {
    (instr >> 11) & 3
  }

  /** Bits 6-10: the shift amount. */
  function ShiftAmount(instr: bv32): (amount: nat)
    ensures amount < 32
  {
    ((instr >> 6) & 0x1F) as nat
  }

  /** The shifter result of `thumbMovs`: LSR and ASR by an immediate 0 shift by 32. */
  function MovsShift(instr: bv32, src: bv32, c: bool): Shifted
    requires ShiftType(instr) < 3
  {
    var amount := ShiftAmount(instr);
    if ShiftType(instr) == 0 then LogicalLeft(src, amount, c)
    else if ShiftType(instr) == 1 then LogicalRight(src, if amount == 0 then 32 else amount, c)
    else ArithmeticRight(src, if amount == 0 then 32 else amount, c)
  }

  /** C from the shifter, then N and Z from the result: the flag writes of `thumbMovs`. */
  function SetCNZ(cpsr: bv32, c: bool, result: bv32): bv32
  {
    SetNZ(Set(cpsr, C, c), result)
  }

  lemma FlagsOfSetCNZ(cpsr: bv32, c: bool, result: bv32)
    ensures Flags(SetCNZ(cpsr, c, result)) == Flags(cpsr).(n := Negative(result), z := result == 0, c := c)
  {
    FlagsOfSetC(cpsr, c);
    FlagsOfSetNZ(Set(cpsr, C, c), result);
  }

  /** `thumbMovs`: Rd (bits 0-2) = Rs (bits 3-5) shifted, the shifter carry kept and copied to C, N and Z set. */
  function Movs(m: Machine, instr: bv32): (r: Result<Machine>)
    requires Wf(m)
    ensures r.Ok? ==> Wf(r.value)
  {
    if ShiftType(instr) == 3 then Err("shift type 3 is not a THUMB shift")
    else Ok(MovsEffect(m, instr))
  }

  function MovsEffect(m: Machine, instr: bv32): (r: Machine)
    requires Wf(m) && ShiftType(instr) < 3
    ensures Wf(r)
  {
    var s := MovsShift(instr, m.registers[LowRegister(instr, 3)], Get(m.cpsr, C));
    m.(registers := m.registers[LowRegister(instr, 0) := s.value], shifterCarry := s.carry,
       cpsr := SetCNZ(m.cpsr, s.carry, s.value))
  }

  /** The second operand of `thumbAddSub`: bits 6-8 as a value when bit 10 is set, else the register they name. */
  function AddSubOperand(m: Machine, instr: bv32): bv32
    requires Wf(m)
  {
    if Bit(instr, 10) then (instr >> 6) & 7 else m.registers[LowRegister(instr, 6)]
  }

  /** V, then C, then N and Z: the flag writes of `thumbAddSub` in source order. */
  function SetVCNZ(cpsr: bv32, v: bool, c: bool, result: bv32): bv32
  {
    SetNZ(Set(Set(cpsr, V, v), C, c), result)
  }

  lemma FlagsOfSetVCNZ(cpsr: bv32, v: bool, c: bool, result: bv32)
    ensures Flags(SetVCNZ(cpsr, v, c, result)) == Flags(cpsr).(n := Negative(result), z := result == 0, c := c, v := v)
  {
    FlagsOfSetV(cpsr, v);
    FlagsOfSetC(Set(cpsr, V, v), c);
    FlagsOfSetNZ(Set(Set(cpsr, V, v), C, c), result);
  }

  lemma SetVCNZKeepsControl(cpsr: bv32, v: bool, c: bool, result: bv32)
    ensures SameControl(SetVCNZ(cpsr, v, c, result), cpsr)
  {
    SetKeepsControl(cpsr, V, v);
    SetKeepsControl(Set(cpsr, V, v), C, c);
    SetNZKeepsControl(Set(Set(cpsr, V, v), C, c), result);
  }

  /** `thumbAddSub`: Rd (bits 0-2) = Rs (bits 3-5) minus (bit 9) or plus the operand, with the flags of that operation. */
  function AddSub(m: Machine, instr: bv32): (r: Machine)
    requires Wf(m)
    ensures Wf(r)
  {
    if Bit(instr, 9) then SubEffect(m, instr) else AddEffect(m, instr)
  }

  function SubEffect(m: Machine, instr: bv32): (r: Machine)
    requires Wf(m)
    ensures Wf(r)
  {
    var rn := AddSubOperand(m, instr);
    var src := m.registers[LowRegister(instr, 3)];
    var result := Minus(src, rn);
    m.(registers := m.registers[LowRegister(instr, 0) := result],
       cpsr := SetVCNZ(m.cpsr, SubOverflow(result, src, rn), NoBorrow(src, rn, true), result))
  }

  function AddEffect(m: Machine, instr: bv32): (r: Machine)
    requires Wf(m)
    ensures Wf(r)
  {
    var rn := AddSubOperand(m, instr);
    var src := m.registers[LowRegister(instr, 3)];
    var result := Plus(src, rn);
    m.(registers := m.registers[LowRegister(instr, 0) := result],
       cpsr := SetVCNZ(m.cpsr, AddOverflow(result, src, rn), Carry(src, rn, false), result))
  }

  /** Shift type 3 is the only failing case. */
  lemma MovsFailsOnlyOnType3(m: Machine, instr: bv32)
    requires Wf(m)
    ensures Movs(m, instr).Err? <==> ShiftType(instr) == 3
  {
  }

  /** MOVS LSL #0 copies Rs to Rd and leaves C as it was. */
  lemma MovsLslZero(m: Machine, instr: bv32)
    requires Wf(m) && ShiftType(instr) == 0 && ShiftAmount(instr) == 0
    ensures var r := MovsEffect(m, instr);
      r.registers[LowRegister(instr, 0)] == m.registers[LowRegister(instr, 3)] && Get(r.cpsr, C) == Get(m.cpsr, C)
  {
    var src := m.registers[LowRegister(instr, 3)];
    var c := Get(m.cpsr, C);
    assert MovsShift(instr, src, c) == Shifted(src, c);
    MovsFlagsAre(m, instr);
  }

  /** MOVS LSR #0 and ASR #0 shift by 32. */
  lemma MovsZeroMeans32(m: Machine, instr: bv32)
    requires Wf(m) && (ShiftType(instr) == 1 || ShiftType(instr) == 2) && ShiftAmount(instr) == 0
    ensures var src := m.registers[LowRegister(instr, 3)]; var c := Get(m.cpsr, C);
      MovsEffect(m, instr).registers[LowRegister(instr, 0)] ==
        (if ShiftType(instr) == 1 then LogicalRight(src, 32, c) else ArithmeticRight(src, 32, c)).value
  {
  }

  /** MOVS sets C to the shifter carry-out and N and Z from the written value; the control bits stay. */
  lemma MovsFlagsAre(m: Machine, instr: bv32)
    requires Wf(m) && ShiftType(instr) < 3
    ensures var s := MovsShift(instr, m.registers[LowRegister(instr, 3)], Get(m.cpsr, C)); var r := MovsEffect(m, instr);
      Flags(r.cpsr) == Flags(m.cpsr).(n := Negative(s.value), z := s.value == 0, c := s.carry) &&
      r.registers[LowRegister(instr, 0)] == s.value && r.shifterCarry == s.carry
  {
    var s := MovsShift(instr, m.registers[LowRegister(instr, 3)], Get(m.cpsr, C));
    assert MovsEffect(m, instr).cpsr == SetCNZ(m.cpsr, s.carry, s.value);
    FlagsOfSetCNZ(m.cpsr, s.carry, s.value);
  }

  /** SUB: Rd = Rs - operand, Z iff they are equal, C iff Rs >= operand unsigned, V on signed overflow. */
  lemma SubResult(m: Machine, instr: bv32)
    requires Wf(m) && Bit(instr, 9)
    ensures var rn := AddSubOperand(m, instr); var src := m.registers[LowRegister(instr, 3)]; var r := AddSub(m, instr);
      r.registers[LowRegister(instr, 0)] == Minus(src, rn) &&
      Flags(r.cpsr) == Flags(m.cpsr).(n := Negative(Minus(src, rn)), z := src == rn, c := src >= rn,
        v := SubOverflow(Minus(src, rn), src, rn))
  {
    var rn := AddSubOperand(m, instr);
    var src := m.registers[LowRegister(instr, 3)];
    SubSetsVCNZ(m, instr);
    MinusZero(src, rn);
  }

  lemma SubSetsVCNZ(m: Machine, instr: bv32)
    requires Wf(m)
    ensures var rn := AddSubOperand(m, instr); var src := m.registers[LowRegister(instr, 3)];
      Flags(SubEffect(m, instr).cpsr) == Flags(m.cpsr).(n := Negative(Minus(src, rn)), z := Minus(src, rn) == 0,
        c := NoBorrow(src, rn, true), v := SubOverflow(Minus(src, rn), src, rn))
  {
    var rn := AddSubOperand(m, instr);
    var src := m.registers[LowRegister(instr, 3)];
    var result := Minus(src, rn);
    assert SubEffect(m, instr).cpsr == SetVCNZ(m.cpsr, SubOverflow(result, src, rn), NoBorrow(src, rn, true), result);
    FlagsOfSetVCNZ(m.cpsr, SubOverflow(result, src, rn), NoBorrow(src, rn, true), result);
  }

  /** ADD: Rd = Rs + operand, C on unsigned carry-out, V on signed overflow. */
  lemma AddResult(m: Machine, instr: bv32)
    requires Wf(m) && !Bit(instr, 9)
    ensures var rn := AddSubOperand(m, instr); var src := m.registers[LowRegister(instr, 3)]; var r := AddSub(m, instr);
      r.registers[LowRegister(instr, 0)] == Plus(src, rn) &&
      Flags(r.cpsr) == Flags(m.cpsr).(n := Negative(Plus(src, rn)), z := Plus(src, rn) == 0, c := Carry(src, rn, false),
        v := AddOverflow(Plus(src, rn), src, rn))
  {
    var rn := AddSubOperand(m, instr);
    var src := m.registers[LowRegister(instr, 3)];
    var result := Plus(src, rn);
    assert AddEffect(m, instr).cpsr == SetVCNZ(m.cpsr, AddOverflow(result, src, rn), Carry(src, rn, false), result);
    FlagsOfSetVCNZ(m.cpsr, AddOverflow(result, src, rn), Carry(src, rn, false), result);
  }

  /** Bit 10 selects the three-bit immediate (at most 7) over a register. */
  lemma AddSubImmediateOperand(m: Machine, instr: bv32)
    requires Wf(m) && Bit(instr, 10)
    ensures AddSubOperand(m, instr) < 8
  {
  }

  /** ADD and SUB write Rd only and keep the control bits of cpsr. */
  lemma AddSubWritesOnlyRd(m: Machine, instr: bv32, i: nat)
    requires Wf(m) && i < 16 && i != LowRegister(instr, 0)
    ensures AddSub(m, instr).registers[i] == m.registers[i]
  {
    var d := LowRegister(instr, 0);
    var rn := AddSubOperand(m, instr);
    var src := m.registers[LowRegister(instr, 3)];
    if Bit(instr, 9) {
      assert AddSub(m, instr).registers == m.registers[d := Minus(src, rn)];
    } else {
      assert AddSub(m, instr).registers == m.registers[d := Plus(src, rn)];
    }
  }

  lemma AddSubKeepsControl(m: Machine, instr: bv32)
    requires Wf(m)
    ensures SameControl(AddSub(m, instr).cpsr, m.cpsr)
  {
    if Bit(instr, 9) {
      assert AddSub(m, instr) == SubEffect(m, instr);
      SubKeepsControl(m, instr);
    } else {
      assert AddSub(m, instr) == AddEffect(m, instr);
      AddKeepsControl(m, instr);
    }
  }

  lemma SubKeepsControl(m: Machine, instr: bv32)
    requires Wf(m)
    ensures SameControl(SubEffect(m, instr).cpsr, m.cpsr)
  {
    var rn := AddSubOperand(m, instr);
    var src := m.registers[LowRegister(instr, 3)];
    var result := Minus(src, rn);
    assert SubEffect(m, instr).cpsr == SetVCNZ(m.cpsr, SubOverflow(result, src, rn), NoBorrow(src, rn, true), result);
    SetVCNZKeepsControl(m.cpsr, SubOverflow(result, src, rn), NoBorrow(src, rn, true), result);
  }

  lemma AddKeepsControl(m: Machine, instr: bv32)
    requires Wf(m)
    ensures SameControl(AddEffect(m, instr).cpsr, m.cpsr)
  {
    var rn := AddSubOperand(m, instr);
    var src := m.registers[LowRegister(instr, 3)];
    var result := Plus(src, rn);
    assert AddEffect(m, instr).cpsr == SetVCNZ(m.cpsr, AddOverflow(result, src, rn), Carry(src, rn, false), result);
    SetVCNZKeepsControl(m.cpsr, AddOverflow(result, src, rn), Carry(src, rn, false), result);
  }

  /** `thumbMovs` on the processor; `false` where the source throws, with nothing changed. */
  method RunMovs(cpu: Cpu, instr: bv32) returns (ok: bool)
    requires cpu.Valid()
    modifies cpu
    ensures ok == Movs(old(cpu.View()), instr).Ok?
    ensures cpu.Valid() && cpu.View() == if ok then Movs(old(cpu.View()), instr).value else old(cpu.View())
  {
    if ShiftType(instr) == 3 {
      return false;
    }
    var s := MovsShift(instr, cpu.registers[LowRegister(instr, 3)], CpuFlags.Get(cpu.cpsr, C));
    cpu.registers := cpu.registers[LowRegister(instr, 0) := s.value];
    cpu.shifterCarry := s.carry;
    cpu.cpsr := SetCNZ(cpu.cpsr, s.carry, s.value);
    ok := true;
  }

  /** `thumbAddSub` on the processor. */
  method RunAddSub(cpu: Cpu, instr: bv32)
    requires cpu.Valid()
    modifies cpu
    ensures cpu.Valid() && cpu.View() == AddSub(old(cpu.View()), instr)
  {
    if Bit(instr, 9) {
      RunSub(cpu, instr);
    } else {
      RunAdd(cpu, instr);
    }
  }

  method RunSub(cpu: Cpu, instr: bv32)
    requires cpu.Valid()
    modifies cpu
    ensures cpu.Valid() && cpu.View() == SubEffect(old(cpu.View()), instr)
  {
    var rn := if Bit(instr, 10) then (instr >> 6) & 7 else cpu.registers[LowRegister(instr, 6)];
    var src := cpu.registers[LowRegister(instr, 3)];
    var result := Minus(src, rn);
    cpu.registers := cpu.registers[LowRegister(instr, 0) := result];
    cpu.cpsr := SetVCNZ(cpu.cpsr, SubOverflow(result, src, rn), NoBorrow(src, rn, true), result);
  }

  method RunAdd(cpu: Cpu, instr: bv32)
    requires cpu.Valid()
    modifies cpu
    ensures cpu.Valid() && cpu.View() == AddEffect(old(cpu.View()), instr)
  {
    var rn := if Bit(instr, 10) then (instr >> 6) & 7 else cpu.registers[LowRegister(instr, 6)];
    var src := cpu.registers[LowRegister(instr, 3)];
    var result := Plus(src, rn);
    cpu.registers := cpu.registers[LowRegister(instr, 0) := result];
    cpu.cpsr := SetVCNZ(cpu.cpsr, AddOverflow(result, src, rn), Carry(src, rn, false), result);
  }
}
