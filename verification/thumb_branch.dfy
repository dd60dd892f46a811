/**
 * THUMB branches and the software interrupt (cpu/thumb/Branch.kt). When a
 * handler runs, pc is four bytes past the instruction. The conditional
 * branch asks the condition evaluator (module Conditions) about bits 8-11;
 * the long branch with link is a pair of instructions, the first (bit 11
 * clear) leaving the upper part of the target in lr and the second (bit 11
 * set) adding the lower part and jumping.
 */
module ThumbBranch {
  import opened Wrappers
  import opened Extensions
  import opened CpuFlags
  import opened CpuModes
  import opened CpuUtils
  import opened Memory
  import opened CpuModel
  import opened CpuProperties
  import opened CpuBanks
  import opened Processor
  import opened BarrelShifter
  import opened SignExtend
  import opened Conditions
  import ArmBranch

  /** The condition field, bits 8-11. */
  function ConditionField(instr: bv32): (c: nat)
    ensures c < 16
  {
    ((instr >> 8) & 0xF) as nat
  }

  /** `(instr and 0xFF).toByte().toInt() shl 1`. */
  function CondOffset(instr: bv32): bv32
  {
    SignExtend8(instr & 0xFF) << 1
  }

  /**
   * `thumbConditionalBranch`: when the condition holds, pc += offset and the
   * THUMB refill; otherwise nothing. A reserved condition is an error.
   */
  function CondBranch(m: Machine, mem: Mem, instr: bv32): (r: Result<Machine>)
    requires Wf(m)
    ensures r.Ok? ==> Wf(r.value)
  {
    match IsCondition(m.cpsr, ConditionField(instr))
    case Err(e) => Err(e)
    case Ok(taken) =>
      if taken then Ok(Taken(m, mem, instr)) else Ok(m)
  }

  /** The taken branch: pc += offset and the THUMB refill. */
  function Taken(m: Machine, mem: Mem, instr: bv32): (r: Machine)
    requires Wf(m)
    ensures Wf(r)
  {
    ThumbRefill(WriteRegister(m, 15, Plus(Pc(m), CondOffset(instr))), mem)
  }

  /** `((instr and 0x7FF) shl 5).toShort().toInt() shr 4`. */
  function BOffset(instr: bv32): bv32
  {
    Sar(SignExtend16((instr & 0x7FF) << 5), 4)
  }

  /** `thumbBranch`: pc += offset, then the THUMB refill. */
  function B(m: Machine, mem: Mem, instr: bv32): (r: Machine)
    requires Wf(m)
    ensures Wf(r)
  {
    ThumbRefill(WriteRegister(m, 15, Plus(Pc(m), BOffset(instr))), mem)
  }

  /** The first half's offset, `((instr and 0x7FF) shl 5).toShort().toInt() shl 7`. */
  function HighOffset(instr: bv32): bv32
  {
    SignExtend16((instr & 0x7FF) << 5) << 7
  }

  /** The second half's link, `(pc - 2) or 1`: the instruction after the pair, with bit 0 marking THUMB. */
  function LowLink(pc: bv32): bv32
  {
    (pc - 2) | 1
  }

  /** The second half's offset, `(instr and 0x7FF) shl 1`. */
  function LowOffset(instr: bv32): bv32
  {
    (instr & 0x7FF) << 1
  }

  /** The first half of BL: lr = pc + offset; pc is not changed. */
  function BlHigh(m: Machine, instr: bv32): (r: Machine)
    requires Wf(m)
    ensures Wf(r)
  {
    WriteRegister(m, 14, Plus(Pc(m), HighOffset(instr)))
  }

  /** The second half of BL: jump to lr + offset with lr = `(pc - 2) or 1`, and the THUMB refill. */
  function BlLow(m: Machine, mem: Mem, instr: bv32): (r: Machine)
    requires Wf(m)
    ensures Wf(r)
  {
    var to := Plus(m.registers[14], LowOffset(instr));
    ThumbRefill(m.(registers := m.registers[14 := LowLink(Pc(m))][15 := to]), mem)
  }

  /** `thumbLongBranchLink`: bit 11 selects the second half. */
  function LongBranchLink(m: Machine, mem: Mem, instr: bv32): (r: Machine)
    requires Wf(m)
    ensures Wf(r)
  {
    if Bit(instr, 11) then BlLow(m, mem, instr) else BlHigh(m, instr)
  }

  /**
   * `thumbSwi`: switch to Supervisor mode, lr = pc - 2, pc = 8, spsr = the
   * old cpsr, I set, then `changeState(0)`: ARM state, T clear, ARM refill.
   */
  function Swi(m: Machine, mem: Mem): (r: Machine)
    requires Wf(m)
    ensures Wf(r)
  {
    var s := SetCpuMode(m, Supervisor);
    ChangeState(ArmBranch.SupervisorEntry(s, Minus(Pc(s), 2), m.cpsr), mem, false)
  }

  /** A THUMB refill leaves pc one halfword past the old pc aligned down. */
  lemma ThumbRefillLandsAt(m: Machine, mem: Mem)
    requires Wf(m)
    ensures Pc(ThumbRefill(m, mem)) == RefillPc(Thumb, Pc(m))
  {
  }

  /** A conditional branch fails exactly on the reserved condition 0xF. */
  lemma CondBranchFailsOnlyOnReserved(m: Machine, mem: Mem, instr: bv32)
    requires Wf(m)
    ensures CondBranch(m, mem, instr).Err? <==> ConditionField(instr) == 0xF
  {
  }

  /** When the condition fails, nothing changes. */
  lemma CondBranchNotTaken(m: Machine, mem: Mem, instr: bv32)
    requires Wf(m) && IsCondition(m.cpsr, ConditionField(instr)) == Ok(false)
    ensures CondBranch(m, mem, instr) == Ok(m)
  {
  }

  /** When it holds, pc lands at pc + 2 * the signed 8-bit offset, and no other register and no flag changes. */
  lemma CondBranchTaken(m: Machine, mem: Mem, instr: bv32)
    requires Wf(m) && IsCondition(m.cpsr, ConditionField(instr)) == Ok(true)
    ensures var r := CondBranch(m, mem, instr);
      r.Ok? && Pc(r.value) == RefillPc(Thumb, Pc(m) + TwiceSignedByte(instr)) &&
      r.value.registers[..15] == m.registers[..15] && r.value.cpsr == m.cpsr
  {
    assert CondBranch(m, mem, instr) == Ok(Taken(m, mem, instr));
    TakenLandsAt(m, mem, instr);
    TakenKeeps(m, mem, instr);
  }

  lemma TakenLandsAt(m: Machine, mem: Mem, instr: bv32)
    requires Wf(m)
    ensures Pc(Taken(m, mem, instr)) == RefillPc(Thumb, Pc(m) + TwiceSignedByte(instr))
  {
    TakenLandsAtSum(m, mem, instr);
    CondOffsetIsTwiceSignedByte(instr);
  }

  lemma TakenLandsAtSum(m: Machine, mem: Mem, instr: bv32)
    requires Wf(m)
    ensures Pc(Taken(m, mem, instr)) == RefillPc(Thumb, Pc(m) + CondOffset(instr))
  {
    ThumbRefillLandsAt(WriteRegister(m, 15, Plus(Pc(m), CondOffset(instr))), mem);
  }

  /** Two times the signed 8-bit immediate as a 32-bit word: twice the byte, less 512 when its bit 7 is set. */
  function TwiceSignedByte(instr: bv32): bv32
  {
    var doubled := (instr & 0xFF) << 1;
    if instr & 0x80 == 0 then doubled else doubled - 0x200
  }

  /** `toByte().toInt() shl 1` doubles the immediate read as a signed byte. */
  lemma CondOffsetIsTwiceSignedByte(instr: bv32)
    ensures CondOffset(instr) == TwiceSignedByte(instr)
  {
  }

  lemma TakenKeeps(m: Machine, mem: Mem, instr: bv32)
    requires Wf(m)
    ensures Taken(m, mem, instr).registers[..15] == m.registers[..15] && Taken(m, mem, instr).cpsr == m.cpsr
  {
    var w := WriteRegister(m, 15, Plus(Pc(m), CondOffset(instr)));
    assert w.registers[..15] == m.registers[..15];
    ThumbRefillKeeps(w, mem);
  }

  /** The unconditional offset is the 11-bit immediate, sign-extended, times 2. */
  lemma BOffsetIsSignedHalfOffset(instr: bv32)
    ensures BOffset(instr) == SignExtend11(instr & 0x7FF) << 1
  {
    if instr & 0x400 != 0 {
      BOffsetNegative(instr);
    } else {
      BOffsetNonNegative(instr);
    }
  }

  lemma BOffsetNegative(instr: bv32)
    requires instr & 0x400 != 0
    ensures BOffset(instr) == ((instr & 0x7FF) | 0xFFFF_F800) << 1
  {
    var v := (instr & 0x7FF) << 5;
    assert SignExtend16(v) == v | 0xFFFF_0000;
    NegativeShiftBack(instr);
  }

  lemma BOffsetNonNegative(instr: bv32)
    requires instr & 0x400 == 0
    ensures BOffset(instr) == (instr & 0x7FF) << 1
  {
    var v := (instr & 0x7FF) << 5;
    assert SignExtend16(v) == v;
    NonNegativeShiftBack(instr);
  }

  lemma NegativeShiftBack(instr: bv32)
    requires instr & 0x400 != 0
    ensures Sar(((instr & 0x7FF) << 5) | 0xFFFF_0000, 4) == ((instr & 0x7FF) | 0xFFFF_F800) << 1
  {
    var w := ((instr & 0x7FF) << 5) | 0xFFFF_0000;
    assert Negative(w);
    assert Sar(w, 4) == !(!w >> 4);
    RawNegativeShiftBack(instr);
  }

  lemma RawNegativeShiftBack(instr: bv32)
    requires instr & 0x400 != 0
    ensures !(!(((instr & 0x7FF) << 5) | 0xFFFF_0000) >> 4) == ((instr & 0x7FF) | 0xFFFF_F800) << 1
  {
  }

  lemma NonNegativeShiftBack(instr: bv32)
    requires instr & 0x400 == 0
    ensures Sar((instr & 0x7FF) << 5, 4) == (instr & 0x7FF) << 1
  {
    var w := (instr & 0x7FF) << 5;
    assert !Negative(w);
    assert Sar(w, 4) == w >> 4;
  }

  /** B lands at pc + 2 * the signed 11-bit offset. */
  lemma BLandsAt(m: Machine, mem: Mem, instr: bv32)
    requires Wf(m)
    ensures Pc(B(m, mem, instr)) == RefillPc(Thumb, Pc(m) + (SignExtend11(instr & 0x7FF) << 1))
  {
    BOffsetIsSignedHalfOffset(instr);
    ThumbRefillLandsAt(WriteRegister(m, 15, Plus(Pc(m), BOffset(instr))), mem);
  }

  /** The first half's offset is the 11-bit immediate, sign-extended, shifted up by 12. */
  lemma HighOffsetIsSigned(instr: bv32)
    ensures HighOffset(instr) == SignExtend11(instr & 0x7FF) << 12
  {
  }

  /** The first half writes lr = pc + the upper offset and nothing else. */
  lemma BlHighSetsLink(m: Machine, instr: bv32)
    requires Wf(m)
    ensures BlHigh(m, instr) == m.(registers := m.registers[14 := Pc(m) + (SignExtend11(instr & 0x7FF) << 12)])
  {
    HighOffsetIsSigned(instr);
  }

  /** The second half jumps to lr + 2 * imm11 and leaves lr = `(pc - 2) or 1`. */
  lemma BlLowJumps(m: Machine, mem: Mem, instr: bv32)
    requires Wf(m)
    ensures var r := BlLow(m, mem, instr);
      Pc(r) == RefillPc(Thumb, Plus(m.registers[14], LowOffset(instr))) && r.registers[14] == LowLink(Pc(m))
  {
    var w := m.(registers := m.registers[14 := LowLink(Pc(m))][15 := Plus(m.registers[14], LowOffset(instr))]);
    ThumbRefillLandsAt(w, mem);
    ThumbRefillKeeps(w, mem);
    assert w.registers[14] == w.registers[..15][14];
  }

  /**
   * The pair: the first half at pc `p`, the step to the second half (pc
   * p + 2), and the second half jump to p + the upper offset + the lower
   * offset, with lr = p | 1, the address after the pair.
   */
  lemma BlPairJumps(m: Machine, mem: Mem, hi: bv32, lo: bv32)
    requires Wf(m)
    ensures var r := BlLow(ThumbStep(BlHigh(m, hi), mem), mem, lo);
      Pc(r) == RefillPc(Thumb, Plus(Plus(Pc(m), HighOffset(hi)), LowOffset(lo))) &&
      r.registers[14] == Pc(m) | 1
  {
    var s := ThumbStep(BlHigh(m, hi), mem);
    StepAfterHigh(m, mem, hi);
    BlLowJumps(s, mem, lo);
    LinkAfterStep(Pc(m));
  }

  /** Between the halves: lr holds pc + the upper offset, and the step has advanced pc by 2. */
  lemma StepAfterHigh(m: Machine, mem: Mem, hi: bv32)
    requires Wf(m)
    ensures var s := ThumbStep(BlHigh(m, hi), mem);
      s.registers[14] == Plus(Pc(m), HighOffset(hi)) && Pc(s) == Pc(m) + 2
  {
    var h := BlHigh(m, hi);
    ThumbStepShifts(h, mem);
    assert ThumbStep(h, mem).registers[14] == ThumbStep(h, mem).registers[..15][14];
    assert h.registers[14] == h.registers[..15][14];
  }

  /** The two offsets of the pair: the upper 11 bits sign-extended and shifted up by 12, the lower 11 bits doubled. */
  lemma PairOffsets(hi: bv32, lo: bv32)
    ensures HighOffset(hi) == SignExtend11(hi & 0x7FF) << 12
    ensures LowOffset(lo) == (lo & 0x7FF) << 1
  {
    HighOffsetIsSigned(hi);
  }

  lemma LinkAfterStep(p: bv32)
    ensures LowLink(p + 2) == p | 1
  {
  }

  /**
   * SWI enters Supervisor mode in ARM state with the old cpsr in spsr, I set,
   * T clear and every other flag kept.
   */
  lemma SwiStatus(m: Machine, mem: Mem)
    requires Wf(m)
    ensures var r := Swi(m, mem);
      r.mode == Supervisor && r.state == Arm && r.spsr == m.cpsr &&
      Flags(r.cpsr) == Flags(m.cpsr).(i := true, t := false) &&
      r.cpsr & 0x1F == (if m.mode == Supervisor then m.cpsr & 0x1F else 0x13)
  {
    var s := SetCpuMode(m, Supervisor);
    SetCpuModeStatus(m, Supervisor);
    SwitchKeepsRest(m, Supervisor);
    var e := ArmBranch.SupervisorEntry(s, Minus(Pc(s), 2), m.cpsr);
    InterruptFlags(m.cpsr, s.cpsr);
    var t := e.(state := Arm, cpsr := Set(e.cpsr, T, false));
    assert Swi(m, mem) == ArmRefill(t, mem);
    ArmRefillKeeps(t, mem);
  }

  /** SWI leaves lr = pc - 2 (the instruction after the SWI), r0-r7, and execution at the vector 8 (pc 0xC). */
  lemma SwiRegisters(m: Machine, mem: Mem)
    requires Wf(m)
    ensures var r := Swi(m, mem);
      r.registers[14] == Pc(m) - 2 && Pc(r) == 0xC && (forall i :: 0 <= i < 8 ==> r.registers[i] == m.registers[i])
  {
    var s := SetCpuMode(m, Supervisor);
    var e := ArmBranch.SupervisorEntry(s, Minus(Pc(s), 2), m.cpsr);
    var t := e.(state := Arm, cpsr := Set(e.cpsr, T, false));
    assert Swi(m, mem) == ArmRefill(t, mem);
    SwiEntryRegisters(m, s, e);
    ArmRefillKeeps(t, mem);
    ArmBranch.ArmRefillLandsAt(t, mem);
    ArmBranch.RegistersBelow15(ArmRefill(t, mem).registers, t.registers);
  }

  lemma SwiEntryRegisters(m: Machine, s: Machine, e: Machine)
    requires Wf(m) && s == SetCpuMode(m, Supervisor) && e == ArmBranch.SupervisorEntry(s, Minus(Pc(s), 2), m.cpsr)
    ensures e.registers[14] == Pc(m) - 2 && Pc(e) == 8 && (forall i :: 0 <= i < 8 ==> e.registers[i] == m.registers[i])
  {
    SwitchKeepsLow(m, Supervisor);
  }

  method RunCondBranch(cpu: Cpu, instr: bv32) returns (ok: bool)
    requires cpu.Valid()
    modifies cpu
    ensures ok == CondBranch(old(cpu.View()), cpu.bus.memory, instr).Ok?
    ensures cpu.Valid() && cpu.View() == if ok then CondBranch(old(cpu.View()), cpu.bus.memory, instr).value else old(cpu.View())
  {
    var holds := IsCondition(cpu.cpsr, ConditionField(instr));
    if holds.Err? {
      return false;
    }
    if holds.value {
      cpu.registers := cpu.registers[15 := Plus(cpu.registers[15], CondOffset(instr))];
      cpu.ThumbRefill();
    }
    ok := true;
  }

  method RunB(cpu: Cpu, instr: bv32)
    requires cpu.Valid()
    modifies cpu
    ensures cpu.Valid() && cpu.View() == B(old(cpu.View()), cpu.bus.memory, instr)
  {
    cpu.registers := cpu.registers[15 := Plus(cpu.registers[15], BOffset(instr))];
    cpu.ThumbRefill();
  }

  method RunLongBranchLink(cpu: Cpu, instr: bv32)
    requires cpu.Valid()
    modifies cpu
    ensures cpu.Valid() && cpu.View() == LongBranchLink(old(cpu.View()), cpu.bus.memory, instr)
  {
    if Bit(instr, 11) {
      var to := Plus(cpu.registers[14], LowOffset(instr));
      cpu.registers := cpu.registers[14 := LowLink(cpu.registers[15])][15 := to];
      cpu.ThumbRefill();
    } else {
      cpu.registers := cpu.registers[14 := Plus(cpu.registers[15], HighOffset(instr))];
    }
  }

  method RunSwi(cpu: Cpu)
    requires cpu.Valid()
    modifies cpu
    ensures cpu.Valid() && cpu.View() == Swi(old(cpu.View()), cpu.bus.memory)
  {
    var saved := cpu.cpsr;
    cpu.SetCpuMode(Supervisor);
    var link := Minus(cpu.registers[15], 2);
    cpu.registers := cpu.registers[14 := link][15 := 8];
    cpu.spsr := saved;
    cpu.SetFlag(I, true);
    cpu.ChangeState(false);
  }
}
