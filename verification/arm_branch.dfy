/**
 * ARM branches and the software interrupt (cpu/arm/Branch.kt). When a
 * handler runs, pc is already eight bytes past the instruction (the step
 * before it advanced pc), so a branch lands at `pc + offset` and BL's link
 * `pc - 4` is the address of the next instruction.
 */
module ArmBranch {
  import opened Extensions
  import opened CpuFlags
  import opened CpuModes
  import opened CpuUtils
  import opened Memory
  import opened CpuModel
  import opened CpuProperties
  import opened CpuBanks
  import opened Processor
  import opened BarrelShifter
  import opened SignExtend

  /** `Int.extend()`: the instruction shifted left by 8, then arithmetic-shifted right by 6. */
  function Extend(instr: bv32): bv32
  {
    Sar(instr << 8, 6)
  }

  /** The branch offset is the 24-bit immediate, sign-extended, times 4. */
  lemma ExtendIsSignedWordOffset(instr: bv32)
    ensures Extend(instr) == SignExtend24(instr & 0xFF_FFFF) << 2
  {
    if instr & 0x80_0000 != 0 {
      ExtendNegative(instr);
    } else {
      ExtendNonNegative(instr);
    }
  }

  lemma ExtendNegative(instr: bv32)
    requires instr & 0x80_0000 != 0
    ensures Sar(instr << 8, 6) == ((instr & 0xFF_FFFF) | 0xFF00_0000) << 2
  {
    assert Negative(instr << 8);
    assert Sar(instr << 8, 6) == !(!(instr << 8) >> 6);
  }

  lemma ExtendNonNegative(instr: bv32)
    requires instr & 0x80_0000 == 0
    ensures Sar(instr << 8, 6) == (instr & 0xFF_FFFF) << 2
  {
    assert !Negative(instr << 8);
    assert Sar(instr << 8, 6) == (instr << 8) >> 6;
  }

  /** `armBx`: pc = Rm (bits 0-3), then `changeState(pc and 1)`. */
  function Bx(m: Machine, mem: Mem, instr: bv32): (r: Machine)
    requires Wf(m)
    ensures Wf(r)
  {
    var target := m.registers[RegisterIndex(instr)];
    ChangeState(WriteRegister(m, 15, target), mem, Bit(target, 0))
  }

  /** `armB`: pc += offset, then `armRefill`. */
  function B(m: Machine, mem: Mem, instr: bv32): (r: Machine)
    requires Wf(m)
    ensures Wf(r)
  {
    ArmRefill(WriteRegister(m, 15, Plus(Pc(m), Extend(instr))), mem)
  }

  /** `armBl`: lr = pc - 4, then as `armB`. */
  function Bl(m: Machine, mem: Mem, instr: bv32): (r: Machine)
    requires Wf(m)
    ensures Wf(r)
  {
    B(WriteRegister(m, 14, Minus(Pc(m), 4)), mem, instr)
  }

  /**
   * The writes of a software interrupt after the switch to Supervisor mode:
   * lr = `link`, pc = 8, spsr = `saved`, I set.
   */
  function SupervisorEntry(s: Machine, link: bv32, saved: bv32): (r: Machine)
    requires Wf(s)
    ensures Wf(r)
  {
    s.(registers := s.registers[14 := link][15 := 8], spsr := saved, cpsr := Set(s.cpsr, I, true))
  }

  /** `armSwi`: switch to Supervisor mode, lr = pc - 4, pc = 8, spsr = the old cpsr, I set, `armRefill`. */
  function Swi(m: Machine, mem: Mem): (r: Machine)
    requires Wf(m)
    ensures Wf(r)
  {
    var s := SetCpuMode(m, Supervisor);
    ArmRefill(SupervisorEntry(s, Minus(Pc(s), 4), m.cpsr), mem)
  }

  /** An ARM refill leaves pc one word past the old pc aligned down. */
  lemma ArmRefillLandsAt(m: Machine, mem: Mem)
    requires Wf(m)
    ensures Pc(ArmRefill(m, mem)) == RefillPc(Arm, Pc(m))
  {
  }

  /** B lands at pc + offset, and changes no register but pc, no status bit, no mode and no state. */
  lemma BLandsAt(m: Machine, mem: Mem, instr: bv32)
    requires Wf(m)
    ensures Pc(B(m, mem, instr)) == RefillPc(Arm, Pc(m) + (SignExtend24(instr & 0xFF_FFFF) << 2))
  {
    ExtendIsSignedWordOffset(instr);
    var w := WriteRegister(m, 15, Plus(Pc(m), Extend(instr)));
    ArmRefillLandsAt(w, mem);
  }

  lemma BKeeps(m: Machine, mem: Mem, instr: bv32)
    requires Wf(m)
    ensures var r := B(m, mem, instr);
      r.registers[..15] == m.registers[..15] && r.cpsr == m.cpsr && r.spsr == m.spsr &&
      r.mode == m.mode && r.state == m.state
  {
    var w := WriteRegister(m, 15, Plus(Pc(m), Extend(instr)));
    assert w.registers[..15] == m.registers[..15];
    ArmRefillKeeps(w, mem);
  }

  /** In ARM state B leaves a coherent pipeline. */
  lemma BCoherent(m: Machine, mem: Mem, instr: bv32)
    requires Wf(m) && m.state == Arm
    ensures Coherent(B(m, mem, instr), mem)
  {
    ArmRefillFetches(WriteRegister(m, 15, Plus(Pc(m), Extend(instr))), mem);
  }

  /** BL sets lr to pc - 4, the instruction after the BL, and branches as B does from the same pc. */
  lemma BlLinks(m: Machine, mem: Mem, instr: bv32)
    requires Wf(m)
    ensures var r := Bl(m, mem, instr);
      r.registers[14] == Pc(m) - 4 && Pc(r) == Pc(B(m, mem, instr))
  {
    var w := WriteRegister(m, 14, Minus(Pc(m), 4));
    BKeeps(w, mem, instr);
    assert w.registers[14] == Pc(m) - 4;
    assert Pc(w) == Pc(m);
    BSamePc(m, w, mem, instr);
  }

  /** B's target depends only on pc. */
  lemma BSamePc(m: Machine, w: Machine, mem: Mem, instr: bv32)
    requires Wf(m) && Wf(w) && Pc(m) == Pc(w)
    ensures Pc(B(m, mem, instr)) == Pc(B(w, mem, instr))
  {
    ArmRefillLandsAt(WriteRegister(m, 15, Plus(Pc(m), Extend(instr))), mem);
    ArmRefillLandsAt(WriteRegister(w, 15, Plus(Pc(w), Extend(instr))), mem);
  }

  /** BX: the state and T follow bit 0 of Rm, and pc lands on Rm aligned for that state. */
  lemma BxState(m: Machine, mem: Mem, instr: bv32)
    requires Wf(m)
    ensures var r := Bx(m, mem, instr); var thumb := Bit(m.registers[RegisterIndex(instr)], 0);
      r.state == (if thumb then Thumb else Arm) && Flags(r.cpsr) == Flags(m.cpsr).(t := thumb) &&
      r.mode == m.mode && Coherent(r, mem)
  {
    var w := WriteRegister(m, 15, m.registers[RegisterIndex(instr)]);
    ChangeStateEffect(w, mem, Bit(m.registers[RegisterIndex(instr)], 0));
  }

  lemma BxPc(m: Machine, mem: Mem, instr: bv32)
    requires Wf(m)
    ensures var v := m.registers[RegisterIndex(instr)];
      Pc(Bx(m, mem, instr)) == RefillPc(if Bit(v, 0) then Thumb else Arm, v)
  {
    var v := m.registers[RegisterIndex(instr)];
    var w := WriteRegister(m, 15, v);
    var s := w.(state := if Bit(v, 0) then Thumb else Arm, cpsr := Set(w.cpsr, T, Bit(v, 0)));
    assert Bx(m, mem, instr) == Refill(s, mem);
    RefillLandsAt(s, mem);
  }

  /**
   * SWI enters Supervisor mode with the old cpsr in spsr, I set and every
   * other flag kept, lr = pc - 4 (the instruction after the SWI), and
   * execution at the vector 8 (pc 0xC after the refill).
   */
  lemma SwiStatus(m: Machine, mem: Mem)
    requires Wf(m)
    ensures var r := Swi(m, mem);
      r.mode == Supervisor && r.spsr == m.cpsr && Flags(r.cpsr) == Flags(m.cpsr).(i := true) &&
      r.cpsr & 0x1F == (if m.mode == Supervisor then m.cpsr & 0x1F else 0x13)
  {
    var s := SetCpuMode(m, Supervisor);
    SetCpuModeStatus(m, Supervisor);
    SwitchKeepsRest(m, Supervisor);
    var e := SupervisorEntry(s, Minus(Pc(s), 4), m.cpsr);
    FlagsOfSetI(s.cpsr, true);
    ArmRefillKeeps(e, mem);
  }

  lemma SwiRegisters(m: Machine, mem: Mem)
    requires Wf(m)
    ensures var r := Swi(m, mem);
      r.registers[14] == Pc(m) - 4 && Pc(r) == 0xC && (forall i :: 0 <= i < 8 ==> r.registers[i] == m.registers[i])
  {
    var s := SetCpuMode(m, Supervisor);
    var e := SupervisorEntry(s, Minus(Pc(s), 4), m.cpsr);
    assert Swi(m, mem) == ArmRefill(e, mem);
    SupervisorEntryRegisters(m, s, e);
    ArmRefillKeeps(e, mem);
    ArmRefillLandsAt(e, mem);
    RegistersBelow15(ArmRefill(e, mem).registers, e.registers);
  }

  /** Before the refill: lr is the link, pc is 8, r0-r7 are as before the switch. */
  lemma SupervisorEntryRegisters(m: Machine, s: Machine, e: Machine)
    requires Wf(m) && s == SetCpuMode(m, Supervisor) && e == SupervisorEntry(s, Minus(Pc(s), 4), m.cpsr)
    ensures e.registers[14] == Pc(m) - 4 && Pc(e) == 8 && (forall i :: 0 <= i < 8 ==> e.registers[i] == m.registers[i])
  {
    SwitchKeepsLow(m, Supervisor);
  }

  /** Sequences that agree below index 15 agree at each such index. */
  lemma RegistersBelow15(a: seq<bv32>, b: seq<bv32>)
    requires |a| == 16 && |b| == 16 && a[..15] == b[..15]
    ensures forall i :: 0 <= i < 15 ==> a[i] == b[i]
  {
    assert forall i :: 0 <= i < 15 ==> a[i] == a[..15][i] && b[i] == b[..15][i];
  }

  method RunBx(cpu: Cpu, instr: bv32)
    requires cpu.Valid()
    modifies cpu
    ensures cpu.Valid() && cpu.View() == Bx(old(cpu.View()), cpu.bus.memory, instr)
  {
    var target := cpu.registers[RegisterIndex(instr)];
    cpu.registers := cpu.registers[15 := target];
    cpu.ChangeState(Bit(target, 0));
  }

  method RunB(cpu: Cpu, instr: bv32)
    requires cpu.Valid()
    modifies cpu
    ensures cpu.Valid() && cpu.View() == B(old(cpu.View()), cpu.bus.memory, instr)
  {
    cpu.registers := cpu.registers[15 := Plus(cpu.registers[15], Extend(instr))];
    cpu.ArmRefill();
  }

  method RunBl(cpu: Cpu, instr: bv32)
    requires cpu.Valid()
    modifies cpu
    ensures cpu.Valid() && cpu.View() == Bl(old(cpu.View()), cpu.bus.memory, instr)
  {
    cpu.registers := cpu.registers[14 := Minus(cpu.registers[15], 4)];
    RunB(cpu, instr);
  }

  method RunSwi(cpu: Cpu)
    requires cpu.Valid()
    modifies cpu
    ensures cpu.Valid() && cpu.View() == Swi(old(cpu.View()), cpu.bus.memory)
  {
    var saved := cpu.cpsr;
    cpu.SetCpuMode(Supervisor);
    var link := Minus(cpu.registers[15], 4);
    cpu.registers := cpu.registers[14 := link][15 := 8];
    cpu.spsr := saved;
    cpu.SetFlag(I, true);
    cpu.ArmRefill();
  }
}
