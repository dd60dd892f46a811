/**
 * What the primitives of CpuModel promise: the pipeline invariant that refill
 * establishes and step keeps, what a mode switch changes and what it keeps,
 * banked registers surviving a trip to another mode, and interrupt entry.
 */
module CpuProperties {
  import opened CpuFlags
  import opened CpuModes
  import opened Memory
  import opened CpuModel
  import opened CpuBanks

  /**
   * The pipeline matches memory at pc: in ARM state pc is word aligned, the
   * head is the word at pc - 4 and the fetched word is the one at pc (two
   * bytes apart in THUMB state), so an executing instruction sees pc as its
   * own address plus 8 (ARM) or 4 (THUMB).
   */
  predicate Coherent(m: Machine, mem: Mem)
    requires Wf(m)
  {
    if m.state == Arm then
      Pc(m) & 3 == 0 && m.pipeline.head == Read32(mem, Pc(m) - 4) && m.pipeline.next == Read32(mem, Pc(m))
    else
      Pc(m) & 1 == 0 && m.pipeline.head == Read16(mem, Pc(m) - 2) && m.pipeline.next == Read16(mem, Pc(m))
  }

  lemma AlignedPlus4(p: bv32)
    ensures ((p & !3) + 4) & 3 == 0
    ensures ((p & !3) + 4) - 4 == p & !3
  {
  }

  lemma AlignedPlus2(p: bv32)
    ensures ((p & !1) + 2) & 1 == 0
    ensures ((p & !1) + 2) - 2 == p & !1
  {
  }

  /** `armRefill` leaves pc at the aligned address plus 4 with a coherent pipeline, changing nothing but pc and the pipeline. */
  lemma ArmRefillCoherent(m: Machine, mem: Mem)
    requires Wf(m) && m.state == Arm
    ensures Pc(ArmRefill(m, mem)) == (Pc(m) & !3) + 4
    ensures Coherent(ArmRefill(m, mem), mem)
    ensures ArmRefill(m, mem).registers[..15] == m.registers[..15]
    ensures ArmRefill(m, mem).(registers := m.registers, pipeline := m.pipeline) == m
  {
    ArmRefillPc(m, mem);
    ArmRefillFetches(m, mem);
    ArmRefillKeeps(m, mem);
  }

  lemma ArmRefillPc(m: Machine, mem: Mem)
    requires Wf(m)
    ensures Pc(ArmRefill(m, mem)) == (Pc(m) & !3) + 4
  {
  }

  lemma ArmRefillFetches(m: Machine, mem: Mem)
    requires Wf(m) && m.state == Arm
    ensures Coherent(ArmRefill(m, mem), mem)
  {
    AlignedPlus4(Pc(m));
  }

  lemma ArmRefillKeeps(m: Machine, mem: Mem)
    requires Wf(m)
    ensures ArmRefill(m, mem).registers[..15] == m.registers[..15]
    ensures ArmRefill(m, mem).(registers := m.registers, pipeline := m.pipeline) == m
  {
  }

  /** `thumbRefill` leaves pc at the aligned address plus 2 with a coherent pipeline, changing nothing but pc and the pipeline. */
  lemma ThumbRefillCoherent(m: Machine, mem: Mem)
    requires Wf(m) && m.state == Thumb
    ensures Pc(ThumbRefill(m, mem)) == (Pc(m) & !1) + 2
    ensures Coherent(ThumbRefill(m, mem), mem)
    ensures ThumbRefill(m, mem).registers[..15] == m.registers[..15]
    ensures ThumbRefill(m, mem).(registers := m.registers, pipeline := m.pipeline) == m
  {
    ThumbRefillPc(m, mem);
    ThumbRefillFetches(m, mem);
    ThumbRefillKeeps(m, mem);
  }

  lemma ThumbRefillPc(m: Machine, mem: Mem)
    requires Wf(m)
    ensures Pc(ThumbRefill(m, mem)) == (Pc(m) & !1) + 2
  {
  }

  lemma ThumbRefillFetches(m: Machine, mem: Mem)
    requires Wf(m) && m.state == Thumb
    ensures Coherent(ThumbRefill(m, mem), mem)
  {
    AlignedPlus2(Pc(m));
  }

  lemma ThumbRefillKeeps(m: Machine, mem: Mem)
    requires Wf(m)
    ensures ThumbRefill(m, mem).registers[..15] == m.registers[..15]
    ensures ThumbRefill(m, mem).(registers := m.registers, pipeline := m.pipeline) == m
  {
  }

  lemma Plus4Aligned(p: bv32)
    requires p & 3 == 0
    ensures (p + 4) & 3 == 0 && (p + 4) - 4 == p
  {
  }

  lemma Plus2Aligned(p: bv32)
    requires p & 1 == 0
    ensures (p + 2) & 1 == 0 && (p + 2) - 2 == p
  {
  }

  /** A step moves the fetched instruction into the head, advances pc by one instruction, and keeps the pipeline coherent. */
  lemma StepKeepsCoherent(m: Machine, mem: Mem)
    requires Wf(m) && Coherent(m, mem)
    ensures var r := if m.state == Arm then ArmStep(m, mem) else ThumbStep(m, mem);
      Coherent(r, mem) && r.pipeline.head == m.pipeline.next &&
      Pc(r) == Pc(m) + (if m.state == Arm then 4 else 2) &&
      r.registers[..15] == m.registers[..15]
  {
    if m.state == Arm {
      ArmStepFetches(m, mem);
      ArmStepShifts(m, mem);
    } else {
      ThumbStepFetches(m, mem);
      ThumbStepShifts(m, mem);
    }
  }

  lemma ArmStepFetches(m: Machine, mem: Mem)
    requires Wf(m) && Coherent(m, mem) && m.state == Arm
    ensures Coherent(ArmStep(m, mem), mem)
  {
    Plus4Aligned(Pc(m));
  }

  lemma ArmStepShifts(m: Machine, mem: Mem)
    requires Wf(m)
    ensures ArmStep(m, mem).pipeline.head == m.pipeline.next && Pc(ArmStep(m, mem)) == Pc(m) + 4
    ensures ArmStep(m, mem).registers[..15] == m.registers[..15]
  {
  }

  lemma ThumbStepFetches(m: Machine, mem: Mem)
    requires Wf(m) && Coherent(m, mem) && m.state == Thumb
    ensures Coherent(ThumbStep(m, mem), mem)
  {
    Plus2Aligned(Pc(m));
  }

  lemma ThumbStepShifts(m: Machine, mem: Mem)
    requires Wf(m)
    ensures ThumbStep(m, mem).pipeline.head == m.pipeline.next && Pc(ThumbStep(m, mem)) == Pc(m) + 2
    ensures ThumbStep(m, mem).registers[..15] == m.registers[..15]
  {
  }

  /** `setRegister(15, v)` refills for the current state: pc ends one instruction past the aligned target and the pipeline is coherent. */
  lemma SetRegisterPcRefills(m: Machine, mem: Mem, value: bv32)
    requires Wf(m)
    ensures var r := SetRegister(m, mem, 15, value);
      Coherent(r, mem) && r.registers[..15] == m.registers[..15] &&
      Pc(r) == (if m.state == Arm then (value & !3) + 4 else (value & !1) + 2)
  {
    if m.state == Arm { SetPcArm(m, mem, value); } else { SetPcThumb(m, mem, value); }
  }

  lemma SetPcArm(m: Machine, mem: Mem, value: bv32)
    requires Wf(m) && m.state == Arm
    ensures var r := SetRegister(m, mem, 15, value);
      Coherent(r, mem) && r.registers[..15] == m.registers[..15] && Pc(r) == (value & !3) + 4
  {
    var w := WriteRegister(m, 15, value);
    assert w.registers[..15] == m.registers[..15];
    ArmRefillCoherent(w, mem);
  }

  lemma SetPcThumb(m: Machine, mem: Mem, value: bv32)
    requires Wf(m) && m.state == Thumb
    ensures var r := SetRegister(m, mem, 15, value);
      Coherent(r, mem) && r.registers[..15] == m.registers[..15] && Pc(r) == (value & !1) + 2
  {
    var w := WriteRegister(m, 15, value);
    assert w.registers[..15] == m.registers[..15];
    ThumbRefillCoherent(w, mem);
  }

  /** A refill leaves pc one instruction past the old pc aligned down for the current state. */
  lemma RefillLandsAt(m: Machine, mem: Mem)
    requires Wf(m)
    ensures Pc(Refill(m, mem)) == RefillPc(m.state, Pc(m))
  {
    if m.state == Arm {
      assert Refill(m, mem) == ArmRefill(m, mem);
    } else {
      assert Refill(m, mem) == ThumbRefill(m, mem);
    }
  }

  /** `setRegister(15, v)` leaves pc one instruction past `v` aligned down for the current state. */
  lemma SetPcLandsAt(m: Machine, mem: Mem, value: bv32)
    requires Wf(m)
    ensures Pc(SetRegister(m, mem, 15, value)) == RefillPc(m.state, value)
  {
    var w := WriteRegister(m, 15, value);
    assert SetRegister(m, mem, 15, value) == Refill(w, mem);
    RefillLandsAt(w, mem);
  }

  /** `setRegister(i, v)` for any other index is a plain write that leaves the pipeline and status alone. */
  lemma SetRegisterPlain(m: Machine, mem: Mem, index: nat, value: bv32)
    requires Wf(m) && index < 15
    ensures SetRegister(m, mem, index, value) == m.(registers := m.registers[index := value])
  {
  }

  lemma ReplaceModeBits(c: bv32, k: bv32)
    requires k & !0x1F == 0
    ensures ((c & !0x1F) | k) & !0x1F == c & !0x1F
    ensures ((c & !0x1F) | k) & 0x1F == k
  {
  }

  /** Two status words that agree outside bits 0-4 have the same flags. */
  lemma FlagsOutsideModeBits(a: bv32, b: bv32)
    requires a & !0x1F == b & !0x1F
    ensures Flags(a) == Flags(b)
  {
  }

  /**
   * A mode switch replaces cpsr bits 0-4 with the new mode's encoding and
   * keeps every other bit (so every flag); r0-r7, pc, the pipeline, the
   * state are untouched. Switching to the current mode changes
   * nothing at all.
   */
  lemma SetCpuModeEffect(m: Machine, value: Mode)
    requires Wf(m)
    ensures var r := SetCpuMode(m, value);
      r.mode == value &&
      (forall i :: 0 <= i < 16 && (i < 8 || i == 15) ==> r.registers[i] == m.registers[i]) &&
      r.pipeline == m.pipeline && r.state == m.state &&
      r.shifterCarry == m.shifterCarry && r.halted == m.halted &&
      Flags(r.cpsr) == Flags(m.cpsr) && r.cpsr & !0x1F == m.cpsr & !0x1F &&
      r.cpsr & 0x1F == (if m.mode == value then m.cpsr & 0x1F else ModeMask(value))
    ensures m.mode == value ==> SetCpuMode(m, value) == m
  {
    SwitchKeepsLow(m, value);
    SwitchKeepsRest(m, value);
    SetCpuModeStatus(m, value);
  }

  lemma SetCpuModeStatus(m: Machine, value: Mode)
    requires Wf(m)
    ensures var r := SetCpuMode(m, value);
      Flags(r.cpsr) == Flags(m.cpsr) && r.cpsr & !0x1F == m.cpsr & !0x1F &&
      r.cpsr & 0x1F == (if m.mode == value then m.cpsr & 0x1F else ModeMask(value))
  {
    if m.mode != value {
      SwitchStatus(m, value);
      WithModeBitsEffect(m.cpsr, value);
    }
  }

  /** Writing the mode bits sets bits 0-4 to the mode's encoding and keeps every other bit, so every flag. */
  lemma WithModeBitsEffect(cpsr: bv32, value: Mode)
    ensures Flags(WithModeBits(cpsr, value)) == Flags(cpsr)
    ensures WithModeBits(cpsr, value) & !0x1F == cpsr & !0x1F
    ensures WithModeBits(cpsr, value) & 0x1F == ModeMask(value)
  {
    ModeMaskIsFiveBits(value);
    var k := ModeMask(value);
    assert WithModeBits(cpsr, value) == (cpsr & !0x1F) | k;
    ReplaceLowBits(cpsr, k);
  }

  lemma ReplaceLowBits(c: bv32, k: bv32)
    requires k & !0x1F == 0
    ensures Flags((c & !0x1F) | k) == Flags(c)
    ensures ((c & !0x1F) | k) & !0x1F == c & !0x1F
    ensures ((c & !0x1F) | k) & 0x1F == k
  {
    ReplaceModeBits(c, k);
    FlagsOutsideModeBits((c & !0x1F) | k, c);
  }

  /**
   * Interrupt entry happens exactly when I is clear, IME is set and some
   * enabled request among the 14 sources is raised. It enters IRQ mode with
   * the old cpsr in spsr, lr = pc (+2 in THUMB state), I set, T clear, ARM
   * state, every other flag kept, the pipeline refilled at 0x18, and the CPU
   * no longer halted. Otherwise nothing changes.
   */
  lemma InterruptEntry(m: Machine, mem: Mem, ime: bool, ie: bv32, ir: bv32)
    requires Wf(m)
    ensures var r := HandlePendingInterrupts(m, mem, ime, ie, ir);
      if !Get(m.cpsr, I) && ime && (ir & ie) & 0x3FFF != 0 then
        r.mode == Interrupt && r.spsr == m.cpsr &&
        r.cpsr & 0x1F == (if m.mode == Interrupt then m.cpsr & 0x1F else 0x12) &&
        Flags(r.cpsr) == Flags(m.cpsr).(i := true, t := false) &&
        r.state == Arm && !r.halted && r.registers[14] == Pc(m) + (if m.state == Arm then 0 else 2) &&
        Pc(r) == 0x1C && Coherent(r, mem) && (forall i :: 0 <= i < 8 ==> r.registers[i] == m.registers[i])
      else r == m
  {
    if InterruptPending(m.cpsr, ime, ie, ir) {
      InterruptEntryStatus(m, mem, ime, ie, ir);
      InterruptEntryRegisters(m, mem, ime, ie, ir);
    }
  }

  /** The status half of interrupt entry: mode, cpsr and spsr. */
  lemma InterruptEntryStatus(m: Machine, mem: Mem, ime: bool, ie: bv32, ir: bv32)
    requires Wf(m) && InterruptPending(m.cpsr, ime, ie, ir)
    ensures var r := HandlePendingInterrupts(m, mem, ime, ie, ir);
      r.mode == Interrupt && r.spsr == m.cpsr &&
      r.cpsr & 0x1F == (if m.mode == Interrupt then m.cpsr & 0x1F else 0x12) &&
      Flags(r.cpsr) == Flags(m.cpsr).(i := true, t := false)
  {
    var s := SetCpuMode(m, Interrupt);
    SetCpuModeStatus(m, Interrupt);
    SwitchKeepsRest(m, Interrupt);
    InterruptFlags(m.cpsr, s.cpsr);
    EntryStatusIs(m, mem, ime, ie, ir);
  }

  /** Setting I and clearing T on a word with the old flags and some mode bits. */
  lemma InterruptFlags(old_cpsr: bv32, switched: bv32)
    requires Flags(switched) == Flags(old_cpsr)
    ensures Flags(Set(Set(switched, I, true), T, false)) == Flags(old_cpsr).(i := true, t := false)
    ensures Set(Set(switched, I, true), T, false) & 0x1F == switched & 0x1F
  {
    FlagsOfSetI(switched, true);
    FlagsOfSetT(Set(switched, I, true), false);
  }

  /** The fields interrupt entry sets after the mode switch. */
  lemma EntryStatusIs(m: Machine, mem: Mem, ime: bool, ie: bv32, ir: bv32)
    requires Wf(m) && InterruptPending(m.cpsr, ime, ie, ir)
    ensures var r := HandlePendingInterrupts(m, mem, ime, ie, ir);
      var s := SetCpuMode(m, Interrupt);
      r.cpsr == Set(Set(s.cpsr, I, true), T, false) && r.spsr == m.cpsr && r.mode == s.mode
  {
    ArmRefillKeeps(EnterInterrupt(m), mem);
  }

  /** The register half of interrupt entry: lr, pc and pipeline, r0-r7, state and halt. */
  lemma InterruptEntryRegisters(m: Machine, mem: Mem, ime: bool, ie: bv32, ir: bv32)
    requires Wf(m) && InterruptPending(m.cpsr, ime, ie, ir)
    ensures var r := HandlePendingInterrupts(m, mem, ime, ie, ir);
      r.state == Arm && !r.halted && r.registers[14] == Pc(m) + (if m.state == Arm then 0 else 2) &&
      Pc(r) == 0x1C && Coherent(r, mem) && (forall i :: 0 <= i < 8 ==> r.registers[i] == m.registers[i])
  {
    var e := EnterInterrupt(m);
    EnterInterruptLink(m);
    EnterInterruptLow(m);
    ArmRefillCoherent(e, mem);
    assert HandlePendingInterrupts(m, mem, ime, ie, ir) == ArmRefill(e, mem).(halted := false);
  }

  /** Before the refill: lr holds the return address, pc is 0x18 and the state is ARM. */
  lemma EnterInterruptLink(m: Machine)
    requires Wf(m)
    ensures var e := EnterInterrupt(m);
      e.state == Arm && e.registers[14] == Pc(m) + (if m.state == Arm then 0 else 2) && Pc(e) == 0x18
  {
    var s := SetCpuMode(m, Interrupt);
    var link := Pc(m) + (if m.state == Arm then 0 else 2);
    assert EnterInterrupt(m) == EnterVector(s, link, m.cpsr);
    VectorRegisters(s, link, m.cpsr);
  }

  /** Before the refill: r0-r7 are kept. */
  lemma EnterInterruptLow(m: Machine)
    requires Wf(m)
    ensures forall i :: 0 <= i < 8 ==> EnterInterrupt(m).registers[i] == m.registers[i]
  {
    SwitchKeepsLow(m, Interrupt);
    VectorRegisters(SetCpuMode(m, Interrupt), Pc(m) + (if m.state == Arm then 0 else 2), m.cpsr);
  }

  lemma VectorRegisters(s: Machine, link: bv32, saved: bv32)
    requires Wf(s)
    ensures var e := EnterVector(s, link, saved);
      e.state == Arm && e.registers[14] == link && Pc(e) == 0x18 &&
      (forall i :: 0 <= i < 8 ==> e.registers[i] == s.registers[i])
  {
  }

  /** `changeState`: the state and the T flag follow the bit, no other flag or mode bit changes, and the pipeline is refilled for the new state. */
  lemma ChangeStateEffect(m: Machine, mem: Mem, thumb: bool)
    requires Wf(m)
    ensures var r := ChangeState(m, mem, thumb);
      r.state == (if thumb then Thumb else Arm) &&
      Flags(r.cpsr) == Flags(m.cpsr).(t := thumb) && r.cpsr & 0x1F == m.cpsr & 0x1F &&
      Coherent(r, mem) && r.registers[..15] == m.registers[..15] && r.mode == m.mode
  {
    var s := m.(state := if thumb then Thumb else Arm, cpsr := Set(m.cpsr, T, thumb));
    FlagsOfSetT(m.cpsr, thumb);
    if thumb { ThumbRefillCoherent(s, mem); } else { ArmRefillCoherent(s, mem); }
  }
}
