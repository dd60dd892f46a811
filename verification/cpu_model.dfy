/**
 * The processor state of cpu/CPU.kt as a value (the bus's memory, which the
 * fetches read, is a separate parameter), and the state-changing
 * primitives of that class (register write, pipeline refill and step, mode
 * switch, state switch, interrupt entry) as functions on it. The `Cpu` class
 * in module Processor keeps the same state in fields and arrays; each of its
 * methods is proved to have the effect of the function here of the same name.
 *
 * `pipeline.head` is the instruction about to execute (`pipelineHead`,
 * `pipeline[1]` in the source) and `pipeline.next` the one fetched after it
 * (`pipeline[0]`). `registerBanks` is the source's
 * four rows of three (r13, r14, spsr) laid out as one sequence of twelve,
 * row `Ordinal(mode)`; `userRegisters` is the source's `_registers`, where
 * r8-r14 of User/System mode (and r8-r12 shared with the other non-FIQ
 * modes) are kept while another mode is active.
 */
module CpuModel {
  import opened CpuFlags
  import opened CpuModes
  import opened Memory

  /** `CPUState`. */
  datatype CpuState = Arm | Thumb

  /** The two-entry prefetch buffer: `pipeline[0]` (the word fetched last) and `pipeline[1]` (`pipelineHead`). */
  datatype Pipeline = Pipeline(next: bv32, head: bv32)

  datatype Machine = Machine(
    registers: seq<bv32>,
    registerBanks: seq<bv32>,
    fastIrqRegisters: seq<bv32>,
    fastIrqSpsr: bv32,
    userRegisters: seq<bv32>,
    pipeline: Pipeline,
    cpsr: bv32,
    spsr: bv32,
    shifterCarry: bool,
    state: CpuState,
    mode: Mode,
    halted: bool)

  /** The shapes of the source's arrays. */
  predicate Wf(m: Machine)
  {
    |m.registers| == 16 && |m.registerBanks| == 12 && |m.fastIrqRegisters| == 7 &&
    |m.userRegisters| == 7
  }

  /** The processor after construction: everything zero, System mode, ARM state. */
  function Initial(): (m: Machine)
    ensures Wf(m)
  {
    Machine(seq(16, _ => 0), seq(12, _ => 0), seq(7, _ => 0), 0, seq(7, _ => 0), Pipeline(0, 0),
      0, 0, false, Arm, System, false)
  }

  function Pc(m: Machine): bv32
    requires Wf(m)
  {
    m.registers[15]
  }

  /**
   * The address arithmetic of the pipeline, each step a named function so
   * that the processor's methods and these functions compute pc alike.
   */
  function AlignWord(address: bv32): bv32 { address & !3 }

  function AlignHalf(address: bv32): bv32 { address & !1 }

  function NextWord(address: bv32): bv32 { address + 4 }

  function NextHalf(address: bv32): bv32 { address + 2 }

  /** The return address interrupt entry saves: pc in ARM state, pc + 2 in THUMB state. */
  function InterruptLink(pc: bv32, state: CpuState): bv32
  {
    pc + if state == Arm then 0 else 2
  }

  /** `registers[index] = value`, with no refill. */
  function WriteRegister(m: Machine, index: nat, value: bv32): (r: Machine)
    requires Wf(m) && index < 16
    ensures Wf(r)
  {
    m.(registers := m.registers[index := value])
  }

  /** `armRefill`: align pc down to 4, fetch the head there and the next word after it. */
  function ArmRefill(m: Machine, mem: Mem): (r: Machine)
    requires Wf(m)
    ensures Wf(r)
  {
    var pc := AlignWord(Pc(m));
    m.(registers := m.registers[15 := NextWord(pc)],
       pipeline := Pipeline(Read32(mem, NextWord(pc)), Read32(mem, pc)))
  }

  /** `thumbRefill`: align pc down to 2, fetch the head there and the next halfword after it. */
  function ThumbRefill(m: Machine, mem: Mem): (r: Machine)
    requires Wf(m)
    ensures Wf(r)
  {
    var pc := AlignHalf(Pc(m));
    m.(registers := m.registers[15 := NextHalf(pc)],
       pipeline := Pipeline(Read16(mem, NextHalf(pc)), Read16(mem, pc)))
  }

  /** `armStep`: the fetched word becomes the head, pc advances by 4 and the next word is fetched. */
  function ArmStep(m: Machine, mem: Mem): (r: Machine)
    requires Wf(m)
    ensures Wf(r)
  {
    var pc := NextWord(Pc(m));
    m.(registers := m.registers[15 := pc], pipeline := Pipeline(Read32(mem, pc), m.pipeline.next))
  }

  /** `thumbStep`: as `armStep`, by 2 and with halfword fetches. */
  function ThumbStep(m: Machine, mem: Mem): (r: Machine)
    requires Wf(m)
    ensures Wf(r)
  {
    var pc := NextHalf(Pc(m));
    m.(registers := m.registers[15 := pc], pipeline := Pipeline(Read16(mem, pc), m.pipeline.next))
  }

  /** The refill of the current state. */
  function Refill(m: Machine, mem: Mem): (r: Machine)
    requires Wf(m)
    ensures Wf(r)
  {
    if m.state == Arm then ArmRefill(m, mem) else ThumbRefill(m, mem)
  }

  /** Where pc ends after a refill at `target` in `state`: one instruction past the target aligned down. */
  function RefillPc(state: CpuState, target: bv32): bv32
  {
    if state == Arm then NextWord(AlignWord(target)) else NextHalf(AlignHalf(target))
  }

  /** `setRegister(index, value)`: a write, and a refill when the index is 15. */
  function SetRegister(m: Machine, mem: Mem, index: nat, value: bv32): (r: Machine)
    requires Wf(m) && index < 16
    ensures Wf(r)
  {
    var w := WriteRegister(m, index, value);
    if index == 15 then Refill(w, mem) else w
  }

  /** `cpu[flag] = value`. */
  function SetFlag(m: Machine, f: Flag, value: bool): Machine
  {
    m.(cpsr := Set(m.cpsr, f, value))
  }

  /** `changeState(bit)`: set the state and the T flag to match, then refill for the new state. */
  function ChangeState(m: Machine, mem: Mem, thumb: bool): (r: Machine)
    requires Wf(m)
    ensures Wf(r)
  {
    Refill(m.(state := if thumb then Thumb else Arm, cpsr := Set(m.cpsr, T, thumb)), mem)
  }

  /**
   * `src.copyInto(dest, destOffset, start, end)`: `dest` with the elements
   * `src[start..end]` written from index `destOffset` on.
   */
  function CopyInto(src: seq<bv32>, dest: seq<bv32>, destOffset: nat, start: nat, end: nat): (r: seq<bv32>)
    requires start <= end <= |src| && destOffset + (end - start) <= |dest|
    ensures |r| == |dest|
    ensures forall i :: 0 <= i < |r| ==>
      r[i] == if destOffset <= i < destOffset + (end - start) then src[start + i - destOffset] else dest[i]
  {
    seq(|dest|, i requires 0 <= i < |dest| =>
      if destOffset <= i < destOffset + (end - start) then src[start + i - destOffset] else dest[i])
  }

  /** The save half of `setCPUMode`: park the registers of the mode being left. */
  function SaveBank(m: Machine): (r: Machine)
    requires Wf(m)
    ensures Wf(r)
  {
    if m.mode == User || m.mode == System then SaveUserBank(m)
    else if m.mode == FastInterrupt then SaveFiqBank(m)
    else SaveModeRow(m)
  }

  /** Leaving User or System mode: r8-r14 go to `_registers`. */
  function SaveUserBank(m: Machine): (r: Machine)
    requires Wf(m)
    ensures Wf(r)
  {
    m.(userRegisters := CopyInto(m.registers, m.userRegisters, 0, 8, 15))
  }

  /** Leaving FIQ mode: r8-r14 go to `fastIrqRegisters` and spsr to `fastIrqSpsr`. */
  function SaveFiqBank(m: Machine): (r: Machine)
    requires Wf(m)
    ensures Wf(r)
  {
    m.(fastIrqRegisters := CopyInto(m.registers, m.fastIrqRegisters, 0, 8, 15), fastIrqSpsr := m.spsr)
  }

  /** Leaving another mode: r8-r12 go to `_registers`, and r13, r14 and spsr to the mode's row. */
  function SaveModeRow(m: Machine): (r: Machine)
    requires Wf(m) && IsBanked(m.mode)
    ensures Wf(r)
  {
    var row := 3 * Ordinal(m.mode);
    m.(userRegisters := CopyInto(m.registers, m.userRegisters, 0, 8, 13),
       registerBanks := m.registerBanks[row := m.registers[13]][row + 1 := m.registers[14]][row + 2 := m.spsr])
  }

  /** The restore half of `setCPUMode`: bring in the registers of mode `value`. */
  function RestoreBank(m: Machine, value: Mode): (r: Machine)
    requires Wf(m)
    ensures Wf(r)
  {
    if value == User || value == System then RestoreUserBank(m)
    else if value == FastInterrupt then RestoreFiqBank(m)
    else RestoreModeRow(m, value)
  }

  /** Entering User or System mode: r8-r14 come from `_registers`. */
  function RestoreUserBank(m: Machine): (r: Machine)
    requires Wf(m)
    ensures Wf(r)
  {
    m.(registers := CopyInto(m.userRegisters, m.registers, 8, 0, 7))
  }

  /** Entering FIQ mode: r8-r14 come from `fastIrqRegisters` and spsr from `fastIrqSpsr`. */
  function RestoreFiqBank(m: Machine): (r: Machine)
    requires Wf(m)
    ensures Wf(r)
  {
    m.(registers := CopyInto(m.fastIrqRegisters, m.registers, 8, 0, 7), spsr := m.fastIrqSpsr)
  }

  /** Entering another mode: r8-r12 come from `_registers`, and r13, r14 and spsr from the mode's row. */
  function RestoreModeRow(m: Machine, value: Mode): (r: Machine)
    requires Wf(m) && IsBanked(value)
    ensures Wf(r)
  {
    var row := 3 * Ordinal(value);
    m.(registers := CopyInto(m.userRegisters, m.registers, 8, 0, 5)[13 := m.registerBanks[row]][14 := m.registerBanks[row + 1]],
       spsr := m.registerBanks[row + 2])
  }

  /** `setCPUMode(value)`: nothing when already in that mode; otherwise save, restore, and write the mode bits. */
  function SetCpuMode(m: Machine, value: Mode): (r: Machine)
    requires Wf(m)
    ensures Wf(r)
  {
    if m.mode == value then m
    else
      var s := RestoreBank(SaveBank(m), value);
      s.(cpsr := WithModeBits(s.cpsr, value), mode := value)
  }

  /** cpsr with bits 0-4 replaced by the encoding of `value`. */
  function WithModeBits(cpsr: bv32, value: Mode): bv32
  {
    (cpsr & !0x1F) | ModeMask(value)
  }

  /** `pending`: an interrupt is taken when I is clear, IME is set and some enabled request is raised. */
  predicate InterruptPending(cpsr: bv32, ime: bool, ie: bv32, ir: bv32)
  {
    !Get(cpsr, I) && ime && (ir & ie) & 0x3FFF != 0
  }

  /**
   * `handlePendingInterrupts`, with IME, IE and IR as parameters: enter IRQ
   * mode with the return address in lr, the old cpsr in spsr, I set, ARM
   * state, and execution at 0x18; a halted CPU wakes.
   */
  function HandlePendingInterrupts(m: Machine, mem: Mem, ime: bool, ie: bv32, ir: bv32): (r: Machine)
    requires Wf(m)
    ensures Wf(r)
  {
    if !InterruptPending(m.cpsr, ime, ie, ir) then m
    else ArmRefill(EnterInterrupt(m), mem).(halted := false)
  }

  /** The register and status writes of interrupt entry, before the refill at 0x18. */
  function EnterInterrupt(m: Machine): (r: Machine)
    requires Wf(m)
    ensures Wf(r)
  {
    EnterVector(SetCpuMode(m, Interrupt), InterruptLink(Pc(m), m.state), m.cpsr)
  }

  /** Jump to the IRQ vector 0x18 in ARM state with lr = `link`, spsr = `saved`, I set and T clear. */
  function EnterVector(s: Machine, link: bv32, saved: bv32): (r: Machine)
    requires Wf(s)
    ensures Wf(r)
  {
    s.(registers := s.registers[15 := 0x18][14 := link], spsr := saved,
       cpsr := Set(Set(s.cpsr, I, true), T, false), state := Arm)
  }
}
