/**
 * The processor state of the earlier port, src/core/cpu/cpu.rs: `set_mode`,
 * `set_flag`, `flush_pipeline` and `switch_state` (its condition evaluator is
 * module Conditions). This struct has no spsr: `set_mode` keeps the saved
 * status words in the bank rows and in `fiq_spsr`, saving cpsr there on
 * entering a mode and reloading cpsr from there on leaving it. `CPU_MODE`
 * lists the encodings of `CpuModes.ModeMask` in the same order, and the
 * enum `CPU_mode` has the same declaration order as `CpuModes.Mode`.
 *
 * The functions here state each operation on a `RustMachine` value; the
 * class in module RustProcessor keeps the fields and its methods are proved
 * to have exactly those effects.
 */
module RustCpu {
  import opened CpuFlags
  import opened CpuModes
  import opened CpuModel
  import CpuProperties

  datatype RustMachine = RustMachine(
    register: seq<bv32>,
    bankReg: seq<bv32>,
    fiqReg: seq<bv32>,
    fiqSpsr: bv32,
    reg: seq<bv32>,
    cpsr: bv32,
    state: CpuState,
    mode: Mode,
    pipeline: seq<bv32>)

  /** The array lengths of the struct; `bank_reg` is four rows of three, row-major. */
  predicate RustWf(m: RustMachine)
  {
    |m.register| == 16 && |m.bankReg| == 12 && |m.fiqReg| == 7 && |m.reg| == 7 && |m.pipeline| == 3
  }

  /** `set_flag(flag, val)`: clear the flag's bit, then set it when `val`. */
  function SetFlag(m: RustMachine, f: Flag, value: bool): RustMachine
  {
    m.(cpsr := Set(m.cpsr, f, value))
  }

  /** The first match of `set_mode`: park the registers (and reload cpsr) of the mode being left. */
  function Leave(m: RustMachine): (r: RustMachine)
    requires RustWf(m)
    ensures RustWf(r)
  {
    if m.mode == User || m.mode == System then LeaveUser(m)
    else if m.mode == FastInterrupt then LeaveFiq(m)
    else LeaveBanked(m)
  }

  /** Leaving User or System: r8-r14 are copied to `reg`. */
  function LeaveUser(m: RustMachine): (r: RustMachine)
    requires RustWf(m)
    ensures RustWf(r)
  {
    m.(reg := CopyInto(m.register, m.reg, 0, 8, 15))
  }

  /** Leaving FIQ: r8-r14 are copied to `fiq_reg` and cpsr is reloaded from `fiq_spsr`. */
  function LeaveFiq(m: RustMachine): (r: RustMachine)
    requires RustWf(m)
    ensures RustWf(r)
  {
    m.(fiqReg := CopyInto(m.register, m.fiqReg, 0, 8, 15), cpsr := m.fiqSpsr)
  }

  /** Leaving a banked mode: r13 and r14 go to its row, and cpsr is reloaded from the row's third slot. */
  function LeaveBanked(m: RustMachine): (r: RustMachine)
    requires RustWf(m) && IsBanked(m.mode)
    ensures RustWf(r)
  {
    var row := 3 * Ordinal(m.mode);
    m.(bankReg := m.bankReg[row := m.register[13]][row + 1 := m.register[14]], cpsr := m.bankReg[row + 2])
  }

  /** The second match of `set_mode`: bring in the registers of mode `value` (and save cpsr for it). */
  function Enter(m: RustMachine, value: Mode): (r: RustMachine)
    requires RustWf(m)
    ensures RustWf(r)
  {
    if value == User || value == System then EnterUser(m)
    else if value == FastInterrupt then EnterFiq(m)
    else EnterBanked(m, value)
  }

  /** Entering User or System: r8-r14 are swapped with `reg`. */
  function EnterUser(m: RustMachine): (r: RustMachine)
    requires RustWf(m)
    ensures RustWf(r)
  {
    m.(register := CopyInto(m.reg, m.register, 8, 0, 7), reg := CopyInto(m.register, m.reg, 0, 8, 15))
  }

  /** Entering FIQ: r8-r14 are swapped with `fiq_reg`, and cpsr is saved in `fiq_spsr`. */
  function EnterFiq(m: RustMachine): (r: RustMachine)
    requires RustWf(m)
    ensures RustWf(r)
  {
    m.(register := CopyInto(m.fiqReg, m.register, 8, 0, 7), fiqReg := CopyInto(m.register, m.fiqReg, 0, 8, 15),
       fiqSpsr := m.cpsr)
  }

  /** Entering a banked mode: r13 and r14 come from its row, and cpsr is saved in the row's third slot. */
  function EnterBanked(m: RustMachine, value: Mode): (r: RustMachine)
    requires RustWf(m) && IsBanked(value)
    ensures RustWf(r)
  {
    var row := 3 * Ordinal(value);
    m.(register := m.register[13 := m.bankReg[row]][14 := m.bankReg[row + 1]], bankReg := m.bankReg[row + 2 := m.cpsr])
  }

  /** `set_mode(mode)`: nothing for the current mode; otherwise leave, enter, and write the mode's encoding into bits 0-4. */
  function SetMode(m: RustMachine, value: Mode): (r: RustMachine)
    requires RustWf(m)
    ensures RustWf(r)
  {
    if value == m.mode then m
    else
      var s := Enter(Leave(m), value);
      s.(cpsr := WithModeBits(s.cpsr, value), mode := value)
  }

  /** `flush_pipeline`: all three slots zero. */
  function FlushPipeline(m: RustMachine): (r: RustMachine)
  {
    m.(pipeline := [0, 0, 0])
  }

  /**
   * `switch_state(state)`: flush, then fill for the state named by bit 0 of
   * `state`. The fills (`arm_fill_pipeline`, `thumb_fill_pipeline`) are not
   * part of this model; the result names the one that runs next.
   */
  function SwitchState(m: RustMachine, state: bv32): (r: (RustMachine, CpuState))
  {
    (FlushPipeline(m), if state & 1 == 0 then Arm else Thumb)
  }

  /** `set_mode` to the current mode changes nothing. */
  lemma SetModeSameIsNoOp(m: RustMachine)
    requires RustWf(m)
    ensures SetMode(m, m.mode) == m
  {
  }

  /** After `set_mode(value)`, the mode is `value` and cpsr bits 0-4 hold its encoding. */
  lemma SetModeWritesEncoding(m: RustMachine, value: Mode)
    requires RustWf(m) && value != m.mode
    ensures SetMode(m, value).mode == value && SetMode(m, value).cpsr & 0x1F == ModeMask(value)
  {
    var s := Enter(Leave(m), value);
    assert SetMode(m, value).cpsr == WithModeBits(s.cpsr, value);
    CpuProperties.WithModeBitsEffect(s.cpsr, value);
  }

  /** `set_flag` writes the flag and changes no other flag and no mode bit. */
  lemma SetFlagOnlyItsBit(m: RustMachine, f: Flag, value: bool)
    ensures Flags(SetFlag(m, f, value).cpsr) == With(Flags(m.cpsr), f, value)
    ensures SetFlag(m, f, value).cpsr & 0x1F == m.cpsr & 0x1F
  {
    FlagsOfSet(m.cpsr, f, value);
  }

  /** After `switch_state`, every slot is zero and bit 0 picks the fill. */
  lemma SwitchStateFlushes(m: RustMachine, state: bv32)
    ensures var (r, fill) := SwitchState(m, state);
      (forall i :: 0 <= i < |r.pipeline| ==> r.pipeline[i] == 0) && |r.pipeline| == 3 &&
      (fill == Thumb <==> state & 1 == 1)
  {
  }

  /**
   * Entering IRQ mode from User mode and leaving it again gives back every
   * register, and the cpsr saved on the way in (the mode bits already
   * User's).
   */
  lemma IrqRoundTripRegisters(m: RustMachine)
    requires RustWf(m) && m.mode == User
    ensures SetMode(SetMode(m, Interrupt), User).register == m.register
  {
    var a := SetMode(m, Interrupt);
    var l := LeaveUser(m);
    assert a.register == EnterBanked(l, Interrupt).register;
    var b := LeaveBanked(a);
    assert SetMode(a, User).register == EnterUser(b).register;
    assert EnterUser(b).register == CopyInto(b.reg, b.register, 8, 0, 7);
    assert b.reg == l.reg;
    assert forall i :: 0 <= i < 16 ==> CopyInto(b.reg, b.register, 8, 0, 7)[i] == m.register[i];
  }

  lemma IrqRoundTripStatus(m: RustMachine)
    requires RustWf(m) && m.mode == User && m.cpsr & 0x1F == ModeMask(User)
    ensures SetMode(SetMode(m, Interrupt), User).cpsr == m.cpsr
  {
    var a := SetMode(m, Interrupt);
    assert a.bankReg[2] == m.cpsr;
    var b := LeaveBanked(a);
    assert b.cpsr == m.cpsr;
    assert SetMode(a, User).cpsr == WithModeBits(m.cpsr, User);
    KeepsOwnModeBits(m.cpsr, User);
  }

  /** Writing a mode's encoding into a status word that already holds it changes nothing. */
  lemma KeepsOwnModeBits(cpsr: bv32, value: Mode)
    requires cpsr & 0x1F == ModeMask(value)
    ensures WithModeBits(cpsr, value) == cpsr
  {
    var k := ModeMask(value);
    assert WithModeBits(cpsr, value) == (cpsr & !0x1F) | k;
    SplitAtModeBits(cpsr, k);
  }

  lemma SplitAtModeBits(cpsr: bv32, k: bv32)
    requires cpsr & 0x1F == k
    ensures (cpsr & !0x1F) | k == cpsr
  {
  }
}
