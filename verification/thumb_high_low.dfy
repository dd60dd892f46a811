/**
 * THUMB format 5, hi-register operations and branch exchange
 * (cpu/thumb/HighLow.kt). Bit 7 adds 8 to the destination index (bits 0-2)
 * and bit 6 adds 8 to the source index (bits 3-5), so these four handlers
 * reach r8-r15. MOV and ADD go through `setRegister`, so an r15 destination
 * refills the pipeline; BX writes pc directly and then switches state.
 */
module ThumbHighLow {
  import opened Extensions
  import opened CpuFlags
  import opened CpuUtils
  import opened Memory
  import opened CpuModel
  import opened CpuProperties
  import opened Processor
  import opened ThumbFields

  /** `destinationLocation` of `getOperands`: bits 0-2, plus 8 when bit 7 is set. */
  function DestinationIndex(instr: bv32): (d: nat)
    ensures d < 16
  {
    LowRegister(instr, 0) + if Bit(instr, 7) then 8 else 0
  }

  /** The register of `second`: bits 3-5, plus 8 when bit 6 is set. */
  function SourceIndex(instr: bv32): (s: nat)
    ensures s < 16
  {
    LowRegister(instr, 3) + if Bit(instr, 6) then 8 else 0
  }

  /** `first`, the destination register's value. */
  function First(m: Machine, instr: bv32): bv32
    requires Wf(m)
  {
    m.registers[DestinationIndex(instr)]
  }

  /** `second`, the source register's value. */
  function Second(m: Machine, instr: bv32): bv32
    requires Wf(m)
  {
    m.registers[SourceIndex(instr)]
  }

  /** `thumbHiLoMov`: `setRegister(destination, second)`. */
  function HiLoMov(m: Machine, mem: Mem, instr: bv32): (r: Machine)
    requires Wf(m)
    ensures Wf(r)
  {
    SetRegister(m, mem, DestinationIndex(instr), Second(m, instr))
  }

  /** `thumbHiLoAdd`: `setRegister(destination, first + second)`, with no flags. */
  function HiLoAdd(m: Machine, mem: Mem, instr: bv32): (r: Machine)
    requires Wf(m)
    ensures Wf(r)
  {
    SetRegister(m, mem, DestinationIndex(instr), Plus(First(m, instr), Second(m, instr)))
  }

  /** `thumbHiLoBx`: pc = second, then `changeState(second and 1)`. */
  function HiLoBx(m: Machine, mem: Mem, instr: bv32): (r: Machine)
    requires Wf(m)
    ensures Wf(r)
  {
    var target := Second(m, instr);
    ChangeState(WriteRegister(m, 15, target), mem, Bit(target, 0))
  }

  /**
   * `thumbHiLoCmp`: the flags of first - second. The source writes N and Z,
   * then V, then C; the four writes touch distinct bits, so the status word
   * is the one `SubtractFlags` builds.
   */
  function HiLoCmp(m: Machine, instr: bv32): (r: Machine)
    requires Wf(m)
    ensures Wf(r)
  {
    var first := First(m, instr);
    var second := Second(m, instr);
    m.(cpsr := SubtractFlags(m.cpsr, first, second, Minus(first, second)))
  }

  /** A MOV to r0-r14 writes the source value there and changes no other register, no flag and not the pipeline. */
  lemma HiLoMovPlain(m: Machine, mem: Mem, instr: bv32, i: nat)
    requires Wf(m) && DestinationIndex(instr) < 15 && i < 16
    ensures var r := HiLoMov(m, mem, instr);
      r.registers[i] == (if i == DestinationIndex(instr) then Second(m, instr) else m.registers[i]) &&
      r.cpsr == m.cpsr && r.pipeline == m.pipeline
  {
    SetRegisterPlain(m, mem, DestinationIndex(instr), Second(m, instr));
  }

  /** A MOV to r15 is a jump: pc ends one instruction past the aligned source value, with the pipeline refilled. */
  lemma HiLoMovPc(m: Machine, mem: Mem, instr: bv32)
    requires Wf(m) && DestinationIndex(instr) == 15
    ensures var r := HiLoMov(m, mem, instr); var v := Second(m, instr);
      Coherent(r, mem) && Pc(r) == RefillPc(m.state, v)
  {
    SetRegisterPcRefills(m, mem, Second(m, instr));
    SetPcLandsAt(m, mem, Second(m, instr));
  }

  /** An ADD to r0-r14 writes the wrapped sum and changes no other register and no flag. */
  lemma HiLoAddPlain(m: Machine, mem: Mem, instr: bv32, i: nat)
    requires Wf(m) && DestinationIndex(instr) < 15 && i < 16
    ensures var r := HiLoAdd(m, mem, instr);
      r.registers[i] == (if i == DestinationIndex(instr) then Plus(First(m, instr), Second(m, instr)) else m.registers[i]) &&
      r.cpsr == m.cpsr && r.pipeline == m.pipeline
  {
    SetRegisterPlain(m, mem, DestinationIndex(instr), Plus(First(m, instr), Second(m, instr)));
  }

  /** An ADD to r15 refills the pipeline at the sum. */
  lemma HiLoAddPc(m: Machine, mem: Mem, instr: bv32)
    requires Wf(m) && DestinationIndex(instr) == 15
    ensures var r := HiLoAdd(m, mem, instr); var v := Plus(First(m, instr), Second(m, instr));
      Coherent(r, mem) && Pc(r) == RefillPc(m.state, v)
  {
    SetRegisterPcRefills(m, mem, Plus(First(m, instr), Second(m, instr)));
    SetPcLandsAt(m, mem, Plus(First(m, instr), Second(m, instr)));
  }

  /** BX: the state and T follow bit 0 of the target, the other flags and the mode stay, and the pipeline is refilled. */
  lemma HiLoBxState(m: Machine, mem: Mem, instr: bv32)
    requires Wf(m)
    ensures var r := HiLoBx(m, mem, instr); var thumb := Bit(Second(m, instr), 0);
      r.state == (if thumb then Thumb else Arm) && Flags(r.cpsr) == Flags(m.cpsr).(t := thumb) &&
      r.mode == m.mode && Coherent(r, mem) && r.registers[..15] == m.registers[..15]
  {
    var w := WriteRegister(m, 15, Second(m, instr));
    assert w.registers[..15] == m.registers[..15];
    ChangeStateEffect(w, mem, Bit(Second(m, instr), 0));
  }

  /** BX: pc ends one instruction past the target aligned for the new state. */
  lemma HiLoBxPc(m: Machine, mem: Mem, instr: bv32)
    requires Wf(m)
    ensures var v := Second(m, instr);
      Pc(HiLoBx(m, mem, instr)) == RefillPc(if Bit(v, 0) then Thumb else Arm, v)
  {
    var v := Second(m, instr);
    var w := WriteRegister(m, 15, v);
    var s := w.(state := if Bit(v, 0) then Thumb else Arm, cpsr := Set(w.cpsr, T, Bit(v, 0)));
    assert HiLoBx(m, mem, instr) == Refill(s, mem);
    RefillLandsAt(s, mem);
  }

  /** CMP writes no register; its flags are those of first - second, with Z iff equal and C iff first >= second. */
  lemma HiLoCmpFlags(m: Machine, instr: bv32)
    requires Wf(m)
    ensures var a := First(m, instr); var b := Second(m, instr); var r := HiLoCmp(m, instr);
      r.registers == m.registers &&
      Flags(r.cpsr) == Flags(m.cpsr).(n := Negative(Minus(a, b)), z := a == b, c := a >= b, v := SubOverflow(Minus(a, b), a, b))
  {
    var a := First(m, instr);
    var b := Second(m, instr);
    HiLoCmpSetsNZCV(m, instr);
    MinusZero(a, b);
  }

  lemma HiLoCmpSetsNZCV(m: Machine, instr: bv32)
    requires Wf(m)
    ensures var a := First(m, instr); var b := Second(m, instr);
      Flags(HiLoCmp(m, instr).cpsr) == Flags(m.cpsr).(n := Negative(Minus(a, b)), z := Minus(a, b) == 0,
        c := NoBorrow(a, b, true), v := SubOverflow(Minus(a, b), a, b))
  {
    var a := First(m, instr);
    var b := Second(m, instr);
    assert HiLoCmp(m, instr).cpsr == SetNZCV(m.cpsr, Minus(a, b), NoBorrow(a, b, true), SubOverflow(Minus(a, b), a, b));
    FlagsOfSetNZCV(m.cpsr, Minus(a, b), NoBorrow(a, b, true), SubOverflow(Minus(a, b), a, b));
  }

  lemma HiLoCmpKeepsControl(m: Machine, instr: bv32)
    requires Wf(m)
    ensures SameControl(HiLoCmp(m, instr).cpsr, m.cpsr)
  {
    var a := First(m, instr);
    var b := Second(m, instr);
    assert HiLoCmp(m, instr).cpsr == SetNZCV(m.cpsr, Minus(a, b), NoBorrow(a, b, true), SubOverflow(Minus(a, b), a, b));
    SetNZCVKeepsControl(m.cpsr, Minus(a, b), NoBorrow(a, b, true), SubOverflow(Minus(a, b), a, b));
  }

  method RunHiLoMov(cpu: Cpu, instr: bv32)
    requires cpu.Valid()
    modifies cpu
    ensures cpu.Valid() && cpu.View() == HiLoMov(old(cpu.View()), cpu.bus.memory, instr)
  {
    var second := cpu.registers[SourceIndex(instr)];
    cpu.SetRegister(DestinationIndex(instr), second);
  }

  method RunHiLoAdd(cpu: Cpu, instr: bv32)
    requires cpu.Valid()
    modifies cpu
    ensures cpu.Valid() && cpu.View() == HiLoAdd(old(cpu.View()), cpu.bus.memory, instr)
  {
    var first := cpu.registers[DestinationIndex(instr)];
    var second := cpu.registers[SourceIndex(instr)];
    cpu.SetRegister(DestinationIndex(instr), Plus(first, second));
  }

  method RunHiLoBx(cpu: Cpu, instr: bv32)
    requires cpu.Valid()
    modifies cpu
    ensures cpu.Valid() && cpu.View() == HiLoBx(old(cpu.View()), cpu.bus.memory, instr)
  {
    var second := cpu.registers[SourceIndex(instr)];
    cpu.registers := cpu.registers[15 := second];
    cpu.ChangeState(Bit(second, 0));
  }

  method RunHiLoCmp(cpu: Cpu, instr: bv32)
    requires cpu.Valid()
    modifies cpu
    ensures cpu.Valid() && cpu.View() == HiLoCmp(old(cpu.View()), instr)
  {
    var first := cpu.registers[DestinationIndex(instr)];
    var second := cpu.registers[SourceIndex(instr)];
    cpu.cpsr := SubtractFlags(cpu.cpsr, first, second, Minus(first, second));
  }
}
