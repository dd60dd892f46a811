/**
 * ARM single data transfers (cpu/arm/Memory.kt): SWP, LDR and STR with an
 * immediate or shifted-register offset, and the halfword and signed
 * transfers LDRH, LDRSB, LDRSH and STRH. A handler that only loads is a
 * function to a `Machine`; one that stores returns a `ThumbMemory.Access`,
 * the machine and the memory after it. Bus timing is not modelled.
 */
module ArmTransfer {
  import opened Extensions
  import opened Memory
  import opened CpuUtils
  import opened CpuFlags
  import opened CpuModel
  import opened CpuProperties
  import opened BarrelShifter
  import opened Processor
  import opened Transfers
  import opened SignExtend
  import ArmDataProcessing
  import ThumbMemory

  /* Fields. */

  /** The base register, bits 16-19. */
  function BaseRegister(instr: bv32): (r: nat)
    ensures r < 16
  {
    ArmDataProcessing.RegisterAt(instr, 16)
  }

  /** `srcOrDst`, bits 12-15. */
  function DataRegister(instr: bv32): (r: nat)
    ensures r < 16
  {
    ArmDataProcessing.RegisterAt(instr, 12)
  }

  /** Bit 24: the offset is applied before the access. */
  predicate Pre(instr: bv32)
  {
    Bit(instr, 24)
  }

  /** Bit 23: the offset is added rather than subtracted. */
  predicate Up(instr: bv32)
  {
    Bit(instr, 23)
  }

  /** `(pre && instruction bit 21) || !pre`: post-indexing always writes the base back. */
  predicate WritesBack(instr: bv32)
  {
    (Pre(instr) && Bit(instr, 21)) || !Pre(instr)
  }

  /** `addressWithOffset`: the base plus or minus the offset. */
  function Indexed(base: bv32, offset: bv32, up: bool): bv32
  {
    if up then Plus(base, offset) else Minus(base, offset)
  }

  /** `address`: the indexed address before the access, the bare base after it. */
  function Address(base: bv32, offset: bv32, instr: bv32): bv32
  {
    if Pre(instr) then Indexed(base, offset, Up(instr)) else base
  }

  /** `saveAddressWithOffsetIfEnabled`. */
  function WriteBack(m: Machine, instr: bv32, offset: bv32): (r: Machine)
    requires Wf(m)
    ensures Wf(r)
  {
    var base := BaseRegister(instr);
    if WritesBack(instr) then WriteRegister(m, base, Indexed(m.registers[base], offset, Up(instr))) else m
  }

  /* LDR and STR. */

  /**
   * The offset of LDR and STR: with bit 25 the register in bits 0-3 through
   * the barrel shifter (`cpu.operand`, whose carry-out lands in
   * `shifterCarry`), otherwise the 12-bit immediate, `shifterCarry` kept.
   */
  function WordOffset(m: Machine, instr: bv32): Shifted
    requires Wf(m)
  {
    if Bit(instr, 25) then Operand(instr >> 4, m.registers[RegisterIndex(instr)], m.registers, Get(m.cpsr, C))
    else Shifted(instr & 0xFFF, m.shifterCarry)
  }

  /** The machine once the offset is computed and the base written back. */
  function Indexing(m: Machine, instr: bv32, o: Shifted): (r: Machine)
    requires Wf(m)
    ensures Wf(r)
  {
    WriteBack(m.(shifterCarry := o.carry), instr, o.value)
  }

  /** The address LDR reads. */
  function LdrAddress(m: Machine, instr: bv32): bv32
    requires Wf(m)
  {
    Address(m.registers[BaseRegister(instr)], WordOffset(m, instr).value, instr)
  }

  /** The value LDR loads: a zero-extended byte with bit 22, else the word rotated by the misalignment. */
  function LdrValue(m: Machine, mem: Mem, instr: bv32): bv32
    requires Wf(m)
  {
    ThumbMemory.LoadUnit(mem, LdrAddress(m, instr), Bit(instr, 22))
  }

  /**
   * `armLdr` as written: the load, the write-back, then a plain
   * `registers[srcOrDst] = value`, which for r15 moves pc without
   * refilling the pipeline.
   */
  function LdrAsWritten(m: Machine, mem: Mem, instr: bv32): (r: Machine)
    requires Wf(m)
    ensures Wf(r)
  {
    WriteRegister(Indexing(m, instr, WordOffset(m, instr)), DataRegister(instr), LdrValue(m, mem, instr))
  }

  /** `armLdr` with the destination written by `setRegister`, which refills the pipeline when it is r15. */
  function Ldr(m: Machine, mem: Mem, instr: bv32): (r: Machine)
    requires Wf(m)
    ensures Wf(r)
  {
    SetRegister(Indexing(m, instr, WordOffset(m, instr)), mem, DataRegister(instr), LdrValue(m, mem, instr))
  }

  /**
   * LDR into a register below pc: the loaded value lands in Rd, the base is
   * written back exactly when post-indexed or bit 21 is set, and the load
   * wins when Rd is the base; no other register changes.
   */
  lemma LdrRegisters(m: Machine, mem: Mem, instr: bv32)
    requires Wf(m) && DataRegister(instr) != 15
    ensures var base := BaseRegister(instr); var o := WordOffset(m, instr);
      var indexed := if WritesBack(instr) then m.registers[base := Indexed(m.registers[base], o.value, Up(instr))] else m.registers;
      Ldr(m, mem, instr).registers == indexed[DataRegister(instr) := LdrValue(m, mem, instr)]
  {
  }

  /** A word LDR from an aligned address reads the word there unrotated. */
  lemma LdrAlignedWord(m: Machine, mem: Mem, instr: bv32)
    requires Wf(m) && !Bit(instr, 22) && LdrAddress(m, instr) & 3 == 0
    ensures LdrValue(m, mem, instr) == Read32(mem, LdrAddress(m, instr))
  {
  }

  /** An immediate offset leaves `shifterCarry`; a register offset leaves the shifter's carry-out there. */
  lemma LdrShifterCarry(m: Machine, mem: Mem, instr: bv32)
    requires Wf(m) && DataRegister(instr) != 15
    ensures Ldr(m, mem, instr).shifterCarry ==
      if Bit(instr, 25) then Operand(instr >> 4, m.registers[RegisterIndex(instr)], m.registers, Get(m.cpsr, C)).carry
      else m.shifterCarry
  {
  }

  /** LDR into pc branches: pc lands one word past the loaded address aligned down and the pipeline holds the words there. */
  lemma LdrPcBranches(m: Machine, mem: Mem, instr: bv32)
    requires Wf(m) && DataRegister(instr) == 15 && m.state == Arm
    ensures var r := Ldr(m, mem, instr);
      Pc(r) == RefillPc(Arm, LdrValue(m, mem, instr)) && Coherent(r, mem)
  {
    var p := Indexing(m, instr, WordOffset(m, instr));
    var v := LdrValue(m, mem, instr);
    assert Ldr(m, mem, instr) == SetRegister(p, mem, 15, v);
    SetPcArm(p, mem, v);
    SetPcLandsAt(p, mem, v);
  }

  /** As written, LDR into pc leaves the pipeline as it was: the next instruction executed is the one fetched before the load. */
  lemma LdrAsWrittenKeepsPipeline(m: Machine, mem: Mem, instr: bv32)
    requires Wf(m) && DataRegister(instr) == 15
    ensures LdrAsWritten(m, mem, instr).pipeline == m.pipeline
    ensures Pc(LdrAsWritten(m, mem, instr)) == LdrValue(m, mem, instr)
  {
  }

  /**
   * `LDR pc, [r0]` (0xE590F000) from the reset state, with r0 = 0 addressing
   * a word that holds 1: as written the next instruction is the stale head
   * 0, where the refill fetches the word at 0.
   */
  lemma LdrPcCounterexample()
    ensures var m := Initial(); var mem := map[At(0) := 1];
      LdrAsWritten(m, mem, 0xE590_F000).pipeline.head == 0 && Ldr(m, mem, 0xE590_F000).pipeline.head == 1
  {
    var m := Initial();
    var mem: Mem := map[At(0) := 1];
    var instr: bv32 := 0xE590_F000;
    assert !Bit(instr, 25) && !Bit(instr, 22) && Pre(instr) && !WritesBack(instr);
    assert BaseRegister(instr) == 0 && DataRegister(instr) == 15;
    assert LdrAddress(m, instr) == 0 by {
      assert WordOffset(m, instr).value == 0;
    }
    assert Read32(mem, 0) == 1 by {
      assert ReadWordAt(mem, 0) == Assemble(1, 0, 0, 0);
    }
    assert LdrValue(m, mem, instr) == 1;
  }

  /** The registers STR reads: pc is advanced by 4 (`pc += 4`) first, so a stored pc is 12 past the instruction. */
  function StrAddress(m: Machine, instr: bv32): bv32
    requires Wf(m)
  {
    var a := ArmDataProcessing.Ahead(m);
    Address(a.registers[BaseRegister(instr)], WordOffset(a, instr).value, instr)
  }

  /** The value STR stores: Rd, or pc + 4 when Rd is r15. */
  function StoredValue(m: Machine, instr: bv32): bv32
    requires Wf(m)
  {
    ArmDataProcessing.Ahead(m).registers[DataRegister(instr)]
  }

  /**
   * `armStr`: with pc advanced by 4, the offset (through the shifter with
   * bit 25), the store of a byte (bit 22) or word at the indexed address
   * (pre) or the base (post); then pc back, then the base written back when
   * post-indexed or bit 21 is set.
   */
  function Str(m: Machine, mem: Mem, instr: bv32): (r: ThumbMemory.Access)
    requires Wf(m)
    ensures Wf(r.machine)
  {
    var a := ArmDataProcessing.Ahead(m);
    var o := WordOffset(a, instr);
    var base := BaseRegister(instr);
    var address := Indexed(a.registers[base], o.value, Up(instr));
    var stored := ThumbMemory.StoreUnit(mem, if Pre(instr) then address else a.registers[base], StoredValue(m, instr), Bit(instr, 22));
    ThumbMemory.Access(Restore(a.(shifterCarry := o.carry), instr, address), stored)
  }

  /** The end of a store: `pc -= 4`, then the base gets the indexed address when post-indexed or bit 21 is set. */
  function Restore(a: Machine, instr: bv32, address: bv32): (r: Machine)
    requires Wf(a)
    ensures Wf(r)
  {
    var b := ArmDataProcessing.Behind(a);
    if WritesBack(instr) then WriteRegister(b, BaseRegister(instr), address) else b
  }

  /** STR stores Rd (pc + 4 for r15) at its address and nothing else. */
  lemma StrStores(m: Machine, mem: Mem, instr: bv32)
    requires Wf(m)
    ensures Str(m, mem, instr).memory == ThumbMemory.StoreUnit(mem, StrAddress(m, instr), StoredValue(m, instr), Bit(instr, 22))
    ensures StoredValue(m, instr) == if DataRegister(instr) == 15 then Plus(Pc(m), 4) else m.registers[DataRegister(instr)]
  {
  }

  /** STR restores pc and changes no register but a written-back base (below pc), which gets the indexed address. */
  lemma StrRegisters(m: Machine, mem: Mem, instr: bv32)
    requires Wf(m) && BaseRegister(instr) != 15
    ensures var base := BaseRegister(instr); var o := WordOffset(ArmDataProcessing.Ahead(m), instr);
      Str(m, mem, instr).machine.registers ==
        if WritesBack(instr) then m.registers[base := Indexed(m.registers[base], o.value, Up(instr))] else m.registers
  {
    var a := ArmDataProcessing.Ahead(m);
    var o := WordOffset(a, instr);
    ArmDataProcessing.AheadBehind(m);
    assert ArmDataProcessing.Behind(a.(shifterCarry := o.carry)).registers == m.registers;
  }

  /**
   * STR then LDR of a word through the same base and immediate offset,
   * pre-indexed without write-back, at an aligned address: the load gets
   * the stored register back.
   */
  lemma StrThenLdr(m: Machine, mem: Mem, str: bv32, ldr: bv32)
    requires Wf(m) && BaseRegister(str) != 15 && DataRegister(str) != 15 && DataRegister(ldr) != 15
    requires Pre(str) && !Bit(str, 21) && !Bit(str, 22) && !Bit(str, 25)
    requires Pre(ldr) && !Bit(ldr, 21) && !Bit(ldr, 22) && !Bit(ldr, 25)
    requires BaseRegister(ldr) == BaseRegister(str) && Up(ldr) == Up(str) && ldr & 0xFFF == str & 0xFFF
    requires StrAddress(m, str) & 3 == 0
    ensures var s := Str(m, mem, str);
      Ldr(s.machine, s.memory, ldr).registers[DataRegister(ldr)] == m.registers[DataRegister(str)]
  {
    var s := Str(m, mem, str);
    StrRegisters(m, mem, str);
    StrStores(m, mem, str);
    assert LdrAddress(s.machine, ldr) == StrAddress(m, str);
    LdrRegisters(s.machine, s.memory, ldr);
    StoreThenLoadWord(mem, StrAddress(m, str), StoredValue(m, str));
  }

  /* The halfword and signed transfers. */

  /** With bit 22 the immediate split over bits 8-11 and 0-3, else the register in bits 0-3. */
  function HalfOffset(registers: seq<bv32>, instr: bv32): bv32
    requires |registers| == 16
  {
    if Bit(instr, 22) then ((instr >> 4) & 0xF0) | (instr & 0xF) else registers[RegisterIndex(instr)]
  }

  /** Bits 5-6: 0 an unsigned byte, 1 a halfword, 2 a signed byte, 3 a signed halfword. */
  function HalfKind(instr: bv32): (k: bv32)
    ensures k < 4
  {
    (instr >> 5) & 3
  }

  /** What LDRH, LDRSB and LDRSH (and kind 0, a zero-extended byte) read. */
  function LoadKind(mem: Mem, address: bv32, kind: bv32): bv32
  {
    if kind == 0 then Read8(mem, address)
    else if kind == 1 then LoadHalf(mem, address)
    else if kind == 2 then LoadSignedByte(mem, address)
    else LoadSignedHalf(mem, address)
  }

  /** The address of a halfword or signed transfer. */
  function HalfAddress(m: Machine, instr: bv32): bv32
    requires Wf(m)
  {
    Address(m.registers[BaseRegister(instr)], HalfOffset(m.registers, instr), instr)
  }

  /** `armLdrhsb`: the load, the write-back, then `registers[srcOrDst] = value`. */
  function Ldrhsb(m: Machine, mem: Mem, instr: bv32): (r: Machine)
    requires Wf(m)
    ensures Wf(r)
  {
    var value := LoadKind(mem, HalfAddress(m, instr), HalfKind(instr));
    WriteRegister(WriteBack(m, instr, HalfOffset(m.registers, instr)), DataRegister(instr), value)
  }

  /** The load lands in Rd over a written-back base; no other register changes. */
  lemma LdrhsbRegisters(m: Machine, mem: Mem, instr: bv32)
    requires Wf(m)
    ensures var base := BaseRegister(instr); var offset := HalfOffset(m.registers, instr);
      var indexed := if WritesBack(instr) then m.registers[base := Indexed(m.registers[base], offset, Up(instr))] else m.registers;
      Ldrhsb(m, mem, instr).registers == indexed[DataRegister(instr) := LoadKind(mem, HalfAddress(m, instr), HalfKind(instr))]
  {
  }

  /** An unsigned halfword load at an even address is the halfword there, zero-extended. */
  lemma LdrhEven(mem: Mem, address: bv32)
    requires address & 1 == 0
    ensures LoadKind(mem, address, 1) == Read16(mem, address) && LoadKind(mem, address, 1) < 0x1_0000
  {
  }

  /** A signed byte load copies bit 7 of the byte into bits 8-31. */
  lemma LdrsbExtends(mem: Mem, address: bv32)
    ensures LoadKind(mem, address, 2) & 0xFF == Read8(mem, address)
    ensures LoadKind(mem, address, 2) >> 8 == if Read8(mem, address) & 0x80 != 0 then 0xFF_FFFF else 0
  {
    SignExtendByte(Read8(mem, address));
  }

  lemma SignExtendByte(b: bv32)
    requires b < 0x100
    ensures SignExtend8(b) & 0xFF == b
    ensures SignExtend8(b) >> 8 == if b & 0x80 != 0 then 0xFF_FFFF else 0
  {
  }

  /** `armStrhsb`: with pc advanced by 4, kinds 0 and 2 store a byte, 1 and 3 a halfword; then pc back and the write-back. */
  function Strhsb(m: Machine, mem: Mem, instr: bv32): (r: ThumbMemory.Access)
    requires Wf(m)
    ensures Wf(r.machine)
  {
    var a := ArmDataProcessing.Ahead(m);
    var base := BaseRegister(instr);
    var address := Indexed(a.registers[base], HalfOffset(a.registers, instr), Up(instr));
    var target := if Pre(instr) then address else a.registers[base];
    var src := a.registers[DataRegister(instr)];
    var kind := HalfKind(instr);
    var stored := if kind == 0 || kind == 2 then WithByte(mem, target, src) else WithHalf(mem, target, src);
    ThumbMemory.Access(Restore(a, instr, address), stored)
  }

  /** A halfword STRH stores at an even address is read back by LDRH as its low 16 bits, and by LDRSH sign-extended. */
  lemma StrhThenLoad(mem: Mem, address: bv32, value: bv32)
    requires address & 1 == 0
    ensures LoadKind(WithHalf(mem, address, value), address, 1) == value & 0xFFFF
    ensures LoadKind(WithHalf(mem, address, value), address, 3) == SignExtend16(value & 0xFFFF)
  {
    Read16WithHalf(mem, address, value);
  }

  /** STRH and STRB-kind stores restore pc and change no register but a written-back base below pc. */
  lemma StrhsbRegisters(m: Machine, mem: Mem, instr: bv32)
    requires Wf(m) && BaseRegister(instr) != 15
    ensures var base := BaseRegister(instr); var offset := HalfOffset(ArmDataProcessing.Ahead(m).registers, instr);
      Strhsb(m, mem, instr).machine.registers ==
        if WritesBack(instr) then m.registers[base := Indexed(m.registers[base], offset, Up(instr))] else m.registers
  {
    ArmDataProcessing.AheadBehind(m);
  }

  /* SWP. */

  /** `armSwp`: Rd gets the byte (bit 22) or rotated word at [Rn], then Rm (read before Rd changes) is stored there. */
  function Swp(m: Machine, mem: Mem, instr: bv32): (r: ThumbMemory.Access)
    requires Wf(m)
    ensures Wf(r.machine)
  {
    var rn := m.registers[BaseRegister(instr)];
    var rm := m.registers[RegisterIndex(instr)];
    var byte := Bit(instr, 22);
    ThumbMemory.Access(WriteRegister(m, DataRegister(instr), ThumbMemory.LoadUnit(mem, rn, byte)), ThumbMemory.StoreUnit(mem, rn, rm, byte))
  }

  /** A word SWP at an aligned address exchanges: Rd gets the old word and the word becomes Rm's old value. */
  lemma SwpExchangesWord(m: Machine, mem: Mem, instr: bv32)
    requires Wf(m) && !Bit(instr, 22) && m.registers[BaseRegister(instr)] & 3 == 0
    ensures var rn := m.registers[BaseRegister(instr)]; var r := Swp(m, mem, instr);
      r.machine.registers == m.registers[DataRegister(instr) := Read32(mem, rn)] &&
      Read32(r.memory, rn) == m.registers[RegisterIndex(instr)]
  {
    var rn := m.registers[BaseRegister(instr)];
    Read32WithWord(mem, rn, m.registers[RegisterIndex(instr)]);
  }

  /** A byte SWP exchanges Rd with the byte at [Rn], storing the low byte of Rm. */
  lemma SwpExchangesByte(m: Machine, mem: Mem, instr: bv32)
    requires Wf(m) && Bit(instr, 22)
    ensures var rn := m.registers[BaseRegister(instr)]; var r := Swp(m, mem, instr);
      r.machine.registers == m.registers[DataRegister(instr) := Read8(mem, rn)] &&
      Read8(r.memory, rn) == m.registers[RegisterIndex(instr)] & 0xFF
  {
    var rn := m.registers[BaseRegister(instr)];
    Read8WithByte(mem, rn, rn, m.registers[RegisterIndex(instr)]);
  }

  /* The processor's handlers. */

  /** `cpu.operand` or the immediate, with the shifter's carry stored. */
  method RunWordOffset(cpu: Cpu, instr: bv32) returns (offset: bv32)
    requires cpu.Valid()
    modifies cpu
    ensures cpu.Valid() && offset == WordOffset(old(cpu.View()), instr).value
    ensures cpu.View() == old(cpu.View()).(shifterCarry := WordOffset(old(cpu.View()), instr).carry)
  {
    ghost var m := cpu.View();
    if Bit(instr, 25) {
      var s := Operand(instr >> 4, cpu.registers[RegisterIndex(instr)], cpu.registers, Get(cpu.cpsr, C));
      offset := s.value;
      cpu.shifterCarry := s.carry;
    } else {
      offset := instr & 0xFFF;
    }
    assert cpu.View() == m.(shifterCarry := cpu.shifterCarry);
  }

  /** `saveAddressWithOffsetIfEnabled`. */
  method RunWriteBack(cpu: Cpu, instr: bv32, offset: bv32)
    requires cpu.Valid()
    modifies cpu
    ensures cpu.Valid() && cpu.View() == WriteBack(old(cpu.View()), instr, offset)
  {
    var base := BaseRegister(instr);
    if WritesBack(instr) {
      cpu.registers := cpu.registers[base := Indexed(cpu.registers[base], offset, Up(instr))];
    }
  }

  method RunLdr(cpu: Cpu, instr: bv32)
    requires cpu.Valid()
    modifies cpu
    ensures cpu.Valid() && cpu.View() == Ldr(old(cpu.View()), cpu.bus.memory, instr)
  {
    var value := RunLdrLoad(cpu, instr);
    cpu.SetRegister(DataRegister(instr), value);
  }

  /** `armLdr` as the source has it: Rd, r15 included, written without a refill. */
  method RunLdrAsWritten(cpu: Cpu, instr: bv32)
    requires cpu.Valid()
    modifies cpu
    ensures cpu.Valid() && cpu.View() == LdrAsWritten(old(cpu.View()), cpu.bus.memory, instr)
  {
    var value := RunLdrLoad(cpu, instr);
    ghost var p := cpu.View();
    cpu.registers := cpu.registers[DataRegister(instr) := value];
    assert cpu.View() == WriteRegister(p, DataRegister(instr), value);
  }

  /** The part of `armLdr` before Rd is written: the load and the write-back. */
  method RunLdrLoad(cpu: Cpu, instr: bv32) returns (value: bv32)
    requires cpu.Valid()
    modifies cpu
    ensures cpu.Valid() && value == LdrValue(old(cpu.View()), cpu.bus.memory, instr)
    ensures cpu.View() == Indexing(old(cpu.View()), instr, WordOffset(old(cpu.View()), instr))
  {
    ghost var m := cpu.View();
    var offset := RunWordOffset(cpu, instr);
    var address := Address(cpu.registers[BaseRegister(instr)], offset, instr);
    value := ThumbMemory.LoadUnit(cpu.bus.memory, address, Bit(instr, 22));
    assert value == LdrValue(m, cpu.bus.memory, instr);
    RunWriteBack(cpu, instr, offset);
  }

  /** `armLdrhsb`: the load by kind, the write-back, then the plain write of Rd. */
  method RunLdrhsb(cpu: Cpu, instr: bv32)
    requires cpu.Valid()
    modifies cpu
    ensures cpu.Valid() && cpu.View() == Ldrhsb(old(cpu.View()), cpu.bus.memory, instr)
  {
    var offset := HalfOffset(cpu.registers, instr);
    var value := LoadKind(cpu.bus.memory, Address(cpu.registers[BaseRegister(instr)], offset, instr), HalfKind(instr));
    RunWriteBack(cpu, instr, offset);
    cpu.registers := cpu.registers[DataRegister(instr) := value];
  }

  /** `write8` or `write32`. */
  method RunStoreUnit(bus: Bus, address: bv32, value: bv32, byte: bool)
    modifies bus
    ensures bus.memory == ThumbMemory.StoreUnit(old(bus.memory), address, value, byte)
  {
    if byte {
      bus.Write8(address, value);
    } else {
      bus.Write32(address, value);
    }
  }

  /** `pc += 4` before a store. */
  method RunAhead(cpu: Cpu)
    requires cpu.Valid()
    modifies cpu
    ensures cpu.Valid() && cpu.View() == ArmDataProcessing.Ahead(old(cpu.View()))
  {
    cpu.registers := cpu.registers[15 := Plus(cpu.registers[15], 4)];
  }

  method RunRestore(cpu: Cpu, instr: bv32, address: bv32)
    requires cpu.Valid()
    modifies cpu
    ensures cpu.Valid() && cpu.View() == Restore(old(cpu.View()), instr, address)
  {
    cpu.registers := cpu.registers[15 := Minus(cpu.registers[15], 4)];
    if WritesBack(instr) {
      cpu.registers := cpu.registers[BaseRegister(instr) := address];
    }
  }

  method RunStr(cpu: Cpu, instr: bv32)
    requires cpu.Valid()
    modifies cpu, cpu.bus
    ensures cpu.Valid()
    ensures cpu.View() == Str(old(cpu.View()), old(cpu.bus.memory), instr).machine
    ensures cpu.bus.memory == Str(old(cpu.View()), old(cpu.bus.memory), instr).memory
  {
    ghost var m := cpu.View();
    RunAhead(cpu);
    ghost var a := cpu.View();
    var offset := RunWordOffset(cpu, instr);
    var base := BaseRegister(instr);
    var address := Indexed(cpu.registers[base], offset, Up(instr));
    var src := cpu.registers[DataRegister(instr)];
    assert src == StoredValue(m, instr);
    RunStoreUnit(cpu.bus, if Pre(instr) then address else cpu.registers[base], src, Bit(instr, 22));
    RunRestore(cpu, instr, address);
  }

  method RunStrhsb(cpu: Cpu, instr: bv32)
    requires cpu.Valid()
    modifies cpu, cpu.bus
    ensures cpu.Valid()
    ensures cpu.View() == Strhsb(old(cpu.View()), old(cpu.bus.memory), instr).machine
    ensures cpu.bus.memory == Strhsb(old(cpu.View()), old(cpu.bus.memory), instr).memory
  {
    RunAhead(cpu);
    var base := BaseRegister(instr);
    var address := Indexed(cpu.registers[base], HalfOffset(cpu.registers, instr), Up(instr));
    var target := if Pre(instr) then address else cpu.registers[base];
    var src := cpu.registers[DataRegister(instr)];
    var kind := HalfKind(instr);
    if kind == 0 || kind == 2 {
      cpu.bus.Write8(target, src);
    } else {
      cpu.bus.Write16(target, src);
    }
    RunRestore(cpu, instr, address);
  }

  method RunSwp(cpu: Cpu, instr: bv32)
    requires cpu.Valid()
    modifies cpu, cpu.bus
    ensures cpu.Valid()
    ensures cpu.View() == Swp(old(cpu.View()), old(cpu.bus.memory), instr).machine
    ensures cpu.bus.memory == Swp(old(cpu.View()), old(cpu.bus.memory), instr).memory
  {
    var rn := cpu.registers[BaseRegister(instr)];
    var rm := cpu.registers[RegisterIndex(instr)];
    var byte := Bit(instr, 22);
    cpu.registers := cpu.registers[DataRegister(instr) := ThumbMemory.LoadUnit(cpu.bus.memory, rn, byte)];
    RunStoreUnit(cpu.bus, rn, rm, byte);
  }
}
