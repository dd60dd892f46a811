/**
 * THUMB loads and stores (cpu/thumb/Memory.kt): the single transfers of
 * formats 6 to 11, the address computations LdPcSp and SpOff, and the block
 * transfers PUSH, POP, STMIA and LDMIA. A handler that only loads is a
 * function to a `Machine`; one that may store returns an `Access`, the
 * machine and the memory after it. The bus timing the handlers also drive
 * (`idle`, `prefetchAccess`, sequential access types) is not modelled.
 */
module ThumbMemory {
  import opened Extensions
  import opened Memory
  import opened CpuUtils
  import opened CpuModel
  import opened CpuProperties
  import opened Processor
  import opened ThumbFields
  import opened Transfers

  /** The machine and the memory after a handler. */
  datatype Access = Access(machine: Machine, memory: Mem)

  /** Bits 8-10 name the register of formats 6, 11 and 12 and the base of STMIA and LDMIA. */
  function HighLow(instr: bv32): (r: nat)
    ensures r < 8
  {
    LowRegister(instr, 8)
  }

  /** `(instr and 0xFF) shl 2`: an eight-bit word offset. */
  function WordOffset(instr: bv32): bv32
  {
    (instr & 0xFF) << 2
  }

  /** `pc.and(3.inv()) + immediate`: the address of a pc-relative load. */
  function PcRelativeAddress(m: Machine, instr: bv32): bv32
    requires Wf(m)
  {
    Plus(AlignWord(Pc(m)), WordOffset(instr))
  }

  /** `thumbLdrPcrelImm`: Rd (bits 8-10) = the word at the pc-relative address. */
  function LdrPcRel(m: Machine, mem: Mem, instr: bv32): (r: Machine)
    requires Wf(m)
    ensures Wf(r)
  {
    WriteRegister(m, HighLow(instr), LoadWord(mem, PcRelativeAddress(m, instr)))
  }

  /** The pc-relative address is word-aligned, so the load is the plain word there. */
  lemma LdrPcRelLoadsWord(m: Machine, mem: Mem, instr: bv32)
    requires Wf(m)
    ensures PcRelativeAddress(m, instr) & 3 == 0
    ensures LdrPcRel(m, mem, instr).registers[HighLow(instr)] == Read32(mem, PcRelativeAddress(m, instr))
  {
    var a := PcRelativeAddress(m, instr);
    assert a == AlignWord(Pc(m)) + WordOffset(instr);
    AlignedSum(Pc(m), instr);
    LoadWordAligned(mem, a);
  }

  lemma AlignedSum(pc: bv32, instr: bv32)
    ensures (AlignWord(pc) + WordOffset(instr)) & 3 == 0
  {
    assert AlignWord(pc) == pc & !3;
    assert WordOffset(instr) == (instr & 0xFF) << 2;
    AlignedSumRaw(pc, instr);
  }

  lemma AlignedSumRaw(pc: bv32, instr: bv32)
    ensures ((pc & !3) + ((instr & 0xFF) << 2)) & 3 == 0
  {
  }

  lemma LoadWordAligned(mem: Mem, address: bv32)
    requires address & 3 == 0
    ensures LoadWord(mem, address) == Read32(mem, address)
  {
  }

  /** `getAddress`: Rb (bits 3-5) + Ro (bits 6-8). */
  function RegisterOffsetAddress(m: Machine, instr: bv32): bv32
    requires Wf(m)
  {
    Plus(m.registers[LowRegister(instr, 6)], m.registers[LowRegister(instr, 3)])
  }

  /** The value of Rd (bits 0-2), which a store writes. */
  function StoredValue(m: Machine, instr: bv32): bv32
    requires Wf(m)
  {
    m.registers[LowRegister(instr, 0)]
  }

  /** Loads to Rd (bits 0-2). */
  function LoadInto(m: Machine, instr: bv32, value: bv32): (r: Machine)
    requires Wf(m)
    ensures Wf(r)
  {
    WriteRegister(m, LowRegister(instr, 0), value)
  }

  /** A zero-extended byte or a rotated word: the loads of formats 7 and 9. */
  function LoadUnit(mem: Mem, address: bv32, byte: bool): bv32
  {
    if byte then Read8(mem, address) else LoadWord(mem, address)
  }

  /** The low byte or the whole word of a value: the stores of formats 7 and 9. */
  function StoreUnit(mem: Mem, address: bv32, value: bv32, byte: bool): Mem
  {
    if byte then WithByte(mem, address, value) else WithWord(mem, address, value)
  }

  /**
   * `thumbLdrStrRegOff`: bit 11 loads, bit 10 moves a byte (zero-extended
   * on a load, the low eight bits of Rd on a store) instead of a word.
   */
  function LdrStrRegOff(m: Machine, mem: Mem, instr: bv32): (r: Access)
    requires Wf(m)
    ensures Wf(r.machine)
  {
    var address := RegisterOffsetAddress(m, instr);
    if Bit(instr, 11) then
      Access(LoadInto(m, instr, LoadUnit(mem, address, Bit(instr, 10))), mem)
    else
      Access(m, StoreUnit(mem, address, StoredValue(m, instr), Bit(instr, 10)))
  }

  /** `thumbStrh`: the low halfword of Rd at Rb + Ro. */
  function Strh(m: Machine, mem: Mem, instr: bv32): Mem
    requires Wf(m)
  {
    WithHalf(mem, RegisterOffsetAddress(m, instr), StoredValue(m, instr))
  }

  /** `thumbLdrh`. */
  function Ldrh(m: Machine, mem: Mem, instr: bv32): (r: Machine)
    requires Wf(m)
    ensures Wf(r)
  {
    LoadInto(m, instr, LoadHalf(mem, RegisterOffsetAddress(m, instr)))
  }

  /** `thumbLdsb`. */
  function Ldsb(m: Machine, mem: Mem, instr: bv32): (r: Machine)
    requires Wf(m)
    ensures Wf(r)
  {
    LoadInto(m, instr, LoadSignedByte(mem, RegisterOffsetAddress(m, instr)))
  }

  /** `thumbLdsh`. */
  function Ldsh(m: Machine, mem: Mem, instr: bv32): (r: Machine)
    requires Wf(m)
    ensures Wf(r)
  {
    LoadInto(m, instr, LoadSignedHalf(mem, RegisterOffsetAddress(m, instr)))
  }

  /** `(instr ushr 4) and 0x7C`: the five-bit immediate of format 9, in words. */
  function ImmediateOffset(instr: bv32): bv32
  {
    (instr >> 4) & 0x7C
  }

  /** The address of a format 9 access: the byte form uses the immediate unscaled. */
  function ImmediateAddress(base: bv32, instr: bv32): bv32
  {
    if Bit(instr, 12) then Plus(base, ImmediateOffset(instr) >> 2) else Plus(base, ImmediateOffset(instr))
  }

  /** `thumbLdrStrImmOff`: bit 11 loads, bit 12 moves a byte. */
  function LdrStrImmOff(m: Machine, mem: Mem, instr: bv32): (r: Access)
    requires Wf(m)
    ensures Wf(r.machine)
  {
    var address := ImmediateAddress(m.registers[LowRegister(instr, 3)], instr);
    if Bit(instr, 11) then
      Access(LoadInto(m, instr, LoadUnit(mem, address, Bit(instr, 12))), mem)
    else
      Access(m, StoreUnit(mem, address, StoredValue(m, instr), Bit(instr, 12)))
  }

  /** `Rb + ((instr ushr 5) and 0x3E)`: the address of a format 10 access. */
  function HalfImmediateAddress(m: Machine, instr: bv32): bv32
    requires Wf(m)
  {
    Plus(m.registers[LowRegister(instr, 3)], (instr >> 5) & 0x3E)
  }

  /** `thumbLdrhStrhImmOff`: bit 11 loads. */
  function LdrhStrhImmOff(m: Machine, mem: Mem, instr: bv32): (r: Access)
    requires Wf(m)
    ensures Wf(r.machine)
  {
    var address := HalfImmediateAddress(m, instr);
    if Bit(instr, 11) then Access(LoadInto(m, instr, LoadHalf(mem, address)), mem)
    else Access(m, WithHalf(mem, address, StoredValue(m, instr)))
  }

  /** `registers[13] + ((instr and 0xFF) shl 2)`. */
  function SpRelativeAddress(m: Machine, instr: bv32): bv32
    requires Wf(m)
  {
    Plus(m.registers[13], WordOffset(instr))
  }

  /** `thumbLdrStrSpRel`: a word between Rd (bits 8-10) and sp + offset; bit 11 loads. */
  function LdrStrSpRel(m: Machine, mem: Mem, instr: bv32): (r: Access)
    requires Wf(m)
    ensures Wf(r.machine)
  {
    var address := SpRelativeAddress(m, instr);
    if Bit(instr, 11) then Access(WriteRegister(m, HighLow(instr), LoadWord(mem, address)), mem)
    else Access(m, WithWord(mem, address, m.registers[HighLow(instr)]))
  }

  /** `pc and (2.inv())`: pc with bit 1 cleared. */
  function ClearBit1(pc: bv32): bv32
  {
    pc & !2
  }

  /** `thumbLdPcSp`: Rd (bits 8-10) = sp + offset when bit 11 is set, else pc with bit 1 clear + offset. */
  function LdPcSp(m: Machine, instr: bv32): (r: Machine)
    requires Wf(m)
    ensures Wf(r)
  {
    var value := if Bit(instr, 11) then Plus(m.registers[13], WordOffset(instr)) else Plus(ClearBit1(Pc(m)), WordOffset(instr));
    WriteRegister(m, HighLow(instr), value)
  }

  /** With pc halfword-aligned, as it always is in THUMB state, the pc form is word-aligned. */
  lemma LdPcSpAligned(m: Machine, instr: bv32)
    requires Wf(m) && !Bit(instr, 11) && Pc(m) & 1 == 0
    ensures LdPcSp(m, instr).registers[HighLow(instr)] & 3 == 0
  {
    assert LdPcSp(m, instr).registers[HighLow(instr)] == Plus(ClearBit1(Pc(m)), WordOffset(instr));
    ClearedPcAligned(Pc(m), instr);
  }

  lemma ClearedPcAligned(pc: bv32, instr: bv32)
    requires pc & 1 == 0
    ensures Plus(ClearBit1(pc), WordOffset(instr)) & 3 == 0
  {
    assert ClearBit1(pc) == pc & !2;
    assert WordOffset(instr) == (instr & 0xFF) << 2;
    assert Plus(pc & !2, (instr & 0xFF) << 2) == (pc & !2) + ((instr & 0xFF) << 2);
    ClearedPcAlignedRaw(pc, instr);
  }

  lemma ClearedPcAlignedRaw(pc: bv32, instr: bv32)
    requires pc & 1 == 0
    ensures ((pc & !2) + ((instr & 0xFF) << 2)) & 3 == 0
  {
  }

  /** `(instr and 0x7F) shl 2`: the offset SpOff adds to or subtracts from sp. */
  function SpOffset(instr: bv32): bv32
  {
    (instr & 0x7F) << 2
  }

  /** `thumbSpOff`: sp -= offset when bit 7 is set, else sp += offset. */
  function SpOff(m: Machine, instr: bv32): (r: Machine)
    requires Wf(m)
    ensures Wf(r)
  {
    var sp := m.registers[13];
    WriteRegister(m, 13, if Bit(instr, 7) then Minus(sp, SpOffset(instr)) else Plus(sp, SpOffset(instr)))
  }

  /** Adding an offset to sp and then subtracting the same offset restores sp. */
  lemma SpOffRoundTrip(m: Machine, add: bv32, sub: bv32)
    requires Wf(m) && !Bit(add, 7) && Bit(sub, 7) && add & 0x7F == sub & 0x7F
    ensures SpOff(SpOff(m, add), sub).registers[13] == m.registers[13]
  {
    var sp := m.registers[13];
    assert SpOff(m, add).registers[13] == Plus(sp, SpOffset(add));
    SameSpOffset(add, sub);
    assert SpOff(SpOff(m, add), sub).registers[13] == Minus(Plus(sp, SpOffset(add)), SpOffset(add));
    MinusPlus(sp, SpOffset(add));
  }

  lemma SameSpOffset(a: bv32, b: bv32)
    requires a & 0x7F == b & 0x7F
    ensures SpOffset(a) == SpOffset(b)
  {
  }

  /** SpOff changes sp alone. */
  lemma SpOffKeeps(m: Machine, instr: bv32, i: nat)
    requires Wf(m) && i < 16 && i != 13
    ensures SpOff(m, instr).registers[i] == m.registers[i]
    ensures SpOff(m, instr).(registers := m.registers) == m
  {
  }

  /* PUSH and POP. */

  /** `registers[13] - n * 4` with n the number of registers in bits 0-8: the lowest slot of a PUSH. */
  function PushStart(m: Machine, instr: bv32): bv32
    requires Wf(m)
  {
    Minus(m.registers[13], Words(Rank(instr, 9)))
  }

  /**
   * `thumbPush`: r0-r7 as listed, then lr when bit 8 is set, stored at
   * ascending addresses from `PushStart`; sp = `PushStart`.
   */
  function Push(m: Machine, mem: Mem, instr: bv32): (r: Access)
    requires Wf(m)
    ensures Wf(r.machine)
  {
    PushWith(m, instr, StoreLow(mem, m.registers, instr, 0, PushStart(m, instr), 0))
  }

  /** The end of `thumbPush` once the low registers are stored. */
  function PushWith(m: Machine, instr: bv32, s: Stored): (r: Access)
    requires Wf(m)
    ensures Wf(r.machine)
  {
    var start := PushStart(m, instr);
    Access(WriteRegister(m, 13, start),
      if Bit(instr, 8) then WithWord(s.memory, Plus(start, s.offset), m.registers[14]) else s.memory)
  }

  /** The slot of the register of rank k in a block from `base`. */
  function Slot(base: bv32, k: nat): bv32
  {
    Plus(base, Words(k))
  }

  /** PUSH fills exactly the words below the old sp: its last slot ends at the old sp. */
  lemma PushEndsAtSp(m: Machine, instr: bv32)
    requires Wf(m)
    ensures Slot(PushStart(m, instr), Rank(instr, 9)) == m.registers[13]
  {
    var w := Words(Rank(instr, 9));
    assert Slot(PushStart(m, instr), Rank(instr, 9)) == Plus(Minus(m.registers[13], w), w);
    PlusMinus(m.registers[13], w);
  }

  lemma PlusMinus(a: bv32, b: bv32)
    ensures Plus(Minus(a, b), b) == a
  {
    assert Minus(a, b) == a - b;
    assert Plus(a - b, b) == (a - b) + b;
    WordPlusMinus(a, b);
  }

  lemma WordPlusMinus(a: bv32, b: bv32)
    ensures (a - b) + b == a
  {
  }

  /** PUSH's memory: the low registers stored from `PushStart`, then lr in the slot after them when bit 8 is set. */
  lemma PushMemory(m: Machine, mem: Mem, instr: bv32)
    requires Wf(m)
    ensures var s := StoreLow(mem, m.registers, instr, 0, PushStart(m, instr), Words(Rank(instr, 0)));
      Push(m, mem, instr).memory
      == if Bit(instr, 8) then WithWord(s.memory, Slot(PushStart(m, instr), Rank(instr, 8)), m.registers[14]) else s.memory
  {
    assert Words(Rank(instr, 0)) == 0;
    StoreLowOffset(mem, m.registers, instr, 0, PushStart(m, instr));
  }

  /** PUSH stores each listed low register in the slot of its rank. */
  lemma PushStoresListed(m: Machine, mem: Mem, instr: bv32, j: nat)
    requires Wf(m) && j < 8 && Bit(instr, j)
    ensures Read32(Push(m, mem, instr).memory, Slot(PushStart(m, instr), Rank(instr, j))) == m.registers[j]
  {
    var start := PushStart(m, instr);
    var s := StoreLow(mem, m.registers, instr, 0, start, Words(Rank(instr, 0)));
    PushMemory(m, mem, instr);
    StoreLowListed(mem, m.registers, instr, 0, start, j);
    if Bit(instr, 8) {
      RankIncreases(instr, j, 8);
      StoreMissesBelow(s.memory, start, Rank(instr, 8), Rank(instr, j), m.registers[14]);
    }
  }

  /** With bit 8 set PUSH stores lr in the last slot, just below the old sp. */
  lemma PushStoresLr(m: Machine, mem: Mem, instr: bv32)
    requires Wf(m) && Bit(instr, 8)
    ensures Read32(Push(m, mem, instr).memory, Slot(PushStart(m, instr), Rank(instr, 8))) == m.registers[14]
  {
    var s := StoreLow(mem, m.registers, instr, 0, PushStart(m, instr), Words(Rank(instr, 0)));
    PushMemory(m, mem, instr);
    Read32WithWord(s.memory, Slot(PushStart(m, instr), Rank(instr, 8)), m.registers[14]);
  }

  /**
   * `thumbPop`: r0-r7 as listed loaded from ascending addresses from sp;
   * with bit 8 set pc is loaded from the next word and the pipeline
   * refilled; sp rises past the words read.
   */
  function Pop(m: Machine, mem: Mem, instr: bv32): (r: Machine)
    requires Wf(m)
    ensures Wf(r)
  {
    PopWith(m, mem, instr, LoadLow(m.registers, mem, instr, 0, m.registers[13], 0))
  }

  /** The end of `thumbPop` once the low registers are loaded. */
  function PopWith(m: Machine, mem: Mem, instr: bv32, l: Loaded): (r: Machine)
    requires Wf(m) && |l.registers| == 16
    ensures Wf(r)
  {
    var sp := m.registers[13];
    var loaded := m.(registers := l.registers);
    if Bit(instr, 8) then
      WriteRegister(ThumbRefill(WriteRegister(loaded, 15, Read32(mem, Plus(sp, l.offset))), mem), 13, Plus(sp, NextWord(l.offset)))
    else
      WriteRegister(loaded, 13, Plus(sp, l.offset))
  }

  /** POP leaves sp past every word it read: one per listed register, pc included. */
  lemma PopRaisesSp(m: Machine, mem: Mem, instr: bv32)
    requires Wf(m)
    ensures Pop(m, mem, instr).registers[13] == Slot(m.registers[13], Rank(instr, 9))
  {
    var l := LoadLow(m.registers, mem, instr, 0, m.registers[13], 0);
    assert Words(Rank(instr, 0)) == 0;
    LoadLowOffset(m.registers, mem, instr, 0, m.registers[13]);
    PopWithSp(m, mem, instr, l);
    ListSize(instr);
  }

  /** sp after POP is sp plus the bytes the loop read, plus one word for pc. */
  lemma PopWithSp(m: Machine, mem: Mem, instr: bv32, l: Loaded)
    requires Wf(m) && |l.registers| == 16
    ensures PopWith(m, mem, instr, l).registers[13] ==
      Plus(m.registers[13], if Bit(instr, 8) then NextWord(l.offset) else l.offset)
  {
  }

  /** The whole PUSH or POP list is the low list and one word more when bit 8 is set. */
  lemma ListSize(instr: bv32)
    ensures Words(Rank(instr, 9)) == if Bit(instr, 8) then NextWord(Words(Rank(instr, 8))) else Words(Rank(instr, 8))
  {
    assert Rank(instr, 9) == Rank(instr, 8) + (if Bit(instr, 8) then 1 else 0);
  }

  /** The low registers after POP are those the load loop left. */
  lemma PopLowRegisters(m: Machine, mem: Mem, instr: bv32, j: nat)
    requires Wf(m) && j < 8
    ensures Pop(m, mem, instr).registers[j] == LoadLow(m.registers, mem, instr, 0, m.registers[13], 0).registers[j]
  {
    var l := LoadLow(m.registers, mem, instr, 0, m.registers[13], 0);
    if Bit(instr, 8) {
      var w := WriteRegister(m.(registers := l.registers), 15, Read32(mem, Plus(m.registers[13], l.offset)));
      ThumbRefillKeeps(w, mem);
      assert ThumbRefill(w, mem).registers[j] == ThumbRefill(w, mem).registers[..15][j];
    }
  }

  /** POP loads each listed low register from the slot of its rank above sp. */
  lemma PopLoadsListed(m: Machine, mem: Mem, instr: bv32, j: nat)
    requires Wf(m) && j < 8 && Bit(instr, j)
    ensures Pop(m, mem, instr).registers[j] == Read32(mem, Slot(m.registers[13], Rank(instr, j)))
  {
    PopLowRegisters(m, mem, instr, j);
    assert Words(Rank(instr, 0)) == 0;
    LoadLowListed(m.registers, mem, instr, 0, m.registers[13], j);
  }

  /** POP leaves an unlisted low register alone. */
  lemma PopKeepsUnlisted(m: Machine, mem: Mem, instr: bv32, j: nat)
    requires Wf(m) && j < 8 && !Bit(instr, j)
    ensures Pop(m, mem, instr).registers[j] == m.registers[j]
  {
    PopLowRegisters(m, mem, instr, j);
    LoadLowKeeps(m.registers, mem, instr, 0, m.registers[13], 0, j);
  }

  /**
   * POP with the list of a PUSH undoes it: every low register has its value
   * from before the PUSH again and sp is back where it was. (Both handlers
   * read only the list in bits 0-8, so one instruction word stands for both.)
   */
  lemma PopAfterPush(m: Machine, mem: Mem, instr: bv32, j: nat)
    requires Wf(m) && j < 8
    ensures var p := Push(m, mem, instr);
      Pop(p.machine, p.memory, instr).registers[j] == m.registers[j]
  {
    var p := Push(m, mem, instr);
    assert p.machine.registers[13] == PushStart(m, instr);
    assert p.machine.registers[j] == m.registers[j];
    if Bit(instr, j) {
      PopLoadsListed(p.machine, p.memory, instr, j);
      PushStoresListed(m, mem, instr, j);
    } else {
      PopKeepsUnlisted(p.machine, p.memory, instr, j);
    }
  }

  lemma PopAfterPushSp(m: Machine, mem: Mem, instr: bv32)
    requires Wf(m)
    ensures var p := Push(m, mem, instr);
      Pop(p.machine, p.memory, instr).registers[13] == m.registers[13]
  {
    var p := Push(m, mem, instr);
    assert p.machine.registers[13] == PushStart(m, instr);
    PopRaisesSp(p.machine, p.memory, instr);
    PushEndsAtSp(m, instr);
  }

  /* STMIA and LDMIA. */

  /** Rb, bits 8-10, the base of STMIA and LDMIA. */
  function BaseRegister(instr: bv32): (r: nat)
    ensures r < 8
  {
    HighLow(instr)
  }

  /** `instr.and(1.shl(rb).minus(1)) != 0`: some register below Rb is listed. */
  predicate ListedBelowBase(instr: bv32)
  {
    instr & ((1 << BaseRegister(instr)) - 1) != 0
  }

  /** `(pc + 2).and(2.inv())`: what STMIA with an empty list stores. */
  function EmptyListValue(pc: bv32): bv32
  {
    NextHalf(pc) & !2
  }

  /** The values STMIA stores: Rb, when a lower register is listed too, as its written-back value. */
  function StmiaValues(m: Machine, instr: bv32): (r: seq<bv32>)
    requires Wf(m)
    ensures |r| == 16
  {
    var rb := BaseRegister(instr);
    if ListedBelowBase(instr) then m.registers[rb := Plus(m.registers[rb], Words(Rank(instr, 8)))] else m.registers
  }

  /**
   * `thumbStmia`: the listed registers at ascending addresses from Rb, then
   * Rb += 4 per register; an empty list stores `EmptyListValue(pc)` and adds 0x40.
   */
  function Stmia(m: Machine, mem: Mem, instr: bv32): (r: Access)
    requires Wf(m)
    ensures Wf(r.machine)
  {
    var rb := BaseRegister(instr);
    var base := m.registers[rb];
    if Rank(instr, 8) == 0 then
      Access(WriteRegister(m, rb, Plus(base, 0x40)), WithWord(mem, base, EmptyListValue(Pc(m))))
    else
      StmiaWith(m, instr, StoreLow(mem, StmiaValues(m, instr), instr, 0, base, 0))
  }

  function StmiaWith(m: Machine, instr: bv32, s: Stored): (r: Access)
    requires Wf(m)
    ensures Wf(r.machine)
  {
    var rb := BaseRegister(instr);
    Access(WriteRegister(m, rb, Plus(m.registers[rb], s.offset)), s.memory)
  }

  /** STMIA stores each listed register in the slot of its rank above Rb. */
  lemma StmiaStoresListed(m: Machine, mem: Mem, instr: bv32, j: nat)
    requires Wf(m) && j < 8 && Bit(instr, j)
    ensures Read32(Stmia(m, mem, instr).memory, Slot(m.registers[BaseRegister(instr)], Rank(instr, j))) == StmiaValues(m, instr)[j]
  {
    RankIncreases(instr, j, 8);
    assert Words(Rank(instr, 0)) == 0;
    StoreLowListed(mem, StmiaValues(m, instr), instr, 0, m.registers[BaseRegister(instr)], j);
  }

  /** After a non-empty STMIA, Rb is past the block. */
  lemma StmiaWriteback(m: Machine, mem: Mem, instr: bv32)
    requires Wf(m) && Rank(instr, 8) != 0
    ensures Stmia(m, mem, instr).machine.registers[BaseRegister(instr)] == Slot(m.registers[BaseRegister(instr)], Rank(instr, 8))
  {
    assert Words(Rank(instr, 0)) == 0;
    StoreLowOffset(mem, StmiaValues(m, instr), instr, 0, m.registers[BaseRegister(instr)]);
  }

  /**
   * `thumbLdmia` as written: after the loads `registers[rb] += update` adds
   * the block size to whatever Rb holds then, the loaded word when Rb is
   * listed. An empty list loads pc (with a refill) and adds 0x40.
   */
  function LdmiaAsWritten(m: Machine, mem: Mem, instr: bv32): (r: Machine)
    requires Wf(m)
    ensures Wf(r)
  {
    var rb := BaseRegister(instr);
    if instr & 0xFF == 0 then LdmiaEmpty(m, mem, instr)
    else
      var loaded := LoadLow(m.registers, mem, instr, 0, m.registers[rb], 0);
      WriteRegister(m.(registers := loaded.registers), rb, Plus(loaded.registers[rb], loaded.offset))
  }

  /** `setRegister(15, read32(address))`, then Rb += 0x40. */
  function LdmiaEmpty(m: Machine, mem: Mem, instr: bv32): (r: Machine)
    requires Wf(m)
    ensures Wf(r)
  {
    var rb := BaseRegister(instr);
    var s := SetRegister(m, mem, 15, Read32(mem, m.registers[rb]));
    WriteRegister(s, rb, Plus(s.registers[rb], 0x40))
  }

  /**
   * LDMIA with the write-back the ARM block load of the same source makes:
   * none when Rb is in the list, so Rb keeps the word loaded for it.
   */
  function Ldmia(m: Machine, mem: Mem, instr: bv32): (r: Machine)
    requires Wf(m)
    ensures Wf(r)
  {
    var rb := BaseRegister(instr);
    if instr & 0xFF == 0 then LdmiaEmpty(m, mem, instr)
    else LdmiaWith(m, instr, LoadLow(m.registers, mem, instr, 0, m.registers[rb], 0))
  }

  function LdmiaWith(m: Machine, instr: bv32, l: Loaded): (r: Machine)
    requires Wf(m) && |l.registers| == 16
    ensures Wf(r)
  {
    var rb := BaseRegister(instr);
    var loaded := m.(registers := l.registers);
    if Bit(instr, rb) then loaded else WriteRegister(loaded, rb, Plus(l.registers[rb], l.offset))
  }

  /** LDMIA loads each listed register from the slot of its rank above Rb. */
  lemma LdmiaLoadsListed(m: Machine, mem: Mem, instr: bv32, j: nat)
    requires Wf(m) && j < 8 && Bit(instr, j)
    ensures Ldmia(m, mem, instr).registers[j] == Read32(mem, Slot(m.registers[BaseRegister(instr)], Rank(instr, j)))
  {
    var rb := BaseRegister(instr);
    RankIncreases(instr, j, 8);
    ListNotEmpty(instr, j);
    assert Words(Rank(instr, 0)) == 0;
    LoadLowListed(m.registers, mem, instr, 0, m.registers[rb], j);
  }

  /** A listed register makes the low byte non-zero. */
  lemma ListNotEmpty(instr: bv32, j: nat)
    requires j < 8 && Bit(instr, j)
    ensures instr & 0xFF != 0
  {
  }

  /** With Rb unlisted, LDMIA leaves Rb just past the block. */
  lemma LdmiaWriteback(m: Machine, mem: Mem, instr: bv32)
    requires Wf(m) && instr & 0xFF != 0 && !Bit(instr, BaseRegister(instr))
    ensures Ldmia(m, mem, instr).registers[BaseRegister(instr)] == Slot(m.registers[BaseRegister(instr)], Rank(instr, 8))
  {
    var rb := BaseRegister(instr);
    assert Words(Rank(instr, 0)) == 0;
    LoadLowOffset(m.registers, mem, instr, 0, m.registers[rb]);
    LoadLowKeeps(m.registers, mem, instr, 0, m.registers[rb], 0, rb);
  }

  /**
   * When Rb is listed the two disagree: as written Rb ends as the loaded word
   * plus four bytes per listed register, never the loaded word itself.
   */
  lemma LdmiaAsWrittenMissesBase(m: Machine, mem: Mem, instr: bv32)
    requires Wf(m) && Bit(instr, BaseRegister(instr))
    ensures LdmiaAsWritten(m, mem, instr).registers[BaseRegister(instr)] != Ldmia(m, mem, instr).registers[BaseRegister(instr)]
  {
    var rb := BaseRegister(instr);
    ListNotEmpty(instr, rb);
    var l := LoadLow(m.registers, mem, instr, 0, m.registers[rb], 0);
    assert Words(Rank(instr, 0)) == 0;
    LoadLowOffset(m.registers, mem, instr, 0, m.registers[rb]);
    RankIncreases(instr, rb, 8);
    assert Rank(instr, 8) >= 1;
    WordsNonzero(Rank(instr, 8));
    PlusNonzero(l.registers[rb], l.offset);
  }

  lemma PlusNonzero(a: bv32, b: bv32)
    requires b != 0
    ensures Plus(a, b) != a
  {
    assert Plus(a, b) == a + b;
  }

  /* The processor's handlers. */

  method RunLdrPcRel(cpu: Cpu, instr: bv32)
    requires cpu.Valid()
    modifies cpu
    ensures cpu.Valid() && cpu.View() == LdrPcRel(old(cpu.View()), cpu.bus.memory, instr)
  {
    var address := Plus(AlignWord(cpu.registers[15]), WordOffset(instr));
    cpu.registers := cpu.registers[HighLow(instr) := LoadWord(cpu.bus.memory, address)];
  }

  /** `write8` or `write32` on the bus. */
  method WriteUnit(bus: Bus, address: bv32, value: bv32, byte: bool)
    modifies bus
    ensures bus.memory == StoreUnit(old(bus.memory), address, value, byte)
  {
    if byte {
      bus.Write8(address, value);
    } else {
      bus.Write32(address, value);
    }
  }

  method RunLdrStrRegOff(cpu: Cpu, instr: bv32)
    requires cpu.Valid()
    modifies cpu, cpu.bus
    ensures cpu.Valid()
    ensures cpu.View() == LdrStrRegOff(old(cpu.View()), old(cpu.bus.memory), instr).machine
    ensures cpu.bus.memory == LdrStrRegOff(old(cpu.View()), old(cpu.bus.memory), instr).memory
  {
    var address := Plus(cpu.registers[LowRegister(instr, 6)], cpu.registers[LowRegister(instr, 3)]);
    var rd := LowRegister(instr, 0);
    if Bit(instr, 11) {
      cpu.registers := cpu.registers[rd := LoadUnit(cpu.bus.memory, address, Bit(instr, 10))];
    } else {
      WriteUnit(cpu.bus, address, cpu.registers[rd], Bit(instr, 10));
    }
  }

  method RunStrh(cpu: Cpu, instr: bv32)
    requires cpu.Valid()
    modifies cpu.bus
    ensures cpu.Valid() && cpu.bus.memory == Strh(cpu.View(), old(cpu.bus.memory), instr)
  {
    var address := Plus(cpu.registers[LowRegister(instr, 6)], cpu.registers[LowRegister(instr, 3)]);
    cpu.bus.Write16(address, cpu.registers[LowRegister(instr, 0)]);
  }

  method RunLdrh(cpu: Cpu, instr: bv32)
    requires cpu.Valid()
    modifies cpu
    ensures cpu.Valid() && cpu.View() == Ldrh(old(cpu.View()), cpu.bus.memory, instr)
  {
    var address := Plus(cpu.registers[LowRegister(instr, 6)], cpu.registers[LowRegister(instr, 3)]);
    cpu.registers := cpu.registers[LowRegister(instr, 0) := LoadHalf(cpu.bus.memory, address)];
  }

  method RunLdsb(cpu: Cpu, instr: bv32)
    requires cpu.Valid()
    modifies cpu
    ensures cpu.Valid() && cpu.View() == Ldsb(old(cpu.View()), cpu.bus.memory, instr)
  {
    var address := Plus(cpu.registers[LowRegister(instr, 6)], cpu.registers[LowRegister(instr, 3)]);
    cpu.registers := cpu.registers[LowRegister(instr, 0) := LoadSignedByte(cpu.bus.memory, address)];
  }

  method RunLdsh(cpu: Cpu, instr: bv32)
    requires cpu.Valid()
    modifies cpu
    ensures cpu.Valid() && cpu.View() == Ldsh(old(cpu.View()), cpu.bus.memory, instr)
  {
    var address := Plus(cpu.registers[LowRegister(instr, 6)], cpu.registers[LowRegister(instr, 3)]);
    cpu.registers := cpu.registers[LowRegister(instr, 0) := LoadSignedHalf(cpu.bus.memory, address)];
  }

  method RunLdrStrImmOff(cpu: Cpu, instr: bv32)
    requires cpu.Valid()
    modifies cpu, cpu.bus
    ensures cpu.Valid()
    ensures cpu.View() == LdrStrImmOff(old(cpu.View()), old(cpu.bus.memory), instr).machine
    ensures cpu.bus.memory == LdrStrImmOff(old(cpu.View()), old(cpu.bus.memory), instr).memory
  {
    var byte := Bit(instr, 12);
    var address := ImmediateAddress(cpu.registers[LowRegister(instr, 3)], instr);
    var rd := LowRegister(instr, 0);
    if Bit(instr, 11) {
      cpu.registers := cpu.registers[rd := LoadUnit(cpu.bus.memory, address, byte)];
    } else {
      WriteUnit(cpu.bus, address, cpu.registers[rd], byte);
    }
  }

  method RunLdrhStrhImmOff(cpu: Cpu, instr: bv32)
    requires cpu.Valid()
    modifies cpu, cpu.bus
    ensures cpu.Valid()
    ensures cpu.View() == LdrhStrhImmOff(old(cpu.View()), old(cpu.bus.memory), instr).machine
    ensures cpu.bus.memory == LdrhStrhImmOff(old(cpu.View()), old(cpu.bus.memory), instr).memory
  {
    var address := Plus(cpu.registers[LowRegister(instr, 3)], (instr >> 5) & 0x3E);
    var rd := LowRegister(instr, 0);
    if Bit(instr, 11) {
      cpu.registers := cpu.registers[rd := LoadHalf(cpu.bus.memory, address)];
    } else {
      cpu.bus.Write16(address, cpu.registers[rd]);
    }
  }

  method RunLdrStrSpRel(cpu: Cpu, instr: bv32)
    requires cpu.Valid()
    modifies cpu, cpu.bus
    ensures cpu.Valid()
    ensures cpu.View() == LdrStrSpRel(old(cpu.View()), old(cpu.bus.memory), instr).machine
    ensures cpu.bus.memory == LdrStrSpRel(old(cpu.View()), old(cpu.bus.memory), instr).memory
  {
    var address := Plus(cpu.registers[13], WordOffset(instr));
    var rd := HighLow(instr);
    if Bit(instr, 11) {
      cpu.registers := cpu.registers[rd := LoadWord(cpu.bus.memory, address)];
    } else {
      cpu.bus.Write32(address, cpu.registers[rd]);
    }
  }

  method RunLdPcSp(cpu: Cpu, instr: bv32)
    requires cpu.Valid()
    modifies cpu
    ensures cpu.Valid() && cpu.View() == LdPcSp(old(cpu.View()), instr)
  {
    var offset := WordOffset(instr);
    var value := if Bit(instr, 11) then Plus(cpu.registers[13], offset) else Plus(ClearBit1(cpu.registers[15]), offset);
    cpu.registers := cpu.registers[HighLow(instr) := value];
  }

  method RunSpOff(cpu: Cpu, instr: bv32)
    requires cpu.Valid()
    modifies cpu
    ensures cpu.Valid() && cpu.View() == SpOff(old(cpu.View()), instr)
  {
    var offset := SpOffset(instr);
    if Bit(instr, 7) {
      cpu.registers := cpu.registers[13 := Minus(cpu.registers[13], offset)];
    } else {
      cpu.registers := cpu.registers[13 := Plus(cpu.registers[13], offset)];
    }
  }

  method RunPush(cpu: Cpu, instr: bv32)
    requires cpu.Valid()
    modifies cpu, cpu.bus
    ensures cpu.Valid()
    ensures cpu.View() == Push(old(cpu.View()), old(cpu.bus.memory), instr).machine
    ensures cpu.bus.memory == Push(old(cpu.View()), old(cpu.bus.memory), instr).memory
  {
    var start := Minus(cpu.registers[13], Words(Rank(instr, 9)));
    var address, offset := PushStores(cpu, instr, start);
    if Bit(instr, 8) {
      cpu.bus.Write32(address, cpu.registers[14]);
    }
    cpu.registers := cpu.registers[13 := start];
  }

  /** The store loop of `thumbPush`: r0-r7 as listed, upwards from `start`. */
  method PushStores(cpu: Cpu, instr: bv32, start: bv32) returns (address: bv32, ghost offset: bv32)
    requires cpu.Valid()
    modifies cpu.bus
    ensures address == Plus(start, offset)
    ensures Stored(cpu.bus.memory, offset) == StoreLow(old(cpu.bus.memory), cpu.registers, instr, 0, start, 0)
  {
    address := start;
    offset := 0;
    var i := 0;
    assert Plus(start, 0) == start + 0;
    while i < 8
      invariant i <= 8
      invariant address == Plus(start, offset)
      invariant StoreLow(cpu.bus.memory, cpu.registers, instr, i, start, offset) ==
        StoreLow(old(cpu.bus.memory), cpu.registers, instr, 0, start, 0)
      modifies cpu.bus
    {
      if Bit(instr, i) {
        cpu.bus.Write32(address, cpu.registers[i]);
        PlusNext(start, offset);
        address := NextWord(address);
        offset := NextWord(offset);
      }
      i := i + 1;
    }
  }

  /** The load loop of `thumbPop` and `thumbLdmia`: r0-r7 as listed, upwards from `base`. */
  method LoadListed(cpu: Cpu, instr: bv32, base: bv32) returns (update: bv32)
    requires cpu.Valid()
    modifies cpu`registers
    ensures cpu.Valid()
    ensures Loaded(cpu.registers, update) == LoadLow(old(cpu.registers), cpu.bus.memory, instr, 0, base, 0)
  {
    update := 0;
    var i := 0;
    while i < 8
      invariant i <= 8 && |cpu.registers| == 16
      invariant LoadLow(cpu.registers, cpu.bus.memory, instr, i, base, update) ==
        LoadLow(old(cpu.registers), cpu.bus.memory, instr, 0, base, 0)
      modifies cpu`registers
    {
      if Bit(instr, i) {
        cpu.registers := cpu.registers[i := Read32(cpu.bus.memory, Plus(base, update))];
        update := NextWord(update);
      }
      i := i + 1;
    }
  }

  method RunPop(cpu: Cpu, instr: bv32)
    requires cpu.Valid()
    modifies cpu
    ensures cpu.Valid() && cpu.View() == Pop(old(cpu.View()), cpu.bus.memory, instr)
  {
    ghost var m := cpu.View();
    var spUpdate := LoadListed(cpu, instr, cpu.registers[13]);
    ghost var l := Loaded(cpu.registers, spUpdate);
    assert cpu.View() == m.(registers := cpu.registers);
    LoadLowKeeps(m.registers, cpu.bus.memory, instr, 0, m.registers[13], 0, 13);
    PopFinish(cpu, m, instr, l, spUpdate);
  }

  /** The tail of `thumbPop` after the load loop: pc when bit 8 is set, then sp. */
  method PopFinish(cpu: Cpu, ghost m: Machine, instr: bv32, ghost l: Loaded, spUpdate: bv32)
    requires cpu.Valid() && Wf(m) && |l.registers| == 16 && l.offset == spUpdate
    requires cpu.View() == m.(registers := l.registers) && l.registers[13] == m.registers[13]
    modifies cpu
    ensures cpu.Valid() && cpu.View() == PopWith(m, cpu.bus.memory, instr, l)
  {
    var update := spUpdate;
    if Bit(instr, 8) {
      cpu.registers := cpu.registers[15 := Read32(cpu.bus.memory, Plus(cpu.registers[13], update))];
      update := NextWord(update);
      cpu.ThumbRefill();
      assert cpu.registers[13] == m.registers[13] by {
        assert cpu.registers[13] == cpu.registers[..15][13];
      }
    }
    cpu.registers := cpu.registers[13 := Plus(cpu.registers[13], update)];
  }

  method RunStmia(cpu: Cpu, instr: bv32)
    requires cpu.Valid()
    modifies cpu, cpu.bus
    ensures cpu.Valid()
    ensures cpu.View() == Stmia(old(cpu.View()), old(cpu.bus.memory), instr).machine
    ensures cpu.bus.memory == Stmia(old(cpu.View()), old(cpu.bus.memory), instr).memory
  {
    var update: bv32 := 0;
    var rb := BaseRegister(instr);
    var address := cpu.registers[rb];
    if Rank(instr, 8) == 0 {
      cpu.bus.Write32(address, EmptyListValue(cpu.registers[15]));
      update := 0x40;
    } else {
      update := StmiaStores(cpu, instr);
    }
    cpu.registers := cpu.registers[rb := Plus(cpu.registers[rb], update)];
  }

  /** The store loop of `thumbStmia`, returning the bytes stored. */
  method StmiaStores(cpu: Cpu, instr: bv32) returns (update: bv32)
    requires cpu.Valid()
    modifies cpu.bus
    ensures Stored(cpu.bus.memory, update) ==
      StoreLow(old(cpu.bus.memory), StmiaValues(cpu.View(), instr), instr, 0, cpu.registers[BaseRegister(instr)], 0)
  {
    var rb := BaseRegister(instr);
    var address := cpu.registers[rb];
    var n := Rank(instr, 8);
    ghost var values := StmiaValues(cpu.View(), instr);
    update := 0;
    var i := 0;
    while i < 8
      invariant i <= 8
      invariant StoreLow(cpu.bus.memory, values, instr, i, address, update) ==
        StoreLow(old(cpu.bus.memory), values, instr, 0, address, 0)
      modifies cpu.bus
    {
      if Bit(instr, i) {
        var value := if i == rb && ListedBelowBase(instr) then Plus(address, Words(n)) else cpu.registers[i];
        assert value == values[i];
        cpu.bus.Write32(Plus(address, update), value);
        update := NextWord(update);
      }
      i := i + 1;
    }
  }

  method RunLdmia(cpu: Cpu, instr: bv32)
    requires cpu.Valid()
    modifies cpu
    ensures cpu.Valid() && cpu.View() == Ldmia(old(cpu.View()), cpu.bus.memory, instr)
  {
    ghost var m := cpu.View();
    var rb := BaseRegister(instr);
    var address := cpu.registers[rb];
    if instr & 0xFF == 0 {
      cpu.SetRegister(15, Read32(cpu.bus.memory, address));
      cpu.registers := cpu.registers[rb := Plus(cpu.registers[rb], 0x40)];
    } else {
      var update := LoadListed(cpu, instr, address);
      assert cpu.View() == m.(registers := cpu.registers);
      if !Bit(instr, rb) {
        cpu.registers := cpu.registers[rb := Plus(cpu.registers[rb], update)];
      }
    }
  }

  /** `thumbLdmia` as written: Rb is written back even when it is in the list. */
  method RunLdmiaAsWritten(cpu: Cpu, instr: bv32)
    requires cpu.Valid()
    modifies cpu
    ensures cpu.Valid() && cpu.View() == LdmiaAsWritten(old(cpu.View()), cpu.bus.memory, instr)
  {
    ghost var m := cpu.View();
    var rb := BaseRegister(instr);
    var address := cpu.registers[rb];
    if instr & 0xFF == 0 {
      cpu.SetRegister(15, Read32(cpu.bus.memory, address));
      cpu.registers := cpu.registers[rb := Plus(cpu.registers[rb], 0x40)];
    } else {
      var update := LoadListed(cpu, instr, address);
      assert cpu.View() == m.(registers := cpu.registers);
      cpu.registers := cpu.registers[rb := Plus(cpu.registers[rb], update)];
    }
  }
}
