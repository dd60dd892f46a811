/**
 * ARM multiplies (cpu/arm/Multiplication.kt): MUL/MLA on 32 bits, and
 * UMULL/UMLAL and SMULL/SMLAL on 64 bits, the wrap-around of Kotlin's `Int`
 * and `Long` arithmetic written as `bv32` and `bv64` arithmetic. The idle
 * cycles the multiplier spends on the bus are left out (see CpuUtils.MulCycles).
 */
module ArmMultiply {
  import opened Extensions
  import opened CpuFlags
  import opened CpuUtils
  import opened Memory
  import opened CpuModel
  import opened BarrelShifter
  import opened Processor
  import opened ThumbRandom
  import ArmDataProcessing
  import ThumbDataProcessing

  /* MUL and MLA. */

  /** The destination of MUL and MLA, bits 16-19. */
  function MulDestination(instr: bv32): (r: nat)
    ensures r < 16
  {
    ArmDataProcessing.RegisterAt(instr, 16)
  }

  /** The register MLA adds, bits 12-15 (and the low half of a long multiply). */
  function Addend(instr: bv32): (r: nat)
    ensures r < 16
  {
    ArmDataProcessing.RegisterAt(instr, 12)
  }

  /** Rs, bits 8-11. */
  function Rs(instr: bv32): (r: nat)
    ensures r < 16
  {
    ArmDataProcessing.RegisterAt(instr, 8)
  }

  /** Bit 21: the multiply accumulates. */
  predicate Accumulates(instr: bv32)
  {
    Bit(instr, 21)
  }

  /** `rm * rs + rn` on Kotlin's `Int`: the low word of the product, plus the addend, wrapping. */
  function MulValue(rm: bv32, rs: bv32, rn: bv32): bv32
  {
    Low(Times64(rm as bv64, rs as bv64)) + rn
  }

  /** The value MUL and MLA compute, `rn` being zero unless bit 21 is set. */
  function MulResult(m: Machine, instr: bv32): bv32
    requires Wf(m)
  {
    var rn: bv32 := if Accumulates(instr) then m.registers[Addend(instr)] else 0;
    MulValue(m.registers[RegisterIndex(instr)], m.registers[Rs(instr)], rn)
  }

  /** `armMulMla`: the result to Rd; with bit 20, C cleared and Z and N from the result. */
  function Mul(m: Machine, mem: Mem, instr: bv32): (r: Machine)
    requires Wf(m)
    ensures Wf(r)
  {
    MulWrite(m, mem, instr, MulResult(m, instr))
  }

  /** Writing a computed MUL or MLA result `v`. */
  function MulWrite(m: Machine, mem: Mem, instr: bv32, v: bv32): (r: Machine)
    requires Wf(m)
    ensures Wf(r)
  {
    var w := SetRegister(m, mem, MulDestination(instr), v);
    if Bit(instr, 20) then w.(cpsr := SetCNZ(w.cpsr, false, v)) else w
  }

  /** MUL and MLA write their result to Rd and, with Rd other than pc, no other register. */
  lemma MulWrites(m: Machine, mem: Mem, instr: bv32)
    requires Wf(m) && MulDestination(instr) != 15
    ensures Mul(m, mem, instr).registers == m.registers[MulDestination(instr) := MulResult(m, instr)]
  {
    WriteBelowPc(m, mem, instr, MulResult(m, instr));
  }

  lemma WriteBelowPc(m: Machine, mem: Mem, instr: bv32, v: bv32)
    requires Wf(m) && MulDestination(instr) != 15
    ensures MulWrite(m, mem, instr, v).registers == m.registers[MulDestination(instr) := v]
  {
  }

  /** With bit 20, MUL and MLA clear C and set N and Z from the result, keeping V; without it no flag changes. */
  lemma MulFlags(m: Machine, mem: Mem, instr: bv32)
    requires Wf(m)
    ensures var v := MulResult(m, instr);
      Flags(Mul(m, mem, instr).cpsr) ==
        if Bit(instr, 20) then Flags(m.cpsr).(n := Negative(v), z := v == 0, c := false) else Flags(m.cpsr)
  {
    WriteFlags(m, mem, instr, MulResult(m, instr));
  }

  lemma WriteFlags(m: Machine, mem: Mem, instr: bv32, v: bv32)
    requires Wf(m)
    ensures Flags(MulWrite(m, mem, instr, v).cpsr) ==
        if Bit(instr, 20) then Flags(m.cpsr).(n := Negative(v), z := v == 0, c := false) else Flags(m.cpsr)
  {
    var w := SetRegister(m, mem, MulDestination(instr), v);
    assert w.cpsr == m.cpsr;
    FlagsOfSetCNZ(m.cpsr, false, v);
  }

  /* The long multiplies. */

  /** The low destination, bits 12-15. */
  function RdLow(instr: bv32): (r: nat)
    ensures r < 16
  {
    Addend(instr)
  }

  /** The high destination, bits 16-19. */
  function RdHigh(instr: bv32): (r: nat)
    ensures r < 16
  {
    MulDestination(instr)
  }

  /** Bits 0-31 of a `Long`, as `toInt()` keeps them. */
  function Low(r: bv64): bv32
  {
    (r & 0xFFFF_FFFF) as bv32
  }

  /** Bits 32-63 of a `Long`, as `(r shr 32).toInt()` and `(r ushr 32).toInt()` both keep them. */
  function High(r: bv64): bv32
  {
    (r >> 32) as bv32
  }

  /** `lo.uLong or (hi.uLong shl 32)`. */
  function Join(lo: bv32, hi: bv32): bv64
  {
    (lo as bv64) | ((hi as bv64) << 32)
  }

  /** Splitting a `Long` into halves and joining them gives it back. */
  lemma JoinHalves(r: bv64)
    ensures Join(Low(r), High(r)) == r
  {
  }

  /** Joining two words and splitting the result gives them back. */
  lemma HalvesOfJoin(lo: bv32, hi: bv32)
    ensures Low(Join(lo, hi)) == lo
    ensures High(Join(lo, hi)) == hi
  {
  }

  /** `.uLong` (zero extension) for UMULL, `.toLong()` (sign extension) for SMULL. */
  function Widen(x: bv32, signed: bool): bv64
  {
    if signed && x & 0x8000_0000 != 0 then (x as bv64) | 0xFFFF_FFFF_0000_0000 else x as bv64
  }

  /** Either extension keeps the word as the low half; the high half is all zero, or all ones for a negative signed word. */
  lemma WidenHalves(x: bv32, signed: bool)
    ensures Low(Widen(x, signed)) == x
    ensures High(Widen(x, signed)) == if signed && x & 0x8000_0000 != 0 then 0xFFFF_FFFF else 0
  {
  }

  /** The 64-bit value UMLAL and SMLAL add: RdHi:RdLo with bit 21, else zero. */
  function Accumulator(m: Machine, instr: bv32): bv64
    requires Wf(m)
  {
    if Accumulates(instr) then Join(m.registers[RdLow(instr)], m.registers[RdHigh(instr)]) else 0
  }

  /** `rm * rs + rn` on Kotlin's `Long`, wrapping. */
  function LongValue(rm: bv64, rs: bv64, rn: bv64): bv64
  {
    Times64(rm, rs) + rn
  }

  /** The value UMULL, UMLAL, SMULL and SMLAL compute from the widened operands. */
  function LongResult(m: Machine, instr: bv32, signed: bool): bv64
    requires Wf(m)
  {
    LongValue(Widen(m.registers[RegisterIndex(instr)], signed), Widen(m.registers[Rs(instr)], signed), Accumulator(m, instr))
  }

  /** Kotlin's `Long` multiplication: the product, wrapping to 64 bits. */
  function Times64(a: bv64, b: bv64): bv64
  {
    a * b
  }

  /**
   * Kotlin's `Int` product of two words is the low word of the `Long`
   * product of their zero extensions, so MUL's value is `rm * rs + rn`
   * computed on `Int`.
   */
  lemma LowWordOfProduct(rm: bv32, rs: bv32)
    ensures Low(Times64(rm as bv64, rs as bv64)) == rm * rs
  {
  }

  /** Z from the whole 64-bit result, N from its bit 63 (`result bit 63`, and `result < 0L` for SMULL). */
  function LongFlags(cpsr: bv32, r: bv64): bv32
  {
    Set(Set(cpsr, Z, r == 0), N, r & 0x8000_0000_0000_0000 != 0)
  }

  /** `armUmullUmlal` (signed = false) and `armSmullSmlal` (signed = true). */
  function MulLong(m: Machine, mem: Mem, instr: bv32, signed: bool): (r: Machine)
    requires Wf(m)
    ensures Wf(r)
  {
    LongWrite(m, mem, instr, LongResult(m, instr, signed))
  }

  /** Writing a computed 64-bit result: RdLo, then RdHi, then the flags with bit 20. */
  function LongWrite(m: Machine, mem: Mem, instr: bv32, result: bv64): (r: Machine)
    requires Wf(m)
    ensures Wf(r)
  {
    var a := SetRegister(m, mem, RdLow(instr), Low(result));
    var b := SetRegister(a, mem, RdHigh(instr), High(result));
    if Bit(instr, 20) then b.(cpsr := LongFlags(b.cpsr, result)) else b
  }

  /** With distinct destinations below pc, RdLo holds bits 0-31 and RdHi bits 32-63 of the result, and no other register changes. */
  lemma MulLongWrites(m: Machine, mem: Mem, instr: bv32, signed: bool)
    requires Wf(m) && RdLow(instr) != RdHigh(instr) && RdLow(instr) != 15 && RdHigh(instr) != 15
    ensures var r := LongResult(m, instr, signed);
      MulLong(m, mem, instr, signed).registers == m.registers[RdLow(instr) := Low(r)][RdHigh(instr) := High(r)]
  {
    LongWriteBelowPc(m, mem, instr, LongResult(m, instr, signed));
  }

  lemma LongWriteBelowPc(m: Machine, mem: Mem, instr: bv32, r: bv64)
    requires Wf(m) && RdLow(instr) != 15 && RdHigh(instr) != 15
    ensures LongWrite(m, mem, instr, r).registers == m.registers[RdLow(instr) := Low(r)][RdHigh(instr) := High(r)]
  {
    var a := SetRegister(m, mem, RdLow(instr), Low(r));
    assert a.registers == m.registers[RdLow(instr) := Low(r)];
  }

  /** When RdLo and RdHi are the same register it ends up with the high half, written last. */
  lemma MulLongSameDestination(m: Machine, mem: Mem, instr: bv32, signed: bool)
    requires Wf(m) && RdLow(instr) == RdHigh(instr) && RdLow(instr) != 15
    ensures MulLong(m, mem, instr, signed).registers == m.registers[RdHigh(instr) := High(LongResult(m, instr, signed))]
  {
    LongWriteSame(m, mem, instr, LongResult(m, instr, signed));
  }

  lemma LongWriteSame(m: Machine, mem: Mem, instr: bv32, r: bv64)
    requires Wf(m) && RdLow(instr) == RdHigh(instr) && RdLow(instr) != 15
    ensures LongWrite(m, mem, instr, r).registers == m.registers[RdHigh(instr) := High(r)]
  {
    LongWriteBelowPc(m, mem, instr, r);
    assert m.registers[RdLow(instr) := Low(r)][RdHigh(instr) := High(r)] == m.registers[RdHigh(instr) := High(r)];
  }

  /**
   * The pair a long multiply writes reads back as its whole result: a
   * following UMLAL or SMLAL on the same RdHi:RdLo accumulates exactly the
   * 64-bit value the first one computed.
   */
  lemma AccumulateReadsBack(m: Machine, mem: Mem, instr: bv32, signed: bool, next: bv32)
    requires Wf(m) && RdLow(instr) != RdHigh(instr) && RdLow(instr) != 15 && RdHigh(instr) != 15
    requires Accumulates(next) && RdLow(next) == RdLow(instr) && RdHigh(next) == RdHigh(instr)
    ensures Accumulator(MulLong(m, mem, instr, signed), next) == LongResult(m, instr, signed)
  {
    var r := LongResult(m, instr, signed);
    MulLongWrites(m, mem, instr, signed);
    JoinHalves(r);
  }

  /** MUL computes the low word of what UMULL computes from the same operands. */
  lemma MulIsLowWordOfUmull(m: Machine, instr: bv32)
    requires Wf(m) && !Accumulates(instr)
    ensures MulResult(m, instr) == Low(LongResult(m, instr, false))
  {
  }

  /** When neither operand has bit 31 set, SMULL and UMULL compute the same result. */
  lemma SignedAgreesOnNonNegative(m: Machine, instr: bv32)
    requires Wf(m) && m.registers[RegisterIndex(instr)] & 0x8000_0000 == 0 && m.registers[Rs(instr)] & 0x8000_0000 == 0
    ensures LongResult(m, instr, true) == LongResult(m, instr, false)
  {
    WidenNonNegative(m.registers[RegisterIndex(instr)]);
    WidenNonNegative(m.registers[Rs(instr)]);
  }

  lemma WidenNonNegative(x: bv32)
    requires x & 0x8000_0000 == 0
    ensures Widen(x, true) == Widen(x, false)
  {
  }

  /** With bit 20, Z says the whole 64-bit result is zero and N is its bit 63; C and V are kept. Without it no flag changes. */
  lemma MulLongFlags(m: Machine, mem: Mem, instr: bv32, signed: bool)
    requires Wf(m)
    ensures var r := LongResult(m, instr, signed);
      Flags(MulLong(m, mem, instr, signed).cpsr) ==
        if Bit(instr, 20) then Flags(m.cpsr).(n := High(r) & 0x8000_0000 != 0, z := r == 0) else Flags(m.cpsr)
  {
    LongWriteFlags(m, mem, instr, LongResult(m, instr, signed));
  }

  lemma LongWriteFlags(m: Machine, mem: Mem, instr: bv32, r: bv64)
    requires Wf(m)
    ensures Flags(LongWrite(m, mem, instr, r).cpsr) ==
        if Bit(instr, 20) then Flags(m.cpsr).(n := High(r) & 0x8000_0000 != 0, z := r == 0) else Flags(m.cpsr)
  {
    var a := SetRegister(m, mem, RdLow(instr), Low(r));
    var b := SetRegister(a, mem, RdHigh(instr), High(r));
    ArmDataProcessing.RegisterWriteKeepsCpsr(m, mem, RdLow(instr), Low(r));
    ArmDataProcessing.RegisterWriteKeepsCpsr(a, mem, RdHigh(instr), High(r));
    assert LongWrite(m, mem, instr, r).cpsr == if Bit(instr, 20) then LongFlags(m.cpsr, r) else m.cpsr;
    FlagsOfLongFlags(m.cpsr, r);
  }

  lemma FlagsOfLongFlags(cpsr: bv32, r: bv64)
    ensures Flags(LongFlags(cpsr, r)) == Flags(cpsr).(n := High(r) & 0x8000_0000 != 0, z := r == 0)
  {
    var z, n := r == 0, r & 0x8000_0000_0000_0000 != 0;
    FlagsOfSetZThenN(cpsr, z, n);
    TopBit(r);
  }

  lemma FlagsOfSetZThenN(cpsr: bv32, z: bool, n: bool)
    ensures Flags(Set(Set(cpsr, Z, z), N, n)) == Flags(cpsr).(n := n, z := z)
  {
    FlagsOfSetZ(cpsr, z);
    FlagsOfSetN(Set(cpsr, Z, z), n);
  }

  lemma TopBit(r: bv64)
    ensures (r & 0x8000_0000_0000_0000 != 0) == (High(r) & 0x8000_0000 != 0)
  {
  }

  /* The processor's handlers. */

  method RunMul(cpu: Cpu, instr: bv32)
    requires cpu.Valid()
    modifies cpu
    ensures cpu.Valid() && cpu.View() == Mul(old(cpu.View()), cpu.bus.memory, instr)
  {
    ghost var m := cpu.View();
    var rn: bv32 := if Accumulates(instr) then cpu.registers[Addend(instr)] else 0;
    var rs := cpu.registers[Rs(instr)];
    var rm := cpu.registers[RegisterIndex(instr)];
    var result := MulValue(rm, rs, rn);
    assert result == MulResult(m, instr);
    assert Mul(m, cpu.bus.memory, instr) == MulWrite(m, cpu.bus.memory, instr, result);
    cpu.SetRegister(MulDestination(instr), result);
    ghost var w := cpu.View();
    assert w == SetRegister(m, cpu.bus.memory, MulDestination(instr), result);
    if Bit(instr, 20) {
      cpu.cpsr := SetCNZ(cpu.cpsr, false, result);
      assert cpu.View() == w.(cpsr := SetCNZ(w.cpsr, false, result));
    }
  }

  method RunMulLong(cpu: Cpu, instr: bv32, signed: bool)
    requires cpu.Valid()
    modifies cpu
    ensures cpu.Valid() && cpu.View() == MulLong(old(cpu.View()), cpu.bus.memory, instr, signed)
  {
    var result := RunLongResult(cpu, instr, signed);
    RunLongWrite(cpu, instr, result);
  }

  /** The 64-bit result of UMULL, UMLAL, SMULL or SMLAL from the registers. */
  method RunLongResult(cpu: Cpu, instr: bv32, signed: bool) returns (result: bv64)
    requires cpu.Valid()
    ensures result == LongResult(cpu.View(), instr, signed)
  {
    var rn: bv64 := if Accumulates(instr) then Join(cpu.registers[RdLow(instr)], cpu.registers[RdHigh(instr)]) else 0;
    var rm := Widen(cpu.registers[RegisterIndex(instr)], signed);
    var rs := Widen(cpu.registers[Rs(instr)], signed);
    result := LongValue(rm, rs, rn);
  }

  /** RdLo, then RdHi, then the flags when bit 20 is set. */
  method RunLongWrite(cpu: Cpu, instr: bv32, result: bv64)
    requires cpu.Valid()
    modifies cpu
    ensures cpu.Valid() && cpu.View() == LongWrite(old(cpu.View()), cpu.bus.memory, instr, result)
  {
    ghost var m := cpu.View();
    cpu.SetRegister(RdLow(instr), Low(result));
    ghost var a := cpu.View();
    assert a == SetRegister(m, cpu.bus.memory, RdLow(instr), Low(result));
    cpu.SetRegister(RdHigh(instr), High(result));
    ghost var b := cpu.View();
    assert b == SetRegister(a, cpu.bus.memory, RdHigh(instr), High(result));
    if Bit(instr, 20) {
      cpu.cpsr := LongFlags(cpu.cpsr, result);
      assert cpu.View() == b.(cpsr := LongFlags(b.cpsr, result));
    }
  }
}
