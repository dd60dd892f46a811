/**
 * The ARM decode table of cpu/arm/ARMOpFactory.kt. The processor keys its
 * 4096-entry table by twelve bits of the instruction: bits 4-7 as index
 * bits 0-3 and bits 20-27 as index bits 4-11. `ArmOpFactory` tries the
 * source's mask tests in the source's order and returns the first handler
 * that matches; the lemmas below state which handler each shape of index
 * reaches once the earlier tests are taken into account.
 */
module ArmDecode {
  import opened ArmDataProcessing

  /** The handlers an ARM index can name; `ArmAlu` carries the data-processing operation. */
  datatype ArmHandler =
    | ArmSwi | ArmBx | ArmB | ArmBl
    | ArmMulMla | ArmSmullSmlal | ArmUmullUmlal | ArmSwp
    | ArmLdm | ArmStm | ArmLdrhsb | ArmStrhsb | ArmLdr | ArmStr
    | ArmMrs | ArmMsr | ArmAlu(op: DpOp)
    | ArmUndefined

  /** `op and mask == pattern`. */
  predicate Masked(op: bv32, mask: bv32, pattern: bv32)
  {
    op & mask == pattern
  }

  /** The table index of an instruction: `((op and 0xF0) ushr 4) or ((op ushr 16) and 0xFF0)`. */
  function ArmIndex(instr: bv32): (index: bv32)
    ensures index < 0x1000
  {
    ((instr & 0xF0) >> 4) | ((instr >> 16) & 0xFF0)
  }

  /** The sixteen data-processing rules, tried in opcode order. */
  function AluRule(op: bv32): (h: ArmHandler)
  {
    if Masked(op, 0xDE0, 0x000) then ArmAlu(And)
    else if Masked(op, 0xDE0, 0x020) then ArmAlu(Eor)
    else if Masked(op, 0xDE0, 0x040) then ArmAlu(Sub)
    else if Masked(op, 0xDE0, 0x060) then ArmAlu(Rsb)
    else if Masked(op, 0xDE0, 0x080) then ArmAlu(Add)
    else if Masked(op, 0xDE0, 0x0A0) then ArmAlu(Adc)
    else if Masked(op, 0xDE0, 0x0C0) then ArmAlu(Sbc)
    else if Masked(op, 0xDE0, 0x0E0) then ArmAlu(Rsc)
    else if Masked(op, 0xDE0, 0x100) then ArmAlu(Tst)
    else if Masked(op, 0xDE0, 0x120) then ArmAlu(Teq)
    else if Masked(op, 0xDE0, 0x140) then ArmAlu(Cmp)
    else if Masked(op, 0xDE0, 0x160) then ArmAlu(Cmn)
    else if Masked(op, 0xDE0, 0x180) then ArmAlu(Orr)
    else if Masked(op, 0xDE0, 0x1A0) then ArmAlu(Mov)
    else if Masked(op, 0xDE0, 0x1C0) then ArmAlu(Bic)
    else if Masked(op, 0xDE0, 0x1E0) then ArmAlu(Mvn)
    else ArmUndefined
  }

  /** `ARMOpFactory(op)`: the first rule whose mask test holds. */
  function ArmOpFactory(op: bv32): (h: ArmHandler)
  {
    if Masked(op, 0xF00, 0xF00) then ArmSwi
    else if op == 0x121 then ArmBx
    else if Masked(op, 0xE00, 0xA00) then (if op & 0x100 != 0 then ArmBl else ArmB)
    else if Masked(op, 0xFCF, 0x009) then ArmMulMla
    else if Masked(op, 0xF8F, 0x089) then (if op & 0x40 != 0 then ArmSmullSmlal else ArmUmullUmlal)
    else if Masked(op, 0xFBF, 0x109) then ArmSwp
    else if Masked(op, 0xE10, 0x810) then ArmLdm
    else if Masked(op, 0xE10, 0x800) then ArmStm
    else if Masked(op, 0xE09, 0x009) then (if op & 0x10 != 0 then ArmLdrhsb else ArmStrhsb)
    else if Masked(op, 0xC10, 0x410) then ArmLdr
    else if Masked(op, 0xC10, 0x400) then ArmStr
    else if Masked(op, 0xFBF, 0x100) then ArmMrs
    else if Masked(op, 0xFBF, 0x120) || Masked(op, 0xFB0, 0x320) then ArmMsr
    else AluRule(op)
  }

  /** `lutARM`: the factory applied to every index. */
  function ArmLut(): (lut: seq<ArmHandler>)
    ensures |lut| == 0x1000
  {
    seq(0x1000, i requires 0 <= i < 0x1000 => ArmOpFactory(i as bv32))
  }

  /** Entry `i` of the table is the factory's answer for `i`. */
  lemma ArmLutEntry(i: nat)
    requires i < 0x1000
    ensures ArmLut()[i] == ArmOpFactory(i as bv32)
  {
  }

  /** Index bits 0-3 are instruction bits 4-7 and index bits 4-11 are instruction bits 20-27. */
  lemma ArmIndexFields(instr: bv32)
    ensures ArmIndex(instr) & 0xF == (instr >> 4) & 0xF
    ensures ArmIndex(instr) >> 4 == (instr >> 20) & 0xFF
  {
  }

  /** The data-processing opcode the table sees (index bits 5-8) is the opcode field of the instruction (bits 21-24). */
  lemma ArmIndexOpcode(instr: bv32)
    ensures (ArmIndex(instr) >> 5) & 0xF == (instr >> 21) & 0xF
  {
  }

  /** Index bits 8-11 all set: SWI, before any other rule. */
  lemma SwiFirst(op: bv32)
    requires Masked(op, 0xF00, 0xF00)
    ensures ArmOpFactory(op) == ArmSwi
  {
  }

  /** BX is the single index 0x121, which is also shaped like TEQ. */
  lemma BxBeforeDataProcessing()
    ensures ArmOpFactory(0x121) == ArmBx
    ensures AluRule(0x121) == ArmAlu(Teq)
  {
  }

  /** The branch rule takes bits 9-11 = 101 and picks BL exactly when bit 8 is set. */
  lemma BranchLinkBit(op: bv32)
    requires Masked(op, 0xE00, 0xA00)
    ensures ArmOpFactory(op) == ArmBl <==> op & 0x100 != 0
    ensures ArmOpFactory(op) == ArmB <==> op & 0x100 == 0
  {
  }

  /** The multiply shapes are also data-processing shapes (AND, EOR, ...), and the multiply rules win. */
  lemma MultiplyBeforeDataProcessing(op: bv32)
    requires op < 0x1000
    requires Masked(op, 0xFCF, 0x009) || Masked(op, 0xF8F, 0x089)
    ensures AluRule(op).ArmAlu?
    ensures ArmOpFactory(op) in {ArmMulMla, ArmSmullSmlal, ArmUmullUmlal}
    ensures ArmOpFactory(op) == ArmSmullSmlal <==> Masked(op, 0xF8F, 0x089) && op & 0x40 != 0
  {
  }

  /** Every twelve-bit index with bits 10-11 clear matches exactly one rule of the sixteen, the one of its bits 5-8. */
  lemma AluRuleOpcode(op: bv32)
    requires op < 0x1000 && op & 0xC00 == 0
    ensures AluRule(op) == ArmAlu(DpOpOf(((op >> 5) & 0xF) as nat))
  {
    var k := (op >> 5) & 0xF;
    assert op & 0xDE0 == k << 5;
  }

  /**
   * A data-processing index, that is bits 10-11 clear and none of the
   * multiply, swap, halfword, BX, MRS or MSR shapes, decodes to the
   * operation named by its bits 5-8.
   */
  lemma DataProcessingOpcode(op: bv32)
    requires op < 0x1000 && op & 0xC00 == 0
    requires !Masked(op, 0xE09, 0x009) && op != 0x121
    requires !Masked(op, 0xFBF, 0x100) && !Masked(op, 0xFBF, 0x120) && !Masked(op, 0xFB0, 0x320)
    ensures ArmOpFactory(op) == ArmAlu(DpOpOf(((op >> 5) & 0xF) as nat))
  {
    AluRuleOpcode(op);
  }

  /** Any data-processing handler the table hands out runs the operation named by index bits 5-8. */
  lemma AluHandlerOpcode(op: bv32)
    requires op < 0x1000 && ArmOpFactory(op).ArmAlu?
    ensures op & 0xC00 == 0
    ensures ArmOpFactory(op).op == DpOpOf(((op >> 5) & 0xF) as nat)
  {
    assert AluRule(op).ArmAlu?;
    AluRuleOpcode(op);
  }

  /**
   * Exactly the indices with bits 10-11 set and bits 8-9 not both set (the
   * coprocessor space) fall through every rule to the undefined handler.
   */
  lemma UndefinedExactlyCoprocessor(op: bv32)
    requires op < 0x1000
    ensures ArmOpFactory(op) == ArmUndefined <==> op & 0xC00 == 0xC00 && op & 0x300 != 0x300
  {
    if op & 0xC00 == 0 {
      AluRuleOpcode(op);
    } else if op & 0xC00 == 0xC00 {
      CoprocessorQuarter(op);
    } else {
      TransferQuarters(op);
    }
  }

  /** Indices 0x400-0xBFF: single and block transfers and branches, none undefined. */
  lemma TransferQuarters(op: bv32)
    requires op < 0x1000 && op & 0xC00 != 0 && op & 0xC00 != 0xC00
    ensures ArmOpFactory(op) != ArmUndefined
  {
    if op & 0xC00 == 0x400 {
      assert Masked(op, 0xC10, 0x410) || Masked(op, 0xC10, 0x400);
    } else {
      assert Masked(op, 0xE10, 0x810) || Masked(op, 0xE10, 0x800) || Masked(op, 0xE00, 0xA00);
    }
  }

  /** Indices 0xC00-0xFFF: SWI in the top quarter row, undefined in the rest. */
  lemma CoprocessorQuarter(op: bv32)
    requires op < 0x1000 && op & 0xC00 == 0xC00
    ensures ArmOpFactory(op) == ArmUndefined <==> op & 0x300 != 0x300
  {
    if op & 0x300 != 0x300 {
      assert !Masked(op, 0xC10, 0x410) && !Masked(op, 0xC10, 0x400) && !Masked(op, 0xE10, 0x810);
      assert AluRule(op) == ArmUndefined;
    }
  }
}
