/**
 * The THUMB decode table of cpu/thumb/ThumbOpFactory.kt. The processor
 * keys its 1024-entry table by instruction bits 6-15. `ThumbOpFactory`
 * tries the source's mask tests in the source's order; the lemmas below
 * state which handler each shape of index reaches and which indices no
 * rule claims.
 */
module ThumbDecode {
  import opened ThumbDataProcessing

  /** The handlers a THUMB index can name; `ThumbAlu` carries the format 4 operation. */
  datatype ThumbHandler =
    | ThumbSwi | ThumbPop | ThumbPush | ThumbLdmia | ThumbStmia
    | ThumbConditionalBranch | ThumbBranch | ThumbLongBranchLink
    | ThumbAlu(op: AluOp)
    | ThumbHiLoAdd | ThumbHiLoCmp | ThumbHiLoMov | ThumbHiLoBx
    | ThumbStrh | ThumbLdsb | ThumbLdrh | ThumbLdsh
    | ThumbAddSub | ThumbLdrStrImmOff | ThumbLdrhStrhImmOff | ThumbLdrPcRel
    | ThumbLdrStrRegOff | ThumbLdrStrSpRel | ThumbSpOff | ThumbLdPcSp
    | ThumbMovImm | ThumbCmpImm | ThumbAddImm | ThumbSubImm
    | ThumbMovs
    | ThumbUndefined

  /** `op and mask == pattern`. */
  predicate Masked(op: bv32, mask: bv32, pattern: bv32)
  {
    op & mask == pattern
  }

  /** The table index of an instruction: `(op ushr 6) and 0x3FF`, its bits 6-15. */
  function ThumbIndex(instr: bv32): (index: bv32)
    ensures index < 0x400
  {
    (instr >> 6) & 0x3FF
  }

  /** A two-bit selector starting at bit `at` of the index. */
  function Selector(op: bv32, at: nat): (k: nat)
    requires at < 8
    ensures k < 4
  {
    ((op >> at) & 3) as nat
  }

  /** `ThumbOpFactory(op)`: the first rule whose mask test holds. */
  function ThumbOpFactory(op: bv32): (h: ThumbHandler)
  {
    if Masked(op, 0x3FC, 0x37C) then ThumbSwi
    else if Masked(op, 0x3D8, 0x2D0) then (if op & 0x020 != 0 then ThumbPop else ThumbPush)
    else if Masked(op, 0x3C0, 0x300) then (if op & 0x020 != 0 then ThumbLdmia else ThumbStmia)
    else if Masked(op, 0x3C0, 0x340) then ThumbConditionalBranch
    else if Masked(op, 0x3E0, 0x380) then ThumbBranch
    else if Masked(op, 0x3C0, 0x3C0) then ThumbLongBranchLink
    else if Masked(op, 0x3F0, 0x100) then ThumbAlu(AluOpOf((op & 0xF) as nat))
    else if Masked(op, 0x3F0, 0x110) then [ThumbHiLoAdd, ThumbHiLoCmp, ThumbHiLoMov, ThumbHiLoBx][Selector(op, 2)]
    else if Masked(op, 0x3C8, 0x148) then [ThumbStrh, ThumbLdsb, ThumbLdrh, ThumbLdsh][Selector(op, 4)]
    else if Masked(op, 0x3E0, 0x060) then ThumbAddSub
    else if Masked(op, 0x380, 0x180) then ThumbLdrStrImmOff
    else if Masked(op, 0x3C0, 0x200) then ThumbLdrhStrhImmOff
    else if Masked(op, 0x3E0, 0x120) then ThumbLdrPcRel
    else if Masked(op, 0x3C8, 0x140) then ThumbLdrStrRegOff
    else if Masked(op, 0x3C0, 0x240) then ThumbLdrStrSpRel
    else if Masked(op, 0x3FC, 0x2C0) then ThumbSpOff
    else if Masked(op, 0x3C0, 0x280) then ThumbLdPcSp
    else if Masked(op, 0x380, 0x080) then [ThumbMovImm, ThumbCmpImm, ThumbAddImm, ThumbSubImm][Selector(op, 5)]
    else if Masked(op, 0x380, 0x000) then ThumbMovs
    else ThumbUndefined
  }

  /** `lutThumb`: the factory applied to every index. */
  function ThumbLut(): (lut: seq<ThumbHandler>)
    ensures |lut| == 0x400
  {
    seq(0x400, i requires 0 <= i < 0x400 => ThumbOpFactory(i as bv32))
  }

  /** Entry `i` of the table is the factory's answer for `i`. */
  lemma ThumbLutEntry(i: nat)
    requires i < 0x400
    ensures ThumbLut()[i] == ThumbOpFactory(i as bv32)
  {
  }

  /** The SWI indices lie inside the conditional-branch group (condition 0xF) and are claimed by SWI. */
  lemma SwiBeforeConditionalBranch(op: bv32)
    requires Masked(op, 0x3FC, 0x37C)
    ensures Masked(op, 0x3C0, 0x340)
    ensures ThumbOpFactory(op) == ThumbSwi
  {
  }

  /** Every other index of the 0x340 group is a conditional branch. */
  lemma ConditionalBranchGroup(op: bv32)
    requires Masked(op, 0x3C0, 0x340) && !Masked(op, 0x3FC, 0x37C)
    ensures ThumbOpFactory(op) == ThumbConditionalBranch
  {
  }

  /** The format 4 group picks one of the sixteen operations by index bits 0-3 (instruction bits 6-9). */
  lemma AluGroup(op: bv32)
    requires Masked(op, 0x3F0, 0x100)
    ensures ThumbOpFactory(op) == ThumbAlu(AluOpOf((op & 0xF) as nat))
  {
  }

  /** The hi-register group picks ADD, CMP, MOV, BX by index bits 2-3 (instruction bits 8-9). */
  lemma HiLoGroup(op: bv32)
    requires Masked(op, 0x3F0, 0x110)
    ensures ThumbOpFactory(op) == [ThumbHiLoAdd, ThumbHiLoCmp, ThumbHiLoMov, ThumbHiLoBx][Selector(op, 2)]
    ensures ThumbOpFactory(op) == ThumbHiLoBx <==> op & 0xC == 0xC
  {
  }

  /** Add/subtract indices also have the shift-immediate shape, and add/subtract wins. */
  lemma AddSubBeforeMovs(op: bv32)
    requires Masked(op, 0x3E0, 0x060)
    ensures Masked(op, 0x380, 0x000)
    ensures ThumbOpFactory(op) == ThumbAddSub
  {
  }

  /** The other indices with bits 7-9 clear are the shift-immediate moves. */
  lemma MovsGroup(op: bv32)
    requires Masked(op, 0x380, 0x000) && !Masked(op, 0x3E0, 0x060)
    ensures ThumbOpFactory(op) == ThumbMovs
  {
  }

  /** The 0x080 group picks MOV, CMP, ADD, SUB immediate by index bits 5-6 (instruction bits 11-12). */
  lemma ImmediateGroup(op: bv32)
    requires Masked(op, 0x380, 0x080)
    ensures ThumbOpFactory(op) == [ThumbMovImm, ThumbCmpImm, ThumbAddImm, ThumbSubImm][Selector(op, 5)]
  {
  }

  /** PUSH and POP differ in index bit 5 (instruction bit 11, load). */
  lemma PushPopBit(op: bv32)
    requires Masked(op, 0x3D8, 0x2D0)
    ensures ThumbOpFactory(op) == (if op & 0x20 != 0 then ThumbPop else ThumbPush)
  {
  }

  /** The indices no rule claims: the rest of the 0x2C0 row beside SP offset, PUSH and POP, and the 0x3A0 row. */
  predicate Unclaimed(op: bv32)
  {
    (Masked(op, 0x3C0, 0x2C0) && !Masked(op, 0x3FC, 0x2C0) && !Masked(op, 0x3D8, 0x2D0)) || Masked(op, 0x3E0, 0x3A0)
  }

  /** A ten-bit index reaches the undefined handler exactly when it is unclaimed. */
  lemma UndefinedExactlyUnclaimed(op: bv32)
    requires op < 0x400
    ensures ThumbOpFactory(op) == ThumbUndefined <==> Unclaimed(op)
  {
    if op & 0x200 == 0 {
      LowHalfClaimed(op);
    } else {
      HighHalfUndefined(op);
    }
  }

  /** Indices 0x000-0x1FF are all claimed: shifts, add/subtract, immediates, format 4, hi-register and the register and PC-relative transfers. */
  lemma LowHalfClaimed(op: bv32)
    requires op < 0x400 && op & 0x200 == 0
    ensures ThumbOpFactory(op) != ThumbUndefined && !Unclaimed(op)
  {
    if op & 0x100 == 0 {
      ShiftsAndImmediatesClaimed(op);
    } else {
      RegisterFormatsClaimed(op);
    }
  }

  /** Indices 0x000-0x0FF: shifts, add/subtract and the immediate group. */
  lemma ShiftsAndImmediatesClaimed(op: bv32)
    requires op < 0x100
    ensures ThumbOpFactory(op) != ThumbUndefined
  {
  }

  /** Indices 0x100-0x1FF: format 4, hi-register, PC-relative and the register and immediate-offset transfers. */
  lemma RegisterFormatsClaimed(op: bv32)
    requires op < 0x200 && op & 0x100 != 0
    ensures ThumbOpFactory(op) != ThumbUndefined
  {
  }

  /** Indices 0x200-0x3FF: the undefined handler exactly at the unclaimed ones. */
  lemma HighHalfUndefined(op: bv32)
    requires op < 0x400 && op & 0x200 != 0
    ensures ThumbOpFactory(op) == ThumbUndefined <==> Unclaimed(op)
  {
  }
}
