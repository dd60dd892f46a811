/**
 * The condition-code evaluator `is_condition` of src/core/cpu/cpu.rs: a
 * four-bit condition field evaluated against N, Z, C and V of cpsr. The code
 * panics on 0xF and on values above it; here those are `Err` results.
 */
module Conditions {
  import opened Wrappers
  import opened CpuFlags
  import opened CpuUtils

  /** `is_condition(cond)` for a byte-sized `cond`. */
  function IsCondition(cpsr: bv32, cond: nat): (r: Result<bool>)
    requires cond < 256
    ensures r.Err? <==> cond >= 0xF
  {
    var n := Get(cpsr, N);
    var z := Get(cpsr, Z);
    var c := Get(cpsr, C);
    var v := Get(cpsr, V);
    if cond == 0x0 then Ok(z)
    else if cond == 0x1 then Ok(!z)
    else if cond == 0x2 then Ok(c)
    else if cond == 0x3 then Ok(!c)
    else if cond == 0x4 then Ok(n)
    else if cond == 0x5 then Ok(!n)
    else if cond == 0x6 then Ok(v)
    else if cond == 0x7 then Ok(!v)
    else if cond == 0x8 then Ok(c && !z)
    else if cond == 0x9 then Ok(!c || z)
    else if cond == 0xA then Ok(n == v)
    else if cond == 0xB then Ok(n != v)
    else if cond == 0xC then Ok(!z && n == v)
    else if cond == 0xD then Ok(z || n != v)
    else if cond == 0xE then Ok(true)
    else if cond == 0xF then Err("Condition 0xF is reserved")
    else Err("Undefined cond")
  }

  /** The conditions come in complementary pairs: an odd code holds exactly when the even code below it does not. */
  lemma ConditionPairsComplement(cpsr: bv32, cond: nat)
    requires cond < 0xE && cond % 2 == 0
    ensures IsCondition(cpsr, cond + 1) == Ok(!IsCondition(cpsr, cond).value)
  {
  }

  /** Only N, Z, C and V matter: status words that agree on them agree on every condition. */
  lemma ConditionReadsOnlyNZCV(a: bv32, b: bv32, cond: nat)
    requires cond < 256
    requires Flags(a).n == Flags(b).n && Flags(a).z == Flags(b).z && Flags(a).c == Flags(b).c && Flags(a).v == Flags(b).v
    ensures IsCondition(a, cond) == IsCondition(b, cond)
  {
  }

  /**
   * After a compare of `a` with `b` (the flags of `a - b`), EQ holds iff the
   * operands are equal, CS iff `a >= b` unsigned, and HI iff `a` is
   * unsigned-above `b` (at least `b` and not equal).
   */
  lemma CompareThenEqual(cpsr: bv32, a: bv32, b: bv32)
    ensures IsCondition(SubtractFlags(cpsr, a, b, Minus(a, b)), 0x0) == Ok(a == b)
  {
    FlagsOfCompare(cpsr, a, b);
  }

  lemma CompareThenCarrySet(cpsr: bv32, a: bv32, b: bv32)
    ensures IsCondition(SubtractFlags(cpsr, a, b, Minus(a, b)), 0x2) == Ok(a >= b)
  {
    FlagsOfCompare(cpsr, a, b);
  }

  lemma CompareThenHigher(cpsr: bv32, a: bv32, b: bv32)
    ensures IsCondition(SubtractFlags(cpsr, a, b, Minus(a, b)), 0x8) == Ok(a >= b && a != b)
  {
    FlagsOfCompare(cpsr, a, b);
  }
}
