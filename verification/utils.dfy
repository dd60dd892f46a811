/**
 * Flag arithmetic shared by the ARM and THUMB handlers (cpu/Utils.kt), and the
 * multiplier's early-termination idle counts.
 *
 * The source computes carries by widening both operands to a `Long` (`uLong`)
 * and testing bit 32 of the sum or difference. Here the same bit is stated on
 * 32-bit words: bit 32 of `a + b + cin` is set exactly when the 32-bit sum
 * wraps, i.e. when `a + b + cin` (mod 2^32) is below `a` (or equal to it when
 * `cin` is set); bit 32 of `a - b - (1 - cin)` is clear ("no borrow") exactly
 * when `a >= b` (or `a > b` when `cin` is clear).
 */
module CpuUtils {
  import opened Extensions
  import opened CpuFlags

  /** `negativeAndZero(result)`: N from bit 31, Z from `result == 0`. */
  function SetNZ(cpsr: bv32, result: bv32): bv32
  {
    Set(Set(cpsr, N, Negative(result)), Z, result == 0)
  }

  /** `negativeAndZero` changes N and Z and nothing else. */
  lemma FlagsOfSetNZ(cpsr: bv32, result: bv32)
    ensures Flags(SetNZ(cpsr, result)) == Flags(cpsr).(n := Negative(result), z := result == 0)
    ensures SetNZ(cpsr, result) & 0x1F == cpsr & 0x1F
  {
    FlagsOfSetNThenZ(cpsr, Negative(result), result == 0);
  }

  lemma FlagsOfSetNThenZ(cpsr: bv32, n: bool, z: bool)
    ensures Flags(Set(Set(cpsr, N, n), Z, z)) == Flags(cpsr).(n := n, z := z)
    ensures Set(Set(cpsr, N, n), Z, z) & 0x1F == cpsr & 0x1F
  {
    FlagsOfSetN(cpsr, n);
    FlagsOfSetZ(Set(cpsr, N, n), z);
  }

  /**
   * The bits of a status word other than N, Z, C and V (I, F, T, the mode
   * field and the unused bits between) agree: the handlers that only set
   * condition flags keep them.
   */
  predicate SameControl(a: bv32, b: bv32)
  {
    a & 0x0FFF_FFFF == b & 0x0FFF_FFFF
  }

  /** Setting a condition flag keeps every control bit. */
  lemma SetKeepsControl(x: bv32, f: Flag, value: bool)
    requires f == N || f == Z || f == C || f == V
    ensures SameControl(Set(x, f, value), x)
  {
  }

  /** 32-bit wrapping sum and difference, as Kotlin's `Int` `+` and `-`. */
  function Plus(a: bv32, b: bv32): bv32
  {
    a + b
  }

  function Minus(a: bv32, b: bv32): bv32
  {
    a - b
  }

  /** N and Z from `result`, then C and V as given: the flag writes of every arithmetic handler. */
  function SetNZCV(cpsr: bv32, result: bv32, c: bool, v: bool): bv32
  {
    Set(Set(SetNZ(cpsr, result), C, c), V, v)
  }

  lemma FlagsOfSetNZCV(cpsr: bv32, result: bv32, c: bool, v: bool)
    ensures Flags(SetNZCV(cpsr, result, c, v)) == Flags(cpsr).(n := Negative(result), z := result == 0, c := c, v := v)
  {
    var a := SetNZ(cpsr, result);
    FlagsOfSetNZ(cpsr, result);
    FlagsOfSetC(a, c);
    FlagsOfSetV(Set(a, C, c), v);
  }

  lemma SetNZCVKeepsControl(cpsr: bv32, result: bv32, c: bool, v: bool)
    ensures SameControl(SetNZCV(cpsr, result, c, v), cpsr)
  {
    var a := SetNZ(cpsr, result);
    SetNZKeepsControl(cpsr, result);
    SetKeepsControl(a, C, c);
    SetKeepsControl(Set(a, C, c), V, v);
  }

  /** Subtracting what was added gives the operand back. */
  lemma MinusPlus(a: bv32, b: bv32)
    ensures Minus(Plus(a, b), b) == a
  {
    assert Plus(a, b) == a + b;
    assert Minus(a + b, b) == (a + b) - b;
    assert (a + b) - b == a;
  }

  /** Proof step for the compare handlers: a difference is zero exactly when the operands are equal, so Z from `a - b` is `a == b`. */
  lemma MinusZero(a: bv32, b: bv32)
    ensures (Minus(a, b) == 0) == (a == b)
  {
    assert Minus(a, b) == a - b;
    WordMinusZero(a, b);
  }

  /** Proof step for MinusZero, on the raw difference. */
  lemma WordMinusZero(a: bv32, b: bv32)
    ensures (a - b == 0) == (a == b)
  {
  }

  /**
   * The flags of a subtraction `op1 - op2 = result` as the THUMB immediate
   * handlers write them: `negativeAndZero`, then `dumbBorrow`, then `subOverflow`.
   */
  function SubtractFlags(cpsr: bv32, op1: bv32, op2: bv32, result: bv32): bv32
  {
    SetNZCV(cpsr, result, NoBorrow(op1, op2, true), SubOverflow(result, op1, op2))
  }

  /** The flags of an addition: `negativeAndZero`, then `dumbCarry`, then `overflow`. */
  function AddFlags(cpsr: bv32, op1: bv32, op2: bv32, result: bv32): bv32
  {
    SetNZCV(cpsr, result, Carry(op1, op2, false), AddOverflow(result, op1, op2))
  }

  /** A subtraction sets N and Z from the result, C iff `op1 >= op2` unsigned, and V on signed overflow. */
  lemma FlagsOfSubtract(cpsr: bv32, op1: bv32, op2: bv32, result: bv32)
    ensures Flags(SubtractFlags(cpsr, op1, op2, result)) ==
      Flags(cpsr).(n := Negative(result), z := result == 0, c := op1 >= op2, v := SubOverflow(result, op1, op2))
  {
    FlagsOfSetNZCV(cpsr, result, NoBorrow(op1, op2, true), SubOverflow(result, op1, op2));
  }

  /** The flags of a comparison `op1 - op2`: Z iff the operands are equal, C iff `op1 >= op2` unsigned. */
  lemma FlagsOfCompare(cpsr: bv32, op1: bv32, op2: bv32)
    ensures Flags(SubtractFlags(cpsr, op1, op2, Minus(op1, op2))) ==
      Flags(cpsr).(n := Negative(Minus(op1, op2)), z := op1 == op2, c := op1 >= op2, v := SubOverflow(Minus(op1, op2), op1, op2))
  {
    FlagsOfSubtract(cpsr, op1, op2, Minus(op1, op2));
    MinusZero(op1, op2);
  }

  /** An addition sets N and Z from the result, C on unsigned carry-out, and V on signed overflow. */
  lemma FlagsOfAdd(cpsr: bv32, op1: bv32, op2: bv32, result: bv32)
    ensures Flags(AddFlags(cpsr, op1, op2, result)) ==
      Flags(cpsr).(n := Negative(result), z := result == 0, c := Carry(op1, op2, false), v := AddOverflow(result, op1, op2))
  {
    FlagsOfSetNZCV(cpsr, result, Carry(op1, op2, false), AddOverflow(result, op1, op2));
  }

  lemma SetNZKeepsControl(cpsr: bv32, result: bv32)
    ensures SameControl(SetNZ(cpsr, result), cpsr)
  {
    SetKeepsControl(cpsr, N, Negative(result));
    SetKeepsControl(Set(cpsr, N, Negative(result)), Z, result == 0);
  }

  /** `overflow(result, op1, op2)`: the add-overflow formula on sign bits. */
  predicate AddOverflow(result: bv32, op1: bv32, op2: bv32)
  {
    Negative(!(op1 ^ op2) & (op1 ^ result))
  }

  /** `subOverflow(result, op1, op2)`: the subtract-overflow formula on sign bits. */
  predicate SubOverflow(result: bv32, op1: bv32, op2: bv32)
  {
    Negative((op1 ^ op2) & (op1 ^ result))
  }

  /**
   * Add overflow holds iff the operands have the same sign and the result's
   * sign differs from theirs.
   */
  lemma AddOverflowMeaning(result: bv32, op1: bv32, op2: bv32)
    ensures AddOverflow(result, op1, op2) <==>
      Negative(op1) == Negative(op2) && Negative(result) != Negative(op1)
  {
    if AddOverflow(result, op1, op2) {
      AddOverflowSameSigns(result, op1, op2);
      AddOverflowSignFlips(result, op1, op2);
    } else if Negative(op1) == Negative(op2) && Negative(result) != Negative(op1) {
      AddOverflowWhenSignFlips(result, op1, op2);
    }
  }

  lemma AddOverflowSameSigns(result: bv32, op1: bv32, op2: bv32)
    ensures AddOverflow(result, op1, op2) ==> Negative(op1) == Negative(op2)
  {
  }

  lemma AddOverflowSignFlips(result: bv32, op1: bv32, op2: bv32)
    ensures AddOverflow(result, op1, op2) ==> Negative(result) != Negative(op1)
  {
  }

  lemma AddOverflowWhenSignFlips(result: bv32, op1: bv32, op2: bv32)
    requires Negative(op1) == Negative(op2) && Negative(result) != Negative(op1)
    ensures AddOverflow(result, op1, op2)
  {
  }

  /**
   * Subtract overflow holds iff the operands' signs differ and the result's
   * sign differs from `op1`'s.
   */
  lemma SubOverflowMeaning(result: bv32, op1: bv32, op2: bv32)
    ensures SubOverflow(result, op1, op2) <==>
      Negative(op1) != Negative(op2) && Negative(result) != Negative(op1)
  {
    if SubOverflow(result, op1, op2) {
      SubOverflowSignsDiffer(result, op1, op2);
      SubOverflowSignFlips(result, op1, op2);
    } else if Negative(op1) != Negative(op2) && Negative(result) != Negative(op1) {
      SubOverflowWhenSignFlips(result, op1, op2);
    }
  }

  lemma SubOverflowSignsDiffer(result: bv32, op1: bv32, op2: bv32)
    ensures SubOverflow(result, op1, op2) ==> Negative(op1) != Negative(op2)
  {
  }

  lemma SubOverflowSignFlips(result: bv32, op1: bv32, op2: bv32)
    ensures SubOverflow(result, op1, op2) ==> Negative(result) != Negative(op1)
  {
  }

  lemma SubOverflowWhenSignFlips(result: bv32, op1: bv32, op2: bv32)
    requires Negative(op1) != Negative(op2) && Negative(result) != Negative(op1)
    ensures SubOverflow(result, op1, op2)
  {
  }

  /**
   * The ARM data-processing helper writes subtract overflow as
   * `(op1 ^ op2) & !(op2 ^ result)`; it is the same formula.
   */
  predicate SubOverflowArm(result: bv32, op1: bv32, op2: bv32)
  {
    Negative((op1 ^ op2) & !(op2 ^ result))
  }

  lemma SubOverflowArmAgrees(result: bv32, op1: bv32, op2: bv32)
    ensures SubOverflowArm(result, op1, op2) == SubOverflow(result, op1, op2)
  {
    SameSubOverflowWords(result, op1, op2);
  }

  lemma SameSubOverflowWords(result: bv32, op1: bv32, op2: bv32)
    ensures (op1 ^ op2) & !(op2 ^ result) == (op1 ^ op2) & (op1 ^ result)
  {
  }

  /** `dumbCarry(op1.uLong + op2.uLong + cin)`: bit 32 of the unsigned sum. */
  predicate Carry(a: bv32, b: bv32, cin: bool)
  {
    if cin then a + b + 1 <= a else a + b < a
  }

  /** `dumbBorrow(op1.uLong - op2.uLong - (1 - cin))`: bit 32 of the difference is clear. */
  predicate NoBorrow(a: bv32, b: bv32, cin: bool)
  {
    if cin then a >= b else a > b
  }

  /**
   * The number of `bus.idle()` calls of `idleMul(operand)`: one, plus one for
   * each further byte while a nonzero part of the operand remains.
   */
  function MulCycles(operand: bv32): (n: nat)
  {
    if operand >> 8 == 0 then 1
    else if operand >> 16 == 0 then 2
    else if operand >> 24 == 0 then 3
    else 4
  }

  /** `idleSmul`: the same, stopping also once the remaining bits are all ones. */
  function SmulCycles(operand: bv32): (n: nat)
  {
    if operand >> 8 == 0 || operand >> 8 == 0x00FF_FFFF then 1
    else if operand >> 16 == 0 || operand >> 16 == 0x0000_FFFF then 2
    else if operand >> 24 == 0 || operand >> 24 == 0x0000_00FF then 3
    else 4
  }

  /** An operand whose top three bytes are zero idles once; one needing all four bytes idles four times. */
  lemma MulCyclesBounds(operand: bv32)
    ensures 1 <= MulCycles(operand) <= 4
    ensures MulCycles(operand) == 1 <==> operand < 0x100
    ensures MulCycles(operand) == 4 <==> operand >= 0x100_0000
  {
  }

  /** A sign-extended byte (all ones or all zeros above bit 7) idles once. */
  lemma SmulCyclesSignExtendedByte(operand: bv32)
    ensures 1 <= SmulCycles(operand) <= 4
    ensures SmulCycles(operand) == 1 <==> operand < 0x100 || operand >= 0xFFFF_FF00
  {
  }

  /** `idleMul`: the do-while loop, returning how many times it idled. */
  method IdleMul(operand: bv32) returns (idles: nat)
    ensures idles == MulCycles(operand)
    ensures 1 <= idles <= 4
  {
    var o := operand;
    idles := 0;
    while true
      invariant idles <= 3
      invariant idles == 0 ==> o == operand
      invariant idles == 1 ==> o == operand >> 8 && operand >> 8 != 0
      invariant idles == 2 ==> o == operand >> 16 && operand >> 16 != 0 && operand >> 8 != 0
      invariant idles == 3 ==> o == operand >> 24 && operand >> 24 != 0 && operand >> 16 != 0 && operand >> 8 != 0
      decreases 4 - idles
    {
      idles := idles + 1;
      o := o >> 8;
      if o == 0 {
        break;
      }
    }
  }

  /** `idleSmul`: the do-while loop with the all-ones helper, returning how many times it idled. */
  method IdleSmul(operand: bv32) returns (idles: nat)
    ensures idles == SmulCycles(operand)
    ensures 1 <= idles <= 4
  {
    var o := operand;
    var helper: bv32 := 0xFFFF_FFFF;
    idles := 0;
    while true
      invariant idles <= 3
      invariant idles == 0 ==> o == operand && helper == 0xFFFF_FFFF
      invariant idles == 1 ==> o == operand >> 8 && helper == 0x00FF_FFFF && !(operand >> 8 == 0 || operand >> 8 == 0x00FF_FFFF)
      invariant idles == 2 ==> o == operand >> 16 && helper == 0x0000_FFFF && !(operand >> 16 == 0 || operand >> 16 == 0x0000_FFFF) && !(operand >> 8 == 0 || operand >> 8 == 0x00FF_FFFF)
      invariant idles == 3 ==> o == operand >> 24 && helper == 0x0000_00FF && !(operand >> 24 == 0 || operand >> 24 == 0x0000_00FF) && !(operand >> 16 == 0 || operand >> 16 == 0x0000_FFFF) && !(operand >> 8 == 0 || operand >> 8 == 0x00FF_FFFF)
      decreases 4 - idles
    {
      idles := idles + 1;
      o := o >> 8;
      helper := helper >> 8;
      if o == 0 || o == helper {
        break;
      }
    }
  }
}
