/**
 * The barrel shifter (cpu/arm/BarrelShifter.kt). Each source function returns
 * the shifted value and, as a side effect, stores the shifter carry-out in the
 * CPU's `shifterCarry`; here both come back together as a `Shifted`, and the
 * current C flag the source reads is the parameter `c`. Shift amounts are
 * naturals: the low byte of a register (0-255) or a five-bit immediate.
 */
module BarrelShifter {
  import opened Extensions

  datatype Shifted = Shifted(value: bv32, carry: bool)

  /** `value.shr(amount)`: arithmetic right shift, filling with the sign bit. */
  function Sar(value: bv32, amount: nat): bv32
    requires amount <= 32
  {
    if Negative(value) then !(!value >> amount) else value >> amount
  }

  /** LSL; amount 0 keeps the value and C, 32 keeps only bit 0 as carry, above 32 clears all. */
  function LogicalLeft(value: bv32, amount: nat, c: bool): Shifted
  {
    if amount > 31 then Shifted(0, amount == 32 && value & 1 != 0)
    else if amount == 0 then Shifted(value, c)
    else Shifted(value << amount, Bit(value, 32 - amount))
  }

  /** LSR; 32 leaves bit 31 as carry, above 32 clears all. */
  function LogicalRight(value: bv32, amount: nat, c: bool): Shifted
  {
    if amount > 31 then Shifted(0, amount == 32 && Negative(value))
    else if amount == 0 then Shifted(value, c)
    else Shifted(value >> amount, Bit(value, amount - 1))
  }

  /** ASR; 32 or more fills every bit with the sign bit. */
  function ArithmeticRight(value: bv32, amount: nat, c: bool): Shifted
  {
    if amount > 31 then Shifted(Sar(value, 31), Negative(value))
    else if amount == 0 then Shifted(value, c)
    else Shifted(Sar(value, amount), Bit(value, amount - 1))
  }

  /** ROR; Kotlin's `rotateRight` rotates by the amount modulo 32, and the carry is bit 31 of the result. */
  function RotateRight(value: bv32, amount: nat, c: bool): Shifted
  {
    if amount == 0 then Shifted(value, c)
    else
      var r := value.RotateRight(amount % 32);
      Shifted(r, Negative(r))
  }

  /** RRX: the old C enters at bit 31 and bit 0 leaves as the carry. */
  function RotateRightExtended(value: bv32, c: bool): Shifted
  {
    Shifted((value >> 1) | (if c then 0x8000_0000 else 0), value & 1 != 0)
  }

  /** Dispatch on the two-bit shift type (0 LSL, 1 LSR, 2 ASR, 3 ROR). */
  function ApplyShift(shiftType: bv32, value: bv32, amount: nat, c: bool): Shifted
    requires shiftType < 4
  {
    if shiftType == 0 then LogicalLeft(value, amount, c)
    else if shiftType == 1 then LogicalRight(value, amount, c)
    else if shiftType == 2 then ArithmeticRight(value, amount, c)
    else RotateRight(value, amount, c)
  }

  /**
   * `operand(operand, value)`: the shifter operand of a data-processing or
   * transfer instruction, with `operand` the instruction shifted right by 4.
   * Bit 0 selects a register amount (the low byte of the register named by
   * bits 4-7); otherwise the amount is bits 3-7, where 0 means 32 for LSR and
   * ASR and means RRX for ROR.
   */
  function Operand(operand: bv32, value: bv32, registers: seq<bv32>, c: bool): Shifted
    requires |registers| == 16
  {
    var shiftType := (operand >> 1) & 3;
    if operand & 1 != 0 then
      ApplyShift(shiftType, value, RegisterAmount(operand, registers), c)
    else
      var imm := ImmediateAmount(operand);
      if imm == 0 && shiftType == 3 then RotateRightExtended(value, c)
      else if imm == 0 && (shiftType == 1 || shiftType == 2) then ApplyShift(shiftType, value, 32, c)
      else ApplyShift(shiftType, value, imm, c)
  }

  /** The low byte of the register named by bits 4-7 of `operand`. */
  function RegisterAmount(operand: bv32, registers: seq<bv32>): (amount: nat)
    requires |registers| == 16
    ensures amount < 256
  {
    (registers[RegisterIndex(operand >> 4)] & 0xFF) as nat
  }

  /** Bits 3-7 of `operand`. */
  function ImmediateAmount(operand: bv32): (amount: nat)
    ensures amount < 32
  {
    ((operand >> 3) & 0x1F) as nat
  }

  /** The register named by the low four bits of `bits`. */
  function RegisterIndex(bits: bv32): (i: nat)
    ensures i < 16
  {
    (bits & 0xF) as nat
  }

  /** ASR by 32 or more yields all ones for a negative value and zero otherwise, with the sign as carry. */
  lemma ArithmeticRightFillsWithSign(value: bv32, amount: nat, c: bool)
    requires amount >= 32
    ensures ArithmeticRight(value, amount, c) ==
      Shifted(if Negative(value) then 0xFFFF_FFFF else 0, Negative(value))
  {
    if Negative(value) { SarNegativeBy31(value); } else { SarNonNegativeBy31(value); }
  }

  lemma SarNegativeBy31(value: bv32)
    requires Negative(value)
    ensures !(!value >> 31) == 0xFFFF_FFFF
  {
  }

  lemma SarNonNegativeBy31(value: bv32)
    requires !Negative(value)
    ensures value >> 31 == 0
  {
  }

  /** On a non-negative value ASR and LSR agree for every amount. */
  lemma ArithmeticRightOfNonNegative(value: bv32, amount: nat, c: bool)
    requires !Negative(value)
    ensures ArithmeticRight(value, amount, c) == LogicalRight(value, amount, c)
  {
    if amount > 31 { SarNonNegativeBy31(value); }
  }

  /** A nonzero rotation by a multiple of 32 keeps the value and sets the carry to bit 31. */
  lemma RotateRightByMultipleOf32(value: bv32, amount: nat, c: bool)
    requires amount > 0 && amount % 32 == 0
    ensures RotateRight(value, amount, c) == Shifted(value, Negative(value))
  {
    RotateByZero(value);
  }

  lemma RotateByZero(value: bv32)
    ensures value.RotateRight(0) == value
  {
  }

  /** Rotate left through the carry: the inverse of RRX, re-inserting the carry at bit 0. */
  function RotateLeftThroughCarry(r: Shifted): bv32
  {
    (r.value << 1) | (if r.carry then 1 else 0)
  }

  /** RRX loses nothing: rotating its result back left through the carry restores the input, and bit 31 of the result is the old C. */
  lemma RotateRightExtendedUndo(value: bv32, c: bool)
    ensures RotateLeftThroughCarry(RotateRightExtended(value, c)) == value
    ensures Negative(RotateRightExtended(value, c).value) == c
  {
    ShiftBack(value, if c then 0x8000_0000 else 0);
    RrxSign(value, c);
  }

  lemma ShiftBack(value: bv32, top: bv32)
    requires top & 0x7FFF_FFFF == 0
    ensures RotateLeftThroughCarry(Shifted((value >> 1) | top, value & 1 != 0)) == value
  {
    if value & 1 != 0 { ShiftBackOdd(value, top); } else { ShiftBackEven(value, top); }
  }

  lemma ShiftBackOdd(value: bv32, top: bv32)
    requires value & 1 != 0 && top & 0x7FFF_FFFF == 0
    ensures (((value >> 1) | top) << 1) | 1 == value
  {
  }

  lemma ShiftBackEven(value: bv32, top: bv32)
    requires value & 1 == 0 && top & 0x7FFF_FFFF == 0
    ensures (((value >> 1) | top) << 1) | 0 == value
  {
  }

  lemma RrxSign(value: bv32, c: bool)
    ensures Negative((value >> 1) | (if c then 0x8000_0000 else 0)) == c
  {
  }

  /** LSL by one doubles the value and carries out bit 31. */
  lemma LogicalLeftByOne(value: bv32, c: bool)
    ensures LogicalLeft(value, 1, c) == Shifted(value + value, Negative(value))
  {
    ShiftOneIsDouble(value);
  }

  lemma ShiftOneIsDouble(value: bv32)
    ensures value << 1 == value + value
    ensures Bit(value, 31) == Negative(value)
  {
  }

  /**
   * Immediate operand decoding: an encoded amount of 0 is LSL #0 (value and C
   * unchanged), LSR #32, ASR #32, or RRX, by shift type.
   */
  lemma OperandImmediateZero(operand: bv32, value: bv32, registers: seq<bv32>, c: bool)
    requires |registers| == 16
    requires operand & 1 == 0 && ImmediateAmount(operand) == 0
    ensures var shiftType := (operand >> 1) & 3;
      Operand(operand, value, registers, c) ==
        if shiftType == 0 then Shifted(value, c)
        else if shiftType == 1 then Shifted(0, Negative(value))
        else if shiftType == 2 then ArithmeticRight(value, 32, c)
        else RotateRightExtended(value, c)
  {
  }

  /** A register-specified amount is the low byte of Rs (bits 4-7 of `operand`), applied with no special case for 0 or 32. */
  lemma OperandRegisterAmount(operand: bv32, value: bv32, registers: seq<bv32>, c: bool)
    requires |registers| == 16
    requires operand & 1 != 0
    ensures Operand(operand, value, registers, c) ==
      ApplyShift((operand >> 1) & 3, value, (registers[((operand >> 4) & 0xF) as nat] & 0xFF) as nat, c)
  {
  }
}
