/**
 * THUMB format 4, the ALU operations on low registers (cpu/thumb/DataProcessing.kt).
 * Every operation reads Rd (bits 0-2) as the destination operand and the
 * register named by bits 3-5 as the source operand. The logical operations
 * write Rd and set N and Z; TST, CMP and CMN only set flags; the shifts take
 * their amount from the low byte of the source register and their carry
 * from the barrel shifter; ADC, SBC, NEG, CMP and CMN also set C and V.
 */
module ThumbDataProcessing {
  import opened Extensions
  import opened CpuFlags
  import opened CpuUtils
  import opened CpuModel
  import opened BarrelShifter
  import opened Processor
  import opened ThumbFields
  import opened ThumbRandom

  datatype AluOp = And | Eor | Lsl | Lsr | Asr | Adc | Sbc | Ror | Tst | Neg | Cmp | Cmn | Orr | Mul | Bic | Mvn

  /** The operation selected by bits 6-9 of a format 4 instruction, in the order of the decoder's table. */
  function AluOpOf(k: nat): (op: AluOp)
    requires k < 16
  {
    [And, Eor, Lsl, Lsr, Asr, Adc, Sbc, Ror, Tst, Neg, Cmp, Cmn, Orr, Mul, Bic, Mvn][k]
  }

  /** Rd: bits 0-2, both the destination and the first operand. */
  function Dest(instr: bv32): nat
  {
    LowRegister(instr, 0)
  }

  /** The value of Rd before the operation. */
  function DestValue(m: Machine, instr: bv32): bv32
    requires Wf(m)
  {
    m.registers[Dest(instr)]
  }

  /** The value of the register named by bits 3-5. */
  function SourceValue(m: Machine, instr: bv32): bv32
    requires Wf(m)
  {
    m.registers[LowRegister(instr, 3)]
  }

  predicate IsLogical(op: AluOp)
  {
    op == And || op == Eor || op == Orr || op == Bic || op == Mvn
  }

  predicate IsShift(op: AluOp)
  {
    op == Lsl || op == Lsr || op == Asr || op == Ror
  }

  predicate IsTest(op: AluOp)
  {
    op == Tst || op == Cmp || op == Cmn
  }

  /** The value an AND, EOR, ORR, BIC or MVN writes. */
  function Logic(op: AluOp, d: bv32, s: bv32): bv32
    requires IsLogical(op)
  {
    match op
    case And => d & s
    case Eor => d ^ s
    case Orr => d | s
    case Bic => d & !s
    case Mvn => !s
  }

  /** The barrel-shifter operation of LSL, LSR, ASR or ROR by `amount`. */
  function Shift(op: AluOp, d: bv32, amount: nat, c: bool): Shifted
    requires IsShift(op)
  {
    match op
    case Lsl => LogicalLeft(d, amount, c)
    case Lsr => LogicalRight(d, amount, c)
    case Asr => ArithmeticRight(d, amount, c)
    case Ror => RotateRight(d, amount, c)
  }

  /** A shift's amount: the low byte of the source register. */
  function ShiftAmountOf(s: bv32): (amount: nat)
    ensures amount < 256
  {
    (s & 0xFF) as nat
  }

  /** `destination + operand + carry`, wrapping. */
  function AddWithCarry(d: bv32, s: bv32, c: bool): bv32
  {
    d + s + (if c then 1 else 0)
  }

  /** `destination - operand - 1 + carry`, wrapping. */
  function SubWithCarry(d: bv32, s: bv32, c: bool): bv32
  {
    d - s - 1 + (if c then 1 else 0)
  }

  /** `destination * operand`, the low 32 bits of the product. */
  function Times(d: bv32, s: bv32): bv32
  {
    d * s
  }

  /** `perform`: Rd = `result`, then N and Z from it. */
  function WriteNZ(m: Machine, instr: bv32, result: bv32): (r: Machine)
    requires Wf(m)
    ensures Wf(r)
  {
    m.(registers := m.registers[Dest(instr) := result], cpsr := SetNZ(m.cpsr, result))
  }

  /** `perform` followed by the V and C writes of the arithmetic operations. */
  function WriteNZCV(m: Machine, instr: bv32, result: bv32, c: bool, v: bool): (r: Machine)
    requires Wf(m)
    ensures Wf(r)
  {
    m.(registers := m.registers[Dest(instr) := result], cpsr := SetNZCV(m.cpsr, result, c, v))
  }

  /** `performWithoutDestination` followed by the V and C writes of CMP and CMN. */
  function TestNZCV(m: Machine, result: bv32, c: bool, v: bool): (r: Machine)
  {
    m.(cpsr := SetNZCV(m.cpsr, result, c, v))
  }

  /** `performShift`: Rd = the shifted value; C = the shifter carry, then N and Z. */
  function WriteShift(m: Machine, instr: bv32, s: Shifted): (r: Machine)
    requires Wf(m)
    ensures Wf(r)
  {
    m.(registers := m.registers[Dest(instr) := s.value], shifterCarry := s.carry, cpsr := SetCNZ(m.cpsr, s.carry, s.value))
  }

  /** NEG's overflow, from the operands of `0 - operand`: set exactly when the operand is the most negative word. */
  predicate NegOverflow(s: bv32)
  {
    SubOverflow(Minus(0, s), 0, s)
  }

  /** One ALU operation on the machine. NEG takes V from `0 - operand` (see `NegAsWritten`). */
  function Alu(m: Machine, op: AluOp, instr: bv32): (r: Machine)
    requires Wf(m)
    ensures Wf(r)
  {
    match op
    case And | Eor | Orr | Bic | Mvn => LogicalEffect(m, op, instr)
    case Lsl | Lsr | Asr | Ror => ShiftEffect(m, op, instr)
    case Tst => TstEffect(m, instr)
    case Adc => AdcEffect(m, instr)
    case Sbc => SbcEffect(m, instr)
    case Neg => NegEffect(m, instr)
    case Cmp => CmpEffect(m, instr)
    case Cmn => CmnEffect(m, instr)
    case Mul => MulEffect(m, instr)
  }

  /** AND, EOR, ORR, BIC, MVN: `perform` with the logical value. */
  function LogicalEffect(m: Machine, op: AluOp, instr: bv32): (r: Machine)
    requires Wf(m) && IsLogical(op)
    ensures Wf(r)
  {
    WriteNZ(m, instr, Logic(op, DestValue(m, instr), SourceValue(m, instr)))
  }

  /** LSL, LSR, ASR, ROR: `performShift` by the low byte of the source register. */
  function ShiftEffect(m: Machine, op: AluOp, instr: bv32): (r: Machine)
    requires Wf(m) && IsShift(op)
    ensures Wf(r)
  {
    WriteShift(m, instr, Shift(op, DestValue(m, instr), ShiftAmountOf(SourceValue(m, instr)), Get(m.cpsr, C)))
  }

  /** TST: `performWithoutDestination` with `destination and operand`. */
  function TstEffect(m: Machine, instr: bv32): (r: Machine)
    requires Wf(m)
    ensures Wf(r)
  {
    m.(cpsr := SetNZ(m.cpsr, DestValue(m, instr) & SourceValue(m, instr)))
  }

  /** ADC: the sum with carry in, V of that sum, C from bit 32 of the unsigned sum. */
  function AdcEffect(m: Machine, instr: bv32): (r: Machine)
    requires Wf(m)
    ensures Wf(r)
  {
    var d := DestValue(m, instr);
    var s := SourceValue(m, instr);
    var c := Get(m.cpsr, C);
    WriteNZCV(m, instr, AddWithCarry(d, s, c), Carry(d, s, c), AddOverflow(AddWithCarry(d, s, c), d, s))
  }

  /** SBC: the difference with borrow in, V of that difference, C when bit 32 of the unsigned difference is clear. */
  function SbcEffect(m: Machine, instr: bv32): (r: Machine)
    requires Wf(m)
    ensures Wf(r)
  {
    var d := DestValue(m, instr);
    var s := SourceValue(m, instr);
    var c := Get(m.cpsr, C);
    WriteNZCV(m, instr, SubWithCarry(d, s, c), NoBorrow(d, s, c), SubOverflow(SubWithCarry(d, s, c), d, s))
  }

  /** NEG: Rd = `0 - operand`, with the V of that subtraction. */
  function NegEffect(m: Machine, instr: bv32): (r: Machine)
    requires Wf(m)
    ensures Wf(r)
  {
    var s := SourceValue(m, instr);
    WriteNZCV(m, instr, Minus(0, s), NoBorrow(0, s, true), NegOverflow(s))
  }

  /** CMP: the flags of `destination - operand`. */
  function CmpEffect(m: Machine, instr: bv32): (r: Machine)
    requires Wf(m)
    ensures Wf(r)
  {
    var d := DestValue(m, instr);
    var s := SourceValue(m, instr);
    TestNZCV(m, Minus(d, s), NoBorrow(d, s, true), SubOverflow(Minus(d, s), d, s))
  }

  /** CMN: the flags of `destination + operand`. */
  function CmnEffect(m: Machine, instr: bv32): (r: Machine)
    requires Wf(m)
    ensures Wf(r)
  {
    var d := DestValue(m, instr);
    var s := SourceValue(m, instr);
    TestNZCV(m, Plus(d, s), Carry(d, s, false), AddOverflow(Plus(d, s), d, s))
  }

  /** MUL: C cleared, then `perform` with the product. */
  function MulEffect(m: Machine, instr: bv32): (r: Machine)
    requires Wf(m)
    ensures Wf(r)
  {
    var p := Times(DestValue(m, instr), SourceValue(m, instr));
    m.(registers := m.registers[Dest(instr) := p], cpsr := SetCNZ(m.cpsr, false, p))
  }

  /**
   * `thumbNeg` as written: it clears `destination` and then calls
   * `subOverflow()`, which reads the `result` field still holding the 0 that
   * `initialize` put there, so V is the overflow of `0 - 0`.
   */
  function NegAsWritten(m: Machine, instr: bv32): (r: Machine)
    requires Wf(m)
    ensures Wf(r)
  {
    var s := SourceValue(m, instr);
    WriteNZCV(m, instr, Minus(0, s), NoBorrow(0, s, true), SubOverflow(0, 0, s))
  }

  /** As written, NEG clears V whatever the operand. */
  lemma NegAsWrittenClearsV(m: Machine, instr: bv32)
    requires Wf(m)
    ensures !Flags(NegAsWritten(m, instr).cpsr).v
  {
    var s := SourceValue(m, instr);
    assert !SubOverflow(0, 0, s);
    FlagsOfSetNZCV(m.cpsr, Minus(0, s), NoBorrow(0, s, true), SubOverflow(0, 0, s));
  }

  /** NEG of 0x8000_0000 overflows (the negation does not fit), yet the code as written leaves V clear. */
  lemma NegAsWrittenMissesOverflow(m: Machine, instr: bv32)
    requires Wf(m) && SourceValue(m, instr) == 0x8000_0000
    ensures Flags(Alu(m, Neg, instr).cpsr).v && !Flags(NegAsWritten(m, instr).cpsr).v
  {
    NegAsWrittenClearsV(m, instr);
    NegFlags(m, instr);
    NegOverflowMeaning(0x8000_0000);
  }

  /** `0 - s` overflows exactly for the most negative word. */
  lemma NegOverflowMeaning(s: bv32)
    ensures NegOverflow(s) <==> s == 0x8000_0000
  {
    assert Minus(0, s) == 0 - s;
    NegOverflowRaw(s);
  }

  lemma NegOverflowRaw(s: bv32)
    ensures SubOverflow(0 - s, 0, s) <==> s == 0x8000_0000
  {
  }

  /** NEG sets C exactly when the operand is 0 and V exactly when it is 0x8000_0000. */
  lemma NegCarryAndOverflow(m: Machine, instr: bv32)
    requires Wf(m)
    ensures var s := SourceValue(m, instr); var f := Flags(Alu(m, Neg, instr).cpsr);
      f.c == (s == 0) && f.v == (s == 0x8000_0000)
  {
    var s := SourceValue(m, instr);
    NegFlags(m, instr);
    NegOverflowMeaning(s);
    NoBorrowFromZero(s);
  }

  /** Nothing is borrowed from 0 exactly when 0 is subtracted. */
  lemma NoBorrowFromZero(s: bv32)
    ensures NoBorrow(0, s, true) <==> s == 0
  {
  }

  lemma NegFlags(m: Machine, instr: bv32)
    requires Wf(m)
    ensures var s := SourceValue(m, instr); var r := Alu(m, Neg, instr);
      r.registers[Dest(instr)] == Minus(0, s) &&
      Flags(r.cpsr) == Flags(m.cpsr).(n := Negative(Minus(0, s)), z := Minus(0, s) == 0, c := NoBorrow(0, s, true),
        v := NegOverflow(s))
  {
    var s := SourceValue(m, instr);
    assert Alu(m, Neg, instr) == WriteNZCV(m, instr, Minus(0, s), NoBorrow(0, s, true), NegOverflow(s));
    FlagsOfSetNZCV(m.cpsr, Minus(0, s), NoBorrow(0, s, true), NegOverflow(s));
  }

  /** AND, EOR, ORR, BIC and MVN write their value to Rd, set N and Z from it, and keep C and V. */
  lemma LogicalFlags(m: Machine, op: AluOp, instr: bv32)
    requires Wf(m) && IsLogical(op)
    ensures var v := Logic(op, DestValue(m, instr), SourceValue(m, instr)); var r := Alu(m, op, instr);
      r.registers == m.registers[Dest(instr) := v] && Flags(r.cpsr) == Flags(m.cpsr).(n := Negative(v), z := v == 0)
  {
    var v := Logic(op, DestValue(m, instr), SourceValue(m, instr));
    assert Alu(m, op, instr) == WriteNZ(m, instr, v);
    FlagsOfSetNZ(m.cpsr, v);
  }

  /** AND and BIC split Rd into the bits the source selects and the bits it clears. */
  lemma AndBicPartition(d: bv32, s: bv32)
    ensures Logic(And, d, s) | Logic(Bic, d, s) == d
  {
    assert Logic(And, d, s) == d & s;
    assert Logic(Bic, d, s) == d & !s;
    MaskSplit(d, s);
  }

  lemma MaskSplit(d: bv32, s: bv32)
    ensures (d & s) | (d & !s) == d
  {
  }

  /** TST, CMP and CMN change no register. */
  lemma TestsKeepRegisters(m: Machine, op: AluOp, instr: bv32)
    requires Wf(m) && IsTest(op)
    ensures Alu(m, op, instr).registers == m.registers
  {
  }

  /** TST sets N and Z from `Rd & Rs` and keeps C and V. */
  lemma TstFlags(m: Machine, instr: bv32)
    requires Wf(m)
    ensures var v := DestValue(m, instr) & SourceValue(m, instr);
      Flags(Alu(m, Tst, instr).cpsr) == Flags(m.cpsr).(n := Negative(v), z := v == 0)
  {
    var v := DestValue(m, instr) & SourceValue(m, instr);
    assert Alu(m, Tst, instr).cpsr == SetNZ(m.cpsr, v);
    FlagsOfSetNZ(m.cpsr, v);
  }

  /**
   * The shifts shift Rd by the low byte of the source register through the
   * barrel shifter: Rd and the shifter carry take its result, C takes its
   * carry, N and Z come from the value, V is kept.
   */
  lemma ShiftFlags(m: Machine, op: AluOp, instr: bv32)
    requires Wf(m) && IsShift(op)
    ensures var sh := Shift(op, DestValue(m, instr), ShiftAmountOf(SourceValue(m, instr)), Get(m.cpsr, C));
      var r := Alu(m, op, instr);
      r.registers == m.registers[Dest(instr) := sh.value] && r.shifterCarry == sh.carry &&
      Flags(r.cpsr) == Flags(m.cpsr).(n := Negative(sh.value), z := sh.value == 0, c := sh.carry)
  {
    var sh := Shift(op, DestValue(m, instr), ShiftAmountOf(SourceValue(m, instr)), Get(m.cpsr, C));
    assert Alu(m, op, instr) == WriteShift(m, instr, sh);
    FlagsOfSetCNZ(m.cpsr, sh.carry, sh.value);
  }

  /** A shift by zero (a source register whose low byte is 0) leaves Rd and C as they were. */
  lemma ShiftByZeroKeeps(op: AluOp, d: bv32, s: bv32, c: bool)
    requires IsShift(op) && s & 0xFF == 0
    ensures Shift(op, d, ShiftAmountOf(s), c) == Shifted(d, c)
  {
  }

  /** LSL and LSR by 32 or more give 0; ASR by 32 or more fills with the sign. */
  lemma ShiftByLarge(d: bv32, s: bv32, c: bool)
    requires ShiftAmountOf(s) >= 32
    ensures Shift(Lsl, d, ShiftAmountOf(s), c).value == 0 && Shift(Lsr, d, ShiftAmountOf(s), c).value == 0
    ensures Shift(Asr, d, ShiftAmountOf(s), c).value == if Negative(d) then 0xFFFF_FFFF else 0
  {
    ArithmeticRightFillsWithSign(d, ShiftAmountOf(s), c);
  }

  /** MUL writes the low word of the product, clears C, sets N and Z from the product and keeps V. */
  lemma MulFlags(m: Machine, instr: bv32)
    requires Wf(m)
    ensures var p := Times(DestValue(m, instr), SourceValue(m, instr)); var r := Alu(m, Mul, instr);
      r.registers == m.registers[Dest(instr) := p] && Flags(r.cpsr) == Flags(m.cpsr).(n := Negative(p), z := p == 0, c := false)
  {
    var p := Times(DestValue(m, instr), SourceValue(m, instr));
    assert Alu(m, Mul, instr).cpsr == SetCNZ(m.cpsr, false, p);
    FlagsOfSetCNZ(m.cpsr, false, p);
  }

  /** ADC: Rd = Rd + Rs + C, C on unsigned carry-out of the 33-bit sum, V on signed overflow. */
  lemma AdcFlags(m: Machine, instr: bv32)
    requires Wf(m)
    ensures var d := DestValue(m, instr); var s := SourceValue(m, instr); var c := Get(m.cpsr, C);
      var v := AddWithCarry(d, s, c); var r := AdcEffect(m, instr);
      r.registers == m.registers[Dest(instr) := v] &&
      Flags(r.cpsr) == Flags(m.cpsr).(n := Negative(v), z := v == 0, c := Carry(d, s, c), v := AddOverflow(v, d, s))
  {
    var d := DestValue(m, instr);
    var s := SourceValue(m, instr);
    var c := Get(m.cpsr, C);
    FlagsOfWriteNZCV(m, instr, AddWithCarry(d, s, c), Carry(d, s, c), AddOverflow(AddWithCarry(d, s, c), d, s));
  }

  /** SBC: Rd = Rd - Rs - (1 - C), C when no borrow occurs, V on signed overflow. */
  lemma SbcFlags(m: Machine, instr: bv32)
    requires Wf(m)
    ensures var d := DestValue(m, instr); var s := SourceValue(m, instr); var c := Get(m.cpsr, C);
      var v := SubWithCarry(d, s, c); var r := SbcEffect(m, instr);
      r.registers == m.registers[Dest(instr) := v] &&
      Flags(r.cpsr) == Flags(m.cpsr).(n := Negative(v), z := v == 0, c := NoBorrow(d, s, c), v := SubOverflow(v, d, s))
  {
    var d := DestValue(m, instr);
    var s := SourceValue(m, instr);
    var c := Get(m.cpsr, C);
    FlagsOfWriteNZCV(m, instr, SubWithCarry(d, s, c), NoBorrow(d, s, c), SubOverflow(SubWithCarry(d, s, c), d, s));
  }

  /** CMP: the flags of `Rd - Rs`; Z iff they are equal, C iff Rd >= Rs unsigned. */
  lemma CmpFlags(m: Machine, instr: bv32)
    requires Wf(m)
    ensures var d := DestValue(m, instr); var s := SourceValue(m, instr);
      Flags(Alu(m, Cmp, instr).cpsr) ==
        Flags(m.cpsr).(n := Negative(Minus(d, s)), z := d == s, c := d >= s, v := SubOverflow(Minus(d, s), d, s))
  {
    var d := DestValue(m, instr);
    var s := SourceValue(m, instr);
    CmpSetsNZCV(m, instr);
    MinusZero(d, s);
  }

  lemma CmpSetsNZCV(m: Machine, instr: bv32)
    requires Wf(m)
    ensures var d := DestValue(m, instr); var s := SourceValue(m, instr);
      Flags(Alu(m, Cmp, instr).cpsr) ==
        Flags(m.cpsr).(n := Negative(Minus(d, s)), z := Minus(d, s) == 0, c := NoBorrow(d, s, true),
          v := SubOverflow(Minus(d, s), d, s))
  {
    var d := DestValue(m, instr);
    var s := SourceValue(m, instr);
    assert Alu(m, Cmp, instr).cpsr == SetNZCV(m.cpsr, Minus(d, s), NoBorrow(d, s, true), SubOverflow(Minus(d, s), d, s));
    FlagsOfSetNZCV(m.cpsr, Minus(d, s), NoBorrow(d, s, true), SubOverflow(Minus(d, s), d, s));
  }

  /** CMN: the flags of `Rd + Rs`, C on unsigned carry-out. */
  lemma CmnFlags(m: Machine, instr: bv32)
    requires Wf(m)
    ensures var d := DestValue(m, instr); var s := SourceValue(m, instr);
      Flags(Alu(m, Cmn, instr).cpsr) ==
        Flags(m.cpsr).(n := Negative(Plus(d, s)), z := Plus(d, s) == 0, c := Carry(d, s, false),
          v := AddOverflow(Plus(d, s), d, s))
  {
    var d := DestValue(m, instr);
    var s := SourceValue(m, instr);
    assert Alu(m, Cmn, instr).cpsr == SetNZCV(m.cpsr, Plus(d, s), Carry(d, s, false), AddOverflow(Plus(d, s), d, s));
    FlagsOfSetNZCV(m.cpsr, Plus(d, s), Carry(d, s, false), AddOverflow(Plus(d, s), d, s));
  }

  /** The flags `WriteNZCV` leaves. */
  lemma FlagsOfWriteNZCV(m: Machine, instr: bv32, result: bv32, c: bool, v: bool)
    requires Wf(m)
    ensures var r := WriteNZCV(m, instr, result, c, v);
      r.registers == m.registers[Dest(instr) := result] &&
      Flags(r.cpsr) == Flags(m.cpsr).(n := Negative(result), z := result == 0, c := c, v := v)
  {
    FlagsOfSetNZCV(m.cpsr, result, c, v);
  }

  /** What no ALU operation touches: pc (Rd is a low register), the mode, the state, spsr and the pipeline. */
  predicate Kept(r: Machine, m: Machine)
    requires Wf(r) && Wf(m)
  {
    Pc(r) == Pc(m) && r.mode == m.mode && r.state == m.state && r.pipeline == m.pipeline && r.spsr == m.spsr
  }

  /** No ALU operation writes pc or touches the mode, the state, spsr or the pipeline. */
  lemma AluKeeps(m: Machine, op: AluOp, instr: bv32)
    requires Wf(m)
    ensures Kept(Alu(m, op, instr), m)
  {
    if IsLogical(op) {
      AluLogicalIs(m, op, instr);
      WriteNZKeeps(m, instr, Logic(op, DestValue(m, instr), SourceValue(m, instr)));
    } else if IsShift(op) {
      AluShiftIs(m, op, instr);
      WriteShiftKeeps(m, instr, Shift(op, DestValue(m, instr), ShiftAmountOf(SourceValue(m, instr)), Get(m.cpsr, C)));
    } else if IsTest(op) {
      TestsKeep(m, op, instr);
    } else {
      ArithmeticKeeps(m, op, instr);
    }
  }

  lemma TestsKeep(m: Machine, op: AluOp, instr: bv32)
    requires Wf(m) && IsTest(op)
    ensures Kept(Alu(m, op, instr), m)
  {
    match op
    case Tst => AluTstIs(m, op, instr);
    case Cmp => AluCmpIs(m, op, instr);
    case Cmn => AluCmnIs(m, op, instr);
  }

  lemma ArithmeticKeeps(m: Machine, op: AluOp, instr: bv32)
    requires Wf(m) && (op == Adc || op == Sbc || op == Neg || op == Mul)
    ensures Kept(Alu(m, op, instr), m)
  {
    var d := DestValue(m, instr);
    var s := SourceValue(m, instr);
    var c := Get(m.cpsr, C);
    match op
    case Adc =>
      AluAdcIs(m, op, instr);
      WriteNZCVKeeps(m, instr, AddWithCarry(d, s, c), Carry(d, s, c), AddOverflow(AddWithCarry(d, s, c), d, s));
    case Sbc =>
      AluSbcIs(m, op, instr);
      WriteNZCVKeeps(m, instr, SubWithCarry(d, s, c), NoBorrow(d, s, c), SubOverflow(SubWithCarry(d, s, c), d, s));
    case Neg =>
      AluNegIs(m, op, instr);
      WriteNZCVKeeps(m, instr, Minus(0, s), NoBorrow(0, s, true), NegOverflow(s));
    case Mul =>
      AluMulIs(m, op, instr);
  }

  lemma WriteNZKeeps(m: Machine, instr: bv32, result: bv32)
    requires Wf(m)
    ensures Kept(WriteNZ(m, instr, result), m)
  {
  }

  lemma WriteNZCVKeeps(m: Machine, instr: bv32, result: bv32, c: bool, v: bool)
    requires Wf(m)
    ensures Kept(WriteNZCV(m, instr, result, c, v), m)
  {
  }

  lemma WriteShiftKeeps(m: Machine, instr: bv32, sh: Shifted)
    requires Wf(m)
    ensures Kept(WriteShift(m, instr, sh), m)
  {
  }

  /* Each operation's case of `Alu`. */

  lemma AluLogicalIs(m: Machine, op: AluOp, instr: bv32)
    requires Wf(m) && IsLogical(op)
    ensures Alu(m, op, instr) == LogicalEffect(m, op, instr)
  {
  }

  lemma AluShiftIs(m: Machine, op: AluOp, instr: bv32)
    requires Wf(m) && IsShift(op)
    ensures Alu(m, op, instr) == ShiftEffect(m, op, instr)
  {
  }

  lemma AluTstIs(m: Machine, op: AluOp, instr: bv32)
    requires Wf(m) && op == Tst
    ensures Alu(m, op, instr) == TstEffect(m, instr)
  {
  }

  lemma AluCmpIs(m: Machine, op: AluOp, instr: bv32)
    requires Wf(m) && op == Cmp
    ensures Alu(m, op, instr) == CmpEffect(m, instr)
  {
  }

  lemma AluCmnIs(m: Machine, op: AluOp, instr: bv32)
    requires Wf(m) && op == Cmn
    ensures Alu(m, op, instr) == CmnEffect(m, instr)
  {
  }

  lemma AluAdcIs(m: Machine, op: AluOp, instr: bv32)
    requires Wf(m) && op == Adc
    ensures Alu(m, op, instr) == AdcEffect(m, instr)
  {
  }

  lemma AluSbcIs(m: Machine, op: AluOp, instr: bv32)
    requires Wf(m) && op == Sbc
    ensures Alu(m, op, instr) == SbcEffect(m, instr)
  {
  }

  lemma AluNegIs(m: Machine, op: AluOp, instr: bv32)
    requires Wf(m) && op == Neg
    ensures Alu(m, op, instr) == NegEffect(m, instr)
  {
  }

  lemma AluMulIs(m: Machine, op: AluOp, instr: bv32)
    requires Wf(m) && op == Mul
    ensures Alu(m, op, instr) == MulEffect(m, instr)
  {
  }

  /** The ALU operation on the processor. */
  method RunAlu(cpu: Cpu, op: AluOp, instr: bv32)
    requires cpu.Valid()
    modifies cpu
    ensures cpu.Valid() && cpu.View() == Alu(old(cpu.View()), op, instr)
  {
    if IsLogical(op) || IsShift(op) {
      RunAluWrites(cpu, op, instr);
    } else if IsTest(op) {
      RunAluTests(cpu, op, instr);
    } else {
      RunAluArithmetic(cpu, op, instr);
    }
  }

  method RunAluWrites(cpu: Cpu, op: AluOp, instr: bv32)
    requires cpu.Valid() && (IsLogical(op) || IsShift(op))
    modifies cpu
    ensures cpu.Valid() && cpu.View() == Alu(old(cpu.View()), op, instr)
  {
    if IsLogical(op) {
      AluLogicalIs(cpu.View(), op, instr);
      RunLogical(cpu, op, instr);
    } else {
      AluShiftIs(cpu.View(), op, instr);
      RunShift(cpu, op, instr);
    }
  }

  method RunAluTests(cpu: Cpu, op: AluOp, instr: bv32)
    requires cpu.Valid() && IsTest(op)
    modifies cpu
    ensures cpu.Valid() && cpu.View() == Alu(old(cpu.View()), op, instr)
  {
    match op
    case Tst =>
      AluTstIs(cpu.View(), op, instr);
      RunTst(cpu, instr);
    case Cmp =>
      AluCmpIs(cpu.View(), op, instr);
      RunCmp(cpu, instr);
    case Cmn =>
      AluCmnIs(cpu.View(), op, instr);
      RunCmn(cpu, instr);
  }

  method RunAluArithmetic(cpu: Cpu, op: AluOp, instr: bv32)
    requires cpu.Valid() && (op == Adc || op == Sbc || op == Neg || op == Mul)
    modifies cpu
    ensures cpu.Valid() && cpu.View() == Alu(old(cpu.View()), op, instr)
  {
    match op
    case Adc =>
      AluAdcIs(cpu.View(), op, instr);
      RunAdc(cpu, instr);
    case Sbc =>
      AluSbcIs(cpu.View(), op, instr);
      RunSbc(cpu, instr);
    case Neg =>
      AluNegIs(cpu.View(), op, instr);
      RunNeg(cpu, instr);
    case Mul =>
      AluMulIs(cpu.View(), op, instr);
      RunMul(cpu, instr);
  }

  method RunLogical(cpu: Cpu, op: AluOp, instr: bv32)
    requires cpu.Valid() && IsLogical(op)
    modifies cpu
    ensures cpu.Valid() && cpu.View() == LogicalEffect(old(cpu.View()), op, instr)
  {
    var v := Logic(op, cpu.registers[Dest(instr)], cpu.registers[LowRegister(instr, 3)]);
    cpu.registers := cpu.registers[Dest(instr) := v];
    cpu.cpsr := SetNZ(cpu.cpsr, v);
  }

  method RunShift(cpu: Cpu, op: AluOp, instr: bv32)
    requires cpu.Valid() && IsShift(op)
    modifies cpu
    ensures cpu.Valid() && cpu.View() == ShiftEffect(old(cpu.View()), op, instr)
  {
    var amount := ShiftAmountOf(cpu.registers[LowRegister(instr, 3)]);
    var sh := Shift(op, cpu.registers[Dest(instr)], amount, CpuFlags.Get(cpu.cpsr, C));
    cpu.registers := cpu.registers[Dest(instr) := sh.value];
    cpu.shifterCarry := sh.carry;
    cpu.cpsr := SetCNZ(cpu.cpsr, sh.carry, sh.value);
  }

  method RunTst(cpu: Cpu, instr: bv32)
    requires cpu.Valid()
    modifies cpu
    ensures cpu.Valid() && cpu.View() == TstEffect(old(cpu.View()), instr)
  {
    cpu.cpsr := SetNZ(cpu.cpsr, cpu.registers[Dest(instr)] & cpu.registers[LowRegister(instr, 3)]);
  }

  method RunAdc(cpu: Cpu, instr: bv32)
    requires cpu.Valid()
    modifies cpu
    ensures cpu.Valid() && cpu.View() == AdcEffect(old(cpu.View()), instr)
  {
    var d := cpu.registers[Dest(instr)];
    var s := cpu.registers[LowRegister(instr, 3)];
    var c := CpuFlags.Get(cpu.cpsr, C);
    var v := AddWithCarry(d, s, c);
    cpu.registers := cpu.registers[Dest(instr) := v];
    cpu.cpsr := SetNZCV(cpu.cpsr, v, Carry(d, s, c), AddOverflow(v, d, s));
  }

  method RunSbc(cpu: Cpu, instr: bv32)
    requires cpu.Valid()
    modifies cpu
    ensures cpu.Valid() && cpu.View() == SbcEffect(old(cpu.View()), instr)
  {
    var d := cpu.registers[Dest(instr)];
    var s := cpu.registers[LowRegister(instr, 3)];
    var c := CpuFlags.Get(cpu.cpsr, C);
    var v := SubWithCarry(d, s, c);
    cpu.registers := cpu.registers[Dest(instr) := v];
    cpu.cpsr := SetNZCV(cpu.cpsr, v, NoBorrow(d, s, c), SubOverflow(v, d, s));
  }

  method RunNeg(cpu: Cpu, instr: bv32)
    requires cpu.Valid()
    modifies cpu
    ensures cpu.Valid() && cpu.View() == NegEffect(old(cpu.View()), instr)
  {
    var s := cpu.registers[LowRegister(instr, 3)];
    var v := Minus(0, s);
    cpu.registers := cpu.registers[Dest(instr) := v];
    cpu.cpsr := SetNZCV(cpu.cpsr, v, NoBorrow(0, s, true), NegOverflow(s));
  }

  /** NEG as written: V is the overflow of `0 - 0`, so always clear. */
  method RunNegAsWritten(cpu: Cpu, instr: bv32)
    requires cpu.Valid()
    modifies cpu
    ensures cpu.Valid() && cpu.View() == NegAsWritten(old(cpu.View()), instr)
  {
    var s := cpu.registers[LowRegister(instr, 3)];
    var v := Minus(0, s);
    cpu.registers := cpu.registers[Dest(instr) := v];
    cpu.cpsr := SetNZCV(cpu.cpsr, v, NoBorrow(0, s, true), SubOverflow(0, 0, s));
  }

  method RunCmp(cpu: Cpu, instr: bv32)
    requires cpu.Valid()
    modifies cpu
    ensures cpu.Valid() && cpu.View() == CmpEffect(old(cpu.View()), instr)
  {
    var d := cpu.registers[Dest(instr)];
    var s := cpu.registers[LowRegister(instr, 3)];
    cpu.cpsr := SetNZCV(cpu.cpsr, Minus(d, s), NoBorrow(d, s, true), SubOverflow(Minus(d, s), d, s));
  }

  method RunCmn(cpu: Cpu, instr: bv32)
    requires cpu.Valid()
    modifies cpu
    ensures cpu.Valid() && cpu.View() == CmnEffect(old(cpu.View()), instr)
  {
    var d := cpu.registers[Dest(instr)];
    var s := cpu.registers[LowRegister(instr, 3)];
    cpu.cpsr := SetNZCV(cpu.cpsr, Plus(d, s), Carry(d, s, false), AddOverflow(Plus(d, s), d, s));
  }

  method RunMul(cpu: Cpu, instr: bv32)
    requires cpu.Valid()
    modifies cpu
    ensures cpu.Valid() && cpu.View() == MulEffect(old(cpu.View()), instr)
  {
    var p := Times(cpu.registers[Dest(instr)], cpu.registers[LowRegister(instr, 3)]);
    cpu.registers := cpu.registers[Dest(instr) := p];
    cpu.cpsr := SetCNZ(cpu.cpsr, false, p);
  }
}
