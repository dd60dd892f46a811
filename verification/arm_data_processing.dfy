/**
 * ARM data processing, MRS and MSR (cpu/arm/DataProcessing.kt).
 *
 * `initialize` reads Rn (bits 16-19) as the first operand and computes the
 * second operand: an eight-bit immediate rotated right by twice bits 8-11
 * (bit 25 set), or Rm (bits 0-3) through the barrel shifter, by an immediate
 * amount or by the low byte of Rs (bit 4 set; then pc reads four bytes ahead
 * while the operands are fetched). Either way the shifter carry is stored.
 * The operation then writes Rd (bits 12-15) through `setRegister`, and with
 * bit 20 set writes the flags. TST, TEQ, CMP and CMN never write Rd; with Rd
 * = 15 they (like MOV and SUB with bit 20) copy spsr into cpsr and switch
 * mode and state. A mode encoding that `CPUMode.byMask` does not know makes
 * the source throw; here that is an `Err`.
 */
module ArmDataProcessing {
  import opened Wrappers
  import opened Extensions
  import opened CpuFlags
  import opened CpuModes
  import opened CpuUtils
  import opened Memory
  import opened CpuModel
  import opened CpuBanks
  import opened BarrelShifter
  import opened Processor
  import ThumbDataProcessing
  import CpuProperties

  /** The sixteen operations in opcode order (bits 21-24). */
  datatype DpOp = And | Eor | Sub | Rsb | Add | Adc | Sbc | Rsc | Tst | Teq | Cmp | Cmn | Orr | Mov | Bic | Mvn

  function DpOpOf(k: nat): DpOp
    requires k < 16
  {
    [And, Eor, Sub, Rsb, Add, Adc, Sbc, Rsc, Tst, Teq, Cmp, Cmn, Orr, Mov, Bic, Mvn][k]
  }

  /** A four-bit register field starting at bit `at`. */
  function RegisterAt(instr: bv32, at: nat): (r: nat)
    requires at <= 28
    ensures r < 16
  {
    ((instr >> at) & 0xF) as nat
  }

  /** Rd, bits 12-15. */
  function Rd(instr: bv32): (r: nat)
    ensures r < 16
  {
    RegisterAt(instr, 12)
  }

  /** Rn, bits 16-19. */
  function Rn(instr: bv32): (r: nat)
    ensures r < 16
  {
    RegisterAt(instr, 16)
  }

  /** Bit 20: the operation sets the flags. */
  predicate SetsFlags(instr: bv32)
  {
    Bit(instr, 20)
  }

  predicate IsLogical(op: DpOp)
  {
    op == And || op == Eor || op == Orr || op == Bic || op == Mvn
  }

  predicate IsTest(op: DpOp)
  {
    op == Tst || op == Teq || op == Cmp || op == Cmn
  }

  /** The operations that set C from a carry or a borrow rather than from the shifter. */
  predicate IsArithmetic(op: DpOp)
  {
    op == Sub || op == Rsb || op == Add || op == Adc || op == Sbc || op == Rsc || op == Cmp || op == Cmn
  }

  /* Operand fetch. */

  /** `firstOperand`, `secondOperand` and the shifter carry `initialize` leaves. */
  datatype Operands = Operands(first: bv32, second: bv32, carry: bool)

  /** `(instruction and 0xF00) ushr 7`: the rotation of an immediate operand. */
  function Rotation(instr: bv32): (r: nat)
    ensures r < 32
  {
    ((instr & 0xF00) >> 7) as nat
  }

  /** The rotation is twice the four-bit field in bits 8-11. */
  lemma RotationIsTwiceField(instr: bv32)
    ensures Rotation(instr) == 2 * (((instr >> 8) & 0xF) as nat)
  {
    var f := (instr >> 8) & 0xF;
    assert (instr & 0xF00) >> 7 == f << 1 by {
      ShiftedField(instr);
    }
    DoubleField(f);
  }

  lemma ShiftedField(instr: bv32)
    ensures (instr & 0xF00) >> 7 == ((instr >> 8) & 0xF) << 1
  {
  }

  lemma DoubleField(f: bv32)
    requires f < 16
    ensures (f << 1) as nat == 2 * (f as nat)
  {
    assert f << 1 == f + f;
  }

  /** The operands with Rm through the shifter, reading `registers`. */
  function ShiftedOperands(registers: seq<bv32>, instr: bv32, c: bool): Operands
    requires |registers| == 16
  {
    var sh := Operand(instr >> 4, registers[RegisterIndex(instr)], registers, c);
    Operands(registers[Rn(instr)], sh.value, sh.carry)
  }

  /** The immediate operand, with the carry `barrelShifterRotateRight` gives. */
  function ImmediateOperands(m: Machine, instr: bv32): Operands
    requires Wf(m)
  {
    var sh := RotateRight(instr & 0xFF, Rotation(instr), Get(m.cpsr, C));
    Operands(m.registers[Rn(instr)], sh.value, sh.carry)
  }

  /** `pc += 4`. */
  function Ahead(m: Machine): (r: Machine)
    requires Wf(m)
    ensures Wf(r)
  {
    m.(registers := m.registers[15 := Plus(Pc(m), 4)])
  }

  /** `pc -= 4`. */
  function Behind(m: Machine): (r: Machine)
    requires Wf(m)
    ensures Wf(r)
  {
    m.(registers := m.registers[15 := Minus(Pc(m), 4)])
  }

  /** The operands `initialize` computes. */
  function Initialize(m: Machine, instr: bv32): Operands
    requires Wf(m)
  {
    if !Bit(instr, 25) && Bit(instr, 4) then ShiftedOperands(Ahead(m).registers, instr, Get(m.cpsr, C))
    else if Bit(instr, 25) then ImmediateOperands(m, instr)
    else ShiftedOperands(m.registers, instr, Get(m.cpsr, C))
  }

  /** The machine after `initialize`: pc moved ahead and back for a register-shifted operand, and the shifter carry stored. */
  function Prepared(m: Machine, instr: bv32): (r: Machine)
    requires Wf(m)
    ensures Wf(r)
  {
    var o := Initialize(m, instr);
    if !Bit(instr, 25) && Bit(instr, 4) then Behind(Ahead(m)).(shifterCarry := o.carry)
    else m.(shifterCarry := o.carry)
  }

  /** `initialize` changes nothing but the shifter carry: pc comes back to where it was. */
  lemma PreparedKeeps(m: Machine, instr: bv32)
    requires Wf(m)
    ensures Prepared(m, instr) == m.(shifterCarry := Initialize(m, instr).carry)
  {
    AheadBehind(m);
  }

  lemma AheadBehind(m: Machine)
    requires Wf(m)
    ensures Behind(Ahead(m)) == m
  {
    assert Pc(Ahead(m)) == Plus(Pc(m), 4);
    MinusPlus(Pc(m), 4);
    assert Behind(Ahead(m)).registers == m.registers;
  }

  /** With a register-shifted operand an Rn or Rm of 15 reads pc + 4. */
  lemma RegisterShiftReadsPcAhead(m: Machine, instr: bv32)
    requires Wf(m) && !Bit(instr, 25) && Bit(instr, 4) && Rn(instr) == 15
    ensures Initialize(m, instr).first == Plus(Pc(m), 4)
  {
  }

  /** A rotated immediate sets the shifter carry to bit 31 of the rotated value. */
  lemma ImmediateCarryIsSign(m: Machine, instr: bv32)
    requires Wf(m) && Bit(instr, 25) && instr & 0xF00 != 0
    ensures Initialize(m, instr).carry == Negative(Initialize(m, instr).second)
  {
    assert Rotation(instr) != 0;
  }

  /** An immediate with no rotation is the low byte itself, and C passes through as the shifter carry. */
  lemma ImmediateWithoutRotation(m: Machine, instr: bv32)
    requires Wf(m) && Bit(instr, 25) && instr & 0xF00 == 0
    ensures Initialize(m, instr) == Operands(m.registers[Rn(instr)], instr & 0xFF, Get(m.cpsr, C))
  {
    assert Rotation(instr) == 0;
  }

  /* Values and flags. */

  /** The value of a logical operation. */
  function Logic(op: DpOp, first: bv32, second: bv32): bv32
    requires IsLogical(op) || op == Tst || op == Teq || op == Mov
  {
    match op
    case And | Tst => first & second
    case Eor | Teq => first ^ second
    case Orr => first | second
    case Bic => first & !second
    case Mov => second
    case Mvn => !second
  }

  /** The value, C and V of an arithmetic operation (C from `dumbCarry` or `dumbBorrow`). */
  datatype Sum = Sum(value: bv32, c: bool, v: bool)

  function Arithmetic(op: DpOp, first: bv32, second: bv32, cin: bool): Sum
    requires IsArithmetic(op)
  {
    match op
    case Sub | Cmp => Sum(Minus(first, second), NoBorrow(first, second, true), SubOverflowArm(Minus(first, second), first, second))
    case Rsb => Sum(Minus(second, first), NoBorrow(second, first, true), SubOverflowArm(Minus(second, first), second, first))
    case Add | Cmn => Sum(Plus(first, second), Carry(first, second, false), AddOverflow(Plus(first, second), first, second))
    case Adc => Sum(ThumbDataProcessing.AddWithCarry(first, second, cin), Carry(first, second, cin), AddOverflow(ThumbDataProcessing.AddWithCarry(first, second, cin), first, second))
    case Sbc => Sum(ThumbDataProcessing.SubWithCarry(first, second, cin), NoBorrow(first, second, cin), SubOverflowArm(ThumbDataProcessing.SubWithCarry(first, second, cin), first, second))
    case Rsc => Sum(ThumbDataProcessing.SubWithCarry(second, first, cin), NoBorrow(second, first, cin), SubOverflowArm(ThumbDataProcessing.SubWithCarry(second, first, cin), second, first))
  }

  /** `setFlagsWithShifterCarry`: N and Z from the result, C from the shifter. */
  function SetNZC(cpsr: bv32, result: bv32, c: bool): bv32
  {
    Set(SetNZ(cpsr, result), C, c)
  }

  lemma FlagsOfSetNZC(cpsr: bv32, result: bv32, c: bool)
    ensures Flags(SetNZC(cpsr, result, c)) == Flags(cpsr).(n := Negative(result), z := result == 0, c := c)
  {
    FlagsOfSetNZ(cpsr, result);
    FlagsOfSetC(SetNZ(cpsr, result), c);
  }

  /* The operations. */

  /**
   * `performWithoutDestination` with Rd = 15: the mode of spsr's bits 0-4,
   * then the state and the whole cpsr from the spsr of that new mode.
   */
  function TestRestore(p: Machine): (r: Result<Machine>)
    requires Wf(p)
    ensures r.Ok? ==> Wf(r.value)
  {
    match ByMask(p.spsr & 0x1F)
    case None => Err("CPUMode.byMask: no mode for spsr")
    case Some(mode) =>
      var a := SetCpuMode(p, mode);
      Ok(a.(state := if Get(a.spsr, T) then Thumb else Arm, cpsr := a.spsr))
  }

  /** `performWithoutDestination`: no register is written; Rd = 15 restores cpsr from spsr. */
  function WithoutDestination(p: Machine, instr: bv32): (r: Result<Machine>)
    requires Wf(p)
    ensures r.Ok? ==> Wf(r.value)
  {
    if Rd(instr) == 15 then TestRestore(p) else Ok(p)
  }

  /**
   * `checkDestinationPC` with Rd = 15: pc = `result`, the mode of spsr's bits
   * 0-4, the state of its T bit (with a refill), and cpsr = spsr as it was.
   */
  function ReturnFromSpsr(p: Machine, mem: Mem, result: bv32): (r: Result<Machine>)
    requires Wf(p)
    ensures r.Ok? ==> Wf(r.value)
  {
    RestoreFromSpsr(p.(registers := p.registers[15 := result]), mem)
  }

  /** The mode of spsr's bits 0-4, then its T bit's state (with a refill), then cpsr = spsr. */
  function RestoreFromSpsr(p: Machine, mem: Mem): (r: Result<Machine>)
    requires Wf(p)
    ensures r.Ok? ==> Wf(r.value)
  {
    match ByMask(p.spsr & 0x1F)
    case None => Err("CPUMode.byMask: no mode for spsr")
    case Some(mode) => Ok(ChangeState(SetCpuMode(p, mode), mem, Get(p.spsr, T)).(cpsr := p.spsr))
  }

  /*
   * Each operation below takes the machine `p` as `initialize` leaves it and
   * the operands `o` it computed; `Execute` puts the two halves together.
   */

  /** AND, EOR, ORR, BIC, MVN: `perform`, then `setFlagsWithShifterCarry`. */
  function Logical(p: Machine, mem: Mem, op: DpOp, instr: bv32, o: Operands): (r: Machine)
    requires Wf(p) && IsLogical(op)
    ensures Wf(r)
  {
    var v := Logic(op, o.first, o.second);
    var w := SetRegister(p, mem, Rd(instr), v);
    if SetsFlags(instr) then w.(cpsr := SetNZC(w.cpsr, v, o.carry)) else w
  }

  /** TST, TEQ: `performWithoutDestination`, then `setFlagsWithShifterCarry`. */
  function Test(p: Machine, op: DpOp, instr: bv32, o: Operands): (r: Result<Machine>)
    requires Wf(p) && (op == Tst || op == Teq)
    ensures r.Ok? ==> Wf(r.value)
  {
    var v := Logic(op, o.first, o.second);
    match WithoutDestination(p, instr)
    case Err(e) => Err(e)
    case Ok(w) => Ok(if SetsFlags(instr) then w.(cpsr := SetNZC(w.cpsr, v, o.carry)) else w)
  }

  /** CMP, CMN: `performWithoutDestination`, then the flags of the subtraction or addition `s`. */
  function Compare(p: Machine, instr: bv32, s: Sum): (r: Result<Machine>)
    requires Wf(p)
    ensures r.Ok? ==> Wf(r.value)
  {
    match WithoutDestination(p, instr)
    case Err(e) => Err(e)
    case Ok(w) => Ok(if SetsFlags(instr) then w.(cpsr := SetNZCV(w.cpsr, s.value, s.c, s.v)) else w)
  }

  /**
   * The write of MOV and SUB: without bit 20 `setRegister`; with it cpsr
   * takes `flags` first, then Rd = 15 returns from spsr and any other Rd is
   * written by `setRegister`.
   */
  function WriteBack(p: Machine, mem: Mem, instr: bv32, value: bv32, flags: bv32): (r: Result<Machine>)
    requires Wf(p)
    ensures r.Ok? ==> Wf(r.value)
  {
    if !SetsFlags(instr) then Ok(SetRegister(p, mem, Rd(instr), value))
    else
      var f := p.(cpsr := flags);
      if Rd(instr) == 15 then ReturnFromSpsr(f, mem, value) else Ok(SetRegister(f, mem, Rd(instr), value))
  }

  /** MOV: the second operand, with N, Z and the shifter carry. */
  function Move(p: Machine, mem: Mem, instr: bv32, o: Operands): (r: Result<Machine>)
    requires Wf(p)
    ensures r.Ok? ==> Wf(r.value)
  {
    WriteBack(p, mem, instr, o.second, SetNZC(p.cpsr, o.second, o.carry))
  }

  /** SUB: the difference `s`, with its four flags. */
  function Subtract(p: Machine, mem: Mem, instr: bv32, s: Sum): (r: Result<Machine>)
    requires Wf(p)
    ensures r.Ok? ==> Wf(r.value)
  {
    WriteBack(p, mem, instr, s.value, SetNZCV(p.cpsr, s.value, s.c, s.v))
  }

  /** RSB, ADD, ADC, SBC, RSC: `perform` with the value of `s`, then `setFlags` with its C and V. */
  function Accumulate(p: Machine, mem: Mem, instr: bv32, s: Sum): (r: Machine)
    requires Wf(p)
    ensures Wf(r)
  {
    var w := SetRegister(p, mem, Rd(instr), s.value);
    if SetsFlags(instr) then w.(cpsr := SetNZCV(w.cpsr, s.value, s.c, s.v)) else w
  }

  /** The second half of every data-processing instruction. */
  function Perform(p: Machine, mem: Mem, op: DpOp, instr: bv32, o: Operands): (r: Result<Machine>)
    requires Wf(p)
    ensures r.Ok? ==> Wf(r.value)
  {
    match op
    case And | Eor | Orr | Bic | Mvn => Ok(Logical(p, mem, op, instr, o))
    case Tst | Teq => Test(p, op, instr, o)
    case Cmp | Cmn => Compare(p, instr, Arithmetic(op, o.first, o.second, Get(p.cpsr, C)))
    case Mov => Move(p, mem, instr, o)
    case Sub => Subtract(p, mem, instr, Arithmetic(Sub, o.first, o.second, Get(p.cpsr, C)))
    case Rsb | Add | Adc | Sbc | Rsc => Ok(Accumulate(p, mem, instr, Arithmetic(op, o.first, o.second, Get(p.cpsr, C))))
  }

  /** One data-processing instruction: `initialize`, then the operation. */
  function Execute(m: Machine, mem: Mem, op: DpOp, instr: bv32): (r: Result<Machine>)
    requires Wf(m)
    ensures r.Ok? ==> Wf(r.value)
  {
    Perform(Prepared(m, instr), mem, op, instr, Initialize(m, instr))
  }

  /** The value an operation that writes Rd writes. */
  function ResultOf(op: DpOp, o: Operands, cin: bool): bv32
    requires !IsTest(op)
  {
    if op == Mov || IsLogical(op) then Logic(op, o.first, o.second) else Arithmetic(op, o.first, o.second, cin).value
  }

  /* Properties. */

  /** The flags a logical operation leaves: N and Z from the result and C from the shifter with bit 20, else none changed. */
  function LogicFlags(cpsr: bv32, instr: bv32, v: bv32, carry: bool): FlagBits
  {
    if SetsFlags(instr) then Flags(cpsr).(n := Negative(v), z := v == 0, c := carry) else Flags(cpsr)
  }

  /** The flags an operation with a carry or borrow leaves: N, Z, C and V with bit 20, else none changed. */
  function SumFlags(cpsr: bv32, instr: bv32, s: Sum): FlagBits
  {
    if SetsFlags(instr) then Flags(cpsr).(n := Negative(s.value), z := s.value == 0, c := s.c, v := s.v) else Flags(cpsr)
  }

  lemma WriteBelowPc(p: Machine, mem: Mem, i: nat, v: bv32)
    requires Wf(p) && i < 15
    ensures SetRegister(p, mem, i, v).registers == p.registers[i := v]
  {
  }

  lemma RegisterWriteKeepsCpsr(p: Machine, mem: Mem, i: nat, v: bv32)
    requires Wf(p) && i < 16
    ensures SetRegister(p, mem, i, v).cpsr == p.cpsr
  {
  }

  /** AND, EOR, ORR, BIC and MVN with Rd other than 15 write the result to Rd and leave every other register. */
  lemma LogicalWrites(p: Machine, mem: Mem, op: DpOp, instr: bv32, o: Operands)
    requires Wf(p) && IsLogical(op) && Rd(instr) != 15
    ensures Logical(p, mem, op, instr, o).registers == p.registers[Rd(instr) := Logic(op, o.first, o.second)]
  {
    WriteBelowPc(p, mem, Rd(instr), Logic(op, o.first, o.second));
  }

  /** The logical operations set N and Z from the result and C from the shifter with bit 20, keep V, and change no flag without it. */
  lemma LogicalFlags(p: Machine, mem: Mem, op: DpOp, instr: bv32, o: Operands)
    requires Wf(p) && IsLogical(op)
    ensures Flags(Logical(p, mem, op, instr, o).cpsr) == LogicFlags(p.cpsr, instr, Logic(op, o.first, o.second), o.carry)
  {
    var v := Logic(op, o.first, o.second);
    RegisterWriteKeepsCpsr(p, mem, Rd(instr), v);
    FlagsOfSetNZC(p.cpsr, v, o.carry);
  }

  /** TST and TEQ with Rd other than 15 change no register, and set N, Z and C as the logical operations do. */
  lemma TestFlags(p: Machine, op: DpOp, instr: bv32, o: Operands)
    requires Wf(p) && (op == Tst || op == Teq) && Rd(instr) != 15
    ensures Test(p, op, instr, o).Ok?
    ensures Test(p, op, instr, o).value.registers == p.registers
    ensures Flags(Test(p, op, instr, o).value.cpsr) == LogicFlags(p.cpsr, instr, Logic(op, o.first, o.second), o.carry)
  {
    FlagsOfSetNZC(p.cpsr, Logic(op, o.first, o.second), o.carry);
  }

  /** CMP and CMN with Rd other than 15 change no register and set N, Z, C and V from the subtraction or addition. */
  lemma CompareFlags(p: Machine, instr: bv32, s: Sum)
    requires Wf(p) && Rd(instr) != 15
    ensures Compare(p, instr, s).Ok?
    ensures Compare(p, instr, s).value.registers == p.registers
    ensures Flags(Compare(p, instr, s).value.cpsr) == SumFlags(p.cpsr, instr, s)
  {
    FlagsOfSetNZCV(p.cpsr, s.value, s.c, s.v);
  }

  /**
   * A test with Rd = 15 fails exactly when spsr's bits 0-4 name no mode;
   * otherwise the mode is the one they name, cpsr the spsr of that mode
   * (before flags are set) and the state its T bit; r0-r7 and pc stay.
   */
  lemma TestRestoreEffect(p: Machine)
    requires Wf(p)
    ensures TestRestore(p).Ok? <==> ByMask(p.spsr & 0x1F).Some?
    ensures TestRestore(p).Ok? ==> var r := TestRestore(p).value;
      r.mode == ByMask(p.spsr & 0x1F).value && r.cpsr == SetCpuMode(p, r.mode).spsr && r.state == (if Get(r.cpsr, T) then Thumb else Arm) &&
      forall i :: 0 <= i < 16 && (i < 8 || i == 15) ==> r.registers[i] == p.registers[i]
  {
    if ByMask(p.spsr & 0x1F).Some? {
      SwitchKeepsRest(p, ByMask(p.spsr & 0x1F).value);
      SwitchKeepsLow(p, ByMask(p.spsr & 0x1F).value);
    }
  }

  /** The write of MOV and SUB with Rd other than 15 writes `value` to Rd and cpsr takes `flags` exactly with bit 20. */
  lemma WriteBackWrites(p: Machine, mem: Mem, instr: bv32, value: bv32, flags: bv32)
    requires Wf(p) && Rd(instr) != 15
    ensures WriteBack(p, mem, instr, value, flags).Ok?
    ensures WriteBack(p, mem, instr, value, flags).value.registers == p.registers[Rd(instr) := value]
    ensures WriteBack(p, mem, instr, value, flags).value.cpsr == if SetsFlags(instr) then flags else p.cpsr
  {
    var f := p.(cpsr := flags);
    WriteBelowPc(p, mem, Rd(instr), value);
    WriteBelowPc(f, mem, Rd(instr), value);
    RegisterWriteKeepsCpsr(p, mem, Rd(instr), value);
    RegisterWriteKeepsCpsr(f, mem, Rd(instr), value);
  }

  /** MOV with Rd other than 15 writes the second operand to Rd and sets N, Z and C as the logical operations do. */
  lemma MoveWrites(p: Machine, mem: Mem, instr: bv32, o: Operands)
    requires Wf(p) && Rd(instr) != 15
    ensures Move(p, mem, instr, o).Ok?
    ensures Move(p, mem, instr, o).value.registers == p.registers[Rd(instr) := o.second]
    ensures Flags(Move(p, mem, instr, o).value.cpsr) == LogicFlags(p.cpsr, instr, o.second, o.carry)
  {
    WriteBackWrites(p, mem, instr, o.second, SetNZC(p.cpsr, o.second, o.carry));
    FlagsOfSetNZC(p.cpsr, o.second, o.carry);
  }

  /** SUB with Rd other than 15 writes the difference to Rd and, with bit 20, sets N, Z, C and V from it. */
  lemma SubtractWrites(p: Machine, mem: Mem, instr: bv32, s: Sum)
    requires Wf(p) && Rd(instr) != 15
    ensures Subtract(p, mem, instr, s).Ok?
    ensures Subtract(p, mem, instr, s).value.registers == p.registers[Rd(instr) := s.value]
    ensures Flags(Subtract(p, mem, instr, s).value.cpsr) == SumFlags(p.cpsr, instr, s)
  {
    WriteBackWrites(p, mem, instr, s.value, SetNZCV(p.cpsr, s.value, s.c, s.v));
    FlagsOfSetNZCV(p.cpsr, s.value, s.c, s.v);
  }

  /** RSB, ADD, ADC, SBC and RSC with Rd other than 15 write their value to Rd and, with bit 20, set N, Z, C and V from it. */
  lemma AccumulateWrites(p: Machine, mem: Mem, instr: bv32, s: Sum)
    requires Wf(p) && Rd(instr) != 15
    ensures Accumulate(p, mem, instr, s).registers == p.registers[Rd(instr) := s.value]
    ensures Flags(Accumulate(p, mem, instr, s).cpsr) == SumFlags(p.cpsr, instr, s)
  {
    WriteBelowPc(p, mem, Rd(instr), s.value);
    RegisterWriteKeepsCpsr(p, mem, Rd(instr), s.value);
    FlagsOfSetNZCV(p.cpsr, s.value, s.c, s.v);
  }

  /** The ARM formula for subtract overflow agrees with the sign rule. */
  lemma SubtractOverflowMeaning(first: bv32, second: bv32)
    ensures Arithmetic(Sub, first, second, true).v <==>
      Negative(first) != Negative(second) && Negative(Minus(first, second)) != Negative(first)
  {
    SubOverflowArmAgrees(Minus(first, second), first, second);
    SubOverflowMeaning(Minus(first, second), first, second);
  }

  /**
   * The state after a return from an exception: cpsr is the saved `spsr`,
   * the mode the one its bits 0-4 name, the state its T bit, and pc one
   * instruction past `target` after the refill.
   */
  predicate ReturnedTo(r: Machine, spsr: bv32, target: bv32)
  {
    Wf(r) && r.cpsr == spsr && ByMask(spsr & 0x1F) == Some(r.mode) &&
    r.state == (if Get(spsr, T) then Thumb else Arm) && Pc(r) == RefillPc(r.state, target)
  }

  /**
   * MOV with bit 20 and Rd = 15 returns from an exception to the second
   * operand: it fails exactly when spsr's bits 0-4 name no mode.
   */
  lemma MoveReturns(p: Machine, mem: Mem, instr: bv32, o: Operands)
    requires Wf(p) && SetsFlags(instr) && Rd(instr) == 15
    ensures Move(p, mem, instr, o).Ok? <==> ByMask(p.spsr & 0x1F).Some?
    ensures Move(p, mem, instr, o).Ok? ==> var r := Move(p, mem, instr, o).value;
      ReturnedTo(r, p.spsr, o.second)
  {
    WriteBackReturns(p, mem, instr, o.second, SetNZC(p.cpsr, o.second, o.carry));
    ReturnFromSpsrEffect(p.(cpsr := SetNZC(p.cpsr, o.second, o.carry)), mem, o.second);
  }

  /** SUB with bit 20 and Rd = 15 returns from an exception as MOV does, to the difference. */
  lemma SubtractReturns(p: Machine, mem: Mem, instr: bv32, s: Sum)
    requires Wf(p) && SetsFlags(instr) && Rd(instr) == 15
    ensures Subtract(p, mem, instr, s).Ok? <==> ByMask(p.spsr & 0x1F).Some?
    ensures Subtract(p, mem, instr, s).Ok? ==> var r := Subtract(p, mem, instr, s).value;
      ReturnedTo(r, p.spsr, s.value)
  {
    WriteBackReturns(p, mem, instr, s.value, SetNZCV(p.cpsr, s.value, s.c, s.v));
    ReturnFromSpsrEffect(p.(cpsr := SetNZCV(p.cpsr, s.value, s.c, s.v)), mem, s.value);
  }

  lemma WriteBackReturns(p: Machine, mem: Mem, instr: bv32, value: bv32, flags: bv32)
    requires Wf(p) && SetsFlags(instr) && Rd(instr) == 15
    ensures WriteBack(p, mem, instr, value, flags) == ReturnFromSpsr(p.(cpsr := flags), mem, value)
  {
  }

  lemma ReturnFromSpsrEffect(p: Machine, mem: Mem, result: bv32)
    requires Wf(p)
    ensures ReturnFromSpsr(p, mem, result).Ok? <==> ByMask(p.spsr & 0x1F).Some?
    ensures ReturnFromSpsr(p, mem, result).Ok? ==> ReturnedTo(ReturnFromSpsr(p, mem, result).value, p.spsr, result)
  {
    var q := p.(registers := p.registers[15 := result]);
    assert ReturnFromSpsr(p, mem, result) == RestoreFromSpsr(q, mem);
    assert Pc(q) == result;
    if ByMask(p.spsr & 0x1F).Some? {
      RestoreLands(q, mem, ByMask(p.spsr & 0x1F).value);
    }
  }

  /** Restoring from spsr lands on the mode and state spsr names, one instruction past the old pc. */
  lemma RestoreLands(q: Machine, mem: Mem, mode: Mode)
    requires Wf(q) && ByMask(q.spsr & 0x1F) == Some(mode)
    ensures RestoreFromSpsr(q, mem).Ok? && ReturnedTo(RestoreFromSpsr(q, mem).value, q.spsr, Pc(q))
  {
    var a := SetCpuMode(q, mode);
    SwitchKeepsLow(q, mode);
    SwitchKeepsRest(q, mode);
    assert Pc(a) == Pc(q);
    ChangeStateLands(a, mem, Get(q.spsr, T));
  }

  lemma ChangeStateLands(a: Machine, mem: Mem, thumb: bool)
    requires Wf(a)
    ensures var r := ChangeState(a, mem, thumb);
      r.mode == a.mode && r.state == (if thumb then Thumb else Arm) && Pc(r) == RefillPc(r.state, Pc(a))
  {
    var b := a.(state := if thumb then Thumb else Arm, cpsr := Set(a.cpsr, T, thumb));
    CpuProperties.RefillLandsAt(b, mem);
  }

  /* MRS and MSR. */

  /** `armMrs`: `initialize`, then Rd = spsr when bit 22 is set, else cpsr. */
  function Mrs(m: Machine, mem: Mem, instr: bv32): (r: Machine)
    requires Wf(m)
    ensures Wf(r)
  {
    SetRegister(Prepared(m, instr), mem, Rd(instr), if Bit(instr, 22) then m.spsr else m.cpsr)
  }

  /** MRS copies the chosen status register into Rd. */
  lemma MrsReadsStatus(m: Machine, mem: Mem, instr: bv32)
    requires Wf(m) && Rd(instr) != 15
    ensures Mrs(m, mem, instr).registers == m.registers[Rd(instr) := if Bit(instr, 22) then m.spsr else m.cpsr]
    ensures Mrs(m, mem, instr).cpsr == m.cpsr && Mrs(m, mem, instr).spsr == m.spsr
  {
    PreparedKeeps(m, instr);
  }

  /** The source of MSR: the rotated immediate (bit 25) or Rm. */
  function MsrSource(m: Machine, instr: bv32): bv32
    requires Wf(m)
  {
    if Bit(instr, 25) then RotatedImmediate(instr) else m.registers[RegisterIndex(instr)]
  }

  /** `(instr and 0xFF).rotateRight((instr and 0xF00) ushr 7)`. */
  function RotatedImmediate(instr: bv32): bv32
  {
    (instr & 0xFF).RotateRight(Rotation(instr))
  }

  /** The bits MSR writes: the flags byte in User mode, else the bytes bits 16-19 select. */
  function MsrMask(mode: Mode, instr: bv32): bv32
  {
    if mode == User then 0xF000_0000
    else
      (if Bit(instr, 16) then 0xFF else 0) | (if Bit(instr, 17) then 0xFF00 else 0) |
      (if Bit(instr, 18) then 0xFF_0000 else 0) | (if Bit(instr, 19) then 0xFF00_0000 else 0)
  }

  /** `setCPUMode(CPUMode.byMask[cpsr and 0x1F]!!)`: switch to the mode cpsr now names, failing where it names none. */
  function SwitchToStatusMode(m: Machine): (r: Result<Machine>)
    requires Wf(m)
    ensures r.Ok? ==> Wf(r.value)
  {
    match ByMask(m.cpsr & 0x1F)
    case None => Err("CPUMode.byMask: no mode for cpsr")
    case Some(mode) => Ok(SetCpuMode(m, mode))
  }

  /** `armMsr`: spsr (bit 22) or cpsr takes the masked bits of the source; writing cpsr then switches to the mode it names. */
  function Msr(m: Machine, instr: bv32): (r: Result<Machine>)
    requires Wf(m)
    ensures r.Ok? ==> Wf(r.value)
  {
    var src := MsrSource(m, instr);
    if Bit(instr, 22) then Ok(MsrSpsr(m, instr, src)) else MsrCpsr(m, instr, src)
  }

  /** MSR to spsr with its source value `src` already read. */
  function MsrSpsr(m: Machine, instr: bv32, src: bv32): (r: Machine)
    requires Wf(m)
    ensures Wf(r)
  {
    m.(spsr := Override(m.spsr, MsrMask(m.mode, instr), src))
  }

  /** MSR to cpsr with its source value `src` already read. */
  function MsrCpsr(m: Machine, instr: bv32, src: bv32): (r: Result<Machine>)
    requires Wf(m)
    ensures r.Ok? ==> Wf(r.value)
  {
    SwitchToStatusMode(m.(cpsr := Override(m.cpsr, MsrMask(m.mode, instr), src)))
  }

  /** The mode switch fails exactly when cpsr names no mode. */
  lemma SwitchToStatusModeFails(m: Machine)
    requires Wf(m)
    ensures SwitchToStatusMode(m).Ok? <==> ByMask(m.cpsr & 0x1F).Some?
  {
  }

  /** Otherwise it keeps the status word that named the mode, and the mode is the one named. */
  lemma SwitchToStatusModeEffect(m: Machine)
    requires Wf(m) && ByMask(m.cpsr & 0x1F).Some?
    ensures var r := SwitchToStatusMode(m).value;
      r.cpsr == m.cpsr && r.mode == ByMask(m.cpsr & 0x1F).value
  {
    var c := m.cpsr;
    var mode := ByMask(c & 0x1F).value;
    ByMaskEntries(c & 0x1F);
    SwitchKeepsRest(m, mode);
    if m.mode != mode {
      SwitchStatus(m, mode);
      WithOwnModeBits(c, mode);
    }
  }

  /** Writing a status word's own mode bits back into it changes nothing. */
  lemma WithOwnModeBits(c: bv32, mode: Mode)
    requires ModeMask(mode) == c & 0x1F
    ensures WithModeBits(c, mode) == c
  {
    assert (c & !0x1F) | (c & 0x1F) == c;
  }

  /** `after` holds the bits of `src` under `mask` and the bits of `before` elsewhere. */
  predicate Merged(after: bv32, before: bv32, mask: bv32, src: bv32)
  {
    after & mask == src & mask && after & !mask == before & !mask
  }

  lemma OverrideMerges(v: bv32, mask: bv32, src: bv32)
    ensures Merged(Override(v, mask, src), v, mask, src)
  {
  }

  /** MSR to spsr writes exactly the masked bits of the source into spsr and leaves cpsr and the mode alone. */
  lemma MsrWritesSpsr(m: Machine, instr: bv32, src: bv32)
    requires Wf(m)
    ensures var r := MsrSpsr(m, instr, src);
      Merged(r.spsr, m.spsr, MsrMask(m.mode, instr), src) && r.cpsr == m.cpsr && r.mode == m.mode
  {
    OverrideMerges(m.spsr, MsrMask(m.mode, instr), src);
  }

  /** MSR to cpsr fails exactly when the new cpsr names no mode. */
  lemma MsrCpsrFails(m: Machine, instr: bv32, src: bv32)
    requires Wf(m)
    ensures MsrCpsr(m, instr, src).Ok? <==> ByMask(Override(m.cpsr, MsrMask(m.mode, instr), src) & 0x1F).Some?
  {
    SwitchToStatusModeFails(m.(cpsr := Override(m.cpsr, MsrMask(m.mode, instr), src)));
  }

  /** Otherwise cpsr holds the masked bits of the source and its other bits as before, and the mode is the one it names. */
  lemma MsrWritesCpsr(m: Machine, instr: bv32, src: bv32)
    requires Wf(m) && MsrCpsr(m, instr, src).Ok?
    ensures var r := MsrCpsr(m, instr, src).value;
      Merged(r.cpsr, m.cpsr, MsrMask(m.mode, instr), src) && r.mode == ByMask(r.cpsr & 0x1F).value
  {
    var c := Override(m.cpsr, MsrMask(m.mode, instr), src);
    SwitchToStatusModeFails(m.(cpsr := c));
    SwitchToStatusModeEffect(m.(cpsr := c));
    OverrideMerges(m.cpsr, MsrMask(m.mode, instr), src);
  }

  /** In User mode MSR reaches only the condition flags, bits 28-31. */
  lemma MsrUserMask(instr: bv32)
    ensures MsrMask(User, instr) == 0xF000_0000
  {
  }

  /** Outside User mode, byte k of the mask is set exactly when bit 16 + k of the instruction is. */
  lemma MsrPrivilegedMask(mode: Mode, instr: bv32, k: nat)
    requires mode != User && k < 4
    ensures ByteOf(MsrMask(mode, instr), k) == if Bit(instr, 16 + k) then 0xFF else 0
  {
  }

  /** MRS followed by MSR of the same register to spsr, all four bytes selected, in a privileged mode, restores spsr. */
  lemma MsrAfterMrs(m: Machine, mem: Mem, read: bv32, write: bv32)
    requires Wf(m) && m.mode != User && Bit(read, 22) && Rd(read) != 15
    requires Bit(write, 22) && !Bit(write, 25) && RegisterIndex(write) == Rd(read)
    requires Bit(write, 16) && Bit(write, 17) && Bit(write, 18) && Bit(write, 19)
    ensures var a := Mrs(m, mem, read); Msr(a, write).Ok? && Msr(a, write).value.spsr == m.spsr
  {
    var a := Mrs(m, mem, read);
    MrsReadsStatus(m, mem, read);
    assert a.mode == m.mode by {
      PreparedKeeps(m, read);
    }
    AllBytes(m.mode, write);
    assert MsrSource(a, write) == m.spsr;
    FullOverride(a.spsr, m.spsr);
  }

  lemma AllBytes(mode: Mode, instr: bv32)
    requires mode != User && Bit(instr, 16) && Bit(instr, 17) && Bit(instr, 18) && Bit(instr, 19)
    ensures MsrMask(mode, instr) == 0xFFFF_FFFF
  {
  }

  lemma FullOverride(v: bv32, with: bv32)
    ensures Override(v, 0xFFFF_FFFF, with) == with
  {
  }

  /* The processor's handlers. */

  /** `initialize` on the processor. */
  method RunInitialize(cpu: Cpu, instr: bv32) returns (o: Operands)
    requires cpu.Valid()
    modifies cpu
    ensures cpu.Valid() && o == Initialize(old(cpu.View()), instr) && cpu.View() == Prepared(old(cpu.View()), instr)
  {
    ghost var m := cpu.View();
    var c := CpuFlags.Get(cpu.cpsr, C);
    if !Bit(instr, 25) && Bit(instr, 4) {
      cpu.registers := cpu.registers[15 := Plus(cpu.registers[15], 4)];
      assert cpu.View() == Ahead(m);
      var sh := Operand(instr >> 4, cpu.registers[RegisterIndex(instr)], cpu.registers, c);
      o := Operands(cpu.registers[Rn(instr)], sh.value, sh.carry);
      cpu.registers := cpu.registers[15 := Minus(cpu.registers[15], 4)];
      assert cpu.View() == Behind(Ahead(m));
    } else if Bit(instr, 25) {
      var sh := RotateRight(instr & 0xFF, Rotation(instr), c);
      o := Operands(cpu.registers[Rn(instr)], sh.value, sh.carry);
    } else {
      var sh := Operand(instr >> 4, cpu.registers[RegisterIndex(instr)], cpu.registers, c);
      o := Operands(cpu.registers[Rn(instr)], sh.value, sh.carry);
    }
    ghost var before := cpu.View();
    cpu.shifterCarry := o.carry;
    assert cpu.View() == before.(shifterCarry := o.carry);
  }

  method RunLogical(cpu: Cpu, op: DpOp, instr: bv32, o: Operands)
    requires cpu.Valid() && IsLogical(op)
    modifies cpu
    ensures cpu.Valid() && cpu.View() == Logical(old(cpu.View()), cpu.bus.memory, op, instr, o)
  {
    var v := Logic(op, o.first, o.second);
    cpu.SetRegister(Rd(instr), v);
    if SetsFlags(instr) {
      cpu.cpsr := SetNZC(cpu.cpsr, v, o.carry);
    }
  }

  /** `performWithoutDestination`; false where `byMask` throws. */
  method RunWithoutDestination(cpu: Cpu, instr: bv32) returns (ok: bool)
    requires cpu.Valid()
    modifies cpu
    ensures ok == WithoutDestination(old(cpu.View()), instr).Ok?
    ensures ok ==> cpu.Valid() && cpu.View() == WithoutDestination(old(cpu.View()), instr).value
  {
    ok := true;
    if Rd(instr) == 15 {
      match ByMask(cpu.spsr & 0x1F)
      case None =>
        ok := false;
      case Some(mode) =>
        cpu.SetCpuMode(mode);
        ghost var a := cpu.View();
        cpu.state := if CpuFlags.Get(cpu.spsr, T) then Thumb else Arm;
        cpu.cpsr := cpu.spsr;
        assert cpu.View() == a.(state := if Get(a.spsr, T) then Thumb else Arm, cpsr := a.spsr);
    }
  }

  method RunTest(cpu: Cpu, op: DpOp, instr: bv32, o: Operands) returns (ok: bool)
    requires cpu.Valid() && (op == Tst || op == Teq)
    modifies cpu
    ensures ok == Test(old(cpu.View()), op, instr, o).Ok?
    ensures ok ==> cpu.Valid() && cpu.View() == Test(old(cpu.View()), op, instr, o).value
  {
    var v := Logic(op, o.first, o.second);
    ok := RunWithoutDestination(cpu, instr);
    if ok && SetsFlags(instr) {
      cpu.cpsr := SetNZC(cpu.cpsr, v, o.carry);
    }
  }

  method RunCompare(cpu: Cpu, instr: bv32, s: Sum) returns (ok: bool)
    requires cpu.Valid()
    modifies cpu
    ensures ok == Compare(old(cpu.View()), instr, s).Ok?
    ensures ok ==> cpu.Valid() && cpu.View() == Compare(old(cpu.View()), instr, s).value
  {
    ok := RunWithoutDestination(cpu, instr);
    if ok && SetsFlags(instr) {
      cpu.cpsr := SetNZCV(cpu.cpsr, s.value, s.c, s.v);
    }
  }

  /** `checkDestinationPC` when Rd = 15; false where `byMask` throws. */
  method RunReturnFromSpsr(cpu: Cpu, result: bv32) returns (ok: bool)
    requires cpu.Valid()
    modifies cpu
    ensures ok == ReturnFromSpsr(old(cpu.View()), cpu.bus.memory, result).Ok?
    ensures ok ==> cpu.Valid() && cpu.View() == ReturnFromSpsr(old(cpu.View()), cpu.bus.memory, result).value
  {
    ghost var m := cpu.View();
    cpu.registers := cpu.registers[15 := result];
    assert cpu.View() == m.(registers := m.registers[15 := result]);
    ok := RunRestoreFromSpsr(cpu);
  }

  method RunRestoreFromSpsr(cpu: Cpu) returns (ok: bool)
    requires cpu.Valid()
    modifies cpu
    ensures ok == RestoreFromSpsr(old(cpu.View()), cpu.bus.memory).Ok?
    ensures ok ==> cpu.Valid() && cpu.View() == RestoreFromSpsr(old(cpu.View()), cpu.bus.memory).value
  {
    var s := cpu.spsr;
    match ByMask(s & 0x1F)
    case None =>
      ok := false;
    case Some(mode) =>
      Restore(cpu, mode, s);
      ok := true;
  }

  /** The mode switch, state change and cpsr write of `checkDestinationPC`. */
  method Restore(cpu: Cpu, mode: Mode, s: bv32)
    requires cpu.Valid()
    modifies cpu
    ensures cpu.Valid() && cpu.View() == ChangeState(SetCpuMode(old(cpu.View()), mode), cpu.bus.memory, Get(s, T)).(cpsr := s)
  {
    cpu.SetCpuMode(mode);
    cpu.ChangeState(CpuFlags.Get(s, T));
    cpu.cpsr := s;
  }

  method RunWriteBack(cpu: Cpu, instr: bv32, value: bv32, flags: bv32) returns (ok: bool)
    requires cpu.Valid()
    modifies cpu
    ensures ok == WriteBack(old(cpu.View()), cpu.bus.memory, instr, value, flags).Ok?
    ensures ok ==> cpu.Valid() && cpu.View() == WriteBack(old(cpu.View()), cpu.bus.memory, instr, value, flags).value
  {
    if SetsFlags(instr) {
      ghost var m := cpu.View();
      cpu.cpsr := flags;
      assert cpu.View() == m.(cpsr := flags);
      if Rd(instr) == 15 {
        ok := RunReturnFromSpsr(cpu, value);
        return;
      }
    }
    cpu.SetRegister(Rd(instr), value);
    ok := true;
  }

  method RunMove(cpu: Cpu, instr: bv32, o: Operands) returns (ok: bool)
    requires cpu.Valid()
    modifies cpu
    ensures ok == Move(old(cpu.View()), cpu.bus.memory, instr, o).Ok?
    ensures ok ==> cpu.Valid() && cpu.View() == Move(old(cpu.View()), cpu.bus.memory, instr, o).value
  {
    ok := RunWriteBack(cpu, instr, o.second, SetNZC(cpu.cpsr, o.second, o.carry));
  }

  method RunSubtract(cpu: Cpu, instr: bv32, s: Sum) returns (ok: bool)
    requires cpu.Valid()
    modifies cpu
    ensures ok == Subtract(old(cpu.View()), cpu.bus.memory, instr, s).Ok?
    ensures ok ==> cpu.Valid() && cpu.View() == Subtract(old(cpu.View()), cpu.bus.memory, instr, s).value
  {
    ok := RunWriteBack(cpu, instr, s.value, SetNZCV(cpu.cpsr, s.value, s.c, s.v));
  }

  method RunAccumulate(cpu: Cpu, instr: bv32, s: Sum)
    requires cpu.Valid()
    modifies cpu
    ensures cpu.Valid() && cpu.View() == Accumulate(old(cpu.View()), cpu.bus.memory, instr, s)
  {
    cpu.SetRegister(Rd(instr), s.value);
    if SetsFlags(instr) {
      cpu.cpsr := SetNZCV(cpu.cpsr, s.value, s.c, s.v);
    }
  }

  /** The operation once the operands are fetched; false where the source throws. */
  method RunPerform(cpu: Cpu, op: DpOp, instr: bv32, o: Operands) returns (ok: bool)
    requires cpu.Valid()
    modifies cpu
    ensures ok == Perform(old(cpu.View()), cpu.bus.memory, op, instr, o).Ok?
    ensures ok ==> cpu.Valid() && cpu.View() == Perform(old(cpu.View()), cpu.bus.memory, op, instr, o).value
  {
    if IsArithmetic(op) {
      ok := RunPerformArithmetic(cpu, op, instr, o);
    } else {
      ok := RunPerformOther(cpu, op, instr, o);
    }
  }

  method RunPerformOther(cpu: Cpu, op: DpOp, instr: bv32, o: Operands) returns (ok: bool)
    requires cpu.Valid() && !IsArithmetic(op)
    modifies cpu
    ensures ok == Perform(old(cpu.View()), cpu.bus.memory, op, instr, o).Ok?
    ensures ok ==> cpu.Valid() && cpu.View() == Perform(old(cpu.View()), cpu.bus.memory, op, instr, o).value
  {
    if IsLogical(op) {
      RunPerformLogical(cpu, op, instr, o);
      ok := true;
    } else if op == Mov {
      ok := RunPerformMove(cpu, op, instr, o);
    } else {
      ok := RunPerformTest(cpu, op, instr, o);
    }
  }

  method RunPerformLogical(cpu: Cpu, op: DpOp, instr: bv32, o: Operands)
    requires cpu.Valid() && IsLogical(op)
    modifies cpu
    ensures Perform(old(cpu.View()), cpu.bus.memory, op, instr, o).Ok?
    ensures cpu.Valid() && cpu.View() == Perform(old(cpu.View()), cpu.bus.memory, op, instr, o).value
  {
    PerformLogicalIs(cpu.View(), cpu.bus.memory, op, instr, o);
    RunLogical(cpu, op, instr, o);
  }

  method RunPerformMove(cpu: Cpu, op: DpOp, instr: bv32, o: Operands) returns (ok: bool)
    requires cpu.Valid() && op == Mov
    modifies cpu
    ensures ok == Perform(old(cpu.View()), cpu.bus.memory, op, instr, o).Ok?
    ensures ok ==> cpu.Valid() && cpu.View() == Perform(old(cpu.View()), cpu.bus.memory, op, instr, o).value
  {
    PerformMoveIs(cpu.View(), cpu.bus.memory, op, instr, o);
    ok := RunMove(cpu, instr, o);
  }

  method RunPerformTest(cpu: Cpu, op: DpOp, instr: bv32, o: Operands) returns (ok: bool)
    requires cpu.Valid() && (op == Tst || op == Teq)
    modifies cpu
    ensures ok == Perform(old(cpu.View()), cpu.bus.memory, op, instr, o).Ok?
    ensures ok ==> cpu.Valid() && cpu.View() == Perform(old(cpu.View()), cpu.bus.memory, op, instr, o).value
  {
    PerformTestIs(cpu.View(), cpu.bus.memory, op, instr, o);
    ok := RunTest(cpu, op, instr, o);
  }

  method RunPerformArithmetic(cpu: Cpu, op: DpOp, instr: bv32, o: Operands) returns (ok: bool)
    requires cpu.Valid() && IsArithmetic(op)
    modifies cpu
    ensures ok == Perform(old(cpu.View()), cpu.bus.memory, op, instr, o).Ok?
    ensures ok ==> cpu.Valid() && cpu.View() == Perform(old(cpu.View()), cpu.bus.memory, op, instr, o).value
  {
    ghost var m := cpu.View();
    var s := Arithmetic(op, o.first, o.second, CpuFlags.Get(cpu.cpsr, C));
    if op == Cmp || op == Cmn {
      PerformCompareIs(m, cpu.bus.memory, op, instr, o);
      ok := RunCompare(cpu, instr, s);
    } else if op == Sub {
      PerformSubtractIs(m, cpu.bus.memory, op, instr, o);
      ok := RunSubtract(cpu, instr, s);
    } else {
      PerformAccumulateIs(m, cpu.bus.memory, op, instr, o);
      RunAccumulate(cpu, instr, s);
      ok := true;
    }
  }

  lemma PerformLogicalIs(p: Machine, mem: Mem, op: DpOp, instr: bv32, o: Operands)
    requires Wf(p) && IsLogical(op)
    ensures Perform(p, mem, op, instr, o) == Ok(Logical(p, mem, op, instr, o))
  {
  }

  lemma PerformMoveIs(p: Machine, mem: Mem, op: DpOp, instr: bv32, o: Operands)
    requires Wf(p) && op == Mov
    ensures Perform(p, mem, op, instr, o) == Move(p, mem, instr, o)
  {
  }

  lemma PerformTestIs(p: Machine, mem: Mem, op: DpOp, instr: bv32, o: Operands)
    requires Wf(p) && (op == Tst || op == Teq)
    ensures Perform(p, mem, op, instr, o) == Test(p, op, instr, o)
  {
  }

  lemma PerformCompareIs(p: Machine, mem: Mem, op: DpOp, instr: bv32, o: Operands)
    requires Wf(p) && (op == Cmp || op == Cmn)
    ensures Perform(p, mem, op, instr, o) == Compare(p, instr, Arithmetic(op, o.first, o.second, Get(p.cpsr, C)))
  {
  }

  lemma PerformSubtractIs(p: Machine, mem: Mem, op: DpOp, instr: bv32, o: Operands)
    requires Wf(p) && op == Sub
    ensures Perform(p, mem, op, instr, o) == Subtract(p, mem, instr, Arithmetic(op, o.first, o.second, Get(p.cpsr, C)))
  {
  }

  lemma PerformAccumulateIs(p: Machine, mem: Mem, op: DpOp, instr: bv32, o: Operands)
    requires Wf(p) && (op == Rsb || op == Add || op == Adc || op == Sbc || op == Rsc)
    ensures Perform(p, mem, op, instr, o) == Ok(Accumulate(p, mem, instr, Arithmetic(op, o.first, o.second, Get(p.cpsr, C))))
  {
  }

  /** One data-processing instruction on the processor; false where the source throws. */
  method RunDataProcessing(cpu: Cpu, op: DpOp, instr: bv32) returns (ok: bool)
    requires cpu.Valid()
    modifies cpu
    ensures ok == Execute(old(cpu.View()), cpu.bus.memory, op, instr).Ok?
    ensures ok ==> cpu.Valid() && cpu.View() == Execute(old(cpu.View()), cpu.bus.memory, op, instr).value
  {
    var o := RunInitialize(cpu, instr);
    ok := RunPerform(cpu, op, instr, o);
  }

  method RunMrs(cpu: Cpu, instr: bv32)
    requires cpu.Valid()
    modifies cpu
    ensures cpu.Valid() && cpu.View() == Mrs(old(cpu.View()), cpu.bus.memory, instr)
  {
    var _ := RunInitialize(cpu, instr);
    var value := if Bit(instr, 22) then cpu.spsr else cpu.cpsr;
    cpu.SetRegister(Rd(instr), value);
  }

  method RunMsr(cpu: Cpu, instr: bv32) returns (ok: bool)
    requires cpu.Valid()
    modifies cpu
    ensures ok == Msr(old(cpu.View()), instr).Ok?
    ensures ok ==> cpu.Valid() && cpu.View() == Msr(old(cpu.View()), instr).value
  {
    var src := if Bit(instr, 25) then RotatedImmediate(instr) else cpu.registers[RegisterIndex(instr)];
    if Bit(instr, 22) {
      ghost var m := cpu.View();
      cpu.spsr := Override(cpu.spsr, MsrMask(cpu.mode, instr), src);
      assert cpu.View() == MsrSpsr(m, instr, src);
      ok := true;
    } else {
      ok := RunMsrCpsr(cpu, instr, src);
    }
  }

  method RunMsrCpsr(cpu: Cpu, instr: bv32, src: bv32) returns (ok: bool)
    requires cpu.Valid()
    modifies cpu
    ensures ok == MsrCpsr(old(cpu.View()), instr, src).Ok?
    ensures ok ==> cpu.Valid() && cpu.View() == MsrCpsr(old(cpu.View()), instr, src).value
  {
    ghost var m := cpu.View();
    cpu.cpsr := Override(cpu.cpsr, MsrMask(cpu.mode, instr), src);
    assert cpu.View() == m.(cpsr := Override(m.cpsr, MsrMask(m.mode, instr), src));
    ok := RunSwitchToStatusMode(cpu);
  }

  /** `setCPUMode(CPUMode.byMask[cpsr and 0x1F]!!)`; false where `byMask` throws. */
  method RunSwitchToStatusMode(cpu: Cpu) returns (ok: bool)
    requires cpu.Valid()
    modifies cpu
    ensures ok == SwitchToStatusMode(old(cpu.View())).Ok?
    ensures ok ==> cpu.Valid() && cpu.View() == SwitchToStatusMode(old(cpu.View())).value
  {
    match ByMask(cpu.cpsr & 0x1F)
    case None =>
      ok := false;
    case Some(mode) =>
      cpu.SetCpuMode(mode);
      ok := true;
  }
}
