/**
 * `CPU.tick` of cpu/CPU.kt: take a pending interrupt, stop when halted,
 * otherwise step the pipeline and run the handler that the decode table
 * of the current state names for the head instruction. An ARM instruction
 * whose condition fails only steps.
 *
 * `ArmEffect` and `ThumbEffect` name, for every handler, the function that
 * states its effect in the handler's own module; the `Run` methods here
 * dispatch to the handler methods, which are proved against those
 * functions. A handler the source does not implement (the undefined
 * instruction handlers, MRS/MSR or MOVS cases that throw) is an `Err`.
 */
module Tick {
  import opened Wrappers
  import opened Memory
  import opened CpuModel
  import opened Processor
  import opened ArmDecode
  import opened ThumbDecode
  import Conditions
  import ThumbMemory
  import ArmBranch
  import ArmMultiply
  import ArmTransfer
  import ArmBlockTransfer
  import ArmDataProcessing
  import ThumbBranch
  import ThumbDataProcessing
  import ThumbHighLow
  import ThumbImmediate
  import ThumbRandom

  type Access = ThumbMemory.Access

  /** A handler that changes only the processor. */
  function Only(m: Machine, mem: Mem): Result<Access>
  {
    Ok(ThumbMemory.Access(m, mem))
  }

  /** A handler that may throw and changes only the processor. */
  function OnlyIfOk(r: Result<Machine>, mem: Mem): Result<Access>
  {
    match r
    case Ok(m) => Ok(ThumbMemory.Access(m, mem))
    case Err(e) => Err(e)
  }

  /** The effect of an ARM handler on the stepped machine, by the source file that implements it. */
  ghost function ArmEffect(m: Machine, mem: Mem, h: ArmHandler, instr: bv32): (r: Result<Access>)
    requires Wf(m)
    ensures r.Ok? ==> Wf(r.value.machine)
    ensures r.Err? ==> h.ArmUndefined? || h.ArmLdm? || h.ArmMsr? || h.ArmAlu?
  {
    match h
    case ArmSwi => Only(ArmBranch.Swi(m, mem), mem)
    case ArmBx => Only(ArmBranch.Bx(m, mem, instr), mem)
    case ArmB => Only(ArmBranch.B(m, mem, instr), mem)
    case ArmBl => Only(ArmBranch.Bl(m, mem, instr), mem)
    case ArmMulMla => Only(ArmMultiply.Mul(m, mem, instr), mem)
    case ArmSmullSmlal => Only(ArmMultiply.MulLong(m, mem, instr, true), mem)
    case ArmUmullUmlal => Only(ArmMultiply.MulLong(m, mem, instr, false), mem)
    case ArmLdrhsb => Only(ArmTransfer.Ldrhsb(m, mem, instr), mem)
    case ArmStrhsb => Ok(ArmTransfer.Strhsb(m, mem, instr))
    case ArmLdr => Only(ArmTransfer.Ldr(m, mem, instr), mem)
    case ArmStr => Ok(ArmTransfer.Str(m, mem, instr))
    case ArmSwp => Ok(ArmTransfer.Swp(m, mem, instr))
    case ArmLdm => OnlyIfOk(ArmBlockTransfer.Ldm(m, mem, instr), mem)
    case ArmStm => Ok(ArmBlockTransfer.Stm(m, mem, instr))
    case ArmMrs => Only(ArmDataProcessing.Mrs(m, mem, instr), mem)
    case ArmMsr => OnlyIfOk(ArmDataProcessing.Msr(m, instr), mem)
    case ArmAlu(op) => OnlyIfOk(ArmDataProcessing.Execute(m, mem, op, instr), mem)
    case ArmUndefined => Err("Undefined ARM instruction")
  }

  /** The effect of a THUMB handler on the stepped machine, by the source file that implements it. */
  ghost function ThumbEffect(m: Machine, mem: Mem, h: ThumbHandler, instr: bv32): (r: Result<Access>)
    requires Wf(m)
    ensures r.Ok? ==> Wf(r.value.machine)
    ensures r.Err? ==> h.ThumbUndefined? || h.ThumbConditionalBranch? || h.ThumbMovs?
  {
    match h
    case ThumbSwi => Only(ThumbBranch.Swi(m, mem), mem)
    case ThumbConditionalBranch => OnlyIfOk(ThumbBranch.CondBranch(m, mem, instr), mem)
    case ThumbBranch => Only(ThumbBranch.B(m, mem, instr), mem)
    case ThumbLongBranchLink => Only(ThumbBranch.LongBranchLink(m, mem, instr), mem)
    case ThumbHiLoAdd => Only(ThumbHighLow.HiLoAdd(m, mem, instr), mem)
    case ThumbHiLoCmp => Only(ThumbHighLow.HiLoCmp(m, instr), mem)
    case ThumbHiLoMov => Only(ThumbHighLow.HiLoMov(m, mem, instr), mem)
    case ThumbHiLoBx => Only(ThumbHighLow.HiLoBx(m, mem, instr), mem)
    case ThumbPop => Only(ThumbMemory.Pop(m, mem, instr), mem)
    case ThumbPush => Ok(ThumbMemory.Push(m, mem, instr))
    case ThumbLdmia => Only(ThumbMemory.Ldmia(m, mem, instr), mem)
    case ThumbStmia => Ok(ThumbMemory.Stmia(m, mem, instr))
    case ThumbStrh => Ok(ThumbMemory.Access(m, ThumbMemory.Strh(m, mem, instr)))
    case ThumbLdsb => Only(ThumbMemory.Ldsb(m, mem, instr), mem)
    case ThumbLdrh => Only(ThumbMemory.Ldrh(m, mem, instr), mem)
    case ThumbLdsh => Only(ThumbMemory.Ldsh(m, mem, instr), mem)
    case ThumbLdrStrImmOff => Ok(ThumbMemory.LdrStrImmOff(m, mem, instr))
    case ThumbLdrhStrhImmOff => Ok(ThumbMemory.LdrhStrhImmOff(m, mem, instr))
    case ThumbLdrPcRel => Only(ThumbMemory.LdrPcRel(m, mem, instr), mem)
    case ThumbLdrStrRegOff => Ok(ThumbMemory.LdrStrRegOff(m, mem, instr))
    case ThumbLdrStrSpRel => Ok(ThumbMemory.LdrStrSpRel(m, mem, instr))
    case ThumbSpOff => Only(ThumbMemory.SpOff(m, instr), mem)
    case ThumbLdPcSp => Only(ThumbMemory.LdPcSp(m, instr), mem)
    case ThumbAlu(op) => Only(ThumbDataProcessing.Alu(m, op, instr), mem)
    case ThumbAddSub => Only(ThumbRandom.AddSub(m, instr), mem)
    case ThumbMovs => OnlyIfOk(ThumbRandom.Movs(m, instr), mem)
    case ThumbMovImm => Only(ThumbImmediate.MovImm(m, instr), mem)
    case ThumbCmpImm => Only(ThumbImmediate.CmpImm(m, instr), mem)
    case ThumbAddImm => Only(ThumbImmediate.AddImm(m, instr), mem)
    case ThumbSubImm => Only(ThumbImmediate.SubImm(m, instr), mem)
    case ThumbUndefined => Err("Undefined THUMB instruction")
  }

  lemma ArmUndefinedFails(m: Machine, mem: Mem, instr: bv32)
    requires Wf(m)
    ensures ArmEffect(m, mem, ArmUndefined, instr).Err?
  {
  }

  lemma ThumbUndefinedFails(m: Machine, mem: Mem, instr: bv32)
    requires Wf(m)
    ensures ThumbEffect(m, mem, ThumbUndefined, instr).Err?
  {
  }

  /** Each of SWI, BX, B and BL (arm/Branch.kt) has the effect of its own function. */
  lemma ArmSwiIs(m: Machine, mem: Mem, h: ArmHandler, instr: bv32)
    requires Wf(m) && h.ArmSwi?
    ensures ArmEffect(m, mem, h, instr) == Only(ArmBranch.Swi(m, mem), mem)
  {
  }

  lemma ArmBxIs(m: Machine, mem: Mem, h: ArmHandler, instr: bv32)
    requires Wf(m) && h.ArmBx?
    ensures ArmEffect(m, mem, h, instr) == Only(ArmBranch.Bx(m, mem, instr), mem)
  {
  }

  lemma ArmBIs(m: Machine, mem: Mem, h: ArmHandler, instr: bv32)
    requires Wf(m) && h.ArmB?
    ensures ArmEffect(m, mem, h, instr) == Only(ArmBranch.B(m, mem, instr), mem)
  {
  }

  lemma ArmBlIs(m: Machine, mem: Mem, h: ArmHandler, instr: bv32)
    requires Wf(m) && h.ArmBl?
    ensures ArmEffect(m, mem, h, instr) == Only(ArmBranch.Bl(m, mem, instr), mem)
  {
  }

  /** Each of the multiplies (arm/Multiplication.kt) has the effect of its own function. */
  lemma ArmMulMlaIs(m: Machine, mem: Mem, h: ArmHandler, instr: bv32)
    requires Wf(m) && h.ArmMulMla?
    ensures ArmEffect(m, mem, h, instr) == Only(ArmMultiply.Mul(m, mem, instr), mem)
  {
  }

  lemma ArmSmullSmlalIs(m: Machine, mem: Mem, h: ArmHandler, instr: bv32)
    requires Wf(m) && h.ArmSmullSmlal?
    ensures ArmEffect(m, mem, h, instr) == Only(ArmMultiply.MulLong(m, mem, instr, true), mem)
  {
  }

  lemma ArmUmullUmlalIs(m: Machine, mem: Mem, h: ArmHandler, instr: bv32)
    requires Wf(m) && h.ArmUmullUmlal?
    ensures ArmEffect(m, mem, h, instr) == Only(ArmMultiply.MulLong(m, mem, instr, false), mem)
  {
  }

  /** Each of the single transfers (arm/Memory.kt) has the effect of its own function. */
  lemma ArmLdrhsbIs(m: Machine, mem: Mem, h: ArmHandler, instr: bv32)
    requires Wf(m) && h.ArmLdrhsb?
    ensures ArmEffect(m, mem, h, instr) == Only(ArmTransfer.Ldrhsb(m, mem, instr), mem)
  {
  }

  lemma ArmStrhsbIs(m: Machine, mem: Mem, h: ArmHandler, instr: bv32)
    requires Wf(m) && h.ArmStrhsb?
    ensures ArmEffect(m, mem, h, instr) == Ok(ArmTransfer.Strhsb(m, mem, instr))
  {
  }

  lemma ArmLdrIs(m: Machine, mem: Mem, h: ArmHandler, instr: bv32)
    requires Wf(m) && h.ArmLdr?
    ensures ArmEffect(m, mem, h, instr) == Only(ArmTransfer.Ldr(m, mem, instr), mem)
  {
  }

  lemma ArmStrIs(m: Machine, mem: Mem, h: ArmHandler, instr: bv32)
    requires Wf(m) && h.ArmStr?
    ensures ArmEffect(m, mem, h, instr) == Ok(ArmTransfer.Str(m, mem, instr))
  {
  }

  /** Each of SWP and the block transfers (arm/Memory.kt) has the effect of its own function. */
  lemma ArmSwpIs(m: Machine, mem: Mem, h: ArmHandler, instr: bv32)
    requires Wf(m) && h.ArmSwp?
    ensures ArmEffect(m, mem, h, instr) == Ok(ArmTransfer.Swp(m, mem, instr))
  {
  }

  lemma ArmLdmIs(m: Machine, mem: Mem, h: ArmHandler, instr: bv32)
    requires Wf(m) && h.ArmLdm?
    ensures ArmEffect(m, mem, h, instr) == OnlyIfOk(ArmBlockTransfer.Ldm(m, mem, instr), mem)
  {
  }

  lemma ArmStmIs(m: Machine, mem: Mem, h: ArmHandler, instr: bv32)
    requires Wf(m) && h.ArmStm?
    ensures ArmEffect(m, mem, h, instr) == Ok(ArmBlockTransfer.Stm(m, mem, instr))
  {
  }

  /** Each of MRS, MSR and data processing (arm/DataProcessing.kt) has the effect of its own function. */
  lemma ArmMrsIs(m: Machine, mem: Mem, h: ArmHandler, instr: bv32)
    requires Wf(m) && h.ArmMrs?
    ensures ArmEffect(m, mem, h, instr) == Only(ArmDataProcessing.Mrs(m, mem, instr), mem)
  {
  }

  lemma ArmMsrIs(m: Machine, mem: Mem, h: ArmHandler, instr: bv32)
    requires Wf(m) && h.ArmMsr?
    ensures ArmEffect(m, mem, h, instr) == OnlyIfOk(ArmDataProcessing.Msr(m, instr), mem)
  {
  }

  lemma ArmAluIs(m: Machine, mem: Mem, op: ArmDataProcessing.DpOp, h: ArmHandler, instr: bv32)
    requires Wf(m) && h == ArmAlu(op)
    ensures ArmEffect(m, mem, h, instr) == OnlyIfOk(ArmDataProcessing.Execute(m, mem, op, instr), mem)
  {
  }

  /** Each of SWI and the branches (thumb/Branch.kt) has the effect of its own function. */
  lemma ThumbSwiIs(m: Machine, mem: Mem, h: ThumbHandler, instr: bv32)
    requires Wf(m) && h.ThumbSwi?
    ensures ThumbEffect(m, mem, h, instr) == Only(ThumbBranch.Swi(m, mem), mem)
  {
  }

  lemma ThumbConditionalBranchIs(m: Machine, mem: Mem, h: ThumbHandler, instr: bv32)
    requires Wf(m) && h.ThumbConditionalBranch?
    ensures ThumbEffect(m, mem, h, instr) == OnlyIfOk(ThumbBranch.CondBranch(m, mem, instr), mem)
  {
  }

  lemma ThumbBranchIs(m: Machine, mem: Mem, h: ThumbHandler, instr: bv32)
    requires Wf(m) && h.ThumbBranch?
    ensures ThumbEffect(m, mem, h, instr) == Only(ThumbBranch.B(m, mem, instr), mem)
  {
  }

  lemma ThumbLongBranchLinkIs(m: Machine, mem: Mem, h: ThumbHandler, instr: bv32)
    requires Wf(m) && h.ThumbLongBranchLink?
    ensures ThumbEffect(m, mem, h, instr) == Only(ThumbBranch.LongBranchLink(m, mem, instr), mem)
  {
  }

  /** Each of the hi-register operations (thumb/HighLow.kt) has the effect of its own function. */
  lemma ThumbHiLoAddIs(m: Machine, mem: Mem, h: ThumbHandler, instr: bv32)
    requires Wf(m) && h.ThumbHiLoAdd?
    ensures ThumbEffect(m, mem, h, instr) == Only(ThumbHighLow.HiLoAdd(m, mem, instr), mem)
  {
  }

  lemma ThumbHiLoCmpIs(m: Machine, mem: Mem, h: ThumbHandler, instr: bv32)
    requires Wf(m) && h.ThumbHiLoCmp?
    ensures ThumbEffect(m, mem, h, instr) == Only(ThumbHighLow.HiLoCmp(m, instr), mem)
  {
  }

  lemma ThumbHiLoMovIs(m: Machine, mem: Mem, h: ThumbHandler, instr: bv32)
    requires Wf(m) && h.ThumbHiLoMov?
    ensures ThumbEffect(m, mem, h, instr) == Only(ThumbHighLow.HiLoMov(m, mem, instr), mem)
  {
  }

  lemma ThumbHiLoBxIs(m: Machine, mem: Mem, h: ThumbHandler, instr: bv32)
    requires Wf(m) && h.ThumbHiLoBx?
    ensures ThumbEffect(m, mem, h, instr) == Only(ThumbHighLow.HiLoBx(m, mem, instr), mem)
  {
  }

  /** Each of PUSH, POP, LDMIA and STMIA (thumb/Memory.kt) has the effect of its own function. */
  lemma ThumbPopIs(m: Machine, mem: Mem, h: ThumbHandler, instr: bv32)
    requires Wf(m) && h.ThumbPop?
    ensures ThumbEffect(m, mem, h, instr) == Only(ThumbMemory.Pop(m, mem, instr), mem)
  {
  }

  lemma ThumbPushIs(m: Machine, mem: Mem, h: ThumbHandler, instr: bv32)
    requires Wf(m) && h.ThumbPush?
    ensures ThumbEffect(m, mem, h, instr) == Ok(ThumbMemory.Push(m, mem, instr))
  {
  }

  lemma ThumbLdmiaIs(m: Machine, mem: Mem, h: ThumbHandler, instr: bv32)
    requires Wf(m) && h.ThumbLdmia?
    ensures ThumbEffect(m, mem, h, instr) == Only(ThumbMemory.Ldmia(m, mem, instr), mem)
  {
  }

  lemma ThumbStmiaIs(m: Machine, mem: Mem, h: ThumbHandler, instr: bv32)
    requires Wf(m) && h.ThumbStmia?
    ensures ThumbEffect(m, mem, h, instr) == Ok(ThumbMemory.Stmia(m, mem, instr))
  {
  }

  /** Each of the sign-extended and halfword register-offset transfers (thumb/Memory.kt) has the effect of its own function. */
  lemma ThumbStrhIs(m: Machine, mem: Mem, h: ThumbHandler, instr: bv32)
    requires Wf(m) && h.ThumbStrh?
    ensures ThumbEffect(m, mem, h, instr) == Ok(ThumbMemory.Access(m, ThumbMemory.Strh(m, mem, instr)))
  {
  }

  lemma ThumbLdsbIs(m: Machine, mem: Mem, h: ThumbHandler, instr: bv32)
    requires Wf(m) && h.ThumbLdsb?
    ensures ThumbEffect(m, mem, h, instr) == Only(ThumbMemory.Ldsb(m, mem, instr), mem)
  {
  }

  lemma ThumbLdrhIs(m: Machine, mem: Mem, h: ThumbHandler, instr: bv32)
    requires Wf(m) && h.ThumbLdrh?
    ensures ThumbEffect(m, mem, h, instr) == Only(ThumbMemory.Ldrh(m, mem, instr), mem)
  {
  }

  lemma ThumbLdshIs(m: Machine, mem: Mem, h: ThumbHandler, instr: bv32)
    requires Wf(m) && h.ThumbLdsh?
    ensures ThumbEffect(m, mem, h, instr) == Only(ThumbMemory.Ldsh(m, mem, instr), mem)
  {
  }

  /** Each of the word and byte transfers by offset (thumb/Memory.kt) has the effect of its own function. */
  lemma ThumbLdrStrImmOffIs(m: Machine, mem: Mem, h: ThumbHandler, instr: bv32)
    requires Wf(m) && h.ThumbLdrStrImmOff?
    ensures ThumbEffect(m, mem, h, instr) == Ok(ThumbMemory.LdrStrImmOff(m, mem, instr))
  {
  }

  lemma ThumbLdrhStrhImmOffIs(m: Machine, mem: Mem, h: ThumbHandler, instr: bv32)
    requires Wf(m) && h.ThumbLdrhStrhImmOff?
    ensures ThumbEffect(m, mem, h, instr) == Ok(ThumbMemory.LdrhStrhImmOff(m, mem, instr))
  {
  }

  lemma ThumbLdrPcRelIs(m: Machine, mem: Mem, h: ThumbHandler, instr: bv32)
    requires Wf(m) && h.ThumbLdrPcRel?
    ensures ThumbEffect(m, mem, h, instr) == Only(ThumbMemory.LdrPcRel(m, mem, instr), mem)
  {
  }

  lemma ThumbLdrStrRegOffIs(m: Machine, mem: Mem, h: ThumbHandler, instr: bv32)
    requires Wf(m) && h.ThumbLdrStrRegOff?
    ensures ThumbEffect(m, mem, h, instr) == Ok(ThumbMemory.LdrStrRegOff(m, mem, instr))
  {
  }

  /** Each of the SP-relative transfers and address arithmetic (thumb/Memory.kt) has the effect of its own function. */
  lemma ThumbLdrStrSpRelIs(m: Machine, mem: Mem, h: ThumbHandler, instr: bv32)
    requires Wf(m) && h.ThumbLdrStrSpRel?
    ensures ThumbEffect(m, mem, h, instr) == Ok(ThumbMemory.LdrStrSpRel(m, mem, instr))
  {
  }

  lemma ThumbSpOffIs(m: Machine, mem: Mem, h: ThumbHandler, instr: bv32)
    requires Wf(m) && h.ThumbSpOff?
    ensures ThumbEffect(m, mem, h, instr) == Only(ThumbMemory.SpOff(m, instr), mem)
  {
  }

  lemma ThumbLdPcSpIs(m: Machine, mem: Mem, h: ThumbHandler, instr: bv32)
    requires Wf(m) && h.ThumbLdPcSp?
    ensures ThumbEffect(m, mem, h, instr) == Only(ThumbMemory.LdPcSp(m, instr), mem)
  {
  }

  /** Each of format 4, add/subtract and the shift-immediate moves (thumb/DataProcessing.kt, thumb/Random.kt) has the effect of its own function. */
  lemma ThumbAluIs(m: Machine, mem: Mem, op: ThumbDataProcessing.AluOp, h: ThumbHandler, instr: bv32)
    requires Wf(m) && h == ThumbAlu(op)
    ensures ThumbEffect(m, mem, h, instr) == Only(ThumbDataProcessing.Alu(m, op, instr), mem)
  {
  }

  lemma ThumbAddSubIs(m: Machine, mem: Mem, h: ThumbHandler, instr: bv32)
    requires Wf(m) && h.ThumbAddSub?
    ensures ThumbEffect(m, mem, h, instr) == Only(ThumbRandom.AddSub(m, instr), mem)
  {
  }

  lemma ThumbMovsIs(m: Machine, mem: Mem, h: ThumbHandler, instr: bv32)
    requires Wf(m) && h.ThumbMovs?
    ensures ThumbEffect(m, mem, h, instr) == OnlyIfOk(ThumbRandom.Movs(m, instr), mem)
  {
  }

  /** Each of the 8-bit immediate operations (thumb/Immediate.kt) has the effect of its own function. */
  lemma ThumbMovImmIs(m: Machine, mem: Mem, h: ThumbHandler, instr: bv32)
    requires Wf(m) && h.ThumbMovImm?
    ensures ThumbEffect(m, mem, h, instr) == Only(ThumbImmediate.MovImm(m, instr), mem)
  {
  }

  lemma ThumbCmpImmIs(m: Machine, mem: Mem, h: ThumbHandler, instr: bv32)
    requires Wf(m) && h.ThumbCmpImm?
    ensures ThumbEffect(m, mem, h, instr) == Only(ThumbImmediate.CmpImm(m, instr), mem)
  {
  }

  lemma ThumbAddImmIs(m: Machine, mem: Mem, h: ThumbHandler, instr: bv32)
    requires Wf(m) && h.ThumbAddImm?
    ensures ThumbEffect(m, mem, h, instr) == Only(ThumbImmediate.AddImm(m, instr), mem)
  {
  }

  lemma ThumbSubImmIs(m: Machine, mem: Mem, h: ThumbHandler, instr: bv32)
    requires Wf(m) && h.ThumbSubImm?
    ensures ThumbEffect(m, mem, h, instr) == Only(ThumbImmediate.SubImm(m, instr), mem)
  {
  }

  /** What a tick leaves: the new processor and memory, and whether the processor was halted. */
  datatype Ticked = Ticked(access: Access, halted: bool)

  /** An effect, tagged as a tick that ran. */
  function Ran(r: Result<Access>): Result<Ticked>
  {
    match r
    case Ok(a) => Ok(Ticked(a, false))
    case Err(e) => Err(e)
  }

  /** A THUMB instruction: step, then run the handler its table entry names. */
  ghost function ExecuteThumb(i: Machine, mem: Mem): (r: Result<Ticked>)
    requires Wf(i)
    ensures r.Ok? ==> Wf(r.value.access.machine) && !r.value.halted
  {
    var op := i.pipeline.head;
    Ran(ThumbEffect(ThumbStep(i, mem), mem, ThumbLut()[ThumbIndex(op)], op))
  }

  /** An ARM instruction: step, then run the handler its table entry names if the condition holds. */
  ghost function ExecuteArm(i: Machine, mem: Mem): (r: Result<Ticked>)
    requires Wf(i)
    ensures r.Ok? ==> Wf(r.value.access.machine) && !r.value.halted
  {
    var op := i.pipeline.head;
    match Conditions.IsCondition(i.cpsr, (op >> 28) as nat)
    case Err(e) => Err(e)
    case Ok(holds) =>
      if holds then Ran(ArmEffect(ArmStep(i, mem), mem, ArmLut()[ArmIndex(op)], op))
      else Ok(Ticked(ThumbMemory.Access(ArmStep(i, mem), mem), false))
  }

  /** One instruction after the interrupt check: opcode 0 is an error, otherwise decode by state. */
  ghost function Execute(i: Machine, mem: Mem): (r: Result<Ticked>)
    requires Wf(i)
    ensures i.pipeline.head == 0 ==> r.Err?
    ensures r.Ok? ==> Wf(r.value.access.machine) && !r.value.halted
  {
    if i.pipeline.head == 0 then Err("[CPU] OpCode 0")
    else if i.state == Thumb then ExecuteThumb(i, mem)
    else ExecuteArm(i, mem)
  }

  /** `tick()`, with the interrupt controller's IME, IE and IR as parameters. */
  ghost function Tick(m: Machine, mem: Mem, ime: bool, ie: bv32, ir: bv32): (r: Result<Ticked>)
    requires Wf(m)
    ensures r.Ok? ==> Wf(r.value.access.machine)
    ensures r.Ok? && r.value.halted ==> r.value.access.memory == mem && r.value.access.machine.halted
  {
    var i := HandlePendingInterrupts(m, mem, ime, ie, ir);
    if i.halted then Ok(Ticked(ThumbMemory.Access(i, mem), true))
    else Execute(i, mem)
  }

  /** A halted processor with no interrupt to take does nothing at all. */
  lemma HaltedStaysPut(m: Machine, mem: Mem, ime: bool, ie: bv32, ir: bv32)
    requires Wf(m) && m.halted && !InterruptPending(m.cpsr, ime, ie, ir)
    ensures Tick(m, mem, ime, ie, ir) == Ok(Ticked(ThumbMemory.Access(m, mem), true))
  {
  }

  /** A pending interrupt wakes a halted processor, which then runs the instruction at the IRQ vector. */
  lemma InterruptWakes(m: Machine, mem: Mem, ime: bool, ie: bv32, ir: bv32)
    requires Wf(m) && InterruptPending(m.cpsr, ime, ie, ir)
    ensures Tick(m, mem, ime, ie, ir) == Execute(HandlePendingInterrupts(m, mem, ime, ie, ir), mem)
  {
  }

  /** An ARM instruction whose condition fails only steps the pipeline. */
  lemma FailedConditionSteps(i: Machine, mem: Mem)
    requires Wf(i)
    requires Conditions.IsCondition(i.cpsr, (i.pipeline.head >> 28) as nat) == Ok(false)
    ensures ExecuteArm(i, mem) == Ok(Ticked(ThumbMemory.Access(ArmStep(i, mem), mem), false))
  {
  }

  /** An ARM instruction runs the handler of its table index on the stepped machine exactly when its condition holds. */
  lemma HeldConditionRuns(i: Machine, mem: Mem)
    requires Wf(i)
    requires Conditions.IsCondition(i.cpsr, (i.pipeline.head >> 28) as nat) == Ok(true)
    ensures var op := i.pipeline.head;
      ExecuteArm(i, mem) == Ran(ArmEffect(ArmStep(i, mem), mem, ArmOpFactory(ArmIndex(op)), op))
  {
    ArmLutEntry(ArmIndex(i.pipeline.head) as nat);
  }

  /** A THUMB instruction always runs the handler of its table index, on the stepped machine. */
  lemma ThumbRuns(i: Machine, mem: Mem)
    requires Wf(i)
    ensures var op := i.pipeline.head;
      ExecuteThumb(i, mem) == Ran(ThumbEffect(ThumbStep(i, mem), mem, ThumbOpFactory(ThumbIndex(op)), op))
  {
    ThumbLutEntry(ThumbIndex(i.pipeline.head) as nat);
  }

  /** The reserved condition 0xF is an error, never a silent skip. */
  lemma ReservedConditionFails(i: Machine, mem: Mem)
    requires Wf(i) && i.pipeline.head >> 28 == 0xF
    ensures ExecuteArm(i, mem).Err?
  {
  }

  /** `tick()` on the processor object. */
  method RunTick(cpu: Cpu, ime: bool, ie: bv32, ir: bv32) returns (halted: bool, ok: bool)
    requires cpu.Valid()
    modifies cpu, cpu.bus
    ensures ok ==> cpu.Valid()
    ensures var t := Tick(old(cpu.View()), old(cpu.bus.memory), ime, ie, ir);
      ok == t.Ok? && (ok ==> cpu.View() == t.value.access.machine && cpu.bus.memory == t.value.access.memory && halted == t.value.halted)
  {
    cpu.HandlePendingInterrupts(ime, ie, ir);
    if cpu.halted {
      return true, true;
    }
    halted := false;
    if cpu.pipeline.head == 0 {
      return false, false;
    }
    if cpu.state == Thumb {
      ok := RunExecuteThumb(cpu);
    } else {
      ok := RunExecuteArm(cpu);
    }
  }

  /** A THUMB instruction: look up its handler, step, run the handler. */
  method RunExecuteThumb(cpu: Cpu) returns (ok: bool)
    requires cpu.Valid()
    modifies cpu, cpu.bus
    ensures ok ==> cpu.Valid()
    ensures var t := ExecuteThumb(old(cpu.View()), old(cpu.bus.memory));
      ok == t.Ok? && (ok ==> cpu.View() == t.value.access.machine && cpu.bus.memory == t.value.access.memory && !t.value.halted)
  {
    var op := cpu.pipeline.head;
    var h := ThumbLut()[ThumbIndex(op)];
    cpu.ThumbStep();
    ok := RunThumb(cpu, h, op);
  }

  /** An ARM instruction: check its condition; step, and run its handler when the condition holds. */
  method RunExecuteArm(cpu: Cpu) returns (ok: bool)
    requires cpu.Valid()
    modifies cpu, cpu.bus
    ensures ok ==> cpu.Valid()
    ensures var t := ExecuteArm(old(cpu.View()), old(cpu.bus.memory));
      ok == t.Ok? && (ok ==> cpu.View() == t.value.access.machine && cpu.bus.memory == t.value.access.memory && !t.value.halted)
  {
    var op := cpu.pipeline.head;
    var holds := Conditions.IsCondition(cpu.cpsr, (op >> 28) as nat);
    if holds.Err? {
      return false;
    }
    if holds.value {
      var h := ArmLut()[ArmIndex(op)];
      cpu.ArmStep();
      ok := RunArm(cpu, h, op);
    } else {
      cpu.ArmStep();
      ok := true;
    }
  }

  /** An ARM handler, by group. */
  method RunArm(cpu: Cpu, h: ArmHandler, instr: bv32) returns (ok: bool)
    requires cpu.Valid()
    modifies cpu, cpu.bus
    ensures ok ==> cpu.Valid()
    ensures var e := ArmEffect(old(cpu.View()), old(cpu.bus.memory), h, instr);
      ok == e.Ok? && (ok ==> cpu.View() == e.value.machine && cpu.bus.memory == e.value.memory)
  {
    ghost var m := cpu.View();
    ghost var mem := cpu.bus.memory;
    match h
    case ArmSwi | ArmBx | ArmB | ArmBl =>
      ok := RunArmBranchGroup(cpu, h, instr);
    case ArmMulMla | ArmSmullSmlal | ArmUmullUmlal =>
      ok := RunArmMultiplyGroup(cpu, h, instr);
    case ArmLdrhsb | ArmStrhsb | ArmLdr | ArmStr =>
      ok := RunArmSingleGroup(cpu, h, instr);
    case ArmSwp | ArmLdm | ArmStm =>
      ok := RunArmSwapBlockGroup(cpu, h, instr);
    case ArmMrs | ArmMsr | ArmAlu(_) =>
      ok := RunArmStatusGroup(cpu, h, instr);
    case ArmUndefined =>
      ArmUndefinedFails(m, mem, instr);
      ok := false;
  }

  /** A THUMB handler, by group. */
  method RunThumb(cpu: Cpu, h: ThumbHandler, instr: bv32) returns (ok: bool)
    requires cpu.Valid()
    modifies cpu, cpu.bus
    ensures ok ==> cpu.Valid()
    ensures var e := ThumbEffect(old(cpu.View()), old(cpu.bus.memory), h, instr);
      ok == e.Ok? && (ok ==> cpu.View() == e.value.machine && cpu.bus.memory == e.value.memory)
  {
    ghost var m := cpu.View();
    ghost var mem := cpu.bus.memory;
    match h
    case ThumbSwi | ThumbConditionalBranch | ThumbBranch | ThumbLongBranchLink =>
      ok := RunThumbBranchGroup(cpu, h, instr);
    case ThumbHiLoAdd | ThumbHiLoCmp | ThumbHiLoMov | ThumbHiLoBx =>
      ok := RunThumbHighLowGroup(cpu, h, instr);
    case ThumbPop | ThumbPush | ThumbLdmia | ThumbStmia =>
      ok := RunThumbBlockGroup(cpu, h, instr);
    case ThumbStrh | ThumbLdsb | ThumbLdrh | ThumbLdsh =>
      ok := RunThumbHalfGroup(cpu, h, instr);
    case ThumbLdrStrImmOff | ThumbLdrhStrhImmOff | ThumbLdrPcRel | ThumbLdrStrRegOff =>
      ok := RunThumbOffsetGroup(cpu, h, instr);
    case ThumbLdrStrSpRel | ThumbSpOff | ThumbLdPcSp =>
      ok := RunThumbStackGroup(cpu, h, instr);
    case ThumbAlu(_) | ThumbAddSub | ThumbMovs =>
      ok := RunThumbRegisterGroup(cpu, h, instr);
    case ThumbMovImm | ThumbCmpImm | ThumbAddImm | ThumbSubImm =>
      ok := RunThumbImmediateGroup(cpu, h, instr);
    case ThumbUndefined =>
      ThumbUndefinedFails(m, mem, instr);
      ok := false;
  }

  /** Runs SWI, BX, B and BL (arm/Branch.kt). */
  method RunArmBranchGroup(cpu: Cpu, h: ArmHandler, instr: bv32) returns (ok: bool)
    requires cpu.Valid()
    requires h.ArmSwi? || h.ArmBx? || h.ArmB? || h.ArmBl?
    modifies cpu
    ensures ok ==> cpu.Valid()
    ensures var e := ArmEffect(old(cpu.View()), old(cpu.bus.memory), h, instr);
      ok == e.Ok? && (ok ==> cpu.View() == e.value.machine && cpu.bus.memory == e.value.memory)
  {
    ghost var m := cpu.View();
    ghost var mem := cpu.bus.memory;
    ok := true;
    match h
    case ArmSwi =>
      ArmSwiIs(m, mem, h, instr);
      ArmBranch.RunSwi(cpu);
    case ArmBx =>
      ArmBxIs(m, mem, h, instr);
      ArmBranch.RunBx(cpu, instr);
    case ArmB =>
      ArmBIs(m, mem, h, instr);
      ArmBranch.RunB(cpu, instr);
    case ArmBl =>
      ArmBlIs(m, mem, h, instr);
      ArmBranch.RunBl(cpu, instr);
  }

  /** Runs the multiplies (arm/Multiplication.kt). */
  method RunArmMultiplyGroup(cpu: Cpu, h: ArmHandler, instr: bv32) returns (ok: bool)
    requires cpu.Valid()
    requires h.ArmMulMla? || h.ArmSmullSmlal? || h.ArmUmullUmlal?
    modifies cpu
    ensures ok ==> cpu.Valid()
    ensures var e := ArmEffect(old(cpu.View()), old(cpu.bus.memory), h, instr);
      ok == e.Ok? && (ok ==> cpu.View() == e.value.machine && cpu.bus.memory == e.value.memory)
  {
    ghost var m := cpu.View();
    ghost var mem := cpu.bus.memory;
    ok := true;
    match h
    case ArmMulMla =>
      ArmMulMlaIs(m, mem, h, instr);
      ArmMultiply.RunMul(cpu, instr);
    case ArmSmullSmlal =>
      ArmSmullSmlalIs(m, mem, h, instr);
      ArmMultiply.RunMulLong(cpu, instr, true);
    case ArmUmullUmlal =>
      ArmUmullUmlalIs(m, mem, h, instr);
      ArmMultiply.RunMulLong(cpu, instr, false);
  }

  /** Runs the single transfers (arm/Memory.kt). */
  method RunArmSingleGroup(cpu: Cpu, h: ArmHandler, instr: bv32) returns (ok: bool)
    requires cpu.Valid()
    requires h.ArmLdrhsb? || h.ArmStrhsb? || h.ArmLdr? || h.ArmStr?
    modifies cpu, cpu.bus
    ensures ok ==> cpu.Valid()
    ensures var e := ArmEffect(old(cpu.View()), old(cpu.bus.memory), h, instr);
      ok == e.Ok? && (ok ==> cpu.View() == e.value.machine && cpu.bus.memory == e.value.memory)
  {
    ghost var m := cpu.View();
    ghost var mem := cpu.bus.memory;
    ok := true;
    match h
    case ArmLdrhsb =>
      ArmLdrhsbIs(m, mem, h, instr);
      ArmTransfer.RunLdrhsb(cpu, instr);
    case ArmStrhsb =>
      ArmStrhsbIs(m, mem, h, instr);
      ArmTransfer.RunStrhsb(cpu, instr);
    case ArmLdr =>
      ArmLdrIs(m, mem, h, instr);
      ArmTransfer.RunLdr(cpu, instr);
    case ArmStr =>
      ArmStrIs(m, mem, h, instr);
      ArmTransfer.RunStr(cpu, instr);
  }

  /** Runs SWP and the block transfers (arm/Memory.kt). */
  method RunArmSwapBlockGroup(cpu: Cpu, h: ArmHandler, instr: bv32) returns (ok: bool)
    requires cpu.Valid()
    requires h.ArmSwp? || h.ArmLdm? || h.ArmStm?
    modifies cpu, cpu.bus
    ensures ok ==> cpu.Valid()
    ensures var e := ArmEffect(old(cpu.View()), old(cpu.bus.memory), h, instr);
      ok == e.Ok? && (ok ==> cpu.View() == e.value.machine && cpu.bus.memory == e.value.memory)
  {
    ghost var m := cpu.View();
    ghost var mem := cpu.bus.memory;
    ok := true;
    match h
    case ArmSwp =>
      ArmSwpIs(m, mem, h, instr);
      ArmTransfer.RunSwp(cpu, instr);
    case ArmLdm =>
      ArmLdmIs(m, mem, h, instr);
      ok := ArmBlockTransfer.RunLdm(cpu, instr);
    case ArmStm =>
      ArmStmIs(m, mem, h, instr);
      ArmBlockTransfer.RunStm(cpu, instr);
  }

  /** Runs MRS, MSR and data processing (arm/DataProcessing.kt). */
  method RunArmStatusGroup(cpu: Cpu, h: ArmHandler, instr: bv32) returns (ok: bool)
    requires cpu.Valid()
    requires h.ArmMrs? || h.ArmMsr? || h.ArmAlu?
    modifies cpu
    ensures ok ==> cpu.Valid()
    ensures var e := ArmEffect(old(cpu.View()), old(cpu.bus.memory), h, instr);
      ok == e.Ok? && (ok ==> cpu.View() == e.value.machine && cpu.bus.memory == e.value.memory)
  {
    ghost var m := cpu.View();
    ghost var mem := cpu.bus.memory;
    ok := true;
    match h
    case ArmMrs =>
      ArmMrsIs(m, mem, h, instr);
      ArmDataProcessing.RunMrs(cpu, instr);
    case ArmMsr =>
      ArmMsrIs(m, mem, h, instr);
      ok := ArmDataProcessing.RunMsr(cpu, instr);
    case ArmAlu(op) =>
      ArmAluIs(m, mem, op, h, instr);
      ok := ArmDataProcessing.RunDataProcessing(cpu, op, instr);
  }

  /** Runs SWI and the branches (thumb/Branch.kt). */
  method RunThumbBranchGroup(cpu: Cpu, h: ThumbHandler, instr: bv32) returns (ok: bool)
    requires cpu.Valid()
    requires h.ThumbSwi? || h.ThumbConditionalBranch? || h.ThumbBranch? || h.ThumbLongBranchLink?
    modifies cpu
    ensures ok ==> cpu.Valid()
    ensures var e := ThumbEffect(old(cpu.View()), old(cpu.bus.memory), h, instr);
      ok == e.Ok? && (ok ==> cpu.View() == e.value.machine && cpu.bus.memory == e.value.memory)
  {
    ghost var m := cpu.View();
    ghost var mem := cpu.bus.memory;
    ok := true;
    match h
    case ThumbSwi =>
      ThumbSwiIs(m, mem, h, instr);
      ThumbBranch.RunSwi(cpu);
    case ThumbConditionalBranch =>
      ThumbConditionalBranchIs(m, mem, h, instr);
      ok := ThumbBranch.RunCondBranch(cpu, instr);
    case ThumbBranch =>
      ThumbBranchIs(m, mem, h, instr);
      ThumbBranch.RunB(cpu, instr);
    case ThumbLongBranchLink =>
      ThumbLongBranchLinkIs(m, mem, h, instr);
      ThumbBranch.RunLongBranchLink(cpu, instr);
  }

  /** Runs the hi-register operations (thumb/HighLow.kt). */
  method RunThumbHighLowGroup(cpu: Cpu, h: ThumbHandler, instr: bv32) returns (ok: bool)
    requires cpu.Valid()
    requires h.ThumbHiLoAdd? || h.ThumbHiLoCmp? || h.ThumbHiLoMov? || h.ThumbHiLoBx?
    modifies cpu
    ensures ok ==> cpu.Valid()
    ensures var e := ThumbEffect(old(cpu.View()), old(cpu.bus.memory), h, instr);
      ok == e.Ok? && (ok ==> cpu.View() == e.value.machine && cpu.bus.memory == e.value.memory)
  {
    ghost var m := cpu.View();
    ghost var mem := cpu.bus.memory;
    ok := true;
    match h
    case ThumbHiLoAdd =>
      ThumbHiLoAddIs(m, mem, h, instr);
      ThumbHighLow.RunHiLoAdd(cpu, instr);
    case ThumbHiLoCmp =>
      ThumbHiLoCmpIs(m, mem, h, instr);
      ThumbHighLow.RunHiLoCmp(cpu, instr);
    case ThumbHiLoMov =>
      ThumbHiLoMovIs(m, mem, h, instr);
      ThumbHighLow.RunHiLoMov(cpu, instr);
    case ThumbHiLoBx =>
      ThumbHiLoBxIs(m, mem, h, instr);
      ThumbHighLow.RunHiLoBx(cpu, instr);
  }

  /** Runs PUSH, POP, LDMIA and STMIA (thumb/Memory.kt). */
  method RunThumbBlockGroup(cpu: Cpu, h: ThumbHandler, instr: bv32) returns (ok: bool)
    requires cpu.Valid()
    requires h.ThumbPop? || h.ThumbPush? || h.ThumbLdmia? || h.ThumbStmia?
    modifies cpu, cpu.bus
    ensures ok ==> cpu.Valid()
    ensures var e := ThumbEffect(old(cpu.View()), old(cpu.bus.memory), h, instr);
      ok == e.Ok? && (ok ==> cpu.View() == e.value.machine && cpu.bus.memory == e.value.memory)
  {
    ghost var m := cpu.View();
    ghost var mem := cpu.bus.memory;
    ok := true;
    match h
    case ThumbPop =>
      ThumbPopIs(m, mem, h, instr);
      ThumbMemory.RunPop(cpu, instr);
    case ThumbPush =>
      ThumbPushIs(m, mem, h, instr);
      ThumbMemory.RunPush(cpu, instr);
    case ThumbLdmia =>
      ThumbLdmiaIs(m, mem, h, instr);
      ThumbMemory.RunLdmia(cpu, instr);
    case ThumbStmia =>
      ThumbStmiaIs(m, mem, h, instr);
      ThumbMemory.RunStmia(cpu, instr);
  }

  /** Runs the sign-extended and halfword register-offset transfers (thumb/Memory.kt). */
  method RunThumbHalfGroup(cpu: Cpu, h: ThumbHandler, instr: bv32) returns (ok: bool)
    requires cpu.Valid()
    requires h.ThumbStrh? || h.ThumbLdsb? || h.ThumbLdrh? || h.ThumbLdsh?
    modifies cpu, cpu.bus
    ensures ok ==> cpu.Valid()
    ensures var e := ThumbEffect(old(cpu.View()), old(cpu.bus.memory), h, instr);
      ok == e.Ok? && (ok ==> cpu.View() == e.value.machine && cpu.bus.memory == e.value.memory)
  {
    ghost var m := cpu.View();
    ghost var mem := cpu.bus.memory;
    ok := true;
    match h
    case ThumbStrh =>
      ThumbStrhIs(m, mem, h, instr);
      ThumbMemory.RunStrh(cpu, instr);
    case ThumbLdsb =>
      ThumbLdsbIs(m, mem, h, instr);
      ThumbMemory.RunLdsb(cpu, instr);
    case ThumbLdrh =>
      ThumbLdrhIs(m, mem, h, instr);
      ThumbMemory.RunLdrh(cpu, instr);
    case ThumbLdsh =>
      ThumbLdshIs(m, mem, h, instr);
      ThumbMemory.RunLdsh(cpu, instr);
  }

  /** Runs the word and byte transfers by offset (thumb/Memory.kt). */
  method RunThumbOffsetGroup(cpu: Cpu, h: ThumbHandler, instr: bv32) returns (ok: bool)
    requires cpu.Valid()
    requires h.ThumbLdrStrImmOff? || h.ThumbLdrhStrhImmOff? || h.ThumbLdrPcRel? || h.ThumbLdrStrRegOff?
    modifies cpu, cpu.bus
    ensures ok ==> cpu.Valid()
    ensures var e := ThumbEffect(old(cpu.View()), old(cpu.bus.memory), h, instr);
      ok == e.Ok? && (ok ==> cpu.View() == e.value.machine && cpu.bus.memory == e.value.memory)
  {
    ghost var m := cpu.View();
    ghost var mem := cpu.bus.memory;
    ok := true;
    match h
    case ThumbLdrStrImmOff =>
      ThumbLdrStrImmOffIs(m, mem, h, instr);
      ThumbMemory.RunLdrStrImmOff(cpu, instr);
    case ThumbLdrhStrhImmOff =>
      ThumbLdrhStrhImmOffIs(m, mem, h, instr);
      ThumbMemory.RunLdrhStrhImmOff(cpu, instr);
    case ThumbLdrPcRel =>
      ThumbLdrPcRelIs(m, mem, h, instr);
      ThumbMemory.RunLdrPcRel(cpu, instr);
    case ThumbLdrStrRegOff =>
      ThumbLdrStrRegOffIs(m, mem, h, instr);
      ThumbMemory.RunLdrStrRegOff(cpu, instr);
  }

  /** Runs the SP-relative transfers and address arithmetic (thumb/Memory.kt). */
  method RunThumbStackGroup(cpu: Cpu, h: ThumbHandler, instr: bv32) returns (ok: bool)
    requires cpu.Valid()
    requires h.ThumbLdrStrSpRel? || h.ThumbSpOff? || h.ThumbLdPcSp?
    modifies cpu, cpu.bus
    ensures ok ==> cpu.Valid()
    ensures var e := ThumbEffect(old(cpu.View()), old(cpu.bus.memory), h, instr);
      ok == e.Ok? && (ok ==> cpu.View() == e.value.machine && cpu.bus.memory == e.value.memory)
  {
    ghost var m := cpu.View();
    ghost var mem := cpu.bus.memory;
    ok := true;
    match h
    case ThumbLdrStrSpRel =>
      ThumbLdrStrSpRelIs(m, mem, h, instr);
      ThumbMemory.RunLdrStrSpRel(cpu, instr);
    case ThumbSpOff =>
      ThumbSpOffIs(m, mem, h, instr);
      ThumbMemory.RunSpOff(cpu, instr);
    case ThumbLdPcSp =>
      ThumbLdPcSpIs(m, mem, h, instr);
      ThumbMemory.RunLdPcSp(cpu, instr);
  }

  /** Runs format 4, add/subtract and the shift-immediate moves (thumb/DataProcessing.kt, thumb/Random.kt). */
  method RunThumbRegisterGroup(cpu: Cpu, h: ThumbHandler, instr: bv32) returns (ok: bool)
    requires cpu.Valid()
    requires h.ThumbAlu? || h.ThumbAddSub? || h.ThumbMovs?
    modifies cpu
    ensures ok ==> cpu.Valid()
    ensures var e := ThumbEffect(old(cpu.View()), old(cpu.bus.memory), h, instr);
      ok == e.Ok? && (ok ==> cpu.View() == e.value.machine && cpu.bus.memory == e.value.memory)
  {
    ghost var m := cpu.View();
    ghost var mem := cpu.bus.memory;
    ok := true;
    match h
    case ThumbAlu(op) =>
      ThumbAluIs(m, mem, op, h, instr);
      ThumbDataProcessing.RunAlu(cpu, op, instr);
    case ThumbAddSub =>
      ThumbAddSubIs(m, mem, h, instr);
      ThumbRandom.RunAddSub(cpu, instr);
    case ThumbMovs =>
      ThumbMovsIs(m, mem, h, instr);
      ok := ThumbRandom.RunMovs(cpu, instr);
  }

  /** Runs the 8-bit immediate operations (thumb/Immediate.kt). */
  method RunThumbImmediateGroup(cpu: Cpu, h: ThumbHandler, instr: bv32) returns (ok: bool)
    requires cpu.Valid()
    requires h.ThumbMovImm? || h.ThumbCmpImm? || h.ThumbAddImm? || h.ThumbSubImm?
    modifies cpu
    ensures ok ==> cpu.Valid()
    ensures var e := ThumbEffect(old(cpu.View()), old(cpu.bus.memory), h, instr);
      ok == e.Ok? && (ok ==> cpu.View() == e.value.machine && cpu.bus.memory == e.value.memory)
  {
    ghost var m := cpu.View();
    ghost var mem := cpu.bus.memory;
    ok := true;
    match h
    case ThumbMovImm =>
      ThumbMovImmIs(m, mem, h, instr);
      ThumbImmediate.RunMovImm(cpu, instr);
    case ThumbCmpImm =>
      ThumbCmpImmIs(m, mem, h, instr);
      ThumbImmediate.RunCmpImm(cpu, instr);
    case ThumbAddImm =>
      ThumbAddImmIs(m, mem, h, instr);
      ThumbImmediate.RunAddImm(cpu, instr);
    case ThumbSubImm =>
      ThumbSubImmIs(m, mem, h, instr);
      ThumbImmediate.RunSubImm(cpu, instr);
  }
}
