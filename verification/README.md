# spAnGB core, modelled in Dafny

This project models the core of spAnGB, a Game Boy Advance emulator. It covers
the ARM7TDMI processor of the Kotlin emulator and the processor of its Rust
predecessor, plus the memory-mapped devices the processor drives directly:

- the processor state: registers, the two-entry pipeline, the banked register
  sets of each mode, cpsr and spsr;
- the barrel shifter and the flag helpers;
- every ARM and THUMB instruction handler;
- the decode tables that map an opcode to its handler;
- `tick`, which takes pending interrupts and then runs one instruction;
- the event scheduler, the interrupt controller and the DMA channels with their
  address registers;
- the game pak ROM, the Flash backup chip, the wait-state control register and
  VRAM;
- the mosaic register, sprite pixels and the PPU's scanline state machine,
  window selection and layer mixing.

Bit-level values are `bv8`/`bv16`/`bv32`/`bv64`, so the source's 32-bit
wrap-around, its `ushr`/`shr` distinction and its sign tests (`x < 0` on an
`Int`) are written out as bit operations.

The processor appears at two levels:

- **Value level** (`CpuModel`). A `Machine` datatype holds the processor state,
  and each handler is one function from a `Machine` and the memory to a
  `Result<Machine>`. An `Err` stands for the places where the source throws:
  `CPUMode.byMask[...]!!` on an unknown mode, an undefined opcode, and the
  reserved condition.
- **Object level** (`Processor.Cpu`). A class whose methods update its fields in
  place, as the source's `CPU` does. Every method is proved to leave the object
  in the state the value-level function describes, with `View()` tying the two
  together.

The Rust processor is modelled the same way: `RustCpu` at value level and the
`RustCpuState` class at object level.

Where the source updates fields in place, the devices are classes:

- `Scheduler`;
- the interrupt registers;
- `DmaAddress` and the DMA `Channel`;
- `Flash`;
- `WaitstateControl`;
- `MosaicControl`;
- `SpritePixel`;
- `Video` (VRAM);
- `Ppu`.

Each of these classes is specified by pure functions, which also model the
source's pure code.

Each module has its own file, and each file's header comment names the source
file it models.

## Model

| member | source | states |
|---|---|---|
| Extensions.Override | core/src/main/kotlin/spAnGB/utils/Extensions.kt:17 | the bits under the mask come from `with` and every other bit from the old value |
| Extensions.UInt8 | core/src/main/kotlin/spAnGB/utils/Extensions.kt:26 | the result is the low byte of its argument and lies below 0x100 |
| Extensions.UInt16 | core/src/main/kotlin/spAnGB/utils/Extensions.kt:29 | the result is the low halfword of its argument and lies below 0x10000 |
| Extensions.Read8From16 | core/src/main/kotlin/spAnGB/utils/Extensions.kt:35-36 | the result is one byte; which byte is chosen is stated by the read-back contract of `Write8To16` |
| Extensions.Write8To16 | core/src/main/kotlin/spAnGB/utils/Extensions.kt:38-40 | reading back the addressed byte gives the byte written; the other byte is kept; the result fits in 16 bits |
| Extensions.Write8To32Lane0 | core/src/main/kotlin/spAnGB/utils/Extensions.kt:42-44 | a byte written to lane 0 of a 32-bit register reads back from bits 0-7; bits 8-31 are kept |
| Extensions.Write8To32Lane1 | core/src/main/kotlin/spAnGB/utils/Extensions.kt:42-45 | a byte written to lane 1 reads back from bits 8-15; the other three bytes are kept |
| Extensions.Write8To32Lane2 | core/src/main/kotlin/spAnGB/utils/Extensions.kt:42-46 | a byte written to lane 2 reads back from bits 16-23; the other three bytes are kept |
| Extensions.Write8To32Lane3 | core/src/main/kotlin/spAnGB/utils/Extensions.kt:42-47 | a byte written to lane 3 reads back from bits 24-31; the other three bytes are kept |
| Extensions.SetBitAsWrittenIsInverted | core/src/main/kotlin/spAnGB/utils/Extensions.kt:14-16 | as written, `setBit(bit, true)` leaves the bit clear and `setBit(bit, false)` sets it (see Findings) |
| Extensions.SetBit | core/src/main/kotlin/spAnGB/utils/Extensions.kt:16 | corrected `setBit(bit, value)`: afterwards bit `n` equals `value` |
| Extensions.SetBitKeepsOtherBits | core/src/main/kotlin/spAnGB/utils/Extensions.kt:14-16 | corrected `setBit(bit, value)` keeps every bit other than `bit`, as `or(1 shl bit)` and `and((1 shl bit).inv())` do |
| CpuFlags.MasksDisjoint | core/src/main/kotlin/spAnGB/cpu/CPUFlag.kt:3-11 | the seven flag masks N, Z, C, V, I, F, T are pairwise disjoint and lie outside the mode field, bits 0-4 |
| CpuFlags.GetSetSame | core/src/main/kotlin/spAnGB/cpu/CPU.kt:57-61 | after `cpu[flag] = value` the flag reads back as `value` |
| CpuFlags.SetOnlyItsBit | core/src/main/kotlin/spAnGB/cpu/CPU.kt:58-61 | setting a flag changes no bit of cpsr outside that flag's mask |
| CpuFlags.FlagsOfSet | core/src/main/kotlin/spAnGB/cpu/CPU.kt:58-61 | setting one flag changes exactly that flag of the decoded flag record and keeps the mode bits |
| CpuModes.Ordinal | core/src/main/kotlin/spAnGB/cpu/CPUMode.kt:15-22 | the ordinal follows the declaration order, so it is below 7 |
| CpuModes.ModeMaskIsFiveBits | core/src/main/kotlin/spAnGB/cpu/CPUMode.kt:15-22 | every mode encoding is a five-bit value with bit 4 set |
| CpuModes.ModeMasksDistinct | core/src/main/kotlin/spAnGB/cpu/CPUMode.kt:15-22 | the seven mode encodings are pairwise distinct |
| CpuModes.ByMaskOfMask | core/src/main/kotlin/spAnGB/cpu/CPUMode.kt:24-26 | `byMask` finds every mode by its own encoding |
| CpuModes.ByMaskEntries | core/src/main/kotlin/spAnGB/cpu/CPUMode.kt:24-26 | `byMask` has an entry exactly for the seven encodings, and each entry is the mode with that encoding |
| CpuModes.BankedOrdinals | core/src/main/kotlin/spAnGB/cpu/CPU.kt:22 | the modes that have a row of `registerBanks` (IRQ, Supervisor, Abort, Undefined) are exactly those with ordinals 0-3 |
| CpuModes.OrdinalsDistinct | core/src/main/kotlin/spAnGB/cpu/CPUMode.kt:30 | distinct modes have distinct ordinals, so they index distinct rows of `registerBanks` |
| CpuUtils.FlagsOfSetNZ | core/src/main/kotlin/spAnGB/cpu/Utils.kt:33-36 | `negativeAndZero` sets N to bit 31 of the result and Z to result == 0, and changes no other flag and no mode bit |
| CpuUtils.SetKeepsControl | core/src/main/kotlin/spAnGB/cpu/CPU.kt:58-61 | writing N, Z, C or V keeps every control bit of cpsr: I, F, T and the mode |
| CpuUtils.SetNZCVKeepsControl | core/src/main/kotlin/spAnGB/cpu/Utils.kt:25-43 | the flag writes of the arithmetic handlers keep every control bit |
| CpuUtils.FlagsOfSubtract | core/src/main/kotlin/spAnGB/cpu/Utils.kt:25-40 | the subtraction flags set N and Z from the result, C exactly when op1 >= op2 unsigned (`dumbBorrow`), and V by `subOverflow` |
| CpuUtils.FlagsOfCompare | core/src/main/kotlin/spAnGB/cpu/Utils.kt:25-40 | after comparing op1 with op2, Z holds exactly when the operands are equal and C exactly when op1 >= op2 unsigned |
| CpuUtils.FlagsOfAdd | core/src/main/kotlin/spAnGB/cpu/Utils.kt:29-43 | the addition flags set N and Z from the result, C from the carry out of bit 31 (`dumbCarry`), and V by `overflow` |
| CpuUtils.AddOverflowMeaning | core/src/main/kotlin/spAnGB/cpu/Utils.kt:29-31 | `overflow` holds exactly when the operands have the same sign and the result's sign differs from theirs |
| CpuUtils.SubOverflowMeaning | core/src/main/kotlin/spAnGB/cpu/Utils.kt:25-27 | `subOverflow` holds exactly when the operands' signs differ and the result's sign differs from op1's |
| CpuUtils.SubOverflowArmAgrees | core/src/main/kotlin/spAnGB/cpu/arm/DataProcessing.kt:106-108 | the ARM handlers' formula for subtract overflow is the same predicate as `subOverflow` of cpu/Utils.kt |
| CpuUtils.MulCyclesBounds | core/src/main/kotlin/spAnGB/cpu/Utils.kt:7-13 | `idleMul` idles between one and four times: once exactly when the operand is below 0x100, four times exactly when it is at least 0x1000000 |
| CpuUtils.SmulCyclesSignExtendedByte | core/src/main/kotlin/spAnGB/cpu/Utils.kt:15-23 | `idleSmul` idles between one and four times, and once exactly for an operand that is a sign-extended byte |
| CpuUtils.IdleMul | core/src/main/kotlin/spAnGB/cpu/Utils.kt:7-13 | the do-while loop idles `MulCycles(operand)` times, between 1 and 4 |
| CpuUtils.IdleSmul | core/src/main/kotlin/spAnGB/cpu/Utils.kt:15-23 | the do-while loop with the all-ones helper idles `SmulCycles(operand)` times, between 1 and 4 |
| BarrelShifter.RegisterAmount | core/src/main/kotlin/spAnGB/cpu/arm/BarrelShifter.kt:41 | a register-specified amount is the low byte of the register named by bits 4-7, so it is below 256 |
| BarrelShifter.ImmediateAmount | core/src/main/kotlin/spAnGB/cpu/arm/BarrelShifter.kt:43 | an immediate amount is bits 3-7 of the operand field, so it is below 32 |
| BarrelShifter.ArithmeticRightFillsWithSign | core/src/main/kotlin/spAnGB/cpu/arm/BarrelShifter.kt:22-26 | ASR by 32 or more gives all ones for a negative value and zero otherwise, with the sign bit as the carry |
| BarrelShifter.ArithmeticRightOfNonNegative | core/src/main/kotlin/spAnGB/cpu/arm/BarrelShifter.kt:16-26 | on a value with bit 31 clear, ASR and LSR give the same value and carry for every amount |
| BarrelShifter.RotateRightByMultipleOf32 | core/src/main/kotlin/spAnGB/cpu/arm/BarrelShifter.kt:28-31 | a nonzero rotation by a multiple of 32 keeps the value and sets the carry to its bit 31 |
| BarrelShifter.RotateRightExtendedUndo | core/src/main/kotlin/spAnGB/cpu/arm/BarrelShifter.kt:33-36 | RRX loses no information: rotating its result back left through the carry restores the input and the old C, and bit 31 of the result is the old C |
| BarrelShifter.LogicalLeftByOne | core/src/main/kotlin/spAnGB/cpu/arm/BarrelShifter.kt:10-14 | LSL by one doubles the value modulo 2^32 and carries out bit 31 |
| BarrelShifter.OperandImmediateZero | core/src/main/kotlin/spAnGB/cpu/arm/BarrelShifter.kt:38-64 | an encoded immediate amount of 0 means LSL #0 (value and C unchanged), LSR #32, ASR #32 or RRX, according to the shift type |
| BarrelShifter.OperandRegisterAmount | core/src/main/kotlin/spAnGB/cpu/arm/BarrelShifter.kt:38-64 | a register-specified amount is the low byte of Rs, applied with no special case for 0 or 32 |
| Conditions.IsCondition | src/core/cpu/cpu.rs:159-179 | the result is an error exactly for conditions 0xF and above, where the source panics |
| Conditions.ConditionPairsComplement | src/core/cpu/cpu.rs:159-179 | the conditions come in complementary pairs: each odd code below 0xE holds exactly when the even code below it does not |
| Conditions.ConditionReadsOnlyNZCV | src/core/cpu/cpu.rs:159-179 | only N, Z, C and V matter: status words that agree on those four flags agree on every condition |
| Conditions.CompareThenEqual | src/core/cpu/cpu.rs:159-179 | after the flags of a comparison a - b, EQ holds exactly when a == b |
| Conditions.CompareThenCarrySet | src/core/cpu/cpu.rs:159-179 | after the flags of a comparison a - b, CS holds exactly when a >= b unsigned |
| Conditions.CompareThenHigher | src/core/cpu/cpu.rs:159-179 | after the flags of a comparison a - b, HI holds exactly when a > b unsigned |
| CpuProperties.ArmRefillCoherent | core/src/main/kotlin/spAnGB/cpu/CPU.kt:236-242 | `armRefill` leaves pc at the old pc aligned down to 4 plus 4, with the words at pc - 4 and pc in the pipeline head and next entry (a coherent pipeline); it changes nothing but pc and the pipeline |
| CpuProperties.ThumbRefillCoherent | core/src/main/kotlin/spAnGB/cpu/CPU.kt:221-227 | `thumbRefill` leaves pc at the old pc aligned down to 2 plus 2, with a coherent pipeline of halfwords; it changes nothing but pc and the pipeline |
| CpuProperties.StepKeepsCoherent | core/src/main/kotlin/spAnGB/cpu/CPU.kt:229-249 | a step moves the fetched instruction into the head and advances pc by one instruction (4 or 2); a coherent pipeline stays coherent |
| CpuProperties.ArmStepShifts | core/src/main/kotlin/spAnGB/cpu/CPU.kt:244-249 | `armStep`: the old next entry becomes the head, pc grows by 4, r0-r14 are kept |
| CpuProperties.ThumbStepShifts | core/src/main/kotlin/spAnGB/cpu/CPU.kt:229-234 | `thumbStep`: the old next entry becomes the head, pc grows by 2, r0-r14 are kept |
| CpuProperties.SetRegisterPcRefills | core/src/main/kotlin/spAnGB/cpu/CPU.kt:89-98 | `setRegister(15, v)` refills for the current state: pc ends one instruction past `v` aligned down, and the pipeline is coherent |
| CpuProperties.SetPcLandsAt | core/src/main/kotlin/spAnGB/cpu/CPU.kt:89-98 | `setRegister(15, v)` leaves pc one instruction past `v` aligned down for the current state |
| CpuProperties.RefillLandsAt | core/src/main/kotlin/spAnGB/cpu/CPU.kt:221-242 | a refill leaves pc one instruction past the old pc aligned down for the current state |
| CpuProperties.SetRegisterPlain | core/src/main/kotlin/spAnGB/cpu/CPU.kt:89-98 | `setRegister(i, v)` with i < 15 writes register i and changes nothing else |
| CpuProperties.SetCpuModeEffect | core/src/main/kotlin/spAnGB/cpu/CPU.kt:135-193 | a mode switch sets the mode, puts the new mode's encoding into cpsr bits 0-4 and keeps every other cpsr bit; r0-r7, pc, the pipeline and the state are untouched; switching to the current mode changes nothing |
| CpuProperties.WithModeBitsEffect | core/src/main/kotlin/spAnGB/cpu/CPU.kt:190 | `(cpsr and 0x1F.inv()) or value.mask` puts the mode's encoding into bits 0-4 and keeps every other bit, so every flag |
| CpuProperties.InterruptEntry | core/src/main/kotlin/spAnGB/cpu/CPU.kt:195-219 | interrupt entry happens exactly when I is clear, IME is set and `ir & ie & 0x3FFF` is nonzero; it enters IRQ mode with spsr = the old cpsr, lr = pc (+2 in THUMB state), I set, T clear, the other flags kept, ARM state, pc 0x1C with a coherent pipeline, r0-r7 kept and the halt cleared; otherwise nothing changes |
| CpuProperties.ChangeStateEffect | core/src/main/kotlin/spAnGB/cpu/CPU.kt:125-133 | `changeState`: the state and T follow the bit, no other flag or mode bit changes, r0-r14 and the mode are kept, and the pipeline is refilled coherently for the new state |
| CpuBanks.SwitchStatus | core/src/main/kotlin/spAnGB/cpu/CPU.kt:190-191 | a real mode switch writes the target's encoding into cpsr bits 0-4 and sets the mode |
| CpuBanks.SwitchKeepsLow | core/src/main/kotlin/spAnGB/cpu/CPU.kt:135-193 | a mode switch never touches r0-r7 or pc |
| CpuBanks.SwitchKeepsRest | core/src/main/kotlin/spAnGB/cpu/CPU.kt:135-193 | a mode switch leaves the pipeline, the state, the shifter carry and the halt flag alone |
| CpuBanks.SaveOwnRow | core/src/main/kotlin/spAnGB/cpu/CPU.kt:151-159 | leaving a banked mode parks its r13, r14 and spsr in its own row of `registerBanks` |
| CpuBanks.SaveOtherRow | core/src/main/kotlin/spAnGB/cpu/CPU.kt:137-160 | leaving any mode leaves the `registerBanks` row of every other mode alone |
| CpuBanks.SaveUser | core/src/main/kotlin/spAnGB/cpu/CPU.kt:138-143 | leaving User or System parks r8-r14 in `_registers` |
| CpuBanks.SaveFiq | core/src/main/kotlin/spAnGB/cpu/CPU.kt:144-150 | leaving FIQ parks r8-r14 in `fastIrqRegisters` and spsr in `fastIrqSpsr`, keeping `_registers` |
| CpuBanks.SaveShared | core/src/main/kotlin/spAnGB/cpu/CPU.kt:151-155 | leaving a banked mode parks r8-r12 in `_registers`, keeps its last two entries, and keeps the FIQ set |
| CpuBanks.RestoreUser | core/src/main/kotlin/spAnGB/cpu/CPU.kt:163-170 | entering User or System brings r8-r14 back from `_registers` |
| CpuBanks.RestoreFiq | core/src/main/kotlin/spAnGB/cpu/CPU.kt:171-177 | entering FIQ brings r8-r14 back from `fastIrqRegisters` and spsr from `fastIrqSpsr` |
| CpuBanks.RestoreRow | core/src/main/kotlin/spAnGB/cpu/CPU.kt:178-187 | entering a banked mode brings r8-r12 from `_registers`, and r13, r14 and spsr from its row |
| CpuBanks.TripFromBanked | core/src/main/kotlin/spAnGB/cpu/CPU.kt:135-193 | a banked mode's r13, r14 and spsr survive a trip to any other mode and back, whatever that mode does to the visible registers and spsr |
| CpuBanks.TripFromFiq | core/src/main/kotlin/spAnGB/cpu/CPU.kt:135-193 | FIQ's r8-r14 and spsr survive any trip to another mode and back |
| CpuBanks.TripFromUser | core/src/main/kotlin/spAnGB/cpu/CPU.kt:135-193 | User or System r13 and r14 survive a trip to a privileged mode and back |
| CpuBanks.BankedRoundTrip | core/src/main/kotlin/spAnGB/cpu/CPU.kt:135-193 | banked registers survive a trip to another mode and back: r13 and r14 always, spsr for every mode that has one, and r8-r12 when either side is FIQ |
| Processor.Cpu.constructor | core/src/main/kotlin/spAnGB/cpu/CPU.kt:15-75 | a new processor is in the initial state: registers, banks, pipeline, cpsr and spsr zero, System mode, ARM state |
| Processor.Cpu.SetFlag | core/src/main/kotlin/spAnGB/cpu/CPU.kt:57-61 | `cpu[flag] = value` leaves the object in the state `CpuModel.SetFlag` describes (see CpuFlags.GetSetSame and SetOnlyItsBit) |
| Processor.Cpu.NegativeAndZero | core/src/main/kotlin/spAnGB/cpu/Utils.kt:33-36 | only cpsr changes, to `SetNZ` of the old cpsr (see CpuUtils.FlagsOfSetNZ) |
| Processor.Cpu.ArmRefill | core/src/main/kotlin/spAnGB/cpu/CPU.kt:236-242 | the new state is `CpuModel.ArmRefill` of the old state and the bus (see CpuProperties.ArmRefillCoherent) |
| Processor.Cpu.ThumbRefill | core/src/main/kotlin/spAnGB/cpu/CPU.kt:221-227 | the new state is `CpuModel.ThumbRefill` of the old state (see CpuProperties.ThumbRefillCoherent) |
| Processor.Cpu.ArmStep | core/src/main/kotlin/spAnGB/cpu/CPU.kt:244-249 | the new state is `CpuModel.ArmStep` of the old state (see CpuProperties.StepKeepsCoherent) |
| Processor.Cpu.ThumbStep | core/src/main/kotlin/spAnGB/cpu/CPU.kt:229-234 | the new state is `CpuModel.ThumbStep` of the old state (see CpuProperties.StepKeepsCoherent) |
| Processor.Cpu.SetRegister | core/src/main/kotlin/spAnGB/cpu/CPU.kt:89-98 | the new state is `CpuModel.SetRegister` of the old state (see CpuProperties.SetRegisterPcRefills and SetRegisterPlain) |
| CpuModel.SetRegister | core/src/main/kotlin/spAnGB/cpu/CPU.kt:89-98 | as written: the write, and a refill for the current state when the index is 15; the machine stays well formed |
| Processor.Cpu.ChangeState | core/src/main/kotlin/spAnGB/cpu/CPU.kt:125-133 | the new state is `CpuModel.ChangeState` of the old state (see CpuProperties.ChangeStateEffect) |
| Processor.Cpu.SaveBank | core/src/main/kotlin/spAnGB/cpu/CPU.kt:137-160 | the new state is `CpuModel.SaveBank` of the old state (see CpuBanks.SaveOwnRow, SaveUser, SaveFiq) |
| Processor.Cpu.RestoreBank | core/src/main/kotlin/spAnGB/cpu/CPU.kt:162-188 | the new state is `CpuModel.RestoreBank` of the old state (see CpuBanks.RestoreUser, RestoreFiq, RestoreRow) |
| Processor.Cpu.SetCpuMode | core/src/main/kotlin/spAnGB/cpu/CPU.kt:135-193 | the new state is `CpuModel.SetCpuMode` of the old state (see CpuProperties.SetCpuModeEffect and CpuBanks.BankedRoundTrip) |
| CpuModel.SetCpuMode | core/src/main/kotlin/spAnGB/cpu/CPU.kt:135-193 | as written: nothing when already in that mode, otherwise save the old bank, restore the new one and write the mode bits; the machine stays well formed |
| Processor.Cpu.EnterVector | core/src/main/kotlin/spAnGB/cpu/CPU.kt:207-212 | the new state is `CpuModel.EnterVector` of the old state: pc 0x18, lr = link, spsr = the saved cpsr, I set, T clear, ARM state |
| Processor.Cpu.HandlePendingInterrupts | core/src/main/kotlin/spAnGB/cpu/CPU.kt:195-219 | the new state is `CpuModel.HandlePendingInterrupts` of the old state and the interrupt inputs (see CpuProperties.InterruptEntry) |
| CpuModel.HandlePendingInterrupts | core/src/main/kotlin/spAnGB/cpu/CPU.kt:195-219 | as written, with IME, IE and IR as parameters: IRQ mode, lr = the return address, spsr = the old cpsr, I set, ARM state, pc = 0x18 with a refill, and the halt cleared; the machine stays well formed |
| ArmBranch.ExtendIsSignedWordOffset | core/src/main/kotlin/spAnGB/cpu/arm/Branch.kt:10 | `extend()` (shift left by 8, then arithmetic right by 6) is the 24-bit immediate, sign-extended, times 4 |
| ArmBranch.BLandsAt | core/src/main/kotlin/spAnGB/cpu/arm/Branch.kt:20-26 | B lands one word past pc + the sign-extended offset × 4, aligned down |
| ArmBranch.BKeeps | core/src/main/kotlin/spAnGB/cpu/arm/Branch.kt:20-26 | B changes no register but pc, and does not change cpsr, spsr, the mode or the state |
| ArmBranch.BCoherent | core/src/main/kotlin/spAnGB/cpu/arm/Branch.kt:20-26 | in ARM state B leaves a coherent pipeline |
| ArmBranch.BlLinks | core/src/main/kotlin/spAnGB/cpu/arm/Branch.kt:28-35 | BL sets lr to pc - 4, the instruction after the BL, and lands where B lands from the same pc |
| ArmBranch.BSamePc | core/src/main/kotlin/spAnGB/cpu/arm/Branch.kt:20-26 | B's target depends only on pc |
| ArmBranch.BxState | core/src/main/kotlin/spAnGB/cpu/arm/Branch.kt:12-18 | BX: the state and T follow bit 0 of Rm, the mode is kept and the pipeline is coherent |
| ArmBranch.BxPc | core/src/main/kotlin/spAnGB/cpu/arm/Branch.kt:12-18 | BX lands one instruction past Rm aligned down for the state bit 0 of Rm selects |
| ArmBranch.SwiStatus | core/src/main/kotlin/spAnGB/cpu/arm/Branch.kt:37-51 | SWI enters Supervisor mode with spsr = the old cpsr, I set, every other flag kept, and Supervisor's encoding in cpsr bits 0-4 |
| ArmBranch.SwiRegisters | core/src/main/kotlin/spAnGB/cpu/arm/Branch.kt:37-51 | SWI sets lr to pc - 4, runs from the vector 8 (pc 0xC after the refill) and keeps r0-r7 |
| ArmBranch.RunBx | core/src/main/kotlin/spAnGB/cpu/arm/Branch.kt:12-18 | `armBx` on the processor leaves it in the state `Bx` describes (see BxState, BxPc) |
| ArmBranch.Bx | core/src/main/kotlin/spAnGB/cpu/arm/Branch.kt:12-18 | as written: pc takes Rm and the state follows its bit 0; the machine stays well formed |
| ArmBranch.RunB | core/src/main/kotlin/spAnGB/cpu/arm/Branch.kt:20-26 | `armB` on the processor leaves it in the state `B` describes (see BLandsAt, BKeeps) |
| ArmBranch.B | core/src/main/kotlin/spAnGB/cpu/arm/Branch.kt:20-26 | as written: pc moves by the sign-extended word offset and the ARM pipeline is refilled; the machine stays well formed |
| ArmBranch.RunBl | core/src/main/kotlin/spAnGB/cpu/arm/Branch.kt:28-35 | `armBl` on the processor leaves it in the state `Bl` describes (see BlLinks) |
| ArmBranch.Bl | core/src/main/kotlin/spAnGB/cpu/arm/Branch.kt:28-35 | as written: lr takes pc - 4, then as `B`; the machine stays well formed |
| ArmBranch.RunSwi | core/src/main/kotlin/spAnGB/cpu/arm/Branch.kt:37-51 | `armSwi` on the processor leaves it in the state `Swi` describes (see SwiStatus, SwiRegisters) |
| ArmBranch.Swi | core/src/main/kotlin/spAnGB/cpu/arm/Branch.kt:37-51 | as written: Supervisor mode, lr = pc - 4, spsr = the old cpsr, I set, pc = 8 and a refill; the machine stays well formed |
| ArmDataProcessing.RotationIsTwiceField | core/src/main/kotlin/spAnGB/cpu/arm/DataProcessing.kt:45 | the rotation of an immediate operand, `(instruction and 0xF00) ushr 7`, is twice the four-bit field in bits 8-11 |
| ArmDataProcessing.PreparedKeeps | core/src/main/kotlin/spAnGB/cpu/arm/DataProcessing.kt:28-52 | `initialize` changes nothing but the shifter carry: pc returns to where it was after the register-shift case |
| ArmDataProcessing.RegisterShiftReadsPcAhead | core/src/main/kotlin/spAnGB/cpu/arm/DataProcessing.kt:34-42 | with a register-shifted operand, an Rn or Rm of 15 reads pc + 4 |
| ArmDataProcessing.ImmediateCarryIsSign | core/src/main/kotlin/spAnGB/cpu/arm/DataProcessing.kt:43-46 | a rotated immediate sets the shifter carry to bit 31 of the rotated value |
| ArmDataProcessing.ImmediateWithoutRotation | core/src/main/kotlin/spAnGB/cpu/arm/DataProcessing.kt:43-46 | an immediate with rotation 0 is the low byte itself, and C passes through as the shifter carry |
| ArmDataProcessing.LogicalWrites | core/src/main/kotlin/spAnGB/cpu/arm/DataProcessing.kt:152-219 | AND, EOR, ORR, BIC and MVN with Rd other than 15 write their result to Rd and leave every other register |
| ArmDataProcessing.LogicalFlags | core/src/main/kotlin/spAnGB/cpu/arm/DataProcessing.kt:79-86 | the logical operations set N and Z from the result and C from the shifter when bit 20 is set, keep V, and change no flag without bit 20 |
| ArmDataProcessing.TestFlags | core/src/main/kotlin/spAnGB/cpu/arm/DataProcessing.kt:168-182 | TST and TEQ with Rd other than 15 succeed, change no register, and set N, Z and C as the logical operations do |
| ArmDataProcessing.CompareFlags | core/src/main/kotlin/spAnGB/cpu/arm/DataProcessing.kt:291-311 | CMP and CMN with Rd other than 15 succeed, change no register, and set N, Z, C and V from the subtraction or addition |
| ArmDataProcessing.TestRestoreEffect | core/src/main/kotlin/spAnGB/cpu/arm/DataProcessing.kt:60-69 | a test with Rd = 15 fails exactly when spsr bits 0-4 name no mode; otherwise the mode becomes the one they name, cpsr becomes the spsr of that new mode, the state follows its T bit, and r0-r7 and pc are kept |
| ArmDataProcessing.WriteBackWrites | core/src/main/kotlin/spAnGB/cpu/arm/DataProcessing.kt:192-233 | MOV and SUB with Rd other than 15 write their value to Rd, and cpsr takes the new flags exactly when bit 20 is set |
| ArmDataProcessing.MoveWrites | core/src/main/kotlin/spAnGB/cpu/arm/DataProcessing.kt:192-203 | MOV with Rd other than 15 writes the second operand to Rd and sets N, Z and C as the logical operations do |
| ArmDataProcessing.SubtractWrites | core/src/main/kotlin/spAnGB/cpu/arm/DataProcessing.kt:221-234 | SUB with Rd other than 15 writes the difference to Rd and, with bit 20, sets N, Z, C and V from it |
| ArmDataProcessing.AccumulateWrites | core/src/main/kotlin/spAnGB/cpu/arm/DataProcessing.kt:236-289 | RSB, ADD, ADC, SBC and RSC with Rd other than 15 write their value to Rd and, with bit 20, set N, Z, C and V from it |
| ArmDataProcessing.SubtractOverflowMeaning | core/src/main/kotlin/spAnGB/cpu/arm/DataProcessing.kt:106-108 | the V of SUB holds exactly when the operands' signs differ and the difference's sign differs from the first operand's |
| ArmDataProcessing.MoveReturns | core/src/main/kotlin/spAnGB/cpu/arm/DataProcessing.kt:88-100 | MOV with bit 20 and Rd = 15 fails exactly when spsr bits 0-4 name no mode; otherwise cpsr = the old spsr, the mode and state are the ones it names, and pc lands one instruction past the second operand |
| ArmDataProcessing.SubtractReturns | core/src/main/kotlin/spAnGB/cpu/arm/DataProcessing.kt:221-234 | SUB with bit 20 and Rd = 15 returns from an exception as MOV does, to the difference |
| ArmDataProcessing.ReturnFromSpsrEffect | core/src/main/kotlin/spAnGB/cpu/arm/DataProcessing.kt:88-100 | `checkDestinationPC` fails exactly when spsr names no mode, and otherwise returns to the mode, state and cpsr spsr held, at the result |
| ArmDataProcessing.RestoreLands | core/src/main/kotlin/spAnGB/cpu/arm/DataProcessing.kt:91-96 | restoring from spsr lands on the mode and state spsr names, one instruction past pc |
| ArmDataProcessing.MrsReadsStatus | core/src/main/kotlin/spAnGB/cpu/arm/DataProcessing.kt:313-323 | MRS with Rd other than 15 copies spsr (bit 22 set) or cpsr into Rd and changes neither status word |
| ArmDataProcessing.SwitchToStatusModeFails | core/src/main/kotlin/spAnGB/cpu/arm/DataProcessing.kt:347 | `setCPUMode(CPUMode.byMask[cpsr and 0x1F]!!)` fails exactly when cpsr bits 0-4 name no mode |
| ArmDataProcessing.SwitchToStatusModeEffect | core/src/main/kotlin/spAnGB/cpu/arm/DataProcessing.kt:347 | otherwise it keeps the cpsr that named the mode and the mode becomes the one named |
| ArmDataProcessing.WithOwnModeBits | core/src/main/kotlin/spAnGB/cpu/CPU.kt:190 | writing a status word's own mode bits back into it changes nothing |
| ArmDataProcessing.MsrWritesSpsr | core/src/main/kotlin/spAnGB/cpu/arm/DataProcessing.kt:341-344 | MSR to spsr merges exactly the masked bits of the source into spsr and leaves cpsr and the mode alone |
| ArmDataProcessing.MsrCpsrFails | core/src/main/kotlin/spAnGB/cpu/arm/DataProcessing.kt:345-348 | MSR to cpsr fails exactly when the merged cpsr names no mode |
| ArmDataProcessing.MsrWritesCpsr | core/src/main/kotlin/spAnGB/cpu/arm/DataProcessing.kt:345-348 | otherwise cpsr holds the masked bits of the source and its own other bits, and the mode is the one it names |
| ArmDataProcessing.MsrUserMask | core/src/main/kotlin/spAnGB/cpu/arm/DataProcessing.kt:333-334 | in User mode MSR reaches only the condition flags, bits 28-31 |
| ArmDataProcessing.MsrPrivilegedMask | core/src/main/kotlin/spAnGB/cpu/arm/DataProcessing.kt:335-338 | outside User mode, byte k of the mask is all ones exactly when bit 16 + k of the instruction is set |
| ArmDataProcessing.MsrAfterMrs | core/src/main/kotlin/spAnGB/cpu/arm/DataProcessing.kt:313-350 | in a privileged mode, MRS of spsr followed by MSR of that register back to spsr with all four bytes selected restores spsr |
| ArmDataProcessing.RunInitialize | core/src/main/kotlin/spAnGB/cpu/arm/DataProcessing.kt:28-52 | `initialize` on the processor returns the operands and leaves the state that `Prepared` describes |
| ArmDataProcessing.RunDataProcessing | core/src/main/kotlin/spAnGB/cpu/arm/DataProcessing.kt:146-311 | one data-processing instruction on the processor leaves it in the state `Execute` describes, and reports false exactly where that is an error (where the source throws) |
| ArmDataProcessing.Execute | core/src/main/kotlin/spAnGB/cpu/arm/DataProcessing.kt:146-311 | as written: `initialize`, then the opcode's operation; an `Err` exactly where the source throws, and otherwise a well-formed machine |
| ArmDataProcessing.RunMrs | core/src/main/kotlin/spAnGB/cpu/arm/DataProcessing.kt:313-323 | `armMrs` on the processor leaves it in the state `Mrs` describes (see MrsReadsStatus) |
| ArmDataProcessing.Mrs | core/src/main/kotlin/spAnGB/cpu/arm/DataProcessing.kt:313-323 | as written: `initialize`, then Rd = spsr with bit 22, else cpsr; the machine stays well formed |
| ArmDataProcessing.RunMsr | core/src/main/kotlin/spAnGB/cpu/arm/DataProcessing.kt:325-351 | `armMsr` on the processor leaves it in the state `Msr` describes, and reports false exactly where `byMask` throws |
| ArmDataProcessing.Msr | core/src/main/kotlin/spAnGB/cpu/arm/DataProcessing.kt:325-351 | as written: the masked bits into spsr (bit 22) or cpsr, a cpsr write switching to the mode it names; an `Err` where `byMask` throws, and otherwise a well-formed machine |
| ArmMultiply.MulWrites | core/src/main/kotlin/spAnGB/cpu/arm/Multiplication.kt:11-36 | MUL and MLA write their result to Rd; with Rd other than pc, no other register changes |
| ArmMultiply.MulFlags | core/src/main/kotlin/spAnGB/cpu/arm/Multiplication.kt:30-34 | with bit 20, MUL and MLA clear C, set Z and N from the result and keep V; without it no flag changes |
| ArmMultiply.JoinHalves | core/src/main/kotlin/spAnGB/cpu/arm/Multiplication.kt:48 | splitting a `Long` into its halves and joining them gives it back |
| ArmMultiply.HalvesOfJoin | core/src/main/kotlin/spAnGB/cpu/arm/Multiplication.kt:48 | joining two words and splitting the result gives them back |
| ArmMultiply.WidenHalves | core/src/main/kotlin/spAnGB/cpu/arm/Multiplication.kt:53-54 | `uLong` and `toLong` keep the word as the low half; the high half is all zero, or all ones for a negative word under `toLong` |
| ArmMultiply.LowWordOfProduct | core/src/main/kotlin/spAnGB/cpu/arm/Multiplication.kt:26 | Kotlin's `Int` product `rm * rs` is the low word of the wrapping `Long` product (`Times64`, which is Kotlin's `*` on `Long`) of the zero-extended words, so MUL's value `Low(Times64(..)) + rn` is `rm * rs + rn` on `Int` |
| ArmMultiply.MulLongWrites | core/src/main/kotlin/spAnGB/cpu/arm/Multiplication.kt:38-94 | with distinct destinations below pc, RdLo gets bits 0-31 and RdHi bits 32-63 of the 64-bit result, and no other register changes |
| ArmMultiply.MulLongSameDestination | core/src/main/kotlin/spAnGB/cpu/arm/Multiplication.kt:57-58 | when RdLo and RdHi are the same register it ends up holding the high half, which is written last |
| ArmMultiply.AccumulateReadsBack | core/src/main/kotlin/spAnGB/cpu/arm/Multiplication.kt:45-58 | the register pair a long multiply writes reads back as its whole result, so a following UMLAL/SMLAL on the same pair accumulates exactly that 64-bit value |
| ArmMultiply.MulIsLowWordOfUmull | core/src/main/kotlin/spAnGB/cpu/arm/Multiplication.kt:11-65 | MUL computes the low word of the UMULL product of the same operands |
| ArmMultiply.SignedAgreesOnNonNegative | core/src/main/kotlin/spAnGB/cpu/arm/Multiplication.kt:38-94 | when neither operand has bit 31 set, SMULL and UMULL compute the same product |
| ArmMultiply.MulLongFlags | core/src/main/kotlin/spAnGB/cpu/arm/Multiplication.kt:38-94 | with bit 20, Z says the whole 64-bit result is zero and N is its bit 63; C and V are kept; without bit 20 no flag changes |
| ArmMultiply.RunMul | core/src/main/kotlin/spAnGB/cpu/arm/Multiplication.kt:11-36 | `armMulMla` on the processor leaves it in the state `Mul` describes (see MulWrites, MulFlags) |
| ArmMultiply.RunMulLong | core/src/main/kotlin/spAnGB/cpu/arm/Multiplication.kt:38-94 | `armUmullUmlal` and `armSmullSmlal` on the processor leave it in the state `MulLong` describes (see MulLongWrites, MulLongFlags) |
| Transfers.StoreThenLoadWord | core/src/main/kotlin/spAnGB/cpu/arm/Memory.kt:72-75 | a word stored at an aligned address is loaded back unchanged by the rotating word load |
| Transfers.StoreThenLoadHalf | core/src/main/kotlin/spAnGB/cpu/arm/Memory.kt:139 | a halfword stored at an even address is loaded back as its low 16 bits |
| Transfers.LoadWordLowByte | core/src/main/kotlin/spAnGB/cpu/arm/Memory.kt:87 | a misaligned word load, rotated right by 8 × (address and 3), brings the addressed byte to bits 0-7 |
| Transfers.LoadHalfLowByte | core/src/main/kotlin/spAnGB/cpu/arm/Memory.kt:139 | at any address, even or odd, the low byte of the rotating halfword load is the addressed byte |
| Transfers.LoadSignedHalfOdd | core/src/main/kotlin/spAnGB/cpu/arm/Memory.kt:141 | a signed halfword load from an odd address is the addressed byte, sign-extended |
| Transfers.RankIncreases | core/src/main/kotlin/spAnGB/cpu/arm/Memory.kt:182-185 | in a register list, a listed register comes before every later register, so block transfers give each listed register its own slot |
| Transfers.WordsSum | core/src/main/kotlin/spAnGB/cpu/arm/Memory.kt:227-237 | moving q + d words from a base is moving q words and then d more |
| Transfers.WordsApart | core/src/main/kotlin/spAnGB/cpu/arm/Memory.kt:227-237 | two slots of one block, q and q + d words from its base with 0 < d <= 16, lie in different words |
| Transfers.LoadLowKeeps | core/src/main/kotlin/spAnGB/cpu/thumb/Memory.kt:205-211 | a register the POP/LDMIA load loop does not load keeps its value |
| Transfers.LoadLowListed | core/src/main/kotlin/spAnGB/cpu/thumb/Memory.kt:205-211 | the POP/LDMIA load loop loads listed register j from the slot of its rank |
| Transfers.StoreLowListed | core/src/main/kotlin/spAnGB/cpu/thumb/Memory.kt:181-187 | once the PUSH/STMIA store loop is done, listed register j's value is in the slot of its rank |
| Transfers.StoreLowBelow | core/src/main/kotlin/spAnGB/cpu/thumb/Memory.kt:181-187 | the store loop leaves a word below the slots it still writes alone |
| ArmTransfer.WriteBack | core/src/main/kotlin/spAnGB/cpu/arm/Memory.kt:32-35 | `saveAddressWithOffsetIfEnabled`: the base gets the indexed address exactly when post-indexed or bit 21 is set, and no other register changes |
| ArmTransfer.LdrAsWritten | core/src/main/kotlin/spAnGB/cpu/arm/Memory.kt:81-93 | as written, the destination is a plain array write: a load into r15 moves pc without refilling the pipeline (see Findings) |
| ArmTransfer.LdrAsWrittenKeepsPipeline | core/src/main/kotlin/spAnGB/cpu/arm/Memory.kt:90 | as written, LDR into pc leaves the pipeline as it was and sets pc to the loaded value, so the next instruction run is the one fetched before the load |
| ArmTransfer.LdrPcCounterexample | core/src/main/kotlin/spAnGB/cpu/arm/Memory.kt:81-93 | `LDR pc, [r0]` from the reset state with r0 = 0 and the word 1 at address 0: as written the next head is the stale 0; the corrected load's head is 1 |
| ArmTransfer.Ldr | core/src/main/kotlin/spAnGB/cpu/arm/Memory.kt:81-93 | corrected `armLdr` with the destination written by `setRegister`; its contract keeps the processor state well formed, and LdrRegisters, LdrPcBranches and LdrShifterCarry state its effect |
| ArmTransfer.LdrRegisters | core/src/main/kotlin/spAnGB/cpu/arm/Memory.kt:81-93 | LDR into a register below pc: the loaded value lands in Rd, the base gets the indexed address exactly when post-indexed or bit 21 is set, the load wins when Rd is the base, and no other register changes |
| ArmTransfer.LdrAlignedWord | core/src/main/kotlin/spAnGB/cpu/arm/Memory.kt:87 | a word LDR from an aligned address reads the word there unrotated |
| ArmTransfer.LdrShifterCarry | core/src/main/kotlin/spAnGB/cpu/arm/Memory.kt:13-18 | an immediate offset leaves `shifterCarry` alone; a register offset leaves the shifter's carry-out there |
| ArmTransfer.LdrPcBranches | core/src/main/kotlin/spAnGB/cpu/arm/Memory.kt:81-93 | corrected LDR into pc branches: pc lands one word past the loaded value aligned down, with a coherent pipeline |
| ArmTransfer.StrStores | core/src/main/kotlin/spAnGB/cpu/arm/Memory.kt:95-131 | STR stores Rd (pc + 4 when Rd is r15) as a byte or word at the indexed address (pre) or the base (post), and nothing else |
| ArmTransfer.StrRegisters | core/src/main/kotlin/spAnGB/cpu/arm/Memory.kt:95-131 | STR restores pc and changes no register except a written-back base below pc, which gets the indexed address |
| ArmTransfer.StrThenLdr | core/src/main/kotlin/spAnGB/cpu/arm/Memory.kt:81-131 | STR then LDR of a word through the same base and immediate offset, pre-indexed without write-back, at an aligned address, loads the stored register back |
| ArmTransfer.LdrhsbRegisters | core/src/main/kotlin/spAnGB/cpu/arm/Memory.kt:133-148 | LDRH/LDRSB/LDRSH land in Rd over a written-back base; no other register changes |
| ArmTransfer.LdrhEven | core/src/main/kotlin/spAnGB/cpu/arm/Memory.kt:139 | an unsigned halfword load at an even address is the halfword there, zero-extended |
| ArmTransfer.LdrsbExtends | core/src/main/kotlin/spAnGB/cpu/arm/Memory.kt:140 | a signed byte load copies bit 7 of the byte into bits 8-31 |
| ArmTransfer.StrhThenLoad | core/src/main/kotlin/spAnGB/cpu/arm/Memory.kt:133-180 | a halfword that STRH stores at an even address is read back by LDRH as its low 16 bits, and by LDRSH sign-extended |
| ArmTransfer.StrhsbRegisters | core/src/main/kotlin/spAnGB/cpu/arm/Memory.kt:150-180 | STRH-kind stores restore pc and change no register except a written-back base below pc |
| ArmTransfer.SwpExchangesWord | core/src/main/kotlin/spAnGB/cpu/arm/Memory.kt:59-79 | a word SWP at an aligned address exchanges: Rd gets the old word and memory gets Rm's old value |
| ArmTransfer.SwpExchangesByte | core/src/main/kotlin/spAnGB/cpu/arm/Memory.kt:59-79 | a byte SWP gives Rd the old byte at [Rn], zero-extended, and stores the low byte of Rm there |
| ArmTransfer.RunLdr | core/src/main/kotlin/spAnGB/cpu/arm/Memory.kt:81-93 | corrected `armLdr` on the processor leaves it in the state `Ldr` describes, refilling the pipeline after a load of r15 |
| ArmTransfer.RunLdrAsWritten | core/src/main/kotlin/spAnGB/cpu/arm/Memory.kt:81-93 | `armLdr` as written on the processor leaves it in the state `LdrAsWritten` describes: Rd, r15 included, written without a refill |
| ArmTransfer.RunLdrhsb | core/src/main/kotlin/spAnGB/cpu/arm/Memory.kt:133-148 | `armLdrhsb` on the processor leaves it in the state `Ldrhsb` describes |
| ArmTransfer.Ldrhsb | core/src/main/kotlin/spAnGB/cpu/arm/Memory.kt:133-148 | as written: the load by kind, the write-back, then a plain write of Rd, without a refill for r15; the machine stays well formed |
| ArmTransfer.RunStr | core/src/main/kotlin/spAnGB/cpu/arm/Memory.kt:95-131 | `armStr` on the processor leaves the state and memory that `Str` describes |
| ArmTransfer.Str | core/src/main/kotlin/spAnGB/cpu/arm/Memory.kt:95-131 | as written: with pc ahead by 4, the byte or word store at the indexed address or the base, then pc back and the write-back; the machine stays well formed |
| ArmTransfer.RunStrhsb | core/src/main/kotlin/spAnGB/cpu/arm/Memory.kt:150-180 | `armStrhsb` on the processor leaves the state and memory that `Strhsb` describes |
| ArmTransfer.Strhsb | core/src/main/kotlin/spAnGB/cpu/arm/Memory.kt:150-180 | as written: with pc ahead by 4, kinds 0 and 2 store a byte and 1 and 3 a halfword, then pc back and the write-back; the machine stays well formed |
| ArmTransfer.RunSwp | core/src/main/kotlin/spAnGB/cpu/arm/Memory.kt:59-79 | `armSwp` on the processor leaves the state and memory that `Swp` describes |
| ArmTransfer.Swp | core/src/main/kotlin/spAnGB/cpu/arm/Memory.kt:59-79 | as written: Rd gets the byte or rotated word at [Rn], then Rm, read before Rd changes, is stored there; the machine stays well formed |
| ArmBlockTransfer.OrderTwice | core/src/main/kotlin/spAnGB/cpu/arm/Memory.kt:182-185 | the walk visits register r at step `Order(r, up)` (the reversed list going down) |
| ArmBlockTransfer.CountIncreases | core/src/main/kotlin/spAnGB/cpu/arm/Memory.kt:182-185 | a listed register comes before every later register in the list |
| ArmBlockTransfer.SeenUp | core/src/main/kotlin/spAnGB/cpu/arm/Memory.kt:227-237 | going up, the walk has seen exactly the listed registers below step k |
| ArmBlockTransfer.SeenDown | core/src/main/kotlin/spAnGB/cpu/arm/Memory.kt:227-237 | going down, the walk has seen the listed registers at or above 16 - k |
| ArmBlockTransfer.OffsetsApart | core/src/main/kotlin/spAnGB/cpu/arm/Memory.kt:227-237 | slots q and q + d of one walk lie in different words |
| ArmBlockTransfer.StoreBlockListed | core/src/main/kotlin/spAnGB/cpu/arm/Memory.kt:227-237 | once the store walk is done, the register of a listed step holds its value at the step's address |
| ArmBlockTransfer.StoreBlockSlot | core/src/main/kotlin/spAnGB/cpu/arm/Memory.kt:229-231 | the walk notes the base's own address exactly when the base is listed |
| ArmBlockTransfer.StmStores | core/src/main/kotlin/spAnGB/cpu/arm/Memory.kt:188-258 | STM stores each listed register at the slot of its position in the list, the lowest register at the lowest address, unless the base's slot is rewritten |
| ArmBlockTransfer.StmWalkMemory | core/src/main/kotlin/spAnGB/cpu/arm/Memory.kt:244-255 | unless the base is listed and written back, STM leaves memory as its walk does |
| ArmBlockTransfer.StmWritesBack | core/src/main/kotlin/spAnGB/cpu/arm/Memory.kt:244-255 | with bit 21 and a non-empty list, the base ends one word per listed register past (or before) its old value |
| ArmBlockTransfer.StmEmptyWritesBack | core/src/main/kotlin/spAnGB/cpu/arm/Memory.kt:214-225 | with bit 21 and an empty list the base moves 0x40 bytes, whatever the indexing |
| ArmBlockTransfer.StmEmptyStoresPc | core/src/main/kotlin/spAnGB/cpu/arm/Memory.kt:214-219 | an empty list stores pc + 4 (the instruction's address + 12) at the lowest of the 16 slots |
| ArmBlockTransfer.StmBaseInList | core/src/main/kotlin/spAnGB/cpu/arm/Memory.kt:252-253 | a listed base that is not the lowest listed register has its slot rewritten with the written-back address; the lowest listed base keeps its old value there |
| ArmBlockTransfer.StmMachineBase | core/src/main/kotlin/spAnGB/cpu/arm/Memory.kt:244-255 | without bit 22, STM with bit 21 leaves the end address in the base |
| ArmBlockTransfer.LoadBlockKeeps | core/src/main/kotlin/spAnGB/cpu/arm/Memory.kt:296-306 | a register the load walk does not load keeps its value |
| ArmBlockTransfer.LoadBlockListed | core/src/main/kotlin/spAnGB/cpu/arm/Memory.kt:296-306 | the register of a listed step is loaded from the step's address |
| ArmBlockTransfer.LdmAsWritten | core/src/main/kotlin/spAnGB/cpu/arm/Memory.kt:260-324 | as written, each load is a plain array write, so loading r15 moves pc without refilling the pipeline; then the mode is restored and the base written back (see Findings) |
| ArmBlockTransfer.LdmAsWrittenKeepsPipeline | core/src/main/kotlin/spAnGB/cpu/arm/Memory.kt:297 | as written, LDM into pc leaves the pipeline as it was: the next instruction run is the one fetched before the load |
| ArmBlockTransfer.Ldm | core/src/main/kotlin/spAnGB/cpu/arm/Memory.kt:260-324 | corrected `armLdm`, where the load of r15 refills the pipeline as `setRegister(15, …)` does; LdmFails, LdmLoads, LdmKeeps, LdmWritesBack and LdmPcBranches state its effect |
| ArmBlockTransfer.LdmFails | core/src/main/kotlin/spAnGB/cpu/arm/Memory.kt:281-285 | LDM fails exactly for a user-bank load (bit 22) that lists r15, which the source leaves unimplemented |
| ArmBlockTransfer.LdmLoads | core/src/main/kotlin/spAnGB/cpu/arm/Memory.kt:296-306 | LDM without bit 22 loads each listed register from the slot of its position |
| ArmBlockTransfer.LdmKeeps | core/src/main/kotlin/spAnGB/cpu/arm/Memory.kt:260-324 | without bit 22, a register that LDM neither lists nor writes back keeps its value |
| ArmBlockTransfer.LdmWritesBack | core/src/main/kotlin/spAnGB/cpu/arm/Memory.kt:311-322 | with bit 21 and the base not listed, the base ends one word per listed register (0x40 bytes for none) past or before its old value |
| ArmBlockTransfer.LdmPcBranches | core/src/main/kotlin/spAnGB/cpu/arm/Memory.kt:260-324 | corrected LDM into pc (in ARM state) lands one word past the loaded word aligned down, with a coherent pipeline |
| ArmBlockTransfer.LdmKeepsState | core/src/main/kotlin/spAnGB/cpu/arm/Memory.kt:260-324 | the walk and the bank switches leave the ARM/THUMB state alone |
| ArmBlockTransfer.RunStm | core/src/main/kotlin/spAnGB/cpu/arm/Memory.kt:188-258 | `armStm` on the processor leaves the state and memory that `Stm` describes |
| ArmBlockTransfer.RunLdm | core/src/main/kotlin/spAnGB/cpu/arm/Memory.kt:260-324 | corrected `armLdm` on the processor leaves the state `Ldm` describes, and reports false exactly where the source throws |
| ArmBlockTransfer.RunLdmAsWritten | core/src/main/kotlin/spAnGB/cpu/arm/Memory.kt:260-324 | `armLdm` as the source has it leaves the state `LdmAsWritten` describes |
| ThumbMemory.LdrPcRelLoadsWord | core/src/main/kotlin/spAnGB/cpu/thumb/Memory.kt:11-21 | the pc-relative load address (pc with bits 0-1 clear plus eight bits times four) is word-aligned, so Rd receives exactly the word stored there |
| ThumbMemory.LdPcSpAligned | core/src/main/kotlin/spAnGB/cpu/thumb/Memory.kt:145-156 | with pc halfword-aligned, the pc form of ADD Rd, pc/sp yields a word-aligned address |
| ThumbMemory.SpOffRoundTrip | core/src/main/kotlin/spAnGB/cpu/thumb/Memory.kt:158-168 | adding an offset to sp and then subtracting the same offset restores sp |
| ThumbMemory.SpOffKeeps | core/src/main/kotlin/spAnGB/cpu/thumb/Memory.kt:158-168 | ADD sp, #offset changes sp and nothing else in the machine |
| ThumbMemory.PushEndsAtSp | core/src/main/kotlin/spAnGB/cpu/thumb/Memory.kt:170-195 | PUSH fills exactly the words below the old sp: its last slot ends at the old sp |
| ThumbMemory.PushMemory | core/src/main/kotlin/spAnGB/cpu/thumb/Memory.kt:170-195 | PUSH's memory is the low registers stored from the new sp upwards, then lr in the next slot when bit 8 is set |
| ThumbMemory.PushStoresListed | core/src/main/kotlin/spAnGB/cpu/thumb/Memory.kt:170-195 | each listed low register is stored in the slot of its rank above the new sp |
| ThumbMemory.PushStoresLr | core/src/main/kotlin/spAnGB/cpu/thumb/Memory.kt:170-195 | with bit 8 set lr is stored in the last slot, just below the old sp |
| ThumbMemory.PopRaisesSp | core/src/main/kotlin/spAnGB/cpu/thumb/Memory.kt:197-222 | POP leaves sp past every word it read, one per listed register, pc included |
| ThumbMemory.ListSize | core/src/main/kotlin/spAnGB/cpu/thumb/Memory.kt:197-222 | the bytes PUSH and POP move are the low list plus one word when bit 8 is set |
| ThumbMemory.PopLoadsListed | core/src/main/kotlin/spAnGB/cpu/thumb/Memory.kt:197-222 | each listed low register is loaded from the slot of its rank above sp |
| ThumbMemory.PopKeepsUnlisted | core/src/main/kotlin/spAnGB/cpu/thumb/Memory.kt:197-222 | an unlisted low register keeps its value |
| ThumbMemory.PopAfterPush | core/src/main/kotlin/spAnGB/cpu/thumb/Memory.kt:170-222 | POP with the list of a PUSH gives every low register its value from before the PUSH |
| ThumbMemory.PopAfterPushSp | core/src/main/kotlin/spAnGB/cpu/thumb/Memory.kt:170-222 | POP after PUSH with the same list puts sp back where it was |
| ThumbMemory.StmiaStoresListed | core/src/main/kotlin/spAnGB/cpu/thumb/Memory.kt:224-255 | STMIA stores each listed register (Rb as its written-back value when a lower register is listed) in the slot of its rank above Rb |
| ThumbMemory.StmiaWriteback | core/src/main/kotlin/spAnGB/cpu/thumb/Memory.kt:224-255 | after STMIA Rb points just past the block |
| ThumbMemory.LdmiaLoadsListed | core/src/main/kotlin/spAnGB/cpu/thumb/Memory.kt:257-282 | LDMIA loads each listed register from the slot of its rank above Rb |
| ThumbMemory.LdmiaWriteback | core/src/main/kotlin/spAnGB/cpu/thumb/Memory.kt:257-282 | with Rb unlisted and a non-empty list, LDMIA leaves Rb just past the block |
| ThumbMemory.LdmiaAsWrittenMissesBase | core/src/main/kotlin/spAnGB/cpu/thumb/Memory.kt:257-282 | with Rb listed, the handler as written leaves Rb different from the word loaded into it (it adds the block size to that word) |
| ThumbMemory.RunLdrPcRel | core/src/main/kotlin/spAnGB/cpu/thumb/Memory.kt:11-21 | the handler's new machine state is `LdrPcRel` of the old one |
| ThumbMemory.RunLdrStrRegOff | core/src/main/kotlin/spAnGB/cpu/thumb/Memory.kt:26-46 | the new machine and memory are those of `LdrStrRegOff`: a word or byte load or store at Rb + Ro |
| ThumbMemory.RunStrh | core/src/main/kotlin/spAnGB/cpu/thumb/Memory.kt:48-55 | the memory after STRH is `Strh` of the old memory, the registers unchanged |
| ThumbMemory.RunLdrh | core/src/main/kotlin/spAnGB/cpu/thumb/Memory.kt:57-66 | the new machine state is `Ldrh` of the old one |
| ThumbMemory.RunLdsb | core/src/main/kotlin/spAnGB/cpu/thumb/Memory.kt:68-77 | the new machine state is `Ldsb`: the sign-extended byte in Rd |
| ThumbMemory.RunLdsh | core/src/main/kotlin/spAnGB/cpu/thumb/Memory.kt:79-88 | the new machine state is `Ldsh`: the sign-extended halfword in Rd |
| ThumbMemory.RunLdrStrImmOff | core/src/main/kotlin/spAnGB/cpu/thumb/Memory.kt:90-111 | the new machine and memory are those of `LdrStrImmOff` (word offset times four, byte offset as is) |
| ThumbMemory.RunLdrhStrhImmOff | core/src/main/kotlin/spAnGB/cpu/thumb/Memory.kt:113-127 | the new machine and memory are those of `LdrhStrhImmOff` |
| ThumbMemory.RunLdrStrSpRel | core/src/main/kotlin/spAnGB/cpu/thumb/Memory.kt:129-143 | the new machine and memory are those of `LdrStrSpRel` |
| ThumbMemory.RunLdPcSp | core/src/main/kotlin/spAnGB/cpu/thumb/Memory.kt:145-156 | the new machine state is `LdPcSp` of the old one |
| ThumbMemory.RunSpOff | core/src/main/kotlin/spAnGB/cpu/thumb/Memory.kt:158-168 | the new machine state is `SpOff` of the old one |
| ThumbMemory.RunPush | core/src/main/kotlin/spAnGB/cpu/thumb/Memory.kt:170-195 | the loop-based handler ends in the machine and memory of `Push` |
| ThumbMemory.Push | core/src/main/kotlin/spAnGB/cpu/thumb/Memory.kt:170-195 | as written: the listed registers, then lr with bit 8, at ascending addresses from `PushStart`, and sp = `PushStart`; the machine stays well formed |
| ThumbMemory.RunPop | core/src/main/kotlin/spAnGB/cpu/thumb/Memory.kt:197-222 | the loop-based handler ends in the machine state of `Pop` |
| ThumbMemory.Pop | core/src/main/kotlin/spAnGB/cpu/thumb/Memory.kt:197-222 | as written: the listed registers from ascending addresses from sp, pc with bit 8 and a refill, sp past the words read; the machine stays well formed |
| ThumbMemory.RunStmia | core/src/main/kotlin/spAnGB/cpu/thumb/Memory.kt:224-255 | the loop-based handler ends in the machine and memory of `Stmia` |
| ThumbMemory.Stmia | core/src/main/kotlin/spAnGB/cpu/thumb/Memory.kt:224-255 | as written: the listed registers at ascending addresses from Rb, then Rb += 4 per register; an empty list stores `EmptyListValue(pc)` and adds 0x40; the machine stays well formed |
| ThumbMemory.RunLdmia | core/src/main/kotlin/spAnGB/cpu/thumb/Memory.kt:257-282 | corrected `thumbLdmia`: the loop-based handler ends in the machine state of `Ldmia`, which skips the write-back when Rb is listed |
| ThumbMemory.RunLdmiaAsWritten | core/src/main/kotlin/spAnGB/cpu/thumb/Memory.kt:257-282 | as written, the loop-based handler ends in the machine state of `LdmiaAsWritten`, writing Rb back even when it is listed |
| ThumbMemory.Ldmia | core/src/main/kotlin/spAnGB/cpu/thumb/Memory.kt:257-282 | corrected: the loads, with no write-back when Rb is listed, so Rb keeps its loaded word; the machine stays well formed |
| ThumbMemory.LdmiaAsWritten | core/src/main/kotlin/spAnGB/cpu/thumb/Memory.kt:257-282 | as written: the loads, then Rb += the block size whatever Rb then holds; the machine stays well formed |
| ThumbBranch.ThumbRefillLandsAt | core/src/main/kotlin/spAnGB/cpu/thumb/Branch.kt:9-29 | a THUMB refill leaves pc one halfword past the old pc aligned down to a halfword |
| ThumbBranch.CondBranchFailsOnlyOnReserved | core/src/main/kotlin/spAnGB/cpu/thumb/Branch.kt:9-18 | the conditional branch is an error exactly when its condition field is the reserved 0xF |
| ThumbBranch.CondBranchNotTaken | core/src/main/kotlin/spAnGB/cpu/thumb/Branch.kt:9-18 | when the condition does not hold the machine is unchanged |
| ThumbBranch.CondBranchTaken | core/src/main/kotlin/spAnGB/cpu/thumb/Branch.kt:9-18 | when it holds pc lands at pc + 2 times the signed 8-bit offset (twice the byte, less 512 when its bit 7 is set), with no other register and no flag changed |
| ThumbBranch.CondOffsetIsTwiceSignedByte | core/src/main/kotlin/spAnGB/cpu/thumb/Branch.kt:13 | the offset `toByte().toInt() shl 1` is twice the immediate byte, less 512 when the byte is negative |
| ThumbBranch.BOffsetIsSignedHalfOffset | core/src/main/kotlin/spAnGB/cpu/thumb/Branch.kt:20-29 | the unconditional offset is the 11-bit immediate sign-extended and doubled |
| ThumbBranch.BLandsAt | core/src/main/kotlin/spAnGB/cpu/thumb/Branch.kt:20-29 | B lands at pc + 2 times the signed 11-bit offset |
| ThumbBranch.HighOffsetIsSigned | core/src/main/kotlin/spAnGB/cpu/thumb/Branch.kt:41-44 | the first BL half's offset is its 11-bit immediate sign-extended and shifted up by 12 |
| ThumbBranch.BlHighSetsLink | core/src/main/kotlin/spAnGB/cpu/thumb/Branch.kt:41-44 | the first half writes lr = pc + that offset and changes nothing else |
| ThumbBranch.BlLowJumps | core/src/main/kotlin/spAnGB/cpu/thumb/Branch.kt:33-40 | the second half jumps to lr + 2 imm11 and leaves lr = (pc - 2) or 1 |
| ThumbBranch.BlPairJumps | core/src/main/kotlin/spAnGB/cpu/thumb/Branch.kt:31-47 | the two halves executed in order from pc p jump to p + the upper offset + the lower offset and leave lr = p or 1, the address after the pair with the THUMB bit |
| ThumbBranch.PairOffsets | core/src/main/kotlin/spAnGB/cpu/thumb/Branch.kt:31-47 | the upper half's offset is its 11 bits sign-extended and shifted up by 12, the lower half's its 11 bits doubled |
| ThumbBranch.SwiStatus | core/src/main/kotlin/spAnGB/cpu/thumb/Branch.kt:49-65 | SWI enters Supervisor mode in ARM state with the old cpsr in spsr, I set, T clear and the other flags kept |
| ThumbBranch.SwiRegisters | core/src/main/kotlin/spAnGB/cpu/thumb/Branch.kt:49-65 | SWI leaves lr = pc - 2 (the instruction after the SWI), r0-r7 unchanged and execution at the vector 8 |
| ThumbBranch.RunCondBranch | core/src/main/kotlin/spAnGB/cpu/thumb/Branch.kt:9-18 | the handler reports failure exactly when `CondBranch` is an error, and otherwise ends in its machine state |
| ThumbBranch.RunB | core/src/main/kotlin/spAnGB/cpu/thumb/Branch.kt:20-29 | the handler ends in the machine state of `B` |
| ThumbBranch.RunLongBranchLink | core/src/main/kotlin/spAnGB/cpu/thumb/Branch.kt:31-47 | the handler ends in the machine state of `LongBranchLink` |
| ThumbBranch.RunSwi | core/src/main/kotlin/spAnGB/cpu/thumb/Branch.kt:49-65 | the handler ends in the machine state of `Swi` |
| ThumbHighLow.DestinationIndex | core/src/main/kotlin/spAnGB/cpu/thumb/HighLow.kt:10-19 | the destination (bits 0-2, plus 8 when bit 7 is set) always names one of the 16 registers |
| ThumbHighLow.SourceIndex | core/src/main/kotlin/spAnGB/cpu/thumb/HighLow.kt:10-19 | the source (bits 3-5, plus 8 when bit 6 is set) always names one of the 16 registers |
| ThumbHighLow.HiLoMovPlain | core/src/main/kotlin/spAnGB/cpu/thumb/HighLow.kt:21-28 | a MOV to r0-r14 writes the source value there and changes no other register, no flag and not the pipeline |
| ThumbHighLow.HiLoMovPc | core/src/main/kotlin/spAnGB/cpu/thumb/HighLow.kt:21-28 | a MOV to r15 is a jump: pc ends one instruction past the halfword-aligned value, with the pipeline refilled |
| ThumbHighLow.HiLoAddPlain | core/src/main/kotlin/spAnGB/cpu/thumb/HighLow.kt:30-37 | an ADD to r0-r14 writes the wrapped sum and changes no other register and no flag |
| ThumbHighLow.HiLoAddPc | core/src/main/kotlin/spAnGB/cpu/thumb/HighLow.kt:30-37 | an ADD to r15 refills the pipeline at the sum |
| ThumbHighLow.HiLoBxState | core/src/main/kotlin/spAnGB/cpu/thumb/HighLow.kt:39-47 | BX takes the state and T from bit 0 of the target, keeps the other flags and the mode, and refills the pipeline |
| ThumbHighLow.HiLoBxPc | core/src/main/kotlin/spAnGB/cpu/thumb/HighLow.kt:39-47 | BX leaves pc one instruction past the target aligned for the new state |
| ThumbHighLow.HiLoCmpFlags | core/src/main/kotlin/spAnGB/cpu/thumb/HighLow.kt:49-59 | CMP writes no register; Z iff the operands are equal, C iff first >= second unsigned, N and V from the difference |
| ThumbHighLow.RunHiLoMov | core/src/main/kotlin/spAnGB/cpu/thumb/HighLow.kt:21-28 | the handler ends in the machine state of `HiLoMov` |
| ThumbHighLow.RunHiLoAdd | core/src/main/kotlin/spAnGB/cpu/thumb/HighLow.kt:30-37 | the handler ends in the machine state of `HiLoAdd` |
| ThumbHighLow.RunHiLoBx | core/src/main/kotlin/spAnGB/cpu/thumb/HighLow.kt:39-47 | the handler ends in the machine state of `HiLoBx` |
| ThumbHighLow.RunHiLoCmp | core/src/main/kotlin/spAnGB/cpu/thumb/HighLow.kt:49-59 | the handler ends in the machine state of `HiLoCmp` |
| ThumbImmediate.MovImmFlags | core/src/main/kotlin/spAnGB/cpu/thumb/Immediate.kt:10-17 | MOV Rd, #imm leaves N clear (an 8-bit immediate is never negative), Z iff the immediate is zero, C and V kept |
| ThumbImmediate.MovImmWrites | core/src/main/kotlin/spAnGB/cpu/thumb/Immediate.kt:10-17 | MOV writes the immediate to Rd |
| ThumbImmediate.CmpImmIsSubImmFlags | core/src/main/kotlin/spAnGB/cpu/thumb/Immediate.kt:19-44 | CMP writes no register and sets exactly the flags SUB with the same operands sets |
| ThumbImmediate.CmpImmSetsNZCV | core/src/main/kotlin/spAnGB/cpu/thumb/Immediate.kt:19-30 | CMP's three flag writes amount to one update of N, Z, C and V |
| ThumbImmediate.CmpImmFlags | core/src/main/kotlin/spAnGB/cpu/thumb/Immediate.kt:19-30 | CMP Rd, #imm: Z iff Rd equals the immediate, C iff Rd is not below it unsigned, N and V from the difference |
| ThumbImmediate.SubImmUndoesAddImm | core/src/main/kotlin/spAnGB/cpu/thumb/Immediate.kt:32-57 | ADD Rd, #imm followed by SUB Rd, #imm gives Rd back and changes no other register |
| ThumbImmediate.AddImmFlags | core/src/main/kotlin/spAnGB/cpu/thumb/Immediate.kt:46-57 | ADD Rd, #imm: Z iff the wrapped sum is zero, C on unsigned carry-out, V on signed overflow |
| ThumbImmediate.RunMovImm | core/src/main/kotlin/spAnGB/cpu/thumb/Immediate.kt:10-17 | the handler ends in the machine state of `MovImm` |
| ThumbImmediate.RunCmpImm | core/src/main/kotlin/spAnGB/cpu/thumb/Immediate.kt:19-30 | the handler ends in the machine state of `CmpImm` |
| ThumbImmediate.RunSubImm | core/src/main/kotlin/spAnGB/cpu/thumb/Immediate.kt:32-44 | the handler ends in the machine state of `SubImm` |
| ThumbImmediate.RunAddImm | core/src/main/kotlin/spAnGB/cpu/thumb/Immediate.kt:46-57 | the handler ends in the machine state of `AddImm` |
| ThumbDataProcessing.NegAsWrittenClearsV | core/src/main/kotlin/spAnGB/cpu/thumb/DataProcessing.kt:156-164 | as written NEG clears V whatever the operand, because the overflow check reads the result field still holding 0 |
| ThumbDataProcessing.NegAsWrittenMissesOverflow | core/src/main/kotlin/spAnGB/cpu/thumb/DataProcessing.kt:156-164 | NEG of 0x8000_0000 overflows, yet the handler as written leaves V clear while the corrected NEG sets it |
| ThumbDataProcessing.NegOverflowMeaning | core/src/main/kotlin/spAnGB/cpu/thumb/DataProcessing.kt:66-72 | 0 - s overflows exactly when s is the most negative word |
| ThumbDataProcessing.NegCarryAndOverflow | core/src/main/kotlin/spAnGB/cpu/thumb/DataProcessing.kt:156-164 | the corrected NEG sets C exactly when the operand is 0 and V exactly when it is 0x8000_0000 |
| ThumbDataProcessing.NoBorrowFromZero | core/src/main/kotlin/spAnGB/cpu/thumb/DataProcessing.kt:78-80 | nothing is borrowed from 0 exactly when 0 is subtracted |
| ThumbDataProcessing.LogicalFlags | core/src/main/kotlin/spAnGB/cpu/thumb/DataProcessing.kt:131-150 | AND, EOR, ORR, BIC and MVN write their value to Rd, set N and Z from it and keep C and V |
| ThumbDataProcessing.AndBicPartition | core/src/main/kotlin/spAnGB/cpu/thumb/DataProcessing.kt:131-146 | AND and BIC split Rd into the bits Rs selects and the bits it clears: together (OR) they give Rd back |
| ThumbDataProcessing.TestsKeepRegisters | core/src/main/kotlin/spAnGB/cpu/thumb/DataProcessing.kt:151-155 | TST, CMP and CMN change no register |
| ThumbDataProcessing.TstFlags | core/src/main/kotlin/spAnGB/cpu/thumb/DataProcessing.kt:151-155 | TST sets N and Z from Rd AND Rs and keeps C and V (and the other flags) |
| ThumbDataProcessing.ShiftFlags | core/src/main/kotlin/spAnGB/cpu/thumb/DataProcessing.kt:175-191 | LSL, LSR, ASR and ROR shift Rd by the low byte of Rs through the barrel shifter: Rd and the shifter carry take its result, C its carry-out, N and Z come from the value, V is kept |
| ThumbDataProcessing.ShiftByZeroKeeps | core/src/main/kotlin/spAnGB/cpu/thumb/DataProcessing.kt:175-191 | a shift by zero leaves Rd and C as they were |
| ThumbDataProcessing.ShiftByLarge | core/src/main/kotlin/spAnGB/cpu/thumb/DataProcessing.kt:175-186 | LSL and LSR by 32 or more give 0; ASR by 32 or more fills with the sign bit |
| ThumbDataProcessing.MulFlags | core/src/main/kotlin/spAnGB/cpu/thumb/DataProcessing.kt:165-174 | MUL writes the low word of the product, clears C, sets N and Z from the product and keeps V |
| ThumbDataProcessing.AdcFlags | core/src/main/kotlin/spAnGB/cpu/thumb/DataProcessing.kt:192-200 | ADC: Rd = Rd + Rs + C, C on carry-out of the 33-bit sum, V on signed overflow |
| ThumbDataProcessing.SbcFlags | core/src/main/kotlin/spAnGB/cpu/thumb/DataProcessing.kt:201-209 | SBC: Rd = Rd - Rs - (1 - C), C when no borrow occurs, V on signed overflow |
| ThumbDataProcessing.CmpFlags | core/src/main/kotlin/spAnGB/cpu/thumb/DataProcessing.kt:210-218 | CMP writes no register; Z iff Rd equals Rs, C iff Rd >= Rs unsigned, N and V from the difference |
| ThumbDataProcessing.CmnFlags | core/src/main/kotlin/spAnGB/cpu/thumb/DataProcessing.kt:219-226 | CMN writes no register; its flags are those of Rd + Rs, C on unsigned carry-out |
| ThumbDataProcessing.FlagsOfWriteNZCV | core/src/main/kotlin/spAnGB/cpu/thumb/DataProcessing.kt:41-80 | an arithmetic operation writes its result to Rd and leaves N and Z from the result, C and V as given, and every other flag as it was |
| ThumbDataProcessing.AluKeeps | core/src/main/kotlin/spAnGB/cpu/thumb/DataProcessing.kt:110-129 | no ALU operation writes pc or touches the mode, the state, spsr or the pipeline |
| ThumbDataProcessing.RunAlu | core/src/main/kotlin/spAnGB/cpu/thumb/DataProcessing.kt:110-226 | corrected for NEG: every ALU operation on the processor ends in the machine state of `Alu`, whose NEG is the corrected `NegEffect` |
| ThumbDataProcessing.RunLogical | core/src/main/kotlin/spAnGB/cpu/thumb/DataProcessing.kt:131-150 | the logical handlers end in the machine state of `LogicalEffect` |
| ThumbDataProcessing.RunShift | core/src/main/kotlin/spAnGB/cpu/thumb/DataProcessing.kt:175-191 | the shift handlers end in the machine state of `ShiftEffect` |
| ThumbDataProcessing.RunTst | core/src/main/kotlin/spAnGB/cpu/thumb/DataProcessing.kt:151-155 | TST ends in the machine state of `TstEffect` |
| ThumbDataProcessing.RunAdc | core/src/main/kotlin/spAnGB/cpu/thumb/DataProcessing.kt:192-200 | ADC ends in the machine state of `AdcEffect` |
| ThumbDataProcessing.RunSbc | core/src/main/kotlin/spAnGB/cpu/thumb/DataProcessing.kt:201-209 | SBC ends in the machine state of `SbcEffect` |
| ThumbDataProcessing.RunNeg | core/src/main/kotlin/spAnGB/cpu/thumb/DataProcessing.kt:156-164 | corrected `thumbNeg`: NEG ends in the machine state of `NegEffect`, with V set on signed overflow |
| ThumbDataProcessing.RunNegAsWritten | core/src/main/kotlin/spAnGB/cpu/thumb/DataProcessing.kt:156-164 | as written, NEG ends in the machine state of `NegAsWritten`, whose V is always clear |
| ThumbDataProcessing.NegEffect | core/src/main/kotlin/spAnGB/cpu/thumb/DataProcessing.kt:156-164 | corrected: Rd = `0 - operand` with N, Z, C and the V of that subtraction; the machine stays well formed |
| ThumbDataProcessing.NegAsWritten | core/src/main/kotlin/spAnGB/cpu/thumb/DataProcessing.kt:156-164 | as written: Rd = `0 - operand` with V computed from the stale `result` field, that is from `0 - 0`; the machine stays well formed |
| ThumbDataProcessing.RunCmp | core/src/main/kotlin/spAnGB/cpu/thumb/DataProcessing.kt:210-218 | CMP ends in the machine state of `CmpEffect` |
| ThumbDataProcessing.RunCmn | core/src/main/kotlin/spAnGB/cpu/thumb/DataProcessing.kt:219-226 | CMN ends in the machine state of `CmnEffect` |
| ThumbDataProcessing.RunMul | core/src/main/kotlin/spAnGB/cpu/thumb/DataProcessing.kt:165-174 | MUL ends in the machine state of `MulEffect` |
| ThumbRandom.ShiftType | core/src/main/kotlin/spAnGB/cpu/thumb/Random.kt:16-21 | the shift type of bits 11-12 is one of 0-3 |
| ThumbRandom.ShiftAmount | core/src/main/kotlin/spAnGB/cpu/thumb/Random.kt:14 | the shift amount of bits 6-10 is below 32 |
| ThumbRandom.MovsFailsOnlyOnType3 | core/src/main/kotlin/spAnGB/cpu/thumb/Random.kt:10-27 | MOVS (shift by immediate) is an error exactly for shift type 3 |
| ThumbRandom.MovsLslZero | core/src/main/kotlin/spAnGB/cpu/thumb/Random.kt:16-17 | MOVS LSL #0 copies Rs to Rd and leaves C as it was |
| ThumbRandom.MovsZeroMeans32 | core/src/main/kotlin/spAnGB/cpu/thumb/Random.kt:18-19 | MOVS LSR #0 and ASR #0 shift by 32 |
| ThumbRandom.MovsFlagsAre | core/src/main/kotlin/spAnGB/cpu/thumb/Random.kt:23-25 | MOVS sets C to the shifter carry-out and N and Z from the written value; the control bits stay |
| ThumbRandom.SubResult | core/src/main/kotlin/spAnGB/cpu/thumb/Random.kt:29-55 | SUB: Rd = Rs - operand, Z iff they are equal, C iff Rs >= operand unsigned, V on signed overflow |
| ThumbRandom.AddResult | core/src/main/kotlin/spAnGB/cpu/thumb/Random.kt:29-55 | ADD: Rd = Rs + operand, C on unsigned carry-out, V on signed overflow |
| ThumbRandom.AddSubImmediateOperand | core/src/main/kotlin/spAnGB/cpu/thumb/Random.kt:32-36 | bit 10 selects the three-bit immediate (at most 7) instead of a register |
| ThumbRandom.AddSubWritesOnlyRd | core/src/main/kotlin/spAnGB/cpu/thumb/Random.kt:29-55 | ADD and SUB write Rd only and keep the control bits of cpsr |
| ThumbRandom.RunMovs | core/src/main/kotlin/spAnGB/cpu/thumb/Random.kt:10-27 | the handler reports failure exactly where `Movs` is an error (where the source throws), changing nothing then, and otherwise ends in its machine state |
| ThumbRandom.RunAddSub | core/src/main/kotlin/spAnGB/cpu/thumb/Random.kt:29-55 | the handler ends in the machine state of `AddSub` |
| ThumbDecode.ThumbIndex | core/src/main/kotlin/spAnGB/cpu/CPU.kt:114 | the THUMB table index, instruction bits 6-15, is below 0x400, the size of the table |
| ThumbDecode.ThumbLutEntry | core/src/main/kotlin/spAnGB/cpu/CPU.kt:69 | the 1024-entry THUMB table holds at each index the factory's handler for that index |
| ThumbDecode.SwiBeforeConditionalBranch | core/src/main/kotlin/spAnGB/cpu/thumb/ThumbOpFactory.kt:7-27 | the SWI indices also have the conditional-branch shape (condition 0xF), and the factory gives them SWI |
| ThumbDecode.ConditionalBranchGroup | core/src/main/kotlin/spAnGB/cpu/thumb/ThumbOpFactory.kt:25-27 | every other index of the 0x340 row is a conditional branch |
| ThumbDecode.AluGroup | core/src/main/kotlin/spAnGB/cpu/thumb/ThumbOpFactory.kt:37-56 | the format 4 row picks one of the sixteen ALU operations, in the source's list order, by index bits 0-3 |
| ThumbDecode.HiLoGroup | core/src/main/kotlin/spAnGB/cpu/thumb/ThumbOpFactory.kt:58-66 | the hi-register row picks ADD, CMP, MOV or BX by index bits 2-3, BX exactly when both are set |
| ThumbDecode.AddSubBeforeMovs | core/src/main/kotlin/spAnGB/cpu/thumb/ThumbOpFactory.kt:78-122 | add/subtract indices also have the shift-immediate shape, and the factory gives them add/subtract |
| ThumbDecode.MovsGroup | core/src/main/kotlin/spAnGB/cpu/thumb/ThumbOpFactory.kt:120-122 | the other indices with bits 7-9 clear are the shift-by-immediate moves |
| ThumbDecode.ImmediateGroup | core/src/main/kotlin/spAnGB/cpu/thumb/ThumbOpFactory.kt:110-118 | the 0x080 group picks MOV, CMP, ADD or SUB immediate by index bits 5-6 |
| ThumbDecode.PushPopBit | core/src/main/kotlin/spAnGB/cpu/thumb/ThumbOpFactory.kt:11-16 | PUSH and POP share a row and differ in index bit 5, the load bit |
| ThumbDecode.UndefinedExactlyUnclaimed | core/src/main/kotlin/spAnGB/cpu/thumb/ThumbOpFactory.kt:6-125 | an index reaches the undefined handler exactly when no rule claims it: the rest of the 0x2C0 row beside SP offset, PUSH and POP, and the 0x3A0 row |
| ThumbDecode.LowHalfClaimed | core/src/main/kotlin/spAnGB/cpu/thumb/ThumbOpFactory.kt:6-125 | every index 0x000-0x1FF has a handler |
| ThumbDecode.ShiftsAndImmediatesClaimed | core/src/main/kotlin/spAnGB/cpu/thumb/ThumbOpFactory.kt:78-122 | every index 0x000-0x0FF is a shift, add/subtract or immediate operation |
| ThumbDecode.RegisterFormatsClaimed | core/src/main/kotlin/spAnGB/cpu/thumb/ThumbOpFactory.kt:37-108 | every index 0x100-0x1FF has a handler |
| ThumbDecode.HighHalfUndefined | core/src/main/kotlin/spAnGB/cpu/thumb/ThumbOpFactory.kt:6-125 | among indices 0x200-0x3FF the undefined handler is reached exactly at the unclaimed ones |
| ArmDecode.ArmIndex | core/src/main/kotlin/spAnGB/cpu/CPU.kt:117 | the ARM table index is below 0x1000, the size of the table |
| ArmDecode.ArmLutEntry | core/src/main/kotlin/spAnGB/cpu/CPU.kt:67 | the 4096-entry ARM table holds at each index the factory's handler for that index |
| ArmDecode.ArmIndexFields | core/src/main/kotlin/spAnGB/cpu/CPU.kt:117 | index bits 0-3 are instruction bits 4-7 and index bits 4-11 are instruction bits 20-27 |
| ArmDecode.ArmIndexOpcode | core/src/main/kotlin/spAnGB/cpu/CPU.kt:117 | the data-processing opcode the table sees (index bits 5-8) is the instruction's opcode field, bits 21-24 |
| ArmDecode.SwiFirst | core/src/main/kotlin/spAnGB/cpu/arm/ARMOpFactory.kt:10-12 | every index with bits 8-11 set is SWI, ahead of any other rule |
| ArmDecode.BxBeforeDataProcessing | core/src/main/kotlin/spAnGB/cpu/arm/ARMOpFactory.kt:14-16 | BX is the single index 0x121, which also has the TEQ shape; the factory gives it BX |
| ArmDecode.BranchLinkBit | core/src/main/kotlin/spAnGB/cpu/arm/ARMOpFactory.kt:18-23 | in the branch rows the factory picks BL exactly when bit 8 (the link bit) is set, B otherwise |
| ArmDecode.MultiplyBeforeDataProcessing | core/src/main/kotlin/spAnGB/cpu/arm/ARMOpFactory.kt:25-35 | the multiply shapes are also data-processing shapes, the factory gives them a multiply, and SMULL/SMLAL exactly for a long multiply with bit 6 set |
| ArmDecode.AluRuleOpcode | core/src/main/kotlin/spAnGB/cpu/arm/ARMOpFactory.kt:75-137 | every index with bits 10-11 clear matches exactly one of the sixteen data-processing rules, the one of its bits 5-8 |
| ArmDecode.DataProcessingOpcode | core/src/main/kotlin/spAnGB/cpu/arm/ARMOpFactory.kt:8-137 | an index with bits 10-11 clear and none of the multiply, swap, halfword, BX, MRS or MSR shapes decodes to the operation of its bits 5-8 |
| ArmDecode.AluHandlerOpcode | core/src/main/kotlin/spAnGB/cpu/arm/ARMOpFactory.kt:75-137 | whenever the factory gives a data-processing handler, the index has bits 10-11 clear and the handler's operation is the one of index bits 5-8 |
| ArmDecode.UndefinedExactlyCoprocessor | core/src/main/kotlin/spAnGB/cpu/arm/ARMOpFactory.kt:8-141 | an index falls through every rule to the undefined handler exactly when bits 10-11 are set and bits 8-9 are not both set, the coprocessor space |
| ArmDecode.TransferQuarters | core/src/main/kotlin/spAnGB/cpu/arm/ARMOpFactory.kt:41-63 | indices 0x400-0xBFF are all single or block transfers or branches, none undefined |
| ArmDecode.CoprocessorQuarter | core/src/main/kotlin/spAnGB/cpu/arm/ARMOpFactory.kt:10-12 | indices 0xC00-0xFFF are SWI in the top row and undefined in the rest |
| Tick.HaltedStaysPut | core/src/main/kotlin/spAnGB/cpu/CPU.kt:103-105 | a halted processor with no interrupt to take changes nothing and reports that it is halted |
| Tick.InterruptWakes | core/src/main/kotlin/spAnGB/cpu/CPU.kt:103-105 | with an interrupt pending, the tick enters the IRQ vector, which clears the halt, and then executes the instruction there |
| Tick.FailedConditionSteps | core/src/main/kotlin/spAnGB/cpu/CPU.kt:117-120 | an ARM instruction whose condition fails only steps the pipeline |
| Tick.HeldConditionRuns | core/src/main/kotlin/spAnGB/cpu/CPU.kt:115-117 | an ARM instruction whose condition holds runs, on the stepped machine, the handler the factory gives for its table index, with LDR and LDM corrected (see Tick.ArmEffect under Left out) |
| Tick.ThumbRuns | core/src/main/kotlin/spAnGB/cpu/CPU.kt:112-114 | a THUMB instruction always runs, on the stepped machine, the handler the factory gives for its table index, with LDMIA and NEG corrected (see Tick.ThumbEffect under Left out) |
| Tick.ReservedConditionFails | src/core/cpu/cpu.rs:159-179 | an ARM instruction with the reserved condition 0xF is an error, as `is_condition` panics on it, never a silent skip |
| Tick.RunTick | core/src/main/kotlin/spAnGB/cpu/CPU.kt:103-123 | corrected `tick`: on the processor it succeeds exactly when the value-level `Tick` does, and then ends in its machine, memory and halted flag, where LDR, LDM, LDMIA and NEG are the corrected handlers |
| Tick.RunExecuteThumb | core/src/main/kotlin/spAnGB/cpu/CPU.kt:112-114 | corrected THUMB path: ends in the machine and memory of `ExecuteThumb`, failing exactly where it fails, with LDMIA and NEG corrected |
| Tick.RunExecuteArm | core/src/main/kotlin/spAnGB/cpu/CPU.kt:115-120 | corrected ARM path: ends in the machine and memory of `ExecuteArm`, failing exactly where it fails, with LDR and LDM corrected |
| Tick.RunArm | core/src/main/kotlin/spAnGB/cpu/CPU.kt:117 | running an ARM handler ends in the machine and memory `ArmEffect` gives (corrected LDR and LDM), failing exactly for the undefined handler and the handlers' own errors |
| Tick.RunThumb | core/src/main/kotlin/spAnGB/cpu/CPU.kt:114 | running a THUMB handler ends in the machine and memory `ThumbEffect` gives (corrected LDMIA and NEG), failing exactly for the undefined handler and the handlers' own errors |
| Tick.Tick | core/src/main/kotlin/spAnGB/cpu/CPU.kt:103-123 | corrected `tick`, with IME, IE and IR as parameters: its machine stays well formed, and a tick that reports the processor halted left it halted and memory unchanged |
| Tick.Execute | core/src/main/kotlin/spAnGB/cpu/CPU.kt:107-122 | corrected (dispatches the corrected `ExecuteArm`/`ExecuteThumb`): opcode 0 is an error (the `TODO`); an executed instruction keeps the machine well formed and never reports halted |
| Tick.ExecuteThumb | core/src/main/kotlin/spAnGB/cpu/CPU.kt:112-114 | corrected THUMB path: an executed instruction keeps the machine well formed and never reports halted |
| Tick.ExecuteArm | core/src/main/kotlin/spAnGB/cpu/CPU.kt:115-120 | corrected ARM path: an executed instruction, or one whose condition fails, keeps the machine well formed and never reports halted |
| Tick.ArmEffect | core/src/main/kotlin/spAnGB/cpu/CPU.kt:117 | corrected, dispatching `Ldr` and `Ldm` rather than `LdrAsWritten` and `LdmAsWritten`: every handler keeps the machine well formed, and only the undefined handler, LDM, MSR and the ALU handlers can fail |
| Tick.ThumbEffect | core/src/main/kotlin/spAnGB/cpu/CPU.kt:114 | corrected, dispatching `Ldmia` and the corrected `NegEffect` rather than `LdmiaAsWritten` and `NegAsWritten`: every handler keeps the machine well formed, and only the undefined handler, the conditional branch and MOVS can fail |
| RustCpu.SetModeSameIsNoOp | src/core/cpu/cpu.rs:114-152 | `set_mode` to the current mode changes nothing |
| RustCpu.SetModeWritesEncoding | src/core/cpu/cpu.rs:114-152 | after `set_mode` to another mode, the mode is the new one and cpsr bits 0-4 hold its `CPU_MODE` encoding |
| RustCpu.SetFlagOnlyItsBit | src/core/cpu/cpu.rs:200-206 | `set_flag` writes its flag and changes no other flag and no mode bit |
| RustCpu.SwitchStateFlushes | src/core/cpu/cpu.rs:182-198 | after `switch_state` every pipeline slot is zero, and the THUMB fill is chosen exactly when bit 0 of the argument is set |
| RustCpu.IrqRoundTripRegisters | src/core/cpu/cpu.rs:114-152 | entering IRQ mode from User mode and going back gives every register its old value |
| RustCpu.IrqRoundTripStatus | src/core/cpu/cpu.rs:114-152 | the same round trip gives back cpsr, which was saved in the IRQ row on the way in, when its mode bits were User's |
| RustCpu.KeepsOwnModeBits | src/core/cpu/cpu.rs:149-150 | writing a mode's encoding into a status word that already holds it changes nothing |
| RustProcessor.RustCpuState.constructor | src/core/cpu/cpu.rs:84-103 | `CPU::new`: all registers, rows and the pipeline zero, User mode, ARM state |
| RustProcessor.RustCpuState.SetFlag | src/core/cpu/cpu.rs:200-206 | the object's new state is `RustCpu.SetFlag` of the old |
| RustProcessor.RustCpuState.FlushPipeline | src/core/cpu/cpu.rs:182-185 | the object's new state is `RustCpu.FlushPipeline` of the old: all three slots zero |
| RustProcessor.RustCpuState.SwitchState | src/core/cpu/cpu.rs:187-198 | the object's new state and the fill it selects are those of `RustCpu.SwitchState` |
| RustProcessor.RustCpuState.SetMode | src/core/cpu/cpu.rs:114-152 | the object's new state is `RustCpu.SetMode` of the old |
| RustProcessor.RustCpuState.Leave | src/core/cpu/cpu.rs:118-131 | the first match of `set_mode` has the effect of `RustCpu.Leave` |
| RustProcessor.RustCpuState.Enter | src/core/cpu/cpu.rs:133-148 | the second match of `set_mode` has the effect of `RustCpu.Enter` |
| Scheduling.FirstFreeIsLowest | core/src/main/kotlin/spAnGB/Scheduler.kt:23-34 | the slot search finds the lowest free slot at or after its start, and finds none exactly when every slot from there on is taken |
| Scheduling.DueSound | core/src/main/kotlin/spAnGB/Scheduler.kt:37-46 | every slot a tick runs is taken, has reached its deadline, and has no free slot before it (the scan stops at the first free slot) |
| Scheduling.DueComplete | core/src/main/kotlin/spAnGB/Scheduler.kt:37-46 | every taken slot that has reached its deadline with no free slot before it is run |
| Scheduling.DueIncreasing | core/src/main/kotlin/spAnGB/Scheduler.kt:37-46 | the slots run come in increasing order, so each task runs at most once per tick |
| Scheduling.Scheduler.constructor | core/src/main/kotlin/spAnGB/Scheduler.kt:7-11 | a new scheduler has counter 0 and every slot free with no task |
| Scheduling.Scheduler.ScheduleAt | core/src/main/kotlin/spAnGB/Scheduler.kt:13-16 | slot `index` becomes due `after` ticks from now with the given task; no other slot changes |
| Scheduling.Scheduler.Clear | core/src/main/kotlin/spAnGB/Scheduler.kt:18-21 | slot `index` becomes free with no task; no other slot changes |
| Scheduling.Scheduler.Schedule | core/src/main/kotlin/spAnGB/Scheduler.kt:23-34 | the lowest free slot takes the task and deadline; it fails, changing nothing, exactly when no slot is free (the source throws) |
| Scheduling.Scheduler.Tick | core/src/main/kotlin/spAnGB/Scheduler.kt:37-49 | a tick reports the due slots in the order the source runs them, keeps the slot table and advances the counter by one |
| Interrupts.MaskIsOneBit | core/src/main/kotlin/spAnGB/memory/mmio/Interrupts.kt:66-81 | each interrupt source's mask is a single bit, all within bits 0-13 |
| Interrupts.DmaInterrupt | core/src/main/kotlin/spAnGB/memory/mmio/Interrupts.kt:75-78 | DMA channel `index` raises the source whose mask is 0x100 shifted up by `index` |
| Interrupts.WithFlagTouchesOnlyMask | core/src/main/kotlin/spAnGB/memory/mmio/Interrupts.kt:59-63 | setting or clearing a flag makes it read back as written and leaves every other bit alone |
| Interrupts.Acknowledge16Clears | core/src/main/kotlin/spAnGB/memory/mmio/Interrupts.kt:53-55 | a 16-bit acknowledge never sets a bit, clears every pending bit written as 1 and keeps every other bit |
| Interrupts.AcknowledgeWhatWasRead | core/src/main/kotlin/spAnGB/memory/mmio/Interrupts.kt:42-55 | writing back the pending requests just read clears them all |
| Interrupts.Acknowledge8Low | core/src/main/kotlin/spAnGB/memory/mmio/Interrupts.kt:45-51 | a byte acknowledge of the low byte clears the ones written there and keeps the high byte |
| Interrupts.Acknowledge8High | core/src/main/kotlin/spAnGB/memory/mmio/Interrupts.kt:45-51 | a byte acknowledge of the high byte clears the ones written there and keeps the low byte |
| Interrupts.InterruptMasterEnable.constructor | core/src/main/kotlin/spAnGB/memory/mmio/Interrupts.kt:7-8 | IME starts disabled |
| Interrupts.InterruptMasterEnable.Read | core/src/main/kotlin/spAnGB/memory/mmio/Interrupts.kt:10-14 | every read width returns 1 when enabled and 0 when not |
| Interrupts.InterruptMasterEnable.Write | core/src/main/kotlin/spAnGB/memory/mmio/Interrupts.kt:16-26 | every write width keeps bit 0 of the value and nothing else |
| Interrupts.InterruptEnable.constructor | core/src/main/kotlin/spAnGB/memory/mmio/SimpleMMIO.kt:5-7 | IE starts at 0 |
| Interrupts.InterruptEnable.Read16 | core/src/main/kotlin/spAnGB/memory/mmio/SimpleMMIO.kt:13 | a 16-bit read returns the low halfword |
| Interrupts.InterruptEnable.Read32 | core/src/main/kotlin/spAnGB/memory/mmio/SimpleMMIO.kt:15 | a 32-bit read returns the register |
| Interrupts.InterruptEnable.Write16 | core/src/main/kotlin/spAnGB/memory/mmio/SimpleMMIO.kt:21-23 | a 16-bit write stores the zero-extended halfword |
| Interrupts.InterruptEnable.Write32 | core/src/main/kotlin/spAnGB/memory/mmio/SimpleMMIO.kt:25-27 | a 32-bit write stores only the low sixteen bits |
| Interrupts.InterruptEnable.Get | core/src/main/kotlin/spAnGB/memory/mmio/Interrupts.kt:31 | a flag reads as set exactly when its mask bit is set |
| Interrupts.InterruptEnable.Set | core/src/main/kotlin/spAnGB/memory/mmio/Interrupts.kt:32-35 | setting a flag is `WithFlag` on the register |
| Interrupts.InterruptRequest.constructor | core/src/main/kotlin/spAnGB/memory/mmio/Interrupts.kt:38-39 | IR starts with no request pending |
| Interrupts.InterruptRequest.Read8 | core/src/main/kotlin/spAnGB/memory/mmio/Interrupts.kt:41 | a byte read returns the addressed byte of the low halfword |
| Interrupts.InterruptRequest.Read16 | core/src/main/kotlin/spAnGB/memory/mmio/Interrupts.kt:42 | a 16-bit read returns the low halfword |
| Interrupts.InterruptRequest.Read32 | core/src/main/kotlin/spAnGB/memory/mmio/Interrupts.kt:43 | a 32-bit read returns only the low sixteen bits |
| Interrupts.InterruptRequest.Write8 | core/src/main/kotlin/spAnGB/memory/mmio/Interrupts.kt:45-51 | a byte write acknowledges the requests written as 1 in the addressed byte |
| Interrupts.InterruptRequest.Write16 | core/src/main/kotlin/spAnGB/memory/mmio/Interrupts.kt:53-55 | a 16-bit write acknowledges the requests written as 1 |
| Interrupts.InterruptRequest.Get | core/src/main/kotlin/spAnGB/memory/mmio/Interrupts.kt:59 | a request reads as pending exactly when its mask bit is set |
| Interrupts.InterruptRequest.Set | core/src/main/kotlin/spAnGB/memory/mmio/Interrupts.kt:60-63 | raising or dropping a request is `WithFlag` on the register |
| Waitstates.Cycles | core/src/main/kotlin/spAnGB/memory/mmio/WaitstateControl.kt:8 | a two-bit field selects one of the waits 5, 4, 3 or 9 |
| Waitstates.SequentialCycles | core/src/main/kotlin/spAnGB/memory/mmio/WaitstateControl.kt:9-12 | a region's sequential wait is one of its two table entries, each among 2, 3, 5 or 9 |
| Waitstates.RegionWaitFields | core/src/main/kotlin/spAnGB/memory/mmio/WaitstateControl.kt:47-55 | region i's non-sequential wait is chosen by register bits 2+3i and 3+3i, its sequential wait by bit 4+3i; the non-sequential wait lies in 3-9 and the sequential one in 2-9 |
| Waitstates.WriteByteIsWrite8To16 | core/src/main/kotlin/spAnGB/memory/mmio/WaitstateControl.kt:30-37 | the byte write is the shared 8-into-16 write: the written byte reads back and the other byte is kept |
| Waitstates.WaitstateControl.constructor | core/src/main/kotlin/spAnGB/memory/mmio/WaitstateControl.kt:14-21 | the initial register is 0, and the initial SRAM wait 5 and table [[5,3],[5,5],[5,9]] are exactly the ones value 0 selects |
| Waitstates.WaitstateControl.Read16 | core/src/main/kotlin/spAnGB/memory/mmio/WaitstateControl.kt:27 | a 16-bit read returns the register |
| Waitstates.WaitstateControl.Read32 | core/src/main/kotlin/spAnGB/memory/mmio/WaitstateControl.kt:45 | a 32-bit read returns 0 |
| Waitstates.WaitstateControl.Write8 | core/src/main/kotlin/spAnGB/memory/mmio/WaitstateControl.kt:30-37 | a byte write replaces the addressed byte and leaves the SRAM wait and table consistent with the new value |
| Waitstates.WaitstateControl.Write16 | core/src/main/kotlin/spAnGB/memory/mmio/WaitstateControl.kt:39-42 | a 16-bit write stores the zero-extended halfword and leaves the SRAM wait and table consistent with it |
| Waitstates.WaitstateControl.GenerateLut | core/src/main/kotlin/spAnGB/memory/mmio/WaitstateControl.kt:47-55 | regenerating keeps the register and makes the SRAM wait and every table entry the ones it selects |
| DmaAddresses.Reachable | core/src/main/kotlin/spAnGB/memory/dma/mmio/DMAAddress.kt:1-30 | the bits a register can hold always include the whole low halfword |
| DmaAddresses.WriteHigh | core/src/main/kotlin/spAnGB/memory/dma/mmio/DMAAddress.kt:21-24 | a write with address bit 1 set stores the masked halfword in bits 16-31 and keeps bits 0-15 |
| DmaAddresses.WriteLow | core/src/main/kotlin/spAnGB/memory/dma/mmio/DMAAddress.kt:25-27 | a write with address bit 1 clear stores the halfword in bits 0-15 and keeps the reachable high bits |
| DmaAddresses.WriteStaysReachable | core/src/main/kotlin/spAnGB/memory/dma/mmio/DMAAddress.kt:21-27 | a low-half write leaves only reachable bits whatever was held, and a high-half write keeps a reachable value reachable |
| DmaAddresses.WriteBothHalves | core/src/main/kotlin/spAnGB/memory/dma/mmio/DMAAddress.kt:21-27 | writing the low and then the high half of an address loads the address as far as the mask reaches |
| DmaAddresses.DmaAddress.constructor | core/src/main/kotlin/spAnGB/memory/dma/mmio/DMAAddress.kt:8-11 | a new register holds 0 and the channel's mask |
| DmaAddresses.DmaAddress.Read | core/src/main/kotlin/spAnGB/memory/dma/mmio/DMAAddress.kt:13-15 | every read returns 0: the register is write-only |
| DmaAddresses.DmaAddress.Write16 | core/src/main/kotlin/spAnGB/memory/dma/mmio/DMAAddress.kt:21-27 | a halfword write is `WriteHalf` and keeps the register reachable |
| Dma.CountRange | core/src/main/kotlin/spAnGB/memory/dma/DMA.kt:108-109 | a count write gives 1 to 0x4000 units (0x10000 on channel 3): the masked count, or the maximum when it is 0 |
| Dma.ControlWriteMasked | core/src/main/kotlin/spAnGB/memory/dma/DMA.kt:24 | a control write never keeps bits 0-4, and keeps bit 11 only on channel 3 |
| Dma.ForcedIncrementOnlySource | core/src/main/kotlin/spAnGB/memory/dma/DMA.kt:119-122 | a ROM source (top byte 8 to 0xD) forces the source to increment, and nothing but the source-control bits changes |
| Dma.OffsetsByControl | core/src/main/kotlin/spAnGB/memory/dma/DMA.kt:210-222 | the destination stays put exactly when Fixed and the source exactly when Fixed or Reload; Decrement steps back by one unit |
| Dma.Aligned | core/src/main/kotlin/spAnGB/memory/dma/DMA.kt:152-153 | the latched addresses are aligned down to the unit and the count and last value are kept |
| Dma.StepLatch | core/src/main/kotlin/spAnGB/memory/dma/DMA.kt:161-188 | each unit takes the count down by one |
| Dma.RunLatchEnds | core/src/main/kotlin/spAnGB/memory/dma/DMA.kt:161-188 | the loop ends with the count at 0 and both addresses moved once per unit |
| Dma.RunWritesCount | core/src/main/kotlin/spAnGB/memory/dma/DMA.kt:161-188 | the loop writes exactly `count` units, the k-th at the destination moved k times |
| Dma.AdvanceFixed | core/src/main/kotlin/spAnGB/memory/dma/DMA.kt:210-215 | a Fixed address never moves however many units are copied |
| Dma.WordUnitCopies | core/src/main/kotlin/spAnGB/memory/dma/DMA.kt:129-131 | a word unit from a readable source arrives whole at the destination |
| Dma.UnreadableRepeatsLast | core/src/main/kotlin/spAnGB/memory/dma/DMA.kt:177-181 | a unit from below 0x2000000 is not read: the last value read is written again |
| Dma.EndedEnable | core/src/main/kotlin/spAnGB/memory/dma/DMA.kt:193-208 | after a transfer the channel stays enabled exactly when it was and repeats with a non-immediate start; no other control bit changes |
| Dma.Channel.constructor | core/src/main/kotlin/spAnGB/memory/dma/DMA.kt:19-34 | a channel has its masks and address registers of the right reach, and starts at 0 |
| Dma.Channel.Read16 | core/src/main/kotlin/spAnGB/memory/dma/DMA.kt:86-87 | the control register at the high halfword, 0 at the count |
| Dma.Channel.Read32 | core/src/main/kotlin/spAnGB/memory/dma/DMA.kt:113 | a 32-bit read returns 0 |
| Dma.Channel.Write16 | core/src/main/kotlin/spAnGB/memory/dma/DMA.kt:93-111 | the count or the masked control is written; a 0-to-1 enable latches source, destination and count, and an immediate start is scheduled 2 cycles ahead in the first free slot; nothing is scheduled otherwise; `ok` is false exactly when that immediate start finds no free slot (where `schedule` throws, Scheduler.kt:27-33), and then the scheduler is unchanged |
| Dma.Channel.Transfer | core/src/main/kotlin/spAnGB/memory/dma/DMA.kt:116-127 | memory and latch are the copy loop run from the aligned latch with the forced-increment control, then the end of transfer |
| Dma.Channel.TransferUnits | core/src/main/kotlin/spAnGB/memory/dma/DMA.kt:146-191 | the loop leaves memory and latch as the copy-loop function of the start state |
| Dma.Channel.EndTransfer | core/src/main/kotlin/spAnGB/memory/dma/DMA.kt:193-208 | the channel's interrupt is raised when enabled; the count (and a Reload destination) are relatched on repeat, otherwise the channel is disabled |
| FlashMemory.Id | core/src/main/kotlin/spAnGB/memory/rom/Flash.kt:9-15 | each chip's identification code fits in 16 bits |
| FlashMemory.Size | core/src/main/kotlin/spAnGB/memory/rom/Flash.kt:9-17 | every chip holds 64 or 128 KiB |
| FlashMemory.Erased | core/src/main/kotlin/spAnGB/memory/rom/Flash.kt:120-123 | the erased range reads 0xFF and every other byte is kept |
| FlashMemory.Applied | core/src/main/kotlin/spAnGB/memory/rom/Flash.kt:58 | a store changes one byte, an erase a range, nothing else changes |
| FlashMemory.Addr | core/src/main/kotlin/spAnGB/memory/rom/Flash.kt:42 | the low 16 address bits |
| FlashMemory.BankOffset | core/src/main/kotlin/spAnGB/memory/rom/Flash.kt:63 | a bank number selects offset 0 or 0x10000 |
| FlashMemory.WrittenStaysInside | core/src/main/kotlin/spAnGB/memory/rom/Flash.kt:52-84 | any byte write keeps the bank offset valid for the chip and its store or erase inside the chip |
| FlashMemory.WrittenAsWritten | core/src/main/kotlin/spAnGB/memory/rom/Flash.kt:52-84 | as written `write8`: it stores a byte exactly when a program is armed, toggles identification only through a command at 0x5555 after the unlock writes, and leaves `commandState` at `Second` after a sector erase |
| FlashMemory.Written | core/src/main/kotlin/spAnGB/memory/rom/Flash.kt:52-84 | corrected `write8`: the same storage effect as `WrittenAsWritten` and the same control, except that a sector erase ends the command sequence |
| FlashMemory.DispatchStaysInside | core/src/main/kotlin/spAnGB/memory/rom/Flash.kt:98-118 | any command keeps the control valid and erases only inside the chip |
| FlashMemory.Dispatch | core/src/main/kotlin/spAnGB/memory/rom/Flash.kt:98-118 | a command keeps the bank and the sequence state, turns identification on for 0x90 and off for 0xF0, and touches storage only for 0x10 with an erase armed |
| FlashMemory.CommandSequence | core/src/main/kotlin/spAnGB/memory/rom/Flash.kt:70-82 | 0xAA to 0x5555 and 0x55 to 0x2AAA only advance the unlock state, and the byte written next to 0x5555 is dispatched as a command |
| FlashMemory.IdentificationCommands | core/src/main/kotlin/spAnGB/memory/rom/Flash.kt:100-101 | 0x90 enters and 0xF0 leaves identification mode, leaving the chip ready and the storage untouched |
| FlashMemory.ProgramCommand | core/src/main/kotlin/spAnGB/memory/rom/Flash.kt:106-109 | after 0xA0 the next write stores its byte at the address in the current bank and readies the chip |
| FlashMemory.SectorEraseCommand | core/src/main/kotlin/spAnGB/memory/rom/Flash.kt:66-69 | 0x30 at a 4 KiB boundary with an erase armed fills that sector of the current bank with 0xFF |
| FlashMemory.ChipEraseCommand | core/src/main/kotlin/spAnGB/memory/rom/Flash.kt:110 | 0x10 with an erase armed erases the whole chip, both banks |
| FlashMemory.BankCommand | core/src/main/kotlin/spAnGB/memory/rom/Flash.kt:61-65 | 0xB0 arms a bank switch exactly on the 128 KiB chips, and a 0 or 1 written to address 0 selects that bank |
| FlashMemory.ProgramReadsBack | core/src/main/kotlin/spAnGB/memory/rom/Flash.kt:41-58 | a programmed byte reads back through `read8` except at the identification addresses |
| FlashMemory.ReadByte | core/src/main/kotlin/spAnGB/memory/rom/Flash.kt:41-50 | out of identification mode `read8` returns the byte at `(address and 0xFFFF) + offset`, the corrected wide index |
| FlashMemory.Replicate16 | core/src/main/kotlin/spAnGB/memory/rom/Flash.kt:86 | both bytes of the halfword are the byte read |
| FlashMemory.Replicate32 | core/src/main/kotlin/spAnGB/memory/rom/Flash.kt:88 | all four bytes of the word are the byte read |
| FlashMemory.TwoBanks | core/src/main/kotlin/spAnGB/memory/rom/Flash.kt:14-17 | the two-bank example image has the size of a 128 KiB chip |
| FlashMemory.WideReadCounterexample | core/src/main/kotlin/spAnGB/memory/rom/Flash.kt:86 | as written, a halfword read at 0x0E000000 in bank 1 shows bank 0's byte while `read8` shows bank 1's |
| FlashMemory.WideIndexAsWritten | core/src/main/kotlin/spAnGB/memory/rom/Flash.kt:86-96 | as written, `address and (0x7FFF + offset)`: the index keeps the low 15 address bits, stays below 0x8000 in bank 0, and in bank 1 reaches past 64 KiB exactly when address bit 16 is set, whatever the bank |
| FlashMemory.WideIndex | core/src/main/kotlin/spAnGB/memory/rom/Flash.kt:86-96 | corrected: the index lies in the current bank at position `address and 0xFFFF` |
| FlashMemory.WideReadMatchesByteRead | core/src/main/kotlin/spAnGB/memory/rom/Flash.kt:86-88 | with the index `read8` uses, the wide reads replicate the very byte `read8` returns, in either bank |
| FlashMemory.SectorEraseLosesNextCommand | core/src/main/kotlin/spAnGB/memory/rom/Flash.kt:66-82 | as written, a program command sent right after a sector erase leaves the chip ready instead of armed |
| FlashMemory.SectorEraseThenProgram | core/src/main/kotlin/spAnGB/memory/rom/Flash.kt:66-82 | when the sector erase ends the sequence, the following program command arms the chip |
| FlashMemory.Flash.constructor | core/src/main/kotlin/spAnGB/memory/rom/Flash.kt:24-39 | a new chip is ready, in bank 0, out of identification mode, with every byte 0xFF |
| FlashMemory.Flash.EraseBytes | core/src/main/kotlin/spAnGB/memory/rom/Flash.kt:120-123 | the range is filled with 0xFF and the rest kept |
| FlashMemory.Flash.Read8 | core/src/main/kotlin/spAnGB/memory/rom/Flash.kt:41-50 | the identification byte at addresses 0 and 1 in identification mode, otherwise the byte in the current bank |
| FlashMemory.Flash.Write8 | core/src/main/kotlin/spAnGB/memory/rom/Flash.kt:52-84 | corrected `write8`: control and storage become the outcome of `Written`, whose effect lies inside the chip; after a sector erase the command sequence restarts |
| FlashMemory.Flash.WriteArmed | core/src/main/kotlin/spAnGB/memory/rom/Flash.kt:56-69 | corrected: the armed program, bank switch and sector erase branches follow `Written`, the erase ending the command sequence |
| FlashMemory.Flash.Sequence | core/src/main/kotlin/spAnGB/memory/rom/Flash.kt:70-83 | corrected: the unlock and dispatch branches follow `Written` |
| FlashMemory.Flash.DispatchCommand | core/src/main/kotlin/spAnGB/memory/rom/Flash.kt:98-118 | control and storage become the command function's outcome |
| FlashMemory.Flash.Read16 | core/src/main/kotlin/spAnGB/memory/rom/Flash.kt:86 | corrected `read16`: the byte at the corrected `WideIndex` in both halves |
| FlashMemory.Flash.Read32 | core/src/main/kotlin/spAnGB/memory/rom/Flash.kt:88 | corrected `read32`: the byte at the corrected `WideIndex` in all four lanes |
| FlashMemory.Flash.Write16 | core/src/main/kotlin/spAnGB/memory/rom/Flash.kt:90-92 | corrected `write16`: only the byte at the corrected `WideIndex` changes, to lane `address and 3` of the halfword |
| FlashMemory.Flash.Write32 | core/src/main/kotlin/spAnGB/memory/rom/Flash.kt:94-96 | corrected `write32`: only the byte at the corrected `WideIndex` changes, to lane `address and 3` of the word |
| Cartridges.FoldChecksumIsDifference | core/src/main/kotlin/spAnGB/memory/rom/Cartridge.kt:60-64 | the byte fold is the seed minus the byte sum, modulo 256 |
| Cartridges.HeaderChecksum | core/src/main/kotlin/spAnGB/memory/rom/Cartridge.kt:60-64 | the header checksum is a byte value |
| Cartridges.LoadAccepts | core/src/main/kotlin/spAnGB/memory/rom/Cartridge.kt:28-34 | the constructor's checksum test passes exactly when the ROM holds the header and byte 0xBD equals (0xE7 - sum of bytes 0xA0-0xBC) mod 256; the loaded cartridge keeps the ROM and takes the twelve title bytes 0xA0-0xAB (the backup-type `TODO` is under Left out) |
| Cartridges.Load | core/src/main/kotlin/spAnGB/memory/rom/Cartridge.kt:28-58 | as written, without backup detection: a ROM too short for the header fails, and a loaded cartridge keeps the ROM and takes title bytes 0xA0-0xAB |
| Cartridges.PatchedChecksumLoads | core/src/main/kotlin/spAnGB/memory/rom/Cartridge.kt:31-33 | writing the computed check byte into any ROM with a header makes it load |
| Cartridges.RomOffset | core/src/main/kotlin/spAnGB/memory/rom/Cartridge.kt:68 | the offset lies in the 32 MiB window |
| Cartridges.LastHalfwordCounterexample | core/src/main/kotlin/spAnGB/memory/rom/Cartridge.kt:74-88 | as written, the last halfword and last word of a 0xC0-byte ROM read as open bus although they lie inside it |
| Cartridges.ByteReadsInsideRom | core/src/main/kotlin/spAnGB/memory/rom/Cartridge.kt:67-73 | a byte inside the ROM reads as the ROM's byte and one past its end as the open-bus byte |
| Cartridges.Read8 | core/src/main/kotlin/spAnGB/memory/rom/Cartridge.kt:67-73 | a byte inside the ROM reads as the ROM byte at `address and 0x1FFFFFF` |
| Cartridges.HalfwordReadsInsideRom | core/src/main/kotlin/spAnGB/memory/rom/Cartridge.kt:74-80 | a halfword wholly inside the ROM reads as its two bytes, low first, and any other as the open-bus halfword |
| Cartridges.Read16AsWritten | core/src/main/kotlin/spAnGB/memory/rom/Cartridge.kt:74-80 | as written: a halfword that does not lie wholly inside the ROM reads as open bus (the last halfword too, see the counterexample) |
| Cartridges.Read16 | core/src/main/kotlin/spAnGB/memory/rom/Cartridge.kt:74-80 | corrected: a halfword that does not lie wholly inside the ROM reads as open bus |
| Cartridges.WordReadsInsideRom | core/src/main/kotlin/spAnGB/memory/rom/Cartridge.kt:81-88 | a word wholly inside the ROM reads as its four bytes and any other as the open-bus word |
| Cartridges.Read32AsWritten | core/src/main/kotlin/spAnGB/memory/rom/Cartridge.kt:81-88 | as written: a word that does not lie wholly inside the ROM reads as open bus (the last word too, see the counterexample) |
| Cartridges.Read32 | core/src/main/kotlin/spAnGB/memory/rom/Cartridge.kt:81-88 | corrected: a word that does not lie wholly inside the ROM reads as open bus |
| Cartridges.CorrectedReadsAgreeElsewhere | core/src/main/kotlin/spAnGB/memory/rom/Cartridge.kt:74-88 | on a ROM of whole words the corrected reads differ from the source only at the last halfword and the last word |
| Vram.ParseAddress | core/src/main/kotlin/spAnGB/memory/ram/VRAM.kt:21-24 | every address maps inside the 96 KiB |
| Vram.ParseAddressMirror | core/src/main/kotlin/spAnGB/memory/ram/VRAM.kt:21-24 | window offsets below 0x18000 map to themselves and the last 32 KiB onto 0x10000-0x17FFF |
| Vram.ByteWriteLimit | core/src/main/kotlin/spAnGB/memory/ram/VRAM.kt:32-35 | byte writes reach 0x14000 in modes 3 and 4 and 0x10000 otherwise |
| Vram.Doubled | core/src/main/kotlin/spAnGB/memory/ram/VRAM.kt:38 | the byte is in both halves of the halfword |
| Vram.Video.constructor | core/src/main/kotlin/spAnGB/memory/ram/VRAM.kt:15-19 | a new VRAM is 96 KiB of zeros |
| Vram.Video.Read8 | core/src/main/kotlin/spAnGB/memory/ram/VRAM.kt:26 | the byte at the mapped offset |
| Vram.Video.Read16 | core/src/main/kotlin/spAnGB/memory/ram/VRAM.kt:27 | the little-endian halfword at the mapped offset rounded down to 2 |
| Vram.Video.Read32 | core/src/main/kotlin/spAnGB/memory/ram/VRAM.kt:28 | the little-endian word at the mapped offset rounded down to 4 |
| Vram.Video.Write8 | core/src/main/kotlin/spAnGB/memory/ram/VRAM.kt:30-40 | below the mode's limit the byte fills the aligned halfword; at or above it nothing changes |
| Vram.Video.Write16 | core/src/main/kotlin/spAnGB/memory/ram/VRAM.kt:42-44 | only the aligned halfword at the mapped offset changes, to the value |
| Vram.Video.Write32 | core/src/main/kotlin/spAnGB/memory/ram/VRAM.kt:46-48 | only the aligned word at the mapped offset changes, to the value |
| Vram.ByteWriteReadsBack | core/src/main/kotlin/spAnGB/memory/ram/VRAM.kt:37-39 | a byte written below the limit reads back from both bytes of its halfword |
| Mosaic.BackgroundHorizontal | core/src/main/kotlin/spAnGB/ppu/mmio/MosaicControl.kt:6 | the background block width is the nibble in bits 0-3 |
| Mosaic.BackgroundVertical | core/src/main/kotlin/spAnGB/ppu/mmio/MosaicControl.kt:7 | the background block height is the nibble in bits 4-7 |
| Mosaic.ObjectHorizontal | core/src/main/kotlin/spAnGB/ppu/mmio/MosaicControl.kt:8 | the sprite block width is the nibble in bits 8-11 |
| Mosaic.ObjectVertical | core/src/main/kotlin/spAnGB/ppu/mmio/MosaicControl.kt:9 | the sprite block height is the nibble in bits 12-15 |
| Mosaic.Compose | core/src/main/kotlin/spAnGB/ppu/mmio/MosaicControl.kt:6-9 | four nibble sizes make a 16-bit register value |
| Mosaic.FieldsOfCompose | core/src/main/kotlin/spAnGB/ppu/mmio/MosaicControl.kt:6-9 | the four field readers return the sizes a value was composed from |
| Mosaic.ComposeOfFields | core/src/main/kotlin/spAnGB/ppu/mmio/MosaicControl.kt:6-9 | every 16-bit register value is the composition of its four fields |
| Mosaic.StepWithin | core/src/main/kotlin/spAnGB/ppu/mmio/MosaicControl.kt:24 | one counter step from a non-negative counter lands in 0..limit, either at 0 or one up |
| Mosaic.StepsCount | core/src/main/kotlin/spAnGB/ppu/mmio/MosaicControl.kt:24 | from zero the counter counts 0, 1, ..., limit |
| Mosaic.BlockLength | core/src/main/kotlin/spAnGB/ppu/mmio/MosaicControl.kt:23-29 | a mosaic block is `limit + 1` pixels: the counter first returns to 0 after that many steps |
| Mosaic.MosaicControl.constructor | core/src/main/kotlin/spAnGB/ppu/mmio/MosaicControl.kt:5-14 | the register and all four counters start at 0 |
| Mosaic.MosaicControl.Write16 | core/src/main/kotlin/spAnGB/memory/mmio/SimpleMMIO.kt:21-23 | the register becomes the unsigned halfword and the counters are kept |
| Mosaic.MosaicControl.Write32 | core/src/main/kotlin/spAnGB/memory/mmio/SimpleMMIO.kt:25-27 | the register becomes the low halfword of the word and the counters are kept |
| Mosaic.MosaicControl.AdvanceCounters | core/src/main/kotlin/spAnGB/ppu/mmio/MosaicControl.kt:16-21 | both Y counters step within their block heights and both X counters restart |
| Mosaic.MosaicControl.AdvanceObjX | core/src/main/kotlin/spAnGB/ppu/mmio/MosaicControl.kt:23-25 | the sprite X counter steps within the sprite block width; nothing else changes |
| Mosaic.MosaicControl.AdvanceBgX | core/src/main/kotlin/spAnGB/ppu/mmio/MosaicControl.kt:27-29 | the background X counter steps within the background block width; nothing else changes |
| Mosaic.MosaicControl.ResetCounters | core/src/main/kotlin/spAnGB/ppu/mmio/MosaicControl.kt:30-33 | both Y counters return to 0 and nothing else changes |
| SpritePixels.Cleared | core/src/main/kotlin/spAnGB/ppu/sprite/SpritePixel.kt:15-20 | a cleared pixel is transparent with no flags and keeps its color |
| SpritePixels.AppliedNonOpaque | core/src/main/kotlin/spAnGB/ppu/sprite/SpritePixel.kt:30-33 | a transparent input changes only the mosaic flag; a window input only sets the window flag |
| SpritePixels.AppliedOpaque | core/src/main/kotlin/spAnGB/ppu/sprite/SpritePixel.kt:34-39 | an opaque input takes the pixel exactly when its priority value is strictly lower, and never touches the window flag |
| SpritePixels.ApplyAllKeepsLowest | core/src/main/kotlin/spAnGB/ppu/sprite/SpritePixel.kt:22-40 | after a run of opaque sprites the pixel holds the lowest priority value among the start and the inputs, and the color of the first input that reached it |
| SpritePixels.SpritePixel.constructor | core/src/main/kotlin/spAnGB/ppu/sprite/SpritePixel.kt:7-14 | a new pixel is transparent, color 0, no flags |
| SpritePixels.SpritePixel.Clear | core/src/main/kotlin/spAnGB/ppu/sprite/SpritePixel.kt:15-20 | the pixel becomes the cleared pixel |
| SpritePixels.SpritePixel.Apply | core/src/main/kotlin/spAnGB/ppu/sprite/SpritePixel.kt:22-40 | the pixel becomes the applied pixel |
| SpritePixels.SpritePixel.IsTransparent | core/src/main/kotlin/spAnGB/ppu/sprite/SpritePixel.kt:42 | true exactly when the priority is the transparent one |
| SpritePixels.ClearedThenDrawn | core/src/main/kotlin/spAnGB/ppu/sprite/SpritePixel.kt:15-42 | a cleared pixel drawn over by opaque sprites stays transparent exactly when every sprite has priority value 4 or more |
| PixelProcessing.WithReadsBack | core/src/main/kotlin/spAnGB/ppu/mmio/DisplayStat.kt:45-49 | setting a DISPSTAT flag makes it read back as given and leaves every other flag as it was |
| PixelProcessing.DimensionFields | core/src/main/kotlin/spAnGB/ppu/mmio/win/WindowDimension.kt:9-12 | a window register holding `first` in its high byte and `last` in its low byte yields those two bounds |
| PixelProcessing.WindowPriority | core/src/main/kotlin/spAnGB/ppu/PPU.kt:64-86 | window 0 wins wherever it covers the pixel, window 1 wherever 0 does not, the object window only outside both, and a pixel no window claims is outside |
| PixelProcessing.LevelColor | core/src/main/kotlin/spAnGB/ppu/PPU.kt:139-143 | a level that shows something gives a nonzero color |
| PixelProcessing.FirstLevel | core/src/main/kotlin/spAnGB/ppu/PPU.kt:137-150 | the level found lies between the start and 3 |
| PixelProcessing.FirstLevelIsLowest | core/src/main/kotlin/spAnGB/ppu/PPU.kt:137-150 | the search finds the lowest showing level, and none exactly when no level from the start shows |
| PixelProcessing.MixedIsFrontmost | core/src/main/kotlin/spAnGB/ppu/PPU.kt:133-157 | the mixed pixel is the backdrop exactly when no level shows; otherwise the nonzero color of the lowest showing level, an enabled sprite beating its background |
| PixelProcessing.VCounterOnTransition | core/src/main/kotlin/spAnGB/ppu/PPU.kt:273-281 | VCOUNTER reads `ly == lyc` afterwards, and the VCount IRQ is raised exactly on a new match with the IRQ enabled |
| PixelProcessing.HDrawRaisesWhenEnabled | core/src/main/kotlin/spAnGB/ppu/PPU.kt:297-302 | the HBlank IRQ is raised exactly when enabled and no DISPSTAT flag but HBLANK changes |
| PixelProcessing.HDrawInPhase | core/src/main/kotlin/spAnGB/ppu/PPU.kt:283-303 | from a visible line with neither blank flag, HDraw keeps the line, sets HBLANK and schedules HBlank |
| PixelProcessing.HBlankInPhase | core/src/main/kotlin/spAnGB/ppu/PPU.kt:305-321 | from HBlank the line advances and the phase holds: HDraw follows below line 160 and VBlank from it on |
| PixelProcessing.VBlankInPhase | core/src/main/kotlin/spAnGB/ppu/PPU.kt:323-336 | a VBlank line advances, wrapping from 227 to 0 into HDraw with VBLANK cleared, and the phase holds |
| PixelProcessing.HBlankFlagStaysSet | core/src/main/kotlin/spAnGB/ppu/PPU.kt:305-321 | as written, after the HBlank of line 0 the next HDraw begins with HBLANK still set, outside the phase |
| PixelProcessing.Ppu.constructor | core/src/main/kotlin/spAnGB/ppu/PPU.kt:29-62 | a new PPU is at line 0 with every flag, register and line buffer 0, in phase for HDraw, with HDraw scheduled 960 cycles ahead in the first free slot |
| PixelProcessing.Ppu.Enables | core/src/main/kotlin/spAnGB/ppu/PPU.kt:89 | a window's mixing-table row has six entries |
| PixelProcessing.Ppu.Column | core/src/main/kotlin/spAnGB/ppu/PPU.kt:53-54 | a pixel of four line buffers has four entries |
| PixelProcessing.Ppu.GetCurrentWindow | core/src/main/kotlin/spAnGB/ppu/PPU.kt:64-86 | the window is the prioritised window choice for the current line and pixel |
| PixelProcessing.Ppu.MixBuffers | core/src/main/kotlin/spAnGB/ppu/PPU.kt:133-157 | the final buffer's pixel becomes the mixed color of the pixel's window row, and no other line-buffer entry changes |
| PixelProcessing.Ppu.CheckVCounter | core/src/main/kotlin/spAnGB/ppu/PPU.kt:273-281 | line state and IR become the VCount check of the old ones |
| PixelProcessing.Ppu.HDraw | core/src/main/kotlin/spAnGB/ppu/PPU.kt:283-303 | line state, IR and the task slot become the HDraw step: HBlank scheduled 272 cycles ahead in the same slot |
| PixelProcessing.Ppu.HBlank | core/src/main/kotlin/spAnGB/ppu/PPU.kt:305-321 | corrected `hblank`: line state, IR and the task slot become `HBlankStep`, which also clears HBLANK when the next HDraw is scheduled |
| PixelProcessing.Ppu.HBlankAsWritten | core/src/main/kotlin/spAnGB/ppu/PPU.kt:305-321 | as written, line state, IR and the task slot become `HBlankStepAsWritten`, which leaves HBLANK set before the next HDraw |
| PixelProcessing.Ppu.VBlank | core/src/main/kotlin/spAnGB/ppu/PPU.kt:323-336 | line state, IR and the task slot become the VBlank step |

## Left out

- The processor's register file, pipeline and banks are `seq` fields of `Processor.Cpu` that each method reassigns, not arrays updated in place; aliasing between them is not modelled.
- `Bus.kt` is not part of this model: memory is a flat little-endian byte map in which an absent byte reads 0. Bus timing is left out: `idle`, `step`, access types, wait states charged per access and the game pak prefetch.
- The carry and borrow of additions and subtractions are stated in the source's own `dumbCarry`/`dumbBorrow` terms, not as unsigned overflow of the integer sum.
- `lutCondition` and `flagLutFactory` are not part of this model. Conditions are evaluated by the Rust `is_condition` table, and cpsr bits 24-27 are taken to be zero where the Kotlin index ORs them in.
- Of src/core/cpu/cpu.rs, the pipeline fills, the opcode tables, `init`, `tick_ARM`, `tick_THUMB` and `undefined_opcode` are left out: they call into code outside the file. `switch_state` names the fill that runs next instead of running it.
- The THUMB conditional branch with condition 0xE is modelled as always taken, which is what the condition table gives for it.
- An undefined ARM or THUMB opcode, where the source throws, is an `Err` result.
- Debug output (`println` in the Flash chip and the handlers) is left out.
- Scheduling.Scheduler.Tick: it reports which slots are due instead of invoking the task closures. A task that reschedules or clears slots during the scan, and 64-bit overflow of the counter, are not modelled.
- `KiB` is taken to be 1024; its definition is not part of this model.
- The registers' `TODO` accesses are left out: `DMAAddress.write8`/`write32`, the DMA channel's `read8`/`write8`, the `SimpleMMIO` `read8`/`write8`, `WaitstateControl.read8`, and the DISPSTAT and window-dimension registers' byte and word accesses.
- The ignored 32-bit writes (`WaitstateControl.write32`, `InterruptRequest.write32`) are methods without a `modifies` clause: they change nothing by construction and carry no contract. The DMA channel's `write32` is left out.
- The cartridge's backup detection (the search for `SRAM_V`, `FLASH_V`, … in the ROM) and the UTF-8 decoding of the title are left out; the title is kept as its twelve raw bytes.
- `Vram.Video.Write8` takes the background mode as a parameter instead of reading the display control register it holds.
- PPU rendering is left out: the background modes, sprites, `renderMixedBuffers`, `fillWindowLut`, `clearLineBuffers` and the framebuffer copy, along with the `TODO` for modes 2 and 5. `hdraw` is modelled as its timing and flag part. The mixing table is a field that the model does not fill.
- The DISPSTAT register write (`flags = value and 0xFF`) is not modelled; the model does not capture that a write there also overwrites the three status flags.
- DMA: `earlyExit`, `activeDma`, the access types and the start timings other than immediate are left out. `DMAManager` is not part of this model; the immediate start is a scheduler task named `DmaImmediate`.
- ARM TST/TEQ/CMP/CMN with destination r15 reads spsr after `setCPUMode` has switched the mode (arm/DataProcessing.kt:62-67), unlike the path for the other opcodes. It is modelled as written.
- ARM LDRH/LDRSB/LDRSH into r15 writes pc without a pipeline refill. It is modelled as written.
- Tick.ArmEffect: dispatches the corrected `ArmTransfer.Ldr` and `ArmBlockTransfer.Ldm`, which refill the pipeline after a load of r15, not `LdrAsWritten` and `LdmAsWritten`, which model `armLdr` and `armLdm` as the source has them (see Findings).
- Tick.ThumbEffect: dispatches the corrected `ThumbMemory.Ldmia` and the ALU with the corrected `NegEffect`, not `LdmiaAsWritten` and `NegAsWritten`, which model `thumbLdmia` and `thumbNeg` as the source has them (see Findings).
- Tick.Tick: runs instructions through `ArmEffect` and `ThumbEffect`, so for LDR, LDM, LDMIA and NEG it gives the corrected outcome, not the source's.
- Tick.ExecuteArm: for LDR and LDM gives the corrected outcome through `ArmEffect`, not the source's.
- Tick.ExecuteThumb: for LDMIA and NEG gives the corrected outcome through `ThumbEffect`, not the source's.
- Tick.HeldConditionRuns: the handler it runs is the one `ArmEffect` gives, the corrected one for LDR and LDM.
- Tick.ThumbRuns: the handler it runs is the one `ThumbEffect` gives, the corrected one for LDMIA and NEG.
- Tick.RunTick: ends in the state of the corrected `Tick`, so for LDR, LDM, LDMIA and NEG it does not promise the source's outcome.
- Tick.RunExecuteArm: ends in the state of the corrected `ExecuteArm`; for LDR and LDM it does not promise the source's outcome.
- Tick.RunExecuteThumb: ends in the state of the corrected `ExecuteThumb`; for LDMIA and NEG it does not promise the source's outcome.
- Tick.RunArm: runs `RunLdr` and `RunLdm`, the corrected handlers, not `RunLdrAsWritten` and `RunLdmAsWritten`.
- Tick.RunThumb: runs `RunLdmia` and, through `RunAlu`, `RunNeg`: the corrected handlers.
- ArmTransfer.RunLdr: follows the corrected `Ldr`; `RunLdrAsWritten` is the handler as the source has it.
- FlashMemory.Flash.Write8: follows the corrected `Written`, so after a sector erase the command sequence restarts; `WrittenAsWritten` is the source's behaviour, where the next command is lost.
- FlashMemory.Flash.WriteArmed: follows the corrected `Written` in the sector erase branch.
- FlashMemory.Flash.Sequence: follows the corrected `Written`, so a sequence that follows a sector erase starts from no unlock step seen.
- FlashMemory.Flash.Read16: reads at the corrected `WideIndex`, not at the source's `WideIndexAsWritten`, which differs in bank 1 and for address bit 15.
- FlashMemory.Flash.Read32: reads at the corrected `WideIndex`, not at the source's `WideIndexAsWritten`.
- FlashMemory.Flash.Write16: writes at the corrected `WideIndex`, not at the source's `WideIndexAsWritten`.
- FlashMemory.Flash.Write32: writes at the corrected `WideIndex`, not at the source's `WideIndexAsWritten`.
- Cartridges.LoadAccepts: its "exactly when" covers the checksum test only. The constructor also throws `TODO` when the first backup-type string found in the ROM is `FLASH512_V`, for which it has no chip (Cartridge.kt:13 and 36-43), and backup detection is not modelled.
- Cartridges.Load: does not throw for a ROM whose first backup-type string is `FLASH512_V`, where the source's constructor does.
- ThumbMemory.RunLdmia: follows the corrected `Ldmia`, which leaves a listed Rb holding the loaded word; `RunLdmiaAsWritten` is `thumbLdmia` as the source has it.
- ThumbDataProcessing.RunNeg: follows the corrected `NegEffect`, which sets V on signed overflow; `RunNegAsWritten` is `thumbNeg` as the source has it, with V always clear.
- ThumbDataProcessing.RunAlu: runs NEG through `RunNeg`, so for NEG it ends in the corrected `NegEffect`, not the source's `NegAsWritten`.
- PixelProcessing.Ppu.HBlank: follows the corrected `HBlankStep`, which clears HBLANK when the next HDraw is scheduled; `Ppu.HBlankAsWritten` is `hblank` as the source has it, leaving HBLANK set.
- Tick.Execute: dispatches the corrected `ExecuteArm` and `ExecuteThumb`, so for LDR, LDM, LDMIA and NEG it gives the corrected outcome, not the source's.
- Dma.Channel.Write16: where `schedule` throws for want of a free task slot, the model returns `ok` false with the scheduler unchanged; the control, count and latch are written all the same.

## Findings

| source | as written | input that shows it | evidently intended | confidence | as-written member | corrected member |
|---|---|---|---|---|---|---|
| core/src/main/kotlin/spAnGB/cpu/thumb/DataProcessing.kt:156-164 | NEG computes V by `subOverflow()` from the `result` field, which still holds the 0 that `initialize` put there, so V is always cleared | NEG of 0x80000000 | V set exactly when the operand is 0x80000000, as for `0 - operand` | not executed | ThumbDataProcessing.NegAsWrittenMissesOverflow | ThumbDataProcessing.NegCarryAndOverflow |
| core/src/main/kotlin/spAnGB/cpu/thumb/Memory.kt:257-282 | LDMIA adds the block size to Rb after the loads, so a listed Rb ends as the loaded word plus four bytes per register | LDMIA r0!, {r0} | a listed base keeps the loaded word, as `armLdm` does in the same code base | not executed | ThumbMemory.LdmiaAsWrittenMissesBase | ThumbMemory.LdmiaLoadsListed |
| core/src/main/kotlin/spAnGB/cpu/arm/Memory.kt:81-93 | LDR stores into r15 by a plain register write, so pc moves but the pipeline keeps the instructions fetched before the load | `LDR pc, [r0]` (0xE590F000) from reset with r0 = 0 and the word 1 at address 0 | a load into pc branches, refilling the pipeline as `setRegister(15, …)` does | not executed | ArmTransfer.LdrPcCounterexample | ArmTransfer.LdrPcBranches |
| core/src/main/kotlin/spAnGB/cpu/arm/Memory.kt:297 | LDM loads r15 by a plain register write, leaving the old pipeline in place | any LDM whose list holds r15, in ARM state | the load of r15 branches to the loaded word with a refilled pipeline | not executed | ArmBlockTransfer.LdmAsWrittenKeepsPipeline | ArmBlockTransfer.LdmPcBranches |
| core/src/main/kotlin/spAnGB/memory/rom/Cartridge.kt:74-88 | `read16` tests `addr >= size - 2` and `read32` tests `addr >= size - 4`, so the last halfword and the last word read as open bus | a 0xC0-byte ROM of 0xFF bytes, `read16(0xBE)` gives 0x5F | a halfword or word lying wholly inside the ROM reads as the ROM's bytes | not executed | Cartridges.LastHalfwordCounterexample | Cartridges.HalfwordReadsInsideRom |
| core/src/main/kotlin/spAnGB/memory/rom/Flash.kt:66-69 | the sector erase branch leaves `commandState` at `Second`, so the unlock that follows is taken as a command and the next command is lost | sector erase, then 0xAA, 0x55, 0xA0 | the erase ends the command sequence like every other command, and the program command that follows is taken | not executed | FlashMemory.SectorEraseLosesNextCommand | FlashMemory.SectorEraseThenProgram |
| core/src/main/kotlin/spAnGB/memory/rom/Flash.kt:86-96 | `address and SRAM_MASK + offset` parses as `address and (0x7FFF + offset)`, so in bank 1 a wide access keeps address bit 16 and drops the bank offset | `read16(0x0E000000)` in bank 1 of a 128 KiB chip reads byte 0 of bank 0 | the byte `read8` addresses: `(address and 0xFFFF) + offset` | not executed | FlashMemory.WideReadCounterexample | FlashMemory.WideReadMatchesByteRead |
| core/src/main/kotlin/spAnGB/ppu/PPU.kt:305-321 | `hblank` clears HBLANK only when entering VBlank, so every visible line after the first runs its HDraw period with HBLANK set | line 0, HBlank period, then line 1 | HBLANK cleared when the next line's HDraw begins | not executed | PixelProcessing.HBlankFlagStaysSet | PixelProcessing.HBlankInPhase |
| core/src/main/kotlin/spAnGB/utils/Extensions.kt:16 | `setBit(bit, value)` clears the bit when `value` is true and sets it when false | `0.setBit(0, true)` gives 0 | the bit becomes `value` | not executed | Extensions.SetBitAsWrittenIsInverted | Extensions.SetBit |
