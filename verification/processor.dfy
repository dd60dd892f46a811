/**
 * The processor object of cpu/CPU.kt: its register file, banks, pipeline,
 * status words and mode are fields that the methods below reassign. `View`
 * reads the whole state as a `CpuModel.Machine`, and every method is proved
 * to have exactly the effect of the function of the same name in CpuModel,
 * whose properties CpuBanks and CpuProperties prove.
 *
 * The interrupt controller's IME, IE and IR registers are parameters of
 * `HandlePendingInterrupts`; the halt latch the source keeps in the MMIO
 * block is the field `halted`.
 */
module Processor {
  import opened CpuFlags
  import opened CpuModes
  import opened Memory
  import opened CpuModel
  import opened Extensions
  import opened CpuUtils

  class Cpu {
    const bus: Bus
    var registers: seq<bv32>
    /** The four rows of three (r13, r14, spsr) of `registerBanks`, row-major. */
    var registerBanks: seq<bv32>
    var fastIrqRegisters: seq<bv32>
    var fastIrqSpsr: bv32
    /** `_registers`. */
    var userRegisters: seq<bv32>
    var pipeline: Pipeline
    var cpsr: bv32
    var spsr: bv32
    var shifterCarry: bool
    var state: CpuState
    var mode: Mode
    var halted: bool

    ghost predicate Valid()
      reads this
    {
      |registers| == 16 && |registerBanks| == 12 && |fastIrqRegisters| == 7 && |userRegisters| == 7
    }

    /** The processor state as a value. */
    ghost function View(): (m: Machine)
      reads this
      ensures Valid() ==> Wf(m)
    {
      Machine(registers, registerBanks, fastIrqRegisters, fastIrqSpsr, userRegisters,
        pipeline, cpsr, spsr, shifterCarry, state, mode, halted)
    }

    constructor (bus: Bus)
      ensures Valid() && View() == Initial() && this.bus == bus
    {
      this.bus := bus;
      registers := seq(16, _ => 0);
      registerBanks := seq(12, _ => 0);
      fastIrqRegisters := seq(7, _ => 0);
      fastIrqSpsr := 0;
      userRegisters := seq(7, _ => 0);
      pipeline := Pipeline(0, 0);
      cpsr := 0;
      spsr := 0;
      shifterCarry := false;
      state := Arm;
      mode := System;
      halted := false;
    }

    /** `cpu[flag]`. */
    function Get(f: Flag): bool
      reads this
    {
      CpuFlags.Get(cpsr, f)
    }

    /** `cpu[flag] = value`: the mask cleared, then or-ed back in when `value` (CpuFlags.Set). */
    method SetFlag(f: Flag, value: bool)
      modifies this
      ensures View() == CpuModel.SetFlag(old(View()), f, value)
    {
      cpsr := Set(cpsr, f, value);
    }

    /** `negativeAndZero(result)`: N from bit 31 of `result`, then Z from `result == 0`. */
    method NegativeAndZero(result: bv32)
      modifies this
      ensures View() == old(View()).(cpsr := SetNZ(old(cpsr), result))
    {
      SetFlag(N, Negative(result));
      SetFlag(Z, result == 0);
    }

    /** `armRefill`: align pc down, fetch the head there and the next word after it. */
    method ArmRefill()
      requires Valid()
      modifies this
      ensures Valid() && View() == CpuModel.ArmRefill(old(View()), bus.memory)
    {
      var pc := AlignWord(registers[15]);
      var head := Read32(bus.memory, pc);
      var next := Read32(bus.memory, NextWord(pc));
      registers := registers[15 := NextWord(pc)];
      pipeline := Pipeline(next, head);
    }

    /** `thumbRefill`. */
    method ThumbRefill()
      requires Valid()
      modifies this
      ensures Valid() && View() == CpuModel.ThumbRefill(old(View()), bus.memory)
    {
      var pc := AlignHalf(registers[15]);
      var head := Read16(bus.memory, pc);
      var next := Read16(bus.memory, NextHalf(pc));
      registers := registers[15 := NextHalf(pc)];
      pipeline := Pipeline(next, head);
    }

    /** `armStep`: the fetched word moves to the head, pc advances and the next word is fetched. */
    method ArmStep()
      requires Valid()
      modifies this
      ensures Valid() && View() == CpuModel.ArmStep(old(View()), bus.memory)
    {
      var pc := NextWord(registers[15]);
      registers := registers[15 := pc];
      pipeline := Pipeline(Read32(bus.memory, pc), pipeline.next);
    }

    /** `thumbStep`. */
    method ThumbStep()
      requires Valid()
      modifies this
      ensures Valid() && View() == CpuModel.ThumbStep(old(View()), bus.memory)
    {
      var pc := NextHalf(registers[15]);
      registers := registers[15 := pc];
      pipeline := Pipeline(Read16(bus.memory, pc), pipeline.next);
    }

    /** `setRegister(index, value)`. */
    method SetRegister(index: nat, value: bv32)
      requires Valid() && index < 16
      modifies this
      ensures Valid() && View() == CpuModel.SetRegister(old(View()), bus.memory, index, value)
    {
      registers := registers[index := value];
      if index == 15 {
        if state == Arm {
          ArmRefill();
        } else {
          ThumbRefill();
        }
      }
    }

    /** `changeState(stateBit)`, with the bit as a boolean (1 is THUMB). */
    method ChangeState(thumb: bool)
      requires Valid()
      modifies this
      ensures Valid() && View() == CpuModel.ChangeState(old(View()), bus.memory, thumb)
    {
      state := if thumb then Thumb else Arm;
      SetFlag(T, state == Thumb);
      if state == Arm {
        ArmRefill();
      } else {
        ThumbRefill();
      }
    }

    /** The save half of `setCPUMode`: park the registers of the mode being left. */
    method SaveBank()
      requires Valid()
      modifies this
      ensures Valid() && View() == CpuModel.SaveBank(old(View()))
    {
      if mode == User || mode == System {
        SaveUserBank();
      } else if mode == FastInterrupt {
        SaveFiqBank();
      } else {
        SaveModeRow();
      }
    }

    method SaveUserBank()
      requires Valid()
      modifies this
      ensures Valid() && View() == CpuModel.SaveUserBank(old(View()))
    {
      userRegisters := CopyInto(registers, userRegisters, 0, 8, 15);
    }

    method SaveFiqBank()
      requires Valid()
      modifies this
      ensures Valid() && View() == CpuModel.SaveFiqBank(old(View()))
    {
      fastIrqRegisters := CopyInto(registers, fastIrqRegisters, 0, 8, 15);
      fastIrqSpsr := spsr;
    }

    method SaveModeRow()
      requires Valid() && IsBanked(mode)
      modifies this
      ensures Valid() && View() == CpuModel.SaveModeRow(old(View()))
    {
      userRegisters := CopyInto(registers, userRegisters, 0, 8, 13);
      var row := 3 * Ordinal(mode);
      registerBanks := registerBanks[row := registers[13]][row + 1 := registers[14]][row + 2 := spsr];
    }

    /** The restore half of `setCPUMode`: bring in the registers of mode `value`. */
    method RestoreBank(value: Mode)
      requires Valid()
      modifies this
      ensures Valid() && View() == CpuModel.RestoreBank(old(View()), value)
    {
      if value == User || value == System {
        RestoreUserBank();
      } else if value == FastInterrupt {
        RestoreFiqBank();
      } else {
        RestoreModeRow(value);
      }
    }

    method RestoreUserBank()
      requires Valid()
      modifies this
      ensures Valid() && View() == CpuModel.RestoreUserBank(old(View()))
    {
      registers := CopyInto(userRegisters, registers, 8, 0, 7);
    }

    method RestoreFiqBank()
      requires Valid()
      modifies this
      ensures Valid() && View() == CpuModel.RestoreFiqBank(old(View()))
    {
      registers := CopyInto(fastIrqRegisters, registers, 8, 0, 7);
      spsr := fastIrqSpsr;
    }

    method RestoreModeRow(value: Mode)
      requires Valid() && IsBanked(value)
      modifies this
      ensures Valid() && View() == CpuModel.RestoreModeRow(old(View()), value)
    {
      var row := 3 * Ordinal(value);
      registers := CopyInto(userRegisters, registers, 8, 0, 5)[13 := registerBanks[row]][14 := registerBanks[row + 1]];
      spsr := registerBanks[row + 2];
    }

    /** `setCPUMode(value)`. */
    method SetCpuMode(value: Mode)
      requires Valid()
      modifies this
      ensures Valid() && View() == CpuModel.SetCpuMode(old(View()), value)
    {
      if mode != value {
        SaveBank();
        RestoreBank(value);
        cpsr := WithModeBits(cpsr, value);
        mode := value;
      }
    }

    /** The writes of interrupt entry after the mode switch: pc = 0x18, lr, spsr, I set, T clear, ARM state. */
    method EnterVector(link: bv32, saved: bv32)
      requires Valid()
      modifies this
      ensures Valid() && View() == CpuModel.EnterVector(old(View()), link, saved)
    {
      registers := registers[15 := 0x18][14 := link];
      spsr := saved;
      SetFlag(I, true);
      SetFlag(T, false);
      state := Arm;
    }

    /**
     * `handlePendingInterrupts`, with IME, IE and IR passed in: when an
     * enabled interrupt is pending and I is clear, enter IRQ mode at 0x18.
     */
    method HandlePendingInterrupts(ime: bool, ie: bv32, ir: bv32)
      requires Valid()
      modifies this
      ensures Valid() && View() == CpuModel.HandlePendingInterrupts(old(View()), bus.memory, ime, ie, ir)
    {
      if InterruptPending(cpsr, ime, ie, ir) {
        var link := InterruptLink(registers[15], state);
        var saved := cpsr;
        SetCpuMode(Interrupt);
        EnterVector(link, saved);
        ArmRefill();
        halted := false;
      }
    }
  }
}
