/**
 * The struct `CPU` of src/core/cpu/cpu.rs as an object whose methods
 * reassign its fields, each proved to have the effect of the function of
 * the same name in RustCpu.
 */
module RustProcessor {
  import opened CpuFlags
  import opened CpuModes
  import opened CpuModel
  import RustCpu

  /** The struct `CPU` of the earlier port, with its arrays as sequences. */
  class RustCpuState {
    var register: seq<bv32>
    var bankReg: seq<bv32>
    var fiqReg: seq<bv32>
    var fiqSpsr: bv32
    var reg: seq<bv32>
    var cpsr: bv32
    var state: CpuState
    var mode: Mode
    var pipeline: seq<bv32>

    ghost predicate Valid()
      reads this
    {
      |register| == 16 && |bankReg| == 12 && |fiqReg| == 7 && |reg| == 7 && |pipeline| == 3
    }

    ghost function View(): (m: RustCpu.RustMachine)
      reads this
      ensures Valid() ==> RustCpu.RustWf(m)
    {
      RustCpu.RustMachine(register, bankReg, fiqReg, fiqSpsr, reg, cpsr, state, mode, pipeline)
    }

    /** `CPU::new`: everything zero, User mode, ARM state. */
    constructor ()
      ensures Valid() && View() == RustCpu.RustMachine(seq(16, _ => 0), seq(12, _ => 0), seq(7, _ => 0), 0, seq(7, _ => 0), 0, Arm, User, [0, 0, 0])
    {
      register := seq(16, _ => 0);
      bankReg := seq(12, _ => 0);
      fiqReg := seq(7, _ => 0);
      fiqSpsr := 0;
      reg := seq(7, _ => 0);
      cpsr := 0;
      state := Arm;
      mode := User;
      pipeline := [0, 0, 0];
    }

    method SetFlag(f: Flag, value: bool)
      modifies this
      ensures View() == RustCpu.SetFlag(old(View()), f, value)
    {
      cpsr := Set(cpsr, f, value);
    }

    method FlushPipeline()
      modifies this
      ensures View() == RustCpu.FlushPipeline(old(View()))
    {
      pipeline := [0, 0, 0];
    }

    /** `switch_state`: the flush, and the fill to run, which is not part of this model. */
    method SwitchState(state: bv32) returns (fill: CpuState)
      modifies this
      ensures (View(), fill) == RustCpu.SwitchState(old(View()), state)
    {
      FlushPipeline();
      fill := if state & 1 == 0 then Arm else Thumb;
    }

    method SetMode(value: Mode)
      requires Valid()
      modifies this
      ensures Valid() && View() == RustCpu.SetMode(old(View()), value)
    {
      if value != mode {
        Leave();
        Enter(value);
        cpsr := WithModeBits(cpsr, value);
        mode := value;
      }
    }

    method Leave()
      requires Valid()
      modifies this
      ensures Valid() && View() == RustCpu.Leave(old(View()))
    {
      if mode == User || mode == System {
        reg := CopyInto(register, reg, 0, 8, 15);
      } else if mode == FastInterrupt {
        fiqReg := CopyInto(register, fiqReg, 0, 8, 15);
        cpsr := fiqSpsr;
      } else {
        LeaveBanked();
      }
    }

    method LeaveBanked()
      requires Valid() && IsBanked(mode)
      modifies this
      ensures Valid() && View() == RustCpu.LeaveBanked(old(View()))
    {
      var row := 3 * Ordinal(mode);
      var saved := bankReg[row + 2];
      bankReg := bankReg[row := register[13]][row + 1 := register[14]];
      cpsr := saved;
    }

    method Enter(value: Mode)
      requires Valid()
      modifies this
      ensures Valid() && View() == RustCpu.Enter(old(View()), value)
    {
      if value == User || value == System {
        EnterUser();
      } else if value == FastInterrupt {
        EnterFiq();
      } else {
        EnterBanked(value);
      }
    }

    method EnterUser()
      requires Valid()
      modifies this
      ensures Valid() && View() == RustCpu.EnterUser(old(View()))
    {
      var incoming := CopyInto(reg, register, 8, 0, 7);
      var outgoing := CopyInto(register, reg, 0, 8, 15);
      register := incoming;
      reg := outgoing;
    }

    method EnterFiq()
      requires Valid()
      modifies this
      ensures Valid() && View() == RustCpu.EnterFiq(old(View()))
    {
      var incoming := CopyInto(fiqReg, register, 8, 0, 7);
      var outgoing := CopyInto(register, fiqReg, 0, 8, 15);
      register := incoming;
      fiqReg := outgoing;
      fiqSpsr := cpsr;
    }

    method EnterBanked(value: Mode)
      requires Valid() && IsBanked(value)
      modifies this
      ensures Valid() && View() == RustCpu.EnterBanked(old(View()), value)
    {
      var row := 3 * Ordinal(value);
      register := register[13 := bankReg[row]][14 := bankReg[row + 1]];
      bankReg := bankReg[row + 2 := cpsr];
    }
  }
}
