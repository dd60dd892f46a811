/**
 * The banked register file under `setCPUMode` (cpu/CPU.kt): what the save
 * and restore halves do, register by register, and the round trip they
 * make possible — the registers a mode keeps for itself survive a visit to
 * another mode.
 */
module CpuBanks {
  import opened CpuModes
  import opened CpuModel

  /** A real switch is its save half followed by its restore half; the mode field becomes the target. */
  lemma SwitchParts(m: Machine, v: Mode)
    requires Wf(m) && m.mode != v
    ensures SetCpuMode(m, v).registers == RestoreBank(SaveBank(m), v).registers
    ensures SetCpuMode(m, v).spsr == RestoreBank(SaveBank(m), v).spsr
    ensures SetCpuMode(m, v).mode == v
    ensures SaveBank(m).registers == m.registers
  {
  }

  /** A real switch writes cpsr bits 0-4 with the target's encoding and no other field outside the register file. */
  lemma SwitchStatus(m: Machine, v: Mode)
    requires Wf(m) && m.mode != v
    ensures SetCpuMode(m, v).cpsr == WithModeBits(m.cpsr, v)
  {
    SaveKeeps(m);
    RestoreKeeps(SaveBank(m), v);
  }

  /** Neither half touches r0-r7 or pc. */
  lemma SwitchKeepsLow(m: Machine, v: Mode)
    requires Wf(m)
    ensures forall i :: 0 <= i < 16 && (i < 8 || i == 15) ==> SetCpuMode(m, v).registers[i] == m.registers[i]
  {
    if m.mode != v {
      SwitchParts(m, v);
      RestoreKeepsLow(SaveBank(m), v);
    }
  }

  lemma RestoreKeepsLow(m: Machine, v: Mode)
    requires Wf(m)
    ensures forall i :: 0 <= i < 16 && (i < 8 || i == 15) ==> RestoreBank(m, v).registers[i] == m.registers[i]
  {
  }

  /** A switch leaves the pipeline, state, shifter carry and halt flag alone. */
  lemma SwitchKeepsRest(m: Machine, v: Mode)
    requires Wf(m)
    ensures var r := SetCpuMode(m, v);
      r.pipeline == m.pipeline && r.state == m.state &&
      r.shifterCarry == m.shifterCarry && r.halted == m.halted && r.mode == v
  {
    if m.mode != v {
      SaveKeeps(m);
      RestoreKeeps(SaveBank(m), v);
    }
  }

  /** The save half writes only the parking places: the visible registers and the status are as they were. */
  lemma SaveKeeps(m: Machine)
    requires Wf(m)
    ensures var r := SaveBank(m);
      r.registers == m.registers && r.spsr == m.spsr && r.cpsr == m.cpsr && r.mode == m.mode &&
      r.pipeline == m.pipeline && r.state == m.state && r.shifterCarry == m.shifterCarry && r.halted == m.halted
  {
  }

  /** The restore half writes only the visible registers and spsr. */
  lemma RestoreKeeps(m: Machine, v: Mode)
    requires Wf(m)
    ensures var r := RestoreBank(m, v);
      r.cpsr == m.cpsr && r.mode == m.mode &&
      r.pipeline == m.pipeline && r.state == m.state && r.shifterCarry == m.shifterCarry && r.halted == m.halted
  {
    if v == User || v == System {
      assert RestoreBank(m, v) == RestoreUserBank(m);
    } else if v == FastInterrupt {
      assert RestoreBank(m, v) == RestoreFiqBank(m);
    } else {
      assert RestoreBank(m, v) == RestoreModeRow(m, v);
    }
  }

  /** The restore half touches only the visible registers and spsr. */
  lemma SwitchKeepsParked(m: Machine, v: Mode)
    requires Wf(m) && m.mode != v
    ensures SetCpuMode(m, v).registerBanks == SaveBank(m).registerBanks
    ensures SetCpuMode(m, v).userRegisters == SaveBank(m).userRegisters
    ensures SetCpuMode(m, v).fastIrqRegisters == SaveBank(m).fastIrqRegisters
  {
  }

  /** Leaving a banked mode parks its r13, r14 and spsr in its own row. */
  lemma SaveOwnRow(m: Machine)
    requires Wf(m) && IsBanked(m.mode)
    ensures var row := 3 * Ordinal(m.mode);
      SaveBank(m).registerBanks[row] == m.registers[13] &&
      SaveBank(m).registerBanks[row + 1] == m.registers[14] &&
      SaveBank(m).registerBanks[row + 2] == m.spsr
  {
  }

  /** Leaving any mode leaves the row of every other mode alone. */
  lemma SaveOtherRow(m: Machine, v: Mode)
    requires Wf(m) && IsBanked(v) && m.mode != v
    ensures var row := 3 * Ordinal(v);
      SaveBank(m).registerBanks[row] == m.registerBanks[row] &&
      SaveBank(m).registerBanks[row + 1] == m.registerBanks[row + 1] &&
      SaveBank(m).registerBanks[row + 2] == m.registerBanks[row + 2]
  {
    if IsBanked(m.mode) {
      OrdinalsDistinct(m.mode, v);
      var own, theirs := Ordinal(m.mode), Ordinal(v);
      if own < theirs { assert 3 * own + 2 < 3 * theirs; } else { assert 3 * theirs + 2 < 3 * own; }
    }
  }

  /** Leaving User or System parks r8-r14 in `userRegisters`. */
  lemma SaveUser(m: Machine)
    requires Wf(m) && (m.mode == User || m.mode == System)
    ensures forall i :: 8 <= i < 15 ==> SaveBank(m).userRegisters[i - 8] == m.registers[i]
    ensures SaveBank(m).fastIrqRegisters == m.fastIrqRegisters
  {
  }

  /** Leaving FIQ parks r8-r14 in `fastIrqRegisters`, and keeps `userRegisters`. */
  lemma SaveFiq(m: Machine)
    requires Wf(m) && m.mode == FastInterrupt
    ensures forall i :: 8 <= i < 15 ==> SaveBank(m).fastIrqRegisters[i - 8] == m.registers[i]
    ensures SaveBank(m).userRegisters == m.userRegisters
  {
  }

  /** Leaving a banked mode parks the shared r8-r12 in `userRegisters`, keeps its last two entries, and keeps the FIQ set. */
  lemma SaveShared(m: Machine)
    requires Wf(m) && IsBanked(m.mode)
    ensures forall i :: 8 <= i < 13 ==> SaveBank(m).userRegisters[i - 8] == m.registers[i]
    ensures SaveBank(m).userRegisters[5] == m.userRegisters[5] && SaveBank(m).userRegisters[6] == m.userRegisters[6]
    ensures SaveBank(m).fastIrqRegisters == m.fastIrqRegisters
  {
  }

  /** Entering User or System brings r8-r14 back from `userRegisters`. */
  lemma RestoreUser(m: Machine, v: Mode)
    requires Wf(m) && (v == User || v == System)
    ensures forall i :: 8 <= i < 15 ==> RestoreBank(m, v).registers[i] == m.userRegisters[i - 8]
  {
  }

  /** Entering FIQ brings r8-r14 and spsr back from the FIQ set. */
  lemma RestoreFiq(m: Machine)
    requires Wf(m)
    ensures forall i :: 8 <= i < 15 ==> RestoreBank(m, FastInterrupt).registers[i] == m.fastIrqRegisters[i - 8]
    ensures RestoreBank(m, FastInterrupt).spsr == m.fastIrqSpsr
  {
  }

  /** Entering a banked mode brings r8-r12 from `userRegisters` and r13, r14 and spsr from its row. */
  lemma RestoreRow(m: Machine, v: Mode)
    requires Wf(m) && IsBanked(v)
    ensures var row := 3 * Ordinal(v);
      RestoreBank(m, v).registers[13] == m.registerBanks[row] &&
      RestoreBank(m, v).registers[14] == m.registerBanks[row + 1] &&
      RestoreBank(m, v).spsr == m.registerBanks[row + 2]
    ensures forall i :: 8 <= i < 13 ==> RestoreBank(m, v).registers[i] == m.userRegisters[i - 8]
  {
  }

  /** The machine after leaving `m`'s mode for `other`, running there with visible registers `during` and spsr `spsrDuring`, and switching back. */
  function Trip(m: Machine, other: Mode, during: seq<bv32>, spsrDuring: bv32): (back: Machine)
    requires Wf(m) && |during| == 16
    ensures Wf(back)
  {
    SetCpuMode(SetCpuMode(m, other).(registers := during, spsr := spsrDuring), m.mode)
  }

  /** A banked mode's r13, r14 and spsr survive any trip; r8-r12 are those left by a non-FIQ mode. */
  lemma TripFromBanked(m: Machine, other: Mode, during: seq<bv32>, spsrDuring: bv32)
    requires Wf(m) && |during| == 16 && IsBanked(m.mode) && other != m.mode
    ensures var back := Trip(m, other, during, spsrDuring);
      back.mode == m.mode &&
      back.registers[13] == m.registers[13] && back.registers[14] == m.registers[14] && back.spsr == m.spsr &&
      forall i :: 8 <= i < 13 ==> back.registers[i] == if other == FastInterrupt then m.registers[i] else during[i]
  {
    var away := SetCpuMode(m, other);
    var d := away.(registers := during, spsr := spsrDuring);
    SwitchParts(d, m.mode);
    SwitchKeepsParked(m, other);
    SaveOwnRow(m);
    SaveOtherRow(d, m.mode);
    RestoreRow(SaveBank(d), m.mode);
    SaveShared(m);
    if other == FastInterrupt {
      SaveFiq(d);
    } else if other == User || other == System {
      SaveUser(d);
    } else {
      SaveShared(d);
    }
  }

  /** FIQ's r8-r14 and spsr survive any trip. */
  lemma TripFromFiq(m: Machine, other: Mode, during: seq<bv32>, spsrDuring: bv32)
    requires Wf(m) && |during| == 16 && m.mode == FastInterrupt && other != m.mode
    ensures var back := Trip(m, other, during, spsrDuring);
      back.mode == m.mode &&
      back.registers[13] == m.registers[13] && back.registers[14] == m.registers[14] && back.spsr == m.spsr &&
      forall i :: 8 <= i < 13 ==> back.registers[i] == m.registers[i]
  {
    var away := SetCpuMode(m, other);
    var d := away.(registers := during, spsr := spsrDuring);
    SwitchParts(d, m.mode);
    SwitchKeepsParked(m, other);
    SaveFiq(m);
    RestoreFiq(SaveBank(d));
    if other == User || other == System {
      SaveUser(d);
    } else {
      SaveShared(d);
    }
  }

  /** User or System r13 and r14 survive a trip to a privileged mode; r8-r12 are those left there unless it is FIQ. */
  lemma TripFromUser(m: Machine, other: Mode, during: seq<bv32>, spsrDuring: bv32)
    requires Wf(m) && |during| == 16 && (m.mode == User || m.mode == System) && other != User && other != System
    ensures var back := Trip(m, other, during, spsrDuring);
      back.mode == m.mode &&
      back.registers[13] == m.registers[13] && back.registers[14] == m.registers[14] &&
      forall i :: 8 <= i < 13 ==> back.registers[i] == if other == FastInterrupt then m.registers[i] else during[i]
  {
    var away := SetCpuMode(m, other);
    var d := away.(registers := during, spsr := spsrDuring);
    SwitchParts(d, m.mode);
    SwitchKeepsParked(m, other);
    SaveUser(m);
    RestoreUser(SaveBank(d), m.mode);
    if other == FastInterrupt {
      SaveFiq(d);
    } else {
      SaveShared(d);
    }
  }

  /**
   * Banked registers survive a trip to another mode, whatever that mode does
   * to the visible registers and spsr meanwhile: r13 and r14 always; spsr
   * for every mode that has one; r8-r12 when either side is FIQ. Without FIQ
   * on either side r8-r12 are shared, so the values written meanwhile are
   * the ones seen on return. User and System share every register, so the
   * trip between those two is excluded.
   */
  lemma BankedRoundTrip(m: Machine, other: Mode, during: seq<bv32>, spsrDuring: bv32)
    requires Wf(m) && |during| == 16 && other != m.mode
    requires !((m.mode == User || m.mode == System) && (other == User || other == System))
    ensures var back := Trip(m, other, during, spsrDuring);
      back.mode == m.mode &&
      back.registers[13] == m.registers[13] && back.registers[14] == m.registers[14] &&
      (m.mode != User && m.mode != System ==> back.spsr == m.spsr) &&
      forall i :: 8 <= i < 13 ==>
        back.registers[i] == if m.mode == FastInterrupt || other == FastInterrupt then m.registers[i] else during[i]
  {
    if m.mode == FastInterrupt {
      TripFromFiq(m, other, during, spsrDuring);
    } else if m.mode == User || m.mode == System {
      TripFromUser(m, other, during, spsrDuring);
    } else {
      TripFromBanked(m, other, during, spsrDuring);
    }
  }
}
