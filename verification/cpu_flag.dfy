/**
 * The status-word flags (cpu/CPUFlag.kt) and the pure forms of the flag
 * accessors `cpu[flag]` / `cpu[flag] = value` (cpu/CPU.kt).
 *
 * `Flags` reads the seven flag bits of a status word as a record; the
 * `FlagsOfSet…` lemmas say how one `Set` changes that record, so that the
 * instruction handlers can be reasoned about flag by flag.
 */
module CpuFlags {

  datatype Flag = N | Z | C | V | I | F | T

  /** The bit of cpsr that holds each flag. */
  function Mask(f: Flag): bv32
  {
    match f
    case N => 0x8000_0000
    case Z => 0x4000_0000
    case C => 0x2000_0000
    case V => 0x1000_0000
    case I => 0x80
    case F => 0x40
    case T => 0x20
  }

  /** `cpu[flag]`. */
  predicate Get(cpsr: bv32, f: Flag)
  {
    cpsr & Mask(f) != 0
  }

  /** `cpu[flag] = value`: clear the mask, then set it when `value`. */
  function Set(cpsr: bv32, f: Flag, value: bool): bv32
  {
    if value then cpsr | Mask(f) else cpsr & !Mask(f)
  }

  /** The seven flags of a status word. */
  datatype FlagBits = FlagBits(n: bool, z: bool, c: bool, v: bool, i: bool, f: bool, t: bool)

  function Flags(cpsr: bv32): FlagBits
  {
    FlagBits(Get(cpsr, N), Get(cpsr, Z), Get(cpsr, C), Get(cpsr, V), Get(cpsr, I), Get(cpsr, F), Get(cpsr, T))
  }

  /** The record `fb` with flag `f` replaced by `value`. */
  function With(fb: FlagBits, f: Flag, value: bool): FlagBits
  {
    match f
    case N => fb.(n := value)
    case Z => fb.(z := value)
    case C => fb.(c := value)
    case V => fb.(v := value)
    case I => fb.(i := value)
    case F => fb.(f := value)
    case T => fb.(t := value)
  }

  /** No two flags share a bit, and every flag lies outside the mode field (bits 0-4). */
  lemma MasksDisjoint(f: Flag, g: Flag)
    requires f != g
    ensures Mask(f) & Mask(g) == 0
    ensures Mask(f) & 0x1F == 0
  {
  }

  /** After `Set`, the flag reads back as the value written. */
  lemma GetSetSame(cpsr: bv32, f: Flag, value: bool)
    ensures Get(Set(cpsr, f, value), f) == value
  {
    match f
    case N => case Z => case C => case V => case I => case F => case T =>
  }

  /** `Set` changes no bit of cpsr outside the flag's mask. */
  lemma SetOnlyItsBit(cpsr: bv32, f: Flag, value: bool)
    ensures Set(cpsr, f, value) & !Mask(f) == cpsr & !Mask(f)
  {
    if value { OrKeepsOutside(cpsr, Mask(f)); } else { ClearKeepsOutside(cpsr, Mask(f)); }
  }

  lemma OrKeepsOutside(x: bv32, m: bv32)
    ensures (x | m) & !m == x & !m
  {
  }

  lemma ClearKeepsOutside(x: bv32, m: bv32)
    ensures (x & !m) & !m == x & !m
  {
  }

  /** Setting a flag changes exactly that flag of the record (and no mode bit). */
  lemma FlagsOfSet(x: bv32, f: Flag, value: bool)
    ensures Flags(Set(x, f, value)) == With(Flags(x), f, value)
    ensures Set(x, f, value) & 0x1F == x & 0x1F
  {
    match f
    case N => FlagsOfSetN(x, value);
    case Z => FlagsOfSetZ(x, value);
    case C => FlagsOfSetC(x, value);
    case V => FlagsOfSetV(x, value);
    case I => FlagsOfSetI(x, value);
    case F => FlagsOfSetF(x, value);
    case T => FlagsOfSetT(x, value);
  }

  lemma FlagsOfSetN(x: bv32, value: bool)
    ensures Flags(Set(x, N, value)) == Flags(x).(n := value)
    ensures Set(x, N, value) & 0x1F == x & 0x1F
  {
  }

  lemma FlagsOfSetZ(x: bv32, value: bool)
    ensures Flags(Set(x, Z, value)) == Flags(x).(z := value)
    ensures Set(x, Z, value) & 0x1F == x & 0x1F
  {
  }

  lemma FlagsOfSetC(x: bv32, value: bool)
    ensures Flags(Set(x, C, value)) == Flags(x).(c := value)
    ensures Set(x, C, value) & 0x1F == x & 0x1F
  {
  }

  lemma FlagsOfSetV(x: bv32, value: bool)
    ensures Flags(Set(x, V, value)) == Flags(x).(v := value)
    ensures Set(x, V, value) & 0x1F == x & 0x1F
  {
  }

  lemma FlagsOfSetI(x: bv32, value: bool)
    ensures Flags(Set(x, I, value)) == Flags(x).(i := value)
    ensures Set(x, I, value) & 0x1F == x & 0x1F
  {
  }

  lemma FlagsOfSetF(x: bv32, value: bool)
    ensures Flags(Set(x, F, value)) == Flags(x).(f := value)
    ensures Set(x, F, value) & 0x1F == x & 0x1F
  {
  }

  lemma FlagsOfSetT(x: bv32, value: bool)
    ensures Flags(Set(x, T, value)) == Flags(x).(t := value)
    ensures Set(x, T, value) & 0x1F == x & 0x1F
  {
  }
}
