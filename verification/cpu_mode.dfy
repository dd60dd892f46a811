/**
 * The processor modes and their five-bit encodings (cpu/CPUMode.kt).
 */
module CpuModes {
  import opened Wrappers

  /** Declared in the source's order; the first four are the banked privileged modes. */
  datatype Mode = Interrupt | Supervisor | Abort | Undefined | FastInterrupt | User | System

  /** `mode.mask`: the value of cpsr bits 0-4 in this mode. */
  function ModeMask(m: Mode): bv32
  {
    match m
    case Interrupt => 0x12
    case Supervisor => 0x13
    case Abort => 0x17
    case Undefined => 0x1B
    case FastInterrupt => 0x11
    case User => 0x10
    case System => 0x1F
  }

  /** `mode.ordinal`: the declaration index, used to pick a row of `registerBanks`. */
  function Ordinal(m: Mode): (k: nat)
    ensures k < 7
  {
    match m
    case Interrupt => 0
    case Supervisor => 1
    case Abort => 2
    case Undefined => 3
    case FastInterrupt => 4
    case User => 5
    case System => 6
  }

  /** The modes that keep their own r13, r14 and spsr in `registerBanks`. */
  predicate IsBanked(m: Mode)
  {
    m != User && m != System && m != FastInterrupt
  }

  /** `CPUMode.byMask[bits]`: the mode whose encoding is `bits`, if any. */
  function ByMask(bits: bv32): Option<Mode>
  {
    if bits == 0x12 then Some(Interrupt)
    else if bits == 0x13 then Some(Supervisor)
    else if bits == 0x17 then Some(Abort)
    else if bits == 0x1B then Some(Undefined)
    else if bits == 0x11 then Some(FastInterrupt)
    else if bits == 0x10 then Some(User)
    else if bits == 0x1F then Some(System)
    else None
  }

  /** Every encoding is a five-bit value with bit 4 set. */
  lemma ModeMaskIsFiveBits(m: Mode)
    ensures ModeMask(m) & !0x1F == 0
    ensures ModeMask(m) & 0x10 != 0
  {
  }

  /** The seven encodings are pairwise distinct. */
  lemma ModeMasksDistinct(a: Mode, b: Mode)
    requires a != b
    ensures ModeMask(a) != ModeMask(b)
  {
  }

  /** `byMask` finds every mode by its own encoding. */
  lemma ByMaskOfMask(m: Mode)
    ensures ByMask(ModeMask(m)) == Some(m)
  {
  }

  /** `byMask` has an entry exactly for the seven encodings, and it is the mode with that encoding. */
  lemma ByMaskEntries(bits: bv32)
    ensures ByMask(bits).Some? ==> ModeMask(ByMask(bits).value) == bits
    ensures ByMask(bits).None? <==> forall m: Mode :: ModeMask(m) != bits
  {
    if ByMask(bits).None? {
      forall m: Mode ensures ModeMask(m) != bits {
        ByMaskOfMask(m);
      }
    }
  }

  /** The banked privileged modes are exactly those with ordinals 0-3, the rows of `registerBanks`. */
  lemma BankedOrdinals(m: Mode)
    ensures IsBanked(m) <==> Ordinal(m) < 4
  {
  }

  /** Distinct modes have distinct ordinals, so distinct rows of `registerBanks`. */
  lemma OrdinalsDistinct(a: Mode, b: Mode)
    requires a != b
    ensures Ordinal(a) != Ordinal(b)
  {
  }
}
