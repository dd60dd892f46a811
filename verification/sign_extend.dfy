/**
 * Reference definitions of sign extension for the immediate fields of the
 * branch instructions: a field of `width` bits is widened to 32 bits by
 * copying its top bit into every bit above it. The handlers compute their
 * offsets with shifts and narrowing casts instead; lemmas in the branch
 * modules prove that those computations are these.
 */
module SignExtend {
  /** An 8-bit field (`toByte().toInt()`). */
  function SignExtend8(v: bv32): (r: bv32)
    requires v < 0x100
  {
    if v & 0x80 != 0 then v | 0xFFFF_FF00 else v
  }

  /** An 11-bit field. */
  function SignExtend11(v: bv32): (r: bv32)
    requires v < 0x800
  {
    if v & 0x400 != 0 then v | 0xFFFF_F800 else v
  }

  /** A 16-bit field (`toShort().toInt()`). */
  function SignExtend16(v: bv32): (r: bv32)
    requires v < 0x1_0000
  {
    if v & 0x8000 != 0 then v | 0xFFFF_0000 else v
  }

  /** A 24-bit field. */
  function SignExtend24(v: bv32): (r: bv32)
    requires v < 0x100_0000
  {
    if v & 0x80_0000 != 0 then v | 0xFF00_0000 else v
  }
}
