/**
 * Bit and byte-lane helpers shared by the CPU and the memory-mapped registers
 * (utils/Extensions.kt).
 *
 * A Kotlin `Int` is a `bv32`. A `Byte` or a `Short` is carried as its
 * zero-extended `uInt` form, a `bv32` whose upper bits are clear, so `uInt`
 * itself is the masking `& 0xFF` / `& 0xFFFF`; a signed comparison such as
 * `x < 0` becomes a test of bit 31.
 */
module Extensions {

  /** Byte `k` (0 = least significant) of a word. */
  function ByteOf(v: bv32, k: nat): (b: bv32)
    requires k < 4
    ensures b < 0x100
  {
    if k == 0 then v & 0xFF
    else if k == 1 then (v >> 8) & 0xFF
    else if k == 2 then (v >> 16) & 0xFF
    else v >> 24
  }

  /** `bit`: whether bit `n` of `v` is set. */
  function Bit(v: bv32, n: nat): bool
    requires n < 32
  {
    v & (1 << n) != 0
  }

  /** A Kotlin `x < 0` on an `Int`: bit 31 is set. */
  predicate Negative(v: bv32)
  {
    v & 0x8000_0000 != 0
  }

  /** `override(mask, with)`: the masked bits come from `with`, all other bits from `v`. */
  function Override(v: bv32, mask: bv32, with: bv32): (r: bv32)
    ensures r & mask == with & mask
    ensures r & !mask == v & !mask
  {
    (v & !mask) | (with & mask)
  }

  /** `Byte.uInt` / `toByte()`: the low byte. */
  function UInt8(b: bv32): (r: bv32)
    ensures r < 0x100 && r == b & 0xFF
  {
    b & 0xFF
  }

  /** `Short.uInt` / `toShort()`: the low halfword. */
  function UInt16(h: bv32): (r: bv32)
    ensures r < 0x1_0000 && r == h & 0xFFFF
  {
    h & 0xFFFF
  }

  /** `read8From16`: the byte of a 16-bit register selected by address bit 0. */
  function Read8From16(address: bv32, value: bv32): (b: bv32)
    ensures b < 0x100
  {
    if Bit(address, 0) then ByteOf(value, 1) else ByteOf(value, 0)
  }

  /**
   * `write8to16`: replaces the addressed byte of a 16-bit register; reading the
   * same byte back gives the written byte and the other byte is kept.
   */
  function Write8To16(address: bv32, current: bv32, value: bv32): (r: bv32)
    ensures r < 0x1_0000
    ensures Read8From16(address, r) == UInt8(value)
    ensures Read8From16(address ^ 1, r) == Read8From16(address ^ 1, current)
  {
    if Bit(address, 0) then (current & 0xFF) | (UInt8(value) << 8)
    else (current & 0xFF00) | UInt8(value)
  }

  /** `write8to32`: replaces byte `address & 3` of a word with the low byte of `value`. */
  function Write8To32(address: bv32, current: bv32, value: bv32): bv32
  {
    var b := value & 0xFF;
    if address & 3 == 0 then (current & 0xFFFF_FF00) | b
    else if address & 3 == 1 then (current & 0xFFFF_00FF) | (b << 8)
    else if address & 3 == 2 then (current & 0xFF00_FFFF) | (b << 16)
    else (current & 0x00FF_FFFF) | (b << 24)
  }

  /** `write8to32` at lane 0 replaces bits 0-7 and keeps the other three bytes. */
  lemma Write8To32Lane0(address: bv32, current: bv32, value: bv32)
    requires address & 3 == 0
    ensures Write8To32(address, current, value) & 0xFF == value & 0xFF
    ensures Write8To32(address, current, value) & 0xFFFF_FF00 == current & 0xFFFF_FF00
  {
  }

  /** `write8to32` at lane 1 replaces bits 8-15 and keeps the other three bytes. */
  lemma Write8To32Lane1(address: bv32, current: bv32, value: bv32)
    requires address & 3 == 1
    ensures (Write8To32(address, current, value) >> 8) & 0xFF == value & 0xFF
    ensures Write8To32(address, current, value) & 0xFFFF_00FF == current & 0xFFFF_00FF
  {
  }

  /** `write8to32` at lane 2 replaces bits 16-23 and keeps the other three bytes. */
  lemma Write8To32Lane2(address: bv32, current: bv32, value: bv32)
    requires address & 3 == 2
    ensures (Write8To32(address, current, value) >> 16) & 0xFF == value & 0xFF
    ensures Write8To32(address, current, value) & 0xFF00_FFFF == current & 0xFF00_FFFF
  {
  }

  /** `write8to32` at lane 3 replaces bits 24-31 and keeps the other three bytes. */
  lemma Write8To32Lane3(address: bv32, current: bv32, value: bv32)
    requires address & 3 == 3
    ensures Write8To32(address, current, value) >> 24 == value & 0xFF
    ensures Write8To32(address, current, value) & 0x00FF_FFFF == current & 0x00FF_FFFF
  {
  }

  /**
   * `setBit(bit, value)` as written: it clears the bit when `value` is true and
   * sets it when `value` is false.
   */
  function SetBitAsWritten(v: bv32, n: nat, value: bool): bv32
    requires n < 32
  {
    if value then v & !(1 << n) else v | (1 << n)
  }

  /** The as-written `setBit` leaves bit 0 of 0 clear when asked to set it, and sets it when asked to clear it. */
  lemma SetBitAsWrittenIsInverted()
    ensures !Bit(SetBitAsWritten(0, 0, true), 0)
    ensures Bit(SetBitAsWritten(0, 0, false), 0)
  {
  }

  /** `setBit(bit, value)` as intended: bit `n` becomes `value`. */
  function SetBit(v: bv32, n: nat, value: bool): (r: bv32)
    requires n < 32
    ensures Bit(r, n) == value
  {
    if value then v | (1 << n) else v & !(1 << n)
  }

  /** `setBit` leaves every bit other than `n` as it was. */
  lemma SetBitKeepsOtherBits(v: bv32, n: nat, value: bool)
    requires n < 32
    ensures SetBit(v, n, value) & !(1 << n) == v & !(1 << n)
  {
    if value {
      MaskedOutsideKept(v, 1 << n);  // the `or` case
    } else {
      MaskedOutsideKept(v, 1 << n);  // the `and ... inv()` case
    }
  }

  /** Setting or clearing the bits of `mask` keeps every bit outside it. */
  lemma MaskedOutsideKept(v: bv32, mask: bv32)
    ensures (v | mask) & !mask == v & !mask
    ensures (v & !mask) & !mask == v & !mask
  {
  }
}
