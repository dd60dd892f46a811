/**
 * Video RAM (memory/ram/VRAM.kt): 96 KiB of little-endian storage behind a
 * 128 KiB window whose last 32 KiB mirror the 32 KiB before them. Byte
 * writes store the byte into both halves of the aligned halfword, and only
 * below the object area (which starts at 0x14000 in bitmap modes 3 and 4,
 * at 0x10000 otherwise).
 */
module Vram {
  import opened LittleEndian

  /** `96 * KiB`. */
  const VramSize: nat := 0x18000

  /**
   * `parseAddress`: the offset in the 128 KiB window (the low 17 bits of the
   * address), with 0x18000-0x1FFFF folded down by 0x8000.
   */
  function ParseAddress(address: bv32): (a: nat)
    ensures a < VramSize
  {
    var w := address as int % 0x20000;
    if w > 0x17FFF then w - 0x8000 else w
  }

  /** The window: offsets below 0x18000 map to themselves, the last 32 KiB onto 0x10000-0x17FFF. */
  lemma ParseAddressMirror(address: bv32)
    ensures address as int % 0x20000 < VramSize ==> ParseAddress(address) == address as int % 0x20000
    ensures address as int % 0x20000 >= VramSize ==>
      ParseAddress(address) == address as int % 0x20000 - 0x8000 && 0x10000 <= ParseAddress(address)
  {
  }

  /** The end of the area byte writes may reach: 0x14000 in modes 3 and 4, 0x10000 otherwise. */
  function ByteWriteLimit(bgMode: nat): (max: nat)
    ensures max == 0x10000 || max == 0x14000
  {
    if bgMode == 3 || bgMode == 4 then 0x14000 else 0x10000
  }

  /** The byte write's halfword: the byte in both halves (`uShort * 0x101`). */
  function Doubled(b: bv8): (h: bv16)
    ensures (h & 0xFF) as bv8 == b && (h >> 8) as bv8 == b
  {
    (b as bv16) * 0x101
  }

  class Video {
    const bytes: array<bv8>

    ghost predicate Valid()
      reads this
    {
      bytes.Length == VramSize
    }

    /** A new VRAM: 96 KiB of zeros. */
    constructor ()
      ensures Valid() && fresh(bytes)
      ensures forall i :: 0 <= i < VramSize ==> bytes[i] == 0
    {
      bytes := new bv8[VramSize](_ => 0);
    }

    /** `read8`: the byte at the mapped offset. */
    method Read8(address: bv32) returns (b: bv8)
      requires Valid()
      ensures b == bytes[ParseAddress(address)]
    {
      b := bytes[ParseAddress(address)];
    }

    /** `read16`: the halfword at the mapped offset rounded down to 2. */
    method Read16(address: bv32) returns (h: bv16)
      requires Valid()
      ensures h == HalfAt(bytes[..], ParseAddress(address) / 2)
    {
      var k := ParseAddress(address) / 2;
      h := (bytes[2 * k] as bv16) | ((bytes[2 * k + 1] as bv16) << 8);
    }

    /** `read32`: the word at the mapped offset rounded down to 4. */
    method Read32(address: bv32) returns (w: bv32)
      requires Valid()
      ensures w == WordAt(bytes[..], ParseAddress(address) / 4)
    {
      var k := ParseAddress(address) / 4;
      w := (bytes[4 * k] as bv32) | ((bytes[4 * k + 1] as bv32) << 8) |
        ((bytes[4 * k + 2] as bv32) << 16) | ((bytes[4 * k + 3] as bv32) << 24);
    }

    /**
     * `write8`: below the limit of the current mode the byte fills the
     * aligned halfword; at or above it the write is dropped.
     */
    method Write8(address: bv32, b: bv8, bgMode: nat)
      requires Valid()
      modifies bytes
      ensures ParseAddress(address) < ByteWriteLimit(bgMode) ==>
        bytes[..] == StoreHalf(old(bytes[..]), ParseAddress(address) / 2, Doubled(b))
      ensures ParseAddress(address) >= ByteWriteLimit(bgMode) ==> bytes[..] == old(bytes[..])
    {
      var addr := ParseAddress(address);
      var max := if bgMode == 3 || bgMode == 4 then 0x14000 else 0x10000;
      if addr < max {
        StoreHalfAt(addr / 2, Doubled(b));
      }
    }

    /** `write16`: the halfword at the mapped offset rounded down to 2. */
    method Write16(address: bv32, h: bv16)
      requires Valid()
      modifies bytes
      ensures bytes[..] == StoreHalf(old(bytes[..]), ParseAddress(address) / 2, h)
    {
      StoreHalfAt(ParseAddress(address) / 2, h);
    }

    /** `write32`: the word at the mapped offset rounded down to 4. */
    method Write32(address: bv32, w: bv32)
      requires Valid()
      modifies bytes
      ensures bytes[..] == StoreWord(old(bytes[..]), ParseAddress(address) / 4, w)
    {
      var k := ParseAddress(address) / 4;
      bytes[4 * k] := (w & 0xFF) as bv8;
      bytes[4 * k + 1] := ((w >> 8) & 0xFF) as bv8;
      bytes[4 * k + 2] := ((w >> 16) & 0xFF) as bv8;
      bytes[4 * k + 3] := (w >> 24) as bv8;
    }

    /** `shortBuffer.put`. */
    method StoreHalfAt(k: nat, h: bv16)
      requires Valid() && 2 * k + 1 < VramSize
      modifies bytes
      ensures bytes[..] == StoreHalf(old(bytes[..]), k, h)
    {
      bytes[2 * k] := (h & 0xFF) as bv8;
      bytes[2 * k + 1] := (h >> 8) as bv8;
    }
  }

  /** A byte written below the limit reads back from both bytes of its halfword. */
  lemma ByteWriteReadsBack(s: seq<bv8>, a: nat, b: bv8)
    requires 2 * (a / 2) + 1 < |s|
    ensures var r := StoreHalf(s, a / 2, Doubled(b)); r[2 * (a / 2)] == b && r[2 * (a / 2) + 1] == b
    ensures HalfAt(StoreHalf(s, a / 2, Doubled(b)), a / 2) == Doubled(b)
  {
    StoreHalfReadsBack(s, a / 2, Doubled(b));
  }
}
