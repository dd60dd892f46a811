/**
 * A DMA source or destination address register (memory/dma/mmio/DMAAddress.kt).
 * The channel writes it a halfword at a time; the high halfword keeps only
 * the bits of the channel's mask, so the register never holds an address
 * the channel cannot reach. It is write-only.
 */
module DmaAddresses {
  import opened Extensions

  /** The bits a register with high-half mask `mask` can hold. */
  function Reachable(mask: bv32): (r: bv32)
    ensures r & 0xFFFF == 0xFFFF
  {
    (mask << 16) | 0xFFFF
  }

  /** `write16`: bit 1 of the address selects the high half, which keeps only the masked bits. */
  function WriteHalf(mask: bv32, v: bv32, address: bv32, h: bv32): (r: bv32)
  {
    if Bit(address, 1) then (v & 0xFFFF) | ((UInt16(h) & mask) << 16)
    else (v & (mask << 16)) | UInt16(h)
  }

  /** A high-half write stores `h & mask` in bits 16-31 and keeps bits 0-15. */
  lemma WriteHigh(mask: bv32, v: bv32, address: bv32, h: bv32)
    requires Bit(address, 1)
    ensures WriteHalf(mask, v, address, h) >> 16 == h & mask & 0xFFFF
    ensures WriteHalf(mask, v, address, h) & 0xFFFF == v & 0xFFFF
  {
  }

  /** A low-half write stores `h` in bits 0-15 and keeps the reachable high bits. */
  lemma WriteLow(mask: bv32, v: bv32, address: bv32, h: bv32)
    requires !Bit(address, 1)
    ensures WriteHalf(mask, v, address, h) & 0xFFFF == h & 0xFFFF
    ensures WriteHalf(mask, v, address, h) >> 16 == (v >> 16) & mask & 0xFFFF
  {
  }

  /** A low-half write leaves only reachable bits whatever was held before; a high-half write keeps them reachable. */
  lemma WriteStaysReachable(mask: bv32, v: bv32, address: bv32, h: bv32)
    ensures !Bit(address, 1) ==> WriteHalf(mask, v, address, h) & !Reachable(mask) == 0
    ensures v & !Reachable(mask) == 0 ==> WriteHalf(mask, v, address, h) & !Reachable(mask) == 0
  {
  }

  /** Writing the low then the high half of `a` loads `a` as far as the mask reaches. */
  lemma WriteBothHalves(mask: bv32, v: bv32, a: bv32)
    ensures WriteHalf(mask, WriteHalf(mask, v, 0, a), 2, a >> 16) == a & Reachable(mask)
  {
  }

  class DmaAddress {
    const mask: bv32
    var value: bv32

    /** The register never holds a bit outside `(mask shl 16) or 0xFFFF`. */
    ghost predicate Valid()
      reads this
    {
      value & !Reachable(mask) == 0
    }

    constructor (mask: bv32)
      ensures Valid() && this.mask == mask && value == 0
    {
      this.mask := mask;
      value := 0;
    }

    /** All reads return 0: the register is write-only. */
    method Read(address: bv32) returns (v: bv32)
      ensures v == 0
    {
      v := 0;
    }

    method Write16(address: bv32, h: bv32)
      requires Valid()
      modifies this
      ensures Valid()
      ensures value == WriteHalf(mask, old(value), address, h)
    {
      WriteStaysReachable(mask, value, address, h);
      value := WriteHalf(mask, value, address, h);
    }
  }
}
