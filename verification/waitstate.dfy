/**
 * WAITCNT (memory/mmio/WaitstateControl.kt): the game pak wait-state
 * register and the table of wait cycles the bus reads from it. Bits 0-1
 * choose the SRAM wait; for each of the three ROM regions `i`, bits
 * `2+3i`..`3+3i` choose the non-sequential wait and bit `4+3i` the
 * sequential one. Every write regenerates the table.
 */
module Waitstates {
  import opened Extensions

  /** `CYCLES`: the non-sequential (and SRAM) waits selected by a two-bit field. */
  function Cycles(k: bv32): (c: nat)
    requires k < 4
    ensures c in {3, 4, 5, 9}
  {
    [5, 4, 3, 9][k as nat]
  }

  /** `SA`: the sequential waits of region `i` selected by one bit. */
  function SequentialCycles(i: nat, k: bv32): (c: nat)
    requires i < 3 && k < 2
    ensures c in {2, 3, 5, 9}
  {
    [[3, 2], [5, 2], [9, 2]][i][k as nat]
  }

  /** `AccessType.NonSequential.ordinal` and `AccessType.Sequential.ordinal`: the table's columns. */
  const NonSequential: nat := 0
  const Sequential: nat := 1

  /** `value ushr (2 + 3*i)`: the register shifted so region `i`'s fields start at bit 0. */
  function RegionBits(v: bv32, i: nat): (x: bv32)
    requires i < 3
  {
    if i == 0 then v >> 2 else if i == 1 then v >> 5 else v >> 8
  }

  /** The SRAM wait of a register value. */
  function SramWait(v: bv32): (c: nat)
  {
    Cycles(v & 3)
  }

  /** The wait of region `i` for an access of kind `column`. */
  function RegionWait(v: bv32, i: nat, column: nat): (c: nat)
    requires i < 3 && column < 2
  {
    var x := RegionBits(v, i);
    if column == NonSequential then Cycles(x & 3) else SequentialCycles(i, (x >> 2) & 1)
  }

  /** Each region's non-sequential wait is chosen by bits 2+3i..3+3i and its sequential wait by bit 4+3i. */
  lemma RegionWaitFields(v: bv32, i: nat)
    requires i < 3
    ensures RegionWait(v, i, NonSequential) == Cycles(RegionBits(v, i) & 3)
    ensures RegionWait(v, i, Sequential) ==
      SequentialCycles(i, if i == 0 then (v >> 4) & 1 else if i == 1 then (v >> 7) & 1 else (v >> 10) & 1)
    ensures 3 <= RegionWait(v, i, NonSequential) <= 9 && 2 <= RegionWait(v, i, Sequential) <= 9
  {
  }

  /** A byte write: the addressed byte of the register is replaced and the rest kept. */
  function WriteByte(v: bv32, address: bv32, b: bv32): (r: bv32)
  {
    if Bit(address, 0) then (v & !0xFF00) | (UInt8(b) << 8) else (v & !0xFF) | UInt8(b)
  }

  /** On a 16-bit register value the byte write is `write8to16`, so reading the byte back gives it. */
  lemma WriteByteIsWrite8To16(v: bv32, address: bv32, b: bv32)
    requires v < 0x1_0000
    ensures WriteByte(v, address, b) == Write8To16(address, v, b)
    ensures Read8From16(address, WriteByte(v, address, b)) == UInt8(b)
    ensures Read8From16(address ^ 1, WriteByte(v, address, b)) == Read8From16(address ^ 1, v)
  {
  }

  class WaitstateControl {
    var value: bv32
    var sram: nat
    const lut: array2<nat>

    /** The register is a halfword and the table has three rows of two columns. */
    ghost predicate Valid()
      reads this
    {
      value < 0x1_0000 && lut.Length0 == 3 && lut.Length1 == 2
    }

    /** The SRAM wait and the whole table are those the register value selects. */
    ghost predicate Consistent()
      reads this, lut
      requires Valid()
    {
      sram == SramWait(value) &&
      forall i, column :: 0 <= i < 3 && 0 <= column < 2 ==> lut[i, column] == RegionWait(value, i, column)
    }

    /** The initial table `[[5,3],[5,5],[5,9]]` is exactly the one value 0 selects. */
    constructor ()
      ensures Valid() && Consistent() && fresh(lut)
      ensures value == 0 && sram == 5
      ensures lut[0, 0] == 5 && lut[0, 1] == 3 && lut[1, 0] == 5 && lut[1, 1] == 5 && lut[2, 0] == 5 && lut[2, 1] == 9
    {
      value := 0;
      sram := 5;
      var t := new nat[3, 2];
      t[0, 0], t[0, 1] := 5, 3;
      t[1, 0], t[1, 1] := 5, 5;
      t[2, 0], t[2, 1] := 5, 9;
      lut := t;
    }

    /** `read16`: the register. */
    method Read16(address: bv32) returns (h: bv32)
      requires Valid()
      ensures h == value
    {
      h := value;
    }

    /** `read32` returns 0. */
    method Read32(address: bv32) returns (w: bv32)
      ensures w == 0
    {
      w := 0;
    }

    /** `write8`: replace the addressed byte, then regenerate the table. */
    method Write8(address: bv32, b: bv32)
      requires Valid()
      modifies this, lut
      ensures Valid() && Consistent()
      ensures value == WriteByte(old(value), address, b)
    {
      WriteByteIsWrite8To16(value, address, b);
      if Bit(address, 0) {
        value := (value & !0xFF00) | (UInt8(b) << 8);
      } else {
        value := (value & !0xFF) | UInt8(b);
      }
      GenerateLut();
    }

    /** `write16`: the unsigned halfword, then regenerate the table. */
    method Write16(address: bv32, h: bv32)
      requires Valid()
      modifies this, lut
      ensures Valid() && Consistent()
      ensures value == UInt16(h)
    {
      value := UInt16(h);
      GenerateLut();
    }

    /** `write32` is ignored. */
    method Write32(address: bv32, w: bv32)
    {
    }

    /** `generateLut`: recompute the SRAM wait and each region's two waits from the register. */
    method GenerateLut()
      requires Valid()
      modifies this, lut
      ensures Valid() && Consistent()
      ensures value == old(value)
    {
      sram := Cycles(value & 3);
      for i := 0 to 3
        invariant Valid() && value == old(value) && sram == SramWait(value)
        invariant forall k, column :: 0 <= k < i && 0 <= column < 2 ==> lut[k, column] == RegionWait(value, k, column)
      {
        var x := RegionBits(value, i);
        lut[i, NonSequential] := Cycles(x & 3);
        lut[i, Sequential] := SequentialCycles(i, (x >> 2) & 1);
      }
    }
  }
}
