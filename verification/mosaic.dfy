/**
 * The mosaic register and its counters (ppu/mmio/MosaicControl.kt). The
 * register holds four four-bit block sizes; the renderer keeps a counter per
 * axis for backgrounds and sprites that counts up to the size and wraps to
 * zero, so a mosaic block is `size + 1` pixels wide or tall.
 */
module Mosaic {
  import opened Extensions

  /** `backgroundHorizontal`: bits 0-3. */
  function BackgroundHorizontal(v: bv32): (n: nat)
    ensures n < 16 && n == (v & 0xF) as nat
  {
    (v & 0xF) as nat
  }

  /** `backgroundVertical`: bits 4-7. */
  function BackgroundVertical(v: bv32): (n: nat)
    ensures n < 16 && n == ((v >> 4) & 0xF) as nat
  {
    ((v >> 4) & 0xF) as nat
  }

  /** `objectHorizontal`: bits 8-11. */
  function ObjectHorizontal(v: bv32): (n: nat)
    ensures n < 16 && n == ((v >> 8) & 0xF) as nat
  {
    ((v >> 8) & 0xF) as nat
  }

  /** `objectVertical`: bits 12-15. */
  function ObjectVertical(v: bv32): (n: nat)
    ensures n < 16 && n == ((v >> 12) & 0xF) as nat
  {
    ((v >> 12) & 0xF) as nat
  }

  /** The register value that holds the four sizes, each a nibble. */
  function Compose(bh: bv32, bv: bv32, oh: bv32, ov: bv32): (v: bv32)
    requires bh < 16 && bv < 16 && oh < 16 && ov < 16
    ensures v < 0x1_0000
  {
    bh | (bv << 4) | (oh << 8) | (ov << 12)
  }

  /** The four fields of a composed value are the sizes it was composed from. */
  lemma FieldsOfCompose(bh: bv32, bv: bv32, oh: bv32, ov: bv32)
    requires bh < 16 && bv < 16 && oh < 16 && ov < 16
    ensures var v := Compose(bh, bv, oh, ov);
      v & 0xF == bh && (v >> 4) & 0xF == bv && (v >> 8) & 0xF == oh && (v >> 12) & 0xF == ov
  {
  }

  /** Every 16-bit register value is the composition of its four fields, so the fields lose nothing. */
  lemma ComposeOfFields(v: bv32)
    requires v < 0x1_0000
    ensures Compose(v & 0xF, (v >> 4) & 0xF, (v >> 8) & 0xF, (v >> 12) & 0xF) == v
  {
  }

  /** One counter step: `if (++c > limit) c = 0`. */
  function Step(c: int, limit: nat): (r: int)
  {
    if c + 1 > limit then 0 else c + 1
  }

  /** A step from a non-negative counter lands in 0..limit, whatever the counter was before. */
  lemma StepWithin(c: int, limit: nat)
    requires c >= 0
    ensures 0 <= Step(c, limit) <= limit
    ensures Step(c, limit) == 0 || Step(c, limit) == c + 1
  {
  }

  /** `n` steps from `c`. */
  function Steps(c: int, limit: nat, n: nat): (r: int)
  {
    if n == 0 then c else Step(Steps(c, limit, n - 1), limit)
  }

  /** From zero the counter counts 0, 1, ..., limit. */
  lemma {:induction false} StepsCount(limit: nat, n: nat)
    requires n <= limit
    ensures Steps(0, limit, n) == n
  {
    if n > 0 {
      StepsCount(limit, n - 1);
    }
  }

  /** A block is `limit + 1` pixels: after that many steps the counter is back at zero. */
  lemma BlockLength(limit: nat)
    ensures Steps(0, limit, limit + 1) == 0
    ensures forall n :: 0 < n <= limit ==> Steps(0, limit, n) != 0
  {
    StepsCount(limit, limit);
    forall n | 0 < n <= limit
      ensures Steps(0, limit, n) != 0
    {
      StepsCount(limit, n);
    }
  }

  class MosaicControl {
    var value: bv32
    var objY: int
    var objX: int
    var bgY: int
    var bgX: int

    /** The counters never go negative. */
    ghost predicate Valid()
      reads this
    {
      objY >= 0 && objX >= 0 && bgY >= 0 && bgX >= 0
    }

    /** A new register: 0, with every counter at 0. */
    constructor ()
      ensures Valid()
      ensures value == 0 && objY == 0 && objX == 0 && bgY == 0 && bgX == 0
    {
      value := 0;
      objY, objX, bgY, bgX := 0, 0, 0, 0;
    }

    /** The register write of every `SimpleMMIO`: the unsigned halfword. */
    method Write16(address: bv32, h: bv32)
      modifies this
      ensures value == UInt16(h)
      ensures objY == old(objY) && objX == old(objX) && bgY == old(bgY) && bgX == old(bgX)
    {
      value := UInt16(h);
    }

    /** `write32` keeps the low halfword. */
    method Write32(address: bv32, w: bv32)
      modifies this
      ensures value == UInt16(w)
      ensures objY == old(objY) && objX == old(objX) && bgY == old(bgY) && bgX == old(bgX)
    {
      value := w & 0xFFFF;
    }

    /** `advanceCounters`: the next line, so both Y counters step and both X counters restart. */
    method AdvanceCounters()
      requires Valid()
      modifies this
      ensures Valid()
      ensures objY == Step(old(objY), ObjectVertical(value)) && 0 <= objY <= ObjectVertical(value)
      ensures bgY == Step(old(bgY), BackgroundVertical(value)) && 0 <= bgY <= BackgroundVertical(value)
      ensures objX == 0 && bgX == 0 && value == old(value)
    {
      StepWithin(objY, ObjectVertical(value));
      StepWithin(bgY, BackgroundVertical(value));
      objY := objY + 1;
      if objY > ObjectVertical(value) {
        objY := 0;
      }
      bgY := bgY + 1;
      if bgY > BackgroundVertical(value) {
        bgY := 0;
      }
      bgX := 0;
      objX := 0;
    }

    /** `advanceObjX`: the next sprite pixel. */
    method AdvanceObjX()
      requires Valid()
      modifies this
      ensures Valid()
      ensures objX == Step(old(objX), ObjectHorizontal(value)) && 0 <= objX <= ObjectHorizontal(value)
      ensures objY == old(objY) && bgY == old(bgY) && bgX == old(bgX) && value == old(value)
    {
      StepWithin(objX, ObjectHorizontal(value));
      objX := objX + 1;
      if objX > ObjectHorizontal(value) {
        objX := 0;
      }
    }

    /** `advanceBgX`: the next background pixel. */
    method AdvanceBgX()
      requires Valid()
      modifies this
      ensures Valid()
      ensures bgX == Step(old(bgX), BackgroundHorizontal(value)) && 0 <= bgX <= BackgroundHorizontal(value)
      ensures objY == old(objY) && objX == old(objX) && bgY == old(bgY) && value == old(value)
    {
      StepWithin(bgX, BackgroundHorizontal(value));
      bgX := bgX + 1;
      if bgX > BackgroundHorizontal(value) {
        bgX := 0;
      }
    }

    /** `resetCounters`: a new frame restarts both Y counters. */
    method ResetCounters()
      modifies this
      ensures objY == 0 && bgY == 0
      ensures objX == old(objX) && bgX == old(bgX) && value == old(value)
    {
      objY := 0;
      bgY := 0;
    }
  }
}
