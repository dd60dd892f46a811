/**
 * The interrupt registers (memory/mmio/Interrupts.kt): IME, whose only
 * state is bit 0 of the last write; IE, a plain 16-bit register; and IR,
 * where the hardware raises request bits and the program acknowledges them
 * by writing ones.
 */
module Interrupts {
  import opened Extensions

  /** The interrupt sources in bit order. */
  datatype Interrupt =
    | VBlank | HBlank | VCount | Timer0 | Timer1 | Timer2 | Timer3 | Serial
    | Dma0 | Dma1 | Dma2 | Dma3 | Keypad | GamePak

  /** `Interrupt.mask`: the single bit of the source. */
  function MaskOf(flag: Interrupt): (mask: bv32)
  {
    match flag
    case VBlank => 0x1
    case HBlank => 0x2
    case VCount => 0x4
    case Timer0 => 0x8
    case Timer1 => 0x10
    case Timer2 => 0x20
    case Timer3 => 0x40
    case Serial => 0x80
    case Dma0 => 0x100
    case Dma1 => 0x200
    case Dma2 => 0x400
    case Dma3 => 0x800
    case Keypad => 0x1000
    case GamePak => 0x2000
  }

  /** Each mask is a single bit, and all of them lie in bits 0-13. */
  lemma MaskIsOneBit(flag: Interrupt)
    ensures MaskOf(flag) != 0 && MaskOf(flag) & (MaskOf(flag) - 1) == 0
    ensures MaskOf(flag) < 0x4000
  {
  }

  /** The source of DMA channel `index`, whose mask is `1 shl (8 + index)` as the DMA controller raises it. */
  function DmaInterrupt(index: nat): (flag: Interrupt)
    requires index < 4
    ensures MaskOf(flag) == [0x100, 0x200, 0x400, 0x800][index]
  {
    [Dma0, Dma1, Dma2, Dma3][index]
  }

  /** The flag setter of IE and IR: clear the mask, then set it when `value` holds. */
  function WithFlag(v: bv32, flag: Interrupt, value: bool): (r: bv32)
  {
    var cleared := v & !MaskOf(flag);
    if value then cleared | MaskOf(flag) else cleared
  }

  /** Setting a flag makes it read back as set and leaves every other bit alone. */
  lemma WithFlagTouchesOnlyMask(v: bv32, flag: Interrupt, value: bool)
    ensures (WithFlag(v, flag, value) & MaskOf(flag) != 0) == value
    ensures WithFlag(v, flag, value) & !MaskOf(flag) == v & !MaskOf(flag)
  {
    MaskIsOneBit(flag);
  }

  /** A 16-bit IR write: every bit that is 1 in the value is acknowledged (cleared). */
  function Acknowledge16(v: bv32, value: bv32): (r: bv32)
  {
    v & !UInt16(value)
  }

  /** A byte IR write acknowledges the ones of the byte within the addressed byte of the register. */
  function Acknowledge8(address: bv32, v: bv32, value: bv32): (r: bv32)
  {
    if Bit(address, 0) then (v & 0xFF) | ((v & 0xFF00) & !(UInt8(value) << 8))
    else (v & 0xFF00) | ((v & 0xFF) & !UInt8(value))
  }

  /** A 16-bit acknowledge never sets a bit, clears every bit written as 1, and keeps every other bit. */
  lemma Acknowledge16Clears(v: bv32, value: bv32)
    ensures Acknowledge16(v, value) & !v == 0
    ensures Acknowledge16(v, value) & UInt16(value) == 0
    ensures Acknowledge16(v, value) | (v & UInt16(value)) == v
  {
  }

  /** Acknowledging the requests already pending (writing back what was read) clears them all. */
  lemma AcknowledgeWhatWasRead(v: bv32)
    requires v < 0x1_0000
    ensures Acknowledge16(v, v) == 0
  {
  }

  /** A byte acknowledge of the low byte clears the written ones there and keeps the high byte. */
  lemma Acknowledge8Low(address: bv32, v: bv32, value: bv32)
    requires !Bit(address, 0)
    ensures Acknowledge8(address, v, value) & 0xFF00 == v & 0xFF00
    ensures Acknowledge8(address, v, value) & 0xFF == v & 0xFF & !UInt8(value)
    ensures Acknowledge8(address, v, value) < 0x1_0000
  {
  }

  /** A byte acknowledge of the high byte clears the written ones there and keeps the low byte. */
  lemma Acknowledge8High(address: bv32, v: bv32, value: bv32)
    requires Bit(address, 0)
    ensures Acknowledge8(address, v, value) & 0xFF == v & 0xFF
    ensures Acknowledge8(address, v, value) & 0xFF00 == v & 0xFF00 & !(UInt8(value) << 8)
    ensures Acknowledge8(address, v, value) < 0x1_0000
  {
  }

  /** `InterruptMasterEnable`: the master switch. */
  class InterruptMasterEnable {
    var enabled: bool

    constructor ()
      ensures !enabled
    {
      enabled := false;
    }

    /** All three read widths return 1 when enabled and 0 when not. */
    method Read(address: bv32) returns (v: bv32)
      ensures v == if enabled then 1 else 0
    {
      v := if enabled then 1 else 0;
    }

    /** All three write widths keep bit 0 of the value and nothing else. */
    method Write(address: bv32, value: bv32)
      modifies this
      ensures enabled == Bit(value, 0)
    {
      enabled := Bit(value, 0);
    }
  }

  /** `InterruptEnable`: a 16-bit register with a flag per source. */
  class InterruptEnable {
    var value: bv32

    constructor ()
      ensures value == 0
    {
      value := 0;
    }

    method Read16(address: bv32) returns (v: bv32)
      ensures v == UInt16(value)
    {
      v := UInt16(value);
    }

    /** `read32`: the whole register, which the writes keep below 0x10000. */
    method Read32(address: bv32) returns (v: bv32)
      ensures v == value
    {
      v := value;
    }

    method Write16(address: bv32, v: bv32)
      modifies this
      ensures value == UInt16(v)
    {
      value := UInt16(v);
    }

    method Write32(address: bv32, v: bv32)
      modifies this
      ensures value == UInt16(v)
    {
      value := v & 0xFFFF;
    }

    method Get(flag: Interrupt) returns (b: bool)
      ensures b == (value & MaskOf(flag) != 0)
    {
      b := value & MaskOf(flag) != 0;
    }

    method Set(flag: Interrupt, b: bool)
      modifies this
      ensures value == WithFlag(old(value), flag, b)
    {
      value := WithFlag(value, flag, b);
    }
  }

  /** `InterruptRequest`: the pending requests, set by the hardware and acknowledged by writes. */
  class InterruptRequest {
    var value: bv32

    constructor ()
      ensures value == 0
    {
      value := 0;
    }

    /** `read8`: the addressed byte of the low halfword. */
    method Read8(address: bv32) returns (b: bv32)
      ensures b == Read8From16(address, value)
    {
      b := Read8From16(address, value);
    }

    method Read16(address: bv32) returns (h: bv32)
      ensures h == UInt16(value)
    {
      h := UInt16(value);
    }

    /** `read32`: only the low sixteen bits. */
    method Read32(address: bv32) returns (w: bv32)
      ensures w < 0x1_0000 && w == value & 0xFFFF
    {
      w := value & 0xFFFF;
    }

    method Write8(address: bv32, b: bv32)
      modifies this
      ensures value == Acknowledge8(address, old(value), b)
    {
      if Bit(address, 0) {
        value := (value & 0xFF) | ((value & 0xFF00) & !(UInt8(b) << 8));
      } else {
        value := (value & 0xFF00) | ((value & 0xFF) & !UInt8(b));
      }
    }

    method Write16(address: bv32, h: bv32)
      modifies this
      ensures value == Acknowledge16(old(value), h)
    {
      value := value & !UInt16(h);
    }

    /** `write32` is ignored. */
    method Write32(address: bv32, w: bv32)
    {
    }

    method Get(flag: Interrupt) returns (b: bool)
      ensures b == (value & MaskOf(flag) != 0)
    {
      b := value & MaskOf(flag) != 0;
    }

    /** Raises (or drops) one request. */
    method Set(flag: Interrupt, b: bool)
      modifies this
      ensures value == WithFlag(old(value), flag, b)
    {
      value := WithFlag(value, flag, b);
    }
  }
}
