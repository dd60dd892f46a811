/**
 * A DMA channel (memory/dma/DMA.kt). The control register selects how the
 * source and destination addresses step, the unit (halfword or word), the
 * start timing, repeat and the completion interrupt. Enabling the channel
 * latches the source, destination and count registers; a transfer then
 * copies `count` units from the latched source to the latched destination
 * and ends by raising the interrupt and either disabling the channel or,
 * for a repeating channel that is not started immediately, reloading it.
 *
 * The transfer is specified by `RunMem` and `RunLatch`, recursive
 * functions over the bus memory and the latch, one `StepMem`/`StepLatch`
 * per unit.
 */
module Dma {
  import opened Extensions
  import opened Wrappers
  import opened Memory
  import opened DmaAddresses
  import opened Interrupts
  import opened Scheduling

  /** `AddrControl`: how an address steps after each unit. */
  datatype AddrControl = Increment | Decrement | Fixed | Reload

  /** `DMAStart`: when an enabled channel runs. */
  datatype DmaStart = Immediate | VBlankStart | HBlankStart | Special

  function AddrControlOf(k: bv32): (c: AddrControl)
    requires k < 4
  {
    if k == 0 then Increment else if k == 1 then Decrement else if k == 2 then Fixed else Reload
  }

  function DestAddrControl(v: bv32): AddrControl { AddrControlOf((v >> 5) & 3) }
  function SourceAddrControl(v: bv32): AddrControl { AddrControlOf((v >> 7) & 3) }
  predicate Repeat(v: bv32) { Bit(v, 9) }
  predicate Is32Bit(v: bv32) { Bit(v, 10) }
  predicate IrqEnabled(v: bv32) { Bit(v, 14) }
  predicate Enabled(v: bv32) { Bit(v, 15) }

  function StartTiming(v: bv32): (t: DmaStart)
  {
    var k := (v >> 12) & 3;
    if k == 0 then Immediate else if k == 1 then VBlankStart else if k == 2 then HBlankStart else Special
  }

  /** `cntMask`: the control bits a channel keeps; only channel 3 has the Game Pak DRQ bit 11. */
  function ControlMask(index: nat): (m: bv32)
  {
    if index == 3 then 0xFFE0 else 0xF7E0
  }

  /** `mask`: the count bits, 16 on channel 3 and 14 on the others. */
  function CountMask(index: nat): (m: bv32)
  {
    if index == 3 then 0xFFFF else 0x3FFF
  }

  /** The count register after a write: the masked value, with 0 standing for the largest count. */
  function CountOf(index: nat, h: bv16): (count: nat)
  {
    var c := ((h as bv32) & CountMask(index)) as nat;
    if c == 0 then CountMask(index) as nat + 1 else c
  }

  /** A count write gives 1 to 0x4000 units (0x10000 on channel 3): the written count, or the maximum for 0. */
  lemma CountRange(index: nat, h: bv16)
    ensures 1 <= CountOf(index, h) <= CountMask(index) as nat + 1
    ensures ((h as bv32) & CountMask(index)) != 0 ==> CountOf(index, h) == ((h as bv32) & CountMask(index)) as nat
    ensures ((h as bv32) & CountMask(index)) == 0 ==> CountOf(index, h) == if index == 3 then 0x1_0000 else 0x4000
  {
  }

  /** A control write keeps only the channel's bits: never bits 0-4, and bit 11 only on channel 3. */
  lemma ControlWriteMasked(index: nat, h: bv16)
    ensures var v := (h as bv32) & ControlMask(index);
      v < 0x1_0000 && v & 0x1F == 0 && (index != 3 ==> !Bit(v, 11))
  {
  }

  /** The state the transfer works on (`DMALatch`). */
  datatype Latch = Latch(count: int, source: bv32, destination: bv32, last: bv32)

  /** `latch.source ushr 24 in 0x8..0xD`: the source is in the game pak ROM. */
  predicate SourceInRom(source: bv32)
  {
    8 <= source >> 24 <= 0xD
  }

  /** `value and (3 shl 7).inv()`: a ROM source forces the source to increment. */
  function ForcedIncrement(v: bv32, source: bv32): (r: bv32)
  {
    if SourceInRom(source) then v & !0x180 else v
  }

  /** Forcing the increment changes only the source control bits. */
  lemma ForcedIncrementOnlySource(v: bv32, source: bv32)
    ensures SourceInRom(source) ==> SourceAddrControl(ForcedIncrement(v, source)) == Increment
    ensures !SourceInRom(source) ==> ForcedIncrement(v, source) == v
    ensures ForcedIncrement(v, source) & !0x180 == v & !0x180
  {
  }

  /** The unit size in bytes. */
  function UnitSize(words: bool): (size: bv32)
  {
    if words then 4 else 2
  }

  /** `getDestinationOffset`: Decrement steps back, Fixed stays, Increment and Reload step forward. */
  function DestinationOffset(v: bv32, words: bool): (offset: bv32)
  {
    match DestAddrControl(v)
    case Decrement => 0 - UnitSize(words)
    case Fixed => 0
    case _ => UnitSize(words)
  }

  /** `getSourceOffset`: Increment steps forward, Decrement back, Fixed and Reload stay. */
  function SourceOffset(v: bv32, words: bool): (offset: bv32)
  {
    match SourceAddrControl(v)
    case Increment => UnitSize(words)
    case Decrement => 0 - UnitSize(words)
    case _ => 0
  }

  /** A Fixed destination and a Fixed or Reload source do not move; the others move by one unit. */
  lemma OffsetsByControl(v: bv32, words: bool)
    ensures DestAddrControl(v) == Fixed <==> DestinationOffset(v, words) == 0
    ensures SourceAddrControl(v) in {Fixed, Reload} <==> SourceOffset(v, words) == 0
    ensures DestAddrControl(v) == Decrement ==> DestinationOffset(v, words) + UnitSize(words) == 0
    ensures SourceAddrControl(v) == Decrement ==> SourceOffset(v, words) + UnitSize(words) == 0
  {
  }

  /** `transferX`'s first step: both addresses aligned down to the unit. */
  function Aligned(l: Latch, words: bool): (r: Latch)
    ensures words ==> r.source & 3 == 0 && r.destination & 3 == 0
    ensures !words ==> r.source & 1 == 0 && r.destination & 1 == 0
    ensures r.count == l.count && r.last == l.last
  {
    if words then l.(source := l.source & !3, destination := l.destination & !3)
    else l.(source := l.source & !1, destination := l.destination & !1)
  }

  /** `latch.source >= 0x2000000` on a signed Int: sources below EWRAM (and "negative" ones) are not read. */
  predicate Readable(source: bv32)
  {
    0x200_0000 <= source < 0x8000_0000
  }

  /** A halfword read as the channel keeps it: `it or it.shl(16)`. */
  function Spread(h: bv32): (w: bv32)
  {
    h | (h << 16)
  }

  /** The unit read from the source, or the last one when the source is not readable. */
  function Fetched(mem: Mem, source: bv32, words: bool, last: bv32): (v: bv32)
  {
    if !Readable(source) then last
    else if words then Read32(mem, source)
    else Spread(Read16(mem, source))
  }

  /** `value.ushr(address.and(2) shl 3)`: the half of the kept word that belongs at the destination. */
  function HalfFor(v: bv32, destination: bv32): (h: bv32)
  {
    if Bit(destination, 1) then v >> 16 else v
  }

  /** The memory after one unit is written. */
  function Stored(mem: Mem, destination: bv32, v: bv32, words: bool): (m: Mem)
  {
    if words then WithWord(mem, destination, v) else WithHalf(mem, destination, HalfFor(v, destination))
  }

  /** An address stepped by an offset, with 32-bit wrap-around (`latch.source += sourceOffset`). */
  function Moved(a: bv32, offset: bv32): bv32
  {
    a + offset
  }

  /** The latch after a unit carrying `v`: both addresses stepped, the count one lower, `v` kept. */
  function Next(l: Latch, v: bv32, sourceOffset: bv32, destinationOffset: bv32): (r: Latch)
  {
    Latch(l.count - 1, Moved(l.source, sourceOffset), Moved(l.destination, destinationOffset), v)
  }

  /** One unit: read (or reuse) the value, write it, step both addresses, count down. */
  function StepLatch(mem: Mem, l: Latch, sourceOffset: bv32, destinationOffset: bv32, words: bool): (r: Latch)
    ensures r.count == l.count - 1
  {
    Next(l, Fetched(mem, l.source, words, l.last), sourceOffset, destinationOffset)
  }

  function StepMem(mem: Mem, l: Latch, words: bool): (m: Mem)
  {
    Stored(mem, l.destination, Fetched(mem, l.source, words, l.last), words)
  }

  /** The memory after the whole loop. */
  function RunMem(mem: Mem, l: Latch, sourceOffset: bv32, destinationOffset: bv32, words: bool): (m: Mem)
    decreases if l.count > 0 then l.count else 0
  {
    if l.count <= 0 then mem
    else RunMem(StepMem(mem, l, words), StepLatch(mem, l, sourceOffset, destinationOffset, words),
      sourceOffset, destinationOffset, words)
  }

  /** The latch after the whole loop. */
  function RunLatch(mem: Mem, l: Latch, sourceOffset: bv32, destinationOffset: bv32, words: bool): (r: Latch)
    decreases if l.count > 0 then l.count else 0
  {
    if l.count <= 0 then l
    else RunLatch(StepMem(mem, l, words), StepLatch(mem, l, sourceOffset, destinationOffset, words),
      sourceOffset, destinationOffset, words)
  }

  /** `a` moved `n` times by `offset`, with 32-bit wrap-around. */
  function Advance(a: bv32, offset: bv32, n: nat): (r: bv32)
    decreases n
  {
    if n == 0 then a else Advance(Moved(a, offset), offset, n - 1)
  }

  /** The destinations the loop writes, in order. */
  function Destinations(mem: Mem, l: Latch, sourceOffset: bv32, destinationOffset: bv32, words: bool): (ds: seq<bv32>)
    decreases if l.count > 0 then l.count else 0
  {
    if l.count <= 0 then []
    else [l.destination] + Destinations(StepMem(mem, l, words), StepLatch(mem, l, sourceOffset, destinationOffset, words),
      sourceOffset, destinationOffset, words)
  }

  /** The loop ends with the count at 0 and both addresses moved `count` times. */
  lemma {:induction false} RunLatchEnds(mem: Mem, l: Latch, sourceOffset: bv32, destinationOffset: bv32, words: bool)
    requires l.count >= 0
    ensures var r := RunLatch(mem, l, sourceOffset, destinationOffset, words);
      r.count == 0 && r.source == Advance(l.source, sourceOffset, l.count) &&
      r.destination == Advance(l.destination, destinationOffset, l.count)
    decreases l.count
  {
    if l.count > 0 {
      RunLatchEnds(StepMem(mem, l, words), StepLatch(mem, l, sourceOffset, destinationOffset, words),
        sourceOffset, destinationOffset, words);
    }
  }

  /** The loop writes exactly `count` units, the k-th at the destination moved k times. */
  lemma {:induction false} RunWritesCount(mem: Mem, l: Latch, sourceOffset: bv32, destinationOffset: bv32, words: bool)
    requires l.count >= 0
    ensures var ds := Destinations(mem, l, sourceOffset, destinationOffset, words);
      |ds| == l.count && forall k :: 0 <= k < |ds| ==> ds[k] == Advance(l.destination, destinationOffset, k)
    decreases l.count
  {
    if l.count > 0 {
      var next := StepLatch(mem, l, sourceOffset, destinationOffset, words);
      var rest := Destinations(StepMem(mem, l, words), next, sourceOffset, destinationOffset, words);
      RunWritesCount(StepMem(mem, l, words), next, sourceOffset, destinationOffset, words);
      var ds := Destinations(mem, l, sourceOffset, destinationOffset, words);
      assert ds == [l.destination] + rest;
      forall k | 0 <= k < |ds|
        ensures ds[k] == Advance(l.destination, destinationOffset, k)
      {
        if k > 0 {
          assert ds[k] == rest[k - 1];
        }
      }
    }
  }

  /** A Fixed address never moves, however many units are copied. */
  lemma {:induction false} AdvanceFixed(a: bv32, n: nat)
    ensures Advance(a, 0, n) == a
  {
    if n > 0 {
      assert Moved(a, 0) == a;
      AdvanceFixed(a, n - 1);
    }
  }

  /** A word unit from a readable source lands whole at the destination. */
  lemma WordUnitCopies(mem: Mem, l: Latch)
    requires Readable(l.source)
    ensures Read32(StepMem(mem, l, true), l.destination) == Read32(mem, l.source)
  {
    assert Fetched(mem, l.source, true, l.last) == Read32(mem, l.source);
    Read32WithWord(mem, l.destination, Read32(mem, l.source));
  }

  /** A unit from an unreadable source repeats the last value read. */
  lemma UnreadableRepeatsLast(mem: Mem, l: Latch, sourceOffset: bv32, destinationOffset: bv32, words: bool)
    requires !Readable(l.source)
    ensures StepLatch(mem, l, sourceOffset, destinationOffset, words).last == l.last
    ensures StepMem(mem, l, words) == Stored(mem, l.destination, l.last, words)
  {
  }

  /** Whether the channel stays armed after a transfer: it repeats and is not started immediately. */
  predicate Rearms(v: bv32)
  {
    Repeat(v) && StartTiming(v) != Immediate
  }

  /** `endTransfer`'s effect on the control register: the enable bit is cleared unless the channel rearms. */
  function EndedValue(v: bv32): (r: bv32)
  {
    if Rearms(v) then v else v & !0x8000
  }

  /** `endTransfer`'s effect on the latch: a rearming channel reloads the count and, for Reload, the destination. */
  function EndedLatch(l: Latch, v: bv32, count: int, destination: bv32): (r: Latch)
  {
    if !Rearms(v) then l
    else l.(count := count, destination := if DestAddrControl(v) == Reload then destination else l.destination)
  }

  /** After a transfer the channel is enabled exactly when it was and rearms; nothing else in the control changes. */
  lemma EndedEnable(v: bv32)
    ensures Enabled(EndedValue(v)) <==> Enabled(v) && Rearms(v)
    ensures EndedValue(v) & !0x8000 == v & !0x8000
  {
    if !Rearms(v) {
      ClearEnable(v);
    }
  }

  lemma ClearEnable(v: bv32)
    ensures !Enabled(v & !0x8000) && (v & !0x8000) & !0x8000 == v & !0x8000
  {
  }

  class Channel {
    const index: nat
    const cntMask: bv32
    const mask: bv32
    const destination: DmaAddress
    const source: DmaAddress
    var value: bv32
    var count: int
    var latch: Latch

    ghost predicate Valid()
      reads this
    {
      index < 4 && cntMask == ControlMask(index) && mask == CountMask(index) &&
      destination != source
    }

    /** Channel `index`: its masks, and its address registers with the channel's reach. */
    constructor (index: nat)
      requires index < 4
      ensures Valid() && this.index == index && value == 0 && count == 0 && latch == Latch(0, 0, 0, 0)
      ensures destination.mask == (if index == 3 then 0xFFF else 0x7FF) && destination.Valid()
      ensures source.mask == (if index == 0 then 0x7FF else 0xFFF) && source.Valid()
    {
      this.index := index;
      cntMask := ControlMask(index);
      mask := CountMask(index);
      destination := new DmaAddress(if index == 3 then 0xFFF else 0x7FF);
      source := new DmaAddress(if index == 0 then 0x7FF else 0xFFF);
      value := 0;
      count := 0;
      latch := Latch(0, 0, 0, 0);
    }

    /** `read16`: the control register at the high halfword, 0 at the count. */
    method Read16(address: bv32) returns (h: bv32)
      ensures h == if Bit(address, 1) then value & 0xFFFF else 0
    {
      h := if Bit(address, 1) then value & 0xFFFF else 0;
    }

    /** `read32` returns 0 and `write32` is ignored. */
    method Read32(address: bv32) returns (w: bv32)
      ensures w == 0
    {
      w := 0;
    }

    /**
     * `write16`: at the high halfword the masked control, latching the
     * address and count registers on a 0-to-1 enable edge and scheduling an
     * immediate start 2 cycles ahead; at the low halfword the count.
     * `ok` is false when that start finds no free task slot, where
     * `schedule` throws.
     */
    method Write16(address: bv32, h: bv16, scheduler: Scheduler) returns (ok: bool)
      requires Valid() && scheduler.Valid()
      modifies this, scheduler.taskCounters, scheduler.tasks
      ensures Valid() && unchanged(destination, source)
      ensures !Bit(address, 1) ==> value == old(value) && count == CountOf(index, h) && latch == old(latch)
      ensures Bit(address, 1) ==> value == (h as bv32) & cntMask && count == old(count)
      ensures var edge := Bit(address, 1) && !Enabled(old(value)) && Enabled(value);
        latch == (if edge then Latch(old(count), source.value, destination.value, old(latch).last) else old(latch)) &&
        (edge && StartTiming(value) == Immediate && FirstFree(old(scheduler.taskCounters[..]), 0).Some? ==>
          var i := FirstFree(old(scheduler.taskCounters[..]), 0).value;
          scheduler.taskCounters[..] == old(scheduler.taskCounters[..])[i := scheduler.counter + 2] &&
          scheduler.tasks[..] == old(scheduler.tasks[..])[i := Some(DmaImmediate)]) &&
        (!(edge && StartTiming(value) == Immediate) ==>
          scheduler.taskCounters[..] == old(scheduler.taskCounters[..]) && scheduler.tasks[..] == old(scheduler.tasks[..])) &&
        (!ok <==> edge && StartTiming(value) == Immediate && FirstFree(old(scheduler.taskCounters[..]), 0).None?) &&
        (!ok ==> scheduler.taskCounters[..] == old(scheduler.taskCounters[..]) && scheduler.tasks[..] == old(scheduler.tasks[..]))
    {
      ok := true;
      if Bit(address, 1) {
        var wasEnabled := Enabled(value);
        value := (h as bv32) & cntMask;
        if !wasEnabled && Enabled(value) {
          latch := latch.(source := source.value, destination := destination.value, count := count);
          if StartTiming(value) == Immediate {
            ok := scheduler.Schedule(2, Some(DmaImmediate));
          }
        }
      } else {
        count := CountOf(index, h);
      }
    }

    /**
     * `transfer`: force the increment for a ROM source, align the latched
     * addresses, copy `latch.count` units, then `endTransfer`.
     */
    method Transfer(bus: Bus, ir: InterruptRequest)
      requires Valid()
      modifies this, bus, ir
      ensures Valid() && count == old(count)
      ensures var v := ForcedIncrement(old(value), old(latch).source);
        var words := Is32Bit(v);
        var start := Aligned(old(latch), words);
        var so := SourceOffset(v, words);
        var d := DestinationOffset(v, words);
        bus.memory == RunMem(old(bus.memory), start, so, d, words) &&
        latch == EndedLatch(RunLatch(old(bus.memory), start, so, d, words), v, count, destination.value) &&
        value == EndedValue(v) &&
        ir.value == if IrqEnabled(v) then old(ir.value) | MaskOf(DmaInterrupt(index)) else old(ir.value)
    {
      if SourceInRom(latch.source) {
        value := value & !0x180;
      }
      var words := Is32Bit(value);
      latch := Aligned(latch, words);
      TransferUnits(bus, words, SourceOffset(value, words), DestinationOffset(value, words));
      EndTransfer(ir);
    }

    /** `transferX`'s loop: one unit per iteration until the latched count reaches 0. */
    method TransferUnits(bus: Bus, words: bool, sourceOffset: bv32, destinationOffset: bv32)
      modifies this`latch, bus
      ensures bus.memory == RunMem(old(bus.memory), old(latch), sourceOffset, destinationOffset, words)
      ensures latch == RunLatch(old(bus.memory), old(latch), sourceOffset, destinationOffset, words)
    {
      while latch.count > 0
        invariant RunMem(bus.memory, latch, sourceOffset, destinationOffset, words) ==
          RunMem(old(bus.memory), old(latch), sourceOffset, destinationOffset, words)
        invariant RunLatch(bus.memory, latch, sourceOffset, destinationOffset, words) ==
          RunLatch(old(bus.memory), old(latch), sourceOffset, destinationOffset, words)
        decreases latch.count
      {
        ghost var before := bus.memory;
        var v := Fetched(bus.memory, latch.source, words, latch.last);
        if words {
          bus.Write32(latch.destination, v);
        } else {
          bus.Write16(latch.destination, HalfFor(v, latch.destination));
        }
        assert bus.memory == StepMem(before, latch, words);
        latch := Next(latch, v, sourceOffset, destinationOffset);
      }
    }

    /** `endTransfer`: raise the channel's interrupt if enabled, then rearm or disable. */
    method EndTransfer(ir: InterruptRequest)
      requires Valid()
      modifies this`latch, this`value, ir
      ensures ir.value == if IrqEnabled(old(value)) then old(ir.value) | MaskOf(DmaInterrupt(index)) else old(ir.value)
      ensures latch == EndedLatch(old(latch), old(value), count, destination.value)
      ensures value == EndedValue(old(value))
    {
      if IrqEnabled(value) {
        ir.value := ir.value | MaskOf(DmaInterrupt(index));
      }
      latch := EndedLatch(latch, value, count, destination.value);
      value := EndedValue(value);
    }
  }
}
