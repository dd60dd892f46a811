/**
 * The arithmetic the load and store handlers of both instruction sets
 * share. The bus aligns halfword and word accesses down; a load from a
 * misaligned address then rotates or sign-extends what the bus returned
 * (cpu/thumb/Memory.kt and cpu/arm/Memory.kt write these inline). A block
 * transfer moves one word per listed register, the lowest register at the
 * lowest address.
 */
module Transfers {
  import opened Extensions
  import opened Memory
  import opened CpuUtils
  import opened CpuModel
  import opened BarrelShifter
  import opened SignExtend

  /**
   * `rotateRight((address and 3) shl 3)`: a word rotated right by eight bits
   * per byte of misalignment, the four cases written out.
   */
  function RotateByLane(v: bv32, lane: bv32): bv32
    requires lane < 4
  {
    if lane == 0 then v
    else if lane == 1 then v.RotateRight(8)
    else if lane == 2 then v.RotateRight(16)
    else v.RotateRight(24)
  }

  /** Bits 0-7 of a word. */
  function LowByte(v: bv32): bv32
  {
    v & 0xFF
  }

  /** `read32(address).rotateRight((address and 3) shl 3)`: LDR and SWP. */
  function LoadWord(mem: Mem, address: bv32): bv32
  {
    RotateByLane(Read32(mem, address), address & 3)
  }

  /** `read16(address).uInt.rotateRight((address and 1) shl 3)`: LDRH. */
  function LoadHalf(mem: Mem, address: bv32): bv32
  {
    RotateByLane(Read16(mem, address), address & 1)
  }

  /** `read8(address).toInt()`: LDRSB, the byte sign-extended. */
  function LoadSignedByte(mem: Mem, address: bv32): bv32
  {
    SignExtend8(Read8(mem, address))
  }

  /** `read16(address).toInt() shr ((address and 1) shl 3)`: LDRSH. */
  function LoadSignedHalf(mem: Mem, address: bv32): bv32
  {
    if address & 1 == 0 then SignExtend16(Read16(mem, address)) else Sar(SignExtend16(Read16(mem, address)), 8)
  }

  /** A word stored at an aligned address is loaded back unchanged. */
  lemma StoreThenLoadWord(mem: Mem, address: bv32, value: bv32)
    requires address & 3 == 0
    ensures LoadWord(WithWord(mem, address, value), address) == value
  {
    Read32WithWord(mem, address, value);
  }

  /** A halfword stored at an even address is loaded back as its low 16 bits. */
  lemma StoreThenLoadHalf(mem: Mem, address: bv32, value: bv32)
    requires address & 1 == 0
    ensures LoadHalf(WithHalf(mem, address, value), address) == value & 0xFFFF
  {
    Read16WithHalf(mem, address, value);
  }

  /** A misaligned word load brings the addressed byte to bits 0-7. */
  lemma LoadWordLowByte(mem: Mem, address: bv32)
    ensures LowByte(LoadWord(mem, address)) == Read8(mem, address)
  {
    var k := address & 3;
    if k == 0 {
      LoadWordLane0(mem, address);
    } else if k == 1 {
      LoadWordLane1(mem, address);
    } else if k == 2 {
      LoadWordLane2(mem, address);
    } else {
      LoadWordLane3(mem, address);
    }
  }

  lemma LoadWordLane0(mem: Mem, address: bv32)
    requires address & 3 == 0
    ensures LowByte(LoadWord(mem, address)) == Read8(mem, address)
  {
    var a := address & !3;
    LaneOffset0(address);
    assert LoadWord(mem, address) == RotateByLane(ReadWordAt(mem, a), 0);
    WordAtLane0(mem, a);
    assert Read8(mem, a) == Read8(mem, address);
  }

  lemma WordAtLane0(mem: Mem, a: bv32)
    ensures LowByte(RotateByLane(ReadWordAt(mem, a), 0)) == Read8(mem, a)
  {
    RotatedLane0(Read8(mem, a), Read8(mem, a + 1), Read8(mem, a + 2), Read8(mem, a + 3));
  }

  lemma LaneOffset0(address: bv32)
    requires address & 3 == 0
    ensures address & !3 == address
  {
  }

  lemma LoadWordLane1(mem: Mem, address: bv32)
    requires address & 3 == 1
    ensures LowByte(LoadWord(mem, address)) == Read8(mem, address)
  {
    var a := address & !3;
    LaneOffset1(address);
    assert LoadWord(mem, address) == RotateByLane(ReadWordAt(mem, a), 1);
    WordAtLane1(mem, a);
    assert Read8(mem, a + 1) == Read8(mem, address);
  }

  lemma WordAtLane1(mem: Mem, a: bv32)
    ensures LowByte(RotateByLane(ReadWordAt(mem, a), 1)) == Read8(mem, a + 1)
  {
    RotatedLane1(Read8(mem, a), Read8(mem, a + 1), Read8(mem, a + 2), Read8(mem, a + 3));
  }

  lemma LaneOffset1(address: bv32)
    requires address & 3 == 1
    ensures (address & !3) + 1 == address
  {
  }

  lemma LoadWordLane2(mem: Mem, address: bv32)
    requires address & 3 == 2
    ensures LowByte(LoadWord(mem, address)) == Read8(mem, address)
  {
    var a := address & !3;
    LaneOffset2(address);
    assert LoadWord(mem, address) == RotateByLane(ReadWordAt(mem, a), 2);
    WordAtLane2(mem, a);
    assert Read8(mem, a + 2) == Read8(mem, address);
  }

  lemma WordAtLane2(mem: Mem, a: bv32)
    ensures LowByte(RotateByLane(ReadWordAt(mem, a), 2)) == Read8(mem, a + 2)
  {
    RotatedLane2(Read8(mem, a), Read8(mem, a + 1), Read8(mem, a + 2), Read8(mem, a + 3));
  }

  lemma LaneOffset2(address: bv32)
    requires address & 3 == 2
    ensures (address & !3) + 2 == address
  {
  }

  lemma LoadWordLane3(mem: Mem, address: bv32)
    requires address & 3 == 3
    ensures LowByte(LoadWord(mem, address)) == Read8(mem, address)
  {
    var a := address & !3;
    LaneOffset3(address);
    assert LoadWord(mem, address) == RotateByLane(ReadWordAt(mem, a), 3);
    WordAtLane3(mem, a);
    assert Read8(mem, a + 3) == Read8(mem, address);
  }

  lemma WordAtLane3(mem: Mem, a: bv32)
    ensures LowByte(RotateByLane(ReadWordAt(mem, a), 3)) == Read8(mem, a + 3)
  {
    RotatedLane3(Read8(mem, a), Read8(mem, a + 1), Read8(mem, a + 2), Read8(mem, a + 3));
  }

  lemma LaneOffset3(address: bv32)
    requires address & 3 == 3
    ensures (address & !3) + 3 == address
  {
  }

  lemma RotatedLane0(b0: bv32, b1: bv32, b2: bv32, b3: bv32)
    requires b0 < 0x100 && b1 < 0x100 && b2 < 0x100 && b3 < 0x100
    ensures LowByte(RotateByLane(Assemble(b0, b1, b2, b3), 0)) == b0
  {
  }

  lemma RotatedLane1(b0: bv32, b1: bv32, b2: bv32, b3: bv32)
    requires b0 < 0x100 && b1 < 0x100 && b2 < 0x100 && b3 < 0x100
    ensures LowByte(RotateByLane(Assemble(b0, b1, b2, b3), 1)) == b1
  {
  }

  lemma RotatedLane2(b0: bv32, b1: bv32, b2: bv32, b3: bv32)
    requires b0 < 0x100 && b1 < 0x100 && b2 < 0x100 && b3 < 0x100
    ensures LowByte(RotateByLane(Assemble(b0, b1, b2, b3), 2)) == b2
  {
  }

  lemma RotatedLane3(b0: bv32, b1: bv32, b2: bv32, b3: bv32)
    requires b0 < 0x100 && b1 < 0x100 && b2 < 0x100 && b3 < 0x100
    ensures LowByte(RotateByLane(Assemble(b0, b1, b2, b3), 3)) == b3
  {
  }

  /** At any address, even or odd, the low byte of a halfword load is the addressed byte. */
  lemma LoadHalfLowByte(mem: Mem, address: bv32)
    ensures LowByte(LoadHalf(mem, address)) == Read8(mem, address)
  {
    if address & 1 == 0 {
      LoadHalfEven(mem, address);
    } else {
      LoadHalfOdd(mem, address);
    }
  }

  lemma LoadHalfEven(mem: Mem, address: bv32)
    requires address & 1 == 0
    ensures LowByte(LoadHalf(mem, address)) == Read8(mem, address)
  {
    var a := address & !1;
    EvenAddress(address);
    var b0, b1 := Read8(mem, a), Read8(mem, a + 1);
    assert Read16(mem, address) == AssembleHalf(b0, b1);
    assert LoadHalf(mem, address) == RotateByLane(Read16(mem, address), 0);
    HalfRotatedLane0(b0, b1);
  }

  lemma EvenAddress(address: bv32)
    requires address & 1 == 0
    ensures address & !1 == address
  {
  }

  lemma LoadHalfOdd(mem: Mem, address: bv32)
    requires address & 1 == 1
    ensures LowByte(LoadHalf(mem, address)) == Read8(mem, address)
  {
    var a := address & !1;
    OddAddress(address);
    var b0, b1 := Read8(mem, a), Read8(mem, address);
    assert Read16(mem, address) == AssembleHalf(b0, b1);
    assert LoadHalf(mem, address) == RotateByLane(Read16(mem, address), 1);
    HalfRotatedLane1(b0, b1);
  }

  lemma HalfRotatedLane0(b0: bv32, b1: bv32)
    requires b0 < 0x100 && b1 < 0x100
    ensures LowByte(RotateByLane(AssembleHalf(b0, b1), 0)) == b0
  {
  }

  lemma HalfRotatedLane1(b0: bv32, b1: bv32)
    requires b0 < 0x100 && b1 < 0x100
    ensures LowByte(RotateByLane(AssembleHalf(b0, b1), 1)) == b1
  {
  }

  /** A signed halfword load from an odd address is the addressed byte, sign-extended. */
  lemma LoadSignedHalfOdd(mem: Mem, address: bv32)
    requires address & 1 == 1
    ensures LoadSignedHalf(mem, address) == SignExtend8(Read8(mem, address))
  {
    var a := address & !1;
    OddAddress(address);
    var b0, b1 := Read8(mem, a), Read8(mem, address);
    assert Read16(mem, address) == AssembleHalf(b0, b1);
    HighByteSigned(b0, b1);
    assert LoadSignedHalf(mem, address) == Sar(SignExtend16(AssembleHalf(b0, b1)), 8);
  }

  lemma OddAddress(address: bv32)
    requires address & 1 == 1
    ensures (address & !1) + 1 == address
  {
  }

  lemma HighByteSigned(b0: bv32, b1: bv32)
    requires b0 < 0x100 && b1 < 0x100
    ensures Sar(SignExtend16(AssembleHalf(b0, b1)), 8) == SignExtend8(b1)
  {
  }

  /* Block transfers. */

  /** `n * 4` in 32-bit arithmetic: the bytes that n words take. */
  function Words(n: nat): bv32
  {
    if n == 0 then 0 else NextWord(Words(n - 1))
  }

  /**
   * How many of bits 0 to i-1 of a register list are set: the number of
   * words a block transfer moves before register i, and for i = 8 or 16 the
   * `countOneBits` of the list.
   */
  function Rank(list: bv32, i: nat): (r: nat)
    requires i <= 16
    ensures r <= i
  {
    if i == 0 then 0 else Rank(list, i - 1) + (if Bit(list, i - 1) then 1 else 0)
  }

  /** A listed register comes before every later register. */
  lemma {:induction false} RankIncreases(list: bv32, i: nat, j: nat)
    requires i < j <= 16 && Bit(list, i)
    ensures Rank(list, i) < Rank(list, j)
    decreases j
  {
    if j > i + 1 {
      RankIncreases(list, i, j - 1);
    }
  }

  /** Words(n) is 4n while that fits easily. */
  lemma {:induction false} WordsValue(n: nat)
    requires n <= 16
    ensures Words(n) as int == 4 * n
  {
    if n > 0 {
      WordsValue(n - 1);
      SmallStep(Words(n - 1));
    }
  }

  lemma SmallStep(w: bv32)
    requires w as int <= 60
    ensures NextWord(w) as int == w as int + 4
  {
  }

  lemma {:induction false} WordsAligned(n: nat)
    ensures Words(n) & 3 == 0
  {
    if n > 0 {
      WordsAligned(n - 1);
      AlignedStep(Words(n - 1));
    }
  }

  lemma AlignedStep(w: bv32)
    requires w & 3 == 0
    ensures NextWord(w) & 3 == 0
  {
    assert NextWord(w) == w + 4;
  }

  /** Moving a base one word on is adding one word more. */
  lemma PlusNext(a: bv32, w: bv32)
    ensures Plus(a, NextWord(w)) == NextWord(Plus(a, w))
  {
    assert NextWord(w) == w + 4;
    assert Plus(a, w) == a + w;
    assert Plus(a, w + 4) == a + (w + 4);
    assert NextWord(a + w) == (a + w) + 4;
    WordAssociates(a, w);
  }

  lemma WordAssociates(a: bv32, w: bv32)
    ensures a + (w + 4) == (a + w) + 4
  {
  }

  /** Words(q + d) is Words(q) then d words more. */
  lemma {:induction false} WordsSum(q: nat, d: nat)
    ensures Words(q + d) == Plus(Words(q), Words(d))
    decreases d
  {
    if d == 0 {
      assert Plus(Words(q), 0) == Words(q) + 0;
    } else {
      WordsSum(q, d - 1);
      assert Words(q + d) == NextWord(Words(q + d - 1));
      PlusNext(Words(q), Words(d - 1));
    }
  }

  lemma PlusAssociates(a: bv32, b: bv32, c: bv32)
    ensures Plus(a, Plus(b, c)) == Plus(Plus(a, b), c)
  {
    assert Plus(b, c) == b + c;
    assert Plus(a, b) == a + b;
    assert Plus(a, b + c) == a + (b + c);
    assert Plus(a + b, c) == (a + b) + c;
    WordAssociatesThree(a, b, c);
  }

  lemma WordAssociatesThree(a: bv32, b: bv32, c: bv32)
    ensures a + (b + c) == (a + b) + c
  {
  }

  /** Two slots of one block, q and q + d words from its base, lie in different words. */
  lemma WordsApart(base: bv32, q: nat, d: nat)
    requires 1 <= d <= 16
    ensures Plus(base, Words(q)) & !3 != Plus(base, Words(q + d)) & !3
  {
    SlotAfter(base, q, d);
    WordsNonzero(d);
    DistinctWords(Plus(base, Words(q)), Words(d));
  }

  /** The slot q + d words from a base is d words past slot q. */
  lemma SlotAfter(base: bv32, q: nat, d: nat)
    ensures Plus(base, Words(q + d)) == Plus(Plus(base, Words(q)), Words(d))
  {
    WordsSum(q, d);
    PlusAssociates(base, Words(q), Words(d));
  }

  lemma WordsNonzero(d: nat)
    requires 1 <= d <= 16
    ensures Words(d) & 3 == 0 && Words(d) != 0
  {
    WordsAligned(d);
    WordsValue(d);
  }

  lemma DistinctWords(b: bv32, w: bv32)
    requires w & 3 == 0 && w != 0
    ensures b & !3 != Plus(b, w) & !3
  {
    assert Plus(b, w) == b + w;
    Distinct(b, w);
  }

  lemma Distinct(b: bv32, w: bv32)
    requires w & 3 == 0 && w != 0
    ensures b & !3 != (b + w) & !3
  {
  }

  /** What a store loop has done: the memory and the offset of the next slot. */
  datatype Stored = Stored(memory: Mem, offset: bv32)

  /**
   * The store loop of PUSH and STMIA over registers i to 7: each listed
   * register's value is written at `base + offset`, the offset growing by a
   * word per store.
   */
  function StoreLow(mem: Mem, values: seq<bv32>, list: bv32, i: nat, base: bv32, offset: bv32): Stored
    requires |values| == 16 && i <= 8
    decreases 8 - i
  {
    if i == 8 then Stored(mem, offset)
    else if Bit(list, i) then StoreLow(WithWord(mem, Plus(base, offset), values[i]), values, list, i + 1, base, NextWord(offset))
    else StoreLow(mem, values, list, i + 1, base, offset)
  }

  /** What a load loop has done: the registers and the offset of the next slot. */
  datatype Loaded = Loaded(registers: seq<bv32>, offset: bv32)

  /** The load loop of POP and LDMIA over registers i to 7. */
  function LoadLow(registers: seq<bv32>, mem: Mem, list: bv32, i: nat, base: bv32, offset: bv32): (l: Loaded)
    requires |registers| == 16 && i <= 8
    ensures |l.registers| == 16
    decreases 8 - i
  {
    if i == 8 then Loaded(registers, offset)
    else if Bit(list, i) then LoadLow(registers[i := Read32(mem, Plus(base, offset))], mem, list, i + 1, base, NextWord(offset))
    else LoadLow(registers, mem, list, i + 1, base, offset)
  }

  /** Entering slot i at its rank, the loop ends one word past the last listed register. */
  lemma {:induction false} StoreLowOffset(mem: Mem, values: seq<bv32>, list: bv32, i: nat, base: bv32)
    requires |values| == 16 && i <= 8
    ensures StoreLow(mem, values, list, i, base, Words(Rank(list, i))).offset == Words(Rank(list, 8))
    decreases 8 - i
  {
    if i < 8 {
      if Bit(list, i) {
        var next := WithWord(mem, Plus(base, Words(Rank(list, i))), values[i]);
        assert Words(Rank(list, i + 1)) == NextWord(Words(Rank(list, i)));
        StoreLowOffset(next, values, list, i + 1, base);
      } else {
        StoreLowOffset(mem, values, list, i + 1, base);
      }
    }
  }

  lemma {:induction false} LoadLowOffset(registers: seq<bv32>, mem: Mem, list: bv32, i: nat, base: bv32)
    requires |registers| == 16 && i <= 8
    ensures LoadLow(registers, mem, list, i, base, Words(Rank(list, i))).offset == Words(Rank(list, 8))
    decreases 8 - i
  {
    if i < 8 {
      if Bit(list, i) {
        var next := registers[i := Read32(mem, Plus(base, Words(Rank(list, i))))];
        assert Words(Rank(list, i + 1)) == NextWord(Words(Rank(list, i)));
        LoadLowOffset(next, mem, list, i + 1, base);
      } else {
        LoadLowOffset(registers, mem, list, i + 1, base);
      }
    }
  }

  /** A register the loop does not load keeps its value. */
  lemma {:induction false} LoadLowKeeps(registers: seq<bv32>, mem: Mem, list: bv32, i: nat, base: bv32, offset: bv32, j: nat)
    requires |registers| == 16 && i <= 8 && j < 16 && (j < i || j >= 8 || !Bit(list, j))
    ensures LoadLow(registers, mem, list, i, base, offset).registers[j] == registers[j]
    decreases 8 - i
  {
    if i < 8 {
      if Bit(list, i) {
        LoadLowKeeps(registers[i := Read32(mem, Plus(base, offset))], mem, list, i + 1, base, NextWord(offset), j);
      } else {
        LoadLowKeeps(registers, mem, list, i + 1, base, offset, j);
      }
    }
  }

  /** Listed register j is loaded from the slot of its rank. */
  lemma {:induction false} LoadLowListed(registers: seq<bv32>, mem: Mem, list: bv32, i: nat, base: bv32, j: nat)
    requires |registers| == 16 && i <= j < 8 && Bit(list, j)
    ensures LoadLow(registers, mem, list, i, base, Words(Rank(list, i))).registers[j] == Read32(mem, Plus(base, Words(Rank(list, j))))
    decreases 8 - i
  {
    var offset := Words(Rank(list, i));
    assert Words(Rank(list, i + 1)) == if Bit(list, i) then NextWord(offset) else offset;
    if i == j {
      var next := registers[i := Read32(mem, Plus(base, offset))];
      LoadLowKeeps(next, mem, list, i + 1, base, NextWord(offset), j);
    } else if Bit(list, i) {
      LoadLowListed(registers[i := Read32(mem, Plus(base, offset))], mem, list, i + 1, base, j);
    } else {
      LoadLowListed(registers, mem, list, i + 1, base, j);
    }
  }

  /** One listed step of the store loop, entered at the slot of its rank. */
  lemma StoreLowStepListed(mem: Mem, values: seq<bv32>, list: bv32, i: nat, base: bv32)
    requires |values| == 16 && i < 8 && Bit(list, i)
    ensures StoreLow(mem, values, list, i, base, Words(Rank(list, i)))
      == StoreLow(WithWord(mem, Plus(base, Words(Rank(list, i))), values[i]), values, list, i + 1, base, Words(Rank(list, i + 1)))
  {
    assert Words(Rank(list, i + 1)) == NextWord(Words(Rank(list, i)));
  }

  /** One unlisted step of the store loop, which writes nothing. */
  lemma StoreLowStepSkipped(mem: Mem, values: seq<bv32>, list: bv32, i: nat, base: bv32)
    requires |values| == 16 && i < 8 && !Bit(list, i)
    ensures StoreLow(mem, values, list, i, base, Words(Rank(list, i)))
      == StoreLow(mem, values, list, i + 1, base, Words(Rank(list, i + 1)))
  {
  }

  /** A store in the slot of rank r leaves the word of every lower rank alone. */
  lemma StoreMissesBelow(mem: Mem, base: bv32, r: nat, q: nat, value: bv32)
    requires q < r <= 16
    ensures Read32(WithWord(mem, Plus(base, Words(r)), value), Plus(base, Words(q))) == Read32(mem, Plus(base, Words(q)))
  {
    WordsApart(base, q, r - q);
    Read32WithWordElsewhere(mem, Plus(base, Words(r)), Plus(base, Words(q)), value);
  }

  /** A word below the slots the loop still writes keeps its value. */
  lemma {:induction false} StoreLowBelow(mem: Mem, values: seq<bv32>, list: bv32, i: nat, base: bv32, q: nat)
    requires |values| == 16 && i <= 8 && q < Rank(list, i)
    ensures Read32(StoreLow(mem, values, list, i, base, Words(Rank(list, i))).memory, Plus(base, Words(q))) == Read32(mem, Plus(base, Words(q)))
    decreases 8 - i
  {
    if i < 8 {
      if Bit(list, i) {
        var next := WithWord(mem, Plus(base, Words(Rank(list, i))), values[i]);
        StoreLowStepListed(mem, values, list, i, base);
        StoreLowBelow(next, values, list, i + 1, base, q);
        StoreMissesBelow(mem, base, Rank(list, i), q, values[i]);
      } else {
        StoreLowStepSkipped(mem, values, list, i, base);
        StoreLowBelow(mem, values, list, i + 1, base, q);
      }
    }
  }

  /** Listed register j's value is in the slot of its rank once the loop is done. */
  lemma {:induction false} StoreLowListed(mem: Mem, values: seq<bv32>, list: bv32, i: nat, base: bv32, j: nat)
    requires |values| == 16 && i <= j < 8 && Bit(list, j)
    ensures Read32(StoreLow(mem, values, list, i, base, Words(Rank(list, i))).memory, Plus(base, Words(Rank(list, j)))) == values[j]
    decreases 8 - i
  {
    if i == j {
      var next := WithWord(mem, Plus(base, Words(Rank(list, i))), values[i]);
      StoreLowStepListed(mem, values, list, i, base);
      StoreLowBelow(next, values, list, i + 1, base, Rank(list, j));
      Read32WithWord(mem, Plus(base, Words(Rank(list, i))), values[i]);
    } else if Bit(list, i) {
      StoreLowStepListed(mem, values, list, i, base);
      StoreLowListed(WithWord(mem, Plus(base, Words(Rank(list, i))), values[i]), values, list, i + 1, base, j);
    } else {
      StoreLowStepSkipped(mem, values, list, i, base);
      StoreLowListed(mem, values, list, i + 1, base, j);
    }
  }
}
