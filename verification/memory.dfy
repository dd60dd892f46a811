/**
 * The CPU's view of the bus: a flat byte-addressed memory. Addresses that
 * were never written read as zero. Halfword and word accesses are
 * little-endian and use the address aligned down to 2 or 4, which is what
 * the handlers' rotate-by-`address & 3` logic expects of the bus.
 */
module Memory {

  /** A byte address, wrapped so that it can key a map. */
  datatype Cell = At(address: bv32)

  /** Each stored value is a byte kept in the low 8 bits of a word. */
  type Mem = map<Cell, bv32>

  function Read8(m: Mem, address: bv32): (b: bv32)
    ensures b < 0x100
  {
    if At(address) in m then m[At(address)] & 0xFF else 0
  }

  function Read16(m: Mem, address: bv32): (h: bv32)
    ensures h < 0x1_0000
  {
    ReadHalfAt(m, address & !1)
  }

  /** The little-endian halfword whose low byte is at `a`. */
  function ReadHalfAt(m: Mem, a: bv32): (h: bv32)
    ensures h < 0x1_0000
  {
    AssembleHalf(Read8(m, a), Read8(m, a + 1))
  }

  /** Two bytes as a little-endian halfword. */
  function AssembleHalf(b0: bv32, b1: bv32): (h: bv32)
    requires b0 < 0x100 && b1 < 0x100
    ensures h < 0x1_0000
  {
    b0 | (b1 << 8)
  }

  function Read32(m: Mem, address: bv32): bv32
  {
    ReadWordAt(m, address & !3)
  }

  /** The little-endian word whose lowest byte is at `a`. */
  function ReadWordAt(m: Mem, a: bv32): bv32
  {
    Assemble(Read8(m, a), Read8(m, a + 1), Read8(m, a + 2), Read8(m, a + 3))
  }

  /** Four bytes as a little-endian word. */
  function Assemble(b0: bv32, b1: bv32, b2: bv32, b3: bv32): bv32
  {
    b0 | (b1 << 8) | (b2 << 16) | (b3 << 24)
  }

  function WithByte(m: Mem, address: bv32, value: bv32): Mem
  {
    m[At(address) := value & 0xFF]
  }

  /** The low byte of `value` at the halfword-aligned address, the next byte above it. */
  function WithHalf(m: Mem, address: bv32, value: bv32): Mem
  {
    WithHalfAt(m, address & !1, value)
  }

  function WithHalfAt(m: Mem, a: bv32, value: bv32): Mem
  {
    WithByte(WithByte(m, a, value), a + 1, value >> 8)
  }

  /** The four bytes of `value`, lowest first, from the word-aligned address up. */
  function WithWord(m: Mem, address: bv32, value: bv32): Mem
  {
    WithWordAt(m, address & !3, value)
  }

  /** The four bytes of `value`, lowest first, from `a` up. */
  function WithWordAt(m: Mem, a: bv32, value: bv32): Mem
  {
    WithByte(WithByte(WithByte(WithByte(m, a, value), a + 1, value >> 8), a + 2, value >> 16), a + 3, value >> 24)
  }

  /** A byte written is read back, and no other byte changes. */
  lemma Read8WithByte(m: Mem, address: bv32, other: bv32, value: bv32)
    ensures Read8(WithByte(m, address, value), address) == value & 0xFF
    ensures other != address ==> Read8(WithByte(m, address, value), other) == Read8(m, other)
  {
    MaskByteTwice(value);
  }

  lemma MaskByteTwice(value: bv32)
    ensures (value & 0xFF) & 0xFF == value & 0xFF
  {
  }

  /** The four bytes of a word, lowest first. */
  function Lane0(v: bv32): bv32 { v & 0xFF }
  function Lane1(v: bv32): bv32 { (v >> 8) & 0xFF }
  function Lane2(v: bv32): bv32 { (v >> 16) & 0xFF }
  function Lane3(v: bv32): bv32 { (v >> 24) & 0xFF }

  /** A word written is read back whole. */
  lemma Read32WithWord(m: Mem, address: bv32, value: bv32)
    ensures Read32(WithWord(m, address, value), address) == value
  {
    var a := address & !3;
    var w := WithWordAt(m, a, value);
    WordLane0(m, a, value);
    WordLane1(m, a, value);
    WordLane2(m, a, value);
    WordLane3(m, a, value);
    assert ReadWordAt(w, a) == Assemble(Read8(w, a), Read8(w, a + 1), Read8(w, a + 2), Read8(w, a + 3));
    Reassemble(value);
  }

  lemma WordLane0(m: Mem, a: bv32, value: bv32)
    ensures Read8(WithWordAt(m, a, value), a) == Lane0(value)
  {
    var w1 := WithByte(m, a, value);
    var w2 := WithByte(w1, a + 1, value >> 8);
    var w3 := WithByte(w2, a + 2, value >> 16);
    OffsetsDistinct(a);
    Read8Past(w3, a + 3, a, value >> 24);
    Read8Past(w2, a + 2, a, value >> 16);
    Read8Past(w1, a + 1, a, value >> 8);
    Read8WithByte(m, a, a, value);
  }

  lemma WordLane1(m: Mem, a: bv32, value: bv32)
    ensures Read8(WithWordAt(m, a, value), a + 1) == Lane1(value)
  {
    var w1 := WithByte(m, a, value);
    var w2 := WithByte(w1, a + 1, value >> 8);
    var w3 := WithByte(w2, a + 2, value >> 16);
    OffsetsDistinct(a);
    Read8Past(w3, a + 3, a + 1, value >> 24);
    Read8Past(w2, a + 2, a + 1, value >> 16);
    Read8WithByte(w1, a + 1, a + 1, value >> 8);
  }

  lemma WordLane2(m: Mem, a: bv32, value: bv32)
    ensures Read8(WithWordAt(m, a, value), a + 2) == Lane2(value)
  {
    var w1 := WithByte(m, a, value);
    var w2 := WithByte(w1, a + 1, value >> 8);
    var w3 := WithByte(w2, a + 2, value >> 16);
    OffsetsDistinct(a);
    Read8Past(w3, a + 3, a + 2, value >> 24);
    Read8WithByte(w2, a + 2, a + 2, value >> 16);
  }

  lemma WordLane3(m: Mem, a: bv32, value: bv32)
    ensures Read8(WithWordAt(m, a, value), a + 3) == Lane3(value)
  {
    var w1 := WithByte(m, a, value);
    var w2 := WithByte(w1, a + 1, value >> 8);
    var w3 := WithByte(w2, a + 2, value >> 16);
    Read8WithByte(w3, a + 3, a + 3, value >> 24);
  }

  lemma Read8Past(m: Mem, address: bv32, other: bv32, value: bv32)
    requires other != address
    ensures Read8(WithByte(m, address, value), other) == Read8(m, other)
  {
  }

  /** A halfword written is read back as its low 16 bits. */
  lemma Read16WithHalf(m: Mem, address: bv32, value: bv32)
    ensures Read16(WithHalf(m, address, value), address) == value & 0xFFFF
  {
    var a := address & !1;
    var w := WithHalfAt(m, a, value);
    HalfLane0(m, a, value);
    HalfLane1(m, a, value);
    assert ReadHalfAt(w, a) == AssembleHalf(Read8(w, a), Read8(w, a + 1));
    HalfReassemble(value);
  }

  lemma HalfLane0(m: Mem, a: bv32, value: bv32)
    ensures Read8(WithHalfAt(m, a, value), a) == Lane0(value)
  {
    var w1 := WithByte(m, a, value);
    OffsetsDistinct(a);
    Read8Past(w1, a + 1, a, value >> 8);
    Read8WithByte(m, a, a, value);
  }

  lemma HalfLane1(m: Mem, a: bv32, value: bv32)
    ensures Read8(WithHalfAt(m, a, value), a + 1) == Lane1(value)
  {
    Read8WithByte(WithByte(m, a, value), a + 1, a + 1, value >> 8);
  }

  lemma HalfReassemble(v: bv32)
    ensures AssembleHalf(Lane0(v), Lane1(v)) == v & 0xFFFF
  {
  }

  /** A word written leaves every word at another aligned address as it was. */
  lemma Read32WithWordElsewhere(m: Mem, address: bv32, other: bv32, value: bv32)
    requires address & !3 != other & !3
    ensures Read32(WithWord(m, address, value), other) == Read32(m, other)
  {
    var a := address & !3;
    var b := other & !3;
    AlignedDown(address);
    AlignedDown(other);
    WordFrame(m, a, b, value);
  }

  lemma AlignedDown(x: bv32)
    ensures (x & !3) & 3 == 0
  {
  }

  lemma WordFrame(m: Mem, a: bv32, b: bv32, value: bv32)
    requires a & 3 == 0 && b & 3 == 0 && a != b
    ensures ReadWordAt(WithWordAt(m, a, value), b) == ReadWordAt(m, b)
  {
    var w1 := WithByte(m, a, value);
    var w2 := WithByte(w1, a + 1, value >> 8);
    var w3 := WithByte(w2, a + 2, value >> 16);
    Apart(a, b);
    WordPastByte(m, a, b, value);
    WordPastByte(w1, a + 1, b, value >> 8);
    WordPastByte(w2, a + 2, b, value >> 16);
    WordPastByte(w3, a + 3, b, value >> 24);
  }

  /** No byte of one aligned word is a byte of another. */
  lemma Apart(a: bv32, b: bv32)
    requires a & 3 == 0 && b & 3 == 0 && a != b
    ensures Outside(a, b) && Outside(a + 1, b) && Outside(a + 2, b) && Outside(a + 3, b)
  {
  }

  /** Byte address `c` is not one of the four from `b` up. */
  predicate Outside(c: bv32, b: bv32)
  {
    c != b && c != b + 1 && c != b + 2 && c != b + 3
  }

  /** A byte written outside a word leaves the word as it was. */
  lemma WordPastByte(m: Mem, c: bv32, b: bv32, value: bv32)
    requires Outside(c, b)
    ensures ReadWordAt(WithByte(m, c, value), b) == ReadWordAt(m, b)
  {
    var w := WithByte(m, c, value);
    Read8Past(m, c, b, value);
    Read8Past(m, c, b + 1, value);
    Read8Past(m, c, b + 2, value);
    Read8Past(m, c, b + 3, value);
    SameBytesSameWord(w, m, b);
  }

  lemma SameBytesSameWord(w: Mem, m: Mem, b: bv32)
    requires Read8(w, b) == Read8(m, b) && Read8(w, b + 1) == Read8(m, b + 1)
    requires Read8(w, b + 2) == Read8(m, b + 2) && Read8(w, b + 3) == Read8(m, b + 3)
    ensures ReadWordAt(w, b) == ReadWordAt(m, b)
  {
  }

  lemma OffsetsDistinct(a: bv32)
    ensures a != a + 1 && a != a + 2 && a != a + 3 && a + 1 != a + 2 && a + 1 != a + 3 && a + 2 != a + 3
  {
  }

  lemma Reassemble(v: bv32)
    ensures Assemble(Lane0(v), Lane1(v), Lane2(v), Lane3(v)) == v
  {
  }

  /** The bus object the CPU reads instructions and data through. */
  class Bus {
    var memory: Mem

    constructor (initial: Mem)
      ensures memory == initial
    {
      memory := initial;
    }

    method Write8(address: bv32, value: bv32)
      modifies this
      ensures memory == WithByte(old(memory), address, value)
    {
      memory := WithByte(memory, address, value);
    }

    method Write16(address: bv32, value: bv32)
      modifies this
      ensures memory == WithHalf(old(memory), address, value)
    {
      memory := WithHalf(memory, address, value);
    }

    method Write32(address: bv32, value: bv32)
      modifies this
      ensures memory == WithWord(old(memory), address, value)
    {
      memory := WithWord(memory, address, value);
    }
  }
}
