/**
 * The game pak ROM (memory/rom/Cartridge.kt). Loading checks the header
 * checksum; afterwards the cartridge never changes (its writes are
 * ignored), so it is a value. Reads inside the ROM return its little-endian
 * contents and reads past its end return the open-bus pattern the hardware
 * shows there: the halfword address, `addr >>> 1`.
 */
module Cartridges {
  import opened Wrappers
  import opened LittleEndian

  /** The offset of the header's complement check byte. */
  const ChecksumOffset: nat := 0xBD

  /** `(-0x19).toByte()` read as an unsigned byte. */
  const ChecksumSeed: int := 0xE7

  /** `fold { acc, i -> (acc - i).toByte() }`, with bytes read as unsigned. */
  function FoldChecksum(acc: int, s: seq<bv8>): (r: int)
    decreases |s|
  {
    if |s| == 0 then acc % 256 else FoldChecksum((acc - s[0] as int) % 256, s[1..])
  }

  /** The sum of the bytes of `s`, read as unsigned. */
  function Sum(s: seq<bv8>): (r: int)
    decreases |s|
  {
    if |s| == 0 then 0 else s[0] as int + Sum(s[1..])
  }

  /** The fold is the closed form of the header check: the seed minus the byte sum, modulo 256. */
  lemma {:induction false} FoldChecksumIsDifference(acc: int, s: seq<bv8>)
    ensures FoldChecksum(acc, s) == (acc - Sum(s)) % 256
    ensures 0 <= FoldChecksum(acc, s) < 256
    decreases |s|
  {
    if |s| > 0 {
      FoldChecksumIsDifference((acc - s[0] as int) % 256, s[1..]);
      ModSubtract(acc - s[0] as int, Sum(s[1..]));
    }
  }

  lemma ModSubtract(x: int, y: int)
    ensures (x % 256 - y) % 256 == (x - y) % 256
  {
    var q := x / 256;
    assert x == 256 * q + x % 256;
    assert x - y == 256 * q + (x % 256 - y);
  }

  /** `calculateHeaderChecksum`: the fold over header bytes 0xA0-0xBC. */
  function HeaderChecksum(rom: seq<bv8>): (c: int)
    requires |rom| > 0xBC
    ensures 0 <= c < 256
  {
    FoldChecksumIsDifference(ChecksumSeed, rom[0xA0..0xBD]);
    FoldChecksum(ChecksumSeed, rom[0xA0..0xBD])
  }

  /** A loaded cartridge: the ROM bytes and the raw twelve title bytes. */
  datatype Cartridge = Cartridge(rom: seq<bv8>, title: seq<bv8>)

  /**
   * The constructor: a ROM too short to hold the header fails on the
   * out-of-range index, one whose check byte disagrees is rejected, and
   * any other loads with title bytes 0xA0-0xAB.
   */
  function Load(rom: seq<bv8>): (r: Result<Cartridge>)
    ensures |rom| <= ChecksumOffset ==> r.Err?
    ensures r.Ok? ==> r.value.rom == rom && r.value.title == rom[0xA0..0xAC]
  {
    if |rom| <= ChecksumOffset then Err("index out of bounds")
    else if HeaderChecksum(rom) != rom[ChecksumOffset] as int then Err("Invalid rom file")
    else Ok(Cartridge(rom, rom[0xA0..0xAC]))
  }

  /** A ROM loads exactly when it holds the header and byte 0xBD is (0xE7 - sum of bytes 0xA0-0xBC) mod 256. */
  lemma LoadAccepts(rom: seq<bv8>)
    ensures Load(rom).Ok? <==>
      |rom| > ChecksumOffset && rom[ChecksumOffset] as int == (ChecksumSeed - Sum(rom[0xA0..0xBD])) % 256
    ensures Load(rom).Ok? ==> (Load(rom).value.rom == rom && |Load(rom).value.title| == 12 &&
      forall i :: 0 <= i < 12 ==> Load(rom).value.title[i] == rom[0xA0 + i])
  {
    if |rom| > ChecksumOffset {
      FoldChecksumIsDifference(ChecksumSeed, rom[0xA0..0xBD]);
    }
  }

  /** Writing the computed check byte into any ROM that holds a header makes it load, whatever the byte was before. */
  lemma PatchedChecksumLoads(rom: seq<bv8>, b: bv8)
    requires |rom| > ChecksumOffset && b as int == HeaderChecksum(rom)
    ensures Load(rom[ChecksumOffset := b]).Ok?
  {
    var patched := rom[ChecksumOffset := b];
    assert patched[0xA0..0xBD] == rom[0xA0..0xBD];
    assert patched[ChecksumOffset] == b;
  }

  /** `address and 0x1FFFFFF`: the offset in the 32 MiB ROM window, as an index. */
  function RomOffset(address: bv32): (addr: nat)
    ensures addr < 0x200_0000
  {
    address as int % 0x200_0000
  }

  /** The same offset as a bit pattern, for the open-bus values built from it. */
  function Masked(address: bv32): (a: bv32)
  {
    address & 0x1FF_FFFF
  }

  /** The open-bus byte: the low byte of the halfword address `addr ushr 1`. */
  function OpenBus8(address: bv32): (b: bv8)
  {
    ((Masked(address) >> 1) & 0xFF) as bv8
  }

  /** The open-bus halfword: the halfword address `addr ushr 1`. */
  function OpenBus16(address: bv32): (h: bv16)
  {
    ((Masked(address) >> 1) & 0xFFFF) as bv16
  }

  /** The open-bus word: two consecutive halfword addresses, the even one low. */
  function OpenBus32(address: bv32): (w: bv32)
  {
    var low := (Masked(address) >> 1) & !1 & 0xFFFF;
    low | ((low + 1) << 16)
  }

  /** `read8`: the byte, or past the end the open-bus byte. */
  function Read8(c: Cartridge, address: bv32): (b: bv8)
    ensures RomOffset(address) < |c.rom| ==> b == c.rom[RomOffset(address)]
  {
    if RomOffset(address) >= |c.rom| then OpenBus8(address) else c.rom[RomOffset(address)]
  }

  /** `read16` as written: the open-bus test is `addr >= size - 2`. */
  function Read16AsWritten(c: Cartridge, address: bv32): (h: bv16)
    ensures RomOffset(address) / 2 * 2 + 2 > |c.rom| ==> h == OpenBus16(address)
  {
    var addr := RomOffset(address);
    if addr >= |c.rom| - 2 then OpenBus16(address) else HalfAt(c.rom, addr / 2)
  }

  /** `read32` as written: the open-bus test is `addr >= size - 4`. */
  function Read32AsWritten(c: Cartridge, address: bv32): (w: bv32)
    ensures RomOffset(address) / 4 * 4 + 4 > |c.rom| ==> w == OpenBus32(address)
  {
    var addr := RomOffset(address);
    if addr >= |c.rom| - 4 then OpenBus32(address) else WordAt(c.rom, addr / 4)
  }

  /** A 0xC0-byte ROM of 0xFF bytes: its last halfword, at 0xBE, lies wholly inside it. */
  function FilledRom(): (c: Cartridge)
    ensures |c.rom| == 0xC0
  {
    Cartridge(seq(0xC0, _ => 0xFF), [])
  }

  /** As written, the last halfword and the last word of a ROM read as open bus instead of the ROM's bytes. */
  lemma LastHalfwordCounterexample()
    ensures RomOffset(0xBE) + 2 <= |FilledRom().rom| && Read16AsWritten(FilledRom(), 0xBE) == 0x5F
    ensures HalfAt(FilledRom().rom, RomOffset(0xBE) / 2) == 0xFFFF
    ensures RomOffset(0xBC) + 4 <= |FilledRom().rom| && Read32AsWritten(FilledRom(), 0xBC) == 0x005F_005E
    ensures WordAt(FilledRom().rom, RomOffset(0xBC) / 4) == 0xFFFF_FFFF
  {
    var rom := FilledRom().rom;
    assert rom[0xBC] == 0xFF && rom[0xBD] == 0xFF && rom[0xBE] == 0xFF && rom[0xBF] == 0xFF;
    assert RomOffset(0xBE) == 0xBE && RomOffset(0xBC) == 0xBC;
  }

  /** `read16` with the test the short view needs: the halfword index is past the view's end. */
  function Read16(c: Cartridge, address: bv32): (h: bv16)
    ensures RomOffset(address) / 2 * 2 + 2 > |c.rom| ==> h == OpenBus16(address)
  {
    var addr := RomOffset(address);
    if addr / 2 >= |c.rom| / 2 then OpenBus16(address) else HalfAt(c.rom, addr / 2)
  }

  /** `read32` with the test the int view needs: the word index is past the view's end. */
  function Read32(c: Cartridge, address: bv32): (w: bv32)
    ensures RomOffset(address) / 4 * 4 + 4 > |c.rom| ==> w == OpenBus32(address)
  {
    var addr := RomOffset(address);
    if addr / 4 >= |c.rom| / 4 then OpenBus32(address) else WordAt(c.rom, addr / 4)
  }

  /** A byte inside the ROM reads as the ROM's byte, and one past its end as open bus. */
  lemma ByteReadsInsideRom(c: Cartridge, address: bv32)
    ensures var addr := RomOffset(address);
      (addr < |c.rom| ==> Read8(c, address) == c.rom[addr]) &&
      (addr >= |c.rom| ==> Read8(c, address) == OpenBus8(address))
  {
  }

  /**
   * A halfword that lies wholly inside the ROM reads as the ROM's two bytes
   * at the aligned offset, low byte first, and one that does not as open bus.
   */
  lemma HalfwordReadsInsideRom(c: Cartridge, address: bv32)
    ensures var addr := RomOffset(address); var a2 := addr / 2 * 2;
      (a2 + 2 <= |c.rom| ==> Read16(c, address) == (c.rom[a2] as bv16) | ((c.rom[a2 + 1] as bv16) << 8)) &&
      (a2 + 2 > |c.rom| ==> Read16(c, address) == OpenBus16(address))
  {
  }

  /** A word that lies wholly inside the ROM reads as the ROM's word at the aligned offset, and one that does not as open bus. */
  lemma WordReadsInsideRom(c: Cartridge, address: bv32)
    ensures var addr := RomOffset(address); var a4 := addr / 4 * 4;
      (a4 + 4 <= |c.rom| ==> Read32(c, address) == WordAt(c.rom, a4 / 4)) &&
      (a4 + 4 > |c.rom| ==> Read32(c, address) == OpenBus32(address))
  {
  }

  /** On a ROM of whole words the corrected reads agree with the source everywhere except the last halfword and the last word. */
  lemma CorrectedReadsAgreeElsewhere(c: Cartridge, address: bv32)
    requires |c.rom| % 4 == 0
    ensures RomOffset(address) / 2 != |c.rom| / 2 - 1 ==> Read16(c, address) == Read16AsWritten(c, address)
    ensures RomOffset(address) / 4 != |c.rom| / 4 - 1 ==> Read32(c, address) == Read32AsWritten(c, address)
  {
  }
}
