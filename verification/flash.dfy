/**
 * Flash backup memory (memory/rom/Flash.kt). The chip is driven by byte
 * writes: the unlock sequence 0xAA to 0x5555 and 0x55 to 0x2AAA, followed by
 * a command byte written to 0x5555, enters identification mode (0x90),
 * leaves it (0xF0), arms a byte program (0xA0), an erase (0x80) or, on 128
 * KiB chips, a bank switch (0xB0). An armed erase then takes either a chip
 * erase (0x10 through the command sequence) or a sector erase (0x30 written
 * to a 4 KiB boundary after the unlock sequence).
 *
 * The control state is a value (`Control`) and each write's effect on the
 * storage is an `Effect`; the class applies both, and the lemmas state the
 * command protocol on the values.
 */
module FlashMemory {
  import opened Extensions

  const KiB: nat := 1024

  /** `SRAM_MASK`, which the wide accesses use as their address mask. */
  const SramMask: nat := 0x7FFF

  /** `FlashType`: the chip models the source knows. */
  datatype FlashType = Sst | Macronix64 | Panasonic | Atmel | Sanyo | Macronix128

  /** The chip's identification code: manufacturer in the low byte, device in the high byte. */
  function Id(t: FlashType): (id: bv32)
    ensures id < 0x1_0000
  {
    match t
    case Sst => 0xD4BF
    case Macronix64 => 0x1CC2
    case Panasonic => 0x1B32
    case Atmel => 0x3D1F
    case Sanyo => 0x1362
    case Macronix128 => 0x09C2
  }

  /** The storage size: 64 KiB, or 128 KiB for Sanyo and Macronix128. */
  function Size(t: FlashType): (n: nat)
    ensures n == 64 * KiB || n == 128 * KiB
  {
    match t
    case Sanyo => 128 * KiB
    case Macronix128 => 128 * KiB
    case _ => 64 * KiB
  }

  /** `isBanked`: the 128 KiB chips, which hold two 64 KiB banks. */
  predicate IsBanked(t: FlashType)
  {
    Size(t) == 128 * KiB
  }

  datatype CommandState = None | First | Second

  datatype FlashState = Ready | Write | Erase | ChangeBank

  /** The chip's control registers. */
  datatype Control = Control(isIdentification: bool, state: FlashState, commandState: CommandState, offset: nat)

  /** The bank offset is 0, or 0x10000 on a banked chip; only a banked chip arms a bank switch. */
  predicate ValidControl(c: Control, t: FlashType)
  {
    (c.offset == 0 || (IsBanked(t) && c.offset == 0x1_0000)) && (c.state == ChangeBank ==> IsBanked(t))
  }

  /** What a write does to the storage: nothing, one byte, or a range filled with 0xFF. */
  datatype Effect = NoEffect | Store(index: nat, value: bv8) | EraseRange(lo: nat, hi: nat)

  datatype Outcome = Outcome(control: Control, effect: Effect)

  /** The effect stays inside storage of `size` bytes. */
  predicate Fits(e: Effect, size: nat)
  {
    match e
    case NoEffect => true
    case Store(i, _) => i < size
    case EraseRange(lo, hi) => lo <= hi <= size
  }

  /** `erase(start, end)`: the bytes in `lo..hi` become 0xFF and the rest are kept. */
  function Erased(s: seq<bv8>, lo: nat, hi: nat): (r: seq<bv8>)
    requires lo <= hi <= |s|
    ensures |r| == |s|
    ensures forall i :: 0 <= i < |s| ==> r[i] == if lo <= i < hi then 0xFF else s[i]
  {
    s[..lo] + seq(hi - lo, _ => 0xFF) + s[hi..]
  }

  /** The storage after an effect. */
  function Applied(s: seq<bv8>, e: Effect): (r: seq<bv8>)
    requires Fits(e, |s|)
    ensures |r| == |s|
  {
    match e
    case NoEffect => s
    case Store(i, v) => s[i := v]
    case EraseRange(lo, hi) => Erased(s, lo, hi)
  }

  /** `address and 0xFFFF`. */
  function Addr(address: bv32): (addr: nat)
    ensures addr < 0x1_0000
  {
    address as int % 0x1_0000
  }

  /** `dispatchCommand`: the command byte after a complete unlock sequence. */
  function Dispatch(c: Control, t: FlashType, command: nat): (r: Outcome)
    ensures r.control.commandState == c.commandState && r.control.offset == c.offset
    ensures r.control.isIdentification == if command == 0x90 then true else if command == 0xF0 then false else c.isIdentification
    ensures r.effect != NoEffect <==> command == 0x10 && c.state == Erase
  {
    if command == 0x90 then Outcome(c.(isIdentification := true, state := Ready), NoEffect)
    else if command == 0xF0 then Outcome(c.(isIdentification := false, state := Ready), NoEffect)
    else if command == 0x80 then Outcome(c.(state := Erase), NoEffect)
    else if command == 0xA0 then Outcome(c.(state := Write), NoEffect)
    else if command == 0x10 && c.state == Erase then Outcome(c.(state := Ready), EraseRange(0, Size(t)))
    else if command == 0xB0 && IsBanked(t) then Outcome(c.(state := ChangeBank), NoEffect)
    else Outcome(c.(state := Ready), NoEffect)
  }

  /** `0x10000 * value` for a bank number 0 or 1. */
  function BankOffset(value: bv8): (offset: nat)
    requires value < 2
    ensures offset == 0x1_0000 * value as nat
  {
    if value == 1 then 0x1_0000 else 0
  }

  /** The sector erase branch of `write8`: erase armed, unlock sequence seen, 4 KiB boundary, 0x30. */
  predicate SectorErase(c: Control, addr: nat, value: bv8)
  {
    c.state == Erase && c.commandState == Second && addr % 0x1000 == 0 && value == 0x30
  }

  /** `write8` as written: the sector erase branch leaves `commandState` at `Second`. */
  function WrittenAsWritten(c: Control, t: FlashType, addr: nat, value: bv8): (r: Outcome)
    ensures r.effect.Store? <==> c.state == Write
    ensures r.control.isIdentification != c.isIdentification ==> addr == 0x5555 && c.commandState == Second
    ensures SectorErase(c, addr, value) ==> r.control.commandState == Second
  {
    if c.state == Write then Outcome(c.(state := Ready), Store(addr + c.offset, value))
    else if c.state == ChangeBank && addr == 0 && value < 2 then
      Outcome(c.(state := Ready, offset := BankOffset(value)), NoEffect)
    else if SectorErase(c, addr, value) then
      Outcome(c.(state := Ready), EraseRange(addr + c.offset, addr + 0x1000 + c.offset))
    else if addr == 0x5555 && value == 0xAA && c.commandState == None then Outcome(c.(commandState := First), NoEffect)
    else if addr == 0x2AAA && value == 0x55 && c.commandState == First then Outcome(c.(commandState := Second), NoEffect)
    else if addr == 0x5555 && c.commandState == Second then Dispatch(c.(commandState := None), t, value as nat)
    else Outcome(c, NoEffect)
  }

  /** `write8` with the command sequence completed by a sector erase, like every other command. */
  function Written(c: Control, t: FlashType, addr: nat, value: bv8): (r: Outcome)
    ensures r.effect == WrittenAsWritten(c, t, addr, value).effect
    ensures SectorErase(c, addr, value) ==> r.control.commandState == None
    ensures !SectorErase(c, addr, value) ==> r == WrittenAsWritten(c, t, addr, value)
  {
    var o := WrittenAsWritten(c, t, addr, value);
    if SectorErase(c, addr, value) then o.(control := o.control.(commandState := None)) else o
  }

  /** A write keeps the bank offset valid and its effect inside the chip. */
  lemma WrittenStaysInside(c: Control, t: FlashType, addr: nat, value: bv8)
    requires ValidControl(c, t) && addr < 0x1_0000
    ensures ValidControl(Written(c, t, addr, value).control, t)
    ensures Fits(Written(c, t, addr, value).effect, Size(t))
  {
    if c.state == Write || (c.state == ChangeBank && addr == 0 && value < 2) || SectorErase(c, addr, value) {
    } else if addr == 0x5555 && c.commandState == Second && !(value == 0xAA && c.commandState == None) {
      DispatchStaysInside(c.(commandState := None), t, value as nat);
    }
  }

  /** A command keeps the control valid and erases only inside the chip. */
  lemma DispatchStaysInside(c: Control, t: FlashType, command: nat)
    requires ValidControl(c, t)
    ensures ValidControl(Dispatch(c, t, command).control, t)
    ensures Fits(Dispatch(c, t, command).effect, Size(t))
  {
  }

  /* The command protocol. */

  /** The two unlock writes. */
  function Unlocked(c: Control, t: FlashType): (r: Control)
  {
    Written(Written(c, t, 0x5555, 0xAA).control, t, 0x2AAA, 0x55).control
  }

  /**
   * From any state but an armed byte program, with no sequence in progress,
   * the unlock writes change nothing but the sequence state, and the command
   * byte written to 0x5555 is dispatched.
   */
  lemma CommandSequence(c: Control, t: FlashType, command: bv8)
    requires c.state != Write && c.commandState == None
    ensures Written(c, t, 0x5555, 0xAA) == Outcome(c.(commandState := First), NoEffect)
    ensures Unlocked(c, t) == c.(commandState := Second)
    ensures Written(Unlocked(c, t), t, 0x5555, command) == Dispatch(c, t, command as nat)
  {
  }

  /** 0x90 enters identification mode and 0xF0 leaves it; either way the chip is ready. */
  lemma IdentificationCommands(c: Control, t: FlashType)
    ensures Dispatch(c, t, 0x90).control == c.(isIdentification := true, state := Ready)
    ensures Dispatch(c, t, 0xF0).control == c.(isIdentification := false, state := Ready)
    ensures Dispatch(c, t, 0x90).effect == NoEffect && Dispatch(c, t, 0xF0).effect == NoEffect
  {
  }

  /** After 0xA0 the next write stores its byte at the address in the current bank and the chip is ready again. */
  lemma ProgramCommand(c: Control, t: FlashType, addr: nat, value: bv8)
    ensures Dispatch(c, t, 0xA0).control.state == Write
    ensures var armed := Dispatch(c, t, 0xA0).control;
      Written(armed, t, addr, value) == Outcome(armed.(state := Ready), Store(addr + c.offset, value))
  {
  }

  /** A sector erase fills the 4 KiB at the boundary (in the current bank) with 0xFF and ends the sequence. */
  lemma SectorEraseCommand(c: Control, t: FlashType, sector: nat)
    requires c.state == Erase && c.commandState == Second && sector % 0x1000 == 0
    ensures Written(c, t, sector, 0x30) ==
      Outcome(c.(state := Ready, commandState := None), EraseRange(sector + c.offset, sector + c.offset + 0x1000))
  {
  }

  /** 0x10 with an erase armed erases the whole chip, both banks, whatever the current bank. */
  lemma ChipEraseCommand(c: Control, t: FlashType)
    requires c.state == Erase
    ensures Dispatch(c, t, 0x10) == Outcome(c.(state := Ready), EraseRange(0, Size(t)))
  {
  }

  /** 0xB0 arms a bank switch only on a banked chip; the switch takes 0 or 1 written to address 0. */
  lemma BankCommand(c: Control, t: FlashType, value: bv8)
    ensures Dispatch(c, t, 0xB0).control.state == ChangeBank <==> IsBanked(t)
    ensures var armed := c.(state := ChangeBank, commandState := None);
      value < 2 ==> Written(armed, t, 0, value) == Outcome(armed.(state := Ready, offset := BankOffset(value)), NoEffect)
  {
  }

  /** The byte the chip shows at identification addresses 0 and 1. */
  function IdByte(t: FlashType, addr: nat): (b: bv8)
    requires addr <= 1
  {
    if addr == 0 then (Id(t) & 0xFF) as bv8 else ((Id(t) >> 8) & 0xFF) as bv8
  }

  /** `read8`: in identification mode addresses 0 and 1 show the id, otherwise the byte in the current bank. */
  function ReadByte(c: Control, t: FlashType, s: seq<bv8>, address: bv32): (b: bv8)
    requires ValidControl(c, t) && |s| == Size(t)
    ensures !c.isIdentification ==> b == s[WideIndex(c, address)]
  {
    var addr := Addr(address);
    if addr <= 1 && c.isIdentification then IdByte(t, addr) else s[addr + c.offset]
  }

  /** A programmed byte reads back outside the two identification addresses. */
  lemma ProgramReadsBack(c: Control, t: FlashType, s: seq<bv8>, address: bv32, value: bv8)
    requires ValidControl(c, t) && |s| == Size(t)
    requires !c.isIdentification || Addr(address) > 1
    ensures var armed := Dispatch(c, t, 0xA0).control; var o := Written(armed, t, Addr(address), value);
      Fits(o.effect, |s|) && ReadByte(o.control, t, Applied(s, o.effect), address) == value
  {
  }

  /* The wide accesses. */

  /**
   * `address and SRAM_MASK + offset` as written: Kotlin's `and` binds looser
   * than `+`, so the mask is `0x7FFF + offset`, which keeps 15 address bits in
   * bank 0 and adds address bit 16 in bank 1.
   */
  function WideIndexAsWritten(c: Control, address: bv32): (i: nat)
    requires c.offset == 0 || c.offset == 0x1_0000
    ensures i % 0x8000 == address as int % 0x8000
    ensures c.offset == 0 ==> i < 0x8000
    ensures c.offset != 0 ==> (i >= 0x1_0000 <==> address as int / 0x1_0000 % 2 == 1)
  {
    var a := address as int;
    LowBitsKept(a);
    if c.offset == 0 then a % 0x8000 else a % 0x8000 + (a / 0x1_0000 % 2) * 0x1_0000
  }

  /**
   * Proof step: adding address bit 16 as 0x10000 to the low 15 address bits
   * keeps them and reaches past 64 KiB exactly when that bit is set.
   */
  lemma LowBitsKept(a: nat)
    ensures var wide := a % 0x8000 + (a / 0x1_0000 % 2) * 0x1_0000;
      wide % 0x8000 == a % 0x8000 && (wide >= 0x1_0000 <==> a / 0x1_0000 % 2 == 1)
  {
    var q, r := a / 0x1_0000, a % 0x1_0000;
    var s, t := r / 0x8000, r % 0x8000;
    assert a == 0x8000 * (2 * q + s) + t;
    QuotientRemainder(a, 2 * q + s, t);
    QuotientRemainder(t + (q % 2) * 0x1_0000, 2 * (q % 2), t);
  }

  /** Proof step: a remainder modulo 0x8000 is the one of any decomposition with a remainder in range. */
  lemma QuotientRemainder(a: int, q: int, r: int)
    requires a == 0x8000 * q + r && 0 <= r < 0x8000
    ensures a % 0x8000 == r
  {
  }


  /** The index the wide accesses need: the byte `read8` addresses, `(address and 0xFFFF) + offset`. */
  function WideIndex(c: Control, address: bv32): (i: nat)
    ensures c.offset == 0 || c.offset == 0x1_0000 ==> i / 0x1_0000 == c.offset / 0x1_0000 && i % 0x1_0000 == Addr(address)
  {
    Addr(address) + c.offset
  }

  /** `uShort * 0x101`: the byte in both halves. */
  function Replicate16(b: bv8): (h: bv16)
    ensures (h & 0xFF) as bv8 == b && (h >> 8) as bv8 == b
  {
    (b as bv16) | ((b as bv16) << 8)
  }

  /** `uInt * 0x1010101`: the byte in all four lanes. */
  function Replicate32(b: bv8): (w: bv32)
    ensures (w & 0xFF) as bv8 == b && ((w >> 8) & 0xFF) as bv8 == b
    ensures ((w >> 16) & 0xFF) as bv8 == b && (w >> 24) as bv8 == b
  {
    var x := b as bv32;
    x | (x << 8) | (x << 16) | (x << 24)
  }

  /** `value.rotateRight(address shl 3).toByte()`: byte lane `address and 3` of the value. */
  function LaneByte(value: bv32, address: bv32): (b: bv8)
  {
    ByteOf(value, (address & 3) as nat) as bv8
  }

  /** Bank 1, with 0x00 in bank 0 and 0xFF in bank 1 of a 128 KiB chip. */
  function TwoBanks(): (s: seq<bv8>)
    ensures |s| == Size(Macronix128)
  {
    seq(0x2_0000, i => if i < 0x1_0000 then 0x00 else 0xFF)
  }

  /** As written, a wide read in bank 1 reads bank 0: at 0x0E000000 `read16` sees byte 0 while `read8` sees byte 0x10000. */
  lemma WideReadCounterexample()
    ensures var c := Control(false, Ready, None, 0x1_0000);
      WideIndexAsWritten(c, 0x0E00_0000) == 0 && TwoBanks()[WideIndexAsWritten(c, 0x0E00_0000)] == 0x00 &&
      ReadByte(c, Macronix128, TwoBanks(), 0x0E00_0000) == 0xFF
  {
    var c := Control(false, Ready, None, 0x1_0000);
    assert Addr(0x0E00_0000) == 0;
  }

  /** Corrected, a wide read replicates exactly the byte `read8` returns outside identification mode, in either bank. */
  lemma WideReadMatchesByteRead(c: Control, t: FlashType, s: seq<bv8>, address: bv32)
    requires ValidControl(c, t) && |s| == Size(t) && !c.isIdentification
    ensures WideIndex(c, address) < |s|
    ensures Replicate16(s[WideIndex(c, address)]) == Replicate16(ReadByte(c, t, s, address))
    ensures Replicate32(s[WideIndex(c, address)]) == Replicate32(ReadByte(c, t, s, address))
  {
  }

  /** The sequence that arms a program right after a sector erase. */
  function EraseThenProgram(c: Control, t: FlashType, sector: nat, as_written: bool): (r: Control)
  {
    var erased := if as_written then WrittenAsWritten(c, t, sector, 0x30).control else Written(c, t, sector, 0x30).control;
    var first := if as_written then WrittenAsWritten(erased, t, 0x5555, 0xAA).control else Written(erased, t, 0x5555, 0xAA).control;
    var second := if as_written then WrittenAsWritten(first, t, 0x2AAA, 0x55).control else Written(first, t, 0x2AAA, 0x55).control;
    if as_written then WrittenAsWritten(second, t, 0x5555, 0xA0).control else Written(second, t, 0x5555, 0xA0).control
  }

  /**
   * As written, the command after a sector erase is lost: `commandState` is
   * still `Second`, so the 0xAA of the next unlock is taken as a command,
   * and the 0xA0 that follows is ignored.
   */
  lemma SectorEraseLosesNextCommand(c: Control, t: FlashType, sector: nat)
    requires c.state == Erase && c.commandState == Second && sector % 0x1000 == 0
    ensures EraseThenProgram(c, t, sector, true).state == Ready
    ensures EraseThenProgram(c, t, sector, true).commandState == None
  {
  }

  /** Corrected, the program command after a sector erase is taken. */
  lemma SectorEraseThenProgram(c: Control, t: FlashType, sector: nat)
    requires c.state == Erase && c.commandState == Second && sector % 0x1000 == 0
    ensures EraseThenProgram(c, t, sector, false).state == Write
  {
    SectorEraseCommand(c, t, sector);
    CommandSequence(c.(state := Ready, commandState := None), t, 0xA0);
  }

  class Flash {
    const chip: FlashType
    const buffer: array<bv8>
    var isIdentification: bool
    var state: FlashState
    var commandState: CommandState
    var offset: nat

    function View(): Control
      reads this
    {
      Control(isIdentification, state, commandState, offset)
    }

    ghost predicate Valid()
      reads this
    {
      buffer.Length == Size(chip) && ValidControl(View(), chip)
    }

    /** A new chip: ready, bank 0, and every byte erased to 0xFF. */
    constructor (chip: FlashType)
      ensures Valid() && fresh(buffer) && this.chip == chip
      ensures View() == Control(false, Ready, None, 0)
      ensures forall i :: 0 <= i < buffer.Length ==> buffer[i] == 0xFF
    {
      this.chip := chip;
      buffer := new bv8[Size(chip)];
      isIdentification := false;
      state := Ready;
      commandState := None;
      offset := 0;
      new;
      EraseBytes(0, Size(chip));
    }

    /** `erase(start, end, offset)`: fills `lo..hi` with 0xFF. */
    method EraseBytes(lo: nat, hi: nat)
      requires lo <= hi <= buffer.Length
      modifies buffer
      ensures buffer[..] == Erased(old(buffer[..]), lo, hi)
    {
      for i := lo to hi
        invariant forall k :: 0 <= k < buffer.Length ==> buffer[k] == if lo <= k < i then 0xFF else old(buffer[k])
      {
        buffer[i] := 0xFF;
      }
    }

    /** `read8`: the identification byte or the byte in the current bank. */
    method Read8(address: bv32) returns (b: bv8)
      requires Valid()
      ensures b == ReadByte(View(), chip, buffer[..], address)
    {
      var addr := Addr(address);
      if addr <= 1 && isIdentification {
        b := IdByte(chip, addr);
      } else {
        b := buffer[addr + offset];
      }
    }

    /** `write8`, with the sector erase completing the command sequence. */
    method Write8(address: bv32, value: bv8)
      requires Valid()
      modifies this, buffer
      ensures Valid()
      ensures View() == Written(old(View()), chip, Addr(address), value).control
      ensures Fits(Written(old(View()), chip, Addr(address), value).effect, |old(buffer[..])|) &&
        buffer[..] == Applied(old(buffer[..]), Written(old(View()), chip, Addr(address), value).effect)
    {
      var addr := Addr(address);
      WrittenStaysInside(View(), chip, addr, value);
      if state == Write || (state == ChangeBank && addr == 0 && value < 2) || SectorErase(View(), addr, value) {
        WriteArmed(addr, value);
      } else {
        Sequence(addr, value);
      }
    }

    /** The three branches of `write8` that complete an armed operation: program, bank switch, sector erase. */
    method WriteArmed(addr: nat, value: bv8)
      requires Valid() && addr < 0x1_0000
      requires state == Write || (state == ChangeBank && addr == 0 && value < 2) || SectorErase(View(), addr, value)
      modifies this, buffer
      ensures View() == Written(old(View()), chip, addr, value).control
      ensures buffer[..] == Applied(old(buffer[..]), Written(old(View()), chip, addr, value).effect)
    {
      if state == Write {
        state := Ready;
        buffer[addr + offset] := value;
      } else if state == ChangeBank && addr == 0 && value < 2 {
        state := Ready;
        offset := BankOffset(value);
      } else {
        state := Ready;
        commandState := None;
        EraseBytes(addr + offset, addr + 0x1000 + offset);
      }
    }

    /** The unlock sequence and the command byte: the branches of `write8` after the armed ones. */
    method Sequence(addr: nat, value: bv8)
      requires Valid() && addr < 0x1_0000
      requires !(state == Write || (state == ChangeBank && addr == 0 && value < 2) || SectorErase(View(), addr, value))
      modifies this, buffer
      ensures Valid()
      ensures View() == Written(old(View()), chip, addr, value).control
      ensures buffer[..] == Applied(old(buffer[..]), Written(old(View()), chip, addr, value).effect)
    {
      if addr == 0x5555 && value == 0xAA && commandState == None {
        commandState := First;
      } else if addr == 0x2AAA && value == 0x55 && commandState == First {
        commandState := Second;
      } else if addr == 0x5555 && commandState == Second {
        commandState := None;
        DispatchCommand(value as nat);
      }
    }

    /** `dispatchCommand`. */
    method DispatchCommand(command: nat)
      requires Valid()
      modifies this, buffer
      ensures Valid()
      ensures View() == Dispatch(old(View()), chip, command).control
      ensures buffer[..] == Applied(old(buffer[..]), Dispatch(old(View()), chip, command).effect)
    {
      if command == 0x90 {
        isIdentification := true;
      } else if command == 0xF0 {
        isIdentification := false;
      } else if command == 0x80 {
        state := Erase;
        return;
      } else if command == 0xA0 {
        state := Write;
        return;
      } else if command == 0x10 && state == Erase {
        EraseBytes(0, Size(chip));
      } else if command == 0xB0 && IsBanked(chip) {
        state := ChangeBank;
        return;
      }
      state := Ready;
    }

    /** `read16`: the byte at the wide index in both halves. */
    method Read16(address: bv32) returns (h: bv16)
      requires Valid()
      ensures h == Replicate16(buffer[WideIndex(View(), address)])
    {
      h := Replicate16(buffer[Addr(address) + offset]);
    }

    /** `read32`: the byte at the wide index in all four lanes. */
    method Read32(address: bv32) returns (w: bv32)
      requires Valid()
      ensures w == Replicate32(buffer[WideIndex(View(), address)])
    {
      w := Replicate32(buffer[Addr(address) + offset]);
    }

    /** `write16`: lane `address and 3` of the zero-extended halfword, stored at the wide index. */
    method Write16(address: bv32, value: bv32)
      requires Valid()
      modifies buffer
      ensures buffer[..] == old(buffer[..])[WideIndex(View(), address) := LaneByte(UInt16(value), address)]
    {
      buffer[Addr(address) + offset] := LaneByte(UInt16(value), address);
    }

    /** `write32`: lane `address and 3` of the word, stored at the wide index. */
    method Write32(address: bv32, value: bv32)
      requires Valid()
      modifies buffer
      ensures buffer[..] == old(buffer[..])[WideIndex(View(), address) := LaneByte(value, address)]
    {
      buffer[Addr(address) + offset] := LaneByte(value, address);
    }
  }
}
