/**
 * ARM block data transfers (cpu/arm/Memory.kt): STM and LDM in their four
 * addressing modes (increment or decrement, before or after), with
 * write-back, the empty register list and the user-bank transfer of bit 22.
 *
 * `registerList` walks registers 0 to 15, or 15 down to 0 when decrementing,
 * moving the running address a word per listed register. Here that walk is
 * a tail recursion over the step k, whose register is `Order(k, up)`; the
 * lemmas place each listed register at the slot of its rank, so that in
 * every mode the lowest register sits at the lowest address.
 */
module ArmBlockTransfer {
  import opened Wrappers
  import opened Extensions
  import opened Memory
  import opened CpuUtils
  import opened CpuModes
  import opened CpuModel
  import opened CpuBanks
  import opened CpuProperties
  import opened Processor
  import opened Transfers
  import ArmDataProcessing
  import ThumbMemory
  import ArmTransfer

  /* The walk. */

  /** The register of step k: k going up, 15 - k going down. */
  function Order(k: nat, up: bool): (r: nat)
    requires k < 16
    ensures r < 16
  {
    if up then k else 15 - k
  }

  /** Register r is visited at step `Order(r, up)`. */
  lemma OrderTwice(r: nat, up: bool)
    requires r < 16
    ensures Order(Order(r, up), up) == r
  {
  }

  /** The register list, bits 0-15: register r is listed when bit r is set. */
  function ListOf(instr: bv32): (list: seq<bool>)
    ensures |list| == 16
    ensures forall r :: 0 <= r < 16 ==> list[r] == Bit(instr, r)
  {
    seq(16, r requires 0 <= r < 16 => Bit(instr, r))
  }

  /** How many of registers 0 to i-1 are listed; `Count(list, 16)` is the list's size. */
  function Count(list: seq<bool>, i: nat): (n: nat)
    requires |list| == 16 && i <= 16
    ensures n <= i
  {
    if i == 0 then 0 else Count(list, i - 1) + (if list[i - 1] then 1 else 0)
  }

  /** A listed register comes before every later register. */
  lemma {:induction false} CountIncreases(list: seq<bool>, i: nat, j: nat)
    requires |list| == 16 && i < j <= 16 && list[i]
    ensures Count(list, i) < Count(list, j)
    decreases j
  {
    if j > i + 1 {
      CountIncreases(list, i, j - 1);
    }
  }

  /** `addr += 4` or `addr -= 4`. */
  function Step(address: bv32, up: bool): bv32
  {
    if up then Plus(address, 4) else Minus(address, 4)
  }

  /** The address n steps from `start` in the walk's direction. */
  function Offset(start: bv32, n: nat, up: bool): bv32
  {
    if n == 0 then start else Step(Offset(start, n - 1, up), up)
  }

  /** How many of the registers of steps 0 to k-1 are listed. */
  function Seen(list: seq<bool>, k: nat, up: bool): (n: nat)
    requires |list| == 16 && k <= 16
    ensures n <= k
  {
    if k == 0 then 0 else Seen(list, k - 1, up) + (if list[Order(k - 1, up)] then 1 else 0)
  }

  /** Going up, the walk has seen exactly the listed registers below step k. */
  lemma {:induction false} SeenUp(list: seq<bool>, k: nat)
    requires |list| == 16 && k <= 16
    ensures Seen(list, k, true) == Count(list, k)
  {
    if k > 0 {
      SeenUp(list, k - 1);
    }
  }

  /** Going down, the walk has seen the listed registers at or above 16 - k. */
  lemma {:induction false} SeenDown(list: seq<bool>, k: nat)
    requires |list| == 16 && k <= 16
    ensures Seen(list, k, false) + Count(list, 16 - k) == Count(list, 16)
  {
    if k > 0 {
      SeenDown(list, k - 1);
      assert Count(list, 16 - k + 1) == Count(list, 16 - k) + (if list[15 - (k - 1)] then 1 else 0);
    }
  }

  /** x moved by d bytes in the walk's direction. */
  function Shift(x: bv32, d: bv32, up: bool): bv32
  {
    if up then Plus(x, d) else Minus(x, d)
  }

  /** n steps from x are x moved by the n steps from 0 upward. */
  lemma {:induction false} OffsetDistance(x: bv32, n: nat, up: bool)
    ensures Offset(x, n, up) == Shift(x, Offset(0, n, true), up)
  {
    if n == 0 {
      assert Shift(x, 0, up) == x;
    } else {
      OffsetDistance(x, n - 1, up);
      ShiftStep(x, Offset(0, n - 1, true), up);
    }
  }

  lemma ShiftStep(x: bv32, d: bv32, up: bool)
    ensures Shift(x, Step(d, true), up) == Step(Shift(x, d, up), up)
  {
    if up {
      PlusAssociates(x, d, 4);
    } else {
      MinusSum(x, d, 4);
    }
  }

  /**
   * Each unfolding below has a raw sum of variables as its argument, which
   * the solver brings to one normal form on both sides.
   */
  lemma PlusAssociates(x: bv32, d: bv32, e: bv32)
    ensures Plus(x, Plus(d, e)) == Plus(Plus(x, d), e)
  {
    assert Plus(d, e) == d + e;
    assert Plus(x, d + e) == x + (d + e);
    assert Plus(x, d) == x + d;
    assert Plus(x + d, e) == (x + d) + e;
  }

  lemma MinusSum(x: bv32, d: bv32, e: bv32)
    ensures Minus(x, Plus(d, e)) == Minus(Minus(x, d), e)
  {
    assert Plus(d, e) == d + e;
    assert Minus(x, d + e) == x - (d + e);
    assert Minus(x, d) == x - d;
    assert Minus(x - d, e) == (x - d) - e;
  }

  /** The n steps from 0 upward are 4n, for the 16 registers a list can hold. */
  lemma {:induction false} OffsetValue(n: nat)
    requires n <= 16
    ensures Offset(0, n, true) as int == 4 * n
  {
    if n > 0 {
      OffsetValue(n - 1);
      StepValue(Offset(0, n - 1, true));
    }
  }

  lemma StepValue(w: bv32)
    requires w as int <= 60
    ensures Step(w, true) as int == w as int + 4
  {
    assert Step(w, true) == w + 4;
  }

  /** q + d steps are q steps and then d more. */
  lemma {:induction false} OffsetSplit(start: bv32, q: nat, d: nat, up: bool)
    ensures Offset(start, q + d, up) == Offset(Offset(start, q, up), d, up)
  {
    if d > 0 {
      OffsetSplit(start, q, d - 1, up);
    }
  }

  /** Slots q and q + d of one walk lie in different words. */
  lemma OffsetsApart(start: bv32, q: nat, d: nat, up: bool)
    requires 1 <= d <= 16
    ensures Offset(start, q, up) & !3 != Offset(start, q + d, up) & !3
  {
    var x := Offset(start, q, up);
    OffsetSplit(start, q, d, up);
    OffsetDistance(x, d, up);
    OffsetValue(d);
    var w := Offset(0, d, true);
    Aligned(w, d);
    ShiftApart(x, w, up);
  }

  lemma Aligned(w: bv32, d: nat)
    requires 1 <= d <= 16 && w as int == 4 * d
    ensures w & 3 == 0 && w != 0
  {
  }

  lemma ShiftApart(x: bv32, w: bv32, up: bool)
    requires w & 3 == 0 && w != 0
    ensures x & !3 != Shift(x, w, up) & !3
  {
    if up {
      DistinctWords(x, w);
    } else {
      DistinctBelow(x, w);
    }
  }

  lemma DistinctBelow(x: bv32, w: bv32)
    requires w & 3 == 0 && w != 0
    ensures x & !3 != Minus(x, w) & !3
  {
    assert Minus(x, w) == x - w;
    DistinctDown(x, w);
  }

  lemma DistinctDown(x: bv32, w: bv32)
    requires w & 3 == 0 && w != 0
    ensures x & !3 != (x - w) & !3
  {
  }

  /* STM. */

  /**
   * The running address at step k: the start moved one word for each listed
   * register of the steps before k.
   */
  function Slot(start: bv32, list: seq<bool>, k: nat, up: bool): bv32
    requires |list| == 16 && k <= 16
  {
    Offset(start, Seen(list, k, up), up)
  }

  /** A listed step moves the running address one word, an unlisted one leaves it. */
  lemma SlotNext(start: bv32, list: seq<bool>, k: nat, up: bool)
    requires |list| == 16 && k < 16
    ensures Slot(start, list, k + 1, up) == if list[Order(k, up)] then Step(Slot(start, list, k, up), up) else Slot(start, list, k, up)
  {
  }

  /** What the store walk has done: the memory and where the base register went. */
  datatype Stores = Stores(memory: Mem, slot: Option<bv32>)

  /** The `regs.forEach` of `armStm` from step k: `write32(addr, registers[it])`, noting the base's address. */
  function StoreBlock(mem: Mem, values: seq<bv32>, list: seq<bool>, k: nat, start: bv32, up: bool, base: nat, slot: Option<bv32>): Stores
    requires |list| == 16 && |values| == 16 && k <= 16
    decreases 16 - k
  {
    if k == 16 then Stores(mem, slot)
    else
      var r := Order(k, up);
      var address := Slot(start, list, k, up);
      if list[r] then
        StoreBlock(WithWord(mem, address, values[r]), values, list, k + 1, start, up, base, if r == base then Some(address) else slot)
      else StoreBlock(mem, values, list, k + 1, start, up, base, slot)
  }

  /** A slot the walk has already passed keeps its word. */
  lemma {:induction false} StoreBlockBefore(mem: Mem, values: seq<bv32>, list: seq<bool>, k: nat, start: bv32, up: bool, base: nat, slot: Option<bv32>, q: nat)
    requires |list| == 16 && |values| == 16 && k <= 16 && q < Seen(list, k, up)
    ensures Read32(StoreBlock(mem, values, list, k, start, up, base, slot).memory, Offset(start, q, up)) == Read32(mem, Offset(start, q, up))
    decreases 16 - k
  {
    if k < 16 {
      var address := Slot(start, list, k, up);
      var r := Order(k, up);
      if list[r] {
        var next := WithWord(mem, address, values[r]);
        StoreBlockBefore(next, values, list, k + 1, start, up, base, if r == base then Some(address) else slot, q);
        StoreMissesBefore(mem, Seen(list, k, up), start, up, values[r], q);
      } else {
        StoreBlockBefore(mem, values, list, k + 1, start, up, base, slot, q);
      }
    }
  }

  /** A store n words into the walk leaves the word q < n words into it alone. */
  lemma StoreMissesBefore(mem: Mem, n: nat, start: bv32, up: bool, value: bv32, q: nat)
    requires q < n <= 16
    ensures Read32(WithWord(mem, Offset(start, n, up), value), Offset(start, q, up)) == Read32(mem, Offset(start, q, up))
  {
    OffsetsApart(start, q, n - q, up);
    Read32WithWordElsewhere(mem, Offset(start, n, up), Offset(start, q, up), value);
  }

  /** The register of a listed step j holds its value at the step's address once the walk is done. */
  lemma {:induction false} StoreBlockListed(mem: Mem, values: seq<bv32>, list: seq<bool>, k: nat, start: bv32, up: bool, base: nat, slot: Option<bv32>, j: nat)
    requires |list| == 16 && |values| == 16 && k <= j < 16 && list[Order(j, up)]
    ensures Read32(StoreBlock(mem, values, list, k, start, up, base, slot).memory, Slot(start, list, j, up)) == values[Order(j, up)]
    decreases 16 - k
  {
    var address := Slot(start, list, k, up);
    var r := Order(k, up);
    var s := if r == base then Some(address) else slot;
    if list[r] {
      var next := WithWord(mem, address, values[r]);
      if k == j {
        StoreBlockHere(mem, values, list, k, start, up, base, slot);
      } else {
        StoreBlockListed(next, values, list, k + 1, start, up, base, s, j);
      }
    } else {
      StoreBlockListed(mem, values, list, k + 1, start, up, base, slot, j);
    }
  }

  /** The word a listed step stores stays in place for the rest of the walk. */
  lemma StoreBlockHere(mem: Mem, values: seq<bv32>, list: seq<bool>, k: nat, start: bv32, up: bool, base: nat, slot: Option<bv32>)
    requires |list| == 16 && |values| == 16 && k < 16 && list[Order(k, up)]
    ensures Read32(StoreBlock(mem, values, list, k, start, up, base, slot).memory, Slot(start, list, k, up)) == values[Order(k, up)]
  {
    var address := Slot(start, list, k, up);
    var r := Order(k, up);
    var next := WithWord(mem, address, values[r]);
    StoreBlockBefore(next, values, list, k + 1, start, up, base, if r == base then Some(address) else slot, Seen(list, k, up));
    Read32WithWord(mem, address, values[r]);
  }

  /** The walk notes the base's own address when the base is listed, and nothing otherwise. */
  lemma {:induction false} StoreBlockSlot(mem: Mem, values: seq<bv32>, list: seq<bool>, k: nat, start: bv32, up: bool, base: nat, slot: Option<bv32>)
    requires |list| == 16 && |values| == 16 && k <= 16 && base < 16 && k <= Order(base, up)
    ensures StoreBlock(mem, values, list, k, start, up, base, slot).slot ==
      if list[base] then Some(Slot(start, list, Order(base, up), up)) else slot
    decreases 16 - k
  {
    var address := Slot(start, list, k, up);
    var r := Order(k, up);
    if list[r] {
      if r == base {
        StoreBlockSlotPassed(WithWord(mem, address, values[r]), values, list, k + 1, start, up, base, Some(address));
      } else {
        StoreBlockSlot(WithWord(mem, address, values[r]), values, list, k + 1, start, up, base, slot);
      }
    } else if r != base {
      StoreBlockSlot(mem, values, list, k + 1, start, up, base, slot);
    } else {
      StoreBlockSlotPassed(mem, values, list, k + 1, start, up, base, slot);
    }
  }

  /** Past the base's step the noted slot stays as it is. */
  lemma {:induction false} StoreBlockSlotPassed(mem: Mem, values: seq<bv32>, list: seq<bool>, k: nat, start: bv32, up: bool, base: nat, slot: Option<bv32>)
    requires |list| == 16 && |values| == 16 && k <= 16 && base < 16 && Order(base, up) < k
    ensures StoreBlock(mem, values, list, k, start, up, base, slot).slot == slot
    decreases 16 - k
  {
    if k < 16 {
      var address := Slot(start, list, k, up);
      var r := Order(k, up);
      if list[r] {
        StoreBlockSlotPassed(WithWord(mem, address, values[r]), values, list, k + 1, start, up, base, slot);
      } else {
        StoreBlockSlotPassed(mem, values, list, k + 1, start, up, base, slot);
      }
    }
  }

  /** Bits 0-15 are the register list. */
  predicate EmptyList(instr: bv32)
  {
    Count(ListOf(instr), 16) == 0
  }

  /** The first address: the base, moved one step first when pre-indexed (bit 24). */
  function Start(base: bv32, instr: bv32): bv32
  {
    if ArmTransfer.Pre(instr) then Step(base, ArmTransfer.Up(instr)) else base
  }

  /** Bit 22 moves the user bank: `setCPUMode(User)` for the transfer. */
  function UserBank(m: Machine, instr: bv32): (r: Machine)
    requires Wf(m)
    ensures Wf(r)
  {
    if Bit(instr, 22) then SetCpuMode(m, User) else m
  }

  /** `setCPUMode(modeCopy)` after a user-bank transfer. */
  function Restored(m: Machine, instr: bv32, mode: Mode): (r: Machine)
    requires Wf(m)
    ensures Wf(r)
  {
    if Bit(instr, 22) then SetCpuMode(m, mode) else m
  }

  /** What the stores of `armStm` have done: the memory, the running address, and where the base register went. */
  datatype Block = Block(memory: Mem, address: bv32, slot: Option<bv32>)

  /**
   * An empty list stores pc alone, at the start going up and 0x3C below it
   * going down, and leaves the address 0x40 bytes from the base.
   */
  function EmptyStore(mem: Mem, pc: bv32, start: bv32, instr: bv32): Block
  {
    var pre, up := ArmTransfer.Pre(instr), ArmTransfer.Up(instr);
    var at := if up then start else Minus(start, 0x3C);
    var after :=
      if up && !pre then Plus(at, 0x40)
      else if !up && !pre then Minus(at, 4)
      else if up && pre then Plus(at, 0x3C)
      else at;
    Block(WithWord(mem, at, pc), after, None)
  }

  /** The stores of `armStm` with the banks `u` shows. */
  function StmBlock(u: Machine, mem: Mem, instr: bv32, start: bv32): Block
    requires Wf(u)
  {
    if EmptyList(instr) then EmptyStore(mem, Pc(u), start, instr)
    else
      var list, up := ListOf(instr), ArmTransfer.Up(instr);
      var s := StoreBlock(mem, u.registers, list, 0, start, up, ArmTransfer.BaseRegister(instr), None);
      Block(s.memory, Slot(start, list, 16, up), s.slot)
  }

  /** The written-back address: one step back after a pre-indexed walk over a non-empty list. */
  function StmEnd(b: Block, instr: bv32): bv32
  {
    if ArmTransfer.Pre(instr) && !EmptyList(instr) then Step(b.address, !ArmTransfer.Up(instr)) else b.address
  }

  /**
   * `armStm`: with pc advanced by 4 and (bit 22) the user bank in place, the
   * walk; then the mode back and pc back; with bit 21 the base gets the end
   * address, and if the base was stored and is not the lowest listed
   * register its slot is rewritten with that address.
   */
  function Stm(m: Machine, mem: Mem, instr: bv32): (r: ThumbMemory.Access)
    requires Wf(m)
    ensures Wf(r.machine)
  {
    ThumbMemory.Access(StmMachine(m, mem, instr), StmMemory(m, mem, instr))
  }

  /** The walk of `armStm`: pc advanced, the user bank in place with bit 22, from the start the base gives. */
  function StmWalk(m: Machine, mem: Mem, instr: bv32): Block
    requires Wf(m)
  {
    var a := ArmDataProcessing.Ahead(m);
    StmBlock(UserBank(a, instr), mem, instr, Start(a.registers[ArmTransfer.BaseRegister(instr)], instr))
  }

  /** The processor after `armStm`: mode and pc back, and with bit 21 the end address in the base. */
  function StmMachine(m: Machine, mem: Mem, instr: bv32): (r: Machine)
    requires Wf(m)
    ensures Wf(r)
  {
    var after := ArmDataProcessing.Behind(Restored(UserBank(ArmDataProcessing.Ahead(m), instr), instr, m.mode));
    if Bit(instr, 21) then WriteRegister(after, ArmTransfer.BaseRegister(instr), StmEnd(StmWalk(m, mem, instr), instr)) else after
  }

  /** The memory after `armStm`: the walk's stores, and with bit 21 the end address over a listed base's slot unless the base is the lowest listed register. */
  function StmMemory(m: Machine, mem: Mem, instr: bv32): Mem
    requires Wf(m)
  {
    var b := StmWalk(m, mem, instr);
    if Bit(instr, 21) && b.slot.Some? && Count(ListOf(instr), ArmTransfer.BaseRegister(instr)) != 0 then WithWord(b.memory, b.slot.value, StmEnd(b, instr))
    else b.memory
  }

  /** The slot of listed register j in a walk over n registers: its rank going up, the count above it going down. */
  function Position(list: seq<bool>, j: nat, up: bool): nat
    requires |list| == 16 && j < 16
  {
    if up then Count(list, j) else CountBelowAll(list, j + 1); Count(list, 16) - Count(list, j + 1)
  }

  lemma {:induction false} CountBelowAll(list: seq<bool>, i: nat)
    requires |list| == 16 && i <= 16
    ensures Count(list, i) <= Count(list, 16)
    decreases 16 - i
  {
    if i < 16 {
      CountBelowAll(list, i + 1);
    }
  }

  /** The step of register j is the walk's count of listed registers before it. */
  lemma SeenPosition(list: seq<bool>, j: nat, up: bool)
    requires |list| == 16 && j < 16
    ensures Seen(list, Order(j, up), up) == Position(list, j, up)
  {
    if up {
      SeenUp(list, j);
    } else {
      SeenDown(list, 15 - j);
    }
  }

  /** The walk moves the address one word per listed register. */
  lemma SeenAll(list: seq<bool>, up: bool)
    requires |list| == 16
    ensures Seen(list, 16, up) == Count(list, 16)
  {
    if up {
      SeenUp(list, 16);
    } else {
      SeenDown(list, 16);
    }
  }

  /** STM stores each listed register j at the slot of its position (without a base rewrite over it). */
  lemma StmStores(m: Machine, mem: Mem, instr: bv32, j: nat)
    requires Wf(m) && j < 16 && Bit(instr, j) && !(Bit(instr, 21) && Bit(instr, ArmTransfer.BaseRegister(instr)))
    ensures var a := ArmDataProcessing.Ahead(m); var up := ArmTransfer.Up(instr);
      var start := Start(a.registers[ArmTransfer.BaseRegister(instr)], instr);
      Read32(Stm(m, mem, instr).memory, Offset(start, Position(ListOf(instr), j, up), up)) == UserBank(a, instr).registers[j]
  {
    var a := ArmDataProcessing.Ahead(m);
    var start := Start(a.registers[ArmTransfer.BaseRegister(instr)], instr);
    StmWalkMemory(m, mem, instr);
    StmBlockStores(UserBank(a, instr), mem, instr, start, j);
  }

  /** Unless the base is listed and written back, STM leaves the memory as its walk does. */
  lemma StmWalkMemory(m: Machine, mem: Mem, instr: bv32)
    requires Wf(m) && !(Bit(instr, 21) && Bit(instr, ArmTransfer.BaseRegister(instr)))
    ensures var a := ArmDataProcessing.Ahead(m);
      var start := Start(a.registers[ArmTransfer.BaseRegister(instr)], instr);
      StmMemory(m, mem, instr) == StmBlock(UserBank(a, instr), mem, instr, start).memory
  {
    var a := ArmDataProcessing.Ahead(m);
    var base := ArmTransfer.BaseRegister(instr);
    var start := Start(a.registers[base], instr);
    var u := UserBank(a, instr);
    if Bit(instr, 21) && !EmptyList(instr) {
      StoreBlockSlot(mem, u.registers, ListOf(instr), 0, start, ArmTransfer.Up(instr), base, None);
    }
  }

  /** The walk stores listed register j at the slot of its position. */
  lemma StmBlockStores(u: Machine, mem: Mem, instr: bv32, start: bv32, j: nat)
    requires Wf(u) && j < 16 && Bit(instr, j)
    ensures var up := ArmTransfer.Up(instr);
      Read32(StmBlock(u, mem, instr, start).memory, Offset(start, Position(ListOf(instr), j, up), up)) == u.registers[j]
  {
    var up := ArmTransfer.Up(instr);
    var list := ListOf(instr);
    assert !EmptyList(instr) by {
      CountIncreases(list, j, 16);
    }
    var k := Order(j, up);
    OrderTwice(j, up);
    SeenPosition(list, j, up);
    StoreBlockListed(mem, u.registers, list, 0, start, up, ArmTransfer.BaseRegister(instr), None, k);
  }

  /** With bit 21 and a non-empty list, the base ends one word per listed register past its old value. */
  lemma StmWritesBack(m: Machine, mem: Mem, instr: bv32)
    requires Wf(m) && Bit(instr, 21) && !EmptyList(instr) && ArmTransfer.BaseRegister(instr) != 15
    ensures var base := ArmTransfer.BaseRegister(instr);
      Stm(m, mem, instr).machine.registers[base] == Offset(m.registers[base], Count(ListOf(instr), 16), ArmTransfer.Up(instr))
  {
    var a := ArmDataProcessing.Ahead(m);
    var base := ArmTransfer.BaseRegister(instr);
    var up := ArmTransfer.Up(instr);
    var start := Start(a.registers[base], instr);
    SeenAll(ListOf(instr), up);
    BlockEnd(a.registers[base], instr, Count(ListOf(instr), 16));
  }

  /** A walk of n words from the start, less the pre-index step, is n words from the base. */
  lemma BlockEnd(base: bv32, instr: bv32, n: nat)
    ensures var up := ArmTransfer.Up(instr); var walked := Offset(Start(base, instr), n, up);
      (if ArmTransfer.Pre(instr) then Step(walked, !up) else walked) == Offset(base, n, up)
  {
    var up := ArmTransfer.Up(instr);
    if ArmTransfer.Pre(instr) {
      var s := Start(base, instr);
      var w := Offset(0, n, true);
      OffsetDistance(s, n, up);
      OffsetDistance(base, n, up);
      StepAndBack(base, w, up);
    }
  }

  /** A step, then d bytes, then a step back, is d bytes. */
  lemma StepAndBack(base: bv32, w: bv32, up: bool)
    ensures Step(Shift(Step(base, up), w, up), !up) == Shift(base, w, up)
  {
    if up {
      StepAndBackUp(base, w);
    } else {
      StepAndBackDown(base, w);
    }
  }

  lemma StepAndBackUp(base: bv32, w: bv32)
    ensures Minus(Plus(Plus(base, 4), w), 4) == Plus(base, w)
  {
    calc {
      Minus(Plus(Plus(base, 4), w), 4);
      Plus(Plus(base, 4), w) - 4;
      (Plus(base, 4) + w) - 4;
      ((base + 4) + w) - 4;
      base + w;
      Plus(base, w);
    }
  }

  lemma StepAndBackDown(base: bv32, w: bv32)
    ensures Plus(Minus(Minus(base, 4), w), 4) == Minus(base, w)
  {
    calc {
      Plus(Minus(Minus(base, 4), w), 4);
      Minus(Minus(base, 4), w) + 4;
      (Minus(base, 4) - w) + 4;
      ((base - 4) - w) + 4;
      base - w;
      Minus(base, w);
    }
  }

  /** With bit 21 and an empty list the base moves 0x40 bytes, whatever the indexing. */
  lemma StmEmptyWritesBack(m: Machine, mem: Mem, instr: bv32)
    requires Wf(m) && Bit(instr, 21) && EmptyList(instr) && ArmTransfer.BaseRegister(instr) != 15
    ensures var base := ArmTransfer.BaseRegister(instr);
      Stm(m, mem, instr).machine.registers[base] == Offset(m.registers[base], 16, ArmTransfer.Up(instr))
  {
    var base := ArmTransfer.BaseRegister(instr);
    assert ArmDataProcessing.Ahead(m).registers[base] == m.registers[base];
    EmptyStoreEnd(mem, Plus(Pc(m), 4), m.registers[base], instr);
  }

  /** 16 steps are 0x40 bytes. */
  lemma SixteenSteps(x: bv32, up: bool)
    ensures Offset(x, 16, up) == Shift(x, 0x40, up)
  {
    OffsetDistance(x, 16, up);
    OffsetValue(16);
    FromInt(Offset(0, 16, true));
  }

  lemma FromInt(w: bv32)
    requires w as int == 0x40
    ensures w == 0x40
  {
  }

  /** The empty-list store leaves the address 16 words from the base in every mode. */
  lemma EmptyStoreEnd(mem: Mem, pc: bv32, base: bv32, instr: bv32)
    ensures EmptyStore(mem, pc, Start(base, instr), instr).address == Offset(base, 16, ArmTransfer.Up(instr))
  {
    SixteenSteps(base, ArmTransfer.Up(instr));
    var pre, up := ArmTransfer.Pre(instr), ArmTransfer.Up(instr);
    if up && pre {
      UpThenRest(base);
    } else if !up && pre {
      DownThenRest(base);
    } else if !up {
      RestThenDown(base);
    }
  }

  lemma UpThenRest(base: bv32)
    ensures Plus(Plus(base, 4), 0x3C) == Plus(base, 0x40)
  {
    calc {
      Plus(Plus(base, 4), 0x3C);
      Plus(base, 4) + 0x3C;
      (base + 4) + 0x3C;
      base + 0x40;
      Plus(base, 0x40);
    }
  }

  lemma DownThenRest(base: bv32)
    ensures Minus(Minus(base, 4), 0x3C) == Minus(base, 0x40)
  {
    calc {
      Minus(Minus(base, 4), 0x3C);
      Minus(base, 4) - 0x3C;
      (base - 4) - 0x3C;
      base - 0x40;
      Minus(base, 0x40);
    }
  }

  lemma RestThenDown(base: bv32)
    ensures Minus(Minus(base, 0x3C), 4) == Minus(base, 0x40)
  {
    calc {
      Minus(Minus(base, 0x3C), 4);
      Minus(base, 0x3C) - 4;
      (base - 0x3C) - 4;
      base - 0x40;
      Minus(base, 0x40);
    }
  }

  /** The empty-list load leaves the address, less the pre-index step, 16 words from the base. */
  lemma EmptyLoadEnd(base: bv32, instr: bv32)
    ensures var up := ArmTransfer.Up(instr); var start := Start(base, instr);
      var after := Shift(start, 0x40, up);
      (if ArmTransfer.Pre(instr) then Step(after, !up) else after) == Offset(base, 16, up)
  {
    var up := ArmTransfer.Up(instr);
    SixteenSteps(base, up);
    if ArmTransfer.Pre(instr) {
      StepAndBack(base, 0x40, up);
    }
  }

  /** An empty list stores pc + 4 (the instruction's address + 12) at the lowest of the 16 slots. */
  lemma StmEmptyStoresPc(m: Machine, mem: Mem, instr: bv32)
    requires Wf(m) && EmptyList(instr) && !Bit(instr, 21)
    ensures var base := ArmDataProcessing.Ahead(m).registers[ArmTransfer.BaseRegister(instr)];
      var low := if ArmTransfer.Up(instr) then Start(base, instr) else Minus(Start(base, instr), 0x3C);
      Read32(Stm(m, mem, instr).memory, low) == Plus(Pc(m), 4)
  {
    var a := ArmDataProcessing.Ahead(m);
    var base := a.registers[ArmTransfer.BaseRegister(instr)];
    var low := if ArmTransfer.Up(instr) then Start(base, instr) else Minus(Start(base, instr), 0x3C);
    assert Pc(UserBank(a, instr)) == Plus(Pc(m), 4) by {
      UserBankKeepsPc(a, instr);
    }
    Read32WithWord(mem, low, Plus(Pc(m), 4));
  }

  lemma UserBankKeepsPc(m: Machine, instr: bv32)
    requires Wf(m)
    ensures Pc(UserBank(m, instr)) == Pc(m)
  {
    if Bit(instr, 22) {
      SetCpuModeEffect(m, User);
    }
  }

  /**
   * A listed base that is not the lowest listed register has its slot
   * rewritten with the written-back address; the lowest listed base keeps
   * its old value there.
   */
  lemma StmBaseInList(m: Machine, mem: Mem, instr: bv32)
    requires Wf(m) && Bit(instr, 21) && !Bit(instr, 22)
    requires var base := ArmTransfer.BaseRegister(instr); base != 15 && Bit(instr, base)
    ensures var base := ArmTransfer.BaseRegister(instr); var up := ArmTransfer.Up(instr);
      var r := Stm(m, mem, instr);
      var at := Offset(Start(m.registers[base], instr), Position(ListOf(instr), base, up), up);
      Read32(r.memory, at) == if Count(ListOf(instr), base) != 0 then r.machine.registers[base] else m.registers[base]
  {
    var a := ArmDataProcessing.Ahead(m);
    var base := ArmTransfer.BaseRegister(instr);
    var up := ArmTransfer.Up(instr);
    var start := Start(a.registers[base], instr);
    var at := Offset(start, Position(ListOf(instr), base, up), up);
    assert a.registers[base] == m.registers[base];
    StmWalkSlot(a, mem, instr, start);
    StmBlockStores(a, mem, instr, start, base);
    StmMachineBase(m, mem, instr);
    var b := StmWalk(m, mem, instr);
    if Count(ListOf(instr), base) != 0 {
      Read32WithWord(b.memory, at, StmEnd(b, instr));
    }
  }

  /** A listed base's address is the slot of its position. */
  lemma StmWalkSlot(u: Machine, mem: Mem, instr: bv32, start: bv32)
    requires Wf(u) && Bit(instr, ArmTransfer.BaseRegister(instr))
    ensures var up := ArmTransfer.Up(instr); var base := ArmTransfer.BaseRegister(instr);
      StmBlock(u, mem, instr, start).slot == Some(Offset(start, Position(ListOf(instr), base, up), up))
  {
    var up := ArmTransfer.Up(instr);
    var base := ArmTransfer.BaseRegister(instr);
    var list := ListOf(instr);
    assert !EmptyList(instr) by {
      CountIncreases(list, base, 16);
    }
    SeenPosition(list, base, up);
    StoreBlockSlot(mem, u.registers, list, 0, start, up, base, None);
  }

  /** Without bit 22, STM with bit 21 leaves the end address in the base. */
  lemma StmMachineBase(m: Machine, mem: Mem, instr: bv32)
    requires Wf(m) && Bit(instr, 21) && !Bit(instr, 22) && ArmTransfer.BaseRegister(instr) != 15
    ensures StmMachine(m, mem, instr).registers[ArmTransfer.BaseRegister(instr)] == StmEnd(StmWalk(m, mem, instr), instr)
  {
  }

  /* LDM. */

  /** What the loads of `armLdm` have done: the registers and the running address. */
  datatype Walked = Walked(registers: seq<bv32>, address: bv32)

  /** The `regs.forEach` of `armLdm` from step k: `registers[it] = read32(addr)`. */
  function LoadBlock(registers: seq<bv32>, mem: Mem, list: seq<bool>, k: nat, start: bv32, up: bool): (loaded: seq<bv32>)
    requires |list| == 16 && |registers| == 16 && k <= 16
    ensures |loaded| == 16
    decreases 16 - k
  {
    if k == 16 then registers
    else
      var r := Order(k, up);
      if list[r] then LoadBlock(registers[r := Read32(mem, Slot(start, list, k, up))], mem, list, k + 1, start, up)
      else LoadBlock(registers, mem, list, k + 1, start, up)
  }

  /** A register the walk does not load from step k on keeps its value. */
  lemma {:induction false} LoadBlockKeeps(registers: seq<bv32>, mem: Mem, list: seq<bool>, k: nat, start: bv32, up: bool, x: nat)
    requires |list| == 16 && |registers| == 16 && k <= 16 && x < 16 && (!list[x] || Order(x, up) < k)
    ensures LoadBlock(registers, mem, list, k, start, up)[x] == registers[x]
    decreases 16 - k
  {
    if k < 16 {
      var r := Order(k, up);
      if list[r] {
        LoadBlockKeeps(registers[r := Read32(mem, Slot(start, list, k, up))], mem, list, k + 1, start, up, x);
      } else {
        LoadBlockKeeps(registers, mem, list, k + 1, start, up, x);
      }
    }
  }

  /** The register of a listed step j is loaded from the step's address. */
  lemma {:induction false} LoadBlockListed(registers: seq<bv32>, mem: Mem, list: seq<bool>, k: nat, start: bv32, up: bool, j: nat)
    requires |list| == 16 && |registers| == 16 && k <= j < 16 && list[Order(j, up)]
    ensures LoadBlock(registers, mem, list, k, start, up)[Order(j, up)] == Read32(mem, Slot(start, list, j, up))
    decreases 16 - k
  {
    var r := Order(k, up);
    if list[r] {
      var next := registers[r := Read32(mem, Slot(start, list, k, up))];
      if k == j {
        LoadBlockKeeps(next, mem, list, k + 1, start, up, r);
      } else {
        LoadBlockListed(next, mem, list, k + 1, start, up, j);
      }
    } else {
      LoadBlockListed(registers, mem, list, k + 1, start, up, j);
    }
  }

  /** `TODO("reg 15 psrForceUser arm stm")`: a user-bank LDM that lists r15 throws. */
  predicate LdmUnimplemented(instr: bv32)
  {
    Bit(instr, 22) && Bit(instr, 15)
  }

  /** The loads of `armLdm` into the registers `u` shows; an empty list loads pc alone and moves the address 0x40. */
  function LdmWalk(u: Machine, mem: Mem, instr: bv32, start: bv32): (w: Walked)
    requires Wf(u)
    ensures |w.registers| == 16
  {
    var up := ArmTransfer.Up(instr);
    if EmptyList(instr) then Walked(u.registers[15 := Read32(mem, start)], Shift(start, 0x40, up))
    else
      var list := ListOf(instr);
      Walked(LoadBlock(u.registers, mem, list, 0, start, up), Slot(start, list, 16, up))
  }

  /**
   * `armLdm` as written: every load is a plain `registers[it] = read32(addr)`,
   * so loading r15 moves pc without refilling the pipeline. Then the mode
   * back, and with bit 21 the end address (a step back when pre-indexed)
   * into the base unless the base was loaded.
   */
  function LdmAsWritten(m: Machine, mem: Mem, instr: bv32): (r: Result<Machine>)
    requires Wf(m)
    ensures r.Ok? ==> Wf(r.value)
  {
    if LdmUnimplemented(instr) then Err("An operation is not implemented: reg 15 psrForceUser arm stm")
    else
      var base := ArmTransfer.BaseRegister(instr);
      var up := ArmTransfer.Up(instr);
      var u := UserBank(m, instr);
      var w := LdmWalk(u, mem, instr, Start(m.registers[base], instr));
      var loaded := Restored(u.(registers := w.registers), instr, m.mode);
      Ok(if Bit(instr, 21) && !Bit(instr, base) then WriteRegister(loaded, base, LdmEnd(w.address, instr)) else loaded)
  }

  /** LDM loads r15 when it is listed or the list is empty. */
  predicate LoadsPc(instr: bv32)
  {
    Bit(instr, 15) || EmptyList(instr)
  }

  /** `armLdm` with the load of r15 refilling the pipeline, as `setRegister(15, …)` does. */
  function Ldm(m: Machine, mem: Mem, instr: bv32): (r: Result<Machine>)
    requires Wf(m)
    ensures r.Ok? ==> Wf(r.value)
  {
    match LdmAsWritten(m, mem, instr)
    case Err(e) => Err(e)
    case Ok(l) => Ok(if LoadsPc(instr) then Refill(l, mem) else l)
  }

  /** LDM fails exactly for the unimplemented user-bank load of r15. */
  lemma LdmFails(m: Machine, mem: Mem, instr: bv32)
    requires Wf(m)
    ensures Ldm(m, mem, instr).Err? <==> LdmUnimplemented(instr)
  {
  }

  /** The end address `armLdm` writes back: a step back after a pre-indexed walk. */
  function LdmEnd(address: bv32, instr: bv32): bv32
  {
    if ArmTransfer.Pre(instr) then Step(address, !ArmTransfer.Up(instr)) else address
  }

  /** Without bit 22 no bank moves: LDM as written is the walk's registers, with the base written back. */
  lemma LdmPlain(m: Machine, mem: Mem, instr: bv32)
    requires Wf(m) && !Bit(instr, 22)
    ensures var base := ArmTransfer.BaseRegister(instr);
      var w := LdmWalk(m, mem, instr, Start(m.registers[base], instr));
      LdmAsWritten(m, mem, instr) ==
        Ok(m.(registers := if Bit(instr, 21) && !Bit(instr, base) then w.registers[base := LdmEnd(w.address, instr)] else w.registers))
  {
  }

  /** The refill after a load of r15 touches no register below it. */
  lemma LdmLow(m: Machine, mem: Mem, instr: bv32, j: nat)
    requires Wf(m) && !LdmUnimplemented(instr) && j < 15
    ensures Ldm(m, mem, instr).value.registers[j] == LdmAsWritten(m, mem, instr).value.registers[j]
  {
    var l := LdmAsWritten(m, mem, instr).value;
    if LoadsPc(instr) {
      RefillKeepsLow(l, mem, j);
    }
  }

  /** LDM without bit 22 loads each listed register j from the slot of its position. */
  lemma LdmLoads(m: Machine, mem: Mem, instr: bv32, j: nat)
    requires Wf(m) && j < 15 && Bit(instr, j) && !Bit(instr, 22)
    ensures var base := ArmTransfer.BaseRegister(instr); var up := ArmTransfer.Up(instr);
      Ldm(m, mem, instr).value.registers[j] == Read32(mem, Offset(Start(m.registers[base], instr), Position(ListOf(instr), j, up), up))
  {
    LdmWalkLoads(m, mem, instr, Start(m.registers[ArmTransfer.BaseRegister(instr)], instr), j);
    LdmPlain(m, mem, instr);
    LdmLow(m, mem, instr, j);
  }

  /** The walk loads listed register j from the slot of its position. */
  lemma LdmWalkLoads(m: Machine, mem: Mem, instr: bv32, start: bv32, j: nat)
    requires Wf(m) && j < 16 && Bit(instr, j)
    ensures var up := ArmTransfer.Up(instr);
      LdmWalk(m, mem, instr, start).registers[j] == Read32(mem, Offset(start, Position(ListOf(instr), j, up), up))
  {
    var up := ArmTransfer.Up(instr);
    var list := ListOf(instr);
    assert !EmptyList(instr) by {
      CountIncreases(list, j, 16);
    }
    var k := Order(j, up);
    OrderTwice(j, up);
    SeenPosition(list, j, up);
    LoadBlockListed(m.registers, mem, list, 0, start, up, k);
  }

  lemma RefillKeepsLow(m: Machine, mem: Mem, j: nat)
    requires Wf(m) && j < 15
    ensures Refill(m, mem).registers[j] == m.registers[j]
  {
    if m.state == Arm {
      ArmRefillKeeps(m, mem);
      assert ArmRefill(m, mem).registers[..15][j] == m.registers[..15][j];
    } else {
      ThumbRefillKeeps(m, mem);
      assert ThumbRefill(m, mem).registers[..15][j] == m.registers[..15][j];
    }
  }

  /** Without bit 22, a register LDM neither lists nor writes back keeps its value. */
  lemma LdmKeeps(m: Machine, mem: Mem, instr: bv32, j: nat)
    requires Wf(m) && j < 15 && !Bit(instr, j) && !Bit(instr, 22)
    requires !(Bit(instr, 21) && j == ArmTransfer.BaseRegister(instr))
    ensures Ldm(m, mem, instr).value.registers[j] == m.registers[j]
  {
    LdmWalkKeeps(m, mem, instr, Start(m.registers[ArmTransfer.BaseRegister(instr)], instr), j);
    LdmPlain(m, mem, instr);
    LdmLow(m, mem, instr, j);
  }

  /** The walk leaves every unlisted register below r15 alone. */
  lemma LdmWalkKeeps(m: Machine, mem: Mem, instr: bv32, start: bv32, j: nat)
    requires Wf(m) && j < 15 && !Bit(instr, j)
    ensures LdmWalk(m, mem, instr, start).registers[j] == m.registers[j]
  {
    if !EmptyList(instr) {
      LoadBlockKeeps(m.registers, mem, ListOf(instr), 0, start, ArmTransfer.Up(instr), j);
    }
  }

  /** With bit 21 and the base not listed, the base ends one word per listed register (0x40 bytes for none) past its old value. */
  lemma LdmWritesBack(m: Machine, mem: Mem, instr: bv32)
    requires Wf(m) && Bit(instr, 21) && !Bit(instr, 22)
    requires var base := ArmTransfer.BaseRegister(instr); base != 15 && !Bit(instr, base)
    ensures var base := ArmTransfer.BaseRegister(instr);
      var n := if EmptyList(instr) then 16 else Count(ListOf(instr), 16);
      Ldm(m, mem, instr).value.registers[base] == Offset(m.registers[base], n, ArmTransfer.Up(instr))
  {
    var base := ArmTransfer.BaseRegister(instr);
    var up := ArmTransfer.Up(instr);
    if EmptyList(instr) {
      EmptyLoadEnd(m.registers[base], instr);
    } else {
      SeenAll(ListOf(instr), up);
      BlockEnd(m.registers[base], instr, Count(ListOf(instr), 16));
    }
    LdmPlain(m, mem, instr);
    LdmLow(m, mem, instr, base);
  }

  /** LDM into pc (in ARM state) branches: pc lands one word past the loaded word aligned down and the pipeline holds the words there. */
  lemma LdmPcBranches(m: Machine, mem: Mem, instr: bv32)
    requires Wf(m) && m.state == Arm && LoadsPc(instr) && !LdmUnimplemented(instr)
    ensures var l := LdmAsWritten(m, mem, instr).value; var r := Ldm(m, mem, instr).value;
      Pc(r) == RefillPc(Arm, Pc(l)) && Coherent(r, mem)
  {
    var l := LdmAsWritten(m, mem, instr).value;
    assert l.state == m.state by {
      LdmKeepsState(m, mem, instr);
    }
    RefillLandsAt(l, mem);
    ArmRefillFetches(l, mem);
  }

  /** The walk and the bank switches leave the ARM/THUMB state alone. */
  lemma LdmKeepsState(m: Machine, mem: Mem, instr: bv32)
    requires Wf(m) && !LdmUnimplemented(instr)
    ensures LdmAsWritten(m, mem, instr).value.state == m.state
  {
    LdmCore(m, mem, instr);
  }

  /** As written, LDM into pc leaves the pipeline as it was: the next instruction executed is the one fetched before the load. */
  lemma LdmAsWrittenKeepsPipeline(m: Machine, mem: Mem, instr: bv32)
    requires Wf(m) && LoadsPc(instr) && !LdmUnimplemented(instr)
    ensures LdmAsWritten(m, mem, instr).value.pipeline == m.pipeline
  {
    LdmCore(m, mem, instr);
  }

  /** The state and the pipeline, which neither the loads nor the bank switches touch. */
  predicate SameCore(a: Machine, b: Machine)
  {
    a.state == b.state && a.pipeline == b.pipeline
  }

  lemma LdmCore(m: Machine, mem: Mem, instr: bv32)
    requires Wf(m) && !LdmUnimplemented(instr)
    ensures SameCore(LdmAsWritten(m, mem, instr).value, m)
  {
    var u := UserBank(m, instr);
    UserBankCore(m, instr);
    var w := LdmWalk(u, mem, instr, Start(m.registers[ArmTransfer.BaseRegister(instr)], instr));
    RestoredCore(u.(registers := w.registers), instr, m.mode);
  }

  lemma UserBankCore(m: Machine, instr: bv32)
    requires Wf(m)
    ensures SameCore(UserBank(m, instr), m)
  {
    if Bit(instr, 22) {
      SwitchKeepsRest(m, User);
    }
  }

  lemma RestoredCore(m: Machine, instr: bv32, mode: Mode)
    requires Wf(m)
    ensures SameCore(Restored(m, instr, mode), m)
  {
    if Bit(instr, 22) {
      SwitchKeepsRest(m, mode);
    }
  }

  /* The processor's handlers. */

  /** The store walk of `armStm`, over the registers as they stand. */
  method RunStoreBlock(cpu: Cpu, instr: bv32, start: bv32) returns (address: bv32, slot: Option<bv32>)
    requires cpu.Valid()
    modifies cpu.bus
    ensures var list, up := ListOf(instr), ArmTransfer.Up(instr);
      var s := StoreBlock(old(cpu.bus.memory), cpu.registers, list, 0, start, up, ArmTransfer.BaseRegister(instr), None);
      cpu.bus.memory == s.memory && address == Slot(start, list, 16, up) && slot == s.slot
  {
    var values := cpu.registers;
    ghost var list := ListOf(instr);
    ghost var whole := StoreBlock(cpu.bus.memory, values, list, 0, start, ArmTransfer.Up(instr), ArmTransfer.BaseRegister(instr), None);
    address, slot := start, None;
    for k := 0 to 16
      invariant address == Slot(start, list, k, ArmTransfer.Up(instr))
      invariant StoreBlock(cpu.bus.memory, values, list, k, start, ArmTransfer.Up(instr), ArmTransfer.BaseRegister(instr), slot) == whole
    {
      address, slot := RunStoreStep(cpu.bus, values, instr, k, start, address, slot);
    }
  }

  /** Step k of the store walk: a listed register is written at the running address, which then moves a word. */
  method RunStoreStep(bus: Bus, values: seq<bv32>, instr: bv32, k: nat, start: bv32, address: bv32, slot: Option<bv32>)
    returns (next: bv32, noted: Option<bv32>)
    requires |values| == 16 && k < 16 && address == Slot(start, ListOf(instr), k, ArmTransfer.Up(instr))
    modifies bus
    ensures next == Slot(start, ListOf(instr), k + 1, ArmTransfer.Up(instr))
    ensures var list, up, base := ListOf(instr), ArmTransfer.Up(instr), ArmTransfer.BaseRegister(instr);
      StoreBlock(bus.memory, values, list, k + 1, start, up, base, noted) == StoreBlock(old(bus.memory), values, list, k, start, up, base, slot)
  {
    var up := ArmTransfer.Up(instr);
    SlotNext(start, ListOf(instr), k, up);
    var r := Order(k, up);
    next, noted := address, slot;
    if Bit(instr, r) {
      bus.Write32(address, values[r]);
      if r == ArmTransfer.BaseRegister(instr) {
        noted := Some(address);
      }
      next := Step(address, up);
    }
  }

  method RunStm(cpu: Cpu, instr: bv32)
    requires cpu.Valid()
    modifies cpu, cpu.bus
    ensures cpu.Valid()
    ensures cpu.View() == Stm(old(cpu.View()), old(cpu.bus.memory), instr).machine
    ensures cpu.bus.memory == Stm(old(cpu.View()), old(cpu.bus.memory), instr).memory
  {
    var address, slot := RunStmStores(cpu, instr);
    RunStmWriteBack(cpu, instr, Block(cpu.bus.memory, address, slot));
  }

  /** The stages of `armStm` before the writeback: pc ahead, user bank, stores, mode restored, pc back. */
  method RunStmStores(cpu: Cpu, instr: bv32) returns (address: bv32, slot: Option<bv32>)
    requires cpu.Valid()
    modifies cpu, cpu.bus
    ensures cpu.Valid()
    ensures var m := old(cpu.View());
      var b := StmWalk(m, old(cpu.bus.memory), instr);
      cpu.View() == ArmDataProcessing.Behind(Restored(UserBank(ArmDataProcessing.Ahead(m), instr), instr, m.mode))
      && cpu.bus.memory == b.memory && address == b.address && slot == b.slot
  {
    ghost var m := cpu.View();
    ghost var mem := cpu.bus.memory;
    var modeCopy := cpu.mode;
    ArmTransfer.RunAhead(cpu);
    ghost var a := cpu.View();
    var start := Start(cpu.registers[ArmTransfer.BaseRegister(instr)], instr);
    if Bit(instr, 22) {
      cpu.SetCpuMode(User);
    }
    ghost var u := cpu.View();
    assert u == UserBank(a, instr);
    address, slot := RunStmBlock(cpu, instr, start);
    if Bit(instr, 22) {
      cpu.SetCpuMode(modeCopy);
    }
    cpu.registers := cpu.registers[15 := Minus(cpu.registers[15], 4)];
  }

  /** The stores of `armStm` from `start`: pc alone for an empty list, otherwise the listed registers. */
  method RunStmBlock(cpu: Cpu, instr: bv32, start: bv32) returns (address: bv32, slot: Option<bv32>)
    requires cpu.Valid()
    modifies cpu.bus
    ensures var b := StmBlock(cpu.View(), old(cpu.bus.memory), instr, start);
      cpu.bus.memory == b.memory && address == b.address && slot == b.slot
  {
    if EmptyList(instr) {
      var b := EmptyStore(cpu.bus.memory, cpu.registers[15], start, instr);
      cpu.bus.Write32(if ArmTransfer.Up(instr) then start else Minus(start, 0x3C), cpu.registers[15]);
      address, slot := b.address, b.slot;
    } else {
      address, slot := RunStoreBlock(cpu, instr, start);
    }
  }

  /** The writeback of `armStm`: the base takes the end address, which also overwrites the base's own slot unless the base was lowest. */
  method RunStmWriteBack(cpu: Cpu, instr: bv32, b: Block)
    requires cpu.Valid() && cpu.bus.memory == b.memory
    modifies cpu, cpu.bus
    ensures cpu.Valid()
    ensures var base := ArmTransfer.BaseRegister(instr);
      cpu.View() == (if Bit(instr, 21) then WriteRegister(old(cpu.View()), base, StmEnd(b, instr)) else old(cpu.View()))
      && cpu.bus.memory == if Bit(instr, 21) && b.slot.Some? && Count(ListOf(instr), base) != 0 then WithWord(b.memory, b.slot.value, StmEnd(b, instr)) else b.memory
  {
    if Bit(instr, 21) {
      RunSlotWrite(cpu.bus, instr, b);
      cpu.registers := cpu.registers[ArmTransfer.BaseRegister(instr) := StmEnd(b, instr)];
    }
  }

  /** The second store of the base that `armStm` makes when the base is listed but not lowest. */
  method RunSlotWrite(bus: Bus, instr: bv32, b: Block)
    requires bus.memory == b.memory
    modifies bus
    ensures bus.memory == if b.slot.Some? && Count(ListOf(instr), ArmTransfer.BaseRegister(instr)) != 0 then WithWord(b.memory, b.slot.value, StmEnd(b, instr)) else b.memory
  {
    if b.slot.Some? && Count(ListOf(instr), ArmTransfer.BaseRegister(instr)) != 0 {
      bus.Write32(b.slot.value, StmEnd(b, instr));
    }
  }

  /** The load walk of `armLdm`, into the registers as they stand. */
  method RunLoadBlock(cpu: Cpu, instr: bv32, start: bv32) returns (address: bv32)
    requires cpu.Valid()
    modifies cpu
    ensures cpu.Valid()
    ensures var list, up := ListOf(instr), ArmTransfer.Up(instr);
      cpu.View() == old(cpu.View()).(registers := LoadBlock(old(cpu.registers), cpu.bus.memory, list, 0, start, up))
      && address == Slot(start, list, 16, up)
  {
    var loaded;
    loaded, address := LoadWalk(cpu.bus, cpu.registers, instr, start);
    cpu.registers := loaded;
  }

  /** The loop of the load walk, over a copy of the register file. */
  method LoadWalk(bus: Bus, registers: seq<bv32>, instr: bv32, start: bv32) returns (loaded: seq<bv32>, address: bv32)
    requires |registers| == 16
    ensures var list, up := ListOf(instr), ArmTransfer.Up(instr);
      loaded == LoadBlock(registers, bus.memory, list, 0, start, up) && address == Slot(start, list, 16, up)
  {
    ghost var list := ListOf(instr);
    loaded, address := registers, start;
    for k := 0 to 16
      invariant |loaded| == 16
      invariant address == Slot(start, list, k, ArmTransfer.Up(instr))
      invariant LoadBlock(loaded, bus.memory, list, k, start, ArmTransfer.Up(instr)) == LoadBlock(registers, bus.memory, list, 0, start, ArmTransfer.Up(instr))
    {
      loaded, address := RunLoadStep(bus, loaded, instr, k, start, address);
    }
  }

  /** Step k of the load walk: a listed register is read from the running address, which then moves a word. */
  method RunLoadStep(bus: Bus, registers: seq<bv32>, instr: bv32, k: nat, start: bv32, address: bv32)
    returns (loaded: seq<bv32>, next: bv32)
    requires |registers| == 16 && k < 16 && address == Slot(start, ListOf(instr), k, ArmTransfer.Up(instr))
    ensures |loaded| == 16 && next == Slot(start, ListOf(instr), k + 1, ArmTransfer.Up(instr))
    ensures var list, up := ListOf(instr), ArmTransfer.Up(instr);
      LoadBlock(loaded, bus.memory, list, k + 1, start, up) == LoadBlock(registers, bus.memory, list, k, start, up)
  {
    var up := ArmTransfer.Up(instr);
    SlotNext(start, ListOf(instr), k, up);
    var r := Order(k, up);
    loaded, next := registers, address;
    if Bit(instr, r) {
      loaded := registers[r := Read32(bus.memory, address)];
      next := Step(address, up);
    }
  }

  /** `armLdm` with the pipeline refilled after a load of r15; false where the source throws. */
  method RunLdm(cpu: Cpu, instr: bv32) returns (ok: bool)
    requires cpu.Valid()
    modifies cpu
    ensures ok == Ldm(old(cpu.View()), cpu.bus.memory, instr).Ok?
    ensures cpu.Valid()
    ensures ok ==> cpu.View() == Ldm(old(cpu.View()), cpu.bus.memory, instr).value
  {
    if LdmUnimplemented(instr) {
      return false;
    }
    RunLdmAsWritten(cpu, instr);
    if LoadsPc(instr) {
      if cpu.state == Arm {
        cpu.ArmRefill();
      } else {
        cpu.ThumbRefill();
      }
    }
    ok := true;
  }

  /** `armLdm` as the source has it, without a refill after a load of r15. */
  method RunLdmAsWritten(cpu: Cpu, instr: bv32)
    requires cpu.Valid() && !LdmUnimplemented(instr)
    modifies cpu
    ensures cpu.Valid()
    ensures cpu.View() == LdmAsWritten(old(cpu.View()), cpu.bus.memory, instr).value
  {
    ghost var m := cpu.View();
    var base := ArmTransfer.BaseRegister(instr);
    var address := RunLdmLoads(cpu, instr);
    ghost var u := UserBank(m, instr);
    ghost var w := LdmWalk(u, cpu.bus.memory, instr, Start(m.registers[base], instr));
    LdmAsWrittenIs(m, cpu.bus.memory, instr, u, w, cpu.View());
    RunLdmWriteBack(cpu, instr, address);
  }

  /** The writeback of `armLdm`: the final address, stepped back once for pre-indexing, unless the base was loaded. */
  method RunLdmWriteBack(cpu: Cpu, instr: bv32, address: bv32)
    requires cpu.Valid()
    modifies cpu
    ensures cpu.Valid()
    ensures var base := ArmTransfer.BaseRegister(instr);
      cpu.View() == if Bit(instr, 21) && !Bit(instr, base) then WriteRegister(old(cpu.View()), base, LdmEnd(address, instr)) else old(cpu.View())
  {
    var base := ArmTransfer.BaseRegister(instr);
    var end := address;
    if Bit(instr, 21) {
      if ArmTransfer.Pre(instr) {
        end := Step(address, !ArmTransfer.Up(instr));
      }
      if !Bit(instr, base) {
        cpu.registers := cpu.registers[base := end];
      }
    }
  }

  /** The stages of `armLdm` before the writeback: user bank, loads, mode restored. */
  method RunLdmLoads(cpu: Cpu, instr: bv32) returns (address: bv32)
    requires cpu.Valid()
    modifies cpu
    ensures cpu.Valid()
    ensures var m := old(cpu.View());
      var u := UserBank(m, instr);
      var w := LdmWalk(u, cpu.bus.memory, instr, Start(m.registers[ArmTransfer.BaseRegister(instr)], instr));
      cpu.View() == Restored(u.(registers := w.registers), instr, m.mode) && address == w.address
  {
    ghost var m := cpu.View();
    var modeCopy := cpu.mode;
    var start := Start(cpu.registers[ArmTransfer.BaseRegister(instr)], instr);
    if Bit(instr, 22) {
      cpu.SetCpuMode(User);
    }
    ghost var u := cpu.View();
    assert u == UserBank(m, instr);
    address := RunLdmWalk(cpu, instr, start);
    if Bit(instr, 22) {
      cpu.SetCpuMode(modeCopy);
    }
  }

  /** `armLdm` as written, from its user-bank, walk and restored stages. */
  lemma LdmAsWrittenIs(m: Machine, mem: Mem, instr: bv32, u: Machine, w: Walked, loaded: Machine)
    requires Wf(m) && !LdmUnimplemented(instr) && u == UserBank(m, instr)
    requires w == LdmWalk(u, mem, instr, Start(m.registers[ArmTransfer.BaseRegister(instr)], instr))
    requires loaded == Restored(u.(registers := w.registers), instr, m.mode)
    ensures var base := ArmTransfer.BaseRegister(instr);
      LdmAsWritten(m, mem, instr) == Ok(if Bit(instr, 21) && !Bit(instr, base) then WriteRegister(loaded, base, LdmEnd(w.address, instr)) else loaded)
  {
  }

  /** The loads of `armLdm`: r15 alone for an empty list, otherwise the listed registers. */
  method RunLdmWalk(cpu: Cpu, instr: bv32, start: bv32) returns (address: bv32)
    requires cpu.Valid()
    modifies cpu
    ensures cpu.Valid()
    ensures var w := LdmWalk(old(cpu.View()), cpu.bus.memory, instr, start);
      cpu.View() == old(cpu.View()).(registers := w.registers) && address == w.address
  {
    if EmptyList(instr) {
      cpu.registers := cpu.registers[15 := Read32(cpu.bus.memory, start)];
      address := Shift(start, 0x40, ArmTransfer.Up(instr));
    } else {
      address := RunLoadBlock(cpu, instr, start);
    }
  }
}
