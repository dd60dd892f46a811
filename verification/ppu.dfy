/**
 * The PPU's scanline timing and compositing (ppu/PPU.kt). Each visible line
 * is an HDraw period (960 cycles) followed by an HBlank period (272
 * cycles); lines 160-227 are VBlank lines of 1232 cycles. The three
 * scheduler tasks `hdraw`, `hblank` and `vblank` advance the line counter,
 * keep the DISPSTAT status flags and raise the HBlank, VBlank and VCount
 * interrupts. Per pixel, the PPU picks the window the pixel lies in and
 * mixes the four background line buffers with the sprite line buffers.
 *
 * The timing steps are specified by functions on a `Timing` value; the
 * `Ppu` class runs them against the scheduler and the interrupt request
 * register.
 */
module PixelProcessing {
  import opened Wrappers
  import Interrupts
  import Scheduling

  const HDrawCycles: int := 960
  const HBlankCycles: int := 272
  const ScanlineCycles: int := HDrawCycles + HBlankCycles
  const VDrawHeight: int := 160
  const VBlankHeight: int := 68
  const TotalHeight: int := VDrawHeight + VBlankHeight

  /** `DisplayStatFlag`: the DISPSTAT flag bits. */
  datatype StatFlag = VBlankFlag | HBlankFlag | VCounterFlag | VBlankIrq | HBlankIrq | VCounterIrq

  function MaskOf(f: StatFlag): (m: bv32)
  {
    match f
    case VBlankFlag => 0x1
    case HBlankFlag => 0x2
    case VCounterFlag => 0x4
    case VBlankIrq => 0x8
    case HBlankIrq => 0x10
    case VCounterIrq => 0x20
  }

  /** `displayStat[flag]`. */
  predicate Has(flags: bv32, f: StatFlag)
  {
    flags & MaskOf(f) != 0
  }

  /** `displayStat[flag] = value`: clear the flag's bit, then set it if `value`. */
  function With(flags: bv32, f: StatFlag, value: bool): (r: bv32)
  {
    var cleared := flags & !MaskOf(f);
    if value then cleared | MaskOf(f) else cleared
  }

  /** Setting a flag makes it read back as given and leaves every other flag as it was. */
  lemma WithReadsBack(flags: bv32, f: StatFlag, value: bool, g: StatFlag)
    ensures Has(With(flags, f, value), g) == if f == g then value else Has(flags, g)
  {
    if f == g {
      SetBit(flags, MaskOf(f), value);
    } else {
      MasksDisjoint(f, g);
      KeepBit(flags, MaskOf(f), value, MaskOf(g));
    }
  }

  lemma MasksDisjoint(f: StatFlag, g: StatFlag)
    requires f != g
    ensures MaskOf(f) & MaskOf(g) == 0 && MaskOf(g) != 0
  {
  }

  lemma SetBit(flags: bv32, m: bv32, value: bool)
    requires m != 0
    ensures var r := if value then (flags & !m) | m else flags & !m;
      (r & m != 0) == value
  {
  }

  lemma KeepBit(flags: bv32, m: bv32, value: bool, n: bv32)
    requires m & n == 0
    ensures var r := if value then (flags & !m) | m else flags & !m;
      r & n == flags & n
  {
  }

  /* Windows. */

  /** The window indices of `getCurrentWindow` and rows of the mixing table. */
  const Win0: nat := 0
  const Win1: nat := 1
  const Outside: nat := 2
  const ObjWindow: nat := 3

  /** A window register: `left`/`top` in the high byte, `right`/`bottom` in the low byte. */
  function High(v: nat): nat { v / 256 }
  function Low(v: nat): nat { v % 256 }

  /** A register written as `first << 8 | last` yields those two bounds. */
  lemma DimensionFields(first: nat, last: nat)
    requires first < 256 && last < 256
    ensures High(first * 256 + last) == first && Low(first * 256 + last) == last
  {
  }

  /** One rectangular window: its DISPCNT enable bit and its two dimension registers. */
  datatype Window = Window(enabled: bool, horizontal: nat, vertical: nat)

  /** The window is enabled and (`x`, `ly`) lies within its inclusive bounds. */
  predicate Covers(w: Window, ly: int, x: int)
  {
    w.enabled && High(w.vertical) <= ly <= Low(w.vertical) && High(w.horizontal) <= x <= Low(w.horizontal)
  }

  /** `getCurrentWindow`: window 0, then window 1, then the object window, else outside. */
  function CurrentWindow(win0: Window, win1: Window, objWindow: bool, objPixel: int, ly: int, x: int): (r: nat)
  {
    if Covers(win0, ly, x) then Win0
    else if Covers(win1, ly, x) then Win1
    else if objWindow && objPixel != 0 then ObjWindow
    else Outside
  }

  /**
   * The windows nest by priority: window 0 wins wherever it covers, window 1
   * wherever 0 does not, the object window only outside both, and a pixel
   * no window claims is outside.
   */
  lemma WindowPriority(win0: Window, win1: Window, objWindow: bool, objPixel: int, ly: int, x: int)
    ensures var r := CurrentWindow(win0, win1, objWindow, objPixel, ly, x);
      r < 4 &&
      (r == Win0 <==> Covers(win0, ly, x)) &&
      (r == Win1 <==> !Covers(win0, ly, x) && Covers(win1, ly, x)) &&
      (r == ObjWindow <==> !Covers(win0, ly, x) && !Covers(win1, ly, x) && objWindow && objPixel != 0) &&
      (r == Outside <==> !Covers(win0, ly, x) && !Covers(win1, ly, x) && !(objWindow && objPixel != 0))
  {
  }

  /* Mixing. */

  /** `LUT_OBJ`: the column of the mixing table that enables sprites. */
  const LutObj: nat := 4

  /** Level `k` shows something: its enabled, nonzero background, or an enabled, nonzero sprite. */
  predicate Shows(enabled: seq<bool>, bg: seq<int>, obj: seq<int>, k: nat)
    requires |enabled| == 6 && |bg| == 4 && |obj| == 4 && k < 4
  {
    (enabled[k] && bg[k] != 0) || (enabled[LutObj] && obj[k] != 0)
  }

  /** The color at a showing level: the sprite if enabled and present, else the background. */
  function LevelColor(enabled: seq<bool>, bg: seq<int>, obj: seq<int>, k: nat): (c: int)
    requires |enabled| == 6 && |bg| == 4 && |obj| == 4 && k < 4
    ensures Shows(enabled, bg, obj, k) ==> c != 0
  {
    if enabled[LutObj] && obj[k] != 0 then obj[k] else bg[k]
  }

  /** The first level from `k` that shows something. */
  function FirstLevel(enabled: seq<bool>, bg: seq<int>, obj: seq<int>, k: nat): (r: Option<nat>)
    requires |enabled| == 6 && |bg| == 4 && |obj| == 4 && k <= 4
    ensures r.Some? ==> k <= r.value < 4
    decreases 4 - k
  {
    if k == 4 then None
    else if Shows(enabled, bg, obj, k) then Some(k)
    else FirstLevel(enabled, bg, obj, k + 1)
  }

  /** `mixBuffers`' result for one pixel: the first showing level's color, or the backdrop. */
  function Mixed(enabled: seq<bool>, bg: seq<int>, obj: seq<int>, backdrop: int): (c: int)
    requires |enabled| == 6 && |bg| == 4 && |obj| == 4
  {
    match FirstLevel(enabled, bg, obj, 0)
    case None => backdrop
    case Some(k) => LevelColor(enabled, bg, obj, k)
  }

  /** `FirstLevel` finds the lowest showing level, and none only when no level from `k` shows. */
  lemma {:induction false} FirstLevelIsLowest(enabled: seq<bool>, bg: seq<int>, obj: seq<int>, k: nat)
    requires |enabled| == 6 && |bg| == 4 && |obj| == 4 && k <= 4
    ensures FirstLevel(enabled, bg, obj, k).Some? ==>
      var i := FirstLevel(enabled, bg, obj, k).value;
      Shows(enabled, bg, obj, i) && forall j :: k <= j < i ==> !Shows(enabled, bg, obj, j)
    ensures FirstLevel(enabled, bg, obj, k).None? <==> forall j :: k <= j < 4 ==> !Shows(enabled, bg, obj, j)
    decreases 4 - k
  {
    if k < 4 && !Shows(enabled, bg, obj, k) {
      FirstLevelIsLowest(enabled, bg, obj, k + 1);
    }
  }

  /**
   * The mixed pixel is the backdrop exactly when no level shows; otherwise
   * it is the nonzero color of the lowest showing level, where an enabled
   * sprite on that level beats its background.
   */
  lemma MixedIsFrontmost(enabled: seq<bool>, bg: seq<int>, obj: seq<int>, backdrop: int)
    requires |enabled| == 6 && |bg| == 4 && |obj| == 4
    ensures (forall j :: 0 <= j < 4 ==> !Shows(enabled, bg, obj, j)) ==> Mixed(enabled, bg, obj, backdrop) == backdrop
    ensures forall k :: 0 <= k < 4 && Shows(enabled, bg, obj, k) && (forall j :: 0 <= j < k ==> !Shows(enabled, bg, obj, j)) ==>
      Mixed(enabled, bg, obj, backdrop) == LevelColor(enabled, bg, obj, k) && Mixed(enabled, bg, obj, backdrop) != 0
  {
    FirstLevelIsLowest(enabled, bg, obj, 0);
  }

  /* Scanline timing. */

  /** The line counter and DISPSTAT: `vcount.ly`, `displayStat.flags` and `displayStat.lyc`. */
  datatype Timing = Timing(ly: int, flags: bv32, lyc: int)

  /** After a timing task: the new timing, the new IR value and the task scheduled next in the same slot. */
  datatype Line = Line(timing: Timing, ir: bv32, next: Scheduling.Task, after: int)

  /** `ir[flag] = true`. */
  function Raise(ir: bv32, flag: Interrupts.Interrupt): (r: bv32)
  {
    Interrupts.WithFlag(ir, flag, true)
  }

  /** `checkVCounter`: VCOUNTER follows `ly == lyc`; the IRQ fires only on the transition into a match. */
  function VCounterChecked(t: Timing, ir: bv32): (r: (Timing, bv32))
  {
    var vc := t.ly == t.lyc;
    var ir' := if vc && Has(t.flags, VCounterIrq) && !Has(t.flags, VCounterFlag) then Raise(ir, Interrupts.VCount) else ir;
    (t.(flags := With(t.flags, VCounterFlag, vc)), ir')
  }

  /** The VCount IRQ is raised exactly on a new match with the IRQ enabled, and VCOUNTER then reads `ly == lyc`. */
  lemma VCounterOnTransition(t: Timing, ir: bv32)
    ensures Has(VCounterChecked(t, ir).0.flags, VCounterFlag) == (t.ly == t.lyc)
    ensures VCounterChecked(t, ir).1 != ir ==> t.ly == t.lyc && Has(t.flags, VCounterIrq) && !Has(t.flags, VCounterFlag)
    ensures t.ly == t.lyc && Has(t.flags, VCounterIrq) && !Has(t.flags, VCounterFlag) ==>
      VCounterChecked(t, ir).1 == Raise(ir, Interrupts.VCount)
    ensures VCounterChecked(t, ir).0.ly == t.ly && VCounterChecked(t, ir).0.lyc == t.lyc
  {
    WithReadsBack(t.flags, VCounterFlag, t.ly == t.lyc, VCounterFlag);
  }

  /** `hdraw` (rendering aside): HBLANK is set, the HBlank IRQ raised if enabled, and `hblank` follows in 272 cycles. */
  function HDrawStep(t: Timing, ir: bv32): (r: Line)
  {
    var flags := With(t.flags, HBlankFlag, true);
    Line(t.(flags := flags), if Has(flags, HBlankIrq) then Raise(ir, Interrupts.HBlank) else ir,
      Scheduling.HBlank, HBlankCycles)
  }

  /** `hdraw` raises the HBlank IRQ exactly when it is enabled, and changes no other DISPSTAT flag than HBLANK. */
  lemma HDrawRaisesWhenEnabled(t: Timing, ir: bv32, g: StatFlag)
    ensures HDrawStep(t, ir).ir == if Has(t.flags, HBlankIrq) then Raise(ir, Interrupts.HBlank) else ir
    ensures g != HBlankFlag ==> Has(HDrawStep(t, ir).timing.flags, g) == Has(t.flags, g)
  {
    WithReadsBack(t.flags, HBlankFlag, true, HBlankIrq);
    WithReadsBack(t.flags, HBlankFlag, true, g);
  }

  /**
   * `hblank` as written: the next line; from line 160 on VBLANK replaces
   * HBLANK and `vblank` follows a scanline later, before that `hdraw`
   * follows with HBLANK still set.
   */
  function HBlankStepAsWritten(t: Timing, ir: bv32): (r: Line)
  {
    var (t1, ir1) := VCounterChecked(t.(ly := t.ly + 1), ir);
    if t1.ly >= VDrawHeight then
      var flags := With(With(t1.flags, HBlankFlag, false), VBlankFlag, true);
      Line(t1.(flags := flags), if Has(flags, VBlankIrq) then Raise(ir1, Interrupts.VBlank) else ir1,
        Scheduling.VBlank, ScanlineCycles)
    else Line(t1, ir1, Scheduling.HDraw, HDrawCycles)
  }

  /** `hblank` with HBLANK cleared when the next line's HDraw begins, as on entry to VBlank. */
  function HBlankStep(t: Timing, ir: bv32): (r: Line)
  {
    var r := HBlankStepAsWritten(t, ir);
    if r.next == Scheduling.HDraw then r.(timing := r.timing.(flags := With(r.timing.flags, HBlankFlag, false))) else r
  }

  /** `vblank`: the next line, wrapping to 0 (and clearing VBLANK) at 228, then the VCount check. */
  function VBlankStep(t: Timing, ir: bv32): (r: Line)
  {
    var ly := t.ly + 1;
    var wraps := ly >= TotalHeight;
    var t1 := if wraps then t.(ly := 0, flags := With(t.flags, VBlankFlag, false)) else t.(ly := ly);
    var (t2, ir2) := VCounterChecked(t1, ir);
    Line(t2, ir2, if wraps then Scheduling.HDraw else Scheduling.VBlank, if wraps then HDrawCycles else ScanlineCycles)
  }

  /**
   * The phase invariant: before `hdraw` a visible line with neither blank
   * flag, before `hblank` a visible line with HBLANK, before `vblank` a
   * VBlank line with VBLANK.
   */
  predicate InPhase(t: Timing, next: Scheduling.Task)
  {
    match next
    case HDraw => 0 <= t.ly < VDrawHeight && !Has(t.flags, HBlankFlag) && !Has(t.flags, VBlankFlag)
    case HBlank => 0 <= t.ly < VDrawHeight && Has(t.flags, HBlankFlag) && !Has(t.flags, VBlankFlag)
    case VBlank => VDrawHeight <= t.ly < TotalHeight && !Has(t.flags, HBlankFlag) && Has(t.flags, VBlankFlag)
    case _ => false
  }

  /** `hdraw` keeps the phase and schedules `hblank`. */
  lemma HDrawInPhase(t: Timing, ir: bv32)
    requires InPhase(t, Scheduling.HDraw)
    ensures InPhase(HDrawStep(t, ir).timing, HDrawStep(t, ir).next) && HDrawStep(t, ir).next == Scheduling.HBlank
    ensures HDrawStep(t, ir).timing.ly == t.ly
  {
    WithReadsBack(t.flags, HBlankFlag, true, HBlankFlag);
    WithReadsBack(t.flags, HBlankFlag, true, VBlankFlag);
  }

  /** `hblank` advances the line and keeps the phase: `hdraw` follows below line 160, `vblank` from it on. */
  lemma HBlankInPhase(t: Timing, ir: bv32)
    requires InPhase(t, Scheduling.HBlank)
    ensures var r := HBlankStep(t, ir);
      InPhase(r.timing, r.next) && r.timing.ly == t.ly + 1 &&
      (r.next == Scheduling.VBlank <==> t.ly + 1 >= VDrawHeight)
  {
    var (t1, ir1) := VCounterChecked(t.(ly := t.ly + 1), ir);
    WithReadsBack(t.flags, VCounterFlag, t.ly + 1 == t.lyc, HBlankFlag);
    WithReadsBack(t.flags, VCounterFlag, t.ly + 1 == t.lyc, VBlankFlag);
    if t1.ly >= VDrawHeight {
      var f1 := With(t1.flags, HBlankFlag, false);
      WithReadsBack(t1.flags, HBlankFlag, false, VBlankFlag);
      WithReadsBack(f1, VBlankFlag, true, HBlankFlag);
      WithReadsBack(f1, VBlankFlag, true, VBlankFlag);
    } else {
      WithReadsBack(t1.flags, HBlankFlag, false, HBlankFlag);
      WithReadsBack(t1.flags, HBlankFlag, false, VBlankFlag);
    }
  }

  /** `vblank` advances the line, wrapping from 227 to 0 into `hdraw`, and keeps the phase. */
  lemma VBlankInPhase(t: Timing, ir: bv32)
    requires InPhase(t, Scheduling.VBlank)
    ensures var r := VBlankStep(t, ir);
      InPhase(r.timing, r.next) &&
      r.timing.ly == (if t.ly + 1 >= TotalHeight then 0 else t.ly + 1) &&
      (r.next == Scheduling.HDraw <==> t.ly + 1 >= TotalHeight)
  {
    var ly := t.ly + 1;
    if ly >= TotalHeight {
      var f := With(t.flags, VBlankFlag, false);
      WithReadsBack(t.flags, VBlankFlag, false, HBlankFlag);
      WithReadsBack(t.flags, VBlankFlag, false, VBlankFlag);
      WithReadsBack(f, VCounterFlag, 0 == t.lyc, HBlankFlag);
      WithReadsBack(f, VCounterFlag, 0 == t.lyc, VBlankFlag);
    } else {
      WithReadsBack(t.flags, VCounterFlag, ly == t.lyc, HBlankFlag);
      WithReadsBack(t.flags, VCounterFlag, ly == t.lyc, VBlankFlag);
    }
  }

  /** As written, after the HBlank of line 0 the next HDraw begins with HBLANK still set. */
  lemma HBlankFlagStaysSet()
    ensures InPhase(Timing(0, 0x2, 200), Scheduling.HBlank)
    ensures var r := HBlankStepAsWritten(Timing(0, 0x2, 200), 0);
      r.next == Scheduling.HDraw && r.timing.ly == 1 && Has(r.timing.flags, HBlankFlag) &&
      !InPhase(r.timing, r.next)
  {
  }

  class Ppu {
    var ly: int
    var flags: bv32
    var lyc: int
    /** DISPCNT, and the window registers WIN0H, WIN0V, WIN1H, WIN1V. */
    var displayControl: bv32
    var win0H: nat
    var win0V: nat
    var win1H: nat
    var win1V: nat
    /** Backgrounds 0-3, sprites 4-7, object window 8, final 9; 240 pixels each. */
    const lineBuffers: array2<int>
    /** Per window, enables for backgrounds 0-3, sprites and special effects. */
    const mixingIsEnabled: array2<bool>

    function Time(): Timing
      reads this
    {
      Timing(ly, flags, lyc)
    }

    ghost predicate Valid()
      reads this
    {
      lineBuffers.Length0 == 10 && lineBuffers.Length1 == 240 &&
      mixingIsEnabled.Length0 == 4 && mixingIsEnabled.Length1 == 6
    }

    /**
     * A new PPU: line 0 with all flags and registers 0, cleared line
     * buffers, and `hdraw` scheduled 960 cycles ahead in the first free slot.
     */
    constructor (scheduler: Scheduling.Scheduler)
      requires scheduler.Valid()
      modifies scheduler.taskCounters, scheduler.tasks
      ensures Valid() && fresh(lineBuffers) && fresh(mixingIsEnabled)
      ensures Time() == Timing(0, 0, 0) && InPhase(Time(), Scheduling.HDraw)
      ensures displayControl == 0 && win0H == 0 && win0V == 0 && win1H == 0 && win1V == 0
      ensures forall i, j :: 0 <= i < 10 && 0 <= j < 240 ==> lineBuffers[i, j] == 0
      ensures Scheduling.FirstFree(old(scheduler.taskCounters[..]), 0).Some? ==>
        var i := Scheduling.FirstFree(old(scheduler.taskCounters[..]), 0).value;
        scheduler.taskCounters[..] == old(scheduler.taskCounters[..])[i := scheduler.counter + HDrawCycles] &&
        scheduler.tasks[..] == old(scheduler.tasks[..])[i := Some(Scheduling.HDraw)]
    {
      ly := 0;
      flags := 0;
      lyc := 0;
      displayControl := 0;
      win0H, win0V, win1H, win1V := 0, 0, 0, 0;
      lineBuffers := new int[10, 240]((_, _) => 0);
      mixingIsEnabled := new bool[4, 6]((_, _) => false);
      new;
      var _ := scheduler.Schedule(HDrawCycles, Some(Scheduling.HDraw));
    }

    /** The two rectangular windows as DISPCNT bits 13 and 14 and their registers enable them. */
    function Windows(): (Window, Window)
      reads this
    {
      (Window(displayControl & 0x2000 != 0, win0H, win0V), Window(displayControl & 0x4000 != 0, win1H, win1V))
    }

    /** DISPCNT bit 15: the object window. */
    predicate ObjWindowEnabled()
      reads this
    {
      displayControl & 0x8000 != 0
    }

    /** The mixing table row of window `w`. */
    function Enables(w: nat): (e: seq<bool>)
      requires Valid() && w < 4
      reads this, mixingIsEnabled
      ensures |e| == 6
    {
      seq(6, k requires 0 <= k < 6 reads mixingIsEnabled => mixingIsEnabled[w, k])
    }

    /** Pixel `x` of line buffers `base` to `base + 3`. */
    function Column(base: nat, x: nat): (c: seq<int>)
      requires Valid() && base <= 4 && x < 240
      reads this, lineBuffers
      ensures |c| == 4
    {
      seq(4, k requires 0 <= k < 4 reads lineBuffers => lineBuffers[base + k, x])
    }

    /** `getCurrentWindow(x)`. */
    method GetCurrentWindow(x: nat) returns (w: nat)
      requires Valid() && x < 240
      ensures w == CurrentWindow(Windows().0, Windows().1, ObjWindowEnabled(), lineBuffers[8, x], ly, x)
    {
      if displayControl & 0x2000 != 0 && High(win0V) <= ly <= Low(win0V) && High(win0H) <= x <= Low(win0H) {
        return Win0;
      }
      if displayControl & 0x4000 != 0 && High(win1V) <= ly <= Low(win1V) && High(win1H) <= x <= Low(win1H) {
        return Win1;
      }
      if displayControl & 0x8000 != 0 && lineBuffers[8, x] != 0 {
        return ObjWindow;
      }
      return Outside;
    }

    /** `mixBuffers(lineBuffers[9], backdrop, pixel)`: the final pixel is the mixed color; nothing else changes. */
    method MixBuffers(backdrop: int, pixel: nat)
      requires Valid() && pixel < 240
      modifies lineBuffers
      ensures var w := CurrentWindow(Windows().0, Windows().1, ObjWindowEnabled(), old(lineBuffers[8, pixel]), ly, pixel);
        lineBuffers[9, pixel] == Mixed(Enables(w), old(Column(0, pixel)), old(Column(4, pixel)), backdrop)
      ensures forall i, j :: 0 <= i < 10 && 0 <= j < 240 && (i, j) != (9, pixel) ==> lineBuffers[i, j] == old(lineBuffers[i, j])
    {
      var w := GetCurrentWindow(pixel);
      ghost var enabled := Enables(w);
      ghost var bg := Column(0, pixel);
      ghost var obj := Column(4, pixel);
      var value := 0;
      var bufferIndex := 0;
      while bufferIndex < 4
        invariant 0 <= bufferIndex <= 4
        invariant value == 0 && FirstLevel(enabled, bg, obj, 0) == FirstLevel(enabled, bg, obj, bufferIndex)
      {
        assert enabled[bufferIndex] == mixingIsEnabled[w, bufferIndex] && enabled[LutObj] == mixingIsEnabled[w, LutObj];
        assert bg[bufferIndex] == lineBuffers[bufferIndex, pixel] && obj[bufferIndex] == lineBuffers[bufferIndex + 4, pixel];
        if mixingIsEnabled[w, bufferIndex] && lineBuffers[bufferIndex, pixel] != 0 {
          value := if mixingIsEnabled[w, LutObj] && lineBuffers[bufferIndex + 4, pixel] != 0 then
            lineBuffers[bufferIndex + 4, pixel] else lineBuffers[bufferIndex, pixel];
          break;
        } else if mixingIsEnabled[w, LutObj] && lineBuffers[bufferIndex + 4, pixel] != 0 {
          value := lineBuffers[bufferIndex + 4, pixel];
          break;
        }
        bufferIndex := bufferIndex + 1;
      }
      if value == 0 {
        value := backdrop;
      }
      lineBuffers[9, pixel] := value;
    }

    /** `checkVCounter`. */
    method CheckVCounter(ir: Interrupts.InterruptRequest)
      modifies this`flags, ir
      ensures (Time(), ir.value) == VCounterChecked(old(Time()), old(ir.value))
    {
      var vc := ly == lyc;
      if vc && Has(flags, VCounterIrq) && !Has(flags, VCounterFlag) {
        ir.Set(Interrupts.VCount, true);
      }
      flags := With(flags, VCounterFlag, vc);
    }

    /** `hdraw` without the rendering: HBLANK on, the HBlank IRQ if enabled, `hblank` into the same slot. */
    method HDraw(taskIndex: nat, scheduler: Scheduling.Scheduler, ir: Interrupts.InterruptRequest)
      requires scheduler.Valid() && taskIndex < Scheduling.SlotCount
      modifies this`flags, ir, scheduler.taskCounters, scheduler.tasks
      ensures var r := HDrawStep(old(Time()), old(ir.value));
        Time() == r.timing && ir.value == r.ir &&
        scheduler.taskCounters[..] == old(scheduler.taskCounters[..])[taskIndex := scheduler.counter + r.after] &&
        scheduler.tasks[..] == old(scheduler.tasks[..])[taskIndex := Some(r.next)]
    {
      scheduler.ScheduleAt(HBlankCycles, Some(Scheduling.HBlank), taskIndex);
      flags := With(flags, HBlankFlag, true);
      if Has(flags, HBlankIrq) {
        ir.Set(Interrupts.HBlank, true);
      }
    }

    /** `hblank`, with HBLANK cleared before the next HDraw. */
    method HBlank(taskIndex: nat, scheduler: Scheduling.Scheduler, ir: Interrupts.InterruptRequest)
      requires scheduler.Valid() && taskIndex < Scheduling.SlotCount
      modifies this`ly, this`flags, ir, scheduler.taskCounters, scheduler.tasks
      ensures var r := HBlankStep(old(Time()), old(ir.value));
        Time() == r.timing && ir.value == r.ir &&
        scheduler.taskCounters[..] == old(scheduler.taskCounters[..])[taskIndex := scheduler.counter + r.after] &&
        scheduler.tasks[..] == old(scheduler.tasks[..])[taskIndex := Some(r.next)]
    {
      HBlankAsWritten(taskIndex, scheduler, ir);
      if ly < VDrawHeight {
        flags := With(flags, HBlankFlag, false);
      }
    }

    /** `hblank` as written: HBLANK stays set when the next line's HDraw is scheduled. */
    method HBlankAsWritten(taskIndex: nat, scheduler: Scheduling.Scheduler, ir: Interrupts.InterruptRequest)
      requires scheduler.Valid() && taskIndex < Scheduling.SlotCount
      modifies this`ly, this`flags, ir, scheduler.taskCounters, scheduler.tasks
      ensures var r := HBlankStepAsWritten(old(Time()), old(ir.value));
        Time() == r.timing && ir.value == r.ir &&
        scheduler.taskCounters[..] == old(scheduler.taskCounters[..])[taskIndex := scheduler.counter + r.after] &&
        scheduler.tasks[..] == old(scheduler.tasks[..])[taskIndex := Some(r.next)]
    {
      ly := ly + 1;
      CheckVCounter(ir);
      if ly >= VDrawHeight {
        scheduler.ScheduleAt(ScanlineCycles, Some(Scheduling.VBlank), taskIndex);
        flags := With(flags, HBlankFlag, false);
        flags := With(flags, VBlankFlag, true);
        if Has(flags, VBlankIrq) {
          ir.Set(Interrupts.VBlank, true);
        }
      } else {
        scheduler.ScheduleAt(HDrawCycles, Some(Scheduling.HDraw), taskIndex);
      }
    }

    /** `vblank`. */
    method VBlank(taskIndex: nat, scheduler: Scheduling.Scheduler, ir: Interrupts.InterruptRequest)
      requires scheduler.Valid() && taskIndex < Scheduling.SlotCount
      modifies this`ly, this`flags, ir, scheduler.taskCounters, scheduler.tasks
      ensures var r := VBlankStep(old(Time()), old(ir.value));
        Time() == r.timing && ir.value == r.ir &&
        scheduler.taskCounters[..] == old(scheduler.taskCounters[..])[taskIndex := scheduler.counter + r.after] &&
        scheduler.tasks[..] == old(scheduler.tasks[..])[taskIndex := Some(r.next)]
    {
      ly := ly + 1;
      if ly >= TotalHeight {
        scheduler.ScheduleAt(HDrawCycles, Some(Scheduling.HDraw), taskIndex);
        flags := With(flags, VBlankFlag, false);
        ly := 0;
      } else {
        scheduler.ScheduleAt(ScanlineCycles, Some(Scheduling.VBlank), taskIndex);
      }
      CheckVCounter(ir);
    }
  }
}
