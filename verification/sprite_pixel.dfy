/**
 * One pixel of the sprite line buffer (ppu/sprite/SpritePixel.kt). Sprites
 * are drawn one after another into the buffer; a pixel keeps the opaque
 * sprite with the lowest priority value, with ties going to the sprite
 * drawn first, and a window sprite only marks the pixel as inside the
 * object window.
 */
module SpritePixels {

  /** `TransparentPriority`: the priority of a pixel no opaque sprite has covered. */
  const TransparentPriority: int := 4

  /** The arguments of one `apply` call. */
  datatype SpriteInput = SpriteInput(
    isTransparent: bool, isWindow: bool, priority: int,
    isMosaic: bool, isSemiTransparent: bool, color: bv16)

  /** The fields of a pixel. */
  datatype Pixel = Pixel(priority: int, isMosaic: bool, isSemiTransparent: bool, color: bv16, isWindow: bool)

  /** The pixel after `clear` (the color is left as it was). */
  function Cleared(p: Pixel): (r: Pixel)
    ensures r.priority == TransparentPriority && !r.isMosaic && !r.isSemiTransparent && !r.isWindow
    ensures r.color == p.color
  {
    p.(priority := TransparentPriority, isMosaic := false, isSemiTransparent := false, isWindow := false)
  }

  /** The pixel after `apply(input)`. */
  function Applied(p: Pixel, input: SpriteInput): (r: Pixel)
  {
    if input.isTransparent then p.(isMosaic := input.isMosaic)
    else if input.isWindow then p.(isWindow := true)
    else if input.priority < p.priority then
      p.(priority := input.priority, isMosaic := input.isMosaic, isSemiTransparent := input.isSemiTransparent, color := input.color)
    else p
  }

  /** A transparent input changes only the mosaic flag, a window input only sets the window flag. */
  lemma AppliedNonOpaque(p: Pixel, input: SpriteInput)
    ensures input.isTransparent ==> Applied(p, input) == p.(isMosaic := input.isMosaic)
    ensures !input.isTransparent && input.isWindow ==> Applied(p, input) == p.(isWindow := true)
  {
  }

  /** An opaque input takes the pixel exactly when its priority value is strictly lower. */
  lemma AppliedOpaque(p: Pixel, input: SpriteInput)
    requires !input.isTransparent && !input.isWindow
    ensures Applied(p, input).priority == if input.priority < p.priority then input.priority else p.priority
    ensures Applied(p, input).color == if input.priority < p.priority then input.color else p.color
    ensures Applied(p, input).isWindow == p.isWindow
  {
  }

  /** The pixel after applying `inputs` in order. */
  function ApplyAll(p: Pixel, inputs: seq<SpriteInput>): (r: Pixel)
    decreases |inputs|
  {
    if |inputs| == 0 then p else ApplyAll(Applied(p, inputs[0]), inputs[1..])
  }

  /** An input that competes for the pixel. */
  predicate Opaque(input: SpriteInput)
  {
    !input.isTransparent && !input.isWindow
  }

  /**
   * Over opaque inputs, the pixel ends with the lowest priority value among
   * the start and the inputs, and when an input beat the start its color is
   * that of the first input with that priority.
   */
  lemma {:induction false} ApplyAllKeepsLowest(p: Pixel, inputs: seq<SpriteInput>)
    requires forall i :: 0 <= i < |inputs| ==> Opaque(inputs[i])
    ensures ApplyAll(p, inputs).priority <= p.priority
    ensures forall i :: 0 <= i < |inputs| ==> ApplyAll(p, inputs).priority <= inputs[i].priority
    ensures ApplyAll(p, inputs).priority == p.priority ==> ApplyAll(p, inputs).color == p.color
    ensures ApplyAll(p, inputs).priority < p.priority ==>
      exists i :: 0 <= i < |inputs| && inputs[i].priority == ApplyAll(p, inputs).priority &&
        inputs[i].color == ApplyAll(p, inputs).color &&
        forall j :: 0 <= j < i ==> inputs[j].priority > ApplyAll(p, inputs).priority
    decreases |inputs|
  {
    if |inputs| > 0 {
      var q := Applied(p, inputs[0]);
      var r := ApplyAll(p, inputs);
      ApplyAllKeepsLowest(q, inputs[1..]);
      assert r == ApplyAll(q, inputs[1..]);
      forall i | 1 <= i < |inputs|
        ensures r.priority <= inputs[i].priority
      {
        assert inputs[i] == inputs[1..][i - 1];
      }
      if r.priority < p.priority {
        if r.priority < q.priority {
          var k :| 0 <= k < |inputs[1..]| && inputs[1..][k].priority == r.priority &&
            inputs[1..][k].color == r.color &&
            forall j :: 0 <= j < k ==> inputs[1..][j].priority > r.priority;
          assert inputs[k + 1] == inputs[1..][k];
          forall j | 0 <= j < k + 1
            ensures inputs[j].priority > r.priority
          {
            if j > 0 {
              assert inputs[j] == inputs[1..][j - 1];
            }
          }
        } else {
          assert inputs[0].priority == r.priority && inputs[0].color == r.color;
        }
      }
    }
  }

  class SpritePixel {
    var priority: int
    var isMosaic: bool
    var isSemiTransparent: bool
    var color: bv16
    var isWindow: bool

    /** The pixel's fields as a value. */
    function View(): Pixel
      reads this
    {
      Pixel(priority, isMosaic, isSemiTransparent, color, isWindow)
    }

    /** A new pixel: transparent, color 0, no flags. */
    constructor ()
      ensures View() == Pixel(TransparentPriority, false, false, 0, false)
    {
      priority := TransparentPriority;
      isMosaic := false;
      isSemiTransparent := false;
      color := 0;
      isWindow := false;
    }

    /** `clear`: back to transparent before the next line is drawn. */
    method Clear()
      modifies this
      ensures View() == Cleared(old(View()))
    {
      priority := TransparentPriority;
      isSemiTransparent := false;
      isMosaic := false;
      isWindow := false;
    }

    /** `apply`: draws one sprite's pixel over this one. */
    method Apply(input: SpriteInput)
      modifies this
      ensures View() == Applied(old(View()), input)
    {
      if input.isTransparent {
        isMosaic := input.isMosaic;
      } else if input.isWindow {
        isWindow := true;
      } else if input.priority < priority {
        priority := input.priority;
        isMosaic := input.isMosaic;
        isSemiTransparent := input.isSemiTransparent;
        color := input.color;
      }
    }

    /** `isTransparent`: no opaque sprite has taken the pixel since it was cleared. */
    method IsTransparent() returns (b: bool)
      ensures b <==> priority == TransparentPriority
    {
      b := priority == TransparentPriority;
    }
  }

  /** Drawing a line of opaque sprites into a cleared pixel leaves it transparent exactly when every sprite has priority value 4 or more. */
  lemma ClearedThenDrawn(p: Pixel, inputs: seq<SpriteInput>)
    requires forall i :: 0 <= i < |inputs| ==> Opaque(inputs[i])
    ensures ApplyAll(Cleared(p), inputs).priority == TransparentPriority <==>
      forall i :: 0 <= i < |inputs| ==> inputs[i].priority >= TransparentPriority
  {
    ApplyAllKeepsLowest(Cleared(p), inputs);
  }
}
