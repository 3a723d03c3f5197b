/**
 * The vertical fader (web-ui/src/components/Fader.tsx): the value follows
 * the pointer's height over the track, from the press on. Like the knob, it
 * reports requests to its owner, logged as `calls`.
 */
module Fader {
  import opened Common
  import opened Pointer

  /** The track's bounding box, as far as the mapping uses it. */
  datatype Rect = Rect(bottom: real, height: real)

  /** Height, in pixels, the thumb travels over. */
  const Travel: real := 60.0

  /** The pointer's height above the track's bottom, as a fraction of the track's height. */
  function Fraction(track: Rect, y: real): real
    requires track.height > 0.0
  {
    (track.bottom - y) / track.height
  }

  /** `updateValue`'s mapping: the fraction of the track, onto `[lo, hi]`. */
  function PointerValue(track: Rect, y: real, lo: real, hi: real): (r: real)
    requires track.height > 0.0
    ensures lo <= hi ==> lo <= r <= hi
  {
    Clamp(Fraction(track, y) * (hi - lo) + lo, lo, hi)
  }

  /** At the bottom edge the fader asks for `lo`, at the top edge for `hi`. */
  lemma PointerValueEnds(track: Rect, lo: real, hi: real)
    requires track.height > 0.0 && lo <= hi
    ensures PointerValue(track, track.bottom, lo, hi) == lo
    ensures PointerValue(track, track.bottom - track.height, lo, hi) == hi
  {
    assert Fraction(track, track.bottom) == 0.0;
    assert Fraction(track, track.bottom - track.height) == track.height / track.height == 1.0;
  }

  /** Inside the track the value is linear in the pointer's height: no clamping happens there. */
  lemma PointerValueLinear(track: Rect, y: real, lo: real, hi: real)
    requires track.height > 0.0 && lo <= hi && track.bottom - track.height <= y <= track.bottom
    ensures PointerValue(track, y, lo, hi) == lo + (track.bottom - y) / track.height * (hi - lo)
  {
    var f, k := Fraction(track, y), hi - lo;
    RatioInUnit(track.bottom - y, track.height);
    assert 0.0 <= f <= 1.0;
    MulMonotone(0.0, f, k);
    MulMonotone(f, 1.0, k);
    assert 0.0 <= f * k <= k;
    var x := f * k + lo;
    assert PointerValue(track, y, lo, hi) == Clamp(x, lo, hi) == x;
  }

  lemma FractionMonotone(track: Rect, y1: real, y2: real)
    requires track.height > 0.0 && y1 <= y2
    ensures Fraction(track, y2) <= Fraction(track, y1)
  {
    DivMonotone(track.bottom - y2, track.bottom - y1, track.height);
  }

  lemma ScaleMonotone(a: real, b: real, lo: real, hi: real)
    requires a <= b && lo <= hi
    ensures a * (hi - lo) + lo <= b * (hi - lo) + lo
  {
    MulMonotone(a, b, hi - lo);
  }

  /** Higher on the track (smaller y) never asks for less. */
  lemma PointerValueMonotone(track: Rect, y1: real, y2: real, lo: real, hi: real)
    requires track.height > 0.0 && lo <= hi && y1 <= y2
    ensures PointerValue(track, y2, lo, hi) <= PointerValue(track, y1, lo, hi)
  {
    var a, b := Fraction(track, y2), Fraction(track, y1);
    FractionMonotone(track, y1, y2);
    ScaleMonotone(a, b, lo, hi);
    ClampMonotone(a * (hi - lo) + lo, b * (hi - lo) + lo, lo, hi);
  }

  /** The thumb's offset from the bottom of the track. */
  function ThumbBottom(value: real, lo: real, hi: real): (r: real)
    requires lo != hi
    ensures lo < hi && lo <= value <= hi ==> 0.0 <= r <= Travel
  {
    var normalised := (value - lo) / (hi - lo);
    assert lo < hi && lo <= value <= hi ==> 0.0 <= normalised <= 1.0 by {
      if lo < hi && lo <= value <= hi {
        RatioInUnit(value - lo, hi - lo);
      }
    }
    normalised * Travel
  }

  /** The thumb sits at the bottom for `lo`, at the top for `hi`, and rises with the value. */
  lemma ThumbFollowsValue(v1: real, v2: real, lo: real, hi: real)
    requires lo < hi && v1 <= v2
    ensures ThumbBottom(lo, lo, hi) == 0.0 && ThumbBottom(hi, lo, hi) == Travel
    ensures ThumbBottom(v1, lo, hi) <= ThumbBottom(v2, lo, hi)
  {
    DivMonotone(v1 - lo, v2 - lo, hi - lo);
  }

  class Fader {
    const window: Window
    const min: real
    const max: real
    /** The track element, once rendered. */
    const track: Option<Rect>
    var isDragging: bool
    var presses: nat
    var calls: seq<Callback>

    constructor (window: Window, track: Option<Rect>, min: Option<real>, max: Option<real>)
      requires track.Some? ==> track.value.height > 0.0
      ensures this.window == window && this.track == track
      ensures this.min == (if min.Some? then min.value else 0.0)
      ensures this.max == (if max.Some? then max.value else 1.0)
      ensures !isDragging && presses == 0 && calls == []
      ensures Valid()
    {
      this.window := window;
      this.track := track;
      this.min := if min.Some? then min.value else 0.0;
      this.max := if max.Some? then max.value else 1.0;
      isDragging, presses, calls := false, 0, [];
    }

    predicate Valid()
      reads this
    {
      track.Some? ==> track.value.height > 0.0
    }

    /** What `updateValue(y)` requests: nothing while the track is not rendered. */
    function Update(y: real): seq<Callback>
      requires Valid()
      reads this
    {
      if track.Some? then [Change(PointerValue(track.value, y, min, max))] else []
    }

    /** `handleMouseDown`: the drag starts, the press point already sets the value, and the press's listeners are attached. */
    method MouseDown(y: real)
      requires Valid()
      modifies this, window
      ensures isDragging && presses == old(presses) + 1
      ensures calls == old(calls) + [DragStart] + Update(y)
      ensures window.listeners == old(window.listeners) + PressListeners(old(presses))
    {
      isDragging := true;
      calls := calls + [DragStart];
      UpdateValue(y);
      window.AddEventListener(Listener(Move, presses));
      window.AddEventListener(Listener(Up, presses));
      presses := presses + 1;
    }

    method UpdateValue(y: real)
      requires Valid()
      modifies this`calls
      ensures calls == old(calls) + Update(y)
    {
      if track.Some? {
        calls := calls + [Change(PointerValue(track.value, y, min, max))];
      }
    }

    /** A move listener: ignored once the drag is over. */
    method MouseMove(y: real)
      requires Valid()
      modifies this`calls
      ensures calls == old(calls) + (if isDragging then Update(y) else [])
    {
      if isDragging {
        UpdateValue(y);
      }
    }

    method MouseUp(press: nat)
      modifies this`isDragging, this`calls, window
      ensures !isDragging && calls == old(calls) + [DragEnd]
      ensures window.listeners == old(window.listeners) - PressListeners(press)
    {
      isDragging := false;
      calls := calls + [DragEnd];
      window.RemoveEventListener(Listener(Move, press));
      window.RemoveEventListener(Listener(Up, press));
    }

    method DoubleClick()
      modifies this`calls
      ensures calls == old(calls) + [Change(0.5)]
    {
      calls := calls + [Change(0.5)];
    }
  }
}
