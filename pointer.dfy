/**
 * What the drag-to-value controls (Knob.tsx, EffectModule.tsx, Fader.tsx)
 * share: the browser window's listener registry, the callbacks a control
 * makes to its owner, and the vertical-drag mapping.
 */
module Pointer {
  import opened Common

  datatype ListenerKind = Move | Up

  /**
   * A window listener. Every mousedown creates a fresh pair of closures; the
   * `press` number tells the pairs of different presses apart.
   */
  datatype Listener = Listener(kind: ListenerKind, press: nat)

  /** The two listeners one press attaches. */
  function PressListeners(press: nat): (r: set<Listener>)
    ensures Listener(Move, press) in r && Listener(Up, press) in r
    ensures forall l :: l in r ==> l.press == press
  {
    {Listener(Move, press), Listener(Up, press)}
  }

  lemma PressListenersDisjoint(p: nat, q: nat)
    requires p != q
    ensures PressListeners(p) !! PressListeners(q)
  {
  }

  /** A callback a control makes to its owner. */
  datatype Callback = Change(v: real) | DragStart | DragEnd

  /** `window`, as far as its event listeners go. */
  class Window {
    var listeners: set<Listener>

    constructor ()
      ensures listeners == {}
    {
      listeners := {};
    }

    method AddEventListener(l: Listener)
      modifies this
      ensures listeners == old(listeners) + {l}
    {
      listeners := listeners + {l};
    }

    method RemoveEventListener(l: Listener)
      modifies this
      ensures listeners == old(listeners) - {l}
    {
      listeners := listeners - {l};
    }
  }

  /** Value change per pixel of vertical drag. */
  const Sensitivity: real := 0.005

  /**
   * The value a vertical drag asks for: the value at mousedown plus the
   * upward displacement since mousedown, scaled and clamped to `[lo, hi]`.
   */
  function DragValue(startValue: real, startY: real, y: real, lo: real, hi: real): (r: real)
    ensures lo <= hi ==> lo <= r <= hi
  {
    Clamp(startValue + (startY - y) * Sensitivity, lo, hi)
  }

  /** Within the range, the drag moves the value linearly with the displacement. */
  lemma DragValueLinear(startValue: real, startY: real, y: real, lo: real, hi: real)
    requires lo <= startValue + (startY - y) * Sensitivity <= hi
    ensures DragValue(startValue, startY, y, lo, hi) == startValue + (startY - y) / 200.0
  {
  }

  /** Moving the pointer up never lowers the value; moving it down never raises it. */
  lemma DragValueMonotone(startValue: real, startY: real, y1: real, y2: real, lo: real, hi: real)
    requires y1 <= y2
    ensures DragValue(startValue, startY, y2, lo, hi) <= DragValue(startValue, startY, y1, lo, hi)
  {
    assert startValue + (startY - y2) * Sensitivity <= startValue + (startY - y1) * Sensitivity;
    ClampMonotone(startValue + (startY - y2) * Sensitivity, startValue + (startY - y1) * Sensitivity, lo, hi);
  }

  /** Only the displacement from the mousedown point matters, not where the drag started or went in between. */
  lemma DragValueByDisplacement(startValue: real, startY1: real, y1: real, startY2: real, y2: real, lo: real, hi: real)
    requires startY1 - y1 == startY2 - y2
    ensures DragValue(startValue, startY1, y1, lo, hi) == DragValue(startValue, startY2, y2, lo, hi)
  {
  }

  /** A pointer back at the mousedown point gives back the starting value, when that was in range. */
  lemma DragValueAtStart(startValue: real, startY: real, lo: real, hi: real)
    requires lo <= startValue <= hi
    ensures DragValue(startValue, startY, startY, lo, hi) == startValue
  {
  }

  /** A rotary indicator: -135 degrees at the bottom of the range, +135 at the top. */
  function Rotation(value: real, lo: real, hi: real): (r: real)
    requires lo != hi
    ensures lo < hi && lo <= value <= hi ==> -135.0 <= r <= 135.0
  {
    var normalised := (value - lo) / (hi - lo);
    assert lo < hi && lo <= value <= hi ==> 0.0 <= normalised <= 1.0 by {
      if lo < hi && lo <= value <= hi {
        RatioInUnit(value - lo, hi - lo);
      }
    }
    -135.0 + normalised * 270.0
  }

  /** The rotation follows the value: the ends of the range sit at the ends of the sweep, and a larger value turns further. */
  lemma RotationFollowsValue(v1: real, v2: real, lo: real, hi: real)
    requires lo < hi && v1 <= v2
    ensures Rotation(lo, lo, hi) == -135.0 && Rotation(hi, lo, hi) == 135.0
    ensures Rotation(v1, lo, hi) <= Rotation(v2, lo, hi)
  {
    DivMonotone(v1 - lo, v2 - lo, hi - lo);
  }

  /** The whole-percent label a control over the unit range shows: `Math.round(value * 100)`. */
  function PercentLabel(value: real): (r: int)
    ensures 0.0 <= value <= 1.0 ==> 0 <= r <= 100
    ensures r as real - 0.5 <= value * 100.0 < r as real + 0.5
  {
    var r := JsRound(value * 100.0);
    assert 0.0 <= value <= 1.0 ==> 0 <= r <= 100 by {
      assert 0.0 <= value <= 1.0 ==> 0.0 <= value * 100.0 <= 100.0;
    }
    r
  }
}
