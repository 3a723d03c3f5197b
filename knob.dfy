/**
 * The rotary knob (web-ui/src/components/Knob.tsx): a vertical drag turns
 * it, a double-click resets it to the middle. The knob does not hold its
 * value; it reports requests to its owner through `onChange`, logged here
 * as `calls`.
 */
module Knob {
  import opened Common
  import opened Pointer

  class Knob {
    const window: Window
    const min: real
    const max: real
    var isDragging: bool
    var startY: real
    var startValue: real
    /** The number of mousedowns so far; numbers each press's listener pair. */
    var presses: nat
    var calls: seq<Callback>

    /** A mounted knob over `[min, max]`, `[0, 1]` unless given. */
    constructor (window: Window, min: Option<real>, max: Option<real>)
      ensures this.window == window
      ensures this.min == (if min.Some? then min.value else 0.0)
      ensures this.max == (if max.Some? then max.value else 1.0)
      ensures !isDragging && startY == 0.0 && startValue == 0.0 && presses == 0 && calls == []
    {
      this.window := window;
      this.min := if min.Some? then min.value else 0.0;
      this.max := if max.Some? then max.value else 1.0;
      isDragging, startY, startValue, presses, calls := false, 0.0, 0.0, 0, [];
    }

    /** The indicator's angle for the value the owner passes in. */
    function IndicatorRotation(value: real): (r: real)
      requires min != max
      ensures min < max && min <= value <= max ==> -135.0 <= r <= 135.0
    {
      Rotation(value, min, max)
    }

    /** `handleMouseDown`, with `value` the prop at the time of the press. */
    method MouseDown(value: real, y: real)
      modifies this, window
      ensures isDragging && startY == y && startValue == value
      ensures presses == old(presses) + 1
      ensures calls == old(calls) + [DragStart]
      ensures window.listeners == old(window.listeners) + PressListeners(old(presses))
    {
      isDragging := true;
      startY := y;
      startValue := value;
      calls := calls + [DragStart];
      window.AddEventListener(Listener(Move, presses));
      window.AddEventListener(Listener(Up, presses));
      presses := presses + 1;
    }

    /** A move listener: a change request while dragging, nothing once the drag is over. */
    method MouseMove(y: real)
      modifies this`calls
      ensures calls == old(calls) + (if isDragging then [Change(DragValue(startValue, startY, y, min, max))] else [])
    {
      if isDragging {
        calls := calls + [Change(DragValue(startValue, startY, y, min, max))];
      }
    }

    /** The mouseup listener of press `press`: the drag ends and that press's two listeners are removed. */
    method MouseUp(press: nat)
      modifies this`isDragging, this`calls, window
      ensures !isDragging && calls == old(calls) + [DragEnd]
      ensures window.listeners == old(window.listeners) - PressListeners(press)
    {
      isDragging := false;
      calls := calls + [DragEnd];
      window.RemoveEventListener(Listener(Move, press));
      window.RemoveEventListener(Listener(Up, press));
    }

    method DoubleClick()
      modifies this`calls
      ensures calls == old(calls) + [Change(0.5)]
    {
      calls := calls + [Change(0.5)];
    }

    /** Press, two moves and release, from a window with no listeners: every request is in range and nothing is left attached. */
    method DragSession(value: real, y0: real, y1: real, y2: real)
      requires min <= max && window.listeners == {}
      modifies this, window
      ensures window.listeners == {} && !isDragging
      ensures calls == old(calls) + [DragStart, Change(DragValue(value, y0, y1, min, max)), Change(DragValue(value, y0, y2, min, max)), DragEnd]
      ensures forall i :: |old(calls)| < i < |calls| - 1 ==> calls[i].Change? && min <= calls[i].v <= max
    {
      var press := presses;
      MouseDown(value, y0);
      MouseMove(y1);
      MouseMove(y2);
      MouseUp(press);
    }
  }
}
