/**
 * The compact effect control (web-ui/src/components/EffectModule.tsx): a
 * small knob bound directly to one effect parameter through a slider
 * binding whose default is 0.
 */
module EffectModule {
  import opened Common
  import opened Pointer
  import opened JuceParam

  /** The control glows once the effect is more than 1% in. */
  predicate IsActive(value: real)
    ensures IsActive(value) <==> 100.0 * value > 1.0
  {
    value > 0.01
  }

  /** The knob's angle: the unit range spread over -135..135 degrees. */
  function KnobRotation(value: real): (r: real)
    ensures 0.0 <= value <= 1.0 ==> -135.0 <= r <= 135.0
  {
    -135.0 + value * 270.0
  }

  /** The rotation is the generic indicator over `[0, 1]`. */
  lemma KnobRotationIsIndicator(value: real)
    ensures KnobRotation(value) == Rotation(value, 0.0, 1.0)
  {
  }

  /** A control showing a whole percentage above 1 is active; one showing 0 or 1 may not be. */
  lemma ActiveAgreesWithLabel(value: real)
    ensures PercentLabel(value) >= 2 ==> IsActive(value)
    ensures PercentLabel(value) <= 0 ==> !IsActive(value)
  {
  }

  class EffectModule {
    const window: Window
    const param: SliderParam
    var isDragging: bool
    var startY: real
    var startValue: real
    var presses: nat

    /** The first render: the binding starts at 0. */
    constructor (window: Window, state: SliderState, isConnected: bool)
      ensures this.window == window && fresh(param) && param.state == state && param.isConnected == isConnected
      ensures param.value == 0.0 && !param.isDragging && param.listenerId == None
      ensures !isDragging && startY == 0.0 && startValue == 0.0 && presses == 0
    {
      this.window := window;
      param := new SliderParam(state, isConnected, Some(0.0));
      isDragging, startY, startValue, presses := false, 0.0, 0.0, 0;
    }

    /** `handleMouseDown`: remembers the press point and the value, opens the host gesture, attaches the press's listeners. */
    method MouseDown(y: real)
      modifies this, window, param`isDragging, param.state
      ensures isDragging && startY == y && startValue == old(param.value) && presses == old(presses) + 1
      ensures param.Model() == SliderStep(old(param.Model()), SliderEvent.DragStart)
      ensures window.listeners == old(window.listeners) + PressListeners(old(presses))
    {
      isDragging := true;
      startY := y;
      startValue := param.value;
      param.OnDragStart();
      window.AddEventListener(Listener(Move, presses));
      window.AddEventListener(Listener(Up, presses));
      presses := presses + 1;
    }

    /** A move listener: while dragging, the clamped drag value goes to the binding; afterwards nothing happens. */
    method MouseMove(y: real)
      modifies param`value, param.state
      ensures param.Model() == if isDragging then SliderStep(old(param.Model()), SliderEvent.SetValue(DragValue(startValue, startY, y, 0.0, 1.0))) else old(param.Model())
      ensures isDragging ==> 0.0 <= param.value <= 1.0
    {
      if isDragging {
        param.SetValue(DragValue(startValue, startY, y, 0.0, 1.0));
      }
    }

    /** The mouseup listener of press `press`: ends the gesture, re-syncs, removes that press's listeners. */
    method MouseUp(press: nat)
      modifies this`isDragging, window, param`isDragging, param`value, param.state
      ensures !isDragging
      ensures param.Model() == SliderStep(old(param.Model()), SliderEvent.DragEnd)
      ensures window.listeners == old(window.listeners) - PressListeners(press)
    {
      isDragging := false;
      param.OnDragEnd();
      window.RemoveEventListener(Listener(Move, press));
      window.RemoveEventListener(Listener(Up, press));
    }

    /** Double-click switches the effect off. */
    method DoubleClick()
      modifies param`value, param.state
      ensures param.Model() == SliderStep(old(param.Model()), SliderEvent.SetValue(0.0))
      ensures !IsActive(param.value)
    {
      param.SetValue(0.0);
    }
  }
}
