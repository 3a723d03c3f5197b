/**
 * The React bindings between UI controls and host parameters
 * (web-ui/src/hooks/useJuceParam.ts). A slider binding keeps an optimistic
 * local value and ignores host echoes while a drag is in progress; a toggle
 * binding always follows the host. The host relay is an abstract store with
 * a value, a log of the calls made on it, and a set of listeners.
 */
module JuceParam {
  import opened Common

  /** A call the UI makes on a host relay, in the order it makes them. */
  datatype HostCall = SetNormalised(v: real) | DragStarted | DragEnded | SetToggle(b: bool)

  // ---------------------------------------------------------------------
  // Slider binding: events and their effect

  /** A slider binding together with its relay. */
  datatype SliderModel = SliderModel(value: real, dragging: bool, host: real, calls: seq<HostCall>)

  /** What can happen to a slider binding: the host changes and notifies, or the UI calls one of the binding's functions. */
  datatype SliderEvent = HostChanged(v: real) | SetValue(v: real) | DragStart | DragEnd

  /** The value-changed listener: adopt the host's value unless a drag is in progress. */
  function Notified(m: SliderModel): SliderModel {
    if m.dragging then m else m.(value := m.host)
  }

  function SliderStep(m: SliderModel, e: SliderEvent): SliderModel {
    match e
    case HostChanged(v) => Notified(m.(host := v))
    case SetValue(v) => m.(value := v, host := v, calls := m.calls + [SetNormalised(v)])
    case DragStart => m.(dragging := true, calls := m.calls + [DragStarted])
    case DragEnd => m.(dragging := false, calls := m.calls + [DragEnded], value := m.host)
  }

  function SliderRun(m: SliderModel, events: seq<SliderEvent>): SliderModel
    decreases |events|
  {
    if events == [] then m else SliderRun(SliderStep(m, events[0]), events[1..])
  }

  /** Outside a drag the local value shows the host's value. */
  predicate Synced(m: SliderModel) {
    !m.dragging ==> m.value == m.host
  }

  /** A host notification changes the local value exactly when no drag is active. */
  lemma NotificationLatch(m: SliderModel, v: real)
    ensures SliderStep(m, HostChanged(v)).host == v
    ensures SliderStep(m, HostChanged(v)).value == if m.dragging then m.value else v
    ensures SliderStep(m, HostChanged(v)).calls == m.calls
  {
  }

  /** Every event keeps a synced binding synced. */
  lemma StepKeepsSynced(m: SliderModel, e: SliderEvent)
    requires Synced(m)
    ensures Synced(SliderStep(m, e))
  {
  }

  lemma {:induction false} RunKeepsSynced(m: SliderModel, events: seq<SliderEvent>)
    requires Synced(m)
    ensures Synced(SliderRun(m, events))
    decreases |events|
  {
    if events != [] {
      StepKeepsSynced(m, events[0]);
      RunKeepsSynced(SliderStep(m, events[0]), events[1..]);
    }
  }

  /** The host calls a run of host notifications and local writes makes: one write per `SetValue`. */
  function WritesOf(events: seq<SliderEvent>): seq<HostCall>
    decreases |events|
  {
    if events == [] then []
    else (if events[0].SetValue? then [SetNormalised(events[0].v)] else []) + WritesOf(events[1..])
  }

  /** Events a drag may see between its start and its end. */
  predicate DuringDrag(events: seq<SliderEvent>) {
    forall i :: 0 <= i < |events| ==> events[i].HostChanged? || events[i].SetValue?
  }

  /** The local value a run inside a drag ends with: the last local write, if any. */
  function LastWrite(value: real, events: seq<SliderEvent>): real
    decreases |events|
  {
    if events == [] then value
    else LastWrite(if events[0].SetValue? then events[0].v else value, events[1..])
  }

  /** Dropping the first event of a run inside a drag leaves a run inside a drag. */
  lemma DuringDragTail(events: seq<SliderEvent>)
    requires events != [] && DuringDrag(events)
    ensures DuringDrag(events[1..])
  {
    forall i | 0 <= i < |events[1..]| ensures events[1..][i].HostChanged? || events[1..][i].SetValue? {
      assert events[1..][i] == events[i + 1];
    }
  }

  /** While dragging, host echoes are ignored: only local writes move the value, and each is sent to the host. */
  lemma {:induction false} DragIgnoresHost(m: SliderModel, events: seq<SliderEvent>)
    requires m.dragging && DuringDrag(events)
    ensures var r := SliderRun(m, events);
            r.dragging && r.value == LastWrite(m.value, events) && r.calls == m.calls + WritesOf(events)
    decreases |events|
  {
    if events != [] {
      var e := events[0];
      var n := SliderStep(m, e);
      var w := if e.SetValue? then [SetNormalised(e.v)] else [];
      assert n.dragging && n.value == (if e.SetValue? then e.v else m.value) && n.calls == m.calls + w;
      DuringDragTail(events);
      DragIgnoresHost(n, events[1..]);
      assert WritesOf(events) == w + WritesOf(events[1..]);
      assert m.calls + WritesOf(events) == n.calls + WritesOf(events[1..]);
    }
  }

  lemma {:induction false} RunAppend(m: SliderModel, a: seq<SliderEvent>, b: seq<SliderEvent>)
    ensures SliderRun(m, a + b) == SliderRun(SliderRun(m, a), b)
    decreases |a|
  {
    if a == [] {
      assert a + b == b;
    } else {
      assert (a + b)[0] == a[0];
      assert (a + b)[1..] == a[1..] + b;
      RunAppend(SliderStep(m, a[0]), a[1..], b);
    }
  }

  /**
   * A whole drag session: one `sliderDragStarted`, the local writes, one
   * `sliderDragEnded`; afterwards no drag is active and the local value is
   * the host's current value.
   */
  lemma DragSession(m: SliderModel, moves: seq<SliderEvent>)
    requires DuringDrag(moves)
    ensures var r := SliderRun(m, [DragStart] + moves + [DragEnd]);
            !r.dragging && r.value == r.host && r.calls == m.calls + [DragStarted] + WritesOf(moves) + [DragEnded]
  {
    var s := SliderStep(m, DragStart);
    RunAppend(m, [DragStart], moves);
    RunAppend(m, [DragStart] + moves, [DragEnd]);
    assert SliderRun(m, [DragStart]) == s;
    DragIgnoresHost(s, moves);
  }

  // ---------------------------------------------------------------------
  // Toggle binding

  datatype ToggleModel = ToggleModel(value: bool, host: bool, calls: seq<HostCall>)

  datatype ToggleEvent = ToggleHostChanged(b: bool) | ToggleSetValue(b: bool) | Toggle

  function ToggleStep(m: ToggleModel, e: ToggleEvent): ToggleModel {
    match e
    case ToggleHostChanged(b) => m.(host := b, value := b)
    case ToggleSetValue(b) => m.(value := b, host := b, calls := m.calls + [SetToggle(b)])
    case Toggle => var nv := !m.host; m.(value := nv, host := nv, calls := m.calls + [SetToggle(nv)])
  }

  /** A toggle binding has no latch: after any event the local value is the host's value. */
  lemma ToggleFollowsHost(m: ToggleModel, e: ToggleEvent)
    ensures ToggleStep(m, e).value == ToggleStep(m, e).host
  {
  }

  /** `toggle` flips the host's value, whatever the local value was, and writes it once. */
  lemma ToggleFlipsHost(m: ToggleModel)
    ensures ToggleStep(m, Toggle).host == !m.host && ToggleStep(m, Toggle).calls == m.calls + [SetToggle(!m.host)]
  {
  }

  /** Two toggles with nothing in between restore the host value. */
  lemma ToggleTwice(m: ToggleModel)
    ensures ToggleStep(ToggleStep(m, Toggle), Toggle).host == m.host
  {
  }

  // ---------------------------------------------------------------------
  // The host relays

  /** The set of listeners of a relay's value-changed event; ids are handed out in increasing order. */
  class Listeners {
    var ids: set<nat>
    var nextId: nat

    ghost predicate Valid()
      reads this
    {
      forall id :: id in ids ==> id < nextId
    }

    constructor ()
      ensures Valid() && ids == {}
    {
      ids, nextId := {}, 0;
    }

    /** `addListener`: a fresh id, now registered. */
    method Add() returns (id: nat)
      requires Valid()
      modifies this
      ensures Valid() && id !in old(ids) && ids == old(ids) + {id}
    {
      id := nextId;
      ids := ids + {id};
      nextId := nextId + 1;
    }

    /** `removeListener`. */
    method Remove(id: nat)
      requires Valid()
      modifies this
      ensures Valid() && ids == old(ids) - {id}
    {
      ids := ids - {id};
    }
  }

  /** The host side of a slider relay (`getSliderState`). */
  class SliderState {
    var normalised: real
    var calls: seq<HostCall>
    const events: Listeners

    constructor (initial: real)
      ensures normalised == initial && calls == [] && fresh(events) && events.Valid() && events.ids == {}
    {
      normalised, calls := initial, [];
      events := new Listeners();
    }

    method SetNormalisedValue(v: real)
      modifies this
      ensures normalised == v && calls == old(calls) + [SetNormalised(v)]
    {
      normalised := v;
      calls := calls + [SetNormalised(v)];
    }

    method SliderDragStarted()
      modifies this
      ensures normalised == old(normalised) && calls == old(calls) + [DragStarted]
    {
      calls := calls + [DragStarted];
    }

    method SliderDragEnded()
      modifies this
      ensures normalised == old(normalised) && calls == old(calls) + [DragEnded]
    {
      calls := calls + [DragEnded];
    }
  }

  /** The host side of a toggle relay (`getToggleState`). */
  class ToggleState {
    var value: bool
    var calls: seq<HostCall>
    const events: Listeners

    constructor (initial: bool)
      ensures value == initial && calls == [] && fresh(events) && events.Valid() && events.ids == {}
    {
      value, calls := initial, [];
      events := new Listeners();
    }

    method SetValue(b: bool)
      modifies this
      ensures value == b && calls == old(calls) + [SetToggle(b)]
    {
      value := b;
      calls := calls + [SetToggle(b)];
    }
  }

  // ---------------------------------------------------------------------
  // The hooks

  /** `useSliderParam`. */
  class SliderParam {
    const state: SliderState
    const isConnected: bool
    var value: real
    var isDragging: bool
    var listenerId: Option<nat>

    function Model(): SliderModel
      reads this, state
    {
      SliderModel(value, isDragging, state.normalised, state.calls)
    }

    /** The first render: the supplied default, 0.5 when none is given. */
    constructor (state: SliderState, isConnected: bool, defaultValue: Option<real>)
      ensures this.state == state && this.isConnected == isConnected
      ensures value == (if defaultValue.Some? then defaultValue.value else 0.5)
      ensures !isDragging && listenerId == None
    {
      this.state := state;
      this.isConnected := isConnected;
      value := if defaultValue.Some? then defaultValue.value else 0.5;
      isDragging := false;
      listenerId := None;
    }

    /** The mount effect: adopt the host value when hosted, then register the value-changed listener. */
    method Mount()
      requires state.events.Valid()
      modifies this`value, this`listenerId, state.events
      ensures value == (if isConnected then state.normalised else old(value))
      ensures state.events.Valid() && listenerId.Some? && listenerId.value !in old(state.events.ids)
      ensures state.events.ids == old(state.events.ids) + {listenerId.value}
    {
      if isConnected {
        value := state.normalised;
      }
      var id := state.events.Add();
      listenerId := Some(id);
    }

    /** The value-changed listener. */
    method OnValueChanged()
      modifies this`value
      ensures Model() == Notified(old(Model()))
    {
      if !isDragging {
        value := state.normalised;
      }
    }

    /** The effect's cleanup: the listener registered at mount is removed, and only it. */
    method Unmount()
      requires listenerId.Some? && state.events.Valid()
      modifies state.events
      ensures state.events.Valid() && state.events.ids == old(state.events.ids) - {listenerId.value}
    {
      state.events.Remove(listenerId.value);
    }

    /** Local value first, then the host. */
    method SetValue(v: real)
      modifies this`value, state
      ensures Model() == SliderStep(old(Model()), SliderEvent.SetValue(v))
    {
      value := v;
      state.SetNormalisedValue(v);
    }

    method OnDragStart()
      modifies this`isDragging, state
      ensures Model() == SliderStep(old(Model()), DragStart)
    {
      isDragging := true;
      state.SliderDragStarted();
    }

    /** The drag ends, then the local value re-syncs to the host's. */
    method OnDragEnd()
      modifies this`isDragging, this`value, state
      ensures Model() == SliderStep(old(Model()), DragEnd)
    {
      isDragging := false;
      state.SliderDragEnded();
      value := state.normalised;
    }
  }

  /** `useToggleParam`. */
  class ToggleParam {
    const state: ToggleState
    const isConnected: bool
    var value: bool
    var listenerId: Option<nat>

    function Model(): ToggleModel
      reads this, state
    {
      ToggleModel(value, state.value, state.calls)
    }

    /** The first render: the supplied default, false when none is given. */
    constructor (state: ToggleState, isConnected: bool, defaultValue: Option<bool>)
      ensures this.state == state && this.isConnected == isConnected
      ensures value == (defaultValue.Some? && defaultValue.value) && listenerId == None
    {
      this.state := state;
      this.isConnected := isConnected;
      value := defaultValue.Some? && defaultValue.value;
      listenerId := None;
    }

    method Mount()
      requires state.events.Valid()
      modifies this`value, this`listenerId, state.events
      ensures value == (if isConnected then state.value else old(value))
      ensures state.events.Valid() && listenerId.Some? && listenerId.value !in old(state.events.ids)
      ensures state.events.ids == old(state.events.ids) + {listenerId.value}
    {
      if isConnected {
        value := state.value;
      }
      var id := state.events.Add();
      listenerId := Some(id);
    }

    /** The value-changed listener: always applied. */
    method OnValueChanged()
      modifies this`value
      ensures value == state.value
    {
      value := state.value;
    }

    method Unmount()
      requires listenerId.Some? && state.events.Valid()
      modifies state.events
      ensures state.events.Valid() && state.events.ids == old(state.events.ids) - {listenerId.value}
    {
      state.events.Remove(listenerId.value);
    }

    method SetValue(b: bool)
      modifies this`value, state
      ensures Model() == ToggleStep(old(Model()), ToggleSetValue(b))
    {
      value := b;
      state.SetValue(b);
    }

    /** The new value is computed from the host's value, not the local one. */
    method Toggle()
      modifies this`value, state
      ensures Model() == ToggleStep(old(Model()), ToggleEvent.Toggle)
    {
      var newValue := !state.value;
      value := newValue;
      state.SetValue(newValue);
    }
  }
}
