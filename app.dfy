/**
 * The plugin window's React root (web-ui/src/App.tsx): the three preamp
 * skins, the carousel that moves between them, the effect lists each skin
 * shows, the horizontal slider, and the level displays.
 */
module App {
  import opened Common
  import opened Pointer
  import ParameterIds

  // ---------------------------------------------------------------------
  // Tables

  datatype Preamp = Preamp(id: string, name: string, subtitle: string, theme: string)

  const Preamps: seq<Preamp> := [
    Preamp("cathode", "Cathode", "Vintage Tube Warmth", "hearthglow"),
    Preamp("filament", "Filament", "Cold Digital Edge", "nightfall"),
    Preamp("steelplate", "Steel Plate", "Raw Iron Grit", "steelplate")
  ]

  datatype EffectEntry = EffectEntry(id: string, name: string)

  const CathodeEffects: seq<EffectEntry> := [
    EffectEntry("cath_ember", "Ember"), EffectEntry("cath_haze", "Haze"), EffectEntry("cath_echo", "Echo"),
    EffectEntry("cath_drift", "Drift"), EffectEntry("cath_velvet", "Velvet")
  ]
  const FilamentEffects: seq<EffectEntry> := [
    EffectEntry("fil_fracture", "Fracture"), EffectEntry("fil_glisten", "Glisten"), EffectEntry("fil_cascade", "Cascade"),
    EffectEntry("fil_phase", "Phase"), EffectEntry("fil_prism", "Prism")
  ]
  const SteelPlateEffects: seq<EffectEntry> := [
    EffectEntry("steel_scorch", "Scorch"), EffectEntry("steel_rust", "Rust"), EffectEntry("steel_grind", "Grind"),
    EffectEntry("steel_shred", "Shred"), EffectEntry("steel_snarl", "Snarl")
  ]

  function Ids(entries: seq<EffectEntry>): (ids: seq<string>)
    ensures |ids| == |entries| && forall i :: 0 <= i < |entries| ==> ids[i] == entries[i].id
  {
    seq(|entries|, i requires 0 <= i < |entries| => entries[i].id)
  }

  /** Each skin's effect strip binds exactly its family's parameter identifiers, in header order. */
  lemma EffectListsMatchIds()
    ensures Ids(CathodeEffects) == ParameterIds.CathodeIds
    ensures Ids(FilamentEffects) == ParameterIds.FilamentIds
    ensures Ids(SteelPlateEffects) == ParameterIds.SteelIds
  {
  }

  /** Which control panel a skin shows; an unknown id falls back to the cathode panel. */
  datatype Panel = CathodeControls | FilamentControls | SteelPlateControls

  function ControlsFor(id: string): (p: Panel)
    ensures id == Preamps[1].id ==> p == FilamentControls
    ensures id == Preamps[2].id ==> p == SteelPlateControls
    ensures id != Preamps[1].id && id != Preamps[2].id ==> p == CathodeControls
  {
    if id == "filament" then FilamentControls
    else if id == "steelplate" then SteelPlateControls
    else CathodeControls
  }

  /** Each of the three skins gets a panel of its own. */
  lemma PanelsDiffer(i: nat, j: nat)
    requires i < j < |Preamps|
    ensures ControlsFor(Preamps[i].id) != ControlsFor(Preamps[j].id)
  {
  }

  // ---------------------------------------------------------------------
  // The carousel

  datatype Direction = Left | Right

  /** The two deferred steps of a transition: show the new skin (80 ms), then end the transition (200 ms). */
  datatype Timer = SwapTo(index: int) | Finish

  datatype Carousel = Carousel(current: int, display: int, transitioning: bool, direction: Direction, pending: seq<Timer>)

  const Initial: Carousel := Carousel(0, 0, false, Right, [])

  /**
   * The states the carousel can be in: both indices name a skin; a
   * transition is in progress exactly while a step is pending; the swap
   * comes first and shows the current skin; once it has happened the shown
   * skin is the current one.
   */
  predicate Valid(c: Carousel) {
    0 <= c.current < |Preamps| && 0 <= c.display < |Preamps|
    && (c.transitioning <==> c.pending != [])
    && (c.pending == [] || c.pending == [SwapTo(c.current), Finish] || c.pending == [Finish])
    && (c.pending == [] || c.pending == [Finish] ==> c.display == c.current)
  }

  /** Whether `navigateTo(i)` does anything. */
  predicate Accepts(c: Carousel, i: int)
    ensures Accepts(c, i) ==> 0 <= i < |Preamps| && i != c.current
    ensures c.transitioning ==> !Accepts(c, i)
  {
    !c.transitioning && i != c.current && 0 <= i < |Preamps|
  }

  /**
   * `navigateTo(i)`: a refused request changes nothing; an accepted one moves
   * `current` at once, leaves the shown skin for the first timer to change,
   * and queues its two timers after any already pending.
   */
  function Navigate(c: Carousel, i: int): (r: Carousel)
    ensures r != c <==> Accepts(c, i)
    ensures r.display == c.display
    ensures |c.pending| <= |r.pending| && r.pending[..|c.pending|] == c.pending
    ensures r != c ==> r.current == i && r.transitioning && r.pending[|c.pending|..] == [SwapTo(i), Finish]
  {
    if !Accepts(c, i) then c
    else Carousel(i, c.display, true, if i > c.current then Right else Left, c.pending + [SwapTo(i), Finish])
  }

  /** The earliest pending step runs. */
  function Fire(c: Carousel): (r: Carousel)
    requires c.pending != []
    ensures r.current == c.current && r.direction == c.direction && r.pending == c.pending[1..]
    ensures c.pending[0].SwapTo? ==> r.display == c.pending[0].index && r.transitioning == c.transitioning
    ensures c.pending[0].Finish? ==> r.display == c.display && !r.transitioning
  {
    match c.pending[0]
    case SwapTo(i) => c.(display := i, pending := c.pending[1..])
    case Finish => c.(transitioning := false, pending := c.pending[1..])
  }

  lemma InitialValid()
    ensures Valid(Initial)
  {
  }

  /** An accepted request moves `current` at once and points the slide toward it; a refused one changes nothing. */
  lemma NavigateEffect(c: Carousel, i: int)
    requires Valid(c)
    ensures Valid(Navigate(c, i))
    ensures !Accepts(c, i) ==> Navigate(c, i) == c
    ensures Accepts(c, i) ==> var n := Navigate(c, i);
              n.current == i && n.transitioning && n.display == c.display
              && (n.direction == Right <==> i > c.current) && n.pending == [SwapTo(i), Finish]
  {
  }

  lemma FireKeepsValid(c: Carousel)
    requires Valid(c) && c.pending != []
    ensures Valid(Fire(c)) && Fire(c).current == c.current
  {
  }

  /**
   * After an accepted request, the first step shows the new skin while the
   * transition is still on, and the second ends it: the swap always precedes
   * the clear, and the carousel comes to rest on the requested skin.
   */
  lemma TransitionCompletes(c: Carousel, i: int)
    requires Valid(c) && Accepts(c, i)
    ensures var s := Fire(Navigate(c, i));
            s.display == i && s.transitioning && s.pending == [Finish]
    ensures var f := Fire(Fire(Navigate(c, i)));
            f.current == i && f.display == i && !f.transitioning && f.pending == []
  {
  }

  /** `goNext`/`goPrev` never leave the three skins. */
  lemma StepsStayInRange(c: Carousel)
    requires Valid(c)
    ensures 0 <= Navigate(c, c.current + 1).current < |Preamps|
    ensures 0 <= Navigate(c, c.current - 1).current < |Preamps|
  {
  }

  /** What can happen to the carousel: a navigation request (arrow or indicator), or its earliest timer firing. */
  datatype CarouselEvent = Request(index: int) | TimerFires

  function Apply(c: Carousel, e: CarouselEvent): Carousel {
    match e
    case Request(i) => Navigate(c, i)
    case TimerFires => if c.pending == [] then c else Fire(c)
  }

  function ApplyAll(c: Carousel, events: seq<CarouselEvent>): Carousel
    decreases |events|
  {
    if events == [] then c else ApplyAll(Apply(c, events[0]), events[1..])
  }

  lemma {:induction false} ApplyAllKeepsValid(c: Carousel, events: seq<CarouselEvent>)
    requires Valid(c)
    ensures Valid(ApplyAll(c, events))
    decreases |events|
  {
    if events != [] {
      match events[0] {
        case Request(i) => NavigateEffect(c, i);
        case TimerFires => if c.pending != [] { FireKeepsValid(c); }
      }
      ApplyAllKeepsValid(Apply(c, events[0]), events[1..]);
    }
  }

  /** Whatever the user clicks and however the timers interleave, both indices always name one of the three skins. */
  lemma AlwaysOnASkin(events: seq<CarouselEvent>)
    ensures var c := ApplyAll(Initial, events);
            0 <= c.current < |Preamps| && 0 <= c.display < |Preamps| && (c.transitioning <==> c.pending != [])
  {
    ApplyAllKeepsValid(Initial, events);
  }

  /** The left arrow: disabled on the first skin and during a transition. */
  predicate LeftArrowDisabled(c: Carousel)
    ensures c.transitioning || c.current == 0 ==> LeftArrowDisabled(c)
    ensures LeftArrowDisabled(c) && Valid(c) && !c.transitioning ==> !Accepts(c, c.current - 1)
  {
    c.current == 0 || c.transitioning
  }

  /** The right arrow: disabled on the last skin and during a transition. */
  predicate RightArrowDisabled(c: Carousel)
    ensures c.transitioning || c.current == |Preamps| - 1 ==> RightArrowDisabled(c)
    ensures RightArrowDisabled(c) && Valid(c) && !c.transitioning ==> !Accepts(c, c.current + 1)
  {
    c.current == |Preamps| - 1 || c.transitioning
  }

  /** An arrow is disabled exactly when pressing it would do nothing. */
  lemma ArrowsDisabledIffRefused(c: Carousel)
    requires Valid(c)
    ensures LeftArrowDisabled(c) <==> !Accepts(c, c.current - 1)
    ensures RightArrowDisabled(c) <==> !Accepts(c, c.current + 1)
  {
  }

  /** The indicator buttons: all disabled during a transition; the current skin's is highlighted; any other one, when enabled, navigates. */
  lemma IndicatorsNavigate(c: Carousel, i: int)
    requires Valid(c) && 0 <= i < |Preamps|
    ensures !c.transitioning && i != c.current ==> Navigate(c, i).current == i
    ensures c.transitioning ==> Navigate(c, i) == c
  {
  }

  /** The carousel as the component holds it: four state variables and the timers it has scheduled. */
  class CarouselState {
    var currentIndex: int
    var displayIndex: int
    var isTransitioning: bool
    var transitionDirection: Direction
    var timers: seq<Timer>

    function Model(): Carousel
      reads this
    {
      Carousel(currentIndex, displayIndex, isTransitioning, transitionDirection, timers)
    }

    constructor ()
      ensures Model() == Initial
    {
      currentIndex, displayIndex, isTransitioning, transitionDirection, timers := 0, 0, false, Right, [];
    }

    /** The two guards, then the three setters and the two timers. */
    method NavigateTo(newIndex: int)
      modifies this
      ensures Model() == Navigate(old(Model()), newIndex)
    {
      if isTransitioning || newIndex == currentIndex {
        return;
      }
      if newIndex < 0 || newIndex >= |Preamps| {
        return;
      }
      transitionDirection := if newIndex > currentIndex then Right else Left;
      isTransitioning := true;
      currentIndex := newIndex;
      timers := timers + [SwapTo(newIndex)];
      timers := timers + [Finish];
    }

    method GoNext()
      modifies this
      ensures Model() == Navigate(old(Model()), old(currentIndex) + 1)
    {
      NavigateTo(currentIndex + 1);
    }

    method GoPrev()
      modifies this
      ensures Model() == Navigate(old(Model()), old(currentIndex) - 1)
    {
      NavigateTo(currentIndex - 1);
    }

    /** The earliest scheduled timer fires. */
    method FireTimer()
      requires timers != []
      modifies this
      ensures Model() == Fire(old(Model()))
    {
      var t := timers[0];
      timers := timers[1..];
      match t
      case SwapTo(i) => displayIndex := i;
      case Finish => isTransitioning := false;
    }
  }

  // ---------------------------------------------------------------------
  // The skins' displays

  /** The input and output levels the skins show: the host's peak, capped at full scale. */
  function DisplayLevel(raw: real): (r: real)
    ensures r <= 1.0 && (r == raw || r == 1.0)
    ensures raw <= 1.0 ==> r == raw
    ensures raw >= 0.0 ==> 0.0 <= r
  {
    Min(1.0, raw)
  }

  /** The filament skin's horizontal slider: the press point's offset across the track, clamped to the unit range. */
  function SliderValue(left: real, width: real, x: real): (r: real)
    requires width > 0.0
    ensures 0.0 <= r <= 1.0
    ensures left <= x <= left + width ==> r == (x - left) / width
    ensures x <= left ==> r == 0.0
    ensures x >= left + width ==> r == 1.0
  {
    var f := (x - left) / width;
    assert left <= x <= left + width ==> 0.0 <= f <= 1.0 by {
      if left <= x <= left + width {
        RatioInUnit(x - left, width);
      }
    }
    RatioOutsideUnit(x - left, width);
    Clamp(f, 0.0, 1.0)
  }

  /**
   * The steel-plate spectrum bars' envelope across the 24-bar display: full
   * at the middle bar, 0.7 at either edge, and (`BarCentreFallsOff`) never
   * larger for a bar further from the middle.
   */
  function BarCentre(index: int): (r: real)
    ensures 0 <= index <= 24 ==> 0.7 <= r <= 1.0
    ensures index == 12 ==> r == 1.0
    ensures index == 0 || index == 24 ==> r == 0.7
  {
    var d := (index - 12) as real / 12.0;
    assert 0 <= index <= 24 ==> 0.0 <= Abs(d) <= 1.0;
    1.0 - Abs(d) * 0.3
  }

  /** A bar at least as far from the middle as another is drawn no taller in the envelope. */
  lemma BarCentreFallsOff(i: int, j: int)
    requires Abs((i - 12) as real) <= Abs((j - 12) as real)
    ensures BarCentre(j) <= BarCentre(i)
  {
    var di, dj := (i - 12) as real / 12.0, (j - 12) as real / 12.0;
    assert Abs(di) == Abs((i - 12) as real) / 12.0;
    assert Abs(dj) == Abs((j - 12) as real) / 12.0;
  }

  /**
   * `getBarHeight`, with the three oscillator terms (`Math.sin`/`Math.cos`
   * of the bar index and the time) given as values: whatever they are, the
   * bar stays between 5% and full height.
   */
  function BarHeight(level: real, index: int, sin1: real, sin2: real, cos3: real): (r: real)
    ensures 0.05 <= r <= 1.0
  {
    Max(0.05, Min(1.0, (level * 0.6 + sin1 * 0.15 + sin2 * 0.1 + cos3 * 0.08) * BarCentre(index)))
  }

  /** The track of the filament skin's slider, as far as the mapping uses it. */
  datatype Track = Track(left: real, width: real)

  /** `FilamentSlider`: a horizontal slider that, like the fader, sets the value from the press on. */
  class FilamentSlider {
    const window: Window
    const track: Option<Track>
    var isDragging: bool
    var presses: nat
    var calls: seq<Callback>

    predicate Valid()
      reads this
    {
      track.Some? ==> track.value.width > 0.0
    }

    constructor (window: Window, track: Option<Track>)
      requires track.Some? ==> track.value.width > 0.0
      ensures this.window == window && this.track == track && Valid()
      ensures !isDragging && presses == 0 && calls == []
    {
      this.window := window;
      this.track := track;
      isDragging, presses, calls := false, 0, [];
    }

    /** What `updateValue(x)` requests: nothing while the track is not rendered. */
    function Update(x: real): seq<Callback>
      requires Valid()
      reads this
    {
      if track.Some? then [Change(SliderValue(track.value.left, track.value.width, x))] else []
    }

    method UpdateValue(x: real)
      requires Valid()
      modifies this`calls
      ensures calls == old(calls) + Update(x)
      ensures forall i :: |old(calls)| <= i < |calls| ==> calls[i].Change? && 0.0 <= calls[i].v <= 1.0
    {
      if track.Some? {
        calls := calls + [Change(SliderValue(track.value.left, track.value.width, x))];
      }
    }

    method MouseDown(x: real)
      requires Valid()
      modifies this, window
      ensures isDragging && presses == old(presses) + 1
      ensures calls == old(calls) + [DragStart] + Update(x)
      ensures window.listeners == old(window.listeners) + PressListeners(old(presses))
    {
      isDragging := true;
      calls := calls + [DragStart];
      UpdateValue(x);
      window.AddEventListener(Listener(Move, presses));
      window.AddEventListener(Listener(Up, presses));
      presses := presses + 1;
    }

    method MouseMove(x: real)
      requires Valid()
      modifies this`calls
      ensures calls == old(calls) + (if isDragging then Update(x) else [])
    {
      if isDragging {
        UpdateValue(x);
      }
    }

    method MouseUp(press: nat)
      modifies this`isDragging, this`calls, window
      ensures !isDragging && calls == old(calls) + [DragEnd]
      ensures window.listeners == old(window.listeners) - PressListeners(press)
    {
      isDragging := false;
      calls := calls + [DragEnd];
      window.RemoveEventListener(Listener(Move, press));
      window.RemoveEventListener(Listener(Up, press));
    }
  }
}
