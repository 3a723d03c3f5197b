/** The Golden Tape skin (web-ui/src/components/modules/EP3Module.tsx): a preset selector, a VU bar and a pilot light. */
module Ep3 {
  import opened Meters

  const Presets: seq<string> := ["Init", "Warm Vintage", "Crispy Tape", "Fat Compression", "Gentle Squeeze", "Tape Saturation", "Lo-Fi Crunch"]

  /** The selector's options: each preset's index as the value, its name as the text. */
  datatype OptionItem = OptionItem(value: int, text: string)

  function Options(): (opts: seq<OptionItem>)
    ensures |opts| == |Presets|
    ensures forall i :: 0 <= i < |opts| ==> opts[i] == OptionItem(i, Presets[i])
  {
    seq(|Presets|, i requires 0 <= i < |Presets| => OptionItem(i, Presets[i]))
  }

  /** The option values, as a set. */
  function OfferedValues(): set<int> {
    set o | o in Options() :: o.value
  }

  /** Seven presets, "Init" first; the values offered are exactly the indices 0 to 6. */
  lemma OptionsAreIndices()
    ensures |Presets| == 7 && Presets[0] == "Init"
    ensures forall v :: v in OfferedValues() <==> 0 <= v < 7
  {
    var opts := Options();
    forall v | 0 <= v < 7 ensures v in OfferedValues() {
      assert opts[v] in opts;
    }
    forall v | v in OfferedValues() ensures 0 <= v < 7 {
      var o :| o in opts && o.value == v;
      var k :| 0 <= k < |opts| && opts[k] == o;
    }
  }

  /** The VU bar's level: nothing when bypassed, otherwise the output peak capped at full scale. */
  function VuLevel(bypassed: bool, outputRaw: real): (r: real)
    ensures r == ShownLevel(bypassed, outputRaw)
  {
    if bypassed then 0.0 else if outputRaw <= 1.0 then outputRaw else 1.0
  }

  /** The VU bar's fill in percent stays within the bar for any non-negative peak, and is empty when bypassed. */
  lemma VuFillInRange(bypassed: bool, outputRaw: real)
    requires outputRaw >= 0.0
    ensures 0.0 <= BarPercent(VuLevel(bypassed, outputRaw)) <= 100.0
    ensures bypassed ==> BarPercent(VuLevel(bypassed, outputRaw)) == 0.0
  {
    ShownLevelFillsBar(bypassed, outputRaw);
  }

  function PilotLight(bypassed: bool): bool {
    !bypassed
  }

  /** The skin's own state: the selected preset. */
  class Ep3Panel {
    var preset: int

    constructor ()
      ensures preset == 0
    {
      preset := 0;
    }

    predicate Valid()
      reads this
    {
      0 <= preset < |Presets|
    }

    /** The selector's change handler: `Number(e.target.value)` of the chosen option. */
    method Select(choice: OptionItem)
      requires choice in Options()
      modifies this
      ensures preset == choice.value && Valid()
    {
      preset := choice.value;
    }

    function PresetName(): (name: string)
      requires Valid()
      reads this
      ensures name == Options()[preset].text
    {
      Presets[preset]
    }
  }
}
