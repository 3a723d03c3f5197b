/** The needle VU meter (web-ui/src/components/VUMeter.tsx). */
module VuMeter {
  import opened Common

  datatype Variant = Golden | Jade

  datatype Props = Props(value: real, variant: Variant, labelText: string)

  /** The props as the component sees them: variant golden and label "Level" unless given. */
  function WithDefaults(value: real, variant: Option<Variant>, labelText: Option<string>): (p: Props)
    ensures p.value == value
    ensures p.variant == (if variant.Some? then variant.value else Golden)
    ensures p.labelText == (if labelText.Some? then labelText.value else "Level")
  {
    Props(value, if variant.Some? then variant.value else Golden, if labelText.Some? then labelText.value else "Level")
  }

  /** The needle swings 90 degrees over the unit range. */
  function NeedleAngle(value: real): (a: real)
    ensures 0.0 <= value <= 1.0 ==> -45.0 <= a <= 45.0
  {
    -45.0 + value * 90.0
  }

  /** Silence points the needle hard left, full scale hard right, half scale straight up. */
  lemma NeedleLandmarks()
    ensures NeedleAngle(0.0) == -45.0 && NeedleAngle(0.5) == 0.0 && NeedleAngle(1.0) == 45.0
  {
  }

  /** A louder level always turns the needle further. */
  lemma NeedleStrictlyIncreasing(v1: real, v2: real)
    requires v1 < v2
    ensures NeedleAngle(v1) < NeedleAngle(v2)
  {
  }

  /** The angle determines the level: the needle can be read back. */
  lemma NeedleReadsBack(value: real)
    ensures (NeedleAngle(value) + 45.0) / 90.0 == value
  {
  }
}
