/** The Jade Space skin (web-ui/src/components/modules/RE201Module.tsx): an LCD status text, two LED bars, one pilot light. */
module Re201 {
  import opened Meters

  datatype Display = Display(text: string, inputLevel: real, outputLevel: real, pilotLight: bool)

  function DisplayText(bypassed: bool): (t: string)
    ensures t == "BYPASS" <==> bypassed
    ensures t == "ACTIVE" <==> !bypassed
  {
    if bypassed then "BYPASS" else "ACTIVE"
  }

  function Show(bypassed: bool, inputRaw: real, outputRaw: real): (d: Display)
    ensures d.text == DisplayText(bypassed) && d.pilotLight == !bypassed
    ensures d.inputLevel == ShownLevel(bypassed, inputRaw) && d.outputLevel == ShownLevel(bypassed, outputRaw)
  {
    Display(DisplayText(bypassed), ShownLevel(bypassed, inputRaw), ShownLevel(bypassed, outputRaw), !bypassed)
  }

  /** The status text and the pilot light always agree, and the text tells the two states apart. */
  lemma TextAgreesWithLight(bypassed: bool, inputRaw: real, outputRaw: real)
    ensures var d := Show(bypassed, inputRaw, outputRaw); d.pilotLight <==> d.text == "ACTIVE"
    ensures DisplayText(true) != DisplayText(false)
  {
  }
}
