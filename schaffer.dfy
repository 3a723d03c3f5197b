/** The Obsidian skin (web-ui/src/components/modules/SchafferModule.tsx): two LED bars and two pilot lights. */
module Schaffer {
  import opened Meters

  /** What the skin shows for the bypass switch and the host's peaks. */
  datatype Display = Display(inputLevel: real, outputLevel: real, signalLight: bool, powerLight: bool)

  function Show(bypassed: bool, inputRaw: real, outputRaw: real): (d: Display)
    ensures d.signalLight == d.powerLight && (d.signalLight <==> !bypassed)
    ensures bypassed ==> d.inputLevel == 0.0 && d.outputLevel == 0.0
    ensures !bypassed ==> d.inputLevel <= 1.0 && d.outputLevel <= 1.0
    ensures !bypassed && inputRaw <= 1.0 ==> d.inputLevel == inputRaw
    ensures !bypassed && outputRaw <= 1.0 ==> d.outputLevel == outputRaw
  {
    Display(ShownLevel(bypassed, inputRaw), ShownLevel(bypassed, outputRaw), !bypassed, !bypassed)
  }

  /** Bypassed, both bars drop to the bottom segment and both lights go out; otherwise the lights are on. */
  lemma BypassDarkens(bypassed: bool, inputRaw: real, outputRaw: real)
    ensures var d := Show(bypassed, inputRaw, outputRaw);
            bypassed ==> LitCount(d.inputLevel) == 1 && LitCount(d.outputLevel) == 1 && !d.signalLight && !d.powerLight
    ensures var d := Show(bypassed, inputRaw, outputRaw);
            !bypassed ==> d.signalLight && d.powerLight && d.inputLevel <= 1.0 && d.outputLevel <= 1.0
  {
    BypassedBarShowsOneSegment(inputRaw);
    BypassedBarShowsOneSegment(outputRaw);
  }
}
