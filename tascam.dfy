/** The Porta 80 skin (web-ui/src/components/modules/TascamModule.tsx): a stereo pair of bar meters, a cassette, a record switch. */
module Tascam {
  import opened Common

  /** `ChannelMeter`'s fill height, in percent. */
  function ChannelHeight(value: real): (h: real)
    ensures 0.0 <= h <= 100.0
    ensures 0.0 <= value <= 1.0 ==> h == value * 100.0
  {
    Min(100.0, Max(0.0, value * 100.0))
  }

  /** The left meter shows the output peak. */
  function LeftLevel(bypassed: bool, output: real): (r: real)
    ensures bypassed ==> r == 0.0
    ensures r <= 1.0 && (output >= 0.0 ==> r >= 0.0)
    ensures !bypassed && output <= 1.0 ==> r == output
    ensures !bypassed && output >= 1.0 ==> r == 1.0
  {
    if bypassed then 0.0 else Min(1.0, output)
  }

  /** The right meter shows the output peak at 95%. */
  function RightLevel(bypassed: bool, output: real): (r: real)
    ensures bypassed ==> r == 0.0
    ensures r <= 1.0 && (output >= 0.0 ==> r >= 0.0)
    ensures !bypassed && output * 0.95 <= 1.0 ==> r == output * 0.95
    ensures !bypassed && output * 0.95 >= 1.0 ==> r == 1.0
  {
    if bypassed then 0.0 else Min(1.0, output * 0.95)
  }

  /** For a non-negative peak the right meter never reads above the left one. */
  lemma RightNotAboveLeft(bypassed: bool, output: real)
    requires output >= 0.0
    ensures RightLevel(bypassed, output) <= LeftLevel(bypassed, output)
    ensures ChannelHeight(RightLevel(bypassed, output)) <= ChannelHeight(LeftLevel(bypassed, output))
  {
  }

  datatype Transport = Transport(cassetteSpinning: bool, pilotLight: bool, recordActive: bool)

  function ShowTransport(bypassed: bool): (t: Transport)
    ensures t.cassetteSpinning == !bypassed && t.pilotLight == !bypassed && t.recordActive == !bypassed
  {
    Transport(!bypassed, !bypassed, !bypassed)
  }

  /** The transport and the meters agree: a stopped cassette comes with both meters at zero, a running one with live meters. */
  lemma TransportAgreesWithMeters(bypassed: bool, output: real)
    ensures !ShowTransport(bypassed).cassetteSpinning ==> LeftLevel(bypassed, output) == 0.0 && RightLevel(bypassed, output) == 0.0
    ensures ShowTransport(bypassed).cassetteSpinning && 0.0 <= output <= 1.0 ==> LeftLevel(bypassed, output) == output
  {
  }
}
