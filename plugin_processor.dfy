/**
 * The audio processor the host talks to (Source/PluginProcessor.cpp): the
 * parameter layout and its display texts, bus-layout validation, and the
 * block callback that clears unused channels, handles bypass and runs the
 * preamp.
 */
module Processor {
  import opened Common
  import opened Text
  import opened Juce
  import ParameterIds
  import Preamp

  // ---------------------------------------------------------------------
  // Bus layouts

  /** The channel sets a host can offer on a bus. */
  datatype ChannelSet = Disabled | Mono | Stereo | Discrete(count: nat)
  {
    function Size(): nat {
      match this
      case Disabled => 0
      case Mono => 1
      case Stereo => 2
      case Discrete(n) => n
    }
  }

  /** `isBusesLayoutSupported`: the main output must be mono or stereo and match the main input. */
  function IsBusesLayoutSupported(input: ChannelSet, output: ChannelSet): (r: bool)
    ensures r <==> (output == Mono || output == Stereo) && input == output
  {
    if output != Mono && output != Stereo then false
    else if output != input then false
    else true
  }

  /** Under a supported layout there are as many inputs as outputs, one or two of them. */
  lemma SupportedLayoutIsBalanced(input: ChannelSet, output: ChannelSet)
    requires IsBusesLayoutSupported(input, output)
    ensures input.Size() == output.Size() && 1 <= output.Size() <= 2
  {
  }

  // ---------------------------------------------------------------------
  // Parameter layout

  datatype NormalisableRange = NormalisableRange(start: real, end: real, interval: real)

  /** How a float parameter renders its value as text. */
  datatype Display = Percent | Decibels

  datatype Parameter =
    | FloatParameter(id: string, version: int, name: string, range: NormalisableRange, defaultValue: real, display: Display)
    | BoolParameter(id: string, version: int, name: string, defaultOn: bool)

  /** `createParameterLayout`: drive, tone, output and bypass, in that order. */
  function ParameterLayout(): (ps: seq<Parameter>)
    ensures |ps| == 4
    ensures ps[0].id == ParameterIds.Drive && ps[1].id == ParameterIds.Tone
    ensures ps[2].id == ParameterIds.Output && ps[3].id == ParameterIds.Bypass
    ensures forall i :: 0 <= i < |ps| ==> ps[i].version == ParameterIds.StateVersion
    ensures forall i :: 0 <= i < 3 ==> ps[i].FloatParameter? && ps[i].range == NormalisableRange(0.0, 1.0, 0.01)
    ensures forall i :: 0 <= i < 3 ==> ps[i].range.start <= ps[i].defaultValue <= ps[i].range.end
    ensures ps[0].defaultValue == 0.25 && ps[1].defaultValue == 0.5 && ps[2].defaultValue == 0.5
    ensures ps[3] == BoolParameter(ParameterIds.Bypass, ParameterIds.StateVersion, "Bypass", false)
  {
    var unit := NormalisableRange(0.0, 1.0, 0.01);
    [ FloatParameter(ParameterIds.Drive, ParameterIds.StateVersion, "Drive", unit, 0.25, Percent),
      FloatParameter(ParameterIds.Tone, ParameterIds.StateVersion, "Tone", unit, 0.5, Percent),
      FloatParameter(ParameterIds.Output, ParameterIds.StateVersion, "Output", unit, 0.5, Decibels),
      BoolParameter(ParameterIds.Bypass, ParameterIds.StateVersion, "Bypass", false) ]
  }

  /** The four layout identifiers are distinct, so each parameter is found by its own id. */
  lemma LayoutIdsDistinct()
    ensures forall i, j :: 0 <= i < j < |ParameterLayout()| ==> ParameterLayout()[i].id != ParameterLayout()[j].id
  {
  }

  /** Drive and tone text: the value times 100, truncated toward zero, then `%`. */
  function PercentText(value: real): (s: string)
    ensures EndsWith(s, "%")
    ensures s[..|s| - 1] == IntToString(Trunc(value * 100.0))
  {
    IntToString(Trunc(value * 100.0)) + "%"
  }

  /** For an in-range value the percent text reads back as a whole number in [0, 100] within 1 of `100 * value`. */
  lemma PercentTextReadsBack(value: real)
    requires 0.0 <= value <= 1.0
    ensures var s := PercentText(value);
            var digits := s[..|s| - 1];
            (forall i :: 0 <= i < |digits| ==> '0' <= digits[i] <= '9')
            && ParseNat(digits) <= 100
            && ParseNat(digits) as real <= value * 100.0 < ParseNat(digits) as real + 1.0
  {
    var p := Trunc(value * 100.0);
    assert 0 <= p;
    ParseNatToString(p);
    assert p as real <= value * 100.0 <= 100.0;
  }

  /** The output parameter shown in decibels: -12 dB at 0, +6 dB at 1. */
  function OutputDb(value: real): (db: real)
    ensures 0.0 <= value <= 1.0 ==> -12.0 <= db <= 6.0
    ensures value == 0.5 ==> db == -3.0
  {
    -12.0 + value * 18.0
  }

  /** The magnitude of `x` in tenths, rounded half up (`juce::String (x, 1)` keeps one decimal). */
  function Tenths(x: real): (t: nat)
    ensures t as real - 0.5 <= Abs(x) * 10.0 < t as real + 0.5
  {
    var r := JsRound(Abs(x) * 10.0);
    assert r >= 0;
    r
  }

  /** `x` with one decimal place: an optional minus sign, the whole part, a point, one digit. */
  function OneDecimal(x: real): (s: string)
    ensures IsOneDecimal(s)
    ensures (s[0] == '-') <==> x < 0.0
  {
    var t := Tenths(x);
    var whole := NatToString(t / 10);
    var s := (if x < 0.0 then "-" else "") + whole + "." + [DigitChar(t % 10)];
    assert s[0] == (if x < 0.0 then '-' else whole[0]);
    s
  }

  predicate IsOneDecimal(s: string) {
    |s| >= 3 && s[|s| - 2] == '.' && '0' <= s[|s| - 1] <= '9'
    && var start := if s[0] == '-' then 1 else 0;
       start < |s| - 2 && forall i :: start <= i < |s| - 2 ==> '0' <= s[i] <= '9'
  }

  /** Reads a one-decimal string back as a number. */
  function ReadOneDecimal(s: string): real
    requires IsOneDecimal(s)
  {
    var start := if s[0] == '-' then 1 else 0;
    var magnitude := ParseNat(s[start..|s| - 2]) as real + DigitValue(s[|s| - 1]) as real / 10.0;
    if start == 1 then -magnitude else magnitude
  }

  /** The one-decimal text reads back within half a tenth of the value. */
  lemma OneDecimalReadsBack(x: real)
    ensures Abs(ReadOneDecimal(OneDecimal(x)) - x) <= 0.05
  {
    var t := Tenths(x);
    var whole := NatToString(t / 10);
    var s := OneDecimal(x);
    var start := if x < 0.0 then 1 else 0;
    assert s[start..|s| - 2] == whole;
    assert DigitValue(s[|s| - 1]) == t % 10;
    ParseNatToString(t / 10);
    assert t == (t / 10) * 10 + t % 10;
    assert (t / 10) as real + (t % 10) as real / 10.0 == t as real / 10.0;
  }

  /** Output text: the decibel value with one decimal, then ` dB`. */
  function DecibelText(value: real): (s: string)
    ensures EndsWith(s, " dB") && IsOneDecimal(s[..|s| - 3])
  {
    var s := OneDecimal(OutputDb(value)) + " dB";
    assert s[..|s| - 3] == OneDecimal(OutputDb(value));
    s
  }

  /** The output text shows the gain within 0.05 dB, inside [-12, 6] dB for in-range values. */
  lemma DecibelTextReadsBack(value: real)
    ensures var s := DecibelText(value);
            Abs(ReadOneDecimal(s[..|s| - 3]) - OutputDb(value)) <= 0.05
  {
    var s := DecibelText(value);
    assert s[..|s| - 3] == OneDecimal(OutputDb(value));
    OneDecimalReadsBack(OutputDb(value));
  }

  /** The text a float parameter shows for `value`. */
  function DisplayText(p: Parameter, value: real): (s: string)
    requires p.FloatParameter?
    ensures p.display == Percent ==> s == PercentText(value)
    ensures p.display == Decibels ==> s == DecibelText(value)
  {
    match p.display
    case Percent => PercentText(value)
    case Decibels => DecibelText(value)
  }

  // ---------------------------------------------------------------------
  // Programs and tail

  function NumPrograms(): (n: int)
    ensures n == 1
  {
    1
  }

  function CurrentProgram(): (i: int)
    ensures i == 0
  {
    0
  }

  function TailLengthSeconds(): (t: real)
    ensures t == 0.0
  {
    0.0
  }

  /** The single program is the current one. */
  lemma CurrentProgramExists()
    ensures 0 <= CurrentProgram() < NumPrograms()
  {
  }

  // ---------------------------------------------------------------------
  // Channel clearing

  /** The columns of a block after channels `lo` to `hi - 1` have been zeroed. */
  function ClearChannels(columns: seq<seq<real>>, lo: nat, hi: nat): (r: seq<seq<real>>)
    ensures |r| == |columns|
    ensures forall k :: 0 <= k < |r| ==> |r[k]| == |columns[k]|
    ensures forall k, c :: 0 <= k < |r| && 0 <= c < |r[k]| ==> r[k][c] == if lo <= c < hi then 0.0 else columns[k][c]
  {
    seq(|columns|, k requires 0 <= k < |columns| =>
      seq(|columns[k]|, c requires 0 <= c < |columns[k]| => if lo <= c < hi then 0.0 else columns[k][c]))
  }

  /** When there are no more outputs than inputs, clearing changes nothing. */
  lemma ClearingNothing(columns: seq<seq<real>>, numIn: nat, numOut: nat)
    requires numOut <= numIn
    ensures ClearChannels(columns, numIn, numOut) == columns
  {
    var r := ClearChannels(columns, numIn, numOut);
    forall k | 0 <= k < |r|
      ensures r[k] == columns[k]
    {
    }
  }

  /** `buffer.clear (i, 0, numSamples)`: channel `i` becomes silent. */
  method ClearChannel(buffer: array2<real>, i: nat)
    requires i < buffer.Length0
    modifies buffer
    ensures forall c, k :: 0 <= c < buffer.Length0 && 0 <= k < buffer.Length1 ==>
              buffer[c, k] == if c == i then 0.0 else old(buffer[c, k])
  {
    var k := 0;
    while k < buffer.Length1
      invariant 0 <= k <= buffer.Length1
      invariant forall c, k' :: 0 <= c < buffer.Length0 && 0 <= k' < buffer.Length1 ==>
                  buffer[c, k'] == if c == i && k' < k then 0.0 else old(buffer[c, k'])
    {
      buffer[i, k] := 0.0;
      k := k + 1;
    }
  }

  /** The clearing loop of `processBlock`: every channel from `numIn` up to `numOut - 1`, and no other. */
  method ClearUnusedChannels(buffer: array2<real>, numIn: nat, numOut: nat, ghost input: seq<seq<real>>)
    requires numOut <= buffer.Length0 && Preamp.Snapshot(buffer, input)
    modifies buffer
    ensures Preamp.Snapshot(buffer, ClearChannels(input, numIn, numOut))
  {
    var i := numIn;
    while i < numOut
      invariant i == numIn || numIn <= i <= numOut
      invariant forall c, k :: 0 <= c < buffer.Length0 && 0 <= k < buffer.Length1 ==>
                  buffer[c, k] == if numIn <= c < i then 0.0 else input[k][c]
    {
      ClearChannel(buffer, i);
      i := i + 1;
    }
    ghost var r := ClearChannels(input, numIn, numOut);
    assert forall c, k {:trigger buffer[c, k]} :: 0 <= c < buffer.Length0 && 0 <= k < buffer.Length1 ==> buffer[c, k] == r[k][c];
  }

  // ---------------------------------------------------------------------
  // The processor

  /** The chain state after `reset`: filter memories cleared, smoothers snapped to their targets. */
  function ResetState(st: Preamp.ChainState): (r: Preamp.ChainState)
    ensures r.chain.toneL.coeffs == st.chain.toneL.coeffs && r.chain.toneR.coeffs == st.chain.toneR.coeffs
    ensures r.chain.dcL.coeffs == st.chain.dcL.coeffs && r.chain.dcR.coeffs == st.chain.dcR.coeffs
    ensures |r.chain.toneL.memory| == |st.chain.toneL.memory| && |r.chain.dcL.memory| == |st.chain.dcL.memory|
    ensures |r.chain.toneR.memory| == |st.chain.toneR.memory| && |r.chain.dcR.memory| == |st.chain.dcR.memory|
    ensures forall i :: 0 <= i < |r.chain.toneL.memory| ==> r.chain.toneL.memory[i] == 0.0
    ensures forall i :: 0 <= i < |r.chain.toneR.memory| ==> r.chain.toneR.memory[i] == 0.0
    ensures forall i :: 0 <= i < |r.chain.dcL.memory| ==> r.chain.dcL.memory[i] == 0.0
    ensures forall i :: 0 <= i < |r.chain.dcR.memory| ==> r.chain.dcR.memory[i] == 0.0
    ensures r.drive.Settled() && r.drive.target == st.drive.target
    ensures r.tone.Settled() && r.tone.target == st.tone.target
    ensures r.output.Settled() && r.output.target == st.output.target
  {
    Preamp.ChainState(Preamp.Chain(st.chain.toneL.Reset(), st.chain.toneR.Reset(), st.chain.dcL.Reset(), st.chain.dcR.Reset()),
                      st.drive.Reset(), st.tone.Reset(), st.output.Reset())
  }

  /** The chain state after `setDrive`, `setTone` and `setOutputGain` with the parameter values of a block. */
  function Armed(ext: Externals, st: Preamp.ChainState, drive: real, tone: real, output: real): (r: Preamp.ChainState)
    ensures r.chain == st.chain
    ensures r.drive.target == drive && r.tone.target == tone
    ensures r.output.target == ext.decibelsToGain(Preamp.OutputGainDb(output))
    ensures r.drive.current == st.drive.current && r.tone.current == st.tone.current && r.output.current == st.output.current
    ensures drive == st.drive.target ==> r.drive == st.drive
    ensures tone == st.tone.target ==> r.tone == st.tone
    ensures ext.decibelsToGain(Preamp.OutputGainDb(output)) == st.output.target ==> r.output == st.output
  {
    st.(drive := st.drive.SetTarget(drive, ext), tone := st.tone.SetTarget(tone, ext),
        output := st.output.SetTarget(ext.decibelsToGain(Preamp.OutputGainDb(output)), ext))
  }

  /** A block whose parameters have not moved since the previous one leaves every ramp where it was. */
  lemma UnchangedParametersKeepRamps(ext: Externals, st: Preamp.ChainState, drive: real, tone: real, output: real)
    requires drive == st.drive.target && tone == st.tone.target
    requires ext.decibelsToGain(Preamp.OutputGainDb(output)) == st.output.target
    ensures Armed(ext, st, drive, tone, output) == st
  {
  }

  class DreDimuraProcessor {
    const ext: Externals
    const preamp: Preamp.PreampDSP
    /** The layouts the host has agreed on for the main input and output buses. */
    var inputLayout: ChannelSet
    var outputLayout: ChannelSet
    /** The raw parameter values the host writes and the audio callback reads. */
    var driveParam: real
    var toneParam: real
    var outputParam: real
    var bypassParam: real

    function TotalNumInputChannels(): nat
      reads this
    {
      inputLayout.Size()
    }

    function TotalNumOutputChannels(): nat
      reads this
    {
      outputLayout.Size()
    }

    /** Stereo in and out, every parameter at its layout default, a fresh preamp. */
    constructor (ext: Externals)
      ensures this.ext == ext && fresh(preamp) && preamp.ext == ext
      ensures inputLayout == Stereo && outputLayout == Stereo
      ensures driveParam == ParameterLayout()[0].defaultValue && toneParam == ParameterLayout()[1].defaultValue
      ensures outputParam == ParameterLayout()[2].defaultValue && bypassParam == 0.0
    {
      this.ext := ext;
      preamp := new Preamp.PreampDSP(ext);
      inputLayout, outputLayout := Stereo, Stereo;
      driveParam, toneParam, outputParam, bypassParam := 0.25, 0.5, 0.5, 0.0;
    }

    /** `prepareToPlay`: the preamp is prepared at the host's sample rate. */
    method PrepareToPlay(sampleRate: real, samplesPerBlock: int)
      requires 0.0 <= sampleRate
      modifies preamp, preamp.cathHaze, preamp.filFracture, preamp.filCascade, preamp.filPrism,
               preamp.steelScorch, preamp.steelRust, preamp.steelGrind
      ensures Preamp.SupportedRate(sampleRate) ==> preamp.Valid()
      ensures preamp.EffectsCleared() && preamp.sampleRate == sampleRate
      ensures preamp.Rates() == [sampleRate, sampleRate, sampleRate, sampleRate, sampleRate, sampleRate, sampleRate]
      ensures preamp.lastSampleL == 0.0 && preamp.lastSampleR == 0.0
      ensures preamp.State() == Preamp.PreparedState(old(preamp.State()), sampleRate)
    {
      preamp.Prepare(sampleRate);
    }

    /** `releaseResources`: the preamp is reset. */
    method ReleaseResources()
      modifies preamp, preamp.cathHaze, preamp.filFracture, preamp.filCascade, preamp.filPrism,
               preamp.steelScorch, preamp.steelRust, preamp.steelGrind
      ensures preamp.EffectsCleared() && preamp.State() == ResetState(old(preamp.State()))
      ensures preamp.sampleRate == old(preamp.sampleRate) && preamp.lastSampleL == 0.0 && preamp.lastSampleR == 0.0
      ensures preamp.Rates() == old(preamp.Rates()) && (old(preamp.Valid()) ==> preamp.Valid())
    {
      preamp.Reset();
    }

    /**
     * `processBlock`. `buffer` is indexed [channel, sample]; `input` is its
     * content on entry, one column per sample frame. Unused output channels
     * are zeroed first; then a bypass value above 0.5 resets the preamp and
     * leaves the buffer as it is, and otherwise the three parameters are
     * handed to the preamp and the whole block is processed in place.
     */
    method ProcessBlock(buffer: array2<real>, ghost input: seq<seq<real>>)
      requires TotalNumOutputChannels() <= buffer.Length0 && Preamp.Snapshot(buffer, input)
      modifies buffer, preamp, preamp.cathHaze, preamp.filFracture, preamp.filCascade, preamp.filPrism,
               preamp.steelScorch, preamp.steelRust, preamp.steelGrind
      ensures preamp.sampleRate == old(preamp.sampleRate)
      ensures preamp.Rates() == old(preamp.Rates()) && (old(preamp.Valid()) ==> preamp.Valid())
      ensures bypassParam > 0.5 ==>
                Preamp.Snapshot(buffer, ClearChannels(input, TotalNumInputChannels(), TotalNumOutputChannels()))
                && preamp.EffectsCleared() && preamp.State() == ResetState(old(preamp.State()))
                && preamp.lastSampleL == 0.0 && preamp.lastSampleR == 0.0
      ensures bypassParam <= 0.5 ==>
                unchanged(preamp.cathHaze, preamp.filFracture, preamp.filCascade, preamp.filPrism,
                          preamp.steelScorch, preamp.steelRust, preamp.steelGrind)
                && preamp.lastSampleL == old(preamp.lastSampleL) && preamp.lastSampleR == old(preamp.lastSampleR)
      ensures bypassParam <= 0.5 ==>
                var st := Armed(preamp.ext, old(preamp.State()), driveParam, toneParam, outputParam);
                var r := Preamp.BlockRun(preamp.ext, preamp.sampleRate, st,
                                         ClearChannels(input, TotalNumInputChannels(), TotalNumOutputChannels()), buffer.Length1);
                preamp.State() == r.0 && Preamp.Done(buffer, r.1, buffer.Length1)
    {
      var numIn := TotalNumInputChannels();
      var numOut := TotalNumOutputChannels();
      ClearUnusedChannels(buffer, numIn, numOut, input);
      ghost var cleared := ClearChannels(input, numIn, numOut);

      var bypassed := bypassParam > 0.5;
      if bypassed {
        preamp.Reset();
        return;
      }
      RunPreamp(buffer, cleared);
    }

    /** The part of `processBlock` after the bypass test: the parameters go to the preamp, then the block runs through it. */
    method RunPreamp(buffer: array2<real>, ghost input: seq<seq<real>>)
      requires Preamp.Snapshot(buffer, input)
      modifies buffer, preamp`chain, preamp`driveGain, preamp`toneValue, preamp`outputGain
      ensures unchanged(preamp.cathHaze, preamp.filFracture, preamp.filCascade, preamp.filPrism,
                        preamp.steelScorch, preamp.steelRust, preamp.steelGrind)
      ensures preamp.lastSampleL == old(preamp.lastSampleL) && preamp.lastSampleR == old(preamp.lastSampleR)
      ensures var st := Armed(preamp.ext, old(preamp.State()), driveParam, toneParam, outputParam);
              var r := Preamp.BlockRun(preamp.ext, preamp.sampleRate, st, input, buffer.Length1);
              preamp.State() == r.0 && Preamp.Done(buffer, r.1, buffer.Length1)
    {
      preamp.SetDrive(driveParam);
      preamp.SetTone(toneParam);
      preamp.SetOutputGain(outputParam);
      assert preamp.State() == Armed(preamp.ext, old(preamp.State()), driveParam, toneParam, outputParam);
      preamp.Process(buffer, false, input);
    }
  }
}
