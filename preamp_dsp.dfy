/**
 * The preamp signal chain: input drive, transformer saturation, tube soft
 * clipping, a tone low-shelf, a DC blocker and the output gain, applied to
 * every (channel, sample) cell of the audio block in place.
 */
module Preamp {
  import opened Common
  import opened Juce
  import Haze
  import Fracture
  import Cascade
  import Prism
  import Scorch
  import Rust
  import Grind

  /** Below this magnitude the transformer stage is transparent. */
  const Threshold: real := 0.7

  /** The symmetric transformer stage: unity below the threshold, a half-slope knee above it, capped at 1. */
  function TransformerSaturate(x: real): (r: real)
    ensures Abs(x) < Threshold ==> r == x
    ensures Abs(r) <= 1.0 && Abs(r) <= Abs(x)
    ensures (x > 0.0 ==> r > 0.0) && (x < 0.0 ==> r < 0.0)
  {
    if Abs(x) < Threshold then x
    else
      var sign := if x > 0.0 then 1.0 else -1.0;
      var absX := Abs(x);
      var knee := Threshold + (absX - Threshold) * 0.5;
      sign * Min(knee, 1.0)
  }

  /** Above the threshold the result is the capped knee with the input's sign. */
  lemma KneeClosedForm(x: real)
    ensures x >= Threshold ==> TransformerSaturate(x) == Min(0.35 + x * 0.5, 1.0)
    ensures x <= -Threshold ==> TransformerSaturate(x) == -Min(0.35 - x * 0.5, 1.0)
    ensures Abs(x) >= 1.3 ==> Abs(TransformerSaturate(x)) == 1.0
  {
  }

  lemma TransformerOdd(x: real)
    ensures TransformerSaturate(-x) == -TransformerSaturate(x)
  {
  }

  lemma TransformerMonotone(x: real, y: real)
    requires x <= y
    ensures TransformerSaturate(x) <= TransformerSaturate(y)
  {
  }

  /** The stage never moves two inputs further apart, so it is continuous, in particular at the knee. */
  lemma TransformerContinuous(x: real, y: real)
    ensures Abs(TransformerSaturate(x) - TransformerSaturate(y)) <= Abs(x - y)
  {
  }

  /** The tube stage's slope: gentler than 1 on positive half-cycles, steeper otherwise. */
  function TubeSlope(x: real): (k: real)
    ensures x > 0.0 ==> 0.0 < k < 1.0
    ensures x <= 0.0 ==> k > 1.0
  {
    if x > 0.0 then 0.9 else 1.1
  }

  /** The tube stage: tanh of the input scaled by its half-cycle's slope. */
  function SoftClip(ext: Externals, x: real): (r: real)
    ensures r == ext.tanh(x * TubeSlope(x))
  {
    if x > 0.0 then ext.tanh(x * 0.9) else ext.tanh(x * 1.1)
  }

  /**
   * `processSample`: the transformer stage then the tube stage (not used by
   * the block process). Whatever the input, the transformer caps what the
   * tube's tanh sees at 0.9 on positive and -1.1 on negative half-cycles.
   */
  function ProcessSample(ext: Externals, input: real): (r: real)
    ensures var t := TransformerSaturate(input);
            r == ext.tanh(t * TubeSlope(t)) && -1.1 <= t * TubeSlope(t) <= 0.9
  {
    SoftClip(ext, TransformerSaturate(input))
  }

  /** Below the threshold the two static stages reduce to the tube stage alone. */
  lemma QuietSampleSkipsTransformer(ext: Externals, input: real)
    requires Abs(input) < Threshold
    ensures ProcessSample(ext, input) == SoftClip(ext, input)
  {
  }

  /** The input drive multiplier: 1x at drive 0 up to 4x at drive 1. */
  function DriveMultiplier(drive: real): (r: real)
    ensures 0.0 <= drive <= 1.0 ==> 1.0 <= r <= 4.0
  {
    1.0 + drive * 3.0
  }

  /** The tone shelf corner: 800 Hz at tone 0 up to 4800 Hz at tone 1. */
  function ToneCutoff(tone: real): (r: real)
    ensures 0.0 <= tone <= 1.0 ==> 800.0 <= r <= 4800.0
  {
    800.0 + tone * 4000.0
  }

  /** The tone shelf gain: 0.5 (darker) through 1.0 (neutral at tone 0.5) to 1.5 (brighter). */
  function ShelfGain(tone: real): (r: real)
    ensures 0.0 <= tone <= 1.0 ==> 0.5 <= r <= 1.5
    ensures tone == 0.5 ==> r == 1.0
  {
    0.5 + tone
  }

  /** The tone filter design for one sample frame. */
  function ToneCoeffs(sampleRate: real, tone: real): (r: Coeffs)
    ensures r.LowShelf? && r.sampleRate == sampleRate && r.q == 0.707
    ensures 0.0 <= tone <= 1.0 ==> 800.0 <= r.cutoff <= 4800.0 && 0.5 <= r.gain <= 1.5
    ensures tone == 0.5 ==> r.cutoff == 2800.0 && r.gain == 1.0
  {
    LowShelf(sampleRate, ToneCutoff(tone), 0.707, ShelfGain(tone))
  }

  /** The output level in dB: -12 dB at 0 up to +6 dB at 1. */
  function OutputGainDb(v: real): (r: real)
    ensures 0.0 <= v <= 1.0 ==> -12.0 <= r <= 6.0
  {
    -12.0 + v * 18.0
  }

  /** The mappings only ever rise with their parameter. */
  lemma MappingsMonotone(a: real, b: real)
    requires a <= b
    ensures DriveMultiplier(a) <= DriveMultiplier(b) && ToneCutoff(a) <= ToneCutoff(b)
    ensures ShelfGain(a) <= ShelfGain(b) && OutputGainDb(a) <= OutputGainDb(b)
  {
  }

  /** The four filters of the chain. */
  datatype Chain = Chain(toneL: Filter, toneR: Filter, dcL: Filter, dcR: Filter)

  /** The chain and the three parameter smoothers: everything `process` advances. */
  datatype ChainState = ChainState(chain: Chain, drive: Smoothed, tone: Smoothed, output: Smoothed)

  /**
   * The chain state `prepare` leaves at rate `sr`: both tone filters become
   * the neutral 2 kHz low shelf, both DC blockers the 10 Hz high-pass, every
   * filter memory is cleared and every smoother sits at its target.
   */
  function PreparedState(st: ChainState, sr: real): (r: ChainState)
    ensures r.chain.toneL.coeffs == LowShelf(sr, 2000.0, 0.707, 1.0) && r.chain.toneR.coeffs == LowShelf(sr, 2000.0, 0.707, 1.0)
    ensures r.chain.dcL.coeffs == HighPass(sr, 10.0) && r.chain.dcR.coeffs == HighPass(sr, 10.0)
    ensures |r.chain.toneL.memory| == |st.chain.toneL.memory| && |r.chain.toneR.memory| == |st.chain.toneR.memory|
    ensures |r.chain.dcL.memory| == |st.chain.dcL.memory| && |r.chain.dcR.memory| == |st.chain.dcR.memory|
    ensures forall i :: 0 <= i < |r.chain.toneL.memory| ==> r.chain.toneL.memory[i] == 0.0
    ensures forall i :: 0 <= i < |r.chain.toneR.memory| ==> r.chain.toneR.memory[i] == 0.0
    ensures forall i :: 0 <= i < |r.chain.dcL.memory| ==> r.chain.dcL.memory[i] == 0.0
    ensures forall i :: 0 <= i < |r.chain.dcR.memory| ==> r.chain.dcR.memory[i] == 0.0
    ensures r.drive.Settled() && r.drive.target == st.drive.target
    ensures r.tone.Settled() && r.tone.target == st.tone.target
    ensures r.output.Settled() && r.output.target == st.output.target
  {
    ChainState(Chain(st.chain.toneL.(coeffs := LowShelf(sr, 2000.0, 0.707, 1.0)).Reset(),
                     st.chain.toneR.(coeffs := LowShelf(sr, 2000.0, 0.707, 1.0)).Reset(),
                     st.chain.dcL.(coeffs := HighPass(sr, 10.0)).Reset(),
                     st.chain.dcR.(coeffs := HighPass(sr, 10.0)).Reset()),
               st.drive.Reset(), st.tone.Reset(), st.output.Reset())
  }

  /** Preparing twice at the same rate is the same as preparing once. */
  lemma PrepareIdempotent(st: ChainState, sr: real)
    ensures PreparedState(PreparedState(st, sr), sr) == PreparedState(st, sr)
  {
  }

  /**
   * One (channel, sample) cell: drive, transformer, tube, tone filter, DC
   * blocker, output gain. Channel 0 runs through the left filters, every
   * other channel through the right ones.
   */
  function Cell(ext: Externals, ch: Chain, channel: nat, input: real, drive: real, outGain: real): (r: (Chain, real))
    ensures channel == 0 ==> r.0.toneR == ch.toneR && r.0.dcR == ch.dcR
    ensures channel != 0 ==> r.0.toneL == ch.toneL && r.0.dcL == ch.dcL
    ensures r.0.toneL.coeffs == ch.toneL.coeffs && r.0.toneR.coeffs == ch.toneR.coeffs
    ensures r.0.dcL.coeffs == ch.dcL.coeffs && r.0.dcR.coeffs == ch.dcR.coeffs
  {
    var tubed := SoftClip(ext, TransformerSaturate(input * DriveMultiplier(drive)));
    var tone := if channel == 0 then ch.toneL else ch.toneR;
    var dc := if channel == 0 then ch.dcL else ch.dcR;
    var (tone', shaped) := tone.Process(ext, tubed);
    var (dc', dcBlocked) := dc.Process(ext, shaped);
    var ch' := if channel == 0 then ch.(toneL := tone', dcL := dc') else ch.(toneR := tone', dcR := dc');
    (ch', dcBlocked * outGain)
  }

  /** The stage order of one cell, written out with the selected pair of filters. */
  lemma StageOrder(ext: Externals, ch: Chain, channel: nat, input: real, drive: real, outGain: real)
    ensures var tone := if channel == 0 then ch.toneL else ch.toneR;
            var dc := if channel == 0 then ch.dcL else ch.dcR;
            var transformed := TransformerSaturate(input * DriveMultiplier(drive));
            var shaped := tone.Process(ext, SoftClip(ext, transformed)).1;
            Cell(ext, ch, channel, input, drive, outGain).1 == dc.Process(ext, shaped).1 * outGain
  {
  }

  /** Channels `0 .. k-1` of one sample frame, in order. */
  function Sweep(ext: Externals, ch: Chain, column: seq<real>, drive: real, outGain: real, k: nat): (r: (Chain, seq<real>))
    requires k <= |column|
    ensures |r.1| == k
    ensures r.0.toneL.coeffs == ch.toneL.coeffs && r.0.toneR.coeffs == ch.toneR.coeffs
    ensures r.0.dcL.coeffs == ch.dcL.coeffs && r.0.dcR.coeffs == ch.dcR.coeffs
    decreases k
  {
    if k == 0 then (ch, [])
    else
      var p := Sweep(ext, ch, column, drive, outGain, k - 1);
      var c := Cell(ext, p.0, k - 1, column[k - 1], drive, outGain);
      (c.0, p.1 + [c.1])
  }

  /** A mono block never touches the right-channel filters. */
  lemma {:induction false} MonoKeepsRightFilters(ext: Externals, ch: Chain, column: seq<real>, drive: real, outGain: real, k: nat)
    requires k <= 1 && k <= |column|
    ensures Sweep(ext, ch, column, drive, outGain, k).0.toneR == ch.toneR
    ensures Sweep(ext, ch, column, drive, outGain, k).0.dcR == ch.dcR
  {
    if k == 1 {
      MonoKeepsRightFilters(ext, ch, column, drive, outGain, 0);
    }
  }

  /** Outputs already produced for earlier channels are not revisited by later ones. */
  lemma {:induction false} SweepPrefix(ext: Externals, ch: Chain, column: seq<real>, drive: real, outGain: real, k: nat, c: nat)
    requires c < k <= |column|
    ensures Sweep(ext, ch, column, drive, outGain, k).1[c] == Sweep(ext, ch, column, drive, outGain, c + 1).1[c]
    decreases k
  {
    if c < k - 1 {
      SweepPrefix(ext, ch, column, drive, outGain, k - 1, c);
    }
  }

  /**
   * One sample frame: each smoother is drawn once, the tone coefficients of
   * both channels are redesigned from the drawn tone, then every channel of
   * the frame is processed.
   */
  function FrameStep(ext: Externals, sampleRate: real, st: ChainState, column: seq<real>): (r: (ChainState, seq<real>))
    ensures |r.1| == |column|
    ensures r.0.drive == st.drive.Next().1 && r.0.tone == st.tone.Next().1 && r.0.output == st.output.Next().1
    ensures r.0.chain.toneL.coeffs == ToneCoeffs(sampleRate, st.tone.Next().0)
    ensures r.0.chain.toneR.coeffs == ToneCoeffs(sampleRate, st.tone.Next().0)
    ensures r.0.chain.dcL.coeffs == st.chain.dcL.coeffs && r.0.chain.dcR.coeffs == st.chain.dcR.coeffs
  {
    var drive := st.drive.Next();
    var tone := st.tone.Next();
    var outGain := st.output.Next();
    var coeffs := ToneCoeffs(sampleRate, tone.0);
    var ch := st.chain.(toneL := st.chain.toneL.(coeffs := coeffs), toneR := st.chain.toneR.(coeffs := coeffs));
    var swept := Sweep(ext, ch, column, drive.0, outGain.0, |column|);
    (ChainState(swept.0, drive.1, tone.1, outGain.1), swept.1)
  }

  /** The first `n` sample frames of a block, given as columns (one per sample, indexed by channel). */
  function BlockRun(ext: Externals, sampleRate: real, st: ChainState, columns: seq<seq<real>>, n: nat): (r: (ChainState, seq<seq<real>>))
    requires n <= |columns|
    ensures |r.1| == n
    ensures forall j :: 0 <= j < n ==> |r.1[j]| == |columns[j]|
    decreases n
  {
    if n == 0 then (st, [])
    else
      var p := BlockRun(ext, sampleRate, st, columns, n - 1);
      var f := FrameStep(ext, sampleRate, p.0, columns[n - 1]);
      (f.0, p.1 + [f.1])
  }

  /** Each smoother advances exactly once per frame, however many channels the block has. */
  lemma {:induction false} SmoothersAdvanceOncePerFrame(ext: Externals, sampleRate: real, st: ChainState,
                                                        columns: seq<seq<real>>, n: nat)
    requires n <= |columns|
    ensures var r := BlockRun(ext, sampleRate, st, columns, n).0;
            r.drive == st.drive.Advance(n) && r.tone == st.tone.Advance(n) && r.output == st.output.Advance(n)
  {
    if n > 0 {
      SmoothersAdvanceOncePerFrame(ext, sampleRate, st, columns, n - 1);
    }
  }

  /** The shortest delay line of all, Prism's, holds at least one slot: then so does every other line. */
  predicate SupportedRate(sr: real) {
    Prism.BufferLength(sr) >= 1
  }

  lemma SupportedRateFitsEveryLine(sr: real)
    requires SupportedRate(sr)
    ensures Haze.ShortLength(sr) >= 1 && Rust.ShortLength(sr) >= 1
    ensures Cascade.BufferLength(sr) >= 1 && Grind.BufferLength(sr) >= 1
  {
    assert sr > 0.0;
    TruncMonotone(0.007 * sr, 0.037 * sr);
    TruncMonotone(0.007 * sr, 0.023 * sr);
    TruncMonotone(0.007 * sr, 0.5 * sr);
    TruncMonotone(0.007 * sr, 0.3 * sr);
  }

  /**
   * The preamp processor: three parameter smoothers, the tone and DC filters
   * of both channels, and the effect processors it prepares, resets and
   * forwards mix settings to.
   */
  class PreampDSP {
    const ext: Externals
    const cathHaze: Haze.HazeDSP
    const filFracture: Fracture.FractureDSP
    const filCascade: Cascade.CascadeDSP
    const filPrism: Prism.PrismDSP
    const steelScorch: Scorch.ScorchDSP
    const steelRust: Rust.RustDSP
    const steelGrind: Grind.GrindDSP

    var driveGain: Smoothed
    var toneValue: Smoothed
    var outputGain: Smoothed
    var chain: Chain
    var sampleRate: real
    var lastSampleL: real
    var lastSampleR: real

    /** Everything `process` reads and advances. */
    function State(): ChainState
      reads this
    {
      ChainState(chain, driveGain, toneValue, outputGain)
    }

    /** Every effect with a delay line has that line sized and its positions inside it. */
    predicate Valid()
      reads this, cathHaze, filCascade, filPrism, steelRust, steelGrind
    {
      cathHaze.Valid() && filCascade.Valid() && filPrism.Valid() && steelRust.Valid() && steelGrind.Valid()
    }

    /** The sample rate each effect was last prepared for, in source order. */
    function Rates(): seq<real>
      reads cathHaze, filFracture, filCascade, filPrism, steelScorch, steelRust, steelGrind
    {
      [cathHaze.sampleRate, filFracture.sampleRate, filCascade.sampleRate, filPrism.sampleRate,
       steelScorch.sampleRate, steelRust.sampleRate, steelGrind.sampleRate]
    }

    /** What `reset` leaves behind in the effects: cleared lines and settled mixes. */
    predicate EffectsCleared()
      reads cathHaze, filFracture, filCascade, filPrism, steelScorch, steelRust, steelGrind
    {
      cathHaze.Cleared() && filFracture.Cleared() && filCascade.Cleared() && filPrism.Cleared()
      && steelScorch.Cleared() && steelRust.Cleared() && steelGrind.Cleared()
    }

    constructor (ext: Externals)
      ensures this.ext == ext && sampleRate == 44100.0
      ensures driveGain == NewSmoothed && toneValue == NewSmoothed && outputGain == NewSmoothed
      ensures chain == Chain(NewFilter, NewFilter, NewFilter, NewFilter)
      ensures lastSampleL == 0.0 && lastSampleR == 0.0
      ensures fresh(cathHaze) && fresh(filFracture) && fresh(filCascade) && fresh(filPrism)
      ensures fresh(steelScorch) && fresh(steelRust) && fresh(steelGrind)
      ensures cathHaze.ext == ext && filFracture.ext == ext && filCascade.ext == ext && filPrism.ext == ext
      ensures steelScorch.ext == ext && steelRust.ext == ext && steelGrind.ext == ext
    {
      this.ext := ext;
      cathHaze := new Haze.HazeDSP(ext);
      filFracture := new Fracture.FractureDSP(ext);
      filCascade := new Cascade.CascadeDSP(ext);
      filPrism := new Prism.PrismDSP(ext);
      steelScorch := new Scorch.ScorchDSP(ext);
      steelRust := new Rust.RustDSP(ext);
      steelGrind := new Grind.GrindDSP(ext);
      driveGain, toneValue, outputGain := NewSmoothed, NewSmoothed, NewSmoothed;
      chain := Chain(NewFilter, NewFilter, NewFilter, NewFilter);
      sampleRate := 44100.0;
      lastSampleL, lastSampleR := 0.0, 0.0;
    }

    /**
     * `prepare`: record the rate, settle the smoothers, design the neutral
     * tone shelf and the 10 Hz DC blocker for both channels, prepare every
     * effect, and finish with `reset`.
     */
    method Prepare(sr: real)
      requires 0.0 <= sr
      modifies this, cathHaze, filFracture, filCascade, filPrism, steelScorch, steelRust, steelGrind
      ensures SupportedRate(sr) ==> Valid()
      ensures EffectsCleared() && Rates() == [sr, sr, sr, sr, sr, sr, sr]
      ensures sampleRate == sr && lastSampleL == 0.0 && lastSampleR == 0.0
      ensures State() == PreparedState(old(State()), sr)
    {
      sampleRate := sr;
      driveGain, toneValue, outputGain := driveGain.Reset(), toneValue.Reset(), outputGain.Reset();
      var toneCoeffs := LowShelf(sr, 2000.0, 0.707, 1.0);
      var dcCoeffs := HighPass(sr, 10.0);
      chain := Chain(chain.toneL.(coeffs := toneCoeffs), chain.toneR.(coeffs := toneCoeffs),
                     chain.dcL.(coeffs := dcCoeffs), chain.dcR.(coeffs := dcCoeffs));
      PrepareEffects(sr);
      Reset();
    }

    /**
     * `reset`: clear the four filters and the two last-sample memories,
     * settle the smoothers, and reset every effect.
     */
    method Reset()
      modifies this, cathHaze, filFracture, filCascade, filPrism, steelScorch, steelRust, steelGrind
      ensures EffectsCleared() && (old(Valid()) ==> Valid()) && Rates() == old(Rates())
      ensures sampleRate == old(sampleRate) && lastSampleL == 0.0 && lastSampleR == 0.0
      ensures State() == ChainState(Chain(old(chain.toneL).Reset(), old(chain.toneR).Reset(), old(chain.dcL).Reset(), old(chain.dcR).Reset()),
                                    old(driveGain).Reset(), old(toneValue).Reset(), old(outputGain).Reset())
    {
      chain := Chain(chain.toneL.Reset(), chain.toneR.Reset(), chain.dcL.Reset(), chain.dcR.Reset());
      lastSampleL, lastSampleR := 0.0, 0.0;
      driveGain, toneValue, outputGain := driveGain.Reset(), toneValue.Reset(), outputGain.Reset();
      ResetEffects();
    }

    /** The effects' part of `prepare`, family by family in source order. */
    method PrepareEffects(sr: real)
      requires 0.0 <= sr
      modifies cathHaze, filFracture, filCascade, filPrism, steelScorch, steelRust, steelGrind
      ensures SupportedRate(sr) ==> Valid()
      ensures Rates() == [sr, sr, sr, sr, sr, sr, sr]
    {
      if SupportedRate(sr) {
        SupportedRateFitsEveryLine(sr);
      }
      PrepareCathode(sr);
      PrepareFilament(sr);
      PrepareSteel(sr);
    }

    /** The effects' part of `reset`, family by family in source order. */
    method ResetEffects()
      modifies cathHaze, filFracture, filCascade, filPrism, steelScorch, steelRust, steelGrind
      ensures EffectsCleared() && (old(Valid()) ==> Valid()) && Rates() == old(Rates())
    {
      ResetCathode();
      ResetFilament();
      ResetSteel();
    }

    /** The cathode family's part of `prepare`. */
    method PrepareCathode(sr: real)
      requires 0.0 <= sr
      modifies cathHaze
      ensures Haze.ShortLength(sr) >= 1 ==> cathHaze.Valid()
      ensures cathHaze.sampleRate == sr
    {
      cathHaze.Prepare(sr);
    }

    /** The filament family's part of `prepare`, in source order. */
    method PrepareFilament(sr: real)
      requires 0.0 <= sr
      modifies filFracture, filCascade, filPrism
      ensures Cascade.BufferLength(sr) >= 1 ==> filCascade.Valid()
      ensures Prism.BufferLength(sr) >= 1 ==> filPrism.Valid()
      ensures filFracture.sampleRate == sr && filCascade.sampleRate == sr && filPrism.sampleRate == sr
    {
      filFracture.Prepare(sr);
      filCascade.Prepare(sr);
      filPrism.Prepare(sr);
    }

    /** The steel-plate family's part of `prepare`, in source order. */
    method PrepareSteel(sr: real)
      requires 0.0 <= sr
      modifies steelScorch, steelRust, steelGrind
      ensures Rust.ShortLength(sr) >= 1 ==> steelRust.Valid()
      ensures Grind.BufferLength(sr) >= 1 ==> steelGrind.Valid()
      ensures steelScorch.sampleRate == sr && steelRust.sampleRate == sr && steelGrind.sampleRate == sr
    {
      steelScorch.Prepare(sr);
      steelRust.Prepare(sr);
      steelGrind.Prepare(sr);
    }

    /** The cathode family's part of `reset`. */
    method ResetCathode()
      modifies cathHaze
      ensures cathHaze.Cleared() && (old(cathHaze.Valid()) ==> cathHaze.Valid())
      ensures cathHaze.sampleRate == old(cathHaze.sampleRate)
    {
      cathHaze.Reset();
    }

    /** The filament family's part of `reset`, in source order. */
    method ResetFilament()
      modifies filFracture, filCascade, filPrism
      ensures filFracture.Cleared() && filCascade.Cleared() && filPrism.Cleared()
      ensures old(filCascade.Valid()) ==> filCascade.Valid()
      ensures old(filPrism.Valid()) ==> filPrism.Valid()
      ensures filFracture.sampleRate == old(filFracture.sampleRate) && filCascade.sampleRate == old(filCascade.sampleRate)
      ensures filPrism.sampleRate == old(filPrism.sampleRate)
    {
      filFracture.Reset();
      filCascade.Reset();
      filPrism.Reset();
    }

    /** The steel-plate family's part of `reset`, in source order. */
    method ResetSteel()
      modifies steelScorch, steelRust, steelGrind
      ensures steelScorch.Cleared() && steelRust.Cleared() && steelGrind.Cleared()
      ensures old(steelRust.Valid()) ==> steelRust.Valid()
      ensures old(steelGrind.Valid()) ==> steelGrind.Valid()
      ensures steelScorch.sampleRate == old(steelScorch.sampleRate) && steelRust.sampleRate == old(steelRust.sampleRate)
      ensures steelGrind.sampleRate == old(steelGrind.sampleRate)
    {
      steelScorch.Reset();
      steelRust.Reset();
      steelGrind.Reset();
    }

    method SetDrive(newDrive: real)
      modifies this`driveGain
      ensures driveGain == old(driveGain).SetTarget(newDrive, ext)
    {
      driveGain := driveGain.SetTarget(newDrive, ext);
    }

    method SetTone(newTone: real)
      modifies this`toneValue
      ensures toneValue == old(toneValue).SetTarget(newTone, ext)
    {
      toneValue := toneValue.SetTarget(newTone, ext);
    }

    /** The output smoother targets the linear gain of `-12 + 18 v` dB. */
    method SetOutputGain(newOutput: real)
      modifies this`outputGain
      ensures outputGain == old(outputGain).SetTarget(ext.decibelsToGain(OutputGainDb(newOutput)), ext)
    {
      var gainDb := -12.0 + newOutput * 18.0;
      var linearGain := ext.decibelsToGain(gainDb);
      outputGain := outputGain.SetTarget(linearGain, ext);
    }

    method SetCathHaze(newMix: real)
      modifies cathHaze
      ensures cathHaze.mix == old(cathHaze.mix).SetTarget(newMix, cathHaze.ext) && cathHaze.state == old(cathHaze.state)
    {
      cathHaze.SetMix(newMix);
    }

    method SetFilFracture(newMix: real)
      modifies filFracture
      ensures filFracture.mix == old(filFracture.mix).SetTarget(newMix, filFracture.ext)
    {
      filFracture.SetMix(newMix);
    }

    method SetFilCascade(newMix: real)
      modifies filCascade
      ensures filCascade.mix == old(filCascade.mix).SetTarget(newMix, filCascade.ext) && filCascade.state == old(filCascade.state)
    {
      filCascade.SetMix(newMix);
    }

    method SetFilPrism(newMix: real)
      modifies filPrism
      ensures filPrism.mix == old(filPrism.mix).SetTarget(newMix, filPrism.ext) && filPrism.state == old(filPrism.state)
    {
      filPrism.SetMix(newMix);
    }

    method SetSteelScorch(newMix: real)
      modifies steelScorch
      ensures steelScorch.mix == old(steelScorch.mix).SetTarget(newMix, steelScorch.ext)
    {
      steelScorch.SetMix(newMix);
    }

    method SetSteelRust(newMix: real)
      modifies steelRust
      ensures steelRust.mix == old(steelRust.mix).SetTarget(newMix, steelRust.ext) && steelRust.state == old(steelRust.state)
    {
      steelRust.SetMix(newMix);
    }

    method SetSteelGrind(newMix: real)
      modifies steelGrind
      ensures steelGrind.mix == old(steelGrind.mix).SetTarget(newMix, steelGrind.ext) && steelGrind.state == old(steelGrind.state)
    {
      steelGrind.SetMix(newMix);
    }

    /**
     * One channel of one sample frame: drive, transformer, tube, then the tone
     * filter and DC blocker of the left channel for channel 0 and of the right
     * channel otherwise, then the output gain.
     */
    method ProcessCell(channel: nat, input: real, drive: real, outGain: real) returns (output: real)
      modifies this`chain
      ensures (chain, output) == Cell(ext, old(chain), channel, input, drive, outGain)
    {
      var driven := input * (1.0 + drive * 3.0);
      var transformed := TransformerSaturate(driven);
      var tubed := SoftClip(ext, transformed);
      var shaped, dcBlocked;
      if channel == 0 {
        var tone := chain.toneL.Process(ext, tubed);
        shaped := tone.1;
        var dc := chain.dcL.Process(ext, shaped);
        dcBlocked := dc.1;
        chain := chain.(toneL := tone.0, dcL := dc.0);
      } else {
        var tone := chain.toneR.Process(ext, tubed);
        shaped := tone.1;
        var dc := chain.dcR.Process(ext, shaped);
        dcBlocked := dc.1;
        chain := chain.(toneR := tone.0, dcR := dc.0);
      }
      output := dcBlocked * outGain;
      assert driven == input * DriveMultiplier(drive);
      assert tubed == SoftClip(ext, TransformerSaturate(input * DriveMultiplier(drive)));
      assert output == Cell(ext, old(chain), channel, input, drive, outGain).1;
      assert chain == Cell(ext, old(chain), channel, input, drive, outGain).0;
    }

    /**
     * The channel loop of one sample frame `j`: every cell of column `j` is
     * run through the chain, channel by channel; no other column is touched.
     */
    method ProcessColumn(block: array2<real>, j: nat, drive: real, outGain: real, ghost column: seq<real>)
      requires j < block.Length1 && |column| == block.Length0
      requires forall c :: 0 <= c < block.Length0 ==> block[c, j] == column[c]
      modifies this`chain, block
      ensures var r := Sweep(ext, old(chain), column, drive, outGain, |column|);
              chain == r.0 && forall c :: 0 <= c < block.Length0 ==> block[c, j] == r.1[c]
      ensures forall c, k :: 0 <= c < block.Length0 && 0 <= k < block.Length1 && k != j ==> block[c, k] == old(block[c, k])
    {
      ghost var ch0 := chain;
      ghost var outs: seq<real> := [];
      var c := 0;
      while c < block.Length0
        invariant 0 <= c <= block.Length0
        invariant Sweep(ext, ch0, column, drive, outGain, c) == (chain, outs)
        invariant forall c' :: 0 <= c' < c ==> block[c', j] == outs[c']
        invariant forall c' :: c <= c' < block.Length0 ==> block[c', j] == column[c']
        invariant forall c', k :: 0 <= c' < block.Length0 && 0 <= k < block.Length1 && k != j ==> block[c', k] == old(block[c', k])
      {
        outs := ChannelTick(block, j, c, drive, outGain, ch0, column, outs);
        c := c + 1;
      }
    }

    /** One iteration of the channel loop: cell `(c, j)` is processed and written back. */
    method ChannelTick(block: array2<real>, j: nat, c: nat, drive: real, outGain: real,
                       ghost ch0: Chain, ghost column: seq<real>, ghost outs: seq<real>)
      returns (ghost next: seq<real>)
      requires j < block.Length1 && c < block.Length0 == |column|
      requires Sweep(ext, ch0, column, drive, outGain, c) == (chain, outs)
      requires block[c, j] == column[c]
      modifies this`chain, block
      ensures Sweep(ext, ch0, column, drive, outGain, c + 1) == (chain, next)
      ensures next == outs + [block[c, j]]
      ensures forall c', k :: 0 <= c' < block.Length0 && 0 <= k < block.Length1 && (c' != c || k != j) ==> block[c', k] == old(block[c', k])
    {
      var out := ProcessCell(c, block[c, j], drive, outGain);
      block[c, j] := out;
      next := outs + [out];
    }

    /**
     * One sample frame `j`: draw each smoother once, redesign the tone shelf
     * of both channels from the drawn tone, then run the channel loop over
     * column `j`; no other column is touched.
     */
    method ProcessFrame(block: array2<real>, j: nat, ghost column: seq<real>)
      requires j < block.Length1 && |column| == block.Length0
      requires forall c :: 0 <= c < block.Length0 ==> block[c, j] == column[c]
      modifies this`chain, this`driveGain, this`toneValue, this`outputGain, block
      ensures var f := FrameStep(ext, sampleRate, old(State()), column);
              State() == f.0 && forall c :: 0 <= c < block.Length0 ==> block[c, j] == f.1[c]
      ensures forall c, k :: 0 <= c < block.Length0 && 0 <= k < block.Length1 && k != j ==> block[c, k] == old(block[c, k])
    {
      ghost var st := State();
      var drawnDrive := driveGain.Next();
      var drawnTone := toneValue.Next();
      var drawnOutput := outputGain.Next();
      var drive, tone, outGain := drawnDrive.0, drawnTone.0, drawnOutput.0;
      driveGain, toneValue, outputGain := drawnDrive.1, drawnTone.1, drawnOutput.1;
      var cutoff := 800.0 + tone * 4000.0;
      var coeffs := LowShelf(sampleRate, cutoff, 0.707, 0.5 + tone);
      chain := chain.(toneL := chain.toneL.(coeffs := coeffs), toneR := chain.toneR.(coeffs := coeffs));
      ghost var f := FrameStep(ext, sampleRate, st, column);
      assert coeffs == ToneCoeffs(sampleRate, st.tone.Next().0);
      ProcessColumn(block, j, drive, outGain, column);
      assert State() == f.0;
    }

    /**
     * `process` on a replacing context (the block is read and written in
     * place). A bypassed context copies the block onto itself and leaves
     * every filter and smoother as it was; otherwise every cell of the block
     * is replaced by the chain's output for it, frame by frame.
     */
    method Process(block: array2<real>, bypassed: bool, ghost input: seq<seq<real>>)
      requires Snapshot(block, input)
      modifies this`chain, this`driveGain, this`toneValue, this`outputGain, block
      ensures bypassed ==> State() == old(State())
      ensures bypassed ==> forall c, k :: 0 <= c < block.Length0 && 0 <= k < block.Length1 ==> block[c, k] == old(block[c, k])
      ensures !bypassed ==>
                var r := BlockRun(ext, sampleRate, old(State()), input, block.Length1);
                State() == r.0 && forall c, k {:trigger block[c, k]} :: 0 <= c < block.Length0 && 0 <= k < block.Length1 ==> block[c, k] == r.1[k][c]
    {
      if !bypassed {
        ProcessFrames(block, input);
      }
    }

    /** The sample loop of a context that is not bypassed. */
    method ProcessFrames(block: array2<real>, ghost input: seq<seq<real>>)
      requires Snapshot(block, input)
      modifies this`chain, this`driveGain, this`toneValue, this`outputGain, block
      ensures var r := BlockRun(ext, sampleRate, old(State()), input, block.Length1);
              State() == r.0 && Done(block, r.1, block.Length1)
    {
      ghost var st0 := State();
      ghost var acc := BlockRun(ext, sampleRate, st0, input, 0);
      var j := 0;
      while j < block.Length1
        invariant 0 <= j <= block.Length1
        invariant acc == BlockRun(ext, sampleRate, st0, input, j) && acc.0 == State()
        invariant Done(block, acc.1, j) && Pending(block, input, j)
      {
        acc := Tick(block, j, st0, input, acc);
        j := j + 1;
      }
      assert j == block.Length1;
    }

    /** One iteration of the sample loop: the frames processed so far grow by frame `j`. */
    method Tick(block: array2<real>, j: nat, ghost st0: ChainState, ghost input: seq<seq<real>>,
                ghost acc: (ChainState, seq<seq<real>>))
      returns (ghost next: (ChainState, seq<seq<real>>))
      requires j < block.Length1 && |input| == block.Length1
      requires acc == BlockRun(ext, sampleRate, st0, input, j) && acc.0 == State()
      requires Done(block, acc.1, j) && Pending(block, input, j)
      modifies this`chain, this`driveGain, this`toneValue, this`outputGain, block
      ensures next == BlockRun(ext, sampleRate, st0, input, j + 1) && next.0 == State()
      ensures Done(block, next.1, j + 1) && Pending(block, input, j + 1)
    {
      ghost var f := FrameStep(ext, sampleRate, acc.0, input[j]);
      ProcessFrame(block, j, input[j]);
      next := (f.0, acc.1 + [f.1]);
    }
  }

  /** The first `j` sample frames of `block` hold the columns `outs`. */
  ghost predicate Done(block: array2<real>, outs: seq<seq<real>>, j: nat)
    reads block
  {
    j <= block.Length1 && |outs| == j && (forall k :: 0 <= k < j ==> |outs[k]| == block.Length0)
    && forall c, k {:trigger block[c, k]} :: 0 <= c < block.Length0 && 0 <= k < j ==> block[c, k] == outs[k][c]
  }

  /** From frame `j` on, `block` still holds the columns of `input`. */
  ghost predicate Pending(block: array2<real>, input: seq<seq<real>>, j: nat)
    reads block
  {
    |input| == block.Length1 && (forall k :: 0 <= k < |input| ==> |input[k]| == block.Length0)
    && forall c, k {:trigger block[c, k]} :: 0 <= c < block.Length0 && j <= k < block.Length1 ==> block[c, k] == input[k][c]
  }

  /** `input` holds the block's samples as columns, one per sample frame, each indexed by channel. */
  ghost predicate Snapshot(block: array2<real>, input: seq<seq<real>>)
    reads block
  {
    |input| == block.Length1 && (forall k :: 0 <= k < |input| ==> |input[k]| == block.Length0)
    && forall c, k {:trigger block[c, k]} :: 0 <= c < block.Length0 && 0 <= k < block.Length1 ==> block[c, k] == input[k][c]
  }
}
