/**
 * The parts of JUCE and the C++ maths library the audio code relies on,
 * kept abstract: coefficient designs are recorded by what was requested,
 * filtering, tanh, bit quantisation, decibel conversion and the shape of a
 * smoothing ramp are functions supplied from outside the model.
 */
module Juce {
  /** A filter design request to `juce::dsp::IIR::Coefficients`. */
  datatype Coeffs =
    | Passthrough                                                  // default-constructed filter
    | LowShelf(sampleRate: real, cutoff: real, q: real, gain: real) // makeLowShelf
    | HighPass(sampleRate: real, cutoff: real)                     // makeHighPass
    | LowPass(sampleRate: real, cutoff: real, q: real)             // makeLowPass

  /** The numerical routines the model does not interpret. */
  datatype Externals = Externals(
    tanh: real -> real,                                    // std::tanh
    quantize: (real, real) -> real,                        // round(x * 2^bits) / 2^bits
    iir: (Coeffs, seq<real>, real) -> (seq<real>, real),   // IIR::Filter::processSample
    decibelsToGain: real -> real,                          // juce::Decibels::decibelsToGain
    ramp: (real, real) -> seq<real>)                       // the values a SmoothedValue steps through

  /** A `juce::dsp::IIR::Filter<float>`: its coefficients and its internal state. */
  datatype Filter = Filter(coeffs: Coeffs, memory: seq<real>)
  {
    /** `processSample`: one sample in, one out; coefficients are not touched. */
    function Process(ext: Externals, x: real): (r: (Filter, real))
      ensures r.0.coeffs == coeffs
    {
      var (m, y) := ext.iir(coeffs, memory, x);
      (Filter(coeffs, m), y)
    }

    /** `reset()`: the state is zeroed, the coefficients are kept. */
    function Reset(): (r: Filter)
      ensures r.coeffs == coeffs
      ensures |r.memory| == |memory|
      ensures forall i :: 0 <= i < |r.memory| ==> r.memory[i] == 0.0
    {
      Filter(coeffs, seq(|memory|, _ => 0.0))
    }
  }

  const NewFilter := Filter(Passthrough, [])

  /**
   * A `juce::SmoothedValue<float>`: the value last returned, the target, and
   * the values still to be returned before the target is reached.
   */
  datatype Smoothed = Smoothed(current: real, target: real, ramp: seq<real>)
  {
    /** `getNextValue()`: the next ramp value, or the target once the ramp is spent. */
    function Next(): (r: (real, Smoothed))
      ensures r.1.target == target
      ensures r.1.current == r.0
      ensures ramp == [] ==> r.0 == target && r.1.ramp == []
      ensures ramp != [] ==> r.0 == ramp[0] && r.1.ramp == ramp[1..]
    {
      if ramp == [] then (target, Smoothed(target, target, []))
      else (ramp[0], Smoothed(ramp[0], target, ramp[1..]))
    }

    /** The smoother after `n` calls of `getNextValue()`. */
    function Advance(n: nat): (r: Smoothed)
      ensures r.target == target
      decreases n
    {
      if n == 0 then this else Advance(n - 1).Next().1
    }

    /** The `n` values those calls return, in order. */
    function Values(n: nat): (r: seq<real>)
      ensures |r| == n
      decreases n
    {
      if n == 0 then [] else Values(n - 1) + [Advance(n - 1).Next().0]
    }

    /**
     * `setTargetValue(v)`: the target already set returns at once, so a
     * running ramp keeps its countdown; a new target is approached along a
     * fresh ramp from the current value.
     */
    function SetTarget(v: real, ext: Externals): (r: Smoothed)
      ensures r.target == v && r.current == current
      ensures v == target ==> r == this
      ensures v != target ==> r.ramp == ext.ramp(current, v)
    {
      if v == target then this else Smoothed(current, v, ext.ramp(current, v))
    }

    /** No ramp left: every further draw returns the target. */
    predicate Settled() {
      ramp == [] && current == target
    }

    /** `reset(sampleRate, seconds)`: jump to the target, no ramp left. */
    function Reset(): (r: Smoothed)
      ensures r.Settled() && r.target == target
    {
      Smoothed(target, target, [])
    }
  }

  /** Re-setting the target of a settled smoother leaves it settled: every further draw still returns that target. */
  lemma {:induction false} SameTargetStaysSettled(s: Smoothed, ext: Externals, n: nat)
    requires s.Settled()
    ensures s.SetTarget(s.target, ext).Settled()
    ensures s.SetTarget(s.target, ext).Advance(n) == s && s.Values(n) == seq(n, _ => s.target)
    decreases n
  {
    if n > 0 {
      SameTargetStaysSettled(s, ext, n - 1);
    }
  }

  /** A default-constructed SmoothedValue sits at zero. */
  const NewSmoothed := Smoothed(0.0, 0.0, [])

  /** The i-th drawn value is what the smoother returns after i earlier draws. */
  lemma {:induction false} ValuesAt(s: Smoothed, n: nat, i: nat)
    requires i < n
    ensures s.Values(n)[i] == s.Advance(i).Next().0
    decreases n
  {
    if i < n - 1 {
      ValuesAt(s, n - 1, i);
    }
  }

  /** A smoother with no ramp left returns its target on every draw and stays settled. */
  lemma {:induction false} SettledValues(s: Smoothed, n: nat)
    requires s.ramp == []
    ensures s.Advance(n).ramp == []
    ensures forall i :: 0 <= i < n ==> s.Values(n)[i] == s.target
    decreases n
  {
    if n > 0 {
      SettledValues(s, n - 1);
    }
  }
}
