/**
 * ScorchDSP: hard clipping. The input is driven by up to 9x into a hard clip,
 * then blended with its rectified magnitude for extra harmonics.
 */
module Scorch {
  import opened Common
  import opened Juce
  import opened EffectBase

  /** The pre-gain: 1x at mix 0, 9x at mix 1. */
  function Gain(mixVal: real): (r: real)
    ensures 0.0 <= mixVal <= 1.0 ==> 1.0 <= r <= 9.0
  {
    1.0 + mixVal * 8.0
  }

  /** The rectification blend applied to the clipped sample. */
  function Rectify(clipped: real, mixVal: real): real {
    clipped * 0.7 + Abs(clipped) * 0.3 * mixVal
  }

  /** The shaped sample: the gained input, hard-clipped, then rectification-blended. */
  function Wet(dry: real, mixVal: real): real {
    Rectify(HardClip(dry * Gain(mixVal)), mixVal)
  }

  /**
   * For a mix in `[0, 1]`, rectifying a clipped sample keeps it in
   * `[-0.7, 1]` and never pulls it below 70% of itself.
   */
  lemma RectifyRange(clipped: real, mixVal: real)
    requires -1.0 <= clipped <= 1.0 && 0.0 <= mixVal <= 1.0
    ensures -0.7 <= Rectify(clipped, mixVal) <= 1.0
    ensures Rectify(clipped, mixVal) >= clipped * 0.7
  {
    var a := Abs(clipped);
    var b := a * 0.3;
    MulBounds(b, mixVal);
    assert Rectify(clipped, mixVal) == clipped * 0.7 + b * mixVal;
    assert clipped <= a <= 1.0;
  }

  lemma WetRange(dry: real, mixVal: real)
    requires 0.0 <= mixVal <= 1.0
    ensures -0.7 <= Wet(dry, mixVal) <= 1.0
  {
    RectifyRange(HardClip(dry * Gain(mixVal)), mixVal);
  }

  /**
   * The effect keeps no state besides its mix. A quiet frame passes through;
   * an active one with a mix in `[0, 1]` lands, on each channel, between the
   * dry and the shaped sample.
   */
  function Step(s: (), dryL: real, dryR: real, mixVal: real): (f: Frame<()>)
    ensures mixVal < SkipBelow ==> f.left == dryL && f.right == dryR
    ensures SkipBelow <= mixVal <= 1.0 ==>
      Min(dryL, Wet(dryL, mixVal)) <= f.left <= Max(dryL, Wet(dryL, mixVal)) &&
      Min(dryR, Wet(dryR, mixVal)) <= f.right <= Max(dryR, Wet(dryR, mixVal))
  {
    if mixVal < SkipBelow then Frame(s, dryL, dryR)
    else
      var l, r := Wet(dryL, mixVal), Wet(dryR, mixVal);
      assert mixVal <= 1.0 ==>
        Min(dryL, l) <= Blend(dryL, l, mixVal) <= Max(dryL, l) && Min(dryR, r) <= Blend(dryR, r, mixVal) <= Max(dryR, r) by {
        if mixVal <= 1.0 {
          BlendBetween(dryL, l, mixVal);
          BlendBetween(dryR, r, mixVal);
        }
      }
      Frame(s, Blend(dryL, l, mixVal), Blend(dryR, r, mixVal))
  }

  lemma StepSkipsQuietFrames()
    ensures SkipsQuietFrames(Step)
  {
  }

  /** At full mix the output is the shaped sample alone. */
  lemma FullMixIsWet(dryL: real, dryR: real)
    ensures Step((), dryL, dryR, 1.0) == Frame((), Wet(dryL, 1.0), Wet(dryR, 1.0))
  {
    BlendBetween(dryL, Wet(dryL, 1.0), 1.0);
    BlendBetween(dryR, Wet(dryR, 1.0), 1.0);
  }

  class ScorchDSP {
    const ext: Externals
    var sampleRate: real
    var mix: Smoothed

    constructor (ext: Externals)
      ensures this.ext == ext && sampleRate == 44100.0 && mix == NewSmoothed
    {
      this.ext := ext;
      sampleRate := 44100.0;
      mix := NewSmoothed;
    }

    method Prepare(sr: real)
      modifies this
      ensures sampleRate == sr && mix == old(mix).Reset()
    {
      sampleRate := sr;
      mix := mix.Reset();
    }

    /** What `reset` leaves behind: a settled mix. */
    predicate Cleared()
      reads this
    {
      mix.Settled()
    }

    method Reset()
      modifies this
      ensures Cleared()
      ensures mix == old(mix).Reset() && sampleRate == old(sampleRate)
    {
      mix := mix.Reset();
    }

    method SetMix(newMix: real)
      modifies this
      ensures mix == old(mix).SetTarget(newMix, ext) && sampleRate == old(sampleRate)
    {
      mix := mix.SetTarget(newMix, ext);
    }

    /** The body of the process loop for a frame that is not skipped. */
    method ProcessFrame(dryL: real, dryR: real, mixVal: real) returns (outL: real, outR: real)
      ensures outL == Blend(dryL, Wet(dryL, mixVal), mixVal) && outR == Blend(dryR, Wet(dryR, mixVal), mixVal)
    {
      var wetL := HardClip(dryL * Gain(mixVal));
      var wetR := HardClip(dryR * Gain(mixVal));
      wetL := Rectify(wetL, mixVal);
      wetR := Rectify(wetR, mixVal);
      outL := Blend(dryL, wetL, mixVal);
      outR := Blend(dryR, wetR, mixVal);
    }

    /**
     * One iteration of the process loop: draw the mix, then skip or process
     * frame `i`. The block processed so far grows by that frame.
     */
    method Tick(left: array<real>, right: array<real>, i: nat,
                ghost ls: seq<real>, ghost rs: seq<real>, ghost mixes: seq<real>, ghost acc: Block<()>)
      returns (ghost next: Block<()>)
      requires left != right && i < left.Length && i < right.Length
      requires i < |ls| && i < |rs| && i < |mixes| && left[i] == ls[i] && right[i] == rs[i] && mixes[i] == mix.Next().0
      requires acc == Run(Step, (), ls, rs, mixes, i) && acc.state == ()
      requires forall k :: 0 <= k < i ==> left[k] == acc.left[k] && right[k] == acc.right[k]
      modifies this, left, right
      ensures next == Run(Step, (), ls, rs, mixes, i + 1) && next.state == ()
      ensures forall k :: 0 <= k < i + 1 ==> left[k] == next.left[k] && right[k] == next.right[k]
      ensures forall k :: i + 1 <= k < left.Length ==> left[k] == old(left[k])
      ensures forall k :: i + 1 <= k < right.Length ==> right[k] == old(right[k])
      ensures mix == old(mix).Next().1 && sampleRate == old(sampleRate)
    {
      ghost var f := Step((), ls[i], rs[i], mixes[i]);
      var drawn := mix.Next();
      var mixVal := drawn.0;
      mix := drawn.1;
      if mixVal >= SkipBelow {
        var outL, outR := ProcessFrame(left[i], right[i], mixVal);
        left[i] := outL;
        right[i] := outR;
      }
      RunSnoc(Step, (), ls, rs, mixes, i, acc, f);
      next := Block((), acc.left + [left[i]], acc.right + [right[i]]);
    }

    method Process(left: array<real>, right: array<real>, numSamples: nat)
      requires left != right
      requires numSamples <= left.Length && numSamples <= right.Length
      modifies this, left, right
      ensures var b := Run(Step, (), old(left[..numSamples]), old(right[..numSamples]),
                          old(mix).Values(numSamples), numSamples);
              left[..numSamples] == b.left && right[..numSamples] == b.right
      ensures forall k :: numSamples <= k < left.Length ==> left[k] == old(left[k])
      ensures forall k :: numSamples <= k < right.Length ==> right[k] == old(right[k])
      ensures mix == old(mix).Advance(numSamples) && sampleRate == old(sampleRate)
    {
      ghost var mix0 := mix;
      ghost var ls, rs := left[..numSamples], right[..numSamples];
      ghost var mixes := mix.Values(numSamples);
      ghost var acc: Block<()> := Block((), [], []);
      var i := 0;
      while i < numSamples
        invariant 0 <= i <= numSamples
        invariant mix == mix0.Advance(i) && sampleRate == old(sampleRate)
        invariant acc == Run(Step, (), ls, rs, mixes, i) && acc.state == ()
        invariant forall k :: 0 <= k < i ==> left[k] == acc.left[k] && right[k] == acc.right[k]
        invariant forall k :: i <= k < left.Length ==> left[k] == old(left[k])
        invariant forall k :: i <= k < right.Length ==> right[k] == old(right[k])
      {
        ValuesAt(mix0, numSamples, i);
        acc := Tick(left, right, i, ls, rs, mixes, acc);
        i := i + 1;
      }
      assert left[..numSamples] == acc.left;
      assert right[..numSamples] == acc.right;
    }
  }
}
