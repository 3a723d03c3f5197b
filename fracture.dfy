/**
 * FractureDSP: digital clipping. The input is driven by up to 5x into a hard
 * clip, then bit-reduced from 12 down to 8 bits as the mix rises.
 */
module Fracture {
  import opened Common
  import opened Juce
  import opened EffectBase

  /** The pre-gain: 1x at mix 0, 5x at mix 1. */
  function Gain(mixVal: real): (r: real)
    ensures 0.0 <= mixVal <= 1.0 ==> 1.0 <= r <= 5.0
  {
    1.0 + mixVal * 4.0
  }

  /** The quantisation depth: 12 bits at mix 0, 8 bits at mix 1. */
  function Bits(mixVal: real): (r: real)
    ensures 0.0 <= mixVal <= 1.0 ==> 8.0 <= r <= 12.0
  {
    12.0 - mixVal * 4.0
  }

  /** The shaped sample: the quantiser only ever sees a signal already clipped to [-1, 1]. */
  function Wet(ext: Externals, dry: real, mixVal: real): real {
    ext.quantize(HardClip(dry * Gain(mixVal)), Bits(mixVal))
  }

  lemma ClipsBeforeQuantising(ext: Externals, dry: real, mixVal: real)
    ensures exists c :: -1.0 <= c <= 1.0 && Wet(ext, dry, mixVal) == ext.quantize(c, Bits(mixVal))
    ensures -1.0 <= dry * Gain(mixVal) <= 1.0 ==> Wet(ext, dry, mixVal) == ext.quantize(dry * Gain(mixVal), Bits(mixVal))
  {
    var c := HardClip(dry * Gain(mixVal));
    assert -1.0 <= c <= 1.0 && Wet(ext, dry, mixVal) == ext.quantize(c, Bits(mixVal));
  }

  /**
   * The effect keeps no state besides its mix. A quiet frame passes through;
   * an active one with a mix in `[0, 1]` lands, on each channel, between the
   * dry and the crushed sample.
   */
  function Step(ext: Externals, s: (), dryL: real, dryR: real, mixVal: real): (f: Frame<()>)
    ensures mixVal < SkipBelow ==> f.left == dryL && f.right == dryR
    ensures SkipBelow <= mixVal <= 1.0 ==>
      Min(dryL, Wet(ext, dryL, mixVal)) <= f.left <= Max(dryL, Wet(ext, dryL, mixVal)) &&
      Min(dryR, Wet(ext, dryR, mixVal)) <= f.right <= Max(dryR, Wet(ext, dryR, mixVal))
  {
    if mixVal < SkipBelow then Frame(s, dryL, dryR)
    else
      var l, r := Wet(ext, dryL, mixVal), Wet(ext, dryR, mixVal);
      assert mixVal <= 1.0 ==>
        Min(dryL, l) <= Blend(dryL, l, mixVal) <= Max(dryL, l) && Min(dryR, r) <= Blend(dryR, r, mixVal) <= Max(dryR, r) by {
        if mixVal <= 1.0 {
          BlendBetween(dryL, l, mixVal);
          BlendBetween(dryR, r, mixVal);
        }
      }
      Frame(s, Blend(dryL, l, mixVal), Blend(dryR, r, mixVal))
  }

  function Stepper(ext: Externals): ((), real, real, real) -> Frame<()> {
    (s: (), l: real, r: real, m: real) => Step(ext, s, l, r, m)
  }

  lemma StepSkipsQuietFrames(ext: Externals)
    ensures SkipsQuietFrames(Stepper(ext))
  {
  }

  /** At full mix the output is the shaped sample alone. */
  lemma FullMixIsWet(ext: Externals, dryL: real, dryR: real)
    ensures Step(ext, (), dryL, dryR, 1.0) == Frame((), Wet(ext, dryL, 1.0), Wet(ext, dryR, 1.0))
  {
    BlendBetween(dryL, Wet(ext, dryL, 1.0), 1.0);
    BlendBetween(dryR, Wet(ext, dryR, 1.0), 1.0);
  }

  class FractureDSP {
    const ext: Externals
    var sampleRate: real
    var mix: Smoothed

    constructor (ext: Externals)
      ensures this.ext == ext && sampleRate == 44100.0 && mix == NewSmoothed
    {
      this.ext := ext;
      sampleRate := 44100.0;
      mix := NewSmoothed;
    }

    method Prepare(sr: real)
      modifies this
      ensures sampleRate == sr && mix == old(mix).Reset()
    {
      sampleRate := sr;
      mix := mix.Reset();
    }

    /** What `reset` leaves behind: a settled mix. */
    predicate Cleared()
      reads this
    {
      mix.Settled()
    }

    method Reset()
      modifies this
      ensures Cleared()
      ensures mix == old(mix).Reset() && sampleRate == old(sampleRate)
    {
      mix := mix.Reset();
    }

    method SetMix(newMix: real)
      modifies this
      ensures mix == old(mix).SetTarget(newMix, ext) && sampleRate == old(sampleRate)
    {
      mix := mix.SetTarget(newMix, ext);
    }

    /** The body of the process loop for a frame that is not skipped. */
    method ProcessFrame(dryL: real, dryR: real, mixVal: real) returns (outL: real, outR: real)
      ensures outL == Blend(dryL, Wet(ext, dryL, mixVal), mixVal) && outR == Blend(dryR, Wet(ext, dryR, mixVal), mixVal)
    {
      var wetL := HardClip(dryL * Gain(mixVal));
      var wetR := HardClip(dryR * Gain(mixVal));
      var bits := Bits(mixVal);
      wetL := ext.quantize(wetL, bits);
      wetR := ext.quantize(wetR, bits);
      outL := Blend(dryL, wetL, mixVal);
      outR := Blend(dryR, wetR, mixVal);
    }

    /**
     * One iteration of the process loop: draw the mix, then skip or process
     * frame `i`. The block processed so far grows by that frame.
     */
    method Tick(left: array<real>, right: array<real>, i: nat,
                ghost ls: seq<real>, ghost rs: seq<real>, ghost mixes: seq<real>, ghost acc: Block<()>)
      returns (ghost next: Block<()>)
      requires left != right && i < left.Length && i < right.Length
      requires i < |ls| && i < |rs| && i < |mixes| && left[i] == ls[i] && right[i] == rs[i] && mixes[i] == mix.Next().0
      requires acc == Run(Stepper(ext), (), ls, rs, mixes, i) && acc.state == ()
      requires forall k :: 0 <= k < i ==> left[k] == acc.left[k] && right[k] == acc.right[k]
      modifies this, left, right
      ensures next == Run(Stepper(ext), (), ls, rs, mixes, i + 1) && next.state == ()
      ensures forall k :: 0 <= k < i + 1 ==> left[k] == next.left[k] && right[k] == next.right[k]
      ensures forall k :: i + 1 <= k < left.Length ==> left[k] == old(left[k])
      ensures forall k :: i + 1 <= k < right.Length ==> right[k] == old(right[k])
      ensures mix == old(mix).Next().1 && sampleRate == old(sampleRate)
    {
      ghost var f := Stepper(ext)((), ls[i], rs[i], mixes[i]);
      var drawn := mix.Next();
      var mixVal := drawn.0;
      mix := drawn.1;
      if mixVal >= SkipBelow {
        var outL, outR := ProcessFrame(left[i], right[i], mixVal);
        left[i] := outL;
        right[i] := outR;
      }
      RunSnoc(Stepper(ext), (), ls, rs, mixes, i, acc, f);
      next := Block((), acc.left + [left[i]], acc.right + [right[i]]);
    }

    method Process(left: array<real>, right: array<real>, numSamples: nat)
      requires left != right
      requires numSamples <= left.Length && numSamples <= right.Length
      modifies this, left, right
      ensures var b := Run(Stepper(ext), (), old(left[..numSamples]), old(right[..numSamples]),
                          old(mix).Values(numSamples), numSamples);
              left[..numSamples] == b.left && right[..numSamples] == b.right
      ensures forall k :: numSamples <= k < left.Length ==> left[k] == old(left[k])
      ensures forall k :: numSamples <= k < right.Length ==> right[k] == old(right[k])
      ensures mix == old(mix).Advance(numSamples) && sampleRate == old(sampleRate)
    {
      ghost var mix0 := mix;
      ghost var ls, rs := left[..numSamples], right[..numSamples];
      ghost var mixes := mix.Values(numSamples);
      ghost var acc: Block<()> := Block((), [], []);
      var i := 0;
      while i < numSamples
        invariant 0 <= i <= numSamples
        invariant mix == mix0.Advance(i) && sampleRate == old(sampleRate)
        invariant acc == Run(Stepper(ext), (), ls, rs, mixes, i) && acc.state == ()
        invariant forall k :: 0 <= k < i ==> left[k] == acc.left[k] && right[k] == acc.right[k]
        invariant forall k :: i <= k < left.Length ==> left[k] == old(left[k])
        invariant forall k :: i <= k < right.Length ==> right[k] == old(right[k])
      {
        ValuesAt(mix0, numSamples, i);
        acc := Tick(left, right, i, ls, rs, mixes, acc);
        i := i + 1;
      }
      assert left[..numSamples] == acc.left;
      assert right[..numSamples] == acc.right;
    }
  }
}
