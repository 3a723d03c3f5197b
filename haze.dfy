/**
 * HazeDSP: a dark plate reverb built from two pairs of comb lines (~37 ms and
 * ~53 ms), read at their write positions, low-passed at 2 kHz and fed back
 * with cross-feedback between the left and right channels.
 */
module Haze {
  import opened Common
  import opened Juce
  import opened EffectBase

  /** The short lines: 0.037 s of samples, rounded down. */
  function ShortLength(sampleRate: real): (r: int)
    ensures 0.0 <= sampleRate ==> 0 <= r && r as real <= 0.037 * sampleRate < r as real + 1.0
  {
    Trunc(0.037 * sampleRate)
  }

  /** The long lines: 0.053 s of samples, rounded down. */
  function LongLength(sampleRate: real): (r: int)
    ensures 0.0 <= sampleRate ==> 0 <= r && r as real <= 0.053 * sampleRate < r as real + 1.0
  {
    Trunc(0.053 * sampleRate)
  }

  /** The darkening filter design both channels share. */
  function DarkFilter(sampleRate: real): Coeffs {
    LowPass(sampleRate, 2000.0, 0.7)
  }

  /** The signal sent into the low-pass: 60% of the short line, 40% of the long one. */
  function TapBlend(tap1: real, tap2: real): real {
    tap1 * 0.6 + tap2 * 0.4
  }

  /** The short line of one channel is fed by that channel's dry sample and the other channel's reverb. */
  function ShortFeed(dry: real, otherWet: real): real {
    dry + otherWet * 0.45
  }

  /** The long line is fed by the channel's own reverb and dry sample. */
  function LongFeed(wet: real, dry: real): real {
    wet * 0.5 + dry * 0.3
  }

  /** The four comb lines, their two positions and the two low-pass filters. */
  datatype EffectState = EffectState(lineL1: seq<real>, lineL2: seq<real>, lineR1: seq<real>, lineR2: seq<real>,
                                     pos1: int, pos2: int, lpfL: Filter, lpfR: Filter)
  {
    predicate Valid() {
      |lineL1| >= 1 && |lineR1| == |lineL1| && |lineL2| >= 1 && |lineR2| == |lineL2| &&
      0 <= pos1 < |lineL1| && 0 <= pos2 < |lineL2|
    }
  }

  type Prepared = s: EffectState | s.Valid() witness EffectState([0.0], [0.0], [0.0], [0.0], 0, 0, NewFilter, NewFilter)

  /** One iteration of the process loop. */
  function Step(ext: Externals, s: Prepared, dryL: real, dryR: real, mixVal: real): (f: Frame<Prepared>)
    ensures mixVal < SkipBelow ==> f == Frame(s, dryL, dryR)
  {
    if mixVal < SkipBelow then Frame(s, dryL, dryR)
    else
      var filteredL := s.lpfL.Process(ext, TapBlend(s.lineL1[s.pos1], s.lineL2[s.pos2]));
      var filteredR := s.lpfR.Process(ext, TapBlend(s.lineR1[s.pos1], s.lineR2[s.pos2]));
      var wetL := filteredL.1;
      var wetR := filteredR.1;
      var next: Prepared := EffectState(s.lineL1[s.pos1 := ShortFeed(dryL, wetR)],
                                        s.lineL2[s.pos2 := LongFeed(wetL, dryL)],
                                        s.lineR1[s.pos1 := ShortFeed(dryR, wetL)],
                                        s.lineR2[s.pos2 := LongFeed(wetR, dryR)],
                                        Wrap(s.pos1, |s.lineL1|), Wrap(s.pos2, |s.lineL2|), filteredL.0, filteredR.0);
      Frame(next, Mixed(dryL, wetL, mixVal), Mixed(dryR, wetR, mixVal))
  }

  /** The loop body with the library routines fixed, as `Run` takes it. */
  function Stepper(ext: Externals): (Prepared, real, real, real) -> Frame<Prepared> {
    (s: Prepared, l: real, r: real, m: real) => Step(ext, s, l, r, m)
  }

  lemma StepSkipsQuietFrames(ext: Externals)
    ensures SkipsQuietFrames(Stepper(ext))
  {
  }

  /**
   * A processed frame: both lines of each channel are read at their positions
   * and the blend is darkened by that channel's low-pass; each short line is
   * then fed with its channel's dry sample plus 45% of the OTHER channel's
   * reverb, each long line with half its own reverb plus 30% dry. Only those
   * slots change, and both positions move on by one.
   */
  lemma StepActive(ext: Externals, s: Prepared, dryL: real, dryR: real, mixVal: real)
    requires mixVal >= SkipBelow
    ensures var f := Step(ext, s, dryL, dryR, mixVal);
            var n := f.state;
            var filteredL := s.lpfL.Process(ext, TapBlend(s.lineL1[s.pos1], s.lineL2[s.pos2]));
            var filteredR := s.lpfR.Process(ext, TapBlend(s.lineR1[s.pos1], s.lineR2[s.pos2]));
            var wetL := filteredL.1;
            var wetR := filteredR.1;
            n.lpfL == filteredL.0 && n.lpfR == filteredR.0 &&
            |n.lineL1| == |s.lineL1| && |n.lineL2| == |s.lineL2| &&
            n.pos1 == Wrap(s.pos1, |s.lineL1|) && n.pos2 == Wrap(s.pos2, |s.lineL2|) &&
            n.lineL1[s.pos1] == ShortFeed(dryL, wetR) && n.lineR1[s.pos1] == ShortFeed(dryR, wetL) &&
            n.lineL2[s.pos2] == LongFeed(wetL, dryL) && n.lineR2[s.pos2] == LongFeed(wetR, dryR) &&
            (forall i :: 0 <= i < |s.lineL1| && i != s.pos1 ==> n.lineL1[i] == s.lineL1[i] && n.lineR1[i] == s.lineR1[i]) &&
            (forall i :: 0 <= i < |s.lineL2| && i != s.pos2 ==> n.lineL2[i] == s.lineL2[i] && n.lineR2[i] == s.lineR2[i]) &&
            f.left == Mixed(dryL, wetL, mixVal) && f.right == Mixed(dryR, wetR, mixVal)
  {
  }

  /**
   * The members the process loop updates (the four lines, both write
   * positions and both low-pass filters) are held together in `state`, one
   * record field assigned once per step.
   */
  class HazeDSP {
    const ext: Externals
    var sampleRate: real
    var mix: Smoothed
    var state: EffectState
    var feedbackL: real
    var feedbackR: real

    predicate Valid()
      reads this
    {
      state.Valid()
    }

    constructor (ext: Externals)
      ensures this.ext == ext && sampleRate == 44100.0 && mix == NewSmoothed
      ensures state == EffectState([], [], [], [], 0, 0, NewFilter, NewFilter)
      ensures feedbackL == 0.0 && feedbackR == 0.0
    {
      this.ext := ext;
      sampleRate := 44100.0;
      mix := NewSmoothed;
      state := EffectState([], [], [], [], 0, 0, NewFilter, NewFilter);
      feedbackL, feedbackR := 0.0, 0.0;
    }

    method Prepare(sr: real)
      requires 0.0 <= sr
      modifies this
      ensures ShortLength(sr) >= 1 ==> Valid()
      ensures sampleRate == sr && mix == old(mix).Reset()
      ensures state.lineL1 == Resize(old(state.lineL1), ShortLength(sr))
      ensures state.lineR1 == Resize(old(state.lineR1), ShortLength(sr))
      ensures state.lineL2 == Resize(old(state.lineL2), LongLength(sr))
      ensures state.lineR2 == Resize(old(state.lineR2), LongLength(sr))
      ensures state.pos1 == 0 && state.pos2 == 0
      ensures state.lpfL == old(state.lpfL).(coeffs := DarkFilter(sr))
      ensures state.lpfR == old(state.lpfR).(coeffs := DarkFilter(sr))
      ensures feedbackL == old(feedbackL) && feedbackR == old(feedbackR)
    {
      sampleRate := sr;
      mix := mix.Reset();
      var delay1, delay2 := ShortLength(sr), LongLength(sr);
      TruncMonotone(0.037 * sr, 0.053 * sr);
      var s := state;
      var coeffs := DarkFilter(sr);
      state := EffectState(Resize(s.lineL1, delay1), Resize(s.lineL2, delay2),
                           Resize(s.lineR1, delay1), Resize(s.lineR2, delay2),
                           0, 0, s.lpfL.(coeffs := coeffs), s.lpfR.(coeffs := coeffs));
    }

    /** What `reset` leaves behind: silent delay lines and filters, no feedback, a settled mix. */
    predicate Cleared()
      reads this
    {
      mix.Settled() && Silent(state.lineL1) && Silent(state.lineL2) && Silent(state.lineR1) && Silent(state.lineR2) &&
      Silent(state.lpfL.memory) && Silent(state.lpfR.memory) && feedbackL == 0.0 && feedbackR == 0.0
    }

    method Reset()
      modifies this
      ensures Cleared()
      ensures mix == old(mix).Reset() && sampleRate == old(sampleRate)
      ensures state == old(state).(lineL1 := Zeros(|old(state.lineL1)|), lineL2 := Zeros(|old(state.lineL2)|),
                                   lineR1 := Zeros(|old(state.lineR1)|), lineR2 := Zeros(|old(state.lineR2)|),
                                   lpfL := old(state.lpfL).Reset(), lpfR := old(state.lpfR).Reset())
      ensures old(Valid()) ==> Valid()
    {
      mix := mix.Reset();
      var s := state;
      state := s.(lineL1 := Zeros(|s.lineL1|), lineL2 := Zeros(|s.lineL2|),
                  lineR1 := Zeros(|s.lineR1|), lineR2 := Zeros(|s.lineR2|),
                  lpfL := s.lpfL.Reset(), lpfR := s.lpfR.Reset());
      feedbackL, feedbackR := 0.0, 0.0;
    }

    method SetMix(newMix: real)
      modifies this
      ensures mix == old(mix).SetTarget(newMix, ext)
      ensures state == old(state) && sampleRate == old(sampleRate)
      ensures feedbackL == old(feedbackL) && feedbackR == old(feedbackR)
    {
      mix := mix.SetTarget(newMix, ext);
    }

    /** The body of the process loop for a frame that is not skipped. */
    method ProcessFrame(dryL: real, dryR: real, mixVal: real) returns (outL: real, outR: real)
      requires Valid() && mixVal >= SkipBelow
      modifies this
      ensures Valid()
      ensures var f := Step(ext, old(state), dryL, dryR, mixVal);
              f.state == state && f.left == outL && f.right == outR
      ensures mix == old(mix) && sampleRate == old(sampleRate)
      ensures feedbackL == old(feedbackL) && feedbackR == old(feedbackR)
    {
      var s := state;
      var tap1L, tap2L := s.lineL1[s.pos1], s.lineL2[s.pos2];
      var tap1R, tap2R := s.lineR1[s.pos1], s.lineR2[s.pos2];
      var filteredL := s.lpfL.Process(ext, TapBlend(tap1L, tap2L));
      var filteredR := s.lpfR.Process(ext, TapBlend(tap1R, tap2R));
      var wetL, wetR := filteredL.1, filteredR.1;
      WrapIsMod(s.pos1, |s.lineL1|);
      WrapIsMod(s.pos2, |s.lineL2|);
      state := EffectState(s.lineL1[s.pos1 := ShortFeed(dryL, wetR)], s.lineL2[s.pos2 := LongFeed(wetL, dryL)],
                           s.lineR1[s.pos1 := ShortFeed(dryR, wetL)], s.lineR2[s.pos2 := LongFeed(wetR, dryR)],
                           (s.pos1 + 1) % |s.lineL1|, (s.pos2 + 1) % |s.lineL2|, filteredL.0, filteredR.0);
      outL := Mixed(dryL, wetL, mixVal);
      outR := Mixed(dryR, wetR, mixVal);
    }

    /**
     * One iteration of the process loop: draw the mix, then skip or process
     * frame `i`. The block processed so far grows by that frame.
     */
    method Tick(left: array<real>, right: array<real>, i: nat, ghost s0: Prepared,
                ghost ls: seq<real>, ghost rs: seq<real>, ghost mixes: seq<real>, ghost acc: Block<Prepared>)
      returns (ghost next: Block<Prepared>)
      requires Valid() && left != right && i < left.Length && i < right.Length
      requires i < |ls| && i < |rs| && i < |mixes| && left[i] == ls[i] && right[i] == rs[i] && mixes[i] == mix.Next().0
      requires acc == Run(Stepper(ext), s0, ls, rs, mixes, i) && acc.state == state
      requires forall k :: 0 <= k < i ==> left[k] == acc.left[k] && right[k] == acc.right[k]
      modifies this, left, right
      ensures Valid()
      ensures next == Run(Stepper(ext), s0, ls, rs, mixes, i + 1) && next.state == state
      ensures forall k :: 0 <= k < i + 1 ==> left[k] == next.left[k] && right[k] == next.right[k]
      ensures forall k :: i + 1 <= k < left.Length ==> left[k] == old(left[k])
      ensures forall k :: i + 1 <= k < right.Length ==> right[k] == old(right[k])
      ensures mix == old(mix).Next().1 && sampleRate == old(sampleRate)
      ensures feedbackL == old(feedbackL) && feedbackR == old(feedbackR)
    {
      ghost var f := Stepper(ext)(state, ls[i], rs[i], mixes[i]);
      var drawn := mix.Next();
      var mixVal := drawn.0;
      mix := drawn.1;
      if mixVal >= SkipBelow {
        var outL, outR := ProcessFrame(left[i], right[i], mixVal);
        left[i] := outL;
        right[i] := outR;
      }
      RunSnoc(Stepper(ext), s0, ls, rs, mixes, i, acc, f);
      next := Block(state, acc.left + [left[i]], acc.right + [right[i]]);
    }

    method Process(left: array<real>, right: array<real>, numSamples: nat)
      requires Valid() && left != right
      requires numSamples <= left.Length && numSamples <= right.Length
      modifies this, left, right
      ensures Valid()
      ensures var b := Run(Stepper(ext), old(state), old(left[..numSamples]), old(right[..numSamples]),
                          old(mix).Values(numSamples), numSamples);
              state == b.state && left[..numSamples] == b.left && right[..numSamples] == b.right
      ensures forall k :: numSamples <= k < left.Length ==> left[k] == old(left[k])
      ensures forall k :: numSamples <= k < right.Length ==> right[k] == old(right[k])
      ensures mix == old(mix).Advance(numSamples) && sampleRate == old(sampleRate)
      ensures feedbackL == old(feedbackL) && feedbackR == old(feedbackR)
    {
      ghost var s0: Prepared := state;
      ghost var mix0 := mix;
      ghost var ls, rs := left[..numSamples], right[..numSamples];
      ghost var mixes := mix.Values(numSamples);
      ghost var acc: Block<Prepared> := Block(s0, [], []);
      var i := 0;
      while i < numSamples
        invariant 0 <= i <= numSamples
        invariant Valid()
        invariant mix == mix0.Advance(i) && sampleRate == old(sampleRate)
        invariant feedbackL == old(feedbackL) && feedbackR == old(feedbackR)
        invariant acc == Run(Stepper(ext), s0, ls, rs, mixes, i) && acc.state == state
        invariant forall k :: 0 <= k < i ==> left[k] == acc.left[k] && right[k] == acc.right[k]
        invariant forall k :: i <= k < left.Length ==> left[k] == old(left[k])
        invariant forall k :: i <= k < right.Length ==> right[k] == old(right[k])
      {
        ValuesAt(mix0, numSamples, i);
        acc := Tick(left, right, i, s0, ls, rs, mixes, acc);
        i := i + 1;
      }
      assert left[..numSamples] == acc.left;
      assert right[..numSamples] == acc.right;
    }
  }
}
