/**
 * PrismDSP: a feedback comb filter on a ~7 ms line. Each frame reads the
 * slot at the write position, writes the comb output back into that same
 * slot and moves on, so the line delays by exactly its length.
 */
module Prism {
  import opened Common
  import opened Juce
  import opened EffectBase

  /** The comb line: 0.007 s of samples, rounded down. */
  function BufferLength(sampleRate: real): (r: int)
    ensures 0.0 <= sampleRate ==> 0 <= r && r as real <= 0.007 * sampleRate < r as real + 1.0
  {
    Trunc(0.007 * sampleRate)
  }

  /** The comb feedback grows with the mix: 0.5 at no mix, 0.85 at full mix. */
  function CombFeedback(mixVal: real): (r: real)
    ensures 0.0 <= mixVal <= 1.0 ==> 0.5 <= r <= 0.85 < 1.0
  {
    0.5 + mixVal * 0.35
  }

  /** The comb output written back into the line. */
  function CombWet(dry: real, delayed: real, mixVal: real): (r: real)
    ensures delayed == 0.0 ==> r == dry
  {
    dry + delayed * CombFeedback(mixVal)
  }

  /** The comb adds between half and 85% of the delayed sample to the dry one. */
  lemma CombWetBetween(dry: real, delayed: real, mixVal: real)
    requires 0.0 <= mixVal <= 1.0 && delayed >= 0.0
    ensures dry + 0.5 * delayed <= CombWet(dry, delayed, mixVal) <= dry + 0.85 * delayed
  {
    MulMonotone(0.0, mixVal, delayed);
    MulMonotone(mixVal, 1.0, delayed);
    assert CombWet(dry, delayed, mixVal) == dry + 0.5 * delayed + 0.35 * (mixVal * delayed);
  }

  /** The output sample: 70% of the mix of the comb's contribution. */
  function CombOut(dry: real, wet: real, mixVal: real): (r: real)
    ensures mixVal == 0.0 || wet == dry ==> r == dry
    ensures mixVal == 1.0 ==> r == 0.3 * dry + 0.7 * wet
  {
    dry + (wet - dry) * mixVal * 0.7
  }

  /** The delay lines and the shared read/write position. */
  datatype EffectState = EffectState(bufL: seq<real>, bufR: seq<real>, writePos: int)
  {
    predicate Valid() {
      |bufL| >= 1 && |bufR| == |bufL| && 0 <= writePos < |bufL|
    }
  }

  type Prepared = s: EffectState | s.Valid() witness EffectState([0.0], [0.0], 0)

  /** One iteration of the process loop. */
  function Step(s: Prepared, dryL: real, dryR: real, mixVal: real): (f: Frame<Prepared>)
    ensures mixVal < SkipBelow ==> f == Frame(s, dryL, dryR)
  {
    if mixVal < SkipBelow then Frame(s, dryL, dryR)
    else
      var delayedL := s.bufL[s.writePos];
      var delayedR := s.bufR[s.writePos];
      var wetL := CombWet(dryL, delayedL, mixVal);
      var wetR := CombWet(dryR, delayedR, mixVal);
      var next: Prepared := EffectState(s.bufL[s.writePos := wetL], s.bufR[s.writePos := wetR],
                                        Wrap(s.writePos, |s.bufL|));
      Frame(next, CombOut(dryL, wetL, mixVal), CombOut(dryR, wetR, mixVal))
  }

  /**
   * A processed frame reads the slot at the write position, overwrites that
   * same slot with the comb output and moves on by one; no other slot changes.
   */
  lemma StepActive(s: Prepared, dryL: real, dryR: real, mixVal: real)
    requires mixVal >= SkipBelow
    ensures var f := Step(s, dryL, dryR, mixVal);
            var wetL := CombWet(dryL, s.bufL[s.writePos], mixVal);
            var wetR := CombWet(dryR, s.bufR[s.writePos], mixVal);
            |f.state.bufL| == |s.bufL| && f.state.writePos == Wrap(s.writePos, |s.bufL|) &&
            f.state.bufL[s.writePos] == wetL && f.state.bufR[s.writePos] == wetR &&
            (forall i :: 0 <= i < |s.bufL| && i != s.writePos ==>
               f.state.bufL[i] == s.bufL[i] && f.state.bufR[i] == s.bufR[i]) &&
            f.left == CombOut(dryL, wetL, mixVal) && f.right == CombOut(dryR, wetR, mixVal)
  {
  }

  /** A processed frame leaves every slot but the one at the write position alone. */
  lemma StepKeepsOtherSlots(s: Prepared, dryL: real, dryR: real, mixVal: real, slot: int)
    requires mixVal >= SkipBelow && 0 <= slot < |s.bufL| && slot != s.writePos
    ensures var next := Step(s, dryL, dryR, mixVal).state;
            next.bufL[slot] == s.bufL[slot] && next.bufR[slot] == s.bufR[slot]
  {
    StepActive(s, dryL, dryR, mixVal);
  }

  lemma StepSkipsQuietFrames()
    ensures SkipsQuietFrames(Step)
  {
  }

  /** All of the first `n` frames are loud enough to be processed. */
  predicate AllActive(mixes: seq<real>, n: nat)
    requires n <= |mixes|
  {
    forall k :: 0 <= k < n ==> mixes[k] >= SkipBelow
  }

  /** Over processed frames the line length never changes and the position steps round the ring. */
  lemma {:induction false} PositionAfter(s: Prepared, ls: seq<real>, rs: seq<real>, mixes: seq<real>, i: nat)
    requires i <= |ls| && i <= |rs| && i <= |mixes| && AllActive(mixes, i)
    ensures var now := Run(Step, s, ls, rs, mixes, i).state;
            |now.bufL| == |s.bufL| && now.writePos == RingPos(s.writePos, i, |s.bufL|)
    decreases i
  {
    if i > 0 {
      PositionAfter(s, ls, rs, mixes, i - 1);
      RunLast(Step, s, ls, rs, mixes, i);
      assert mixes[i - 1] >= SkipBelow;
      StepActive(Run(Step, s, ls, rs, mixes, i - 1).state, ls[i - 1], rs[i - 1], mixes[i - 1]);
    }
  }

  /**
   * The slot written at frame `i - d` keeps that value up to frame `i`, as
   * long as no more than a full turn of frames (`d <= size`) lie in between.
   */
  lemma {:induction false} SlotHolds(s: Prepared, ls: seq<real>, rs: seq<real>, mixes: seq<real>, i: nat, d: nat)
    requires i <= |ls| && i <= |rs| && i <= |mixes| && AllActive(mixes, i)
    requires 1 <= d <= i && d <= |s.bufL|
    ensures var slot := RingPos(s.writePos, i - d, |s.bufL|);
            var now := Run(Step, s, ls, rs, mixes, i).state;
            var earlier := Run(Step, s, ls, rs, mixes, i - d + 1).state;
            |now.bufL| == |s.bufL| && |earlier.bufL| == |s.bufL| &&
            now.bufL[slot] == earlier.bufL[slot] && now.bufR[slot] == earlier.bufR[slot]
    decreases d
  {
    PositionAfter(s, ls, rs, mixes, i);
    PositionAfter(s, ls, rs, mixes, i - d + 1);
    if d > 1 {
      var slot := RingPos(s.writePos, i - d, |s.bufL|);
      SlotHolds(s, ls, rs, mixes, i - 1, d - 1);
      PositionAfter(s, ls, rs, mixes, i - 1);
      RingPosDistinct(s.writePos, i - d, d - 1, |s.bufL|);
      var prev := Run(Step, s, ls, rs, mixes, i - 1).state;
      RunLast(Step, s, ls, rs, mixes, i);
      StepKeepsOtherSlots(prev, ls[i - 1], rs[i - 1], mixes[i - 1], slot);
    }
  }

  /**
   * The comb's delay is exactly one line length: what frame `i` reads at the
   * write position is what frame `i - size` wrote into that same slot.
   */
  lemma EchoAfterOneTurn(s: Prepared, ls: seq<real>, rs: seq<real>, mixes: seq<real>, i: nat)
    requires i <= |ls| && i <= |rs| && i <= |mixes| && AllActive(mixes, i)
    requires |s.bufL| <= i
    ensures var size := |s.bufL|;
            var now := Run(Step, s, ls, rs, mixes, i).state;
            var earlier := Run(Step, s, ls, rs, mixes, i - size + 1).state;
            var slot := RingPos(s.writePos, i - size, size);
            |now.bufL| == size && |earlier.bufL| == size &&
            now.writePos == slot && now.bufL[now.writePos] == earlier.bufL[slot] && now.bufR[now.writePos] == earlier.bufR[slot]
  {
    var size := |s.bufL|;
    PositionAfter(s, ls, rs, mixes, i);
    RingPosPeriod(s.writePos, i - size, size);
    SlotHolds(s, ls, rs, mixes, i, size);
  }

  /**
   * The members the process loop updates (both comb lines and the write
   * position) are held together in `state`, one record field assigned once
   * per step.
   */
  class PrismDSP {
    const ext: Externals
    var sampleRate: real
    var mix: Smoothed
    var state: EffectState
    var feedbackL: real
    var feedbackR: real

    predicate Valid()
      reads this
    {
      state.Valid()
    }

    constructor (ext: Externals)
      ensures this.ext == ext && sampleRate == 44100.0 && mix == NewSmoothed
      ensures state == EffectState([], [], 0) && feedbackL == 0.0 && feedbackR == 0.0
    {
      this.ext := ext;
      sampleRate := 44100.0;
      mix := NewSmoothed;
      state := EffectState([], [], 0);
      feedbackL, feedbackR := 0.0, 0.0;
    }

    method Prepare(sr: real)
      requires 0.0 <= sr
      modifies this
      ensures BufferLength(sr) >= 1 ==> Valid()
      ensures sampleRate == sr && mix == old(mix).Reset()
      ensures state == EffectState(Resize(old(state.bufL), BufferLength(sr)), Resize(old(state.bufR), BufferLength(sr)), 0)
      ensures feedbackL == 0.0 && feedbackR == 0.0
    {
      sampleRate := sr;
      mix := mix.Reset();
      var delayLength := BufferLength(sr);
      state := EffectState(Resize(state.bufL, delayLength), Resize(state.bufR, delayLength), 0);
      feedbackL, feedbackR := 0.0, 0.0;
    }

    /** What `reset` leaves behind: silent comb lines, no feedback and a settled mix. */
    predicate Cleared()
      reads this
    {
      mix.Settled() && Silent(state.bufL) && Silent(state.bufR) && feedbackL == 0.0 && feedbackR == 0.0
    }

    method Reset()
      modifies this
      ensures Cleared()
      ensures mix == old(mix).Reset() && sampleRate == old(sampleRate)
      ensures state == EffectState(Zeros(|old(state.bufL)|), Zeros(|old(state.bufR)|), old(state.writePos))
      ensures old(Valid()) ==> Valid()
    {
      mix := mix.Reset();
      state := EffectState(Zeros(|state.bufL|), Zeros(|state.bufR|), state.writePos);
      feedbackL, feedbackR := 0.0, 0.0;
    }

    method SetMix(newMix: real)
      modifies this
      ensures mix == old(mix).SetTarget(newMix, ext)
      ensures state == old(state) && sampleRate == old(sampleRate)
      ensures feedbackL == old(feedbackL) && feedbackR == old(feedbackR)
    {
      mix := mix.SetTarget(newMix, ext);
    }

    /** The body of the process loop for a frame that is not skipped. */
    method ProcessFrame(dryL: real, dryR: real, mixVal: real) returns (outL: real, outR: real)
      requires Valid() && mixVal >= SkipBelow
      modifies this
      ensures Valid()
      ensures var f := Step(old(state), dryL, dryR, mixVal);
              f.state == state && f.left == outL && f.right == outR
      ensures mix == old(mix) && sampleRate == old(sampleRate)
      ensures feedbackL == old(feedbackL) && feedbackR == old(feedbackR)
    {
      var s := state;
      var readPos := s.writePos;
      var delayedL, delayedR := s.bufL[readPos], s.bufR[readPos];
      var wetL := CombWet(dryL, delayedL, mixVal);
      var wetR := CombWet(dryR, delayedR, mixVal);
      WrapIsMod(s.writePos, |s.bufL|);
      state := EffectState(s.bufL[s.writePos := wetL], s.bufR[s.writePos := wetR], (s.writePos + 1) % |s.bufL|);
      outL := CombOut(dryL, wetL, mixVal);
      outR := CombOut(dryR, wetR, mixVal);
    }

    /**
     * One iteration of the process loop: draw the mix, then skip or process
     * frame `i`. The block processed so far grows by that frame.
     */
    method Tick(left: array<real>, right: array<real>, i: nat, ghost s0: Prepared,
                ghost ls: seq<real>, ghost rs: seq<real>, ghost mixes: seq<real>, ghost acc: Block<Prepared>)
      returns (ghost next: Block<Prepared>)
      requires Valid() && left != right && i < left.Length && i < right.Length
      requires i < |ls| && i < |rs| && i < |mixes| && left[i] == ls[i] && right[i] == rs[i] && mixes[i] == mix.Next().0
      requires acc == Run(Step, s0, ls, rs, mixes, i) && acc.state == state
      requires forall k :: 0 <= k < i ==> left[k] == acc.left[k] && right[k] == acc.right[k]
      modifies this, left, right
      ensures Valid()
      ensures next == Run(Step, s0, ls, rs, mixes, i + 1) && next.state == state
      ensures forall k :: 0 <= k < i + 1 ==> left[k] == next.left[k] && right[k] == next.right[k]
      ensures forall k :: i + 1 <= k < left.Length ==> left[k] == old(left[k])
      ensures forall k :: i + 1 <= k < right.Length ==> right[k] == old(right[k])
      ensures mix == old(mix).Next().1 && sampleRate == old(sampleRate)
      ensures feedbackL == old(feedbackL) && feedbackR == old(feedbackR)
    {
      ghost var f := Step(state, ls[i], rs[i], mixes[i]);
      var drawn := mix.Next();
      var mixVal := drawn.0;
      mix := drawn.1;
      if mixVal >= SkipBelow {
        var outL, outR := ProcessFrame(left[i], right[i], mixVal);
        left[i] := outL;
        right[i] := outR;
      }
      RunSnoc(Step, s0, ls, rs, mixes, i, acc, f);
      next := Block(state, acc.left + [left[i]], acc.right + [right[i]]);
    }

    method Process(left: array<real>, right: array<real>, numSamples: nat)
      requires Valid() && left != right
      requires numSamples <= left.Length && numSamples <= right.Length
      modifies this, left, right
      ensures Valid()
      ensures var b := Run(Step, old(state), old(left[..numSamples]), old(right[..numSamples]),
                          old(mix).Values(numSamples), numSamples);
              state == b.state && left[..numSamples] == b.left && right[..numSamples] == b.right
      ensures forall k :: numSamples <= k < left.Length ==> left[k] == old(left[k])
      ensures forall k :: numSamples <= k < right.Length ==> right[k] == old(right[k])
      ensures mix == old(mix).Advance(numSamples) && sampleRate == old(sampleRate)
      ensures feedbackL == old(feedbackL) && feedbackR == old(feedbackR)
    {
      ghost var s0: Prepared := state;
      ghost var mix0 := mix;
      ghost var ls, rs := left[..numSamples], right[..numSamples];
      ghost var mixes := mix.Values(numSamples);
      ghost var acc: Block<Prepared> := Block(s0, [], []);
      var i := 0;
      while i < numSamples
        invariant 0 <= i <= numSamples
        invariant Valid()
        invariant mix == mix0.Advance(i) && sampleRate == old(sampleRate)
        invariant feedbackL == old(feedbackL) && feedbackR == old(feedbackR)
        invariant acc == Run(Step, s0, ls, rs, mixes, i) && acc.state == state
        invariant forall k :: 0 <= k < i ==> left[k] == acc.left[k] && right[k] == acc.right[k]
        invariant forall k :: i <= k < left.Length ==> left[k] == old(left[k])
        invariant forall k :: i <= k < right.Length ==> right[k] == old(right[k])
      {
        ValuesAt(mix0, numSamples, i);
        acc := Tick(left, right, i, s0, ls, rs, mixes, acc);
        i := i + 1;
      }
      assert left[..numSamples] == acc.left;
      assert right[..numSamples] == acc.right;
    }
  }
}
