/**
 * GrindDSP: a bit-crushed delay line (~300 ms). A sample-and-hold stage reads
 * the line only every `HoldFactor` frames and bit-reduces what it reads; the
 * held samples are fed back and mixed in.
 */
module Grind {
  import opened Common
  import opened Juce
  import opened EffectBase

  /** The delay line: 0.3 s of samples, rounded down. */
  function BufferLength(sampleRate: real): (r: int)
    ensures 0.0 <= sampleRate ==> 0 <= r && r as real <= 0.3 * sampleRate < r as real + 1.0
  {
    Trunc(0.3 * sampleRate)
  }

  /** The sample-rate reduction factor, from 1x at mix 0 to 8x at mix 1. */
  function HoldFactor(mixVal: real): (r: int)
    ensures 0.0 <= mixVal ==> 1 <= r
  {
    1 + Trunc(mixVal * 7.0)
  }

  lemma HoldFactorRange(mixVal: real)
    requires 0.0 <= mixVal <= 1.0
    ensures 1 <= HoldFactor(mixVal) <= 8
    ensures mixVal == 1.0 ==> HoldFactor(mixVal) == 8
  {
    TruncMonotone(0.0, mixVal * 7.0);
    TruncMonotone(mixVal * 7.0, 7.0);
  }

  /** The quantisation depth, from 16 bits at mix 0 down to 4 bits at mix 1. */
  function Bits(mixVal: real): (r: real)
    ensures 0.0 <= mixVal <= 1.0 ==> 4.0 <= r <= 16.0
  {
    16.0 - mixVal * 12.0
  }

  function Feed(dry: real, held: real): real {
    dry + held * 0.5
  }

  datatype EffectState = EffectState(bufL: seq<real>, bufR: seq<real>, writePos: int,
                                     counter: int, heldL: real, heldR: real)
  {
    predicate Valid() {
      |bufL| >= 1 && |bufR| == |bufL| && 0 <= writePos < |bufL| && counter >= 0
    }
  }

  type Prepared = s: EffectState | s.Valid() witness EffectState([0.0], [0.0], 0, 0, 0.0, 0.0)

  /** The sample-and-hold stage: count the frame and, once the count reaches the factor, restart it and re-read the line. */
  function Hold(ext: Externals, s: Prepared, mixVal: real): (r: (int, real, real))
    requires mixVal >= SkipBelow
    ensures 0 <= r.0 < HoldFactor(mixVal)
    ensures r.0 == 0 <==> s.counter + 1 >= HoldFactor(mixVal)
    ensures r.0 != 0 ==> r.0 == s.counter + 1 && r.1 == s.heldL && r.2 == s.heldR
    ensures r.0 == 0 ==>
      r.1 == ext.quantize(s.bufL[s.writePos], Bits(mixVal)) && r.2 == ext.quantize(s.bufR[s.writePos], Bits(mixVal))
  {
    TruncMonotone(0.0, mixVal * 7.0);
    var counter := s.counter + 1;
    if counter >= HoldFactor(mixVal) then
      (0, ext.quantize(s.bufL[s.writePos], Bits(mixVal)), ext.quantize(s.bufR[s.writePos], Bits(mixVal)))
    else (counter, s.heldL, s.heldR)
  }

  function Step(ext: Externals, s: Prepared, dryL: real, dryR: real, mixVal: real): (f: Frame<Prepared>)
    ensures mixVal < SkipBelow ==> f == Frame(s, dryL, dryR)
  {
    if mixVal < SkipBelow then Frame(s, dryL, dryR)
    else
      var held := Hold(ext, s, mixVal);
      var next: Prepared := EffectState(s.bufL[s.writePos := Feed(dryL, held.1)],
                                        s.bufR[s.writePos := Feed(dryR, held.2)],
                                        Wrap(s.writePos, |s.bufL|), held.0, held.1, held.2);
      Frame(next, Mixed(dryL, held.1, mixVal), Mixed(dryR, held.2, mixVal))
  }

  function Stepper(ext: Externals): (Prepared, real, real, real) -> Frame<Prepared> {
    (s: Prepared, l: real, r: real, m: real) => Step(ext, s, l, r, m)
  }

  lemma StepSkipsQuietFrames(ext: Externals)
    ensures SkipsQuietFrames(Stepper(ext))
  {
  }

  /**
   * A processed frame: the sample-and-hold stage runs first; the slot at the
   * write position is overwritten with the dry sample plus half the held
   * sample, nothing else in the line changes, and the position moves on.
   */
  lemma StepActive(ext: Externals, s: Prepared, dryL: real, dryR: real, mixVal: real)
    requires mixVal >= SkipBelow
    ensures var f := Step(ext, s, dryL, dryR, mixVal);
            var n := f.state;
            (n.counter, n.heldL, n.heldR) == Hold(ext, s, mixVal) &&
            |n.bufL| == |s.bufL| && n.writePos == Wrap(s.writePos, |s.bufL|) &&
            n.bufL[s.writePos] == Feed(dryL, n.heldL) && n.bufR[s.writePos] == Feed(dryR, n.heldR) &&
            (forall i :: 0 <= i < |s.bufL| && i != s.writePos ==> n.bufL[i] == s.bufL[i] && n.bufR[i] == s.bufR[i]) &&
            f.left == Mixed(dryL, n.heldL, mixVal) && f.right == Mixed(dryR, n.heldR, mixVal)
  {
  }

  /**
   * At a constant mix the held samples are refreshed once every `HoldFactor`
   * frames: from a fresh count, the count after `n` frames is `n` while `n`
   * is below the factor, and the frame that reaches the factor restarts it.
   */
  lemma {:induction false} CounterCycle(ext: Externals, s: Prepared, ls: seq<real>, rs: seq<real>,
                                        mixes: seq<real>, mixVal: real, n: nat)
    requires mixVal >= SkipBelow && s.counter == 0
    requires n <= |ls| && n <= |rs| && n <= |mixes| && n < HoldFactor(mixVal)
    requires forall k :: 0 <= k < n ==> mixes[k] == mixVal
    ensures Run(Stepper(ext), s, ls, rs, mixes, n).state.counter == n
  {
    if n > 0 {
      CounterCycle(ext, s, ls, rs, mixes, mixVal, n - 1);
      RunLast(Stepper(ext), s, ls, rs, mixes, n);
      StepActive(ext, Run(Stepper(ext), s, ls, rs, mixes, n - 1).state, ls[n - 1], rs[n - 1], mixes[n - 1]);
    }
  }

  lemma CounterWraps(ext: Externals, s: Prepared, ls: seq<real>, rs: seq<real>, mixes: seq<real>, mixVal: real)
    requires mixVal >= SkipBelow && s.counter == 0
    requires HoldFactor(mixVal) <= |ls| && HoldFactor(mixVal) <= |rs| && HoldFactor(mixVal) <= |mixes|
    requires forall k :: 0 <= k < HoldFactor(mixVal) ==> mixes[k] == mixVal
    ensures Run(Stepper(ext), s, ls, rs, mixes, HoldFactor(mixVal)).state.counter == 0
  {
    var h := HoldFactor(mixVal);
    TruncMonotone(0.0, mixVal * 7.0);
    CounterCycle(ext, s, ls, rs, mixes, mixVal, h - 1);
    RunLast(Stepper(ext), s, ls, rs, mixes, h);
    StepActive(ext, Run(Stepper(ext), s, ls, rs, mixes, h - 1).state, ls[h - 1], rs[h - 1], mixes[h - 1]);
  }

  /**
   * The members the process loop updates (both lines, the write position, the
   * hold counter and the held samples) are held together in `state`, one
   * record field assigned once per step.
   */
  class GrindDSP {
    const ext: Externals
    var sampleRate: real
    var mix: Smoothed
    var state: EffectState
    var feedbackL: real
    var feedbackR: real

    predicate Valid()
      reads this
    {
      state.Valid()
    }

    constructor (ext: Externals)
      ensures this.ext == ext && sampleRate == 44100.0 && mix == NewSmoothed
      ensures state == EffectState([], [], 0, 0, 0.0, 0.0) && feedbackL == 0.0 && feedbackR == 0.0
    {
      this.ext := ext;
      sampleRate := 44100.0;
      mix := NewSmoothed;
      state := EffectState([], [], 0, 0, 0.0, 0.0);
      feedbackL, feedbackR := 0.0, 0.0;
    }

    method Prepare(sr: real)
      requires 0.0 <= sr
      modifies this
      ensures BufferLength(sr) >= 1 ==> Valid()
      ensures sampleRate == sr && mix == old(mix).Reset()
      ensures state == EffectState(Resize(old(state.bufL), BufferLength(sr)), Resize(old(state.bufR), BufferLength(sr)),
                                   0, 0, 0.0, 0.0)
      ensures feedbackL == 0.0 && feedbackR == 0.0
    {
      sampleRate := sr;
      mix := mix.Reset();
      var delayLength := BufferLength(sr);
      state := EffectState(Resize(state.bufL, delayLength), Resize(state.bufR, delayLength), 0, 0, 0.0, 0.0);
      feedbackL, feedbackR := 0.0, 0.0;
    }

    /** What `reset` leaves behind: silent lines, nothing held, no feedback, a settled mix. */
    predicate Cleared()
      reads this
    {
      mix.Settled() && Silent(state.bufL) && Silent(state.bufR) && feedbackL == 0.0 && feedbackR == 0.0 &&
      state.counter == 0 && state.heldL == 0.0 && state.heldR == 0.0
    }

    method Reset()
      modifies this
      ensures Cleared()
      ensures mix == old(mix).Reset() && sampleRate == old(sampleRate)
      ensures state == EffectState(Zeros(|old(state.bufL)|), Zeros(|old(state.bufR)|), old(state.writePos), 0, 0.0, 0.0)
      ensures old(Valid()) ==> Valid()
    {
      mix := mix.Reset();
      var s := state;
      state := EffectState(Zeros(|s.bufL|), Zeros(|s.bufR|), s.writePos, 0, 0.0, 0.0);
      feedbackL, feedbackR := 0.0, 0.0;
    }

    method SetMix(newMix: real)
      modifies this
      ensures mix == old(mix).SetTarget(newMix, ext)
      ensures state == old(state) && sampleRate == old(sampleRate)
      ensures feedbackL == old(feedbackL) && feedbackR == old(feedbackR)
    {
      mix := mix.SetTarget(newMix, ext);
    }

    /** The body of the process loop for a frame that is not skipped. */
    method ProcessFrame(dryL: real, dryR: real, mixVal: real) returns (outL: real, outR: real)
      requires Valid() && mixVal >= SkipBelow
      modifies this
      ensures Valid()
      ensures var f := Step(ext, old(state), dryL, dryR, mixVal);
              f.state == state && f.left == outL && f.right == outR
      ensures mix == old(mix) && sampleRate == old(sampleRate)
      ensures feedbackL == old(feedbackL) && feedbackR == old(feedbackR)
    {
      var s := state;
      var holdFactor := 1 + Trunc(mixVal * 7.0);
      var counter := s.counter + 1;
      var heldL, heldR := s.heldL, s.heldR;
      if counter >= holdFactor {
        counter := 0;
        var readPos := s.writePos;
        var delayedL, delayedR := s.bufL[readPos], s.bufR[readPos];
        var bits := 16.0 - mixVal * 12.0;
        heldL := ext.quantize(delayedL, bits);
        heldR := ext.quantize(delayedR, bits);
      }
      WrapIsMod(s.writePos, |s.bufL|);
      state := EffectState(s.bufL[s.writePos := Feed(dryL, heldL)], s.bufR[s.writePos := Feed(dryR, heldR)],
                           (s.writePos + 1) % |s.bufL|, counter, heldL, heldR);
      outL := Mixed(dryL, heldL, mixVal);
      outR := Mixed(dryR, heldR, mixVal);
    }

    /**
     * One iteration of the process loop: draw the mix, then skip or process
     * frame `i`. The block processed so far grows by that frame.
     */
    method Tick(left: array<real>, right: array<real>, i: nat, ghost s0: Prepared,
                ghost ls: seq<real>, ghost rs: seq<real>, ghost mixes: seq<real>, ghost acc: Block<Prepared>)
      returns (ghost next: Block<Prepared>)
      requires Valid() && left != right && i < left.Length && i < right.Length
      requires i < |ls| && i < |rs| && i < |mixes| && left[i] == ls[i] && right[i] == rs[i] && mixes[i] == mix.Next().0
      requires acc == Run(Stepper(ext), s0, ls, rs, mixes, i) && acc.state == state
      requires forall k :: 0 <= k < i ==> left[k] == acc.left[k] && right[k] == acc.right[k]
      modifies this, left, right
      ensures Valid()
      ensures next == Run(Stepper(ext), s0, ls, rs, mixes, i + 1) && next.state == state
      ensures forall k :: 0 <= k < i + 1 ==> left[k] == next.left[k] && right[k] == next.right[k]
      ensures forall k :: i + 1 <= k < left.Length ==> left[k] == old(left[k])
      ensures forall k :: i + 1 <= k < right.Length ==> right[k] == old(right[k])
      ensures mix == old(mix).Next().1 && sampleRate == old(sampleRate)
      ensures feedbackL == old(feedbackL) && feedbackR == old(feedbackR)
    {
      ghost var f := Stepper(ext)(state, ls[i], rs[i], mixes[i]);
      var drawn := mix.Next();
      var mixVal := drawn.0;
      mix := drawn.1;
      if mixVal >= SkipBelow {
        var outL, outR := ProcessFrame(left[i], right[i], mixVal);
        left[i] := outL;
        right[i] := outR;
      }
      RunSnoc(Stepper(ext), s0, ls, rs, mixes, i, acc, f);
      next := Block(state, acc.left + [left[i]], acc.right + [right[i]]);
    }

    method Process(left: array<real>, right: array<real>, numSamples: nat)
      requires Valid() && left != right
      requires numSamples <= left.Length && numSamples <= right.Length
      modifies this, left, right
      ensures Valid()
      ensures var b := Run(Stepper(ext), old(state), old(left[..numSamples]), old(right[..numSamples]),
                          old(mix).Values(numSamples), numSamples);
              state == b.state && left[..numSamples] == b.left && right[..numSamples] == b.right
      ensures forall k :: numSamples <= k < left.Length ==> left[k] == old(left[k])
      ensures forall k :: numSamples <= k < right.Length ==> right[k] == old(right[k])
      ensures mix == old(mix).Advance(numSamples) && sampleRate == old(sampleRate)
      ensures feedbackL == old(feedbackL) && feedbackR == old(feedbackR)
    {
      ghost var s0: Prepared := state;
      ghost var mix0 := mix;
      ghost var ls, rs := left[..numSamples], right[..numSamples];
      ghost var mixes := mix.Values(numSamples);
      ghost var acc: Block<Prepared> := Block(s0, [], []);
      var i := 0;
      while i < numSamples
        invariant 0 <= i <= numSamples
        invariant Valid()
        invariant mix == mix0.Advance(i) && sampleRate == old(sampleRate)
        invariant feedbackL == old(feedbackL) && feedbackR == old(feedbackR)
        invariant acc == Run(Stepper(ext), s0, ls, rs, mixes, i) && acc.state == state
        invariant forall k :: 0 <= k < i ==> left[k] == acc.left[k] && right[k] == acc.right[k]
        invariant forall k :: i <= k < left.Length ==> left[k] == old(left[k])
        invariant forall k :: i <= k < right.Length ==> right[k] == old(right[k])
      {
        ValuesAt(mix0, numSamples, i);
        acc := Tick(left, right, i, s0, ls, rs, mixes, acc);
        i := i + 1;
      }
      assert left[..numSamples] == acc.left;
      assert right[..numSamples] == acc.right;
    }
  }
}
