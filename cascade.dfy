/**
 * CascadeDSP: a multi-tap delay. Four taps read behind the write position,
 * their weighted sum is halved, fed back lightly into the line and mixed
 * into the dry signal by the smoothed mix.
 */
module Cascade {
  import opened Common
  import opened Juce
  import opened EffectBase

  const NumTaps: nat := 4
  const TapGains: seq<real> := [0.7, 0.5, 0.35, 0.2]
  const WetScale: real := 0.5
  const Feedback: real := 0.15

  /** The delay line: 0.5 s of samples, rounded down. */
  function BufferLength(sampleRate: real): (r: int)
    ensures 0.0 <= sampleRate ==> 0 <= r && r as real <= 0.5 * sampleRate < r as real + 1.0
  {
    Trunc(0.5 * sampleRate)
  }

  /** 125 ms, 250 ms, 375 ms, and one slot short of the whole line. */
  function TapDelays(sampleRate: real): (r: seq<int>)
    ensures |r| == NumTaps
  {
    [Trunc(0.125 * sampleRate), Trunc(0.25 * sampleRate), Trunc(0.375 * sampleRate), BufferLength(sampleRate) - 1]
  }

  /** Whenever prepare yields a non-empty line, every tap lies within it. */
  lemma TapsFit(sampleRate: real)
    requires BufferLength(sampleRate) >= 1
    ensures forall t :: 0 <= t < NumTaps ==> 0 <= TapDelays(sampleRate)[t] <= BufferLength(sampleRate)
  {
    TruncMonotone(0.125 * sampleRate, 0.5 * sampleRate);
    TruncMonotone(0.25 * sampleRate, 0.5 * sampleRate);
    TruncMonotone(0.375 * sampleRate, 0.5 * sampleRate);
  }

  /** From 8 Hz up, every tap delay is at most one slot short of the line. */
  lemma TapsShorterThanLine(sampleRate: real)
    requires sampleRate >= 8.0
    ensures forall t :: 0 <= t < NumTaps ==> 0 <= TapDelays(sampleRate)[t] <= BufferLength(sampleRate) - 1
  {
    TruncMonotone(0.125 * sampleRate, 0.375 * sampleRate);
    TruncMonotone(0.25 * sampleRate, 0.375 * sampleRate);
    TruncMonotone(0.375 * sampleRate + 1.0, 0.5 * sampleRate);
  }

  /** The delay lines, the write position and the tap delays. */
  datatype EffectState = EffectState(bufL: seq<real>, bufR: seq<real>, writePos: int, taps: seq<int>)
  {
    predicate Valid() {
      |bufL| >= 1 && |bufR| == |bufL| && 0 <= writePos < |bufL| &&
      |taps| == NumTaps && forall t :: 0 <= t < NumTaps ==> 0 <= taps[t] <= |bufL|
    }
  }

  type Prepared = s: EffectState | s.Valid() witness EffectState([0.0], [0.0], 0, [0, 0, 0, 0])

  /** `writePos - d`, wrapped once by adding the line length: the slot `d` frames back. */
  function ReadIndex(pos: int, d: int, size: int): (r: int)
    requires 0 <= pos < size && 0 <= d <= size
    ensures 0 <= r < size
  {
    if pos - d < 0 then pos - d + size else pos - d
  }

  /** The wrapped read position is `(pos - d)` modulo the line length. */
  lemma ReadIndexIsMod(pos: int, d: int, size: int)
    requires 0 <= pos < size && 0 <= d <= size
    ensures ReadIndex(pos, d, size) == (pos - d) % size
  {
    if pos - d < 0 {
      ModUnique(pos - d, size, -1, pos - d + size);
    } else {
      ModUnique(pos - d, size, 0, pos - d);
    }
  }

  /** The weighted sum of the first `t` taps read behind `pos`. */
  function TapSum(buf: seq<real>, pos: int, taps: seq<int>, t: nat): (r: real)
    requires 0 <= pos < |buf| && t <= |taps| && t <= |TapGains|
    requires forall k :: 0 <= k < t ==> 0 <= taps[k] <= |buf|
    ensures FullScale(buf) ==> -GainSum(t) <= r <= GainSum(t)
  {
    if t == 0 then 0.0
    else
      var x := buf[ReadIndex(pos, taps[t - 1], |buf|)];
      ScaledWithinGain(x, TapGains[t - 1], FullScale(buf));
      TapSum(buf, pos, taps, t - 1) + x * TapGains[t - 1]
  }

  /** Every sample of the line lies in [-1, 1]. */
  predicate FullScale(buf: seq<real>) {
    forall i :: 0 <= i < |buf| ==> -1.0 <= buf[i] <= 1.0
  }

  /** The sum of the first `t` tap gains. */
  function GainSum(t: nat): real
    requires t <= |TapGains|
  {
    if t == 0 then 0.0 else GainSum(t - 1) + TapGains[t - 1]
  }

  lemma ScaledWithinGain(x: real, g: real, bounded: bool)
    requires 0.0 <= g && (bounded ==> -1.0 <= x <= 1.0)
    ensures bounded ==> -g <= x * g <= g
  {
    if bounded {
      MulMonotone(-1.0, x, g);
      MulMonotone(x, 1.0, g);
    }
  }

  /** A line within full scale gives a wet signal within 0.875 of full scale. */
  lemma FullScaleWetBound(buf: seq<real>, pos: int, taps: seq<int>)
    requires 0 <= pos < |buf| && |taps| == NumTaps
    requires forall k :: 0 <= k < NumTaps ==> 0 <= taps[k] <= |buf|
    requires FullScale(buf)
    ensures -0.875 <= TapSum(buf, pos, taps, NumTaps) * WetScale <= 0.875
  {
    assert GainSum(NumTaps) == 1.75;
  }

  /** A silent delay line contributes no echo. */
  lemma {:induction false} SilentLineNoEcho(buf: seq<real>, pos: int, taps: seq<int>, t: nat)
    requires 0 <= pos < |buf| && t <= |taps| && t <= |TapGains|
    requires forall k :: 0 <= k < t ==> 0 <= taps[k] <= |buf|
    requires forall i :: 0 <= i < |buf| ==> buf[i] == 0.0
    ensures TapSum(buf, pos, taps, t) == 0.0
  {
    if t > 0 {
      SilentLineNoEcho(buf, pos, taps, t - 1);
    }
  }

  /** What is written back into the line: the dry sample plus a little of the echo. */
  function FeedIn(dry: real, wet: real): real {
    dry + wet * Feedback
  }

  /** One iteration of the process loop. */
  function Step(s: Prepared, dryL: real, dryR: real, mixVal: real): (f: Frame<Prepared>)
    ensures mixVal < SkipBelow ==> f == Frame(s, dryL, dryR)
  {
    if mixVal < SkipBelow then Frame(s, dryL, dryR)
    else
      var wetL := TapSum(s.bufL, s.writePos, s.taps, NumTaps) * WetScale;
      var wetR := TapSum(s.bufR, s.writePos, s.taps, NumTaps) * WetScale;
      var next: Prepared := EffectState(s.bufL[s.writePos := FeedIn(dryL, wetL)],
                        s.bufR[s.writePos := FeedIn(dryR, wetR)],
                        Wrap(s.writePos, |s.bufL|), s.taps);
      Frame(next, Mixed(dryL, wetL, mixVal), Mixed(dryR, wetR, mixVal))
  }

  lemma StepSkipsQuietFrames()
    ensures SkipsQuietFrames(Step)
  {
  }

  /**
   * A processed frame: the echo is half the gain-weighted sum of the four
   * taps; exactly the slot at the write position is overwritten with the dry
   * sample plus 15% of the echo, and the position moves on by one.
   */
  lemma StepActive(s: Prepared, dryL: real, dryR: real, mixVal: real)
    requires mixVal >= SkipBelow
    ensures var f := Step(s, dryL, dryR, mixVal);
            var wetL := TapSum(s.bufL, s.writePos, s.taps, NumTaps) * WetScale;
            var wetR := TapSum(s.bufR, s.writePos, s.taps, NumTaps) * WetScale;
            f.state.taps == s.taps && |f.state.bufL| == |s.bufL| &&
            f.state.writePos == Wrap(s.writePos, |s.bufL|) &&
            f.state.bufL[s.writePos] == FeedIn(dryL, wetL) && f.state.bufR[s.writePos] == FeedIn(dryR, wetR) &&
            (forall i :: 0 <= i < |s.bufL| && i != s.writePos ==>
               f.state.bufL[i] == s.bufL[i] && f.state.bufR[i] == s.bufR[i]) &&
            f.left == Mixed(dryL, wetL, mixVal) && f.right == Mixed(dryR, wetR, mixVal)
  {
  }

  /**
   * The members the process loop updates (both lines, the write position and
   * the tap delays) are held together in `state`, one record field.
   */
  class CascadeDSP {
    const ext: Externals
    var sampleRate: real
    var mix: Smoothed
    var state: EffectState

    /** Prepared: non-empty lines of equal length, position and taps inside them. */
    predicate Valid()
      reads this
    {
      state.Valid()
    }

    constructor (ext: Externals)
      ensures this.ext == ext && sampleRate == 44100.0 && mix == NewSmoothed
      ensures state == EffectState([], [], 0, [0, 0, 0, 0])
    {
      this.ext := ext;
      sampleRate := 44100.0;
      mix := NewSmoothed;
      state := EffectState([], [], 0, [0, 0, 0, 0]);
    }

    method Prepare(sr: real)
      requires 0.0 <= sr
      modifies this
      ensures BufferLength(sr) >= 1 ==> Valid()
      ensures sampleRate == sr && mix == old(mix).Reset()
      ensures state == EffectState(Resize(old(state.bufL), BufferLength(sr)), Resize(old(state.bufR), BufferLength(sr)),
                                   0, TapDelays(sr))
    {
      sampleRate := sr;
      mix := mix.Reset();
      var delayLength := BufferLength(sr);
      state := EffectState(Resize(state.bufL, delayLength), Resize(state.bufR, delayLength), 0, TapDelays(sr));
      if delayLength >= 1 {
        TapsFit(sr);
      }
    }

    /** What `reset` leaves behind: silent delay lines and a settled mix. */
    predicate Cleared()
      reads this
    {
      mix.Settled() && Silent(state.bufL) && Silent(state.bufR)
    }

    method Reset()
      modifies this
      ensures Cleared()
      ensures mix == old(mix).Reset() && sampleRate == old(sampleRate)
      ensures state == old(state).(bufL := Zeros(|old(state.bufL)|), bufR := Zeros(|old(state.bufR)|))
      ensures old(Valid()) ==> Valid()
    {
      mix := mix.Reset();
      state := state.(bufL := Zeros(|state.bufL|), bufR := Zeros(|state.bufR|));
    }

    method SetMix(newMix: real)
      modifies this
      ensures mix == old(mix).SetTarget(newMix, ext)
      ensures state == old(state) && sampleRate == old(sampleRate)
    {
      mix := mix.SetTarget(newMix, ext);
    }

    /** The tap loop: the weighted sum of all taps on each channel. */
    method SumTaps() returns (wetL: real, wetR: real)
      requires Valid()
      ensures wetL == TapSum(state.bufL, state.writePos, state.taps, NumTaps)
      ensures wetR == TapSum(state.bufR, state.writePos, state.taps, NumTaps)
    {
      var s := state;
      wetL, wetR := 0.0, 0.0;
      var t := 0;
      while t < NumTaps
        invariant 0 <= t <= NumTaps
        invariant wetL == TapSum(s.bufL, s.writePos, s.taps, t)
        invariant wetR == TapSum(s.bufR, s.writePos, s.taps, t)
      {
        var readPos := s.writePos - s.taps[t];
        if readPos < 0 {
          readPos := readPos + |s.bufL|;
        }
        wetL := wetL + s.bufL[readPos] * TapGains[t];
        wetR := wetR + s.bufR[readPos] * TapGains[t];
        t := t + 1;
      }
    }

    /** The body of the process loop for a frame that is not skipped. */
    method ProcessFrame(dryL: real, dryR: real, mixVal: real) returns (outL: real, outR: real)
      requires Valid() && mixVal >= SkipBelow
      modifies this
      ensures Valid()
      ensures var f := Step(old(state), dryL, dryR, mixVal);
              f.state == state && f.left == outL && f.right == outR
      ensures mix == old(mix) && sampleRate == old(sampleRate)
    {
      var wetL, wetR := SumTaps();
      wetL := wetL * WetScale;
      wetR := wetR * WetScale;
      var s := state;
      WrapIsMod(s.writePos, |s.bufL|);
      state := s.(bufL := s.bufL[s.writePos := FeedIn(dryL, wetL)], bufR := s.bufR[s.writePos := FeedIn(dryR, wetR)],
                  writePos := (s.writePos + 1) % |s.bufL|);
      outL := Mixed(dryL, wetL, mixVal);
      outR := Mixed(dryR, wetR, mixVal);
    }

    /**
     * One iteration of the process loop: draw the mix, then skip or process
     * frame `i`. The block processed so far grows by that frame.
     */
    method Tick(left: array<real>, right: array<real>, i: nat, ghost s0: Prepared,
                ghost ls: seq<real>, ghost rs: seq<real>, ghost mixes: seq<real>, ghost acc: Block<Prepared>)
      returns (ghost next: Block<Prepared>)
      requires Valid() && left != right && i < left.Length && i < right.Length
      requires i < |ls| && i < |rs| && i < |mixes| && left[i] == ls[i] && right[i] == rs[i] && mixes[i] == mix.Next().0
      requires acc == Run(Step, s0, ls, rs, mixes, i) && acc.state == state
      requires forall k :: 0 <= k < i ==> left[k] == acc.left[k] && right[k] == acc.right[k]
      modifies this, left, right
      ensures Valid()
      ensures next == Run(Step, s0, ls, rs, mixes, i + 1) && next.state == state
      ensures forall k :: 0 <= k < i + 1 ==> left[k] == next.left[k] && right[k] == next.right[k]
      ensures forall k :: i + 1 <= k < left.Length ==> left[k] == old(left[k])
      ensures forall k :: i + 1 <= k < right.Length ==> right[k] == old(right[k])
      ensures mix == old(mix).Next().1 && sampleRate == old(sampleRate)
    {
      ghost var f := Step(state, ls[i], rs[i], mixes[i]);
      var drawn := mix.Next();
      var mixVal := drawn.0;
      mix := drawn.1;
      if mixVal >= SkipBelow {
        var outL, outR := ProcessFrame(left[i], right[i], mixVal);
        left[i] := outL;
        right[i] := outR;
      }
      RunSnoc(Step, s0, ls, rs, mixes, i, acc, f);
      next := Block(state, acc.left + [left[i]], acc.right + [right[i]]);
    }

    method Process(left: array<real>, right: array<real>, numSamples: nat)
      requires Valid() && left != right
      requires numSamples <= left.Length && numSamples <= right.Length
      modifies this, left, right
      ensures Valid()
      ensures var b := Run(Step, old(state), old(left[..numSamples]), old(right[..numSamples]),
                          old(mix).Values(numSamples), numSamples);
              state == b.state && left[..numSamples] == b.left && right[..numSamples] == b.right
      ensures forall k :: numSamples <= k < left.Length ==> left[k] == old(left[k])
      ensures forall k :: numSamples <= k < right.Length ==> right[k] == old(right[k])
      ensures mix == old(mix).Advance(numSamples) && sampleRate == old(sampleRate)
    {
      ghost var s0: Prepared := state;
      ghost var mix0 := mix;
      ghost var ls, rs := left[..numSamples], right[..numSamples];
      ghost var mixes := mix.Values(numSamples);
      ghost var acc: Block<Prepared> := Block(s0, [], []);
      var i := 0;
      while i < numSamples
        invariant 0 <= i <= numSamples
        invariant Valid()
        invariant mix == mix0.Advance(i) && sampleRate == old(sampleRate)
        invariant acc == Run(Step, s0, ls, rs, mixes, i) && acc.state == state
        invariant forall k :: 0 <= k < i ==> left[k] == acc.left[k] && right[k] == acc.right[k]
        invariant forall k :: i <= k < left.Length ==> left[k] == old(left[k])
        invariant forall k :: i <= k < right.Length ==> right[k] == old(right[k])
      {
        ValuesAt(mix0, numSamples, i);
        acc := Tick(left, right, i, s0, ls, rs, mixes, acc);
        i := i + 1;
      }
      assert left[..numSamples] == acc.left;
      assert right[..numSamples] == acc.right;
    }
  }
}
