/**
 * RustDSP: a gated reverb. Two pairs of short reflection lines (~23 ms and
 * ~47 ms) with cross-feedback; an envelope follower on the input peak opens
 * a gate that scales both the reverb and the cross-feedback.
 */
module Rust {
  import opened Common
  import opened Juce
  import opened EffectBase

  const Attack: real := 0.001
  const Release: real := 0.05
  const GateThreshold: real := 0.05

  /** The short lines: 0.023 s of samples, rounded down. */
  function ShortLength(sampleRate: real): (r: int)
    ensures 0.0 <= sampleRate ==> 0 <= r && r as real <= 0.023 * sampleRate < r as real + 1.0
  {
    Trunc(0.023 * sampleRate)
  }

  /** The long lines: 0.047 s of samples, rounded down. */
  function LongLength(sampleRate: real): (r: int)
    ensures 0.0 <= sampleRate ==> 0 <= r && r as real <= 0.047 * sampleRate < r as real + 1.0
  {
    Trunc(0.047 * sampleRate)
  }

  /** The follower's input: the larger of the two channel magnitudes. */
  function InputLevel(dryL: real, dryR: real): (r: real)
    ensures r >= 0.0 && r >= Abs(dryL) && r >= Abs(dryR)
    ensures r == Abs(dryL) || r == Abs(dryR)
  {
    Max(Abs(dryL), Abs(dryR))
  }

  /** One envelope update: rise slowly by `Attack`, fall faster by `Release`. */
  function Follow(envelope: real, level: real): (r: real)
    ensures Min(envelope, level) <= r <= Max(envelope, level)
    ensures level > envelope ==> envelope < r
    ensures level < envelope ==> r < envelope
    ensures level == envelope ==> r == envelope
  {
    var coef := if level > envelope then Attack else Release;
    envelope + coef * (level - envelope)
  }

  /** The gate opens fully above the threshold and rises linearly below it. */
  function Gate(envelope: real): (r: real)
    ensures envelope >= 0.0 ==> 0.0 <= r <= 1.0
    ensures envelope > GateThreshold ==> r == 1.0
  {
    if envelope > GateThreshold then 1.0 else envelope / GateThreshold
  }

  lemma GateMonotone(a: real, b: real)
    requires a <= b
    ensures Gate(a) <= Gate(b)
  {
  }

  function Reflections(tap1: real, tap2: real, gate: real): real {
    (tap1 * 0.7 + tap2 * 0.5) * gate
  }

  /** The short line is fed by the dry sample and, through the gate, by the other channel's long tap. */
  function ShortFeed(dry: real, otherTap2: real, gate: real): real {
    dry + otherTap2 * 0.3 * gate
  }

  function LongFeed(tap1: real, dry: real): real {
    tap1 * 0.4 + dry * 0.3
  }

  datatype EffectState = EffectState(lineL1: seq<real>, lineL2: seq<real>, lineR1: seq<real>, lineR2: seq<real>,
                                     pos1: int, pos2: int, envelope: real)
  {
    /** Besides well-placed positions, the envelope is never negative. */
    predicate Valid() {
      |lineL1| >= 1 && |lineR1| == |lineL1| && |lineL2| >= 1 && |lineR2| == |lineL2| &&
      0 <= pos1 < |lineL1| && 0 <= pos2 < |lineL2| && envelope >= 0.0
    }
  }

  type Prepared = s: EffectState | s.Valid() witness EffectState([0.0], [0.0], [0.0], [0.0], 0, 0, 0.0)

  function Step(s: Prepared, dryL: real, dryR: real, mixVal: real): (f: Frame<Prepared>)
    ensures mixVal < SkipBelow ==> f == Frame(s, dryL, dryR)
  {
    if mixVal < SkipBelow then Frame(s, dryL, dryR)
    else
      var envelope := Follow(s.envelope, InputLevel(dryL, dryR));
      var gate := Gate(envelope);
      var tap1L := s.lineL1[s.pos1];
      var tap2L := s.lineL2[s.pos2];
      var tap1R := s.lineR1[s.pos1];
      var tap2R := s.lineR2[s.pos2];
      var next: Prepared := EffectState(s.lineL1[s.pos1 := ShortFeed(dryL, tap2R, gate)],
                                        s.lineL2[s.pos2 := LongFeed(tap1L, dryL)],
                                        s.lineR1[s.pos1 := ShortFeed(dryR, tap2L, gate)],
                                        s.lineR2[s.pos2 := LongFeed(tap1R, dryR)],
                                        Wrap(s.pos1, |s.lineL1|), Wrap(s.pos2, |s.lineL2|), envelope);
      Frame(next, Mixed(dryL, Reflections(tap1L, tap2L, gate), mixVal),
            Mixed(dryR, Reflections(tap1R, tap2R, gate), mixVal))
  }

  lemma StepSkipsQuietFrames()
    ensures SkipsQuietFrames(Step)
  {
  }

  /**
   * A processed frame: the envelope follows the input peak and sets the gate;
   * the reflections and the cross-feedback from the other channel's long
   * line are scaled by the gate; only the slots at the two positions change
   * and both positions move on by one.
   */
  lemma StepActive(s: Prepared, dryL: real, dryR: real, mixVal: real)
    requires mixVal >= SkipBelow
    ensures var f := Step(s, dryL, dryR, mixVal);
            var n := f.state;
            var gate := Gate(n.envelope);
            n.envelope == Follow(s.envelope, InputLevel(dryL, dryR)) && 0.0 <= gate <= 1.0 &&
            |n.lineL1| == |s.lineL1| && |n.lineL2| == |s.lineL2| &&
            n.pos1 == Wrap(s.pos1, |s.lineL1|) && n.pos2 == Wrap(s.pos2, |s.lineL2|) &&
            n.lineL1[s.pos1] == ShortFeed(dryL, s.lineR2[s.pos2], gate) &&
            n.lineR1[s.pos1] == ShortFeed(dryR, s.lineL2[s.pos2], gate) &&
            n.lineL2[s.pos2] == LongFeed(s.lineL1[s.pos1], dryL) && n.lineR2[s.pos2] == LongFeed(s.lineR1[s.pos1], dryR) &&
            (forall i :: 0 <= i < |s.lineL1| && i != s.pos1 ==> n.lineL1[i] == s.lineL1[i] && n.lineR1[i] == s.lineR1[i]) &&
            (forall i :: 0 <= i < |s.lineL2| && i != s.pos2 ==> n.lineL2[i] == s.lineL2[i] && n.lineR2[i] == s.lineR2[i]) &&
            f.left == Mixed(dryL, Reflections(s.lineL1[s.pos1], s.lineL2[s.pos2], gate), mixVal) &&
            f.right == Mixed(dryR, Reflections(s.lineR1[s.pos1], s.lineR2[s.pos2], gate), mixVal)
  {
  }

  /** With the gate closed (a silent follower), the reflections add nothing and the lines only hear the dry input. */
  lemma ClosedGateIsDry(s: Prepared, dryL: real, dryR: real, mixVal: real)
    requires mixVal >= SkipBelow && Follow(s.envelope, InputLevel(dryL, dryR)) == 0.0
    ensures var f := Step(s, dryL, dryR, mixVal);
            f.left == dryL && f.right == dryR &&
            f.state.lineL1[s.pos1] == dryL && f.state.lineR1[s.pos1] == dryR
  {
  }

  /** The envelope stays between its starting value and the loudest input level of the run. */
  lemma {:induction false} EnvelopeBounded(s: Prepared, ls: seq<real>, rs: seq<real>, mixes: seq<real>, n: nat, peak: real)
    requires n <= |ls| && n <= |rs| && n <= |mixes|
    requires s.envelope <= peak
    requires forall k :: 0 <= k < n ==> InputLevel(ls[k], rs[k]) <= peak
    ensures 0.0 <= Run(Step, s, ls, rs, mixes, n).state.envelope <= peak
  {
    if n > 0 {
      EnvelopeBounded(s, ls, rs, mixes, n - 1, peak);
      RunLast(Step, s, ls, rs, mixes, n);
      if mixes[n - 1] >= SkipBelow {
        StepActive(Run(Step, s, ls, rs, mixes, n - 1).state, ls[n - 1], rs[n - 1], mixes[n - 1]);
      }
    }
  }

  /**
   * The members the process loop updates (the four lines, both write
   * positions and the envelope) are held together in `state`, one record
   * field assigned once per step.
   */
  class RustDSP {
    const ext: Externals
    var sampleRate: real
    var mix: Smoothed
    var state: EffectState

    predicate Valid()
      reads this
    {
      state.Valid()
    }

    constructor (ext: Externals)
      ensures this.ext == ext && sampleRate == 44100.0 && mix == NewSmoothed
      ensures state == EffectState([], [], [], [], 0, 0, 0.0)
    {
      this.ext := ext;
      sampleRate := 44100.0;
      mix := NewSmoothed;
      state := EffectState([], [], [], [], 0, 0, 0.0);
    }

    method Prepare(sr: real)
      requires 0.0 <= sr
      modifies this
      ensures ShortLength(sr) >= 1 ==> Valid()
      ensures sampleRate == sr && mix == old(mix).Reset()
      ensures state == EffectState(Resize(old(state.lineL1), ShortLength(sr)), Resize(old(state.lineL2), LongLength(sr)),
                                   Resize(old(state.lineR1), ShortLength(sr)), Resize(old(state.lineR2), LongLength(sr)),
                                   0, 0, 0.0)
    {
      sampleRate := sr;
      mix := mix.Reset();
      var delay1, delay2 := ShortLength(sr), LongLength(sr);
      TruncMonotone(0.023 * sr, 0.047 * sr);
      var s := state;
      state := EffectState(Resize(s.lineL1, delay1), Resize(s.lineL2, delay2),
                           Resize(s.lineR1, delay1), Resize(s.lineR2, delay2), 0, 0, 0.0);
    }

    /** What `reset` leaves behind: silent delay lines, a closed envelope and a settled mix. */
    predicate Cleared()
      reads this
    {
      mix.Settled() && Silent(state.lineL1) && Silent(state.lineL2) && Silent(state.lineR1) && Silent(state.lineR2) &&
      state.envelope == 0.0
    }

    method Reset()
      modifies this
      ensures Cleared()
      ensures mix == old(mix).Reset() && sampleRate == old(sampleRate)
      ensures state == old(state).(lineL1 := Zeros(|old(state.lineL1)|), lineL2 := Zeros(|old(state.lineL2)|),
                                   lineR1 := Zeros(|old(state.lineR1)|), lineR2 := Zeros(|old(state.lineR2)|),
                                   envelope := 0.0)
      ensures old(Valid()) ==> Valid()
    {
      mix := mix.Reset();
      var s := state;
      state := s.(lineL1 := Zeros(|s.lineL1|), lineL2 := Zeros(|s.lineL2|),
                  lineR1 := Zeros(|s.lineR1|), lineR2 := Zeros(|s.lineR2|), envelope := 0.0);
    }

    method SetMix(newMix: real)
      modifies this
      ensures mix == old(mix).SetTarget(newMix, ext)
      ensures state == old(state) && sampleRate == old(sampleRate)
    {
      mix := mix.SetTarget(newMix, ext);
    }

    /** The body of the process loop for a frame that is not skipped. */
    method ProcessFrame(dryL: real, dryR: real, mixVal: real) returns (outL: real, outR: real)
      requires Valid() && mixVal >= SkipBelow
      modifies this
      ensures Valid()
      ensures var f := Step(old(state), dryL, dryR, mixVal);
              f.state == state && f.left == outL && f.right == outR
      ensures mix == old(mix) && sampleRate == old(sampleRate)
    {
      var s := state;
      var inputLevel := InputLevel(dryL, dryR);
      var envelope := s.envelope;
      var coef := if inputLevel > envelope then Attack else Release;
      envelope := envelope + coef * (inputLevel - envelope);
      assert envelope == Follow(s.envelope, inputLevel);
      var gate := if envelope > GateThreshold then 1.0 else envelope / GateThreshold;
      var tap1L, tap2L := s.lineL1[s.pos1], s.lineL2[s.pos2];
      var tap1R, tap2R := s.lineR1[s.pos1], s.lineR2[s.pos2];
      var wetL := Reflections(tap1L, tap2L, gate);
      var wetR := Reflections(tap1R, tap2R, gate);
      WrapIsMod(s.pos1, |s.lineL1|);
      WrapIsMod(s.pos2, |s.lineL2|);
      state := EffectState(s.lineL1[s.pos1 := ShortFeed(dryL, tap2R, gate)], s.lineL2[s.pos2 := LongFeed(tap1L, dryL)],
                           s.lineR1[s.pos1 := ShortFeed(dryR, tap2L, gate)], s.lineR2[s.pos2 := LongFeed(tap1R, dryR)],
                           (s.pos1 + 1) % |s.lineL1|, (s.pos2 + 1) % |s.lineL2|, envelope);
      outL := Mixed(dryL, wetL, mixVal);
      outR := Mixed(dryR, wetR, mixVal);
    }

    /**
     * One iteration of the process loop: draw the mix, then skip or process
     * frame `i`. The block processed so far grows by that frame.
     */
    method Tick(left: array<real>, right: array<real>, i: nat, ghost s0: Prepared,
                ghost ls: seq<real>, ghost rs: seq<real>, ghost mixes: seq<real>, ghost acc: Block<Prepared>)
      returns (ghost next: Block<Prepared>)
      requires Valid() && left != right && i < left.Length && i < right.Length
      requires i < |ls| && i < |rs| && i < |mixes| && left[i] == ls[i] && right[i] == rs[i] && mixes[i] == mix.Next().0
      requires acc == Run(Step, s0, ls, rs, mixes, i) && acc.state == state
      requires forall k :: 0 <= k < i ==> left[k] == acc.left[k] && right[k] == acc.right[k]
      modifies this, left, right
      ensures Valid()
      ensures next == Run(Step, s0, ls, rs, mixes, i + 1) && next.state == state
      ensures forall k :: 0 <= k < i + 1 ==> left[k] == next.left[k] && right[k] == next.right[k]
      ensures forall k :: i + 1 <= k < left.Length ==> left[k] == old(left[k])
      ensures forall k :: i + 1 <= k < right.Length ==> right[k] == old(right[k])
      ensures mix == old(mix).Next().1 && sampleRate == old(sampleRate)
    {
      ghost var f := Step(state, ls[i], rs[i], mixes[i]);
      var drawn := mix.Next();
      var mixVal := drawn.0;
      mix := drawn.1;
      if mixVal >= SkipBelow {
        var outL, outR := ProcessFrame(left[i], right[i], mixVal);
        left[i] := outL;
        right[i] := outR;
      }
      RunSnoc(Step, s0, ls, rs, mixes, i, acc, f);
      next := Block(state, acc.left + [left[i]], acc.right + [right[i]]);
    }

    method Process(left: array<real>, right: array<real>, numSamples: nat)
      requires Valid() && left != right
      requires numSamples <= left.Length && numSamples <= right.Length
      modifies this, left, right
      ensures Valid()
      ensures var b := Run(Step, old(state), old(left[..numSamples]), old(right[..numSamples]),
                          old(mix).Values(numSamples), numSamples);
              state == b.state && left[..numSamples] == b.left && right[..numSamples] == b.right
      ensures forall k :: numSamples <= k < left.Length ==> left[k] == old(left[k])
      ensures forall k :: numSamples <= k < right.Length ==> right[k] == old(right[k])
      ensures mix == old(mix).Advance(numSamples) && sampleRate == old(sampleRate)
    {
      ghost var s0: Prepared := state;
      ghost var mix0 := mix;
      ghost var ls, rs := left[..numSamples], right[..numSamples];
      ghost var mixes := mix.Values(numSamples);
      ghost var acc: Block<Prepared> := Block(s0, [], []);
      var i := 0;
      while i < numSamples
        invariant 0 <= i <= numSamples
        invariant Valid()
        invariant mix == mix0.Advance(i) && sampleRate == old(sampleRate)
        invariant acc == Run(Step, s0, ls, rs, mixes, i) && acc.state == state
        invariant forall k :: 0 <= k < i ==> left[k] == acc.left[k] && right[k] == acc.right[k]
        invariant forall k :: i <= k < left.Length ==> left[k] == old(left[k])
        invariant forall k :: i <= k < right.Length ==> right[k] == old(right[k])
      {
        ValuesAt(mix0, numSamples, i);
        acc := Tick(left, right, i, s0, ls, rs, mixes, acc);
        i := i + 1;
      }
      assert left[..numSamples] == acc.left;
      assert right[..numSamples] == acc.right;
    }
  }
}
