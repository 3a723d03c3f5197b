/**
 * What every effect in EffectsDSP shares: the smoothed mix, the rule that a
 * frame whose mix is below 0.001 is skipped, the per-frame fold a `process`
 * loop performs, and the `std::vector` operations used by prepare/reset.
 */
module EffectBase {
  import opened Common

  /** A frame whose smoothed mix value is below this is left untouched. */
  const SkipBelow: real := 0.001

  /** One frame's result: the effect's new state and the two output samples. */
  datatype Frame<S> = Frame(state: S, left: real, right: real)

  /** A block's result: the state after it and the processed left/right samples. */
  datatype Block<S> = Block(state: S, left: seq<real>, right: seq<real>)

  /** The first `n` frames of a `process` loop, frame by frame from the front. */
  function Run<S>(step: (S, real, real, real) -> Frame<S>, s: S,
                  ls: seq<real>, rs: seq<real>, mixes: seq<real>, n: nat): (r: Block<S>)
    requires n <= |ls| && n <= |rs| && n <= |mixes|
    ensures |r.left| == n && |r.right| == n
    decreases n
  {
    if n == 0 then Block(s, [], [])
    else
      var p := Run(step, s, ls, rs, mixes, n - 1);
      var f := step(p.state, ls[n - 1], rs[n - 1], mixes[n - 1]);
      Block(f.state, p.left + [f.left], p.right + [f.right])
  }

  /** The last frame of a run of `n` frames is one step from the run of `n - 1`. */
  lemma RunLast<S>(step: (S, real, real, real) -> Frame<S>, s: S,
                   ls: seq<real>, rs: seq<real>, mixes: seq<real>, n: nat)
    requires 1 <= n <= |ls| && n <= |rs| && n <= |mixes|
    ensures Run(step, s, ls, rs, mixes, n).state
         == step(Run(step, s, ls, rs, mixes, n - 1).state, ls[n - 1], rs[n - 1], mixes[n - 1]).state
  {
  }

  /** Extending a run by one frame appends that frame's two output samples. */
  lemma RunSnoc<S>(step: (S, real, real, real) -> Frame<S>, s: S,
                   ls: seq<real>, rs: seq<real>, mixes: seq<real>, n: nat, p: Block<S>, f: Frame<S>)
    requires n < |ls| && n < |rs| && n < |mixes|
    requires p == Run(step, s, ls, rs, mixes, n) && f == step(p.state, ls[n], rs[n], mixes[n])
    ensures Run(step, s, ls, rs, mixes, n + 1) == Block(f.state, p.left + [f.left], p.right + [f.right])
  {
  }

  /** The skip rule: a quiet frame passes both samples through and keeps the state. */
  ghost predicate SkipsQuietFrames<S(!new)>(step: (S, real, real, real) -> Frame<S>) {
    forall s, l, r, m {:trigger step(s, l, r, m)} :: m < SkipBelow ==> step(s, l, r, m) == Frame(s, l, r)
  }

  /** A block whose every mix value is below the threshold changes nothing at all. */
  lemma {:induction false} QuietBlockIsIdentity<S(!new)>(step: (S, real, real, real) -> Frame<S>, s: S,
                                                  ls: seq<real>, rs: seq<real>, mixes: seq<real>, n: nat)
    requires SkipsQuietFrames(step)
    requires n <= |ls| && n <= |rs| && n <= |mixes|
    requires forall i :: 0 <= i < n ==> mixes[i] < SkipBelow
    ensures Run(step, s, ls, rs, mixes, n) == Block(s, ls[..n], rs[..n])
    decreases n
  {
    if n > 0 {
      QuietBlockIsIdentity(step, s, ls, rs, mixes, n - 1);
      assert step(s, ls[n - 1], rs[n - 1], mixes[n - 1]) == Frame(s, ls[n - 1], rs[n - 1]);
      assert ls[..n] == ls[..n - 1] + [ls[n - 1]];
      assert rs[..n] == rs[..n - 1] + [rs[n - 1]];
    }
  }

  /** The slot after `pos` on a line of `size` slots, going back to 0 at the end. */
  function Wrap(pos: int, size: int): (r: int)
    requires 0 <= pos < size
    ensures 0 <= r < size
  {
    if pos + 1 == size then 0 else pos + 1
  }

  /** `Wrap` is the source's `(pos + 1) % size`. */
  lemma WrapIsMod(pos: int, size: int)
    requires 0 <= pos < size
    ensures Wrap(pos, size) == (pos + 1) % size
  {
    ModSucc(pos, size);
    ModUnique(pos, size, 0, pos);
  }

  /** The write position after `k` processed frames, starting from `p`. */
  function RingPos(p: int, k: nat, size: int): (r: int)
    requires 0 <= p < size
    ensures 0 <= r < size
    decreases k
  {
    if k == 0 then p else Wrap(RingPos(p, k - 1, size), size)
  }

  /** Stepping `k` times round the ring is adding `k` modulo the line length. */
  lemma {:induction false} RingPosClosedForm(p: int, k: nat, size: int)
    requires 0 <= p < size
    ensures RingPos(p, k, size) == (p + k) % size
    decreases k
  {
    if k > 0 {
      RingPosClosedForm(p, k - 1, size);
      ModSucc(p + k - 1, size);
    }
  }

  /** A full turn of the ring comes back to the same slot. */
  lemma RingPosPeriod(p: int, k: nat, size: int)
    requires 0 <= p < size
    ensures RingPos(p, k + size, size) == RingPos(p, k, size)
  {
    RingPosClosedForm(p, k, size);
    RingPosClosedForm(p, k + size, size);
    ModPeriod(p + k, size);
  }

  /** Less than a full turn never revisits a slot. */
  lemma RingPosDistinct(p: int, k: nat, d: nat, size: int)
    requires 0 <= p < size && 0 < d < size
    ensures RingPos(p, k + d, size) != RingPos(p, k, size)
  {
    RingPosClosedForm(p, k, size);
    RingPosClosedForm(p, k + d, size);
    ModDistinct(p + k, d, size);
  }

  /** `std::vector<float>::resize(n, 0.0f)`: keeps the prefix, pads with zeros. */
  function Resize(v: seq<real>, n: nat): (r: seq<real>)
    ensures |r| == n
    ensures forall i :: 0 <= i < n && i < |v| ==> r[i] == v[i]
    ensures forall i :: |v| <= i < n ==> r[i] == 0.0
  {
    if n <= |v| then v[..n] else v + seq(n - |v|, _ => 0.0)
  }

  /** Every sample of the line is zero. */
  predicate Silent(line: seq<real>) {
    forall i :: 0 <= i < |line| ==> line[i] == 0.0
  }

  /** `std::fill(v.begin(), v.end(), 0.0f)`. */
  function Zeros(n: nat): (r: seq<real>)
    ensures |r| == n
    ensures Silent(r)
  {
    seq(n, _ => 0.0)
  }

  /** `std::max(-1, std::min(1, x))`: the digital hard clip used by the distortion effects. */
  function HardClip(x: real): (r: real)
    ensures -1.0 <= r <= 1.0
    ensures -1.0 <= x <= 1.0 ==> r == x
    ensures x > 1.0 ==> r == 1.0
    ensures x < -1.0 ==> r == -1.0
  {
    Clamp(x, -1.0, 1.0)
  }

  /** The wet signal added on top of the dry one, `dry + wet * mix`: the output of Cascade, Haze, Rust and Grind. */
  function Mixed(dry: real, wet: real, mixVal: real): real {
    dry + wet * mixVal
  }

  /** The dry/wet crossfade `dry + (wet - dry) * mix`. */
  function Blend(dry: real, wet: real, mixVal: real): real {
    dry + (wet - dry) * mixVal
  }

  /** For a mix in `[0, 1]` the crossfade lies between the dry and the wet sample, and is each of them at the ends. */
  lemma BlendBetween(dry: real, wet: real, mixVal: real)
    requires 0.0 <= mixVal <= 1.0
    ensures Min(dry, wet) <= Blend(dry, wet, mixVal) <= Max(dry, wet)
    ensures mixVal == 0.0 ==> Blend(dry, wet, mixVal) == dry
    ensures mixVal == 1.0 ==> Blend(dry, wet, mixVal) == wet
  {
    if dry <= wet {
      var d := wet - dry;
      MulMonotone(0.0, mixVal, d);
      MulMonotone(mixVal, 1.0, d);
      assert Blend(dry, wet, mixVal) == dry + mixVal * d;
      assert 0.0 <= mixVal * d <= d;
    } else {
      var e := dry - wet;
      MulMonotone(0.0, mixVal, e);
      MulMonotone(mixVal, 1.0, e);
      assert Blend(dry, wet, mixVal) == dry - mixVal * e;
      assert 0.0 <= mixVal * e <= e;
    }
  }

  lemma MulBounds(d: real, m: real)
    requires d >= 0.0 && 0.0 <= m <= 1.0
    ensures 0.0 <= d * m <= d
  {
  }
}
