/**
 * The level displays the skin modules share: the eight-segment LED bar
 * (SchafferModule.tsx and RE201Module.tsx declare the same table), the
 * bypass-aware level every skin derives from the host's peak, and the
 * percentage fill of a bar meter.
 */
module Meters {
  import opened Common

  /** Segment thresholds, top segment first. */
  const LedThresholds: seq<real> := [0.95, 0.85, 0.7, 0.55, 0.4, 0.25, 0.1, 0.0]

  predicate Descending(ts: seq<real>) {
    forall i, j :: 0 <= i < j < |ts| ==> ts[i] > ts[j]
  }

  /** The table has eight thresholds, strictly falling from 0.95 to 0. */
  lemma ThresholdTable()
    ensures |LedThresholds| == 8 && LedThresholds[0] == 0.95 && LedThresholds[7] == 0.0
    ensures Descending(LedThresholds)
  {
  }

  /** Which segments are on: segment `k` lights once the level reaches its threshold. */
  function Segments(value: real): (lit: seq<bool>)
    ensures |lit| == |LedThresholds|
    ensures forall k :: 0 <= k < |lit| ==> (lit[k] <==> value >= LedThresholds[k])
  {
    seq(|LedThresholds|, k requires 0 <= k < |LedThresholds| => value >= LedThresholds[k])
  }

  /** How many thresholds of `ts` the level reaches. */
  function Count(ts: seq<real>, value: real): (n: nat)
    ensures n <= |ts|
    decreases |ts|
  {
    if ts == [] then 0 else (if value >= ts[0] then 1 else 0) + Count(ts[1..], value)
  }

  lemma DescendingTail(ts: seq<real>)
    requires ts != [] && Descending(ts)
    ensures Descending(ts[1..])
  {
    forall i, j | 0 <= i < j < |ts[1..]| ensures ts[1..][i] > ts[1..][j] {
      assert ts[1..][i] == ts[i + 1] && ts[1..][j] == ts[j + 1];
    }
  }

  /** Reaching the top threshold means reaching all of them. */
  lemma {:induction false} CountAll(ts: seq<real>, value: real)
    requires ts != [] && Descending(ts) && value >= ts[0]
    ensures Count(ts, value) == |ts|
    decreases |ts|
  {
    if |ts| > 1 {
      DescendingTail(ts);
      assert ts[1..][0] == ts[1];
      CountAll(ts[1..], value);
    }
  }

  /** The lit thresholds of a falling table are exactly its last `Count` entries. */
  lemma {:induction false} CountIsSuffix(ts: seq<real>, value: real, k: int)
    requires Descending(ts) && 0 <= k < |ts|
    ensures value >= ts[k] <==> k >= |ts| - Count(ts, value)
    decreases |ts|
  {
    if value >= ts[0] {
      CountAll(ts, value);
      assert ts[k] <= ts[0];
    } else if k > 0 {
      DescendingTail(ts);
      assert ts[1..][k - 1] == ts[k];
      CountIsSuffix(ts[1..], value, k - 1);
    } else {
      assert Count(ts, value) == Count(ts[1..], value);
    }
  }

  lemma {:induction false} CountMonotone(ts: seq<real>, v1: real, v2: real)
    requires v1 <= v2
    ensures Count(ts, v1) <= Count(ts, v2)
    decreases |ts|
  {
    if ts != [] {
      CountMonotone(ts[1..], v1, v2);
    }
  }

  /** The number of segments on. */
  function LitCount(value: real): (n: nat)
    ensures n <= 8
  {
    Count(LedThresholds, value)
  }

  /** The segments on form a run at the bottom of the bar: if one is on, every one below it is. */
  lemma LitSegmentsFormSuffix(value: real, k: int)
    requires 0 <= k < 8
    ensures Segments(value)[k] <==> k >= 8 - LitCount(value)
  {
    ThresholdTable();
    CountIsSuffix(LedThresholds, value, k);
  }

  /** A higher level never lights fewer segments. */
  lemma LitCountMonotone(v1: real, v2: real)
    requires v1 <= v2
    ensures LitCount(v1) <= LitCount(v2)
  {
    CountMonotone(LedThresholds, v1, v2);
  }

  /** The bottom segment's threshold is 0, so it is on for any level that is not negative, silence included. */
  lemma BottomSegmentAlwaysLit(value: real)
    requires value >= 0.0
    ensures Segments(value)[7] && LitCount(value) >= 1
  {
    LitSegmentsFormSuffix(value, 7);
  }

  /** What a skin shows for a host peak: nothing when bypassed, otherwise the peak capped at full scale. */
  function ShownLevel(bypassed: bool, raw: real): (r: real)
    ensures bypassed ==> r == 0.0
    ensures !bypassed ==> r <= 1.0 && (r == raw || r == 1.0) && (raw <= 1.0 ==> r == raw)
  {
    if bypassed then 0.0 else Min(1.0, raw)
  }

  /** A bypassed LED bar still shows its bottom segment, and only that one. */
  lemma BypassedBarShowsOneSegment(raw: real)
    ensures LitCount(ShownLevel(true, raw)) == 1
  {
    LitSegmentsFormSuffix(0.0, 7);
    LitSegmentsFormSuffix(0.0, 6);
  }

  /** While not bypassed, a louder signal never lights fewer segments. */
  lemma ShownLevelMonotone(raw1: real, raw2: real)
    requires raw1 <= raw2
    ensures ShownLevel(false, raw1) <= ShownLevel(false, raw2)
    ensures LitCount(ShownLevel(false, raw1)) <= LitCount(ShownLevel(false, raw2))
  {
    LitCountMonotone(ShownLevel(false, raw1), ShownLevel(false, raw2));
  }

  /** A bar meter's fill, in percent: `Math.min(100, level * 100)`. */
  function BarPercent(level: real): (r: real)
    ensures r <= 100.0
    ensures 0.0 <= level <= 1.0 ==> r == level * 100.0
    ensures level >= 1.0 ==> r == 100.0
  {
    Min(100.0, level * 100.0)
  }

  /** Every level a skin shows fills a bar between empty and full. */
  lemma ShownLevelFillsBar(bypassed: bool, raw: real)
    requires raw >= 0.0
    ensures 0.0 <= BarPercent(ShownLevel(bypassed, raw)) <= 100.0
    ensures bypassed ==> BarPercent(ShownLevel(bypassed, raw)) == 0.0
  {
  }
}
