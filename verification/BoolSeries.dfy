/** Aggregated on/off buckets as a step line (packages/shared/src/bool-series.ts). */
module BoolSeries {
  import opened Wrappers

  datatype Level = Off | On

  /** The last instant a mixed bucket is still held before its line breaks. */
  const GAP := 0.001

  ghost predicate Ascending(s: seq<real>) {
    forall i, j | 0 <= i < j < |s| :: s[i] < s[j]
  }

  predicate Pure(value: real) {
    value <= 0.0 || value >= 1.0
  }

  function LevelOf(value: real): Level {
    if value > 0.0 then On else Off
  }

  /** Bucket i is the latest one begun at instant q. */
  ghost predicate Latest(times: seq<real>, i: nat, q: real) {
    i < |times| && times[i] <= q && (i + 1 < |times| ==> q < times[i + 1])
  }

  /** What is known at q: a pure bucket's state lasts until the next bucket; a
      mixed one counts as On for its own width, and says nothing after it. */
  ghost function StateAt(times: seq<real>, values: seq<real>, bucketSec: real, i: nat, q: real): Option<Level>
    requires i < |times| == |values|
  {
    if Pure(values[i]) || q < times[i] + bucketSec then Some(LevelOf(values[i])) else None
  }

  /** The line drawn through (xs, ys) stands at ys[k] at instant q. */
  ghost predicate Covers(xs: seq<real>, k: nat, q: real) {
    k < |xs| && xs[k] <= q && if k + 1 < |xs| then q < xs[k + 1] else q == xs[k]
  }

  ghost predicate Shows(y: Option<Level>, times: seq<real>, values: seq<real>, bucketSec: real, q: real)
    requires |times| == |values|
  {
    forall i: nat :: Latest(times, i, q) ==> y == StateAt(times, values, bucketSec, i, q)
  }

  /** At every instant from the first bucket on there is exactly one latest bucket. */
  lemma LatestExists(times: seq<real>, q: real) returns (i: nat)
    requires Ascending(times) && |times| > 0 && times[0] <= q
    ensures forall j: nat :: Latest(times, j, q) <==> j == i
  {
    i := 0;
    while i + 1 < |times| && times[i + 1] <= q
      invariant i < |times| && times[i] <= q
    {
      i := i + 1;
    }
  }

  ghost predicate ShowsDuring(y: Option<Level>, times: seq<real>, values: seq<real>, bucketSec: real, from: real, until: real)
    requires |times| == |values|
  {
    forall q :: from <= q < until ==> Shows(y, times, values, bucketSec, q)
  }

  /** The line so far is right on every stretch, and its last level stays right up
      to the instant `until`. */
  ghost predicate LineTo(times: seq<real>, values: seq<real>, bucketSec: real, xs: seq<real>, ys: seq<Option<Level>>, until: real) {
    && |times| == |values| && |xs| == |ys| && Ascending(xs)
    && (forall k, q | 0 <= k < |xs| - 1 && Covers(xs, k, q) :: Shows(ys[k], times, values, bucketSec, q))
    && (xs != [] ==> xs[|xs| - 1] < until)
    && (xs != [] ==> ShowsDuring(ys[|xs| - 1], times, values, bucketSec, xs[|xs| - 1], until))
  }

  lemma AddPoint(times: seq<real>, values: seq<real>, bucketSec: real, xs: seq<real>, ys: seq<Option<Level>>,
                 x: real, y: Option<Level>, until: real)
    requires LineTo(times, values, bucketSec, xs, ys, x) && x < until
    requires ShowsDuring(y, times, values, bucketSec, x, until)
    ensures LineTo(times, values, bucketSec, xs + [x], ys + [y], until)
  {
    var xs', ys' := xs + [x], ys + [y];
    forall k, q | 0 <= k < |xs'| - 1 && Covers(xs', k, q) ensures Shows(ys'[k], times, values, bucketSec, q) {
      if k < |xs| - 1 {
        assert Covers(xs, k, q);
      }
    }
  }

  /** Where the stretch that bucket n - 1 decides ends. */
  function Bound(times: seq<real>, bucketSec: real, n: nat): real
    requires 0 < n <= |times|
  {
    if n < |times| then times[n] else times[n - 1] + bucketSec
  }

  /** The line's last instant: a mixed last bucket is held for its width. */
  function DrawnUntil(times: seq<real>, values: seq<real>, bucketSec: real): real
    requires |times| == |values| > 0
  {
    var last := times[|times| - 1];
    if Pure(values[|values| - 1]) then last else last + bucketSec - GAP
  }

  lemma BucketShows(times: seq<real>, values: seq<real>, bucketSec: real, i: nat, y: Option<Level>, q: real)
    requires |times| == |values| && Ascending(times) && Latest(times, i, q)
    requires y == StateAt(times, values, bucketSec, i, q)
    ensures Shows(y, times, values, bucketSec, q)
  {
    forall j: nat | Latest(times, j, q) ensures i == j {
    }
  }

  method BoolBuckets(times: seq<real>, values: seq<real>, bucketSec: real) returns (xs: seq<real>, ys: seq<Option<Level>>)
    requires |times| == |values| && Ascending(times) && bucketSec > GAP
    ensures |xs| == |ys| && Ascending(xs)
    ensures xs == [] <==> times == []
    ensures times != [] ==> xs[0] == times[0] && xs[|xs| - 1] == DrawnUntil(times, values, bucketSec)
    ensures forall k: nat, q :: Covers(xs, k, q) ==> Shows(ys[k], times, values, bucketSec, q)
  {
    xs, ys := [], [];
    for i := 0 to |times|
      invariant LineTo(times, values, bucketSec, xs, ys, if i == 0 then 0.0 else Bound(times, bucketSec, i))
      invariant i == 0 <==> xs == []
      invariant i > 0 ==> xs[0] == times[0]
      invariant 0 < i == |times| ==> xs[|xs| - 1] == DrawnUntil(times, values, bucketSec)
    {
      xs, ys := DrawBucket(times, values, bucketSec, xs, ys, i);
    }
    forall k: nat, q | Covers(xs, k, q) ensures Shows(ys[k], times, values, bucketSec, q) {
    }
  }

  /** One turn of the source's loop. */
  method DrawBucket(times: seq<real>, values: seq<real>, bucketSec: real, before: seq<real>, levels: seq<Option<Level>>, i: nat)
      returns (xs: seq<real>, ys: seq<Option<Level>>)
    requires Ascending(times) && bucketSec > GAP && i < |times| == |values|
    requires LineTo(times, values, bucketSec, before, levels, if i == 0 then 0.0 else times[i])
    requires i == 0 ==> before == []
    ensures LineTo(times, values, bucketSec, xs, ys, Bound(times, bucketSec, i + 1))
    ensures |xs| > |before| && xs[..|before|] == before && xs[|before|] == times[i]
    ensures i + 1 == |times| ==> xs[|xs| - 1] == DrawnUntil(times, values, bucketSec)
  {
    var t, value := times[i], values[i];
    var pure := Pure(value);
    var v := LevelOf(value);
    xs, ys := before + [t], levels + [Some(v)];
    ghost var bound := Bound(times, bucketSec, i + 1);
    forall q | t <= q < bound && (pure || q < t + bucketSec) ensures Shows(Some(v), times, values, bucketSec, q) {
      BucketShows(times, values, bucketSec, i, Some(v), q);
    }
    if pure {
      AddPoint(times, values, bucketSec, before, levels, t, Some(v), bound);
      return;
    }
    var end := t + bucketSec;
    var hasNext := i + 1 < |times|;
    if hasNext && times[i + 1] <= end {
      AddPoint(times, values, bucketSec, before, levels, t, Some(v), bound);
      return;
    }
    xs, ys := DrawMixed(times, values, bucketSec, before, levels, i);
  }

  /** A mixed bucket held to its end, and the break after it. */
  method DrawMixed(times: seq<real>, values: seq<real>, bucketSec: real, before: seq<real>, levels: seq<Option<Level>>, i: nat)
      returns (xs: seq<real>, ys: seq<Option<Level>>)
    requires Ascending(times) && bucketSec > GAP && i < |times| == |values|
    requires LineTo(times, values, bucketSec, before, levels, if i == 0 then 0.0 else times[i])
    requires i == 0 ==> before == []
    requires !Pure(values[i]) && !(i + 1 < |times| && times[i + 1] <= times[i] + bucketSec)
    ensures LineTo(times, values, bucketSec, xs, ys, Bound(times, bucketSec, i + 1))
    ensures |xs| > |before| && xs[..|before|] == before && xs[|before|] == times[i]
    ensures i + 1 == |times| ==> xs[|xs| - 1] == DrawnUntil(times, values, bucketSec)
  {
    hide LineTo, Ascending, LevelOf;
    var t, v := times[i], LevelOf(values[i]);
    var end := t + bucketSec;
    MixedHeld(times, values, bucketSec, before, levels, i);
    xs, ys := before + [t, end - GAP], levels + [Some(v), Some(v)];
    if i + 1 < |times| {
      MixedBroken(times, values, bucketSec, xs, ys, i);
      xs, ys := xs + [end], ys + [None];
    }
    assert xs[..|before|] == before;
    assert xs[|before|] == t;
  }

  /** Its level is held for its width. */
  lemma MixedHeld(times: seq<real>, values: seq<real>, bucketSec: real, before: seq<real>, levels: seq<Option<Level>>, i: nat)
    requires Ascending(times) && bucketSec > GAP && i < |times| == |values|
    requires LineTo(times, values, bucketSec, before, levels, if i == 0 then 0.0 else times[i])
    requires i == 0 ==> before == []
    requires i + 1 < |times| ==> times[i] + bucketSec < times[i + 1]
    ensures var t, v := times[i], Some(LevelOf(values[i]));
      LineTo(times, values, bucketSec, before + [t, t + bucketSec - GAP], levels + [v, v], t + bucketSec)
  {
    var t, v := times[i], Some(LevelOf(values[i]));
    var end := t + bucketSec;
    forall q | t <= q < end ensures Shows(v, times, values, bucketSec, q) {
      BucketShows(times, values, bucketSec, i, v, q);
    }
    hide Shows, LevelOf;
    AddPoint(times, values, bucketSec, before, levels, t, v, end - GAP);
    hide LineTo;
    AddPoint(times, values, bucketSec, before + [t], levels + [v], end - GAP, v, end);
    assert before + [t] + [end - GAP] == before + [t, end - GAP] && levels + [v] + [v] == levels + [v, v];
  }

  /** After it the line says nothing until the next bucket. */
  lemma MixedBroken(times: seq<real>, values: seq<real>, bucketSec: real, xs: seq<real>, ys: seq<Option<Level>>, i: nat)
    requires Ascending(times) && bucketSec > GAP && i + 1 < |times| == |values| && !Pure(values[i])
    requires times[i] + bucketSec < times[i + 1] && LineTo(times, values, bucketSec, xs, ys, times[i] + bucketSec)
    ensures LineTo(times, values, bucketSec, xs + [times[i] + bucketSec], ys + [None], times[i + 1])
  {
    hide LineTo;
    var end := times[i] + bucketSec;
    forall q | end <= q < times[i + 1] ensures Shows(None, times, values, bucketSec, q) {
      BucketShows(times, values, bucketSec, i, None, q);
    }
    hide Shows;
    AddPoint(times, values, bucketSec, xs, ys, end, None, times[i + 1]);
  }
}
