/** Min/max decimation of a dense chart line (packages/shared/src/chart-decimate.ts). */
module ChartDecimate {
  ghost predicate Ascending(xs: seq<real>) {
    forall i, j | 0 <= i < j < |xs| :: xs[i] < xs[j]
  }

  /** The right end of time slice `b`. */
  function SliceEnd(x0: real, span: real, b: int, buckets: int): real
    requires buckets > 0
  {
    x0 + (span * (b + 1) as real) / (buckets as real)
  }

  /** The slice a reading at x falls in: the first that ends at or after it, the
      last one taking the rest. */
  function SliceFrom(x: real, x0: real, span: real, b: nat, buckets: nat): (s: nat)
    requires b < buckets
    ensures b <= s < buckets
    decreases buckets - b
  {
    if b == buckets - 1 || x <= SliceEnd(x0, span, b, buckets) then b
    else SliceFrom(x, x0, span, b + 1, buckets)
  }

  function SpanOf(xs: seq<real>): real
    requires |xs| > 0
  {
    var d := xs[|xs| - 1] - xs[0];
    if d == 0.0 then 1.0 else d
  }

  function SliceOf(xs: seq<real>, buckets: nat, i: nat): (s: nat)
    requires i < |xs| && buckets > 0
  {
    SliceFrom(xs[i], xs[0], SpanOf(xs), 0, buckets)
  }

  /** A reading beyond the ends of all slices before b is in b or later, and in b
      exactly when it doesn't pass b's end. */
  lemma {:induction false} SliceAtLeast(x: real, x0: real, span: real, from: nat, b: nat, buckets: nat)
    requires from <= b < buckets
    requires forall c | from <= c < b :: x > SliceEnd(x0, span, c, buckets)
    ensures SliceFrom(x, x0, span, from, buckets) == SliceFrom(x, x0, span, b, buckets)
    decreases b - from
  {
    if from < b {
      assert x > SliceEnd(x0, span, from, buckets);
      SliceAtLeast(x, x0, span, from + 1, b, buckets);
    }
  }

  /** What is kept: indices in order, first and last included. */
  ghost predicate Picks(kept: seq<nat>, n: nat) {
    && (forall k | 0 <= k < |kept| :: kept[k] < n)
    && (forall k, l | 0 <= k < l < |kept| :: kept[k] < kept[l])
  }

  ghost predicate PickedFrom(out: seq<real>, all: seq<real>, kept: seq<nat>) {
    && |out| == |kept|
    && forall k | 0 <= k < |kept| :: kept[k] < |all| && out[k] == all[kept[k]]
  }

  /** Reading j has a kept one at or below it, and one at or above it, in its slice. */
  ghost predicate Survives(xs: seq<real>, ys: seq<real>, buckets: nat, kept: seq<nat>, j: nat)
    requires |xs| == |ys| && j < |xs| && buckets > 0
  {
    && (exists a :: a in kept && a < |xs| && SliceOf(xs, buckets, a) == SliceOf(xs, buckets, j) && ys[a] <= ys[j])
    && (exists a :: a in kept && a < |xs| && SliceOf(xs, buckets, a) == SliceOf(xs, buckets, j) && ys[a] >= ys[j])
  }

  predicate Sparse(n: nat, buckets: int) {
    buckets < 1 || n <= buckets * 2
  }

  /** `push`: never the same x twice running. */
  method PushPoint(xs: seq<real>, ys: seq<real>, outX: seq<real>, outY: seq<real>, ghost kept: seq<nat>, i: nat)
      returns (nextX: seq<real>, nextY: seq<real>, ghost nextKept: seq<nat>)
    requires |xs| == |ys| && i < |xs| && Ascending(xs)
    requires Picks(kept, |xs|) && PickedFrom(outX, xs, kept) && PickedFrom(outY, ys, kept)
    requires kept != [] ==> kept[|kept| - 1] <= i
    ensures Picks(nextKept, |xs|) && PickedFrom(nextX, xs, nextKept) && PickedFrom(nextY, ys, nextKept)
    ensures nextKept == if kept != [] && kept[|kept| - 1] == i then kept else kept + [i]
  {
    if |outX| > 0 && outX[|outX| - 1] == xs[i] {
      return outX, outY, kept;
    }
    nextX, nextY, nextKept := outX + [xs[i]], outY + [ys[i]], kept + [i];
  }

  /** The output so far, with every interior reading before i accounted for. */
  ghost predicate Progress(xs: seq<real>, ys: seq<real>, buckets: nat, outX: seq<real>, outY: seq<real>, kept: seq<nat>, i: nat, most: nat) {
    && |xs| == |ys| && i < |xs| && buckets > 0
    && Picks(kept, |xs|) && PickedFrom(outX, xs, kept) && PickedFrom(outY, ys, kept)
    && 1 <= |kept| <= most && kept[0] == 0 && kept[|kept| - 1] < i
    && forall j | 0 < j < i :: Survives(xs, ys, buckets, kept, j)
  }

  method DecimateMinMax(xs: seq<real>, ys: seq<real>, buckets: int)
      returns (outX: seq<real>, outY: seq<real>, ghost kept: seq<nat>)
    requires |xs| == |ys| && Ascending(xs)
    ensures Picks(kept, |xs|) && PickedFrom(outX, xs, kept) && PickedFrom(outY, ys, kept)
    ensures |xs| > 0 ==> kept != [] && kept[0] == 0 && kept[|kept| - 1] == |xs| - 1
    ensures Sparse(|xs|, buckets) ==> outX == xs && outY == ys
    ensures !Sparse(|xs|, buckets) ==> |outX| <= 2 * buckets + 2
    ensures !Sparse(|xs|, buckets) ==> forall j | 0 < j < |xs| - 1 :: Survives(xs, ys, buckets, kept, j)
  {
    hide Survives;
    var n := |xs|;
    if buckets < 1 || n <= buckets * 2 {
      return xs, ys, seq(n, i => i);
    }
    outX, outY, kept := PushPoint(xs, ys, [], [], [], 0);
    var x0 := xs[0];
    var span := SpanOf(xs);
    var i := 1;
    var b := 0;
    while b < buckets && i < n - 1
      invariant 0 <= b <= buckets && 1 <= i <= n - 1
      invariant b == buckets ==> i == n - 1
      invariant Progress(xs, ys, buckets, outX, outY, kept, i, 1 + 2 * b)
      invariant forall c, j | 0 <= c < b && i <= j < n - 1 :: xs[j] > SliceEnd(x0, span, c, buckets)
    {
      var end := SliceEnd(x0, span, b, buckets);
      ghost var start := i;
      var minI, maxI;
      i, minI, maxI := ScanSlice(xs, ys, buckets, b, i, end);
      if minI >= 0 {
        outX, outY, kept := PushPair(xs, ys, buckets, outX, outY, kept, start, i, minI, maxI, 1 + 2 * b);
      }
      b := b + 1;
    }
    ghost var before := kept;
    outX, outY, kept := PushPoint(xs, ys, outX, outY, kept, n - 1);
    KeptStillSurvive(xs, ys, buckets, before, kept, n - 1);
  }

  /** A slice's extremes in time order. */
  method PushPair(xs: seq<real>, ys: seq<real>, ghost buckets: nat, inX: seq<real>, inY: seq<real>, ghost before: seq<nat>,
                  ghost start: nat, ghost i: nat, minI: nat, maxI: nat, ghost most: nat)
      returns (outX: seq<real>, outY: seq<real>, ghost kept: seq<nat>)
    requires Ascending(xs) && Progress(xs, ys, buckets, inX, inY, before, start, most)
    requires start <= minI < i < |xs| && start <= maxI < i
    requires forall j | start <= j < i :: ys[minI] <= ys[j] <= ys[maxI]
    requires forall j, k | start <= j < i && start <= k < i :: SliceOf(xs, buckets, j) == SliceOf(xs, buckets, k)
    ensures Progress(xs, ys, buckets, outX, outY, kept, i, most + 2)
  {
    hide Survives;
    hide SliceOf;
    var first, second := if minI < maxI then minI else maxI, if minI < maxI then maxI else minI;
    ghost var one;
    outX, outY, one := PushPoint(xs, ys, inX, inY, before, first);
    assert one == before + [first];
    outX, outY, kept := PushPoint(xs, ys, outX, outY, one, second);
    BothKept(before, one, kept, first, second);
    KeptStillSurvive(xs, ys, buckets, before, kept, start);
    SliceSurvives(xs, ys, buckets, kept, start, i, minI, maxI);
  }

  lemma BothKept(before: seq<nat>, one: seq<nat>, kept: seq<nat>, first: nat, second: nat)
    requires one == before + [first] && (kept == one + [second] || (kept == one && first == second))
    ensures first in kept && second in kept && forall k | k in before :: k in kept
    ensures |kept| <= |before| + 2 && (before != [] ==> kept[0] == before[0]) && kept[|kept| - 1] == second
  {
    assert one[|before|] == first && one[|one| - 1] == first;
    assert kept[|before|] == first;
    assert kept[|kept| - 1] == second;
    forall k | k in before ensures k in kept {
      var i :| 0 <= i < |before| && before[i] == k;
      assert kept[i] == k;
    }
  }

  /** One slice's readings, from i on: its lowest and highest, first of equals;
      -1 when it has none. */
  method ScanSlice(xs: seq<real>, ys: seq<real>, buckets: nat, b: nat, from: nat, end: real)
      returns (i: nat, minI: int, maxI: int)
    requires |xs| == |ys| && Ascending(xs) && b < buckets && 1 <= from < |xs| - 1
    requires end == SliceEnd(xs[0], SpanOf(xs), b, buckets)
    requires forall c, j | 0 <= c < b && from <= j < |xs| - 1 :: xs[j] > SliceEnd(xs[0], SpanOf(xs), c, buckets)
    ensures from <= i <= |xs| - 1
    ensures forall j | from <= j < i :: SliceOf(xs, buckets, j) == b
    ensures forall j | i <= j < |xs| - 1 :: xs[j] > end
    ensures b == buckets - 1 ==> i == |xs| - 1
    ensures i == from ==> minI == maxI == -1
    ensures i > from ==> from <= minI < i && from <= maxI < i
    ensures i > from ==> forall j | from <= j < i :: ys[minI] <= ys[j] <= ys[maxI]
  {
    i, minI, maxI := from, -1, -1;
    while i < |xs| - 1 && (xs[i] <= end || b == buckets - 1)
      invariant from <= i <= |xs| - 1
      invariant forall j | from <= j < i :: SliceOf(xs, buckets, j) == b
      invariant i == from ==> minI == maxI == -1
      invariant i > from ==> from <= minI < i && from <= maxI < i
      invariant i > from ==> forall j | from <= j < i :: ys[minI] <= ys[j] <= ys[maxI]
    {
      SliceAtLeast(xs[i], xs[0], SpanOf(xs), 0, b, buckets);
      if minI < 0 || ys[i] < ys[minI] { minI := i; }
      if maxI < 0 || ys[i] > ys[maxI] { maxI := i; }
      i := i + 1;
    }
  }

  lemma KeptStillSurvive(xs: seq<real>, ys: seq<real>, buckets: nat, a: seq<nat>, b: seq<nat>, i: nat)
    requires |xs| == |ys| && i <= |xs| && buckets > 0 && forall k | k in a :: k in b
    requires forall j | 0 < j < i :: Survives(xs, ys, buckets, a, j)
    ensures forall j | 0 < j < i :: Survives(xs, ys, buckets, b, j)
  {
    forall j | 0 < j < i ensures Survives(xs, ys, buckets, b, j) {
      assert Survives(xs, ys, buckets, a, j);
    }
  }

  lemma SliceSurvives(xs: seq<real>, ys: seq<real>, buckets: nat, kept: seq<nat>, start: nat, i: nat, minI: nat, maxI: nat)
    requires |xs| == |ys| && start <= minI < i <= |xs| && start <= maxI < i && buckets > 0
    requires minI in kept && maxI in kept
    requires forall j | start <= j < i :: ys[minI] <= ys[j] <= ys[maxI]
    requires forall j, k | start <= j < i && start <= k < i :: SliceOf(xs, buckets, j) == SliceOf(xs, buckets, k)
    ensures forall j | start <= j < i :: Survives(xs, ys, buckets, kept, j)
  {
  }

  /** The chart's highest and lowest readings are still on it. */
  lemma ExtremesSurvive(xs: seq<real>, ys: seq<real>, buckets: nat, kept: seq<nat>)
    requires |xs| == |ys| && |xs| > 0 && buckets > 0 && Picks(kept, |xs|)
    requires kept != [] && kept[0] == 0 && kept[|kept| - 1] == |xs| - 1
    requires forall j | 0 < j < |xs| - 1 :: Survives(xs, ys, buckets, kept, j)
    ensures forall j | 0 <= j < |xs| :: Bracketed(ys, kept, j)
  {
    forall j | 0 <= j < |xs| ensures Bracketed(ys, kept, j) {
      if 0 < j < |xs| - 1 {
        assert Survives(xs, ys, buckets, kept, j);
      } else {
        assert j in kept && ys[j] <= ys[j];
      }
    }
  }

  ghost predicate Bracketed(ys: seq<real>, kept: seq<nat>, j: nat)
    requires j < |ys|
  {
    && (exists a :: a in kept && a < |ys| && ys[a] <= ys[j])
    && (exists a :: a in kept && a < |ys| && ys[a] >= ys[j])
  }
}
