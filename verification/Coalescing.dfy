/** Keeping one reading per metric between flushes (frontend/src/lib/live-buffer.ts:57-63)
    against applying every frame: when the two agree, exactly. */
module Coalescing {
  import opened Wrappers
  import opened LiveTelemetry

  ghost predicate DistinctMetrics(rs: seq<Reading>) {
    forall i, j | 0 <= i < j < |rs| :: rs[i].metric != rs[j].metric
  }

  function IndexOf(rs: seq<Reading>, metric: string): (k: nat)
    ensures k <= |rs|
    ensures k < |rs| ==> rs[k].metric == metric
    ensures forall i | 0 <= i < k :: rs[i].metric != metric
  {
    if rs == [] || rs[0].metric == metric then 0 else 1 + IndexOf(rs[1..], metric)
  }

  /** One frame into a device's pending readings: `t >= current.t` replaces in
      place, so of equal times the last one stays. */
  function Keep(pending: seq<Reading>, r: Reading): seq<Reading> {
    var k := IndexOf(pending, r.metric);
    if k == |pending| then pending + [r]
    else if r.t >= pending[k].t then pending[k := r]
    else pending
  }

  function KeepAll(pending: seq<Reading>, frames: seq<Reading>): seq<Reading>
    decreases frames
  {
    if frames == [] then pending else KeepAll(Keep(pending, frames[0]), frames[1..])
  }

  /** The same, but of equal times the first one stays. */
  function KeepFirst(pending: seq<Reading>, r: Reading): seq<Reading> {
    var k := IndexOf(pending, r.metric);
    if k == |pending| then pending + [r]
    else if r.t > pending[k].t then pending[k := r]
    else pending
  }

  function KeepAllFirst(pending: seq<Reading>, frames: seq<Reading>): seq<Reading>
    decreases frames
  {
    if frames == [] then pending else KeepAllFirst(KeepFirst(pending, frames[0]), frames[1..])
  }

  lemma KeepIsDistinct(pending: seq<Reading>, r: Reading)
    requires DistinctMetrics(pending)
    ensures DistinctMetrics(Keep(pending, r)) && DistinctMetrics(KeepFirst(pending, r))
  {
  }

  lemma MergeAllAt(rows: seq<Row>, rs: seq<Reading>, k: nat)
    requires k < |rs|
    ensures MergeAll(rows, rs) == MergeAll(Merge(MergeAll(rows, rs[..k]), rs[k]), rs[k + 1..])
  {
    var tail := rs[k..];
    assert rs == rs[..k] + tail;
    MergeAllAppend(rows, rs[..k], tail);
    assert tail[0] == rs[k] && tail[1..] == rs[k + 1..];
  }

  /** Applying a frame after the pending ones is applying the pending ones with
      the frame kept, first of equal times. */
  lemma MergeOneMore(rows: seq<Row>, pending: seq<Reading>, r: Reading)
    requires DistinctMetrics(pending)
    ensures Merge(MergeAll(rows, pending), r) == MergeAll(rows, KeepFirst(pending, r))
  {
    var k := IndexOf(pending, r.metric);
    if k == |pending| {
      MergeAllAt(rows, pending + [r], k);
      assert (pending + [r])[..k] == pending && (pending + [r])[k + 1..] == [];
    } else {
      var base, held, after := MergeAll(rows, pending[..k]), pending[k], pending[k + 1..];
      MergeAllAt(rows, pending, k);
      FindMerged(base, held, r.metric);
      MergePastOthers(Merge(base, held), after, r);
      if r.t > held.t {
        MergeAllAt(rows, pending[k := r], k);
        assert pending[k := r][..k] == pending[..k] && pending[k := r][k + 1..] == after;
        LaterWins(base, held, r);
      } else {
        OlderLoses(base, held, r);
      }
    }
  }

  /** Direct application is one application of the newest readings, first of
      equal times — whatever the frames. */
  lemma {:induction false} DirectIsFirst(rows: seq<Row>, pending: seq<Reading>, frames: seq<Reading>)
    requires DistinctMetrics(pending)
    ensures MergeAll(MergeAll(rows, pending), frames) == MergeAll(rows, KeepAllFirst(pending, frames))
    ensures DistinctMetrics(KeepAllFirst(pending, frames))
    decreases frames
  {
    if frames != [] {
      KeepIsDistinct(pending, frames[0]);
      MergeOneMore(rows, pending, frames[0]);
      DirectIsFirst(rows, KeepFirst(pending, frames[0]), frames[1..]);
    }
  }

  /** Same metrics, same order, same times: only the value at a tie may differ. */
  ghost predicate SameTimes(a: seq<Reading>, b: seq<Reading>) {
    |a| == |b| && forall i | 0 <= i < |a| :: a[i].metric == b[i].metric && a[i].t == b[i].t
  }

  lemma {:induction false} SameIndex(a: seq<Reading>, b: seq<Reading>, metric: string)
    requires SameTimes(a, b)
    ensures IndexOf(a, metric) == IndexOf(b, metric)
  {
    if a != [] {
      SameIndex(a[1..], b[1..], metric);
    }
  }

  lemma {:induction false} BothKeepTimes(a: seq<Reading>, b: seq<Reading>, frames: seq<Reading>)
    requires SameTimes(a, b) && DistinctMetrics(a)
    ensures SameTimes(KeepAll(a, frames), KeepAllFirst(b, frames)) && DistinctMetrics(KeepAll(a, frames))
    decreases frames
  {
    if frames != [] {
      SameIndex(a, b, frames[0].metric);
      KeepIsDistinct(a, frames[0]);
      BothKeepTimes(Keep(a, frames[0]), KeepFirst(b, frames[0]), frames[1..]);
    }
  }

  /** A reading that would change the cached list. */
  predicate Counts(rows: seq<Row>, r: Reading) {
    Find(rows, r.metric).None? || IsNewer(r.t, Find(rows, r.metric).value.time)
  }

  lemma {:induction false} FindMergedAll(rows: seq<Row>, rs: seq<Reading>, k: nat)
    requires DistinctMetrics(rs) && k < |rs|
    ensures Find(MergeAll(rows, rs), rs[k].metric)
         == if Counts(rows, rs[k]) then Some(ToRow(rs[k])) else Find(rows, rs[k].metric)
    decreases rs
  {
    FindMerged(rows, rs[0], rs[k].metric);
    if k == 0 {
      MergeAllKeepsOthers(Merge(rows, rs[0]), rs[1..], rs[0].metric);
    } else {
      FindMergedAll(Merge(rows, rs[0]), rs[1..], k - 1);
    }
  }

  /** Two batches of the same metrics and times do the same exactly when they agree
      wherever they count. */
  lemma {:induction false} BatchesAgree(rows: seq<Row>, a: seq<Reading>, b: seq<Reading>)
    requires SameTimes(a, b) && DistinctMetrics(a)
    ensures MergeAll(rows, a) == MergeAll(rows, b)
       <==> forall k | 0 <= k < |a| :: Counts(rows, a[k]) ==> a[k].value == b[k].value
  {
    if forall k | 0 <= k < |a| :: Counts(rows, a[k]) ==> a[k].value == b[k].value {
      AgreeingBatches(rows, a, b);
    }
    if MergeAll(rows, a) == MergeAll(rows, b) {
      forall k | 0 <= k < |a| && Counts(rows, a[k]) ensures a[k].value == b[k].value {
        FindMergedAll(rows, a, k);
        FindMergedAll(rows, b, k);
      }
    }
  }

  lemma {:induction false} AgreeingBatches(rows: seq<Row>, a: seq<Reading>, b: seq<Reading>)
    requires SameTimes(a, b) && DistinctMetrics(a)
    requires forall k | 0 <= k < |a| :: Counts(rows, a[k]) ==> a[k].value == b[k].value
    ensures MergeAll(rows, a) == MergeAll(rows, b)
    decreases a
  {
    if a != [] {
      assert Counts(rows, a[0]) ==> a[0].value == b[0].value;
      assert Merge(rows, a[0]) == Merge(rows, b[0]);
      forall k | 0 <= k < |a[1..]| && Counts(Merge(rows, a[0]), a[1..][k]) ensures a[1..][k].value == b[1..][k].value {
        FindMerged(rows, a[0], a[k + 1].metric);
        assert Counts(rows, a[k + 1]);
      }
      AgreeingBatches(Merge(rows, a[0]), a[1..], b[1..]);
    }
  }

  /** One window: flushing the kept readings leaves the cached list — values and
      order — exactly as applying every frame would, if and only if no metric's
      newest time in the window was sent first and last with different values
      while being news to the cache. */
  lemma WindowAgrees(rows: seq<Row>, frames: seq<Reading>)
    ensures SameTimes(KeepAll([], frames), KeepAllFirst([], frames))
    ensures MergeAll(rows, KeepAll([], frames)) == MergeAll(rows, frames)
       <==> var last, first := KeepAll([], frames), KeepAllFirst([], frames);
            forall k | 0 <= k < |last| :: Counts(rows, last[k]) ==> last[k].value == first[k].value
  {
    DirectIsFirst(rows, [], frames);
    BothKeepTimes([], [], frames);
    BatchesAgree(rows, KeepAll([], frames), KeepAllFirst([], frames));
  }

  /** No two frames report one metric at one time with different values. */
  ghost predicate NoTies(frames: seq<Reading>) {
    forall i, j | 0 <= i < j < |frames| ::
      frames[i].metric == frames[j].metric && frames[i].t == frames[j].t ==> frames[i].value == frames[j].value
  }

  lemma {:induction false} KeptAreFrames(pending: seq<Reading>, frames: seq<Reading>)
    ensures forall r | r in KeepAll(pending, frames) :: r in pending || r in frames
    ensures forall r | r in KeepAllFirst(pending, frames) :: r in pending || r in frames
    decreases frames
  {
    if frames != [] {
      KeptAreFrames(Keep(pending, frames[0]), frames[1..]);
      KeptAreFrames(KeepFirst(pending, frames[0]), frames[1..]);
    }
  }

  lemma WindowAgreesWithoutTies(rows: seq<Row>, frames: seq<Reading>)
    requires NoTies(frames)
    ensures MergeAll(rows, KeepAll([], frames)) == MergeAll(rows, frames)
  {
    WindowAgrees(rows, frames);
    KeptAreFrames([], frames);
    var last, first := KeepAll([], frames), KeepAllFirst([], frames);
    forall k | 0 <= k < |last| ensures last[k].value == first[k].value {
      assert last[k] in frames && first[k] in frames;
      var i, j :| 0 <= i < |frames| && 0 <= j < |frames| && frames[i] == last[k] && frames[j] == first[k];
    }
  }

  /** A tie does differ: the buffer keeps the second value, the updater the first. */
  lemma TieDiffers()
    ensures var frames := [Reading("temp", 1.0, 5), Reading("temp", 2.0, 5)];
      MergeAll([], KeepAll([], frames)) != MergeAll([], frames)
  {
    var a, b := Reading("temp", 1.0, 5), Reading("temp", 2.0, 5);
    var frames := [a, b];
    assert frames[1..] == [b] && [b][1..] == [];
    assert Keep([], a) == [a] && Keep([a], b) == [b];
    assert KeepAll([], frames) == KeepAll(Keep([], a), [b]);
    assert KeepAll([a], [b]) == KeepAll(Keep([a], b), []);
    assert MergeAll([], [b]) == MergeAll(Merge([], b), []);
    assert Merge([], a) == [ToRow(a)] && Merge([ToRow(a)], b) == [ToRow(a)];
    assert MergeAll([], frames) == MergeAll(Merge([], a), [b]);
    assert MergeAll([ToRow(a)], [b]) == MergeAll(Merge([ToRow(a)], b), []);
  }
}
