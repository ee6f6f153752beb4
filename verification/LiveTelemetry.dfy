/** The cache updater for live readings (packages/shared/src/live-telemetry.ts):
    what applying every frame directly does to a device's latest list. Times are
    whole milliseconds, as the ISO strings carry them. */
module LiveTelemetry {
  import opened Wrappers

  datatype Reading = Reading(metric: string, value: real, t: int)

  /** A row of the cached latest list; the time may be missing. */
  datatype Row = Row(metric: string, value: real, time: Option<int>)

  predicate IsNewer(candidate: int, existing: Option<int>) {
    existing.None? || candidate > existing.value
  }

  function Find(rows: seq<Row>, metric: string): Option<Row> {
    if rows == [] then None
    else if rows[0].metric == metric then Some(rows[0])
    else Find(rows[1..], metric)
  }

  function ToRow(r: Reading): Row {
    Row(r.metric, r.value, Some(r.t))
  }

  /** `current.map(...)`: every row of the metric becomes the new one, in place. */
  function Replace(rows: seq<Row>, r: Reading): (s: seq<Row>)
    ensures |s| == |rows|
    ensures forall i | 0 <= i < |rows| :: s[i] == if rows[i].metric == r.metric then ToRow(r) else rows[i]
  {
    seq(|rows|, i requires 0 <= i < |rows| => if rows[i].metric == r.metric then ToRow(r) else rows[i])
  }

  /** `mergeLatest` on a key that is cached. */
  function Merge(rows: seq<Row>, r: Reading): seq<Row> {
    match Find(rows, r.metric)
    case None => rows + [ToRow(r)]
    case Some(existing) => if IsNewer(r.t, existing.time) then Replace(rows, r) else rows
  }

  /** `mergeLatest`: a key not cached yet is left to its fetch. */
  function MergeLatest(current: Option<seq<Row>>, r: Reading): Option<seq<Row>> {
    if current.None? then None else Some(Merge(current.value, r))
  }

  /** Every reading applied in turn. */
  function MergeAll(rows: seq<Row>, rs: seq<Reading>): seq<Row>
    decreases rs
  {
    if rs == [] then rows else MergeAll(Merge(rows, rs[0]), rs[1..])
  }

  // ---- Merging ------------------------------------------------------------------

  lemma {:induction false} FindReplaced(rows: seq<Row>, r: Reading, metric: string)
    ensures Find(Replace(rows, r), metric) ==
      if metric == r.metric && Find(rows, metric).Some? then Some(ToRow(r)) else Find(rows, metric)
  {
    if rows != [] {
      assert Replace(rows, r)[1..] == Replace(rows[1..], r);
      FindReplaced(rows[1..], r, metric);
    }
  }

  lemma {:induction false} FindAppended(rows: seq<Row>, row: Row, metric: string)
    ensures Find(rows + [row], metric) ==
      if Find(rows, metric).Some? then Find(rows, metric) else if row.metric == metric then Some(row) else None
  {
    if rows == [] {
      assert rows + [row] == [row] && [row][1..] == [];
    } else {
      assert (rows + [row])[1..] == rows[1..] + [row];
      FindAppended(rows[1..], row, metric);
    }
  }

  lemma {:induction false} NotFound(rows: seq<Row>, metric: string)
    ensures Find(rows, metric).None? <==> forall i | 0 <= i < |rows| :: rows[i].metric != metric
  {
    if rows != [] {
      NotFound(rows[1..], metric);
    }
  }

  /** What a merge leaves under each metric. */
  lemma FindMerged(rows: seq<Row>, r: Reading, metric: string)
    ensures Find(Merge(rows, r), metric) ==
      if metric == r.metric && (Find(rows, metric).None? || IsNewer(r.t, Find(rows, metric).value.time)) then Some(ToRow(r))
      else Find(rows, metric)
  {
    FindReplaced(rows, r, metric);
    FindAppended(rows, ToRow(r), metric);
  }

  lemma ReplaceTwice(rows: seq<Row>, r: Reading, s: Reading)
    ensures r.metric == s.metric ==> Replace(Replace(rows, r), s) == Replace(rows, s)
    ensures r.metric != s.metric ==> Replace(Replace(rows, r), s) == Replace(Replace(rows, s), r)
  {
  }

  lemma ReplaceAppended(rows: seq<Row>, row: Row, s: Reading)
    ensures Replace(rows + [row], s) == Replace(rows, s) + [if row.metric == s.metric then ToRow(s) else row]
  {
  }

  lemma ReplaceAbsent(rows: seq<Row>, s: Reading)
    requires Find(rows, s.metric).None?
    ensures Replace(rows, s) == rows
  {
    NotFound(rows, s.metric);
  }

  /** Of two readings of one metric in time order, the second alone is enough. */
  lemma LaterWins(rows: seq<Row>, r: Reading, s: Reading)
    requires r.metric == s.metric && r.t < s.t
    ensures Merge(Merge(rows, r), s) == Merge(rows, s)
  {
    FindMerged(rows, r, s.metric);
    ReplaceTwice(rows, r, s);
    ReplaceAppended(rows, ToRow(r), s);
    if Find(rows, r.metric).None? {
      ReplaceAbsent(rows, s);
    }
  }

  /** A reading no newer than one already merged changes nothing. */
  lemma OlderLoses(rows: seq<Row>, r: Reading, s: Reading)
    requires r.metric == s.metric && s.t <= r.t
    ensures Merge(Merge(rows, r), s) == Merge(rows, r)
  {
    FindMerged(rows, r, s.metric);
  }

  /** Readings of different metrics merge in either order once the second's metric
      has its place in the list. */
  lemma MergesCommute(rows: seq<Row>, r: Reading, s: Reading)
    requires r.metric != s.metric && Find(rows, s.metric).Some?
    ensures Merge(Merge(rows, r), s) == Merge(Merge(rows, s), r)
  {
    FindMerged(rows, r, s.metric);
    FindMerged(rows, s, r.metric);
    ReplaceTwice(rows, r, s);
    ReplaceAppended(rows, ToRow(r), s);
  }

  lemma {:induction false} MergePastOthers(rows: seq<Row>, rs: seq<Reading>, s: Reading)
    requires Find(rows, s.metric).Some? && forall i | 0 <= i < |rs| :: rs[i].metric != s.metric
    ensures Merge(MergeAll(rows, rs), s) == MergeAll(Merge(rows, s), rs)
    decreases rs
  {
    if rs != [] {
      MergesCommute(rows, rs[0], s);
      FindMerged(rows, rs[0], s.metric);
      MergePastOthers(Merge(rows, rs[0]), rs[1..], s);
    }
  }

  lemma {:induction false} MergeAllAppend(rows: seq<Row>, a: seq<Reading>, b: seq<Reading>)
    ensures MergeAll(rows, a + b) == MergeAll(MergeAll(rows, a), b)
    decreases a
  {
    if a == [] {
      assert a + b == b;
    } else {
      assert (a + b)[1..] == a[1..] + b;
      MergeAllAppend(Merge(rows, a[0]), a[1..], b);
    }
  }

  lemma {:induction false} MergeAllKeepsOthers(rows: seq<Row>, rs: seq<Reading>, metric: string)
    requires forall i | 0 <= i < |rs| :: rs[i].metric != metric
    ensures Find(MergeAll(rows, rs), metric) == Find(rows, metric)
    decreases rs
  {
    if rs != [] {
      FindMerged(rows, rs[0], metric);
      MergeAllKeepsOthers(Merge(rows, rs[0]), rs[1..], metric);
    }
  }
}
