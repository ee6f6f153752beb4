/** The edits of the wiring section, one after another: adding a part, taking one
    out, putting another in its place, clearing the wiring, and choosing which
    readings to keep. */
module PartEdits {
  import opened Wrappers
  import opened PartLinks
  import opened TemplateParts
  import opened PartsSound

  // ---- What is dropped ----------------------------------------------------------------------

  lemma {:induction false} KeptRows(rows: seq<Row>, dropping: set<nat>)
    ensures forall row :: row in KeepRows(rows, dropping) <==> row in rows && row.uid !in dropping
    decreases rows
  {
    if rows != [] {
      KeptRows(rows[1..], dropping);
      assert rows == [rows[0]] + rows[1..];
    }
  }

  lemma {:induction false} KeptDistinct(rows: seq<Row>, dropping: set<nat>)
    requires DistinctUids(rows)
    ensures DistinctUids(KeepRows(rows, dropping))
    decreases rows
  {
    if rows != [] {
      KeptDistinct(rows[1..], dropping);
      KeptRows(rows[1..], dropping);
      forall row | row in rows[1..] ensures row.uid != rows[0].uid {
        var i :| 0 <= i < |rows[1..]| && rows[1..][i] == row;
        assert rows[i + 1] == row;
      }
    }
  }

  lemma {:induction false} NoneDropped(rows: seq<Row>, dropping: set<nat>)
    requires forall row | row in rows :: row.uid !in dropping
    ensures KeepRows(rows, dropping) == rows
    decreases rows
  {
    if rows != [] {
      NoneDropped(rows[1..], dropping);
      assert rows[0] in rows;
    }
  }

  lemma {:induction false} KeepRowsConcat(a: seq<Row>, b: seq<Row>, dropping: set<nat>)
    ensures KeepRows(a + b, dropping) == KeepRows(a, dropping) + KeepRows(b, dropping)
    decreases |a|
  {
    if a == [] {
      assert a + b == b;
    } else {
      KeepRowsConcat(a[1..], b, dropping);
      assert (a + b)[1..] == a[1..] + b;
    }
  }

  lemma FindsRow(rows: seq<Row>, row: Row)
    requires DistinctUids(rows) && row in rows
    ensures FindRow(rows, row.uid) == Some(row)
  {
    var found := FindRow(rows, row.uid);
    var i :| 0 <= i < |rows| && rows[i] == row;
    var j :| 0 <= j < |rows| && rows[j] == found.value;
    assert i == j;
  }

  lemma StillLinkedHas(prev: Draft, next: Wiring, drivers: Drivers, kind: Kind, b: Part)
    requires b in PartsOf(next, kind)
    ensures LinkedBy(kind, b, Before(prev.wiring), drivers, prev) <= StillLinked(prev, next, drivers)
    ensures LinkedBy(kind, b, Before(prev.wiring), drivers, prev) !! Dropping(prev, next, drivers)
  {
  }

  /** The part is on its way out, or onto another driver, brought this row, and the
      row is as it was then. */
  ghost predicate ProposedBy(b: Part, row: Row, next: Wiring) {
    !Kept(PartMap(next.inputs + next.outputs), b) && row.uid in b.proposed && b.proposed[row.uid] == row
  }

  /** A row goes exactly when a part that goes, or changes driver, proposed it, it is
      untouched since, and no part left or carrying links over links it. */
  lemma DroppedExactly(prev: Draft, next: Wiring, drivers: Drivers, row: Row)
    requires DistinctUids(AllRows(prev)) && row in AllRows(prev)
    ensures row.uid in Dropping(prev, next, drivers) <==>
            (exists b :: b in Before(prev.wiring).Values && ProposedBy(b, row, next)) && row.uid !in StillLinked(prev, next, drivers)
  {
    FindsRow(AllRows(prev), row);
    if row.uid in Dropping(prev, next, drivers) {
      var b :| b in Before(prev.wiring).Values && !Kept(PartMap(next.inputs + next.outputs), b) && row.uid in b.proposed && FindRow(AllRows(prev), row.uid) == Some(b.proposed[row.uid]);
      assert ProposedBy(b, row, next);
    }
  }

  /** Whatever changed and however many parts: the rows not dropped stay in order, in
      front; the rows added have new uids and free keys; and parts in place on their
      drivers come back unchanged. */
  lemma RowsKept(prev: Draft, next: Wiring, drivers: Drivers, counter: nat, kind: Kind)
    ensures var r := ReconciledTo(prev, next, drivers, counter);
      && Grows(KeepRows(RowsOf(prev, kind), Dropping(prev, next, drivers)), counter, RowsOf(r.draft, kind), r.next)
      && |PartsOf(r.draft.wiring.value, kind)| == |PartsOf(next, kind)|
      && forall i | 0 <= i < |PartsOf(next, kind)| :: Kept(Before(prev.wiring), PartsOf(next, kind)[i]) ==> PartsOf(r.draft.wiring.value, kind)[i] == PartsOf(next, kind)[i]
  {
    var c := ContextOf(prev, next, drivers);
    var ins := InputSide(prev, next, drivers, counter);
    PlaceGrows(Inputs, next.inputs, c, KeepRows(prev.metrics, c.dropping), counter);
    PlaceGrows(Outputs, next.outputs, c, KeepRows(prev.actuators, c.dropping), ins.next);
    var start := if kind == Inputs then counter else ins.next;
    forall i | 0 <= i < |PartsOf(next, kind)| && Kept(c.before, PartsOf(next, kind)[i])
      ensures PlaceParts(kind, PartsOf(next, kind), c, KeepRows(RowsOf(prev, kind), c.dropping), start).parts[i] == PartsOf(next, kind)[i]
    {
      StillLinkedHas(prev, next, drivers, kind, PartsOf(next, kind)[i]);
      PlacedKept(kind, PartsOf(next, kind), c, KeepRows(RowsOf(prev, kind), c.dropping), start, i);
    }
  }

  // ---- Fresh parts --------------------------------------------------------------------------------

  /** On each side, the parts in place link rows of the draft, none twice; a part that
      is new or on another driver takes over only its own old links, which are no other
      part's; if its driver is unknown it comes with links to rows that stay, no other
      part's; and what the fresh parts' readings may take or propose keeps apart. */
  ghost predicate Ready(prev: Draft, next: Wiring, drivers: Drivers, counter: nat, kind: Kind) {
    var parts, before, c := PartsOf(next, kind), Before(prev.wiring), ContextOf(prev, next, drivers);
    && (forall i | 0 <= i < |parts| :: Kept(before, parts[i]) ==> Once(parts[i].channels) && Refs(parts[i].channels) <= Uids(RowsOf(prev, kind)))
    && (forall i, j | 0 <= i < j < |parts| && Kept(before, parts[i]) && Kept(before, parts[j]) :: Refs(parts[i].channels) !! Refs(parts[j].channels))
    && (forall i | 0 <= i < |parts| && !Kept(before, parts[i]) :: StartsOwn(prev, next, drivers, counter, kind, i))
    && Spread(kind, c, RowsOf(prev, kind))
  }

  ghost predicate StartsOwn(prev: Draft, next: Wiring, drivers: Drivers, counter: nat, kind: Kind, k: nat)
    requires k < |PartsOf(next, kind)|
  {
    var parts, before := PartsOf(next, kind), Before(prev.wiring);
    var b := parts[k];
    && (forall u | u in Refs(b.channels) :: u < counter)
    && if b.driver !in drivers then
         && Once(b.channels) && Refs(b.channels) <= Uids(RowsOf(prev, kind)) && Refs(b.channels) !! Dropping(prev, next, drivers)
         && forall i | 0 <= i < |parts| :: i != k ==> Refs(parts[i].channels) !! Refs(b.channels)
       else b.uid in before ==> (Refs(before[b.uid].channels) <= Uids(RowsOf(prev, kind))
                                 && forall i | 0 <= i < |parts| :: i != k ==> Refs(parts[i].channels) !! Refs(before[b.uid].channels))
  }

  lemma ReadySide(prev: Draft, next: Wiring, drivers: Drivers, counter: nat, kind: Kind)
    requires Sound(prev, counter) && PartUids(next) && Ready(prev, next, drivers, counter, kind)
    ensures var c := ContextOf(prev, next, drivers);
      SideReady(kind, c, KeepRows(RowsOf(prev, kind), c.dropping), counter) && Spread(kind, c, KeepRows(RowsOf(prev, kind), c.dropping))
  {
    var c := ContextOf(prev, next, drivers);
    var rows := KeepRows(RowsOf(prev, kind), c.dropping);
    ReadyBelow(prev, next, drivers, counter, kind);
    hide Spread, Sound, StartsOwn, KeptWell, CanStart, Dropping, KeepRows;
    ReadyRows(prev, c.dropping, counter, kind);
    PartsDistinct(next, kind);
    KeptReady(prev, next, drivers, counter, kind);
    forall k | 0 <= k < |PartsOf(next, kind)| && !Kept(c.before, PartsOf(next, kind)[k])
      ensures CanStart(kind, PartsOf(next, kind)[k], c, rows, Taken(PartsOf(next, kind), PartsOf(next, kind)[k].uid))
    {
      FreshStarts(prev, next, drivers, counter, kind, k);
    }
    KeptRows(RowsOf(prev, kind), c.dropping);
    FewerSpread(kind, c, RowsOf(prev, kind), rows);
  }

  /** The rows kept are distinct and below the counter. */
  lemma ReadyRows(prev: Draft, dropping: set<nat>, counter: nat, kind: Kind)
    requires Sound(prev, counter)
    ensures DistinctUids(KeepRows(RowsOf(prev, kind), dropping)) && Below(KeepRows(RowsOf(prev, kind), dropping), counter)
  {
    SoundRows(prev, counter);
    hide Sound, DistinctUids, KeepRows;
    RowsDistinct(prev, kind);
    KeptDistinct(RowsOf(prev, kind), dropping);
    KeptRows(RowsOf(prev, kind), dropping);
    assert forall row | row in RowsOf(prev, kind) :: row in AllRows(prev);
  }

  /** No part has a link to a row yet to come. */
  lemma ReadyBelow(prev: Draft, next: Wiring, drivers: Drivers, counter: nat, kind: Kind)
    requires Sound(prev, counter) && Ready(prev, next, drivers, counter, kind)
    ensures forall i, u | 0 <= i < |PartsOf(next, kind)| && u in Refs(PartsOf(next, kind)[i].channels) :: u < counter
  {
    SoundRows(prev, counter);
    hide Sound, Spread, Once, Before, Refs;
    var parts := PartsOf(next, kind);
    forall i, u | 0 <= i < |parts| && u in Refs(parts[i].channels) ensures u < counter {
      if Kept(Before(prev.wiring), parts[i]) {
        assert u in Uids(RowsOf(prev, kind));
        var row :| row in RowsOf(prev, kind) && row.uid == u;
        assert row in AllRows(prev);
      } else {
        assert StartsOwn(prev, next, drivers, counter, kind, i);
      }
    }
  }

  /** The rows the parts in place link are kept. */
  lemma KeptReady(prev: Draft, next: Wiring, drivers: Drivers, counter: nat, kind: Kind)
    requires Ready(prev, next, drivers, counter, kind)
    ensures var c := ContextOf(prev, next, drivers);
      forall i | 0 <= i < |PartsOf(next, kind)| && Kept(c.before, PartsOf(next, kind)[i]) :: KeptWell(PartsOf(next, kind)[i], c, KeepRows(RowsOf(prev, kind), c.dropping))
  {
    hide Spread, StartsOwn, Once, Dropping, StillLinked, KeepRows;
    var c, parts := ContextOf(prev, next, drivers), PartsOf(next, kind);
    forall i | 0 <= i < |parts| && Kept(c.before, parts[i])
      ensures KeptWell(parts[i], c, KeepRows(RowsOf(prev, kind), c.dropping))
    {
      StillLinkedHas(prev, next, drivers, kind, parts[i]);
      UidsKept(RowsOf(prev, kind), c.dropping, Refs(parts[i].channels));
    }
  }

  lemma SoundRows(d: Draft, counter: nat)
    requires Sound(d, counter)
    ensures DistinctUids(AllRows(d)) && Below(AllRows(d), counter)
  {
  }

  lemma FreshStarts(prev: Draft, next: Wiring, drivers: Drivers, counter: nat, kind: Kind, k: nat)
    requires k < |PartsOf(next, kind)| && !Kept(Before(prev.wiring), PartsOf(next, kind)[k]) && StartsOwn(prev, next, drivers, counter, kind, k)
    ensures var c, parts := ContextOf(prev, next, drivers), PartsOf(next, kind);
      CanStart(kind, parts[k], c, KeepRows(RowsOf(prev, kind), c.dropping), Taken(parts, parts[k].uid))
  {
    var c, parts := ContextOf(prev, next, drivers), PartsOf(next, kind);
    if parts[k].driver in drivers {
      CarriedOnce(kind, parts[k], c.before, drivers, prev);
      OthersTaken(parts, k, Refs(Carried(kind, parts[k], c.before, drivers, prev)));
      StillLinkedHas(prev, next, drivers, kind, parts[k]);
      UidsKept(RowsOf(prev, kind), c.dropping, Refs(Carried(kind, parts[k], c.before, drivers, prev)));
    } else {
      OthersTaken(parts, k, Refs(parts[k].channels));
      UidsKept(RowsOf(prev, kind), c.dropping, Refs(parts[k].channels));
    }
  }

  lemma FewerSpread(kind: Kind, c: Context, rows: seq<Row>, fewer: seq<Row>)
    requires Spread(kind, c, rows) && forall row | row in fewer :: row in rows
    ensures Spread(kind, c, fewer)
  {
    hide Wants, Found, Clash;
    var parts := PartsOf(c.next, kind);
    forall i, j | 0 <= i < j < |parts| && Active(parts[i], c) && Active(parts[j], c)
      ensures KeepApart(kind, parts[i], parts[j], c, fewer)
    {
      var a, b := parts[i], parts[j];
      assert KeepApart(kind, a, b, c, rows);
      forall u ensures !TakesCarried(kind, a, b, c, fewer, u) && !TakesCarried(kind, b, a, c, fewer, u) {
        assert !TakesCarried(kind, a, b, c, rows, u) && !TakesCarried(kind, b, a, c, rows, u);
      }
    }
  }

  lemma RowsDistinct(d: Draft, kind: Kind)
    requires DistinctUids(AllRows(d))
    ensures DistinctUids(RowsOf(d, kind))
    ensures Uids(d.metrics) !! Uids(d.actuators)
  {
    var all, n := AllRows(d), |d.metrics|;
    assert forall i | 0 <= i < n :: all[i] == d.metrics[i];
    forall i, j | 0 <= i < j < |d.actuators| ensures d.actuators[i].uid != d.actuators[j].uid {
      assert all[n + i] == d.actuators[i] && all[n + j] == d.actuators[j];
    }
    forall a, b | a in d.metrics && b in d.actuators ensures a.uid != b.uid {
      var i :| 0 <= i < n && d.metrics[i] == a;
      var j :| 0 <= j < |d.actuators| && d.actuators[j] == b;
      assert all[i] == a && all[n + j] == b;
    }
  }

  lemma PartsDistinct(w: Wiring, kind: Kind)
    requires PartUids(w)
    ensures forall i, j | 0 <= i < j < |PartsOf(w, kind)| :: PartsOf(w, kind)[i].uid != PartsOf(w, kind)[j].uid
  {
    var all, n := w.inputs + w.outputs, |w.inputs|;
    assert forall i | 0 <= i < n :: all[i] == w.inputs[i];
    forall i, j | 0 <= i < j < |w.outputs| ensures w.outputs[i].uid != w.outputs[j].uid {
      assert all[n + i] == w.outputs[i] && all[n + j] == w.outputs[j];
    }
  }

  lemma UidsKept(rows: seq<Row>, dropping: set<nat>, refs: set<nat>)
    requires refs <= Uids(rows) && refs !! dropping
    ensures refs <= Uids(KeepRows(rows, dropping))
  {
    KeptRows(rows, dropping);
  }

  /** What is disjoint from every other part is disjoint from what they take. */
  lemma OthersTaken(parts: seq<Part>, k: nat, refs: set<nat>)
    requires k < |parts| && forall i | 0 <= i < |parts| :: i != k ==> Refs(parts[i].channels) !! refs
    ensures refs !! Taken(parts, parts[k].uid)
  {
    forall u | u in Taken(parts, parts[k].uid) ensures u !in refs {
      TakenFrom(parts, parts[k].uid, u);
      var b :| b in parts && b.uid != parts[k].uid && u in Refs(b.channels);
      var i :| 0 <= i < |parts| && parts[i] == b;
    }
  }

  /** With any number of fresh parts that keep apart, reconciling keeps the draft
      sound: every link names a row of its side, no row is linked twice, and uids are
      unique. */
  lemma ReconcileSound(prev: Draft, next: Wiring, drivers: Drivers, counter: nat)
    requires Sound(prev, counter) && PartUids(next)
    requires Ready(prev, next, drivers, counter, Inputs) && Ready(prev, next, drivers, counter, Outputs)
    ensures var r := ReconciledTo(prev, next, drivers, counter); Sound(r.draft, r.next) && r.next >= counter
  {
    hide Ready, Spread;
    var c := ContextOf(prev, next, drivers);
    var ins, outs := InputSide(prev, next, drivers, counter), OutputSide(prev, next, drivers, counter);
    ReadySide(prev, next, drivers, counter, Inputs);
    ReadySide(prev, next, drivers, counter, Outputs);
    PlacedSound(Inputs, c, KeepRows(prev.metrics, c.dropping), counter);
    ReadyLater(Outputs, c, KeepRows(prev.actuators, c.dropping), counter, ins.next);
    PlacedSound(Outputs, c, KeepRows(prev.actuators, c.dropping), ins.next);
    SidesDistinct(prev, c.dropping, counter, ins, outs);
    SamePartUids(next, Wiring(ins.parts, outs.parts));
  }

  lemma ReadyLater(kind: Kind, c: Context, rows: seq<Row>, next: nat, later: nat)
    requires SideReady(kind, c, rows, next) && next <= later
    ensures SideReady(kind, c, rows, later)
  {
  }

  lemma SamePartUids(a: Wiring, b: Wiring)
    requires PartUids(a) && |a.inputs| == |b.inputs| && |a.outputs| == |b.outputs|
    requires forall i | 0 <= i < |a.inputs| :: b.inputs[i].uid == a.inputs[i].uid
    requires forall i | 0 <= i < |a.outputs| :: b.outputs[i].uid == a.outputs[i].uid
    ensures PartUids(b)
  {
    var x, y := a.inputs + a.outputs, b.inputs + b.outputs;
    assert forall i | 0 <= i < |x| :: x[i].uid == y[i].uid;
  }

  lemma SidesDistinct(prev: Draft, dropping: set<nat>, counter: nat, ins: Side, outs: Side)
    requires DistinctUids(AllRows(prev)) && Below(AllRows(prev), counter)
    requires DistinctUids(ins.rows) && DistinctUids(outs.rows) && Below(ins.rows, ins.next) && Below(outs.rows, outs.next)
    requires Grows(KeepRows(prev.metrics, dropping), counter, ins.rows, ins.next)
    requires Grows(KeepRows(prev.actuators, dropping), ins.next, outs.rows, outs.next)
    ensures DistinctUids(ins.rows + outs.rows) && Below(ins.rows + outs.rows, outs.next)
  {
    KeptRows(prev.metrics, dropping);
    KeptRows(prev.actuators, dropping);
    RowsDistinct(prev, Inputs);
    NewOrOld(KeepRows(prev.metrics, dropping), counter, ins.rows, ins.next);
    NewOrOld(KeepRows(prev.actuators, dropping), ins.next, outs.rows, outs.next);
    forall a, b | a in ins.rows && b in outs.rows
      ensures a.uid != b.uid
    {
      if a in prev.metrics { assert a in AllRows(prev) && a.uid in Uids(prev.metrics); }
      if b in prev.actuators { assert b in AllRows(prev) && b.uid in Uids(prev.actuators); }
    }
  }

  lemma NewOrOld(rows: seq<Row>, next: nat, more: seq<Row>, after: nat)
    requires Grows(rows, next, more, after)
    ensures forall row | row in more :: row in rows || next <= row.uid < after
  {
    forall row | row in more ensures row in rows || next <= row.uid < after {
      var i :| 0 <= i < |more| && more[i] == row;
      if i < |rows| { assert more[i] == rows[i]; }
    }
  }
}
