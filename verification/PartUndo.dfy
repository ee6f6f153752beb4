/** What edits of the parts undo, and what a new or replaced part brings. */
module PartUndo {
  import opened Wrappers
  import opened PartLinks
  import opened TemplateParts
  import opened PartsSound
  import opened PartEdits
  import opened PartRuns

  // ---- Nothing to do ------------------------------------------------------------------------

  /** With the same parts on the same drivers nothing is dropped. */
  lemma NothingGone(d: Draft, next: Wiring, drivers: Drivers)
    requires d.wiring.Some? && PartUids(d.wiring.value) && PartUids(next)
    requires forall kind, b | b in PartsOf(d.wiring.value, kind) :: b in PartsOf(next, kind)
    ensures Dropping(d, next, drivers) == {}
  {
    var w := d.wiring.value;
    BeforeIs(w);
    BeforeIs(next);
    var before, after := Before(Some(w)), Before(Some(next));
    forall b | b in before.Values ensures Kept(after, b) {
      var u :| u in before && before[u] == b;
      assert b in PartsOf(w, Inputs) || b in PartsOf(w, Outputs);
      assert b in PartsOf(next, Inputs) || b in PartsOf(next, Outputs);
    }
  }

  lemma SidePlacedSame(kind: Kind, w: Wiring, c: Context, rows: seq<Row>, next: nat)
    requires PartUids(w) && c.before == Before(Some(w)) && c.dropping == {}
    ensures PlaceParts(kind, PartsOf(w, kind), c, rows, next) == Side(PartsOf(w, kind), rows, next)
  {
    var parts := PartsOf(w, kind);
    BeforeIs(w);
    PlacedRows(kind, parts, c, rows, next, |parts|);
    forall i | 0 <= i < |parts|
      ensures PlaceParts(kind, parts, c, rows, next).parts[i] == parts[i]
    {
      PlacedKept(kind, parts, c, rows, next, i);
    }
  }

  /** Reconciling a draft with its own wiring changes nothing. */
  lemma ReconcileSettles(d: Draft, drivers: Drivers, counter: nat)
    requires d.wiring.Some? && PartUids(d.wiring.value)
    ensures ReconciledTo(d, d.wiring.value, drivers, counter) == Reconciliation(d, counter)
  {
    var w := d.wiring.value;
    NothingGone(d, w, drivers);
    var c := ContextOf(d, w, drivers);
    NoneDropped(d.metrics, {});
    NoneDropped(d.actuators, {});
    SidePlacedSame(Inputs, w, c, d.metrics, counter);
    SidePlacedSame(Outputs, w, c, d.actuators, counter);
  }

  // ---- What a part brings -------------------------------------------------------------------

  /** The record of what a filling brought is exactly its new rows. */
  ghost predicate Brought(f: Filling, rows: seq<Row>, next: nat) {
    && rows <= f.rows && next <= f.next
    && (forall i | |rows| <= i < |f.rows| :: f.rows[i].uid in f.proposed && f.proposed[f.rows[i].uid] == f.rows[i])
    && (forall u | u in f.proposed :: next <= u < f.next)
  }

  lemma {:induction false} FillBrings(kind: Kind, chs: seq<Channel>, f: Filling, taken: set<nat>, rows: seq<Row>, next: nat)
    requires Brought(f, rows, next)
    ensures Brought(Fill(kind, chs, f, taken), rows, next)
    decreases chs
  {
    if chs != [] {
      FillOneBrings(kind, chs[0], f, taken, rows, next);
      FillBrings(kind, chs[1..], FillOne(kind, chs[0], f, taken), taken, rows, next);
    }
  }

  lemma FillOneBrings(kind: Kind, ch: Channel, f: Filling, taken: set<nat>, rows: seq<Row>, next: nat)
    requires Brought(f, rows, next)
    ensures Brought(FillOne(kind, ch, f, taken), rows, next)
  {
  }

  lemma NewPartBrings(kind: Kind, part: Part, c: Context, rows: seq<Row>, next: nat)
    requires part.uid !in c.before
    ensures var p := PlacePart(kind, part, c, rows, next);
      p.part.uid == part.uid && Brought(Filling(p.rows, [], p.part.proposed, p.next), rows, next)
  {
    if part.driver in c.drivers {
      FillBrings(kind, c.drivers[part.driver], Filling(rows, [], map[], next), Taken(PartsOf(c.next, kind), part.uid), rows, next);
    }
  }

  lemma SideWithNew(kind: Kind, w: Wiring, part: Part, c: Context, rows: seq<Row>, next: nat)
    requires PartUids(w) && c.before == Before(Some(w)) && c.dropping == {}
    ensures var p := PlacePart(kind, part, c, rows, next);
      PlaceParts(kind, PartsOf(w, kind) + [part], c, rows, next) == Side(PartsOf(w, kind) + [p.part], p.rows, p.next)
  {
    var parts := PartsOf(w, kind);
    assert (parts + [part])[..|parts|] == parts;
    SidePlacedSame(kind, w, c, rows, next);
  }

  /** Adding the part: the others stay, it starts from nothing, and the rows it adds
      are the ones it records. */
  lemma Added(d: Draft, counter: nat, drivers: Drivers, kind: Kind, part: Part)
    requires Sound(d, counter) && Allowed(d, Add(kind, part))
    ensures var r := Edited(Reconciliation(d, counter), Add(kind, part), drivers);
      r.draft.wiring.Some? && PartsOf(r.draft.wiring.value, kind) != [] && AddedTo(d, counter, r, kind, part.uid)
  {
    hide PlacePart, Sound, PlaceParts, Dropping, StillLinked, PartMap, KeepRows, PartUids, Kept;
    var w := d.wiring.value;
    var next := WithParts(w, kind, PartsOf(w, kind) + [part]);
    assert PartUids(w) by { SoundUids(d, counter); }
    EditUids(w, Add(kind, part));
    NothingGone(d, next, drivers);
    var c := ContextOf(d, next, drivers);
    NoneDropped(d.metrics, {});
    NoneDropped(d.actuators, {});
    BeforeUids(w);
    NewPartBrings(kind, part, c, RowsOf(d, kind), counter);
    SideWithNew(kind, w, part, c, RowsOf(d, kind), counter);
    var p := PlacePart(kind, part, c, RowsOf(d, kind), counter);
    if kind == Inputs {
      SidePlacedSame(Outputs, w, c, d.actuators, p.next);
    } else {
      SidePlacedSame(Inputs, w, c, d.metrics, counter);
    }
  }

  lemma BeforeUids(w: Wiring)
    requires PartUids(w)
    ensures forall u | u in Before(Some(w)) :: u in UidsOf(w.inputs + w.outputs)
  {
    BeforeIs(w);
    forall u | u in Before(Some(w)) ensures u in UidsOf(w.inputs + w.outputs) {
      assert Before(Some(w))[u] in w.inputs + w.outputs;
    }
  }

  lemma SoundUids(d: Draft, counter: nat)
    requires Sound(d, counter) && d.wiring.Some?
    ensures PartUids(d.wiring.value)
  {
  }

  ghost predicate AddedTo(d: Draft, counter: nat, r: Reconciliation, kind: Kind, uid: nat)
    requires d.wiring.Some? && r.draft.wiring.Some? && PartsOf(r.draft.wiring.value, kind) != []
  {
    var parts := PartsOf(r.draft.wiring.value, kind);
    var part, rows := parts[|parts| - 1], RowsOf(r.draft, kind);
    && part.uid == uid && uid !in UidsOf(d.wiring.value.inputs + d.wiring.value.outputs)
    && r.draft.wiring == Some(WithParts(d.wiring.value, kind, PartsOf(d.wiring.value, kind) + [part]))
    && RowsOf(d, kind) <= rows
    && RowsOf(r.draft, Other(kind)) == RowsOf(d, Other(kind))
    && (forall i | |RowsOf(d, kind)| <= i < |rows| :: rows[i].uid in part.proposed && part.proposed[rows[i].uid] == rows[i])
    && (forall u | u in part.proposed :: counter <= u)
  }

  function Other(kind: Kind): Kind {
    if kind == Inputs then Outputs else Inputs
  }

  // ---- Adding a part and taking it out -------------------------------------------------------

  lemma {:induction false} AllDropped(rows: seq<Row>, dropping: set<nat>)
    requires forall row | row in rows :: row.uid in dropping
    ensures KeepRows(rows, dropping) == []
    decreases rows
  {
    if rows != [] {
      assert rows[0] in rows;
      AllDropped(rows[1..], dropping);
    }
  }

  /** Taking out a part just added drops exactly the rows it brought. */
  lemma AddedDropped(d: Draft, counter: nat, drivers: Drivers, r: Reconciliation, kind: Kind, uid: nat)
    requires Sound(d, counter) && Sound(r.draft, r.next) && d.wiring.Some? && r.draft.wiring.Some?
    requires PartsOf(r.draft.wiring.value, kind) != [] && AddedTo(d, counter, r, kind, uid)
    ensures KeepRows(RowsOf(r.draft, kind), Dropping(r.draft, d.wiring.value, drivers)) == RowsOf(d, kind)
    ensures KeepRows(RowsOf(d, Other(kind)), Dropping(r.draft, d.wiring.value, drivers)) == RowsOf(d, Other(kind))
  {
    var w, dropping := d.wiring.value, Dropping(r.draft, d.wiring.value, drivers);
    var parts, rows := PartsOf(r.draft.wiring.value, kind), RowsOf(r.draft, kind);
    var kept, brought := RowsOf(d, kind), rows[|RowsOf(d, kind)|..];
    assert rows == kept + brought;
    KeepRowsConcat(kept, brought, dropping);
    DroppedAreNew(d, counter, drivers, r, kind, uid);
    forall row | row in kept || row in RowsOf(d, Other(kind)) ensures row.uid !in dropping {
      assert row in AllRows(d);
    }
    NoneDropped(kept, dropping);
    NoneDropped(RowsOf(d, Other(kind)), dropping);
    AllDropped(brought, dropping);
  }

  /** The old parts link only old rows. */
  lemma NewUnlinked(d: Draft, counter: nat, drivers: Drivers, r: Reconciliation, kind: Kind, uid: nat)
    requires Sound(d, counter) && Sound(r.draft, r.next) && d.wiring.Some? && r.draft.wiring.Some?
    requires PartsOf(r.draft.wiring.value, kind) != [] && AddedTo(d, counter, r, kind, uid)
    ensures forall u | u in StillLinked(r.draft, d.wiring.value, drivers) :: u < counter
  {
    var w, v := d.wiring.value, r.draft.wiring.value;
    BeforeIs(v);
    forall side, b, u | b in PartsOf(w, side) && u in LinkedBy(side, b, Before(Some(v)), drivers, r.draft)
      ensures u < counter
    {
      assert b in PartsOf(v, side) && Kept(Before(Some(v)), b);
      assert u in Uids(RowsOf(d, side));
      var row :| row in RowsOf(d, side) && row.uid == u;
      assert row in AllRows(d);
    }
    forall u | u in StillLinked(r.draft, w, drivers) ensures u < counter {
      if b :| b in w.inputs && u in LinkedBy(Inputs, b, Before(Some(v)), drivers, r.draft) {
        assert b in PartsOf(w, Inputs);
      } else {
        var b :| b in w.outputs && u in LinkedBy(Outputs, b, Before(Some(v)), drivers, r.draft);
        assert b in PartsOf(w, Outputs);
      }
    }
  }

  /** Of the parts after the edit, only the added one was not there before. */
  lemma OnlyAddedGoes(d: Draft, counter: nat, r: Reconciliation, kind: Kind, uid: nat, b: Part)
    requires Sound(d, counter) && Sound(r.draft, r.next) && d.wiring.Some? && r.draft.wiring.Some?
    requires PartsOf(r.draft.wiring.value, kind) != [] && AddedTo(d, counter, r, kind, uid)
    requires b in Before(r.draft.wiring).Values
    ensures Kept(Before(d.wiring), b) <==> b != PartsOf(r.draft.wiring.value, kind)[|PartsOf(d.wiring.value, kind)|]
  {
    var w, v := d.wiring.value, r.draft.wiring.value;
    BeforeIs(w);
    BeforeUids(w);
    BeforeIs(v);
    var u :| u in Before(Some(v)) && Before(Some(v))[u] == b;
    assert b in PartsOf(v, Inputs) || b in PartsOf(v, Outputs);
    if b != PartsOf(v, kind)[|PartsOf(w, kind)|] {
      assert b in PartsOf(w, Inputs) || b in PartsOf(w, Outputs);
    }
  }

  lemma DroppedAreNew(d: Draft, counter: nat, drivers: Drivers, r: Reconciliation, kind: Kind, uid: nat)
    requires Sound(d, counter) && Sound(r.draft, r.next) && d.wiring.Some? && r.draft.wiring.Some?
    requires PartsOf(r.draft.wiring.value, kind) != [] && AddedTo(d, counter, r, kind, uid)
    ensures forall u | u in Dropping(r.draft, d.wiring.value, drivers) :: counter <= u
    ensures forall row | row in RowsOf(r.draft, kind)[|RowsOf(d, kind)|..] :: row.uid in Dropping(r.draft, d.wiring.value, drivers)
  {
    var w, v := d.wiring.value, r.draft.wiring.value;
    var rows, n := RowsOf(r.draft, kind), |RowsOf(d, kind)|;
    var part := PartsOf(v, kind)[|PartsOf(w, kind)|];
    NewUnlinked(d, counter, drivers, r, kind, uid);
    forall u | u in Dropping(r.draft, w, drivers) ensures counter <= u {
      var b :| b in Before(Some(v)).Values && !Kept(PartMap(w.inputs + w.outputs), b) && u in b.proposed;
      OnlyAddedGoes(d, counter, r, kind, uid, b);
    }
    BeforeIs(v);
    assert part in PartsOf(v, kind);
    assert Before(Some(v))[part.uid] == part && part in Before(Some(v)).Values;
    OnlyAddedGoes(d, counter, r, kind, uid, part);
    forall row | row in rows[n..]
      ensures row.uid in Dropping(r.draft, w, drivers)
    {
      var i :| n <= i < |rows| && rows[i] == row;
      assert row in AllRows(r.draft);
      assert ProposedBy(part, row, w);
      DroppedExactly(r.draft, w, drivers, row);
    }
  }

  /** Adding a part and taking it out again gives back the template as it was: rows,
      links and all. */
  lemma AddThenRemove(d: Draft, counter: nat, drivers: Drivers, kind: Kind, part: Part)
    requires Sound(d, counter) && Allowed(d, Add(kind, part))
    ensures var w := d.wiring.value;
      Edited(Edited(Reconciliation(d, counter), Add(kind, part), drivers), Remove(kind, |PartsOf(w, kind)|), drivers).draft == d
  {
    hide Sound, ReconciledTo, PartUids;
    var w := d.wiring.value;
    var r := Edited(Reconciliation(d, counter), Add(kind, part), drivers);
    EditSound(Reconciliation(d, counter), Add(kind, part), drivers);
    Added(d, counter, drivers, kind, part);
    var v := r.draft.wiring.value;
    var n := |PartsOf(w, kind)|;
    assert EditedParts(PartsOf(v, kind), Remove(kind, n)) == PartsOf(w, kind);
    assert WithParts(v, kind, PartsOf(w, kind)) == w;
    OldPlaced(d, counter, drivers, r, kind, part.uid);
  }

  /** With the added part gone, the old parts stand as they stood. */
  lemma OldPlaced(d: Draft, counter: nat, drivers: Drivers, r: Reconciliation, kind: Kind, uid: nat)
    requires Sound(d, counter) && Sound(r.draft, r.next) && d.wiring.Some? && r.draft.wiring.Some?
    requires PartsOf(r.draft.wiring.value, kind) != [] && AddedTo(d, counter, r, kind, uid)
    ensures ReconciledTo(r.draft, d.wiring.value, drivers, r.next).draft == d
  {
    hide Sound, Dropping, StillLinked, PlacePart;
    var w, v := d.wiring.value, r.draft.wiring.value;
    var c := ContextOf(r.draft, w, drivers);
    AddedDropped(d, counter, drivers, r, kind, uid);
    OldSide(d, counter, drivers, r, kind, uid, Inputs, d.metrics, r.next);
    OldSide(d, counter, drivers, r, kind, uid, Outputs, d.actuators, r.next);
  }

  lemma OldSide(d: Draft, counter: nat, drivers: Drivers, r: Reconciliation, kind: Kind, uid: nat, side: Kind, rows: seq<Row>, next: nat)
    requires Sound(d, counter) && Sound(r.draft, r.next) && d.wiring.Some? && r.draft.wiring.Some?
    requires PartsOf(r.draft.wiring.value, kind) != [] && AddedTo(d, counter, r, kind, uid)
    ensures PlaceParts(side, PartsOf(d.wiring.value, side), ContextOf(r.draft, d.wiring.value, drivers), rows, next) == Side(PartsOf(d.wiring.value, side), rows, next)
  {
    hide Sound, Dropping, StillLinked, PlaceParts, PlacePart, PartMap;
    var w, v := d.wiring.value, r.draft.wiring.value;
    SoundUids(r.draft, r.next);
    BeforeIs(v);
    forall b | b in PartsOf(w, side) ensures Kept(Before(Some(v)), b) {
      assert b in PartsOf(v, side);
    }
    KeptPlaced(side, r.draft, w, drivers, rows, next);
  }

  /** Parts that all stand leave their side as it is. */
  lemma KeptPlaced(side: Kind, d: Draft, next: Wiring, drivers: Drivers, rows: seq<Row>, counter: nat)
    requires forall b | b in PartsOf(next, side) :: Kept(Before(d.wiring), b)
    ensures PlaceParts(side, PartsOf(next, side), ContextOf(d, next, drivers), rows, counter) == Side(PartsOf(next, side), rows, counter)
  {
    hide Dropping, StillLinked, PlaceParts, PlacePart, Before, Refs;
    var parts, c := PartsOf(next, side), ContextOf(d, next, drivers);
    PlacedRows(side, parts, c, rows, counter, |parts|);
    forall i | 0 <= i < |parts|
      ensures PlaceParts(side, parts, c, rows, counter).parts[i] == parts[i]
    {
      StillLinkedHas(d, next, drivers, side, parts[i]);
      PlacedKept(side, parts, c, rows, counter, i);
    }
  }
}
