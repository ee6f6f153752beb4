/** Which row each reading of a part ends up with, and what choosing a reading and
    dropping it again leaves. */
module PartReadings {
  import opened Wrappers
  import opened Text
  import opened FreeKey
  import opened PartLinks
  import opened TemplateParts
  import opened PartsSound
  import opened PartEdits
  import opened PartRuns
  import opened PartUndo

  // ---- The channels of a fresh part -----------------------------------------------------------

  /** A row with the channel's type, under its key or its key with a number. */
  ghost predicate Suits(kind: Kind, ch: Channel, rows: seq<Row>, u: nat) {
    exists row :: row in rows && row.uid == u && row.typ == TypeOf(kind, ch) && exists k: nat :: k >= 1 && Trim(row.key) == Trim(Candidate(ch.stem, k))
  }

  lemma FillOneLinks(kind: Kind, ch: Channel, f: Filling, taken: set<nat>)
    requires Trim(ch.stem) == ch.stem && Get(f.links, ch.key).None?
    ensures var r := FillOne(kind, ch, f, taken);
      Get(r.links, ch.key).Some? == ch.common && (ch.common ==> Suits(kind, ch, r.rows, Get(r.links, ch.key).value))
  {
    var r := FillOne(kind, ch, f, taken);
    var free := FirstFree(f.rows, ch.stem, TypeOf(kind, ch), taken + Refs(f.links));
    GetPut(f.links, ch.key, None, ch.key);
    GetPut(f.links, ch.key, free, ch.key);
    GetPut(f.links, ch.key, Some(f.next), ch.key);
    assert Candidate(ch.stem, 1) == ch.stem;
    if ch.common && free.None? {
      var row := NewRow(kind, ch, f.rows, f.next);
      assert row in r.rows;
      assert row.key == Candidate(ch.stem, SearchFrom(ch.stem, Keys(f.rows), 1));
    }
  }

  /** Filling leaves every channel linked that was, links every other common one to a
      row that suits it, and leaves the uncommon ones unlinked. */
  lemma {:induction false} FillLinks(kind: Kind, chs: seq<Channel>, f: Filling, taken: set<nat>, k: nat)
    requires k < |chs| && Trim(chs[k].stem) == chs[k].stem
    requires forall i, j | 0 <= i < j < |chs| :: chs[i].key != chs[j].key
    ensures var r := Fill(kind, chs, f, taken);
      var ref := Get(r.links, chs[k].key);
      if Get(f.links, chs[k].key).Some? then ref == Get(f.links, chs[k].key)
      else ref.Some? == chs[k].common && (chs[k].common ==> Suits(kind, chs[k], r.rows, ref.value))
    decreases chs
  {
    var one, key := FillOne(kind, chs[0], f, taken), chs[k].key;
    FillGrows(kind, chs[1..], one, taken);
    if k > 0 {
      FillOneOthers(kind, chs[0], f, taken, key);
      assert forall i, j | 0 <= i < j < |chs[1..]| :: chs[1..][i].key != chs[1..][j].key;
      FillLinks(kind, chs[1..], one, taken, k - 1);
    } else {
      if Get(f.links, key).Some? {
        FillOneOthers(kind, chs[0], f, taken, key);
      } else {
        FillOneLinks(kind, chs[0], f, taken);
      }
      forall ch | ch in chs[1..] ensures ch.key != key {
        var i :| 0 <= i < |chs[1..]| && chs[1..][i] == ch;
        assert chs[i + 1] == ch;
      }
      FillOthers(kind, chs[1..], one, taken, key);
    }
  }

  /** What a fresh part's channel ends up with: the link it takes over from its old
      part, else, if it is a common one, a row that suits it. */
  lemma PlacedLinks(kind: Kind, b: Part, c: Context, rows: seq<Row>, next: nat, k: nat)
    requires !Kept(c.before, b) && b.driver in c.drivers && k < |c.drivers[b.driver]|
    requires var chs := c.drivers[b.driver]; Trim(chs[k].stem) == chs[k].stem && forall i, j | 0 <= i < j < |chs| :: chs[i].key != chs[j].key
    ensures var p, ch := PlacePart(kind, b, c, rows, next), c.drivers[b.driver][k];
      var carried, ref := Get(Carried(kind, b, c.before, c.drivers, c.prev), ch.key), Get(p.part.channels, ch.key);
      if carried.Some? then ref == carried else ref.Some? == ch.common && (ch.common ==> Suits(kind, ch, p.rows, ref.value))
  {
    var carried := Carried(kind, b, c.before, c.drivers, c.prev);
    FillLinks(kind, c.drivers[b.driver], Filling(rows, carried, CarriedProposals(b, c.before, carried), next), Taken(PartsOf(c.next, kind), b.uid), k);
  }

  /** A part replaced by one that also has a reading keeps that reading's row. */
  lemma ReplacedKeepsReading(kind: Kind, b: Part, c: Context, rows: seq<Row>, next: nat, k: nat)
    requires b.uid in c.before && c.before[b.uid].driver != b.driver && b.driver in c.drivers && k < |c.drivers[b.driver]|
    requires Once(c.before[b.uid].channels) && Get(c.before[b.uid].channels, c.drivers[b.driver][k].key).Some?
    ensures var key := c.drivers[b.driver][k].key;
      Get(PlacePart(kind, b, c, rows, next).part.channels, key) == Get(c.before[b.uid].channels, key)
  {
    var was, chs := c.before[b.uid].channels, c.drivers[b.driver];
    SameKeyCarried(kind, was, chs, RowsOf(c.prev, kind), chs[k]);
    var carried := Carried(kind, b, c.before, c.drivers, c.prev);
    FillOthers(kind, chs, Filling(rows, carried, CarriedProposals(b, c.before, carried), next), Taken(PartsOf(c.next, kind), b.uid), chs[k].key);
  }

  // ---- Keeping a reading and dropping it ------------------------------------------------------------

  lemma {:induction false} PutBack(links: Links, key: string, ref: Option<nat>)
    requires Get(links, key).None? && exists i :: 0 <= i < |links| && links[i].0 == key
    ensures Put(Put(links, key, ref), key, None) == links
  {
    if links[0].0 == key {
      assert Put(links, key, ref)[1..] == links[1..];
    } else {
      var i :| 0 <= i < |links| && links[i].0 == key;
      assert links[1..][i - 1].0 == key;
      PutBack(links[1..], key, ref);
      assert Put(links, key, ref)[1..] == Put(links[1..], key, ref);
    }
  }

  lemma {:induction false} RelinkedTwice(parts: seq<Part>, uid: nat, channel: string, b: Part, ref: Option<nat>, proposed: map<nat, Row>)
    requires forall o | o in parts && o.uid == uid :: o == b
    requires Get(b.channels, channel).None? && exists i :: 0 <= i < |b.channels| && b.channels[i].0 == channel
    ensures Relinked(Relinked(parts, uid, channel, ref, proposed), uid, channel, None, b.proposed) == parts
    decreases parts
  {
    if parts != [] {
      RelinkedTwice(parts[1..], uid, channel, b, ref, proposed);
      assert parts[0] in parts;
      if parts[0].uid == uid { PutBack(b.channels, channel, ref); }
      var once := Relinked(parts, uid, channel, ref, proposed);
      assert once[1..] == Relinked(parts[1..], uid, channel, ref, proposed);
      assert Relinked(once, uid, channel, None, b.proposed) == [parts[0]] + parts[1..];
    }
  }

  lemma FindPartIs(parts: seq<Part>, b: Part)
    requires DistinctParts(parts) && b in parts
    ensures FindPart(parts, b.uid) == Some(b)
  {
    FindsPart(parts, b.uid, b);
    var found := FindPart(parts, b.uid).value;
    var i :| 0 <= i < |parts| && parts[i] == b;
    var j :| 0 <= j < |parts| && parts[j] == found;
  }

  lemma {:induction false} FindsPart(parts: seq<Part>, uid: nat, b: Part)
    requires b in parts && b.uid == uid
    ensures FindPart(parts, uid).Some?
    decreases parts
  {
    if parts[0].uid != uid {
      FindsPart(parts[1..], uid, b);
    }
  }

  lemma {:induction false} TakenRelinked(parts: seq<Part>, uid: nat, channel: string, ref: Option<nat>, proposed: map<nat, Row>)
    ensures Taken(Relinked(parts, uid, channel, ref, proposed), uid) == Taken(parts, uid)
    decreases parts
  {
    if parts != [] {
      TakenRelinked(parts[1..], uid, channel, ref, proposed);
      assert Relinked(parts, uid, channel, ref, proposed)[1..] == Relinked(parts[1..], uid, channel, ref, proposed);
    }
  }

  lemma {:induction false} TakenLinked(parts: seq<Part>, uid: nat)
    ensures Taken(parts, uid) <= LinkedRows(parts)
    decreases parts
  {
    if parts != [] {
      TakenLinked(parts[1..], uid);
    }
  }

  /** The draft with a reading linked, and its part's record of proposals. */
  function Linked(d: Draft, b: Part, channel: string, u: nat, proposed: map<nat, Row>, rows: seq<Row>): Draft
    requires d.wiring.Some?
  {
    var w := d.wiring.value;
    Draft(rows, d.actuators, Some(w.(inputs := Relinked(w.inputs, b.uid, channel, Some(u), proposed))))
  }

  lemma LinkedReading(d: Draft, b: Part, ch: Channel, channel: string, u: nat, proposed: map<nat, Row>, rows: seq<Row>, drivers: Drivers)
    requires d.wiring.Some? && DistinctParts(d.wiring.value.inputs) && Reading(d, b.uid, channel, drivers) == Some((b, ch))
    ensures Reading(Linked(d, b, channel, u, proposed, rows), b.uid, channel, drivers)
         == Some((b.(channels := Put(b.channels, channel, Some(u)), proposed := proposed), ch))
  {
    var parts := d.wiring.value.inputs;
    var now := Relinked(parts, b.uid, channel, Some(u), proposed);
    forall i | 0 <= i < |parts|
      ensures now[i] == if parts[i].uid == b.uid then parts[i].(channels := Put(parts[i].channels, channel, Some(u)), proposed := proposed) else parts[i]
    {
      RelinkedAt(parts, b.uid, channel, Some(u), proposed, i);
    }
    var k :| 0 <= k < |parts| && parts[k] == b;
    assert now[k] in now;
    FindPartIs(now, now[k]);
  }

  /** Dropping the reading just linked. */
  lemma DropLinked(d: Draft, b: Part, ch: Channel, channel: string, u: nat, proposed: map<nat, Row>, rows: seq<Row>, drivers: Drivers, n: nat)
    requires d.wiring.Some? && DistinctParts(d.wiring.value.inputs) && Reading(d, b.uid, channel, drivers) == Some((b, ch))
    requires Get(b.channels, channel).None? && exists i :: 0 <= i < |b.channels| && b.channels[i].0 == channel
    requires (if u in proposed && FindRow(rows, u) == Some(proposed[u]) then proposed - {u} else proposed) == b.proposed
    ensures KeepReading(Linked(d, b, channel, u, proposed, rows), b.uid, channel, false, drivers, n).draft
         == d.(metrics := if u in proposed && FindRow(rows, u) == Some(proposed[u]) && u !in Taken(d.wiring.value.inputs, b.uid) then KeepRows(rows, {u}) else rows)
  {
    hide FirstFree, NewRow;
    var parts := d.wiring.value.inputs;
    LinkedReading(d, b, ch, channel, u, proposed, rows, drivers);
    GetPut(b.channels, channel, Some(u), channel);
    TakenRelinked(parts, b.uid, channel, Some(u), proposed);
    forall o | o in parts && o.uid == b.uid ensures o == b {
      FindPartIs(parts, o);
    }
    RelinkedTwice(parts, b.uid, channel, b, Some(u), proposed);
  }

  /** Dropping a reading whose row is an untouched proposal takes the row out. */
  lemma DropTakesRow(d: Draft, counter: nat, b: Part, ch: Channel, channel: string, u: nat, drivers: Drivers)
    requires Sound(d, counter) && d.wiring.Some? && Reading(d, b.uid, channel, drivers) == Some((b, ch))
    requires u in b.proposed && FindRow(d.metrics, u) == Some(b.proposed[u]) && u !in LinkedRows(d.wiring.value.inputs)
    ensures KeepReading(Linked(d, b, channel, u, b.proposed, d.metrics), b.uid, channel, false, drivers, counter).draft.metrics != d.metrics
  {
    var parts := d.wiring.value.inputs;
    UidsSplit(d.wiring.value);
    LinkedReading(d, b, ch, channel, u, b.proposed, d.metrics, drivers);
    GetPut(b.channels, channel, Some(u), channel);
    TakenRelinked(parts, b.uid, channel, Some(u), b.proposed);
    TakenLinked(parts, b.uid);
    KeptRows(d.metrics, {u});
    assert FindRow(d.metrics, u).value in d.metrics;
  }

  /** The row a reading would be linked to is a proposal of its own part, free and
      untouched. */
  predicate TakesOwnProposal(d: Draft, b: Part, ch: Channel)
    requires d.wiring.Some?
  {
    var free := FirstFree(d.metrics, ch.stem, TypeOf(Inputs, ch), LinkedRows(d.wiring.value.inputs));
    free.Some? && free.value in b.proposed && FindRow(d.metrics, free.value) == Some(b.proposed[free.value])
  }

  lemma NewReadingDropped(d: Draft, counter: nat, b: Part, ch: Channel, channel: string, drivers: Drivers)
    requires Sound(d, counter) && d.wiring.Some? && Reading(d, b.uid, channel, drivers) == Some((b, ch))
    requires Get(b.channels, channel).None? && exists i :: 0 <= i < |b.channels| && b.channels[i].0 == channel
    requires forall u | u in b.proposed :: u < counter
    ensures var row := NewRow(Inputs, ch, d.metrics, counter);
      KeepReading(Linked(d, b, channel, counter, b.proposed[counter := row], d.metrics + [row]), b.uid, channel, false, drivers, counter + 1).draft == d
  {
    hide KeepReading, FirstFree, Reading, FindRow, KeepRows, Sound, FreeKeyOf;
    var row := NewRow(Inputs, ch, d.metrics, counter);
    NewRowDropped(d, counter, b.uid, row);
    assert b.proposed[counter := row] - {counter} == b.proposed;
    DropLinked(d, b, ch, channel, counter, b.proposed[counter := row], d.metrics + [row], drivers, counter + 1);
  }

  lemma NewRowDropped(d: Draft, counter: nat, uid: nat, row: Row)
    requires Sound(d, counter) && d.wiring.Some? && row.uid == counter
    ensures FindRow(d.metrics + [row], counter) == Some(row) && KeepRows(d.metrics + [row], {counter}) == d.metrics
    ensures DistinctParts(d.wiring.value.inputs) && counter !in Taken(d.wiring.value.inputs, uid)
  {
    var w := d.wiring.value;
    UidsSplit(w);
    SplitRows(d, counter);
    assert (d.metrics + [row])[|d.metrics|] == row;
    FindsRow(d.metrics + [row], row);
    TakenLinked(w.inputs, uid);
    LinkedRowsIn(w.inputs, d.metrics);
    KeepRowsConcat(d.metrics, [row], {counter});
    NoneDropped(d.metrics, {counter});
    AllDropped([row], {counter});
  }

  /** Keeping a reading the part has unlinked, and dropping it again, gives back the
      template exactly when the reading was not linked to an old, untouched proposal
      of the part itself: that row goes with the reading. */
  lemma DropUndoesKeep(d: Draft, counter: nat, b: Part, ch: Channel, channel: string, drivers: Drivers)
    requires Sound(d, counter) && Reading(d, b.uid, channel, drivers) == Some((b, ch))
    requires Get(b.channels, channel).None? && exists i :: 0 <= i < |b.channels| && b.channels[i].0 == channel
    requires forall u | u in b.proposed :: u < counter
    ensures var r := KeepReading(d, b.uid, channel, true, drivers, counter);
      KeepReading(r.draft, b.uid, channel, false, drivers, r.next).draft == d <==> !TakesOwnProposal(d, b, ch)
  {
    var w := d.wiring.value;
    var free := FirstFree(d.metrics, ch.stem, TypeOf(Inputs, ch), LinkedRows(w.inputs));
    UidsSplit(w);
    if free.None? {
      NewReadingDropped(d, counter, b, ch, channel, drivers);
    } else if TakesOwnProposal(d, b, ch) {
      DropTakesRow(d, counter, b, ch, channel, free.value, drivers);
    } else {
      DropLinked(d, b, ch, channel, free.value, b.proposed, d.metrics, drivers, counter);
    }
  }

  /** A row as a draft's only metric, proposed by its only part. */
  function OneReading(driver: string, ch: Channel, row: Row, shown: Row, linked: bool): Draft {
    var part := Part(1, driver, [(ch.key, if linked then Some(row.uid) else None)], map[row.uid := row]);
    Draft([shown], [], Some(Wiring([part], [])))
  }

  /** Dropping the reading of an edited row leaves the row, and the record of it. */
  lemma EditedIsKept(driver: string, ch: Channel, row: Row, edited: Row)
    requires row.uid == edited.uid == 0 && row != edited
    ensures KeepReading(OneReading(driver, ch, row, edited, true), 1, ch.key, false, map[driver := [ch]], 1).draft == OneReading(driver, ch, row, edited, false)
  {
    hide FirstFree, NewRow;
    var was := OneReading(driver, ch, row, edited, true);
    assert FindChannel([ch], ch.key) == Some(ch);
    OneRelinked(was.wiring.value.inputs[0], ch.key, None, map[0 := row]);
    assert Put([(ch.key, Some(0 as nat))], ch.key, None) == [(ch.key, None)];
  }

  lemma OneSound(driver: string, ch: Channel, row: Row)
    requires row.uid == 0
    ensures Sound(OneReading(driver, ch, row, row, false), 1)
  {
    assert [row] + [] == [row] && Uids([row]) == {0};
  }

  /** The one reading of the one part, unlinked. */
  lemma OneUnlinked(driver: string, ch: Channel, row: Row)
    ensures var d := OneReading(driver, ch, row, row, false);
      var b := d.wiring.value.inputs[0];
      && Reading(d, 1, ch.key, map[driver := [ch]]) == Some((b, ch))
      && Get(b.channels, ch.key).None? && b.channels[0].0 == ch.key && LinkedRows([b]) == {}
  {
    var b := OneReading(driver, ch, row, row, false).wiring.value.inputs[0];
    assert FindChannel([ch], ch.key) == Some(ch);
    assert b.channels == [(ch.key, None)] && b.channels[1..] == [];
    assert Refs(b.channels) == {} && [b][1..] == [];
    assert LinkedRows([b]) == Refs(b.channels) + LinkedRows([b][1..]) == {};
  }

  lemma OneTaken(driver: string, ch: Channel, row: Row)
    requires row.uid == 0 && Trim(row.key) == ch.stem && row.typ == TypeOf(Inputs, ch)
    ensures TakesOwnProposal(OneReading(driver, ch, row, row, false), OneReading(driver, ch, row, row, false).wiring.value.inputs[0], ch)
  {
    OneUnlinked(driver, ch, row);
    hide LinkedRows, Reading;
    assert FirstFree([row], ch.stem, TypeOf(Inputs, ch), {}) == Some(0);
    assert FindRow([row], 0) == Some(row);
  }

  /** Once the row is edited back, keeping the reading and dropping it takes it out. */
  lemma BackIsLost(driver: string, ch: Channel, row: Row)
    requires row.uid == 0 && Trim(row.key) == ch.stem && row.typ == TypeOf(Inputs, ch)
    ensures var drivers, d := map[driver := [ch]], OneReading(driver, ch, row, row, false);
      KeepReading(KeepReading(d, 1, ch.key, true, drivers, 1).draft, 1, ch.key, false, drivers, 1).draft != d
  {
    var drivers, d := map[driver := [ch]], OneReading(driver, ch, row, row, false);
    OneSound(driver, ch, row);
    OneUnlinked(driver, ch, row);
    OneTaken(driver, ch, row);
    OneCounter(driver, ch, row);
    var b := d.wiring.value.inputs[0];
    hide KeepReading, Sound, Reading, Get, TakesOwnProposal;
    DropUndoesKeep(d, 1, b, ch, ch.key, drivers);
  }

  /** It finds its own row, and counts no new one. */
  lemma OneCounter(driver: string, ch: Channel, row: Row)
    requires row.uid == 0 && Trim(row.key) == ch.stem && row.typ == TypeOf(Inputs, ch)
    ensures KeepReading(OneReading(driver, ch, row, row, false), 1, ch.key, true, map[driver := [ch]], 1).next == 1
  {
    OneUnlinked(driver, ch, row);
    OneTaken(driver, ch, row);
    hide LinkedRows, Reading, FirstFree, NewRow, FindRow;
  }

  /** And that happens: a proposed row is edited, its reading dropped, the row edited
      back. The row stayed, with the part's record of it; keeping the reading links it
      again, and dropping it now takes it out. */
  lemma EditedBackIsLost(driver: string, ch: Channel, row: Row, edited: Row)
    requires row.uid == edited.uid == 0 && row != edited && Trim(row.key) == ch.stem && row.typ == TypeOf(Inputs, ch)
    ensures var drivers, d := map[driver := [ch]], OneReading(driver, ch, row, row, false);
      && KeepReading(OneReading(driver, ch, row, edited, true), 1, ch.key, false, drivers, 1).draft == OneReading(driver, ch, row, edited, false)
      && KeepReading(KeepReading(d, 1, ch.key, true, drivers, 1).draft, 1, ch.key, false, drivers, 1).draft != d
  {
    hide *;
    EditedIsKept(driver, ch, row, edited);
    BackIsLost(driver, ch, row);
  }

  lemma OneRelinked(b: Part, channel: string, ref: Option<nat>, proposed: map<nat, Row>)
    ensures Relinked([b], b.uid, channel, ref, proposed) == [b.(channels := Put(b.channels, channel, ref), proposed := proposed)]
  {
    assert [b][1..] == [];
  }
}
