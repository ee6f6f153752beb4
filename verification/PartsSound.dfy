/** What editing a template's parts keeps: every link names a row, no row is linked
    twice, uids stay unique, new keys are free, and rows go exactly when nothing
    needs them. */
module PartsSound {
  import opened Wrappers
  import opened Text
  import opened FreeKey
  import opened PartLinks
  import opened TemplateParts

  // ---- The invariant ----------------------------------------------------------------------

  ghost predicate DistinctUids(rows: seq<Row>) {
    forall i, j | 0 <= i < j < |rows| :: rows[i].uid != rows[j].uid
  }

  ghost predicate Below(rows: seq<Row>, next: nat) {
    forall row | row in rows :: row.uid < next
  }

  /** No two parts link the same row. */
  ghost predicate Apart(parts: seq<Part>) {
    forall i, j | 0 <= i < j < |parts| :: Refs(parts[i].channels) !! Refs(parts[j].channels)
  }

  ghost predicate SideSound(parts: seq<Part>, rows: seq<Row>) {
    && Apart(parts)
    && forall b | b in parts :: Once(b.channels) && Refs(b.channels) <= Uids(rows)
  }

  ghost predicate PartUids(w: Wiring) {
    var all := w.inputs + w.outputs;
    forall i, j | 0 <= i < j < |all| :: all[i].uid != all[j].uid
  }

  ghost predicate Sound(d: Draft, next: nat) {
    && DistinctUids(AllRows(d)) && Below(AllRows(d), next)
    && (d.wiring.Some? ==> PartUids(d.wiring.value) && SideSound(d.wiring.value.inputs, d.metrics) && SideSound(d.wiring.value.outputs, d.actuators))
  }

  // ---- Filling channels ---------------------------------------------------------------------

  /** What holds while a part's channels fill, `taken` being the other parts' rows. */
  ghost predicate Filled(f: Filling, taken: set<nat>) {
    && Once(f.links) && Refs(f.links) <= Uids(f.rows) && Refs(f.links) !! taken
    && DistinctUids(f.rows) && Below(f.rows, f.next) && forall u | u in taken :: u < f.next
  }

  /** The rows only grow: by rows with new uids, under keys free then and not reserved. */
  ghost predicate Grows(rows: seq<Row>, next: nat, more: seq<Row>, after: nat) {
    && rows <= more && next <= after
    && forall i | |rows| <= i < |more| :: next <= more[i].uid < after && NewKey(more, i)
  }

  ghost predicate NewKey(rows: seq<Row>, i: nat)
    requires i < |rows|
  {
    rows[i].key !in RESERVED && forall j | 0 <= j < i :: Trim(rows[j].key) != rows[i].key
  }

  lemma GrowsTwice(a: seq<Row>, m: nat, b: seq<Row>, n: nat, c: seq<Row>, o: nat)
    requires Grows(a, m, b, n) && Grows(b, n, c, o)
    ensures Grows(a, m, c, o)
  {
    forall i | |a| <= i < |c|
      ensures m <= c[i].uid < o && NewKey(c, i)
    {
      if i < |b| {
        assert NewKey(b, i);
        assert c[i] == b[i];
        assert forall j | 0 <= j < i :: c[j] == b[j];
      }
    }
  }

  lemma NewRowKey(kind: Kind, ch: Channel, rows: seq<Row>, uid: nat)
    ensures NewKey(rows + [NewRow(kind, ch, rows, uid)], |rows|)
  {
    var more := rows + [NewRow(kind, ch, rows, uid)];
    forall j | 0 <= j < |rows| ensures Trim(more[j].key) != more[|rows|].key {
      assert more[j] == rows[j] && Trim(rows[j].key) in Keys(rows);
    }
  }

  lemma FillOneGrows(kind: Kind, ch: Channel, f: Filling, taken: set<nat>)
    ensures var r := FillOne(kind, ch, f, taken); Grows(f.rows, f.next, r.rows, r.next)
  {
    NewRowKey(kind, ch, f.rows, f.next);
  }

  lemma {:induction false} FillGrows(kind: Kind, chs: seq<Channel>, f: Filling, taken: set<nat>)
    ensures var r := Fill(kind, chs, f, taken); Grows(f.rows, f.next, r.rows, r.next)
    decreases chs
  {
    if chs != [] {
      var one := FillOne(kind, chs[0], f, taken);
      FillOneGrows(kind, chs[0], f, taken);
      FillGrows(kind, chs[1..], one, taken);
      var r := Fill(kind, chs, f, taken);
      GrowsTwice(f.rows, f.next, one.rows, one.next, r.rows, r.next);
    }
  }

  /** Linking a row that is there and nobody has. */
  lemma LinkFilled(f: Filling, taken: set<nat>, key: string, ref: Option<nat>)
    requires Filled(f, taken) && Get(f.links, key).None?
    requires ref.Some? ==> ref.value in Uids(f.rows) && ref.value !in taken && ref.value !in Refs(f.links)
    ensures Filled(f.(links := Put(f.links, key, ref)), taken)
  {
    hide DistinctUids, Once, Put;
    PutRefs(f.links, key, ref);
  }

  /** Adding a new row. */
  lemma RowFilled(f: Filling, taken: set<nat>, row: Row, proposed: map<nat, Row>)
    requires Filled(f, taken) && row.uid == f.next
    ensures Filled(Filling(f.rows + [row], f.links, proposed, f.next + 1), taken)
    ensures f.next in Uids(f.rows + [row]) && f.next !in taken && f.next !in Refs(f.links)
  {
    hide Once;
    assert (f.rows + [row])[|f.rows|] == row;
    assert Uids(f.rows + [row]) == Uids(f.rows) + {f.next};
  }

  lemma FillOneFilled(kind: Kind, ch: Channel, f: Filling, taken: set<nat>)
    requires Filled(f, taken)
    ensures Filled(FillOne(kind, ch, f, taken), taken)
  {
    if Get(f.links, ch.key).None? {
      var free := FirstFree(f.rows, ch.stem, TypeOf(kind, ch), taken + Refs(f.links));
      var row := NewRow(kind, ch, f.rows, f.next);
      hide Filled, Put, Get, Refs;
      if !ch.common {
        LinkFilled(f, taken, ch.key, None);
      } else if free.Some? {
        LinkFilled(f, taken, ch.key, free);
      } else {
        RowFilled(f, taken, row, f.proposed[f.next := row]);
        LinkFilled(Filling(f.rows + [row], f.links, f.proposed[f.next := row], f.next + 1), taken, ch.key, Some(f.next));
      }
    }
  }

  lemma {:induction false} FillFilled(kind: Kind, chs: seq<Channel>, f: Filling, taken: set<nat>)
    requires Filled(f, taken)
    ensures Filled(Fill(kind, chs, f, taken), taken)
    decreases chs
  {
    if chs != [] {
      FillOneFilled(kind, chs[0], f, taken);
      FillFilled(kind, chs[1..], FillOne(kind, chs[0], f, taken), taken);
    }
  }

  lemma FillOneOthers(kind: Kind, ch: Channel, f: Filling, taken: set<nat>, key: string)
    requires key != ch.key || Get(f.links, key).Some?
    ensures Get(FillOne(kind, ch, f, taken).links, key) == Get(f.links, key)
  {
    GetPut(f.links, ch.key, None, key);
    GetPut(f.links, ch.key, FirstFree(f.rows, ch.stem, TypeOf(kind, ch), taken + Refs(f.links)), key);
    GetPut(f.links, ch.key, Some(f.next), key);
  }

  lemma {:induction false} FillOthers(kind: Kind, chs: seq<Channel>, f: Filling, taken: set<nat>, key: string)
    requires Get(f.links, key).Some? || forall ch | ch in chs :: ch.key != key
    ensures Get(Fill(kind, chs, f, taken).links, key) == Get(f.links, key)
    decreases chs
  {
    if chs != [] {
      FillOneOthers(kind, chs[0], f, taken, key);
      FillOthers(kind, chs[1..], FillOne(kind, chs[0], f, taken), taken, key);
    }
  }

  // ---- Where a link comes from ---------------------------------------------------------------

  /** A row the channel takes when it is free. */
  predicate Found(kind: Kind, ch: Channel, row: Row) {
    row.typ == TypeOf(kind, ch) && Trim(row.key) == ch.stem
  }

  /** A row such as the channel proposes. */
  ghost predicate Made(kind: Kind, ch: Channel, row: Row) {
    row.typ == TypeOf(kind, ch) && exists k: nat :: k >= 1 && row.key == Candidate(ch.stem, k)
  }

  /** A link that was there, or one a common channel had none and got: to a row found
      or, from `next` on, made. */
  ghost predicate Origin(kind: Kind, chs: seq<Channel>, links: Links, next: nat, r: Filling, u: nat) {
    u in Refs(links) || exists ch, row :: ch in chs && Got(kind, ch, row, links, next, r, u)
  }

  ghost predicate Got(kind: Kind, ch: Channel, row: Row, links: Links, next: nat, r: Filling, u: nat) {
    && ch.common && Get(links, ch.key).None? && Get(r.links, ch.key) == Some(u)
    && row in r.rows && row.uid == u && (Found(kind, ch, row) || (u >= next && Made(kind, ch, row)))
  }

  lemma FillOneOrigin(kind: Kind, ch: Channel, f: Filling, taken: set<nat>, u: nat) returns (row: Row)
    requires u in Refs(FillOne(kind, ch, f, taken).links) && u !in Refs(f.links)
    ensures Got(kind, ch, row, f.links, f.next, FillOne(kind, ch, f, taken), u)
  {
    var free := FirstFree(f.rows, ch.stem, TypeOf(kind, ch), taken + Refs(f.links));
    var made := NewRow(kind, ch, f.rows, f.next);
    PutRefs(f.links, ch.key, None);
    PutRefs(f.links, ch.key, free);
    PutRefs(f.links, ch.key, Some(f.next));
    GetPut(f.links, ch.key, free, ch.key);
    GetPut(f.links, ch.key, Some(f.next), ch.key);
    if free.Some? {
      row :| row in f.rows && row.uid == free.value && Trim(row.key) == ch.stem && row.typ == TypeOf(kind, ch);
    } else {
      row := made;
      assert made.key == Candidate(ch.stem, SearchFrom(ch.stem, Keys(f.rows), 1));
    }
  }

  /** Every link a filling ends with comes from somewhere. */
  lemma {:induction false} FillOrigin(kind: Kind, chs: seq<Channel>, f: Filling, taken: set<nat>, u: nat)
    requires u in Refs(Fill(kind, chs, f, taken).links)
    ensures Origin(kind, chs, f.links, f.next, Fill(kind, chs, f, taken), u)
    decreases chs
  {
    if chs != [] {
      var one, r := FillOne(kind, chs[0], f, taken), Fill(kind, chs, f, taken);
      FillGrows(kind, chs[1..], one, taken);
      FillOneGrows(kind, chs[0], f, taken);
      FillOrigin(kind, chs[1..], one, taken, u);
      if u in Refs(f.links) {
      } else if u in Refs(one.links) {
        var row := FillOneOrigin(kind, chs[0], f, taken, u);
        FillOthers(kind, chs[1..], one, taken, chs[0].key);
        assert Got(kind, chs[0], row, f.links, f.next, r, u);
      } else {
        var ch, row :| ch in chs[1..] && Got(kind, ch, row, one.links, one.next, r, u);
        if Get(f.links, ch.key).Some? { FillOneOthers(kind, chs[0], f, taken, ch.key); }
        assert ch in chs && Got(kind, ch, row, f.links, f.next, r, u);
      }
    }
  }

  // ---- Placing parts --------------------------------------------------------------------------

  lemma {:induction false} ClearedSame(links: Links, dropping: set<nat>)
    requires Refs(links) !! dropping
    ensures Cleared(links, dropping) == links
  {
    if links != [] {
      ClearedSame(links[1..], dropping);
    }
  }

  lemma {:induction false} PlaceGrows(kind: Kind, parts: seq<Part>, c: Context, rows: seq<Row>, next: nat)
    ensures var s := PlaceParts(kind, parts, c, rows, next); Grows(rows, next, s.rows, s.next)
    decreases |parts|
  {
    if parts != [] {
      var b, init := parts[|parts| - 1], PlaceParts(kind, parts[..|parts| - 1], c, rows, next);
      PlaceGrows(kind, parts[..|parts| - 1], c, rows, next);
      if !Kept(c.before, b) && b.driver in c.drivers {
        var carried := Carried(kind, b, c.before, c.drivers, c.prev);
        var start := Filling(init.rows, carried, CarriedProposals(b, c.before, carried), init.next);
        FillGrows(kind, c.drivers[b.driver], start, Taken(PartsOf(c.next, kind), b.uid));
      }
      var p := PlacePart(kind, b, c, init.rows, init.next);
      GrowsTwice(rows, next, init.rows, init.next, p.rows, p.next);
    }
  }

  /** A part in place, whose rows stay, is left alone. */
  lemma {:induction false} PlacedKept(kind: Kind, parts: seq<Part>, c: Context, rows: seq<Row>, next: nat, i: nat)
    requires i < |parts| && Kept(c.before, parts[i]) && Refs(parts[i].channels) !! c.dropping
    ensures PlaceParts(kind, parts, c, rows, next).parts[i] == parts[i]
    decreases |parts|
  {
    if i == |parts| - 1 {
      ClearedSame(parts[i].channels, c.dropping);
    } else {
      PlacedKept(kind, parts[..|parts| - 1], c, rows, next, i);
    }
  }

  /** Kept parts add no rows; one fresh part adds its own. */
  lemma {:induction false} PlacedRows(kind: Kind, parts: seq<Part>, c: Context, rows: seq<Row>, next: nat, k: nat)
    requires forall i | 0 <= i < |parts| :: i != k ==> Kept(c.before, parts[i])
    ensures var s := PlaceParts(kind, parts, c, rows, next);
      if k < |parts| then
        var p := PlacePart(kind, parts[k], c, rows, next);
        s.rows == p.rows && s.next == p.next && s.parts[k] == p.part
      else s.rows == rows && s.next == next
    decreases |parts|
  {
    if parts != [] {
      PlacedRows(kind, parts[..|parts| - 1], c, rows, next, k);
    }
  }

  lemma {:induction false} TakenHas(parts: seq<Part>, uid: nat, i: nat)
    requires i < |parts| && parts[i].uid != uid
    ensures Refs(parts[i].channels) <= Taken(parts, uid)
  {
    if i > 0 {
      TakenHas(parts[1..], uid, i - 1);
    }
  }

  lemma {:induction false} TakenFrom(parts: seq<Part>, uid: nat, u: nat)
    requires u in Taken(parts, uid)
    ensures exists b :: b in parts && b.uid != uid && u in Refs(b.channels)
  {
    if parts[0].uid != uid && u in Refs(parts[0].channels) {
      assert parts[0] in parts;
    } else {
      TakenFrom(parts[1..], uid, u);
      var b :| b in parts[1..] && b.uid != uid && u in Refs(b.channels);
      assert b in parts;
    }
  }

  // ---- One side of the wiring -------------------------------------------------------------------

  /** A fresh part the catalogue knows; any other stays as it came. */
  predicate Active(b: Part, c: Context) {
    !Kept(c.before, b) && b.driver in c.drivers
  }

  /** The links the fresh part starts from can be had. */
  ghost predicate CanStart(kind: Kind, b: Part, c: Context, rows: seq<Row>, taken: set<nat>) {
    if b.driver !in c.drivers then Once(b.channels) && Refs(b.channels) <= Uids(rows) && Refs(b.channels) !! taken
    else
      var carried := Refs(Carried(kind, b, c.before, c.drivers, c.prev));
      carried <= Uids(rows) && carried !! taken
  }

  lemma CarriedOnce(kind: Kind, b: Part, before: map<nat, Part>, drivers: Drivers, prev: Draft)
    ensures Once(Carried(kind, b, before, drivers, prev))
    ensures b.uid in before ==> Refs(Carried(kind, b, before, drivers, prev)) <= Refs(before[b.uid].channels)
  {
    if b.uid in before && b.driver in drivers {
      CarryConserves(kind, before[b.uid].channels, drivers[b.driver], RowsOf(prev, kind));
    }
  }

  lemma {:induction false} UnlinkedOnce(links: Links)
    requires Refs(links) == {}
    ensures Once(links)
  {
    if links != [] {
      UnlinkedOnce(links[1..]);
    }
  }

  lemma FreshSound(kind: Kind, b: Part, c: Context, rows: seq<Row>, next: nat)
    requires DistinctUids(rows) && Below(rows, next) && !Kept(c.before, b)
    requires CanStart(kind, b, c, rows, Taken(PartsOf(c.next, kind), b.uid))
    requires forall u | u in Taken(PartsOf(c.next, kind), b.uid) :: u < next
    ensures var p := PlacePart(kind, b, c, rows, next);
      && Once(p.part.channels) && Refs(p.part.channels) <= Uids(p.rows) && Refs(p.part.channels) !! Taken(PartsOf(c.next, kind), b.uid)
      && DistinctUids(p.rows) && Below(p.rows, p.next) && Grows(rows, next, p.rows, p.next)
  {
    var taken := Taken(PartsOf(c.next, kind), b.uid);
    if b.driver in c.drivers {
      var carried := Carried(kind, b, c.before, c.drivers, c.prev);
      CarriedOnce(kind, b, c.before, c.drivers, c.prev);
      var start := Filling(rows, carried, CarriedProposals(b, c.before, carried), next);
      FillFilled(kind, c.drivers[b.driver], start, taken);
      FillGrows(kind, c.drivers[b.driver], start, taken);
    }
  }

  ghost predicate KeptWell(b: Part, c: Context, rows: seq<Row>) {
    Kept(c.before, b) && Once(b.channels) && Refs(b.channels) <= Uids(rows) && Refs(b.channels) !! c.dropping
  }

  function CarriedBy(kind: Kind, b: Part, c: Context): Links {
    Carried(kind, b, c.before, c.drivers, c.prev)
  }

  /** A common channel of a fresh part that carries no link over. */
  ghost predicate Wants(kind: Kind, b: Part, c: Context, ch: Channel) {
    !Kept(c.before, b) && b.driver in c.drivers && ch in c.drivers[b.driver] && ch.common && Get(CarriedBy(kind, b, c), ch.key).None?
  }

  /** The row one channel takes or proposes may be the one the other takes. */
  ghost predicate Clash(kind: Kind, a: Channel, b: Channel) {
    TypeOf(kind, a) == TypeOf(kind, b) && exists k: nat :: k >= 1 && Trim(Candidate(a.stem, k)) == b.stem
  }

  /** Two fresh parts, the second placed later, keep out of each other's way: no channel
      of the later may take what one of the earlier takes or proposes, neither takes a
      row the other carries over, and they carry no row in common. */
  ghost predicate KeepApart(kind: Kind, a: Part, b: Part, c: Context, rows: seq<Row>) {
    && (forall m, n | Wants(kind, a, c, m) && Wants(kind, b, c, n) :: !Clash(kind, m, n))
    && (forall u :: !TakesCarried(kind, a, b, c, rows, u) && !TakesCarried(kind, b, a, c, rows, u))
    && Refs(CarriedBy(kind, a, c)) !! Refs(CarriedBy(kind, b, c))
  }

  /** The second wants a row the first carries over. */
  ghost predicate TakesCarried(kind: Kind, a: Part, b: Part, c: Context, rows: seq<Row>, u: nat) {
    u in Refs(CarriedBy(kind, a, c)) && exists ch, row :: Wants(kind, b, c, ch) && row in rows && row.uid == u && Found(kind, ch, row)
  }

  ghost predicate Spread(kind: Kind, c: Context, rows: seq<Row>) {
    var parts := PartsOf(c.next, kind);
    forall i, j | 0 <= i < j < |parts| && Active(parts[i], c) && Active(parts[j], c) :: KeepApart(kind, parts[i], parts[j], c, rows)
  }

  /** What a side needs: kept parts in order, and fresh parts that can start. */
  ghost predicate SideReady(kind: Kind, c: Context, rows: seq<Row>, next: nat) {
    var parts := PartsOf(c.next, kind);
    && DistinctUids(rows) && Below(rows, next)
    && (forall i, j | 0 <= i < j < |parts| :: parts[i].uid != parts[j].uid)
    && (forall i | 0 <= i < |parts| && Kept(c.before, parts[i]) :: KeptWell(parts[i], c, rows))
    && (forall i, j | 0 <= i < j < |parts| && Kept(c.before, parts[i]) && Kept(c.before, parts[j]) :: Refs(parts[i].channels) !! Refs(parts[j].channels))
    && (forall i | 0 <= i < |parts| && !Kept(c.before, parts[i]) :: CanStart(kind, parts[i], c, rows, Taken(parts, parts[i].uid)))
    && (forall i, u | 0 <= i < |parts| && u in Refs(parts[i].channels) :: u < next)
  }

  lemma TakenBelow(parts: seq<Part>, next: nat, uid: nat)
    requires forall i, u | 0 <= i < |parts| && u in Refs(parts[i].channels) :: u < next
    ensures forall u | u in Taken(parts, uid) :: u < next
  {
    forall u | u in Taken(parts, uid) ensures u < next {
      TakenFrom(parts, uid, u);
      var b :| b in parts && b.uid != uid && u in Refs(b.channels);
      var i :| 0 <= i < |parts| && parts[i] == b;
    }
  }

  /** Where a placed part's link comes from: an old link, or a channel that wanted one. */
  ghost predicate LinkFrom(kind: Kind, b: Part, c: Context, links: Links, rows: seq<Row>, next: nat, u: nat) {
    u in Refs(CarriedBy(kind, b, c)) || exists ch, row :: LinkGot(kind, b, c, links, rows, next, u, ch, row)
  }

  ghost predicate LinkGot(kind: Kind, b: Part, c: Context, links: Links, rows: seq<Row>, next: nat, u: nat, ch: Channel, row: Row) {
    && Wants(kind, b, c, ch) && Get(links, ch.key) == Some(u)
    && row in rows && row.uid == u && (Found(kind, ch, row) || (u >= next && Made(kind, ch, row)))
  }

  lemma PlacedFrom(kind: Kind, b: Part, c: Context, rows: seq<Row>, next: nat, u: nat)
    requires Active(b, c)
    requires u in Refs(PlacePart(kind, b, c, rows, next).part.channels)
    ensures var p := PlacePart(kind, b, c, rows, next); LinkFrom(kind, b, c, p.part.channels, p.rows, next, u)
  {
    var p := PlacePart(kind, b, c, rows, next);
    var carried := CarriedBy(kind, b, c);
    var start := Filling(rows, carried, CarriedProposals(b, c.before, carried), next);
    var taken := Taken(PartsOf(c.next, kind), b.uid);
    var chs := c.drivers[b.driver];
    FillOrigin(kind, chs, start, taken, u);
    var r := Fill(kind, chs, start, taken);
    if u !in Refs(carried) {
      var ch, row :| ch in chs && Got(kind, ch, row, carried, next, r, u);
      assert LinkGot(kind, b, c, p.part.channels, p.rows, next, u, ch, row);
    }
  }

  /** What a placed part came to: itself, if it was in place; else its links avoid what
      the other parts have, and are the ones it came with or, of a known driver, each
      from somewhere. */
  ghost predicate PartPlaced(kind: Kind, c: Context, b: Part, placed: Part, rows: seq<Row>, next: nat) {
    && placed.uid == b.uid && Once(placed.channels) && Refs(placed.channels) <= Uids(rows)
    && if Kept(c.before, b) then placed == b
       else && Refs(placed.channels) !! Taken(PartsOf(c.next, kind), b.uid)
            && if b.driver !in c.drivers then placed.channels == b.channels
               else forall u | u in Refs(placed.channels) :: LinkFrom(kind, b, c, placed.channels, rows, next, u)
  }

  /** The parts placed so far. */
  ghost predicate PlacedTo(kind: Kind, c: Context, rows: seq<Row>, next: nat, n: nat, s: Side) {
    && n <= |PartsOf(c.next, kind)| && |s.parts| == n
    && DistinctUids(s.rows) && Below(s.rows, s.next) && Grows(rows, next, s.rows, s.next)
    && forall i | 0 <= i < n :: PartPlaced(kind, c, PartsOf(c.next, kind)[i], s.parts[i], s.rows, next)
  }

  lemma StillFrom(kind: Kind, b: Part, c: Context, links: Links, rows: seq<Row>, more: seq<Row>, next: nat, from: nat, u: nat)
    requires rows <= more && next <= from && LinkFrom(kind, b, c, links, rows, from, u)
    ensures LinkFrom(kind, b, c, links, more, next, u)
  {
    if u !in Refs(CarriedBy(kind, b, c)) {
      var ch, row :| LinkGot(kind, b, c, links, rows, from, u, ch, row);
      assert LinkGot(kind, b, c, links, more, next, u, ch, row);
    }
  }

  lemma {:induction false} PlacedSoFar(kind: Kind, c: Context, rows: seq<Row>, next: nat, n: nat)
    requires SideReady(kind, c, rows, next) && n <= |PartsOf(c.next, kind)|
    ensures PlacedTo(kind, c, rows, next, n, PlaceParts(kind, PartsOf(c.next, kind)[..n], c, rows, next))
  {
    var parts := PartsOf(c.next, kind);
    if n == 0 {
      assert parts[..0] == [];
    } else {
      hide SideReady, PlacedTo, PlacePart;
      PlacedSoFar(kind, c, rows, next, n - 1);
      assert parts[..n][..n - 1] == parts[..n - 1];
      PlacedNext(kind, c, rows, next, n - 1, PlaceParts(kind, parts[..n - 1], c, rows, next));
    }
  }

  lemma StillPlaced(kind: Kind, c: Context, b: Part, placed: Part, rows: seq<Row>, more: seq<Row>, next: nat)
    requires PartPlaced(kind, c, b, placed, rows, next) && rows <= more
    ensures PartPlaced(kind, c, b, placed, more, next)
  {
    hide LinkFrom;
    assert forall u | u in Uids(rows) :: u in Uids(more);
    if Active(b, c) {
      forall u | u in Refs(placed.channels) ensures LinkFrom(kind, b, c, placed.channels, more, next, u) {
        StillFrom(kind, b, c, placed.channels, rows, more, next, next, u);
      }
    }
  }

  /** One part more. */
  lemma NowPlaced(kind: Kind, c: Context, rows: seq<Row>, next: nat, n: nat, now: seq<Row>, from: nat)
    requires SideReady(kind, c, rows, next) && n < |PartsOf(c.next, kind)|
    requires DistinctUids(now) && Below(now, from) && rows <= now && next <= from
    ensures var p := PlacePart(kind, PartsOf(c.next, kind)[n], c, now, from);
      PartPlaced(kind, c, PartsOf(c.next, kind)[n], p.part, p.rows, next) && DistinctUids(p.rows) && Below(p.rows, p.next) && Grows(now, from, p.rows, p.next)
  {
    hide LinkFrom;
    var b := PartsOf(c.next, kind)[n];
    var p := PlacePart(kind, b, c, now, from);
    assert forall u | u in Uids(rows) :: u in Uids(now);
    if Kept(c.before, b) {
      ClearedSame(b.channels, c.dropping);
    } else {
      TakenBelow(PartsOf(c.next, kind), next, b.uid);
      FreshSound(kind, b, c, now, from);
      PlacedUid(kind, b, c, now, from);
      if b.driver in c.drivers {
        forall u | u in Refs(p.part.channels) ensures LinkFrom(kind, b, c, p.part.channels, p.rows, next, u) {
          PlacedFrom(kind, b, c, now, from, u);
          StillFrom(kind, b, c, p.part.channels, p.rows, p.rows, next, from, u);
        }
      }
    }
  }

  lemma PlacedNext(kind: Kind, c: Context, rows: seq<Row>, next: nat, n: nat, s: Side)
    requires SideReady(kind, c, rows, next) && n < |PartsOf(c.next, kind)| && PlacedTo(kind, c, rows, next, n, s)
    ensures var p := PlacePart(kind, PartsOf(c.next, kind)[n], c, s.rows, s.next);
      PlacedTo(kind, c, rows, next, n + 1, Side(s.parts + [p.part], p.rows, p.next))
  {
    hide PartPlaced, PlacePart, SideReady, NewKey;
    var p := PlacePart(kind, PartsOf(c.next, kind)[n], c, s.rows, s.next);
    NowPlaced(kind, c, rows, next, n, s.rows, s.next);
    GrowsTwice(rows, next, s.rows, s.next, p.rows, p.next);
    forall i | 0 <= i < n ensures PartPlaced(kind, c, PartsOf(c.next, kind)[i], s.parts[i], p.rows, next) {
      StillPlaced(kind, c, PartsOf(c.next, kind)[i], s.parts[i], s.rows, p.rows, next);
    }
  }

  lemma PlacedUid(kind: Kind, b: Part, c: Context, rows: seq<Row>, next: nat)
    ensures PlacePart(kind, b, c, rows, next).part.uid == b.uid
  {
  }

  // ---- How two fresh parts can share a row ------------------------------------------------------

  /** Through a pair of channels that clash, both linked to it. */
  ghost predicate ClashAt(kind: Kind, a: Part, b: Part, c: Context, x: Links, y: Links, u: nat) {
    exists m, n :: ClashOf(kind, a, b, c, x, y, u, m, n)
  }

  ghost predicate ClashOf(kind: Kind, a: Part, b: Part, c: Context, x: Links, y: Links, u: nat, m: Channel, n: Channel) {
    Wants(kind, a, c, m) && Wants(kind, b, c, n) && Clash(kind, m, n) && Get(x, m.key) == Some(u) && Get(y, n.key) == Some(u)
  }

  lemma SameRow(rows: seq<Row>, a: Row, b: Row)
    requires DistinctUids(rows) && a in rows && b in rows && a.uid == b.uid
    ensures a == b
  {
    var i :| 0 <= i < |rows| && rows[i] == a;
    var j :| 0 <= j < |rows| && rows[j] == b;
    assert i == j;
  }

  lemma FoundClashes(kind: Kind, m: Channel, n: Channel, row: Row)
    requires Found(kind, n, row) && (Found(kind, m, row) || Made(kind, m, row))
    ensures Clash(kind, m, n)
  {
    if Found(kind, m, row) {
      TrimTwice(row.key);
      assert Candidate(m.stem, 1) == m.stem;
    } else {
      var k: nat :| k >= 1 && row.key == Candidate(m.stem, k);
    }
  }

  /** The ways two parts can share a row. */
  ghost predicate Shares(kind: Kind, a: Part, b: Part, c: Context, rows: seq<Row>, x: Links, y: Links, u: nat) {
    || (u in Refs(CarriedBy(kind, a, c)) && u in Refs(CarriedBy(kind, b, c)))
    || TakesCarried(kind, a, b, c, rows, u) || TakesCarried(kind, b, a, c, rows, u)
    || ClashAt(kind, a, b, c, x, y, u)
  }

  lemma SharedLinks(kind: Kind, a: Part, b: Part, c: Context, rows: seq<Row>, mid: seq<Row>, more: seq<Row>, next: nat, from: nat, x: Links, y: Links, u: nat)
    requires rows <= mid <= more && DistinctUids(more) && Below(rows, next) && Below(mid, from)
    requires a.driver in c.drivers ==> Refs(CarriedBy(kind, a, c)) <= Uids(rows)
    requires b.driver in c.drivers ==> Refs(CarriedBy(kind, b, c)) <= Uids(rows)
    requires LinkFrom(kind, a, c, x, mid, next, u) && LinkFrom(kind, b, c, y, more, from, u) && u < from
    ensures Shares(kind, a, b, c, rows, x, y, u)
  {
    hide Wants, Found, Made, Clash, DistinctUids;
    if u in Refs(CarriedBy(kind, a, c)) {
      if u !in Refs(CarriedBy(kind, b, c)) {
        var n, row :| LinkGot(kind, b, c, y, more, from, u, n, row);
        CarriedRow(kind, a, c, rows, more, next, u, row);
        assert TakesCarried(kind, a, b, c, rows, u);
      }
    } else {
      var m, first :| LinkGot(kind, a, c, x, mid, next, u, m, first);
      assert first in more;
      if u in Refs(CarriedBy(kind, b, c)) {
        CarriedRow(kind, b, c, rows, more, next, u, first);
        assert TakesCarried(kind, b, a, c, rows, u);
      } else {
        var n, row :| LinkGot(kind, b, c, y, more, from, u, n, row);
        SameRow(more, first, row);
        FoundClashes(kind, m, n, row);
        assert ClashOf(kind, a, b, c, x, y, u, m, n);
      }
    }
  }

  /** A row the part placed now shares with one placed before: both carry it, one takes
      what the other carries, or two of their channels clash. */
  lemma SharedHow(kind: Kind, c: Context, rows: seq<Row>, next: nat, n: nat, s: Side, i: nat, u: nat)
    requires SideReady(kind, c, rows, next) && n < |PartsOf(c.next, kind)| && PlacedTo(kind, c, rows, next, n, s) && i < n
    requires Active(PartsOf(c.next, kind)[i], c) && Active(PartsOf(c.next, kind)[n], c)
    requires u in Refs(s.parts[i].channels) && u in Refs(PlacePart(kind, PartsOf(c.next, kind)[n], c, s.rows, s.next).part.channels)
    ensures var a, b := PartsOf(c.next, kind)[i], PartsOf(c.next, kind)[n];
      Shares(kind, a, b, c, rows, s.parts[i].channels, PlacePart(kind, b, c, s.rows, s.next).part.channels, u)
  {
    var a, b := PartsOf(c.next, kind)[i], PartsOf(c.next, kind)[n];
    PlacedNext(kind, c, rows, next, n, s);
    PlacedFrom(kind, b, c, s.rows, s.next, u);
    hide Shares, LinkFrom, PlacePart;
    var p := PlacePart(kind, b, c, s.rows, s.next);
    PlacedMore(kind, c, n, s.rows, s.next);
    var row :| row in s.rows && row.uid == u;
    SharedLinks(kind, a, b, c, rows, s.rows, p.rows, next, s.next, s.parts[i].channels, p.part.channels, u);
  }

  lemma PlacedMore(kind: Kind, c: Context, n: nat, rows: seq<Row>, next: nat)
    requires n < |PartsOf(c.next, kind)|
    ensures rows <= PlacePart(kind, PartsOf(c.next, kind)[n], c, rows, next).rows
  {
    var b := PartsOf(c.next, kind)[n];
    if !Kept(c.before, b) && b.driver in c.drivers {
      var carried := CarriedBy(kind, b, c);
      FillGrows(kind, c.drivers[b.driver], Filling(rows, carried, CarriedProposals(b, c.before, carried), next), Taken(PartsOf(c.next, kind), b.uid));
    }
  }

  /** A carried row was there from the start. */
  lemma CarriedRow(kind: Kind, b: Part, c: Context, rows: seq<Row>, more: seq<Row>, next: nat, u: nat, row: Row)
    requires Below(rows, next) && DistinctUids(more) && rows <= more && row in more && row.uid == u
    requires b.driver in c.drivers ==> Refs(CarriedBy(kind, b, c)) <= Uids(rows)
    requires u in Refs(CarriedBy(kind, b, c))
    ensures row in rows && u < next
  {
    var r :| r in rows && r.uid == u;
    assert r in more;
    SameRow(more, r, row);
  }

  lemma ApartSharesNone(kind: Kind, a: Part, b: Part, c: Context, rows: seq<Row>, x: Links, y: Links, u: nat)
    requires KeepApart(kind, a, b, c, rows)
    ensures !Shares(kind, a, b, c, rows, x, y, u)
  {
    hide Wants, Clash, TakesCarried;
  }

  /** The part placed now against one placed before, if the two share nothing. */
  lemma NextApart(kind: Kind, c: Context, rows: seq<Row>, next: nat, n: nat, s: Side, i: nat)
    requires SideReady(kind, c, rows, next) && n < |PartsOf(c.next, kind)| && PlacedTo(kind, c, rows, next, n, s) && i < n
    requires var a, b := PartsOf(c.next, kind)[i], PartsOf(c.next, kind)[n];
      var y := PlacePart(kind, b, c, s.rows, s.next).part.channels;
      Active(a, c) && Active(b, c) ==> forall u :: !Shares(kind, a, b, c, rows, s.parts[i].channels, y, u)
    ensures Refs(s.parts[i].channels) !! Refs(PlacePart(kind, PartsOf(c.next, kind)[n], c, s.rows, s.next).part.channels)
  {
    hide Shares, LinkFrom, PlacePart, Grows, DistinctUids;
    var parts := PartsOf(c.next, kind);
    var a, b := parts[i], parts[n];
    PlacedNext(kind, c, rows, next, n, s);
    TakenHas(parts, b.uid, i);
    TakenHas(parts, a.uid, n);
    if Active(a, c) && Active(b, c) {
      forall u | u in Refs(s.parts[i].channels) ensures u !in Refs(PlacePart(kind, b, c, s.rows, s.next).part.channels) {
        if u in Refs(PlacePart(kind, b, c, s.rows, s.next).part.channels) {
          SharedHow(kind, c, rows, next, n, s, i, u);
        }
      }
    }
  }

  /** The jth part as it is placed. */
  function PlacedAt(kind: Kind, c: Context, rows: seq<Row>, next: nat, j: nat): Placed
    requires j < |PartsOf(c.next, kind)|
  {
    var s := PlaceParts(kind, PartsOf(c.next, kind)[..j], c, rows, next);
    PlacePart(kind, PartsOf(c.next, kind)[j], c, s.rows, s.next)
  }

  lemma PlaceStep(kind: Kind, c: Context, rows: seq<Row>, next: nat, n: nat)
    requires n < |PartsOf(c.next, kind)|
    ensures var s, p := PlaceParts(kind, PartsOf(c.next, kind)[..n], c, rows, next), PlacedAt(kind, c, rows, next, n);
      PlaceParts(kind, PartsOf(c.next, kind)[..n + 1], c, rows, next) == Side(s.parts + [p.part], p.rows, p.next)
  {
    hide PlacePart;
    assert PartsOf(c.next, kind)[..n + 1][..n] == PartsOf(c.next, kind)[..n];
  }

  /** No two of the first n parts, both active, share a row. */
  ghost predicate ShareNone(kind: Kind, c: Context, rows: seq<Row>, next: nat, n: nat)
    requires n <= |PartsOf(c.next, kind)|
  {
    var parts := PartsOf(c.next, kind);
    forall i, j, u | 0 <= i < j < n && Active(parts[i], c) && Active(parts[j], c) ::
      !Shares(kind, parts[i], parts[j], c, rows, PlacedAt(kind, c, rows, next, i).part.channels, PlacedAt(kind, c, rows, next, j).part.channels, u)
  }

  lemma {:induction false} PlacedEach(kind: Kind, c: Context, rows: seq<Row>, next: nat, n: nat, i: nat)
    requires i < n <= |PartsOf(c.next, kind)|
    ensures PlaceParts(kind, PartsOf(c.next, kind)[..n], c, rows, next).parts[i] == PlacedAt(kind, c, rows, next, i).part
    decreases n
  {
    assert PartsOf(c.next, kind)[..n][..n - 1] == PartsOf(c.next, kind)[..n - 1];
    if i < n - 1 {
      PlacedEach(kind, c, rows, next, n - 1, i);
    }
  }

  lemma {:induction false} PlacedApart(kind: Kind, c: Context, rows: seq<Row>, next: nat, n: nat)
    requires SideReady(kind, c, rows, next) && n <= |PartsOf(c.next, kind)| && ShareNone(kind, c, rows, next, n)
    ensures Apart(PlaceParts(kind, PartsOf(c.next, kind)[..n], c, rows, next).parts)
  {
    hide Shares, SideReady, PlacedTo, PlacePart;
    var parts := PartsOf(c.next, kind);
    if n > 0 {
      var s := PlaceParts(kind, parts[..n - 1], c, rows, next);
      var last := PlacedAt(kind, c, rows, next, n - 1);
      assert parts[..n][..n - 1] == parts[..n - 1];
      PlacedApart(kind, c, rows, next, n - 1);
      PlacedSoFar(kind, c, rows, next, n - 1);
      forall i | 0 <= i < n - 1 ensures Refs(s.parts[i].channels) !! Refs(last.part.channels) {
        PlacedEach(kind, c, rows, next, n - 1, i);
        NextApart(kind, c, rows, next, n - 1, s, i);
      }
    }
  }

  lemma SpreadShareNone(kind: Kind, c: Context, rows: seq<Row>, next: nat)
    requires Spread(kind, c, rows)
    ensures ShareNone(kind, c, rows, next, |PartsOf(c.next, kind)|)
  {
    hide Shares, KeepApart;
    var parts := PartsOf(c.next, kind);
    forall i, j, u | 0 <= i < j < |parts| && Active(parts[i], c) && Active(parts[j], c)
      ensures !Shares(kind, parts[i], parts[j], c, rows, PlacedAt(kind, c, rows, next, i).part.channels, PlacedAt(kind, c, rows, next, j).part.channels, u)
    {
      ApartSharesNone(kind, parts[i], parts[j], c, rows, PlacedAt(kind, c, rows, next, i).part.channels, PlacedAt(kind, c, rows, next, j).part.channels, u);
    }
  }

  /** With any number of fresh parts that keep apart, the placed side is sound again. */
  lemma PlacedSound(kind: Kind, c: Context, rows: seq<Row>, next: nat)
    requires SideReady(kind, c, rows, next) && Spread(kind, c, rows)
    ensures var s := PlaceParts(kind, PartsOf(c.next, kind), c, rows, next);
      && SideSound(s.parts, s.rows) && DistinctUids(s.rows) && Below(s.rows, s.next) && Grows(rows, next, s.rows, s.next)
      && (forall i | 0 <= i < |s.parts| :: s.parts[i].uid == PartsOf(c.next, kind)[i].uid)
  {
    hide SideReady, Spread;
    var parts := PartsOf(c.next, kind);
    assert parts[..|parts|] == parts;
    PlacedSoFar(kind, c, rows, next, |parts|);
    SpreadShareNone(kind, c, rows, next);
    PlacedApart(kind, c, rows, next, |parts|);
    PlacedSideSound(kind, c, rows, next, PlaceParts(kind, parts, c, rows, next));
  }

  lemma PlacedSideSound(kind: Kind, c: Context, rows: seq<Row>, next: nat, s: Side)
    requires PlacedTo(kind, c, rows, next, |PartsOf(c.next, kind)|, s) && Apart(s.parts)
    ensures SideSound(s.parts, s.rows)
  {
    forall b | b in s.parts ensures Once(b.channels) && Refs(b.channels) <= Uids(s.rows) {
      var i :| 0 <= i < |s.parts| && s.parts[i] == b;
    }
  }
}
