/** Keeping a template's rows in step with its hardware parts
    (frontend/src/lib/template-draft.ts): which rows go with a part that goes, and
    which a new part links to or proposes. The uid counter is passed along. */
module TemplateParts {
  import opened Wrappers
  import opened Text
  import opened FreeKey
  import opened PartLinks

  /** `proposed` holds, for each row the part brought, how it looked then. */
  datatype Part = Part(uid: nat, driver: string, channels: Links, proposed: map<nat, Row>)

  datatype Wiring = Wiring(inputs: seq<Part>, outputs: seq<Part>)

  datatype Draft = Draft(metrics: seq<Row>, actuators: seq<Row>, wiring: Option<Wiring>)

  type Drivers = map<string, seq<Channel>>

  function PartsOf(w: Wiring, kind: Kind): seq<Part> {
    if kind == Inputs then w.inputs else w.outputs
  }

  function RowsOf(d: Draft, kind: Kind): seq<Row> {
    if kind == Inputs then d.metrics else d.actuators
  }

  function AllRows(d: Draft): seq<Row> {
    d.metrics + d.actuators
  }

  function Uids(rows: seq<Row>): set<nat> {
    set row | row in rows :: row.uid
  }

  function Keys(rows: seq<Row>): set<string> {
    set row | row in rows :: Trim(row.key)
  }

  // ---- A row for a channel ----------------------------------------------------------------

  /** The proposed name, with the key's suffix. */
  function NameFor(ch: Channel, key: string): string {
    if key == ch.stem then ch.name
    else ch.name + " " + (if |ch.stem| + 1 <= |key| then key[|ch.stem| + 1..] else "")
  }

  function BlankRest(kind: Kind, typ: string): string {
    if kind == Inputs then "blank metric" else if typ == "bool" then "on and off" else "blank"
  }

  function NewRow(kind: Kind, ch: Channel, rows: seq<Row>, uid: nat): Row {
    var key := FreeKeyOf(ch.stem, Keys(rows));
    Row(uid, NameFor(ch, key), key, TypeOf(kind, ch), if kind == Inputs then ch.unit else None, BlankRest(kind, TypeOf(kind, ch)))
  }

  function FirstFree(rows: seq<Row>, key: string, typ: string, busy: set<nat>): (r: Option<nat>)
    ensures r.Some? ==> r.value !in busy && exists row :: row in rows && row.uid == r.value && Trim(row.key) == key && row.typ == typ
    ensures r.None? ==> forall row | row in rows :: Trim(row.key) == key && row.typ == typ ==> row.uid in busy
  {
    if rows == [] then None
    else if Trim(rows[0].key) == key && rows[0].typ == typ && rows[0].uid !in busy then Some(rows[0].uid)
    else FirstFree(rows[1..], key, typ, busy)
  }

  /** A free row with the channel's key and type, else a new one under a key no row
      has and none is reserved for. */
  method RowForChannel(kind: Kind, ch: Channel, rows: seq<Row>, busy: set<nat>, next: nat)
    returns (uid: nat, created: Option<Row>)
    ensures created.None? ==> FirstFree(rows, ch.stem, TypeOf(kind, ch), busy) == Some(uid)
    ensures created.Some? ==> FirstFree(rows, ch.stem, TypeOf(kind, ch), busy) == None
    ensures created.Some? ==> uid == next && created.value == NewRow(kind, ch, rows, next)
    ensures created.Some? ==> created.value.key !in Keys(rows) && created.value.key !in RESERVED
  {
    var free := FirstFree(rows, ch.stem, TypeOf(kind, ch), busy);
    if free.Some? { return free.value, None; }
    var key := FindFreeKey(ch.stem, Keys(rows));
    uid := next;
    created := Some(Row(uid, NameFor(ch, key), key, TypeOf(kind, ch), if kind == Inputs then ch.unit else None, BlankRest(kind, TypeOf(kind, ch))));
  }

  // ---- A part's channels ------------------------------------------------------------------

  datatype Filling = Filling(rows: seq<Row>, links: Links, proposed: map<nat, Row>, next: nat)

  function FillOne(kind: Kind, ch: Channel, f: Filling, taken: set<nat>): Filling {
    if Get(f.links, ch.key).Some? then f
    else if !ch.common then f.(links := Put(f.links, ch.key, None))
    else
      var free := FirstFree(f.rows, ch.stem, TypeOf(kind, ch), taken + Refs(f.links));
      if free.Some? then f.(links := Put(f.links, ch.key, free))
      else
        var row := NewRow(kind, ch, f.rows, f.next);
        Filling(f.rows + [row], Put(f.links, ch.key, Some(f.next)), f.proposed[f.next := row], f.next + 1)
  }

  function Fill(kind: Kind, chs: seq<Channel>, f: Filling, taken: set<nat>): Filling
    decreases chs
  {
    if chs == [] then f else Fill(kind, chs[1..], FillOne(kind, chs[0], f, taken), taken)
  }

  method FillChannels(kind: Kind, chs: seq<Channel>, f: Filling, taken: set<nat>) returns (r: Filling)
    ensures r == Fill(kind, chs, f, taken)
  {
    r := f;
    for i := 0 to |chs|
      invariant Fill(kind, chs[i..], r, taken) == Fill(kind, chs, f, taken)
    {
      assert chs[i..][0] == chs[i] && chs[i..][1..] == chs[i + 1..];
      if Get(r.links, chs[i].key).Some? { continue; }
      if !chs[i].common {
        r := r.(links := Put(r.links, chs[i].key, None));
        continue;
      }
      var uid, created := RowForChannel(kind, chs[i], r.rows, taken + Refs(r.links), r.next);
      if created.Some? {
        r := r.(rows := r.rows + [created.value], proposed := r.proposed[uid := created.value], next := r.next + 1);
      }
      r := r.(links := Put(r.links, chs[i].key, Some(uid)));
    }
  }

  // ---- Parts ------------------------------------------------------------------------------

  /** The parts by uid, as a Map filled in order holds them. */
  function PartMap(parts: seq<Part>): map<nat, Part> {
    if parts == [] then map[]
    else PartMap(parts[..|parts| - 1])[parts[|parts| - 1].uid := parts[|parts| - 1]]
  }

  function Before(w: Option<Wiring>): map<nat, Part> {
    if w.None? then map[] else PartMap(w.value.inputs + w.value.outputs)
  }

  /** The part is in `parts` with the same driver. */
  predicate Kept(parts: map<nat, Part>, b: Part) {
    b.uid in parts && parts[b.uid].driver == b.driver
  }

  /** What a part on another driver takes over from its old one. */
  function Carried(kind: Kind, b: Part, before: map<nat, Part>, drivers: Drivers, prev: Draft): Links {
    if b.uid in before && before[b.uid].driver != b.driver && b.driver in drivers then
      Carrying(kind, before[b.uid].channels, drivers[b.driver], RowsOf(prev, kind)).out
    else []
  }

  function LinkedBy(kind: Kind, b: Part, before: map<nat, Part>, drivers: Drivers, prev: Draft): set<nat> {
    if Kept(before, b) then Refs(b.channels) else Refs(Carried(kind, b, before, drivers, prev))
  }

  function StillLinked(prev: Draft, next: Wiring, drivers: Drivers): set<nat> {
    var before := Before(prev.wiring);
    (set b, u | b in next.inputs && u in LinkedBy(Inputs, b, before, drivers, prev) :: u) + (set b, u | b in next.outputs && u in LinkedBy(Outputs, b, before, drivers, prev) :: u)
  }

  /** Rows a part that goes, or changes driver, proposed and that look as they did
      then, unless something still links them. */
  function Dropping(prev: Draft, next: Wiring, drivers: Drivers): set<nat> {
    var before, after := Before(prev.wiring), PartMap(next.inputs + next.outputs);
    (set b, u | b in before.Values && !Kept(after, b) && u in b.proposed && FindRow(AllRows(prev), u) == Some(b.proposed[u]) :: u) - StillLinked(prev, next, drivers)
  }

  function KeepRows(rows: seq<Row>, dropping: set<nat>): seq<Row> {
    if rows == [] then []
    else (if rows[0].uid in dropping then [] else [rows[0]]) + KeepRows(rows[1..], dropping)
  }

  function Cleared(links: Links, dropping: set<nat>): Links {
    if links == [] then []
    else [(links[0].0, if links[0].1.Some? && links[0].1.value in dropping then None else links[0].1)] + Cleared(links[1..], dropping)
  }

  /** The rows the other parts link: `takenTargets`. */
  function Taken(parts: seq<Part>, uid: nat): set<nat> {
    if parts == [] then {}
    else (if parts[0].uid == uid then {} else Refs(parts[0].channels)) + Taken(parts[1..], uid)
  }

  /** What the placing of parts reads and never changes. */
  datatype Context = Context(before: map<nat, Part>, drivers: Drivers, prev: Draft, next: Wiring, dropping: set<nat>)

  datatype Placed = Placed(part: Part, rows: seq<Row>, next: nat)

  function CarriedProposals(b: Part, before: map<nat, Part>, carried: Links): map<nat, Row> {
    if b.uid in before then map u | u in before[b.uid].proposed && u in Refs(carried) :: before[b.uid].proposed[u] else map[]
  }

  function PlacePart(kind: Kind, b: Part, c: Context, rows: seq<Row>, next: nat): Placed {
    if Kept(c.before, b) then Placed(b.(channels := Cleared(b.channels, c.dropping)), rows, next)
    else if b.driver !in c.drivers then Placed(b.(proposed := map[]), rows, next)
    else
      var carried := Carried(kind, b, c.before, c.drivers, c.prev);
      var start := Filling(rows, carried, CarriedProposals(b, c.before, carried), next);
      var f := Fill(kind, c.drivers[b.driver], start, Taken(PartsOf(c.next, kind), b.uid));
      Placed(b.(channels := f.links, proposed := f.proposed), f.rows, f.next)
  }

  datatype Side = Side(parts: seq<Part>, rows: seq<Row>, next: nat)

  function PlaceParts(kind: Kind, parts: seq<Part>, c: Context, rows: seq<Row>, next: nat): (s: Side)
    ensures |s.parts| == |parts|
  {
    if parts == [] then Side([], rows, next)
    else
      var init := PlaceParts(kind, parts[..|parts| - 1], c, rows, next);
      var p := PlacePart(kind, parts[|parts| - 1], c, init.rows, init.next);
      Side(init.parts + [p.part], p.rows, p.next)
  }

  method ProposeParts(kind: Kind, parts: seq<Part>, c: Context, rows: seq<Row>, next: nat) returns (s: Side)
    ensures s == PlaceParts(kind, parts, c, rows, next)
  {
    s := Side([], rows, next);
    for i := 0 to |parts|
      invariant s == PlaceParts(kind, parts[..i], c, rows, next)
    {
      var b := parts[i];
      assert parts[..i + 1][..i] == parts[..i];
      if Kept(c.before, b) {
        s := s.(parts := s.parts + [b.(channels := Cleared(b.channels, c.dropping))]);
        continue;
      }
      if b.driver !in c.drivers {
        s := s.(parts := s.parts + [b.(proposed := map[])]);
        continue;
      }
      var chs := c.drivers[b.driver];
      var carried := [];
      if b.uid in c.before {
        carried := CarryLinks(kind, c.before[b.uid].channels, chs, RowsOf(c.prev, kind));
      }
      var start := Filling(s.rows, carried, CarriedProposals(b, c.before, carried), s.next);
      var f := FillChannels(kind, chs, start, Taken(PartsOf(c.next, kind), b.uid));
      s := Side(s.parts + [b.(channels := f.links, proposed := f.proposed)], f.rows, f.next);
    }
    assert parts[..|parts|] == parts;
  }

  // ---- The draft ----------------------------------------------------------------------------

  datatype Reconciliation = Reconciliation(draft: Draft, next: nat)

  function ContextOf(prev: Draft, next: Wiring, drivers: Drivers): Context {
    Context(Before(prev.wiring), drivers, prev, next, Dropping(prev, next, drivers))
  }

  function InputSide(prev: Draft, next: Wiring, drivers: Drivers, counter: nat): Side {
    var c := ContextOf(prev, next, drivers);
    PlaceParts(Inputs, next.inputs, c, KeepRows(prev.metrics, c.dropping), counter)
  }

  function OutputSide(prev: Draft, next: Wiring, drivers: Drivers, counter: nat): Side {
    var c := ContextOf(prev, next, drivers);
    PlaceParts(Outputs, next.outputs, c, KeepRows(prev.actuators, c.dropping), InputSide(prev, next, drivers, counter).next)
  }

  function ReconciledTo(prev: Draft, next: Wiring, drivers: Drivers, counter: nat): Reconciliation {
    var ins, outs := InputSide(prev, next, drivers, counter), OutputSide(prev, next, drivers, counter);
    Reconciliation(Draft(ins.rows, outs.rows, Some(Wiring(ins.parts, outs.parts))), outs.next)
  }

  /** Without a catalogue the wiring is taken as it is; clearing the wiring is
      removing every part. */
  function Reconciled(prev: Draft, next: Option<Wiring>, catalog: Option<Drivers>, counter: nat): Reconciliation {
    if catalog.None? then Reconciliation(prev.(wiring := next), counter)
    else if next.Some? then ReconciledTo(prev, next.value, catalog.value, counter)
    else if prev.wiring.None? then Reconciliation(prev, counter)
    else
      var r := ReconciledTo(prev, Wiring([], []), catalog.value, counter);
      r.(draft := r.draft.(wiring := None))
  }

  method ReconcileParts(prev: Draft, next: Option<Wiring>, catalog: Option<Drivers>, counter: nat) returns (r: Reconciliation)
    ensures r == Reconciled(prev, next, catalog, counter)
    decreases if next.None? then 1 else 0
  {
    if catalog.None? { return Reconciliation(prev.(wiring := next), counter); }
    if next.None? {
      if prev.wiring.None? { return Reconciliation(prev, counter); }
      var cleared := ReconcileParts(prev, Some(Wiring([], [])), catalog, counter);
      return cleared.(draft := cleared.draft.(wiring := None));
    }
    var c := ContextOf(prev, next.value, catalog.value);
    var inputs := ProposeParts(Inputs, next.value.inputs, c, KeepRows(prev.metrics, c.dropping), counter);
    var outputs := ProposeParts(Outputs, next.value.outputs, c, KeepRows(prev.actuators, c.dropping), inputs.next);
    r := Reconciliation(Draft(inputs.rows, outputs.rows, Some(Wiring(inputs.parts, outputs.parts))), outputs.next);
  }

  // ---- Which readings to keep ------------------------------------------------------------------

  function FindPart(parts: seq<Part>, uid: nat): (r: Option<Part>)
    ensures r.Some? ==> r.value in parts && r.value.uid == uid
  {
    if parts == [] then None
    else if parts[0].uid == uid then Some(parts[0])
    else FindPart(parts[1..], uid)
  }

  function FindChannel(chs: seq<Channel>, key: string): (r: Option<Channel>)
    ensures r.Some? ==> r.value in chs && r.value.key == key
  {
    if chs == [] then None
    else if chs[0].key == key then Some(chs[0])
    else FindChannel(chs[1..], key)
  }

  function Relinked(parts: seq<Part>, uid: nat, channel: string, ref: Option<nat>, proposed: map<nat, Row>): (r: seq<Part>)
    ensures |r| == |parts|
  {
    if parts == [] then []
    else
      var b := parts[0];
      [if b.uid == uid then b.(channels := Put(b.channels, channel, ref), proposed := proposed) else b] + Relinked(parts[1..], uid, channel, ref, proposed)
  }

  /** The draft as it is, when the part or the reading is unknown. */
  function Reading(d: Draft, uid: nat, channel: string, drivers: Drivers): Option<(Part, Channel)> {
    if d.wiring.None? then None
    else
      var b := FindPart(d.wiring.value.inputs, uid);
      if b.None? || b.value.driver !in drivers then None
      else
        var ch := FindChannel(drivers[b.value.driver], channel);
        if ch.None? then None else Some((b.value, ch.value))
  }

  function KeepReading(d: Draft, uid: nat, channel: string, keep: bool, drivers: Drivers, counter: nat): Reconciliation {
    var found := Reading(d, uid, channel, drivers);
    if found.None? then Reconciliation(d, counter)
    else
      var b, ch, w := found.value.0, found.value.1, d.wiring.value;
      if keep then
        if Get(b.channels, channel).Some? then Reconciliation(d, counter)
        else
          var free := FirstFree(d.metrics, ch.stem, TypeOf(Inputs, ch), LinkedRows(w.inputs));
          if free.Some? then
            Reconciliation(d.(wiring := Some(w.(inputs := Relinked(w.inputs, uid, channel, free, b.proposed)))), counter)
          else
            var row := NewRow(Inputs, ch, d.metrics, counter);
            var inputs := Relinked(w.inputs, uid, channel, Some(counter), b.proposed[counter := row]);
            Reconciliation(Draft(d.metrics + [row], d.actuators, Some(w.(inputs := inputs))), counter + 1)
      else
        var ref := Get(b.channels, channel);
        if ref.None? then Reconciliation(d, counter)
        else
          var row := FindRow(d.metrics, ref.value);
          var untouched := row.Some? && ref.value in b.proposed && b.proposed[ref.value] == row.value;
          var inputs := Relinked(w.inputs, uid, channel, None, if untouched then b.proposed - {ref.value} else b.proposed);
          var metrics := if untouched && ref.value !in Taken(w.inputs, uid) then KeepRows(d.metrics, {ref.value}) else d.metrics;
          Reconciliation(Draft(metrics, d.actuators, Some(w.(inputs := inputs))), counter)
  }

  function LinkedRows(parts: seq<Part>): set<nat> {
    if parts == [] then {} else Refs(parts[0].channels) + LinkedRows(parts[1..])
  }
}
