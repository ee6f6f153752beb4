/** Runs of wiring edits keep the template sound; adding a part and taking it out
    again, or keeping a reading and dropping it again, undo each other. */
module PartRuns {
  import opened Wrappers
  import opened PartLinks
  import opened TemplateParts
  import opened PartsSound
  import opened PartEdits

  // ---- Parts by uid -----------------------------------------------------------------------

  ghost predicate DistinctParts(parts: seq<Part>) {
    forall i, j | 0 <= i < j < |parts| :: parts[i].uid != parts[j].uid
  }

  function UidsOf(parts: seq<Part>): set<nat> {
    set b | b in parts :: b.uid
  }

  ghost predicate SplitUids(w: Wiring) {
    DistinctParts(w.inputs) && DistinctParts(w.outputs) && UidsOf(w.inputs) !! UidsOf(w.outputs)
  }

  lemma UidsSplit(w: Wiring)
    requires PartUids(w)
    ensures SplitUids(w)
  {
    PartsDistinct(w, Inputs);
    PartsDistinct(w, Outputs);
    assert PartsOf(w, Inputs) == w.inputs && PartsOf(w, Outputs) == w.outputs;
    var all, n := w.inputs + w.outputs, |w.inputs|;
    forall a, b | a in w.inputs && b in w.outputs ensures a.uid != b.uid {
      var i :| 0 <= i < n && w.inputs[i] == a;
      var j :| 0 <= j < |w.outputs| && w.outputs[j] == b;
      assert all[i] == a && all[n + j] == b;
    }
  }

  lemma UidsJoin(w: Wiring)
    requires SplitUids(w)
    ensures PartUids(w)
  {
    var all, n := w.inputs + w.outputs, |w.inputs|;
    forall i, j | 0 <= i < j < |all| ensures all[i].uid != all[j].uid {
      if i < n && j >= n {
        assert all[i] in w.inputs && all[j] in w.outputs;
        assert all[i].uid in UidsOf(w.inputs) && all[j].uid in UidsOf(w.outputs);
      }
    }
  }

  lemma {:induction false} PartMapFrom(parts: seq<Part>, u: nat)
    requires u in PartMap(parts)
    ensures PartMap(parts)[u] in parts && PartMap(parts)[u].uid == u
    decreases |parts|
  {
    if u != parts[|parts| - 1].uid {
      PartMapFrom(parts[..|parts| - 1], u);
    }
  }

  lemma {:induction false} PartMapHas(parts: seq<Part>, i: nat)
    requires DistinctParts(parts) && i < |parts|
    ensures parts[i].uid in PartMap(parts) && PartMap(parts)[parts[i].uid] == parts[i]
    decreases |parts|
  {
    if i < |parts| - 1 {
      PartMapHas(parts[..|parts| - 1], i);
    }
  }

  lemma PartMapIs(parts: seq<Part>)
    requires DistinctParts(parts)
    ensures forall b | b in parts :: b.uid in PartMap(parts) && PartMap(parts)[b.uid] == b
    ensures forall u | u in PartMap(parts) :: PartMap(parts)[u] in parts && PartMap(parts)[u].uid == u
  {
    forall b | b in parts ensures b.uid in PartMap(parts) && PartMap(parts)[b.uid] == b {
      var i :| 0 <= i < |parts| && parts[i] == b;
      PartMapHas(parts, i);
    }
    forall u | u in PartMap(parts) ensures PartMap(parts)[u] in parts && PartMap(parts)[u].uid == u {
      PartMapFrom(parts, u);
    }
  }

  lemma BeforeIs(w: Wiring)
    requires PartUids(w)
    ensures forall kind, b | b in PartsOf(w, kind) :: b.uid in Before(Some(w)) && Before(Some(w))[b.uid] == b
    ensures forall u | u in Before(Some(w)) :: Before(Some(w))[u].uid == u && (Before(Some(w))[u] in w.inputs || Before(Some(w))[u] in w.outputs)
  {
    PartMapIs(w.inputs + w.outputs);
  }

  // ---- The edits ----------------------------------------------------------------------------

  /** `Begin` starts empty wiring, `Clear` takes all wiring away; a part added or put
      in place of another comes with nothing linked; `Rewire` is any other change, with
      any number of parts gone, new or on another driver. */
  datatype Edit =
    | Begin
    | Clear
    | Add(kind: Kind, part: Part)
    | Remove(kind: Kind, index: nat)
    | Replace(kind: Kind, index: nat, part: Part)
    | Choose(uid: nat, channel: string, keep: bool)
    | Rewire(wiring: Wiring)

  ghost predicate Allowed(d: Draft, e: Edit) {
    match e
    case Begin => true
    case Clear => true
    case Add(_, part) => d.wiring.Some? && part.uid !in UidsOf(d.wiring.value.inputs + d.wiring.value.outputs) && Refs(part.channels) == {}
    case Remove(kind, index) => d.wiring.Some? && index < |PartsOf(d.wiring.value, kind)|
    case Replace(kind, index, part) =>
      && d.wiring.Some? && index < |PartsOf(d.wiring.value, kind)|
      && part.uid == PartsOf(d.wiring.value, kind)[index].uid && Refs(part.channels) == {}
    case Choose(_, _, _) => true
    case Rewire(_) => false
  }

  /** A rewiring may be made when its fresh parts keep apart. */
  ghost predicate Permitted(r: Reconciliation, e: Edit, drivers: Drivers) {
    if e.Rewire? then PartUids(e.wiring) && Ready(r.draft, e.wiring, drivers, r.next, Inputs) && Ready(r.draft, e.wiring, drivers, r.next, Outputs)
    else Allowed(r.draft, e)
  }

  function WithParts(w: Wiring, kind: Kind, parts: seq<Part>): Wiring {
    if kind == Inputs then w.(inputs := parts) else w.(outputs := parts)
  }

  function EditedParts(parts: seq<Part>, e: Edit): seq<Part> {
    match e
    case Add(_, part) => parts + [part]
    case Remove(_, index) => if index < |parts| then parts[..index] + parts[index + 1..] else parts
    case Replace(_, index, part) => if index < |parts| then parts[index := part] else parts
    case _ => parts
  }

  function KindOf(e: Edit): Kind {
    match e
    case Add(kind, _) => kind
    case Remove(kind, _) => kind
    case Replace(kind, _, _) => kind
    case _ => Inputs
  }

  function Edited(r: Reconciliation, e: Edit, drivers: Drivers): Reconciliation {
    var d := r.draft;
    match e
    case Begin => Reconciled(d, Some(Wiring([], [])), Some(drivers), r.next)
    case Clear => Reconciled(d, None, Some(drivers), r.next)
    case Choose(uid, channel, keep) => KeepReading(d, uid, channel, keep, drivers, r.next)
    case Rewire(wiring) => Reconciled(d, Some(wiring), Some(drivers), r.next)
    case _ =>
      if d.wiring.None? then r
      else
        var w := d.wiring.value;
        Reconciled(d, Some(WithParts(w, KindOf(e), EditedParts(PartsOf(w, KindOf(e)), e))), Some(drivers), r.next)
  }

  // ---- Reconciling keeps the draft sound ---------------------------------------------------------

  /** Every part but the `k`th comes from the draft's own side, and the `k`th is a
      blank one, new or in place of one of that side. */
  ghost predicate FromSide(d: Draft, next: Wiring, kind: Kind, k: nat) {
    var parts := PartsOf(next, kind);
    && (forall i | 0 <= i < |parts| :: i != k ==> d.wiring.Some? && parts[i] in PartsOf(d.wiring.value, kind))
    && (k < |parts| ==> Refs(parts[k].channels) == {} && (d.wiring.Some? ==> Replaces(parts[k], d.wiring.value, kind)))
  }

  ghost predicate Replaces(b: Part, w: Wiring, kind: Kind) {
    b.uid in UidsOf(w.inputs + w.outputs) ==> b.uid in UidsOf(PartsOf(w, kind))
  }

  lemma ApartIn(parts: seq<Part>, a: Part, b: Part)
    requires Apart(parts) && a in parts && b in parts && a.uid != b.uid
    ensures Refs(a.channels) !! Refs(b.channels)
  {
    var i :| 0 <= i < |parts| && parts[i] == a;
    var j :| 0 <= j < |parts| && parts[j] == b;
    assert i < j || j < i;
  }

  /** The draft's own parts stay in place, link rows of the draft and none twice. */
  lemma OthersKept(d: Draft, counter: nat, next: Wiring, kind: Kind, k: nat)
    requires Sound(d, counter) && PartUids(next) && FromSide(d, next, kind, k)
    ensures var parts := PartsOf(next, kind);
      && (forall i | 0 <= i < |parts| && i != k :: Kept(Before(d.wiring), parts[i]) && Once(parts[i].channels) && Refs(parts[i].channels) <= Uids(RowsOf(d, kind)))
      && (forall i, j | 0 <= i < j < |parts| && i != k && j != k :: Refs(parts[i].channels) !! Refs(parts[j].channels))
  {
    var parts := PartsOf(next, kind);
    PartsDistinct(next, kind);
    if d.wiring.Some? {
      BeforeIs(d.wiring.value);
      forall i, j | 0 <= i < j < |parts| && i != k && j != k
        ensures Refs(parts[i].channels) !! Refs(parts[j].channels)
      {
        ApartIn(PartsOf(d.wiring.value, kind), parts[i], parts[j]);
      }
    }
  }

  /** The fresh part takes over only what its predecessor linked. */
  lemma FreshStartsOwn(d: Draft, counter: nat, next: Wiring, drivers: Drivers, kind: Kind, k: nat)
    requires Sound(d, counter) && PartUids(next) && FromSide(d, next, kind, k) && k < |PartsOf(next, kind)|
    ensures StartsOwn(d, next, drivers, counter, kind, k)
  {
    var parts, before := PartsOf(next, kind), Before(d.wiring);
    PartsDistinct(next, kind);
    UnlinkedOnce(parts[k].channels);
    if d.wiring.Some? && parts[k].uid in before {
      var w := d.wiring.value;
      BeforeIs(w);
      var was := before[parts[k].uid];
      assert was in w.inputs + w.outputs && was.uid in UidsOf(w.inputs + w.outputs);
      var b :| b in PartsOf(w, kind) && b.uid == parts[k].uid;
      assert b == was;
      forall i | 0 <= i < |parts| && i != k
        ensures Refs(parts[i].channels) !! Refs(was.channels)
      {
        ApartIn(PartsOf(w, kind), parts[i], was);
      }
    }
  }

  lemma FromSideReady(d: Draft, counter: nat, next: Wiring, drivers: Drivers, kind: Kind, k: nat)
    requires Sound(d, counter) && PartUids(next) && FromSide(d, next, kind, k)
    ensures Ready(d, next, drivers, counter, kind)
  {
    hide Sound, Before, PartUids, Spread, StartsOwn, Once;
    var parts := PartsOf(next, kind);
    OthersKept(d, counter, next, kind, k);
    OneSpreads(ContextOf(d, next, drivers), kind, RowsOf(d, kind), k);
    if k < |parts| {
      FreshStartsOwn(d, counter, next, drivers, kind, k);
      UnlinkedOnce(parts[k].channels);
    }
  }

  /** One fresh part at most has no other to keep apart from. */
  lemma OneSpreads(c: Context, kind: Kind, rows: seq<Row>, k: nat)
    requires forall i | 0 <= i < |PartsOf(c.next, kind)| && i != k :: Kept(c.before, PartsOf(c.next, kind)[i])
    ensures Spread(kind, c, rows)
  {
    hide KeepApart;
  }

  lemma EditUids(w: Wiring, e: Edit)
    requires PartUids(w) && (e.Add? || e.Remove? || e.Replace?)
    requires Allowed(Draft([], [], Some(w)), e)
    ensures var kind := KindOf(e); PartUids(WithParts(w, kind, EditedParts(PartsOf(w, kind), e)))
  {
    var kind := KindOf(e);
    var parts := PartsOf(w, kind);
    var after := EditedParts(parts, e);
    UidsSplit(w);
    forall i, j | 0 <= i < j < |after| ensures after[i].uid != after[j].uid {
      if e.Add? && j == |parts| {
        assert parts[i] in w.inputs + w.outputs;
      }
    }
    forall b | b in after ensures b.uid in UidsOf(parts) || (e.Add? && b == e.part) {
      if e.Replace? && b == e.part { assert parts[e.index] in parts; }
    }
    forall b | b in w.inputs || b in w.outputs ensures b.uid in UidsOf(w.inputs + w.outputs) {
      assert b in w.inputs + w.outputs;
    }
    UidsJoin(WithParts(w, kind, after));
  }

  lemma ReconcileEdit(d: Draft, next: Wiring, drivers: Drivers, counter: nat, k: nat, l: nat)
    requires Sound(d, counter) && PartUids(next)
    requires FromSide(d, next, Inputs, k) && FromSide(d, next, Outputs, l)
    ensures var r := ReconciledTo(d, next, drivers, counter); Sound(r.draft, r.next) && r.next >= counter
  {
    FromSideReady(d, counter, next, drivers, Inputs, k);
    FromSideReady(d, counter, next, drivers, Outputs, l);
    ReconcileSound(d, next, drivers, counter);
  }

  /** Where the edit's fresh part is; past the end when there is none. */
  function FreshAt(parts: seq<Part>, e: Edit): nat {
    if e.Replace? then e.index else |parts|
  }

  lemma EditFromSide(d: Draft, e: Edit, kind: Kind)
    requires d.wiring.Some? && Allowed(d, e) && (e.Add? || e.Remove? || e.Replace?)
    ensures var w := d.wiring.value;
      var next := WithParts(w, KindOf(e), EditedParts(PartsOf(w, KindOf(e)), e));
      FromSide(d, next, kind, if kind == KindOf(e) then FreshAt(PartsOf(w, kind), e) else |PartsOf(next, kind)|)
  {
    var w := d.wiring.value;
    var parts := PartsOf(w, KindOf(e));
    if e.Replace? { assert parts[e.index] in parts; }
  }

  // ---- Choosing readings keeps it sound ------------------------------------------------------------

  lemma {:induction false} RelinkedAt(parts: seq<Part>, uid: nat, channel: string, ref: Option<nat>, proposed: map<nat, Row>, i: nat)
    requires i < |parts|
    ensures Relinked(parts, uid, channel, ref, proposed)[i]
         == if parts[i].uid == uid then parts[i].(channels := Put(parts[i].channels, channel, ref), proposed := proposed) else parts[i]
  {
    if i > 0 {
      RelinkedAt(parts[1..], uid, channel, ref, proposed, i - 1);
    }
  }

  lemma {:induction false} LinkedRowsHas(parts: seq<Part>, b: Part)
    requires b in parts
    ensures Refs(b.channels) <= LinkedRows(parts)
  {
    if parts[0] != b {
      LinkedRowsHas(parts[1..], b);
    }
  }

  /** Unlinking a reading takes its row, and no other, out of the part's links. */
  lemma {:induction false} PutNone(links: Links, key: string)
    requires Once(links)
    ensures Refs(Put(links, key, None)) == Refs(links) - RefOf(Get(links, key))
    ensures Once(Put(links, key, None))
  {
    if links == [] {
      assert Put(links, key, None)[1..] == [];
    } else if links[0].0 == key {
      assert Put(links, key, None)[1..] == links[1..];
    } else {
      PutNone(links[1..], key);
      assert Put(links, key, None)[1..] == Put(links[1..], key, None);
      if Get(links, key).Some? { GetIsRef(links[1..], key); }
    }
  }

  /** Relinking one reading keeps a side sound if the part's new links are: each once,
      to rows there are, and to none another part links. */
  lemma RelinkedSound(parts: seq<Part>, rows: seq<Row>, after: seq<Row>, b: Part, channel: string, ref: Option<nat>, proposed: map<nat, Row>)
    requires DistinctParts(parts) && SideSound(parts, rows) && b in parts
    requires var links := Put(b.channels, channel, ref); Once(links) && Refs(links) <= Uids(after)
    requires forall o | o in parts && o != b :: Refs(o.channels) <= Uids(after) && RefOf(ref) !! Refs(o.channels)
    requires Refs(Put(b.channels, channel, ref)) <= Refs(b.channels) + RefOf(ref)
    ensures SideSound(Relinked(parts, b.uid, channel, ref, proposed), after)
  {
    var now := Relinked(parts, b.uid, channel, ref, proposed);
    var k :| 0 <= k < |parts| && parts[k] == b;
    forall i | 0 <= i < |parts|
      ensures now[i] == if i == k then b.(channels := Put(b.channels, channel, ref), proposed := proposed) else parts[i]
    {
      RelinkedAt(parts, b.uid, channel, ref, proposed, i);
    }
    hide Relinked, Put, Once, Refs;
    RelinkedApart(parts, now, k, ref);
    forall o | o in now ensures Once(o.channels) && Refs(o.channels) <= Uids(after) {
      var i :| 0 <= i < |now| && now[i] == o;
    }
  }

  lemma RelinkedApart(parts: seq<Part>, now: seq<Part>, k: nat, ref: Option<nat>)
    requires DistinctParts(parts) && Apart(parts) && k < |parts| == |now| && forall i | 0 <= i < |parts| && i != k :: now[i] == parts[i]
    requires Refs(now[k].channels) <= Refs(parts[k].channels) + RefOf(ref)
    requires forall o | o in parts && o != parts[k] :: RefOf(ref) !! Refs(o.channels)
    ensures Apart(now)
  {
    hide RefOf, Refs;
    forall i, j | 0 <= i < j < |now|
      ensures Refs(now[i].channels) !! Refs(now[j].channels)
    {
      assert Refs(parts[i].channels) !! Refs(parts[j].channels);
      assert parts[i] in parts && parts[j] in parts && parts[i].uid != parts[j].uid;
    }
  }

  lemma RelinkedUids(w: Wiring, uid: nat, channel: string, ref: Option<nat>, proposed: map<nat, Row>)
    requires PartUids(w)
    ensures PartUids(w.(inputs := Relinked(w.inputs, uid, channel, ref, proposed)))
  {
    forall i | 0 <= i < |w.inputs|
      ensures Relinked(w.inputs, uid, channel, ref, proposed)[i].uid == w.inputs[i].uid
    {
      RelinkedAt(w.inputs, uid, channel, ref, proposed, i);
    }
    SamePartUids(w, w.(inputs := Relinked(w.inputs, uid, channel, ref, proposed)));
  }

  lemma JoinRows(metrics: seq<Row>, actuators: seq<Row>, next: nat)
    requires DistinctUids(metrics) && DistinctUids(actuators) && Uids(metrics) !! Uids(actuators)
    requires Below(metrics, next) && Below(actuators, next)
    ensures DistinctUids(metrics + actuators) && Below(metrics + actuators, next)
  {
    var all, n := metrics + actuators, |metrics|;
    forall i, j | 0 <= i < j < |all| ensures all[i].uid != all[j].uid {
      if i < n && j >= n {
        assert all[i] in metrics && all[j] in actuators;
        assert all[i].uid in Uids(metrics) && all[j].uid in Uids(actuators);
      }
    }
  }

  lemma SplitRows(d: Draft, next: nat)
    requires DistinctUids(AllRows(d)) && Below(AllRows(d), next)
    ensures DistinctUids(d.metrics) && DistinctUids(d.actuators) && Uids(d.metrics) !! Uids(d.actuators)
    ensures Below(d.metrics, next) && Below(d.actuators, next)
  {
    RowsDistinct(d, Inputs);
    RowsDistinct(d, Outputs);
    assert RowsOf(d, Inputs) == d.metrics && RowsOf(d, Outputs) == d.actuators;
    forall row | row in d.metrics || row in d.actuators ensures row.uid < next {
      assert row in AllRows(d);
    }
  }

  /** Linking one more row of the draft, which no part links yet. */
  lemma LinkSound(parts: seq<Part>, rows: seq<Row>, after: seq<Row>, b: Part, channel: string, u: nat, proposed: map<nat, Row>)
    requires DistinctParts(parts) && SideSound(parts, rows) && b in parts && Get(b.channels, channel).None?
    requires Uids(rows) <= Uids(after) && u in Uids(after) && u !in LinkedRows(parts)
    ensures SideSound(Relinked(parts, b.uid, channel, Some(u), proposed), after)
  {
    PutRefs(b.channels, channel, Some(u));
    forall o | o in parts ensures Refs(o.channels) <= Uids(after) && u !in Refs(o.channels) {
      LinkedRowsHas(parts, o);
    }
    RelinkedSound(parts, rows, after, b, channel, Some(u), proposed);
  }

  lemma {:induction false} LinkedRowsIn(parts: seq<Part>, rows: seq<Row>)
    requires forall b | b in parts :: Refs(b.channels) <= Uids(rows)
    ensures LinkedRows(parts) <= Uids(rows)
    decreases parts
  {
    if parts != [] {
      assert parts[0] in parts;
      LinkedRowsIn(parts[1..], rows);
    }
  }

  lemma KeepSound(d: Draft, counter: nat, uid: nat, channel: string, drivers: Drivers)
    requires Sound(d, counter)
    ensures var r := KeepReading(d, uid, channel, true, drivers, counter); Sound(r.draft, r.next) && r.next >= counter
  {
    var found := Reading(d, uid, channel, drivers);
    if found.Some? && Get(found.value.0.channels, channel).None? {
      var b, ch, w := found.value.0, found.value.1, d.wiring.value;
      var free := FirstFree(d.metrics, ch.stem, TypeOf(Inputs, ch), LinkedRows(w.inputs));
      if free.Some? {
        LinkedSound(d, counter, b, channel, free.value, b.proposed);
      } else {
        NewLinkedSound(d, counter, b, channel, NewRow(Inputs, ch, d.metrics, counter));
      }
    }
  }

  /** Linking a row no part links. */
  lemma LinkedSound(d: Draft, counter: nat, b: Part, channel: string, u: nat, proposed: map<nat, Row>)
    requires Sound(d, counter) && d.wiring.Some? && b in d.wiring.value.inputs && Get(b.channels, channel).None?
    requires u in Uids(d.metrics) && u !in LinkedRows(d.wiring.value.inputs)
    ensures var w := d.wiring.value; Sound(d.(wiring := Some(w.(inputs := Relinked(w.inputs, b.uid, channel, Some(u), proposed)))), counter)
  {
    var w := d.wiring.value;
    UidsSplit(w);
    LinkSound(w.inputs, d.metrics, d.metrics, b, channel, u, proposed);
    RelinkedUids(w, b.uid, channel, Some(u), proposed);
  }

  /** Linking a new row. */
  lemma NewLinkedSound(d: Draft, counter: nat, b: Part, channel: string, row: Row)
    requires Sound(d, counter) && d.wiring.Some? && b in d.wiring.value.inputs && Get(b.channels, channel).None? && row.uid == counter
    ensures var w := d.wiring.value;
      Sound(Draft(d.metrics + [row], d.actuators, Some(w.(inputs := Relinked(w.inputs, b.uid, channel, Some(counter), b.proposed[counter := row])))), counter + 1)
  {
    hide Reading;
    var w := d.wiring.value;
    UidsSplit(w);
    SplitRows(d, counter);
    LinkedRowsIn(w.inputs, d.metrics);
    assert Uids(d.metrics + [row]) == Uids(d.metrics) + {counter};
    JoinRows(d.metrics + [row], d.actuators, counter + 1);
    LinkSound(w.inputs, d.metrics, d.metrics + [row], b, channel, counter, b.proposed[counter := row]);
    RelinkedUids(w, b.uid, channel, Some(counter), b.proposed[counter := row]);
  }

  /** Unlinking a reading, and taking its row out when no other part links it. */
  lemma UnlinkSound(parts: seq<Part>, rows: seq<Row>, b: Part, channel: string, u: nat, proposed: map<nat, Row>)
    requires DistinctParts(parts) && SideSound(parts, rows) && b in parts && Get(b.channels, channel) == Some(u)
    ensures SideSound(Relinked(parts, b.uid, channel, None, proposed), KeepRows(rows, {u}))
    ensures SideSound(Relinked(parts, b.uid, channel, None, proposed), rows)
  {
    PutNone(b.channels, channel);
    GetIsRef(b.channels, channel);
    UidsKept(rows, {u}, Refs(b.channels) - {u});
    forall o | o in parts && o != b ensures Refs(o.channels) <= Uids(KeepRows(rows, {u})) {
      var i :| 0 <= i < |parts| && parts[i] == o;
      var k :| 0 <= k < |parts| && parts[k] == b;
      ApartIn(parts, o, b);
      UidsKept(rows, {u}, Refs(o.channels));
    }
    RelinkedSound(parts, rows, KeepRows(rows, {u}), b, channel, None, proposed);
    RelinkedSound(parts, rows, rows, b, channel, None, proposed);
  }

  lemma DropSound(d: Draft, counter: nat, uid: nat, channel: string, drivers: Drivers)
    requires Sound(d, counter)
    ensures var r := KeepReading(d, uid, channel, false, drivers, counter); Sound(r.draft, r.next) && r.next >= counter
  {
    var found := Reading(d, uid, channel, drivers);
    if found.Some? && Get(found.value.0.channels, channel).Some? {
      var b, w := found.value.0, d.wiring.value;
      var u := Get(b.channels, channel).value;
      UidsSplit(w);
      SplitRows(d, counter);
      KeptRows(d.metrics, {u});
      KeptDistinct(d.metrics, {u});
      JoinRows(KeepRows(d.metrics, {u}), d.actuators, counter);
      var r := KeepReading(d, uid, channel, false, drivers, counter);
      var proposed := if FindRow(d.metrics, u).Some? && u in b.proposed && b.proposed[u] == FindRow(d.metrics, u).value then b.proposed - {u} else b.proposed;
      UnlinkSound(w.inputs, d.metrics, b, channel, u, proposed);
      RelinkedUids(w, uid, channel, None, proposed);
    }
  }

  // ---- Runs ---------------------------------------------------------------------------------------

  lemma EditSound(r: Reconciliation, e: Edit, drivers: Drivers)
    requires Sound(r.draft, r.next) && Permitted(r, e, drivers)
    ensures Sound(Edited(r, e, drivers).draft, Edited(r, e, drivers).next)
  {
    hide ReconciledTo, KeepReading;
    var d := r.draft;
    match e
    case Begin => ReconcileEdit(d, Wiring([], []), drivers, r.next, 0, 0);
    case Clear =>
      if d.wiring.Some? { ReconcileEdit(d, Wiring([], []), drivers, r.next, 0, 0); }
    case Choose(uid, channel, keep) =>
      if keep { KeepSound(d, r.next, uid, channel, drivers); } else { DropSound(d, r.next, uid, channel, drivers); }
    case Rewire(wiring) => ReconcileSound(d, wiring, drivers, r.next);
    case _ => PartEditSound(r, e, drivers);
  }

  lemma PartEditSound(r: Reconciliation, e: Edit, drivers: Drivers)
    requires Sound(r.draft, r.next) && Allowed(r.draft, e) && (e.Add? || e.Remove? || e.Replace?)
    ensures Sound(Edited(r, e, drivers).draft, Edited(r, e, drivers).next)
  {
    hide FromSide, ReconciledTo, KeepReading;
    var d, kind := r.draft, KindOf(e);
    var w := d.wiring.value;
    var next := WithParts(w, kind, EditedParts(PartsOf(w, kind), e));
    EditUids(w, e);
    EditFromSide(d, e, Inputs);
    EditFromSide(d, e, Outputs);
    var k := FreshAt(PartsOf(w, kind), e);
    ReconcileEdit(d, next, drivers, r.next, if kind == Inputs then k else |next.inputs|, if kind == Outputs then k else |next.outputs|);
  }

  ghost predicate AllowedRun(r: Reconciliation, es: seq<Edit>, drivers: Drivers)
    decreases es
  {
    es != [] ==> Permitted(r, es[0], drivers) && AllowedRun(Edited(r, es[0], drivers), es[1..], drivers)
  }

  ghost function Run(r: Reconciliation, es: seq<Edit>, drivers: Drivers): Reconciliation
    decreases es
  {
    if es == [] then r else Run(Edited(r, es[0], drivers), es[1..], drivers)
  }

  /** After any run of edits every link names a row of its side, no row is linked
      twice, and row and part uids are unique. */
  lemma {:induction false} RunSound(r: Reconciliation, es: seq<Edit>, drivers: Drivers)
    requires Sound(r.draft, r.next) && AllowedRun(r, es, drivers)
    ensures Sound(Run(r, es, drivers).draft, Run(r, es, drivers).next)
    decreases es
  {
    if es != [] {
      EditSound(r, es[0], drivers);
      RunSound(Edited(r, es[0], drivers), es[1..], drivers);
    }
  }
}
