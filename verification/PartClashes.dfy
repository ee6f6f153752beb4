/** When two new parts that want the same reading end up on one row. */
module PartClashes {
  import opened Wrappers
  import opened Text
  import opened FreeKey
  import opened PartLinks
  import opened TemplateParts
  import opened PartsSound

  // ---- Rows that do not matter ----------------------------------------------------------------

  /** Nothing the channel takes or proposes goes by the key. */
  ghost predicate Unrelated(ch: Channel, key: string) {
    ch.stem != key && forall k: nat :: k >= 1 ==> Trim(Candidate(ch.stem, k)) != key
  }

  predicate Other(rows: seq<Row>, key: string) {
    forall row | row in rows :: Trim(row.key) != key
  }

  lemma {:induction false} FirstFreeAppend(rows: seq<Row>, more: seq<Row>, key: string, typ: string, busy: set<nat>)
    ensures FirstFree(rows + more, key, typ, busy) == if FirstFree(rows, key, typ, busy).Some? then FirstFree(rows, key, typ, busy) else FirstFree(more, key, typ, busy)
    decreases rows
  {
    if rows == [] {
      assert rows + more == more;
    } else {
      assert (rows + more)[1..] == rows[1..] + more;
      FirstFreeAppend(rows[1..], more, key, typ, busy);
    }
  }

  lemma {:induction false} FirstFreeOther(rows: seq<Row>, key: string, typ: string, busy: set<nat>)
    requires Other(rows, key)
    ensures FirstFree(rows, key, typ, busy) == None
    decreases rows
  {
    if rows != [] {
      assert rows[0] in rows;
      FirstFreeOther(rows[1..], key, typ, busy);
    }
  }

  /** Rows of other keys may be busy or not. */
  lemma {:induction false} FirstFreeBusy(rows: seq<Row>, key: string, typ: string, busy: set<nat>, more: set<nat>)
    requires forall row | row in rows && row.uid in more :: Trim(row.key) != key
    ensures FirstFree(rows, key, typ, busy + more) == FirstFree(rows, key, typ, busy)
    decreases rows
  {
    if rows != [] {
      assert rows[0] in rows;
      FirstFreeBusy(rows[1..], key, typ, busy, more);
    }
  }

  // ---- Filling channels that do not matter -------------------------------------------------------

  ghost predicate AllUnrelated(chs: seq<Channel>, key: string) {
    forall ch | ch in chs && ch.common :: Unrelated(ch, key)
  }

  /** Links to rows of other keys. */
  ghost predicate LinksOther(f: Filling, key: string) {
    forall row | row in f.rows && row.uid in Refs(f.links) :: Trim(row.key) != key
  }

  lemma FillOneUnrelated(kind: Kind, ch: Channel, f: Filling, taken: set<nat>, key: string) returns (more: seq<Row>)
    requires Filled(f, taken) && (ch.common ==> Unrelated(ch, key)) && LinksOther(f, key)
    ensures var r := FillOne(kind, ch, f, taken); r.rows == f.rows + more && Other(more, key) && LinksOther(r, key)
  {
    var r := FillOne(kind, ch, f, taken);
    var free := FirstFree(f.rows, ch.stem, TypeOf(kind, ch), taken + Refs(f.links));
    more := [];
    if Get(f.links, ch.key).None? {
      PutRefs(f.links, ch.key, None);
      PutRefs(f.links, ch.key, free);
      PutRefs(f.links, ch.key, Some(f.next));
      if ch.common && free.Some? {
        var found :| found in f.rows && found.uid == free.value && Trim(found.key) == ch.stem;
        forall row | row in f.rows && row.uid in Refs(r.links) ensures Trim(row.key) != key {
          if row.uid == free.value { SameRow(f.rows, row, found); }
        }
      } else if ch.common {
        var made := NewRow(kind, ch, f.rows, f.next);
        assert made.key == Candidate(ch.stem, SearchFrom(ch.stem, Keys(f.rows), 1));
        more := [made];
      }
    }
  }

  lemma {:induction false} FillUnrelated(kind: Kind, chs: seq<Channel>, f: Filling, taken: set<nat>, key: string) returns (more: seq<Row>)
    requires Filled(f, taken) && AllUnrelated(chs, key) && LinksOther(f, key)
    ensures var r := Fill(kind, chs, f, taken); r.rows == f.rows + more && Other(more, key) && LinksOther(r, key) && Filled(r, taken)
    decreases chs
  {
    hide FillOne, Unrelated, LinksOther, Filled;
    more := [];
    if chs != [] {
      var first := FillOneUnrelated(kind, chs[0], f, taken, key);
      FillOneFilled(kind, chs[0], f, taken);
      assert AllUnrelated(chs[1..], key);
      var rest := FillUnrelated(kind, chs[1..], FillOne(kind, chs[0], f, taken), taken, key);
      more := first + rest;
      assert (f.rows + first) + rest == f.rows + more;
    }
  }

  lemma KeysOther(rows: seq<Row>, more: seq<Row>, key: string)
    requires Other(more, key)
    ensures key in Keys(rows + more) <==> key in Keys(rows)
  {
    if key in Keys(rows) {
      var row :| row in rows && Trim(row.key) == key;
      assert row in rows + more;
    }
  }

  // ---- The channel that matters -------------------------------------------------------------------

  /** A trimmed key with a number after it trims to itself, not to the key. */
  lemma NumberedKey(key: string, k: nat)
    requires Trim(key) == key && k >= 2
    ensures Trim(Candidate(key, k)) != key
  {
    var s := Candidate(key, k);
    DecimalReads(k);
    var d := Decimal(k);
    assert s[|s| - 1] == d[|d| - 1] && !IsSpace(s[|s| - 1]);
    if key != [] {
      TrimLeftStarts(key);
      TrimRightEnds(TrimLeft(key));
      assert !IsSpace(key[0]) && s[0] == key[0];
    }
    assert TrimLeft(s) == s && TrimRight(s) == s;
  }

  /** How the rows a channel leaves look to a later part: the free row it found is still
      the first; the row it made is, if its key was not blocked; else there is none. */
  ghost predicate LeavesRows(kind: Kind, ch: Channel, rows: seq<Row>, next: nat, taken: set<nat>, after: seq<Row>, link: Option<nat>) {
    var was, now := FirstFree(rows, ch.stem, TypeOf(kind, ch), taken), FirstFree(after, ch.stem, TypeOf(kind, ch), taken);
    && link.Some?
    && (was.Some? ==> link == was && now == was)
    && (was.None? ==> link.value >= next && now == if Blocked(Keys(rows), ch.stem) then None else link)
  }

  lemma FillWanted(kind: Kind, ch: Channel, f: Filling, taken: set<nat>, rows: seq<Row>, before: seq<Row>) returns (more: seq<Row>)
    requires Filled(f, taken) && ch.common && Get(f.links, ch.key).None? && LinksOther(f, ch.stem) && Trim(ch.stem) == ch.stem
    requires f.rows == rows + before && Other(before, ch.stem)
    ensures var r := FillOne(kind, ch, f, taken);
      r.rows == f.rows + more && LeavesRows(kind, ch, rows, f.next, taken, r.rows, Get(r.links, ch.key))
  {
    var typ, r := TypeOf(kind, ch), FillOne(kind, ch, f, taken);
    FirstFreeBusy(f.rows, ch.stem, typ, taken, Refs(f.links));
    FirstFreeAppend(rows, before, ch.stem, typ, taken);
    FirstFreeOther(before, ch.stem, typ, taken);
    var free := FirstFree(f.rows, ch.stem, typ, taken);
    assert free == FirstFree(rows, ch.stem, typ, taken);
    GetPut(f.links, ch.key, free, ch.key);
    GetPut(f.links, ch.key, Some(f.next), ch.key);
    more := [];
    if free.None? {
      var made := NewRow(kind, ch, f.rows, f.next);
      more := [made];
      KeysOther(rows, before, ch.stem);
      MadeKey(kind, ch, f.rows, f.next);
      FirstFreeAppend(f.rows, more, ch.stem, typ, taken);
      assert [made][1..] == [];
    }
  }

  lemma MadeKey(kind: Kind, ch: Channel, rows: seq<Row>, uid: nat)
    requires Trim(ch.stem) == ch.stem
    ensures Trim(NewRow(kind, ch, rows, uid).key) == ch.stem <==> !Blocked(Keys(rows), ch.stem)
  {
    var k := SearchFrom(ch.stem, Keys(rows), 1);
    assert Candidate(ch.stem, 1) == ch.stem;
    if k >= 2 { NumberedKey(ch.stem, k); }
  }

  lemma {:induction false} FillConcat(kind: Kind, a: seq<Channel>, b: seq<Channel>, f: Filling, taken: set<nat>)
    ensures Fill(kind, a + b, f, taken) == Fill(kind, b, Fill(kind, a, f, taken), taken)
    decreases a
  {
    if a == [] {
      assert a + b == b;
    } else {
      assert (a + b)[0] == a[0] && (a + b)[1..] == a[1..] + b;
      FillConcat(kind, a[1..], b, FillOne(kind, a[0], f, taken), taken);
    }
  }

  /** A reading that none of its part's others interferes with. */
  ghost predicate Lone(chs: seq<Channel>, p: nat) {
    && p < |chs| && chs[p].common && Trim(chs[p].stem) == chs[p].stem
    && (forall i, j | 0 <= i < j < |chs| :: chs[i].key != chs[j].key)
    && (forall i | 0 <= i < |chs| && i != p && chs[i].common :: Unrelated(chs[i], chs[p].stem))
  }

  /** A part's lone reading, from channels that start unlinked. */
  lemma FillLone(kind: Kind, chs: seq<Channel>, p: nat, rows: seq<Row>, next: nat, taken: set<nat>)
    requires Lone(chs, p) && DistinctUids(rows) && Below(rows, next) && forall u | u in taken :: u < next
    ensures var r := Fill(kind, chs, Filling(rows, [], map[], next), taken);
      LeavesRows(kind, chs[p], rows, next, taken, r.rows, Get(r.links, chs[p].key))
  {
    var f, ch := Filling(rows, [], map[], next), chs[p];
    var pre, post := chs[..p], chs[p + 1..];
    assert chs == pre + ([ch] + post);
    assert AllUnrelated(pre, ch.stem);
    assert AllUnrelated(post, ch.stem);
    var g := Fill(kind, pre, f, taken);
    FillConcat(kind, pre, [ch] + post, f, taken);
    var before := FillUnrelated(kind, pre, f, taken, ch.stem);
    FillGrows(kind, pre, f, taken);
    FillOthers(kind, pre, f, taken, ch.key);
    assert ([ch] + post)[0] == ch && ([ch] + post)[1..] == post;
    var h := FillOne(kind, ch, g, taken);
    var made := FillWanted(kind, ch, g, taken, rows, before);
    FillOneFilled(kind, ch, g, taken);
    FillOthers(kind, post, h, taken, ch.key);
    FillRest(kind, post, h, taken, ch);
  }

  /** What comes after the lone reading leaves its rows as they look. */
  lemma FillRest(kind: Kind, post: seq<Channel>, h: Filling, taken: set<nat>, ch: Channel)
    requires Filled(h, taken) && AllUnrelated(post, ch.stem)
    ensures FirstFree(Fill(kind, post, h, taken).rows, ch.stem, TypeOf(kind, ch), taken) == FirstFree(h.rows, ch.stem, TypeOf(kind, ch), taken)
  {
    var after := RowsAfter(kind, post, h, taken, ch.stem);
    FirstFreeAppend(h.rows, after, ch.stem, TypeOf(kind, ch), taken);
    FirstFreeOther(after, ch.stem, TypeOf(kind, ch), taken);
  }

  lemma RowsAfterOne(kind: Kind, ch: Channel, f: Filling, taken: set<nat>, key: string) returns (more: seq<Row>)
    requires ch.common ==> Unrelated(ch, key)
    ensures FillOne(kind, ch, f, taken).rows == f.rows + more && Other(more, key)
  {
    hide FirstFree;
    var made := NewRow(kind, ch, f.rows, f.next);
    assert made.key == Candidate(ch.stem, SearchFrom(ch.stem, Keys(f.rows), 1));
    more := if FillOne(kind, ch, f, taken).rows == f.rows then [] else [made];
  }

  lemma {:induction false} RowsAfter(kind: Kind, chs: seq<Channel>, f: Filling, taken: set<nat>, key: string) returns (more: seq<Row>)
    requires AllUnrelated(chs, key)
    ensures Fill(kind, chs, f, taken).rows == f.rows + more && Other(more, key)
    decreases chs
  {
    hide FillOne, Unrelated;
    more := [];
    if chs != [] {
      assert AllUnrelated(chs[1..], key);
      var first := RowsAfterOne(kind, chs[0], f, taken, key);
      var rest := RowsAfter(kind, chs[1..], FillOne(kind, chs[0], f, taken), taken, key);
      more := first + rest;
      assert (f.rows + first) + rest == f.rows + more;
    }
  }

  // ---- New parts that want one reading -----------------------------------------------------------

  ghost predicate IsNew(b: Part, c: Context) {
    b.uid !in c.before && b.driver in c.drivers && Refs(b.channels) == {}
  }

  /** The ith part is new, with nothing linked, and wants this reading as its `ps[i]`th. */
  ghost predicate WantsIt(kind: Kind, c: Context, ps: seq<nat>, stem: string, typ: string, i: nat) {
    var parts := PartsOf(c.next, kind);
    && i < |parts| == |ps| && IsNew(parts[i], c) && Lone(c.drivers[parts[i].driver], ps[i])
    && Wanted(kind, c, ps, i).stem == stem && TypeOf(kind, Wanted(kind, c, ps, i)) == typ
  }

  ghost function Wanted(kind: Kind, c: Context, ps: seq<nat>, i: nat): Channel
    requires i < |PartsOf(c.next, kind)| == |ps| && PartsOf(c.next, kind)[i].driver in c.drivers
    requires ps[i] < |c.drivers[PartsOf(c.next, kind)[i].driver]|
  {
    c.drivers[PartsOf(c.next, kind)[i].driver][ps[i]]
  }

  /** Every part of the side is in place or new, and all the new ones want one reading. */
  ghost predicate AllWantIt(kind: Kind, c: Context, ps: seq<nat>, stem: string, typ: string) {
    var parts := PartsOf(c.next, kind);
    |ps| == |parts| && forall i | 0 <= i < |parts| :: Kept(c.before, parts[i]) || WantsIt(kind, c, ps, stem, typ, i)
  }

  /** The rows the parts in place link. */
  function InPlace(parts: seq<Part>, before: map<nat, Part>): set<nat> {
    if parts == [] then {} else (if Kept(before, parts[0]) then Refs(parts[0].channels) else {}) + InPlace(parts[1..], before)
  }

  /** To every new part, exactly those are taken. */
  lemma {:induction false} TakenInPlace(parts: seq<Part>, before: map<nat, Part>, uid: nat)
    requires uid !in before && forall b | b in parts && !Kept(before, b) :: Refs(b.channels) == {}
    ensures Taken(parts, uid) == InPlace(parts, before)
    decreases parts
  {
    if parts != [] {
      assert parts[0] in parts;
      TakenInPlace(parts[1..], before, uid);
    }
  }

  /** What the ith part's reading is linked to. */
  ghost function LinkOf(kind: Kind, c: Context, rows: seq<Row>, next: nat, ps: seq<nat>, i: nat): Option<nat>
    requires i < |PartsOf(c.next, kind)| == |ps| && PartsOf(c.next, kind)[i].driver in c.drivers
    requires ps[i] < |c.drivers[PartsOf(c.next, kind)[i].driver]|
  {
    Get(PlacedAt(kind, c, rows, next, i).part.channels, Wanted(kind, c, ps, i).key)
  }

  ghost predicate NoneNew(kind: Kind, c: Context, n: nat)
    requires n <= |PartsOf(c.next, kind)|
  {
    forall i | 0 <= i < n :: Kept(c.before, PartsOf(c.next, kind)[i])
  }

  /** Of the first n parts all the new ones link this row. */
  ghost predicate AllLink(kind: Kind, c: Context, rows: seq<Row>, next: nat, ps: seq<nat>, stem: string, typ: string, n: nat, row: Option<nat>)
    requires AllWantIt(kind, c, ps, stem, typ) && n <= |PartsOf(c.next, kind)|
  {
    forall i | 0 <= i < n && !Kept(c.before, PartsOf(c.next, kind)[i]) :: LinkOf(kind, c, rows, next, ps, i) == row
  }

  /** Each has a row of its own, with a uid below the bound. */
  ghost predicate AllDiffer(kind: Kind, c: Context, rows: seq<Row>, next: nat, ps: seq<nat>, stem: string, typ: string, n: nat, bound: nat)
    requires AllWantIt(kind, c, ps, stem, typ) && n <= |PartsOf(c.next, kind)|
  {
    && (forall i | 0 <= i < n && !Kept(c.before, PartsOf(c.next, kind)[i]) :: LinkOf(kind, c, rows, next, ps, i).Some? && LinkOf(kind, c, rows, next, ps, i).value < bound)
    && (forall i, j | 0 <= i < j < n && !Kept(c.before, PartsOf(c.next, kind)[i]) && !Kept(c.before, PartsOf(c.next, kind)[j]) :: LinkOf(kind, c, rows, next, ps, i) != LinkOf(kind, c, rows, next, ps, j))
  }

  /** After the first n parts: all the new ones share the row that was free; or the one
      the first made under the bare key; or, that key being blocked, each has its own. */
  ghost predicate SharedTo(kind: Kind, c: Context, rows: seq<Row>, next: nat, ps: seq<nat>, stem: string, typ: string, n: nat, s: Side)
    requires AllWantIt(kind, c, ps, stem, typ) && n <= |PartsOf(c.next, kind)|
  {
    var taken := InPlace(PartsOf(c.next, kind), c.before);
    var was, now := FirstFree(rows, stem, typ, taken), FirstFree(s.rows, stem, typ, taken);
    if was.Some? then now == was && AllLink(kind, c, rows, next, ps, stem, typ, n, was)
    else if !Blocked(Keys(rows), stem) then
      if NoneNew(kind, c, n) then s.rows == rows else now.Some? && AllLink(kind, c, rows, next, ps, stem, typ, n, now)
    else now.None? && Blocked(Keys(s.rows), stem) && AllDiffer(kind, c, rows, next, ps, stem, typ, n, s.next)
  }

  lemma NewPlaced(kind: Kind, c: Context, rows: seq<Row>, next: nat, i: nat, now: seq<Row>, from: nat, p: nat)
    requires SideReady(kind, c, rows, next) && i < |PartsOf(c.next, kind)| && IsNew(PartsOf(c.next, kind)[i], c)
    requires DistinctUids(now) && Below(now, from) && next <= from && Lone(c.drivers[PartsOf(c.next, kind)[i].driver], p)
    ensures var b := PartsOf(c.next, kind)[i];
      var ch := c.drivers[b.driver][p];
      var placed := PlacePart(kind, b, c, now, from);
      LeavesRows(kind, ch, now, from, Taken(PartsOf(c.next, kind), b.uid), placed.rows, Get(placed.part.channels, ch.key))
  {
    var parts := PartsOf(c.next, kind);
    var b := parts[i];
    TakenBelow(parts, next, b.uid);
    FillLone(kind, c.drivers[b.driver], p, now, from, Taken(parts, b.uid));
    assert CarriedProposals(b, c.before, []) == map[];
  }

  /** One new part more. */
  lemma NewNext(kind: Kind, c: Context, rows: seq<Row>, next: nat, ps: seq<nat>, stem: string, typ: string, n: nat, s: Side)
    requires SideReady(kind, c, rows, next) && AllWantIt(kind, c, ps, stem, typ) && n < |PartsOf(c.next, kind)|
    requires s == PlaceParts(kind, PartsOf(c.next, kind)[..n], c, rows, next) && PlacedTo(kind, c, rows, next, n, s)
    requires !Kept(c.before, PartsOf(c.next, kind)[n])
    ensures var p := PlacedAt(kind, c, rows, next, n);
      var link, taken := LinkOf(kind, c, rows, next, ps, n), InPlace(PartsOf(c.next, kind), c.before);
      && LeavesRows(kind, Wanted(kind, c, ps, n), s.rows, s.next, taken, p.rows, link) && (link.Some? ==> link.value < p.next)
      && s.rows <= p.rows && s.next <= p.next
  {
    hide SideReady, PlacePart, LeavesRows, PartPlaced;
    var parts := PartsOf(c.next, kind);
    assert WantsIt(kind, c, ps, stem, typ, n);
    forall b | b in parts && !Kept(c.before, b) ensures Refs(b.channels) == {} {
      var i :| 0 <= i < |parts| && parts[i] == b;
      assert WantsIt(kind, c, ps, stem, typ, i);
    }
    TakenInPlace(parts, c.before, parts[n].uid);
    NewPlaced(kind, c, rows, next, n, s.rows, s.next, ps[n]);
    NowPlaced(kind, c, rows, next, n, s.rows, s.next);
    LinkBelow(kind, c, rows, next, n, PlacedAt(kind, c, rows, next, n), Wanted(kind, c, ps, n).key);
  }

  lemma LinkBelow(kind: Kind, c: Context, rows: seq<Row>, next: nat, i: nat, p: Placed, key: string)
    requires i < |PartsOf(c.next, kind)| && PartPlaced(kind, c, PartsOf(c.next, kind)[i], p.part, p.rows, next) && Below(p.rows, p.next)
    ensures Get(p.part.channels, key).Some? ==> Get(p.part.channels, key).value < p.next
  {
    if Get(p.part.channels, key).Some? { GetIsRef(p.part.channels, key); }
  }

  lemma StillBlocked(rows: seq<Row>, more: seq<Row>, key: string)
    requires rows <= more && Blocked(Keys(rows), key)
    ensures Blocked(Keys(more), key)
  {
    if key in Keys(rows) {
      var row :| row in rows && Trim(row.key) == key;
      assert row in more;
    }
  }

  lemma LinkNext(kind: Kind, c: Context, rows: seq<Row>, next: nat, ps: seq<nat>, stem: string, typ: string, n: nat, row: Option<nat>)
    requires AllWantIt(kind, c, ps, stem, typ) && n < |PartsOf(c.next, kind)| && !Kept(c.before, PartsOf(c.next, kind)[n])
    requires LinkOf(kind, c, rows, next, ps, n) == row
    ensures AllLink(kind, c, rows, next, ps, stem, typ, n, row) || NoneNew(kind, c, n) ==> AllLink(kind, c, rows, next, ps, stem, typ, n + 1, row)
  {
    hide LinkOf;
  }

  lemma DifferNext(kind: Kind, c: Context, rows: seq<Row>, next: nat, ps: seq<nat>, stem: string, typ: string, n: nat, from: nat, after: nat)
    requires AllWantIt(kind, c, ps, stem, typ) && n < |PartsOf(c.next, kind)| && !Kept(c.before, PartsOf(c.next, kind)[n])
    requires AllDiffer(kind, c, rows, next, ps, stem, typ, n, from) && from <= after
    requires LinkOf(kind, c, rows, next, ps, n).Some? && from <= LinkOf(kind, c, rows, next, ps, n).value < after
    ensures AllDiffer(kind, c, rows, next, ps, stem, typ, n + 1, after)
  {
    hide LinkOf;
  }

  lemma SharedNext(kind: Kind, c: Context, rows: seq<Row>, next: nat, ps: seq<nat>, stem: string, typ: string, n: nat, s: Side, p: Placed)
    requires AllWantIt(kind, c, ps, stem, typ) && n < |PartsOf(c.next, kind)|
    requires SharedTo(kind, c, rows, next, ps, stem, typ, n, s) && !Kept(c.before, PartsOf(c.next, kind)[n])
    requires var link, taken := LinkOf(kind, c, rows, next, ps, n), InPlace(PartsOf(c.next, kind), c.before);
      && LeavesRows(kind, Wanted(kind, c, ps, n), s.rows, s.next, taken, p.rows, link) && (link.Some? ==> link.value < p.next)
      && s.rows <= p.rows && s.next <= p.next
    ensures SharedTo(kind, c, rows, next, ps, stem, typ, n + 1, Side(s.parts + [p.part], p.rows, p.next))
  {
    assert WantsIt(kind, c, ps, stem, typ, n);
    hide LinkOf, AllLink, AllDiffer, FirstFree, Blocked, Keys, Lone, IsNew, InPlace;
    var link := LinkOf(kind, c, rows, next, ps, n);
    LinkNext(kind, c, rows, next, ps, stem, typ, n, link);
    assert !NoneNew(kind, c, n + 1);
    if Blocked(Keys(s.rows), stem) {
      StillBlocked(s.rows, p.rows, stem);
    }
    if FirstFree(rows, stem, typ, InPlace(PartsOf(c.next, kind), c.before)).None? && Blocked(Keys(rows), stem) {
      DifferNext(kind, c, rows, next, ps, stem, typ, n, s.next, p.next);
    }
  }

  lemma SharedStart(kind: Kind, c: Context, rows: seq<Row>, next: nat, ps: seq<nat>, stem: string, typ: string)
    requires AllWantIt(kind, c, ps, stem, typ)
    ensures SharedTo(kind, c, rows, next, ps, stem, typ, 0, Side([], rows, next))
  {
    hide LinkOf, FirstFree, Blocked, WantsIt;
  }

  /** A part in place changes nothing. */
  lemma SharedKept(kind: Kind, c: Context, rows: seq<Row>, next: nat, ps: seq<nat>, stem: string, typ: string, n: nat, s: Side, t: Side)
    requires AllWantIt(kind, c, ps, stem, typ) && n < |PartsOf(c.next, kind)| && Kept(c.before, PartsOf(c.next, kind)[n])
    requires SharedTo(kind, c, rows, next, ps, stem, typ, n, s) && t.rows == s.rows && t.next == s.next
    ensures SharedTo(kind, c, rows, next, ps, stem, typ, n + 1, t)
  {
    hide LinkOf, FirstFree, Blocked, WantsIt, InPlace;
  }

  lemma {:induction false} SharedSoFar(kind: Kind, c: Context, rows: seq<Row>, next: nat, ps: seq<nat>, stem: string, typ: string, n: nat)
    requires SideReady(kind, c, rows, next) && AllWantIt(kind, c, ps, stem, typ) && n <= |PartsOf(c.next, kind)|
    ensures SharedTo(kind, c, rows, next, ps, stem, typ, n, PlaceParts(kind, PartsOf(c.next, kind)[..n], c, rows, next))
  {
    var parts := PartsOf(c.next, kind);
    if n == 0 {
      hide SharedTo, SideReady, AllWantIt;
      assert parts[..0] == [];
      SharedStart(kind, c, rows, next, ps, stem, typ);
    } else {
      hide SideReady, PlacedTo, SharedTo, AllWantIt, PlacePart;
      SharedSoFar(kind, c, rows, next, ps, stem, typ, n - 1);
      SharedStep(kind, c, rows, next, ps, stem, typ, n - 1);
    }
  }

  lemma SharedStep(kind: Kind, c: Context, rows: seq<Row>, next: nat, ps: seq<nat>, stem: string, typ: string, n: nat)
    requires SideReady(kind, c, rows, next) && AllWantIt(kind, c, ps, stem, typ) && n < |PartsOf(c.next, kind)|
    requires SharedTo(kind, c, rows, next, ps, stem, typ, n, PlaceParts(kind, PartsOf(c.next, kind)[..n], c, rows, next))
    ensures SharedTo(kind, c, rows, next, ps, stem, typ, n + 1, PlaceParts(kind, PartsOf(c.next, kind)[..n + 1], c, rows, next))
  {
    hide *;
    var s := PlaceParts(kind, PartsOf(c.next, kind)[..n], c, rows, next);
    PlaceStep(kind, c, rows, next, n);
    if Kept(c.before, PartsOf(c.next, kind)[n]) {
      StaysOne(kind, c, rows, next, n);
      SharedKept(kind, c, rows, next, ps, stem, typ, n, s, PlaceParts(kind, PartsOf(c.next, kind)[..n + 1], c, rows, next));
    } else {
      PlacedSoFar(kind, c, rows, next, n);
      NewNext(kind, c, rows, next, ps, stem, typ, n, s);
      SharedNext(kind, c, rows, next, ps, stem, typ, n, s, PlacedAt(kind, c, rows, next, n));
    }
  }

  lemma StaysOne(kind: Kind, c: Context, rows: seq<Row>, next: nat, n: nat)
    requires n < |PartsOf(c.next, kind)| && Kept(c.before, PartsOf(c.next, kind)[n])
    ensures var s, t := PlaceParts(kind, PartsOf(c.next, kind)[..n], c, rows, next), PlaceParts(kind, PartsOf(c.next, kind)[..n + 1], c, rows, next);
      t.rows == s.rows && t.next == s.next
  {
    hide PlaceParts;
    RowsStay(kind, c, rows, next, n, n + 1);
  }

  /** Parts in place leave rows and counter as they are. */
  lemma {:induction false} RowsStay(kind: Kind, c: Context, rows: seq<Row>, next: nat, n: nat, m: nat)
    requires n <= m <= |PartsOf(c.next, kind)| && forall k | n <= k < m :: Kept(c.before, PartsOf(c.next, kind)[k])
    ensures var s, t := PlaceParts(kind, PartsOf(c.next, kind)[..n], c, rows, next), PlaceParts(kind, PartsOf(c.next, kind)[..m], c, rows, next);
      t.rows == s.rows && t.next == s.next
    decreases m
  {
    if n < m {
      assert PartsOf(c.next, kind)[..m][..m - 1] == PartsOf(c.next, kind)[..m - 1];
      RowsStay(kind, c, rows, next, n, m - 1);
    }
  }

  /** Any two of the new parts link one row exactly when there was a free row for the
      reading, or the first proposal goes by the bare key, which then is neither used
      nor reserved: the rows taken are read from the wiring as it came. */
  lemma NewPartsShare(kind: Kind, c: Context, rows: seq<Row>, next: nat, ps: seq<nat>, stem: string, typ: string, i: nat, j: nat)
    requires SideReady(kind, c, rows, next) && AllWantIt(kind, c, ps, stem, typ) && i < j < |PartsOf(c.next, kind)|
    requires !Kept(c.before, PartsOf(c.next, kind)[i]) && !Kept(c.before, PartsOf(c.next, kind)[j])
    ensures var x, y := LinkOf(kind, c, rows, next, ps, i), LinkOf(kind, c, rows, next, ps, j);
      && x.Some? && y.Some?
      && (x == y <==> FirstFree(rows, stem, typ, InPlace(PartsOf(c.next, kind), c.before)).Some? || !Blocked(Keys(rows), stem))
  {
    hide SideReady, LinkOf, WantsIt, FirstFree, Blocked;
    SharedSoFar(kind, c, rows, next, ps, stem, typ, |PartsOf(c.next, kind)|);
  }

  // ---- The side, exactly ----------------------------------------------------------------------------

  /** Of two new parts' readings only the one they all want clashes. */
  ghost predicate OnlyItClashes(kind: Kind, c: Context, ps: seq<nat>, stem: string, typ: string)
    requires AllWantIt(kind, c, ps, stem, typ)
  {
    var parts := PartsOf(c.next, kind);
    forall i, j, m, n | 0 <= i < j < |parts| && Wants(kind, parts[i], c, m) && Wants(kind, parts[j], c, n) && Clash(kind, m, n) ::
      m == Wanted(kind, c, ps, i) && n == Wanted(kind, c, ps, j)
  }

  ghost predicate Several(kind: Kind, c: Context) {
    exists i, j :: 0 <= i < j < |PartsOf(c.next, kind)| && !Kept(c.before, PartsOf(c.next, kind)[i]) && !Kept(c.before, PartsOf(c.next, kind)[j])
  }

  /** Any number of new parts that want one reading, which alone of theirs clashes: the
      side stays sound if and only if there are not several, or there was no free row
      for the reading and its bare key was blocked. */
  lemma NewPartsSound(kind: Kind, c: Context, rows: seq<Row>, next: nat, ps: seq<nat>, stem: string, typ: string)
    requires SideReady(kind, c, rows, next) && AllWantIt(kind, c, ps, stem, typ) && OnlyItClashes(kind, c, ps, stem, typ)
    ensures var s := PlaceParts(kind, PartsOf(c.next, kind), c, rows, next);
      SideSound(s.parts, s.rows) <==>
        !Several(kind, c) || (FirstFree(rows, stem, typ, InPlace(PartsOf(c.next, kind), c.before)).None? && Blocked(Keys(rows), stem))
  {
    var parts := PartsOf(c.next, kind);
    var s := PlaceParts(kind, parts, c, rows, next);
    if Several(kind, c) && (FirstFree(rows, stem, typ, InPlace(parts, c.before)).Some? || !Blocked(Keys(rows), stem)) {
      SeveralClash(kind, c, rows, next, ps, stem, typ);
    } else {
      NoneShared(kind, c, rows, next, ps, stem, typ);
      ShareNoneSound(kind, c, rows, next);
    }
  }

  lemma SeveralClash(kind: Kind, c: Context, rows: seq<Row>, next: nat, ps: seq<nat>, stem: string, typ: string)
    requires SideReady(kind, c, rows, next) && AllWantIt(kind, c, ps, stem, typ) && Several(kind, c)
    requires FirstFree(rows, stem, typ, InPlace(PartsOf(c.next, kind), c.before)).Some? || !Blocked(Keys(rows), stem)
    ensures !Apart(PlaceParts(kind, PartsOf(c.next, kind), c, rows, next).parts)
  {
    var parts := PartsOf(c.next, kind);
    var i, j :| 0 <= i < j < |parts| && !Kept(c.before, parts[i]) && !Kept(c.before, parts[j]);
    hide *;
    PairClash(kind, c, rows, next, ps, stem, typ, i, j);
    PlacedPair(kind, c, rows, next, i, j);
  }

  lemma PlacedPair(kind: Kind, c: Context, rows: seq<Row>, next: nat, i: nat, j: nat)
    requires i < j < |PartsOf(c.next, kind)|
    requires !(Refs(PlacedAt(kind, c, rows, next, i).part.channels) !! Refs(PlacedAt(kind, c, rows, next, j).part.channels))
    ensures !Apart(PlaceParts(kind, PartsOf(c.next, kind), c, rows, next).parts)
  {
    hide *;
    var parts := PartsOf(c.next, kind);
    assert parts[..|parts|] == parts;
    PlacedEach(kind, c, rows, next, |parts|, i);
    PlacedEach(kind, c, rows, next, |parts|, j);
    NotApart(PlaceParts(kind, parts, c, rows, next).parts, i, j);
  }

  lemma NotApart(parts: seq<Part>, i: nat, j: nat)
    requires i < j < |parts| && !(Refs(parts[i].channels) !! Refs(parts[j].channels))
    ensures !Apart(parts)
  {
    hide Refs;
  }

  /** Two of them link one row. */
  lemma PairClash(kind: Kind, c: Context, rows: seq<Row>, next: nat, ps: seq<nat>, stem: string, typ: string, i: nat, j: nat)
    requires SideReady(kind, c, rows, next) && AllWantIt(kind, c, ps, stem, typ) && i < j < |PartsOf(c.next, kind)|
    requires !Kept(c.before, PartsOf(c.next, kind)[i]) && !Kept(c.before, PartsOf(c.next, kind)[j])
    requires FirstFree(rows, stem, typ, InPlace(PartsOf(c.next, kind), c.before)).Some? || !Blocked(Keys(rows), stem)
    ensures !(Refs(PlacedAt(kind, c, rows, next, i).part.channels) !! Refs(PlacedAt(kind, c, rows, next, j).part.channels))
  {
    assert WantsIt(kind, c, ps, stem, typ, i) && WantsIt(kind, c, ps, stem, typ, j);
    hide SideReady, FirstFree, Blocked, PlacedAt, WantsIt, InPlace, LinkOf, Refs, Keys;
    NewPartsShare(kind, c, rows, next, ps, stem, typ, i, j);
    WantedIsRef(kind, c, rows, next, ps, stem, typ, i);
    WantedIsRef(kind, c, rows, next, ps, stem, typ, j);
  }

  lemma WantedIsRef(kind: Kind, c: Context, rows: seq<Row>, next: nat, ps: seq<nat>, stem: string, typ: string, i: nat)
    requires WantsIt(kind, c, ps, stem, typ, i) && LinkOf(kind, c, rows, next, ps, i).Some?
    ensures LinkOf(kind, c, rows, next, ps, i).value in Refs(PlacedAt(kind, c, rows, next, i).part.channels)
  {
    GetIsRef(PlacedAt(kind, c, rows, next, i).part.channels, Wanted(kind, c, ps, i).key);
  }

  lemma ShareNoneSound(kind: Kind, c: Context, rows: seq<Row>, next: nat)
    requires SideReady(kind, c, rows, next) && ShareNone(kind, c, rows, next, |PartsOf(c.next, kind)|)
    ensures var s := PlaceParts(kind, PartsOf(c.next, kind), c, rows, next); SideSound(s.parts, s.rows)
  {
    hide SideReady, ShareNone, SideSound, PlacePart;
    var parts := PartsOf(c.next, kind);
    assert parts[..|parts|] == parts;
    PlacedSoFar(kind, c, rows, next, |parts|);
    PlacedApart(kind, c, rows, next, |parts|);
    PlacedSideSound(kind, c, rows, next, PlaceParts(kind, parts, c, rows, next));
  }

  /** Two new parts carry nothing, so they share only through their clash. */
  lemma NewShare(kind: Kind, c: Context, rows: seq<Row>, a: Part, b: Part, x: Links, y: Links, u: nat)
    requires IsNew(a, c) && IsNew(b, c) && Shares(kind, a, b, c, rows, x, y, u)
    ensures ClashAt(kind, a, b, c, x, y, u)
  {
    hide Wants, Found;
    assert Refs(CarriedBy(kind, a, c)) == {} && Refs(CarriedBy(kind, b, c)) == {};
  }

  lemma NoneShared(kind: Kind, c: Context, rows: seq<Row>, next: nat, ps: seq<nat>, stem: string, typ: string)
    requires SideReady(kind, c, rows, next) && AllWantIt(kind, c, ps, stem, typ) && OnlyItClashes(kind, c, ps, stem, typ)
    requires Several(kind, c) ==> FirstFree(rows, stem, typ, InPlace(PartsOf(c.next, kind), c.before)).None? && Blocked(Keys(rows), stem)
    ensures ShareNone(kind, c, rows, next, |PartsOf(c.next, kind)|)
  {
    hide SideReady, Shares, FirstFree, Blocked, PlacePart, InPlace;
    var parts := PartsOf(c.next, kind);
    forall i, j, u | 0 <= i < j < |parts| && Active(parts[i], c) && Active(parts[j], c)
      ensures !Shares(kind, parts[i], parts[j], c, rows, PlacedAt(kind, c, rows, next, i).part.channels, PlacedAt(kind, c, rows, next, j).part.channels, u)
    {
      assert Several(kind, c);
      NewPartsShare(kind, c, rows, next, ps, stem, typ, i, j);
      PairSharesNone(kind, c, rows, next, ps, stem, typ, i, j, u);
    }
  }

  lemma PairSharesNone(kind: Kind, c: Context, rows: seq<Row>, next: nat, ps: seq<nat>, stem: string, typ: string, i: nat, j: nat, u: nat)
    requires AllWantIt(kind, c, ps, stem, typ) && OnlyItClashes(kind, c, ps, stem, typ) && i < j < |PartsOf(c.next, kind)|
    requires !Kept(c.before, PartsOf(c.next, kind)[i]) && !Kept(c.before, PartsOf(c.next, kind)[j])
    requires LinkOf(kind, c, rows, next, ps, i) != LinkOf(kind, c, rows, next, ps, j)
    ensures var parts := PartsOf(c.next, kind);
      !Shares(kind, parts[i], parts[j], c, rows, PlacedAt(kind, c, rows, next, i).part.channels, PlacedAt(kind, c, rows, next, j).part.channels, u)
  {
    var parts := PartsOf(c.next, kind);
    assert WantsIt(kind, c, ps, stem, typ, i) && WantsIt(kind, c, ps, stem, typ, j);
    hide Shares, Wants, Clash, PlacedAt, Lone;
    var x, y := PlacedAt(kind, c, rows, next, i).part.channels, PlacedAt(kind, c, rows, next, j).part.channels;
    if Shares(kind, parts[i], parts[j], c, rows, x, y, u) {
      NewShare(kind, c, rows, parts[i], parts[j], x, y, u);
    }
  }

  /** So it happens in an empty draft: two new parts on a driver with one reading, whose
      key is not reserved, end up on one row. */
  lemma TwoInEmptyDraft(kind: Kind, driver: string, ch: Channel, a: nat, b: nat, counter: nat)
    requires ch.common && Trim(ch.stem) == ch.stem && ch.stem !in RESERVED && a != b
    ensures var parts := [Part(a, driver, [], map[]), Part(b, driver, [], map[])];
      var c := Context(map[], map[driver := [ch]], Draft([], [], None), if kind == Inputs then Wiring(parts, []) else Wiring([], parts), {});
      var s := PlaceParts(kind, parts, c, [], counter);
      !SideSound(s.parts, s.rows)
  {
    var parts := [Part(a, driver, [], map[]), Part(b, driver, [], map[])];
    var c := Context(map[], map[driver := [ch]], Draft([], [], None), if kind == Inputs then Wiring(parts, []) else Wiring([], parts), {});
    assert PartsOf(c.next, kind) == parts && Refs([]) == {};
    forall i | 0 <= i < 2 ensures WantsIt(kind, c, [0, 0], ch.stem, TypeOf(kind, ch), i) && CanStart(kind, parts[i], c, [], Taken(parts, parts[i].uid)) {
      assert Lone([ch], 0);
    }
    assert AllWantIt(kind, c, [0, 0], ch.stem, TypeOf(kind, ch));
    assert !Kept(c.before, parts[0]) && !Kept(c.before, parts[1]);
    assert Several(kind, c);
    assert SideReady(kind, c, [], counter);
    assert Keys([]) == {};
    SeveralClash(kind, c, [], counter, [0, 0], ch.stem, TypeOf(kind, ch));
  }
}
