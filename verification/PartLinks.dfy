/** A hardware part's links to the template's rows, and which of them a part on a new
    driver keeps (frontend/src/lib/template-draft.ts). */
module PartLinks {
  import opened Wrappers

  datatype Kind = Inputs | Outputs

  /** A metric (fed by inputs) or an actuator (driven by outputs). `rest` stands for
      the fields wiring does not look at. */
  datatype Row = Row(uid: nat, name: string, key: string, typ: string, unit: Option<string>, rest: string)

  /** What a driver's channel proposes: `name`, `stem` and `unit` come from its label. */
  datatype Channel = Channel(key: string, typ: Option<string>, common: bool, name: string, stem: string, unit: Option<string>)

  /** Channel key to row, in the order the keys were added; `None` is an unlinked one. */
  type Links = seq<(string, Option<nat>)>

  function TypeOf(kind: Kind, ch: Channel): string {
    if ch.typ.Some? then ch.typ.value else if kind == Inputs then "float" else "bool"
  }

  // ---- Links ----------------------------------------------------------------------------

  function Get(links: Links, key: string): Option<nat> {
    if links == [] then None
    else if links[0].0 == key then links[0].1
    else Get(links[1..], key)
  }

  function Put(links: Links, key: string, ref: Option<nat>): Links {
    if links == [] then [(key, ref)]
    else if links[0].0 == key then [(key, ref)] + links[1..]
    else [links[0]] + Put(links[1..], key, ref)
  }

  function RefOf(ref: Option<nat>): set<nat> {
    if ref.Some? then {ref.value} else {}
  }

  function Refs(links: Links): set<nat> {
    if links == [] then {} else RefOf(links[0].1) + Refs(links[1..])
  }

  /** No row is linked twice. */
  predicate Once(links: Links) {
    links != [] ==> RefOf(links[0].1) !! Refs(links[1..]) && Once(links[1..])
  }

  lemma {:induction false} GetPut(links: Links, key: string, ref: Option<nat>, other: string)
    ensures Get(Put(links, key, ref), other) == if other == key then ref else Get(links, other)
  {
    if links != [] && links[0].0 != key {
      GetPut(links[1..], key, ref, other);
    }
  }

  lemma {:induction false} GetIsRef(links: Links, key: string)
    requires Get(links, key).Some?
    ensures Get(links, key).value in Refs(links)
  {
    if links[0].0 != key {
      GetIsRef(links[1..], key);
    }
  }

  /** Filling a free channel adds its row, and linking no row twice stays so exactly
      when that row was not linked. */
  lemma {:induction false} PutRefs(links: Links, key: string, ref: Option<nat>)
    requires Get(links, key).None?
    ensures Refs(Put(links, key, ref)) == Refs(links) + RefOf(ref)
    ensures Once(Put(links, key, ref)) <==> Once(links) && RefOf(ref) !! Refs(links)
  {
    if links == [] {
      assert Put(links, key, ref)[1..] == [];
    } else if links[0].0 == key {
      assert Put(links, key, ref)[1..] == links[1..];
    } else {
      PutRefs(links[1..], key, ref);
      assert Put(links, key, ref)[1..] == Put(links[1..], key, ref);
    }
  }

  /** Linked once, a row is found under one key. */
  lemma {:induction false} OneKey(links: Links, a: string, b: string)
    requires Once(links) && Get(links, a).Some? && Get(links, a) == Get(links, b)
    ensures a == b
  {
    if links[0].0 == a && links[0].0 != b {
      GetIsRef(links[1..], b);
    } else if links[0].0 == b && links[0].0 != a {
      GetIsRef(links[1..], a);
    } else if links[0].0 != a {
      OneKey(links[1..], a, b);
    }
  }

  // ---- The free links -------------------------------------------------------------------

  function Without(s: seq<nat>, x: nat): (r: seq<nat>)
    ensures forall y :: y in r <==> y in s && y != x
  {
    if s == [] then []
    else if s[0] == x then Without(s[1..], x)
    else [s[0]] + Without(s[1..], x)
  }

  /** The rows linked, in order, each once. */
  function RefList(links: Links): (r: seq<nat>)
    ensures forall x :: x in r <==> x in Refs(links)
  {
    if links == [] then []
    else if links[0].1.Some? then [links[0].1.value] + Without(RefList(links[1..]), links[0].1.value)
    else RefList(links[1..])
  }

  function FindRow(rows: seq<Row>, uid: nat): (r: Option<Row>)
    ensures r.Some? ==> r.value in rows && r.value.uid == uid
    ensures r.None? ==> forall row | row in rows :: row.uid != uid
  {
    if rows == [] then None
    else if rows[0].uid == uid then Some(rows[0])
    else FindRow(rows[1..], uid)
  }

  /** A row of the channel's type, and for a reading, of its unit. */
  predicate Fits(kind: Kind, rows: seq<Row>, uid: nat, ch: Channel) {
    var row := FindRow(rows, uid);
    && row.Some? && row.value.typ == TypeOf(kind, ch)
    && (kind == Inputs ==> ch.unit.Some? && row.value.unit == ch.unit)
  }

  function FirstFit(kind: Kind, rows: seq<Row>, free: seq<nat>, ch: Channel): (r: Option<nat>)
    ensures r.Some? ==> r.value in free && Fits(kind, rows, r.value, ch)
    ensures r.None? ==> forall u | u in free :: !Fits(kind, rows, u, ch)
  {
    if free == [] then None
    else if Fits(kind, rows, free[0], ch) then Some(free[0])
    else FirstFit(kind, rows, free[1..], ch)
  }

  // ---- Carrying links over ----------------------------------------------------------------

  datatype Carry = Carry(out: Links, free: seq<nat>)

  function Taking(c: Carry, key: string, ref: nat): Carry {
    Carry(Put(c.out, key, Some(ref)), Without(c.free, ref))
  }

  function SameKeyOne(was: Links, ch: Channel, c: Carry): Carry {
    var ref := Get(was, ch.key);
    if ref.Some? && ref.value in c.free then Taking(c, ch.key, ref.value) else c
  }

  function SameKeys(was: Links, chs: seq<Channel>, c: Carry): Carry
    decreases chs
  {
    if chs == [] then c else SameKeys(was, chs[1..], SameKeyOne(was, chs[0], c))
  }

  function ByFitOne(kind: Kind, rows: seq<Row>, ch: Channel, c: Carry): Carry {
    if Get(c.out, ch.key).Some? then c
    else
      var ref := FirstFit(kind, rows, c.free, ch);
      if ref.Some? then Taking(c, ch.key, ref.value) else c
  }

  function ByFit(kind: Kind, rows: seq<Row>, chs: seq<Channel>, c: Carry): Carry
    decreases chs
  {
    if chs == [] then c else ByFit(kind, rows, chs[1..], ByFitOne(kind, rows, chs[0], c))
  }

  function Carrying(kind: Kind, was: Links, chs: seq<Channel>, rows: seq<Row>): Carry {
    ByFit(kind, rows, chs, SameKeys(was, chs, Carry([], RefList(was))))
  }

  /** First the same key, then a row of the same type and unit. */
  method CarryLinks(kind: Kind, was: Links, chs: seq<Channel>, rows: seq<Row>) returns (out: Links)
    ensures out == Carrying(kind, was, chs, rows).out
  {
    out := [];
    var free := RefList(was);
    for i := 0 to |chs|
      invariant SameKeys(was, chs[i..], Carry(out, free)) == SameKeys(was, chs, Carry([], RefList(was)))
    {
      assert chs[i..][0] == chs[i] && chs[i..][1..] == chs[i + 1..];
      var ref := Get(was, chs[i].key);
      if ref.Some? && ref.value in free {
        out := Put(out, chs[i].key, ref);
        free := Without(free, ref.value);
      }
    }
    ghost var first := Carry(out, free);
    for i := 0 to |chs|
      invariant ByFit(kind, rows, chs[i..], Carry(out, free)) == ByFit(kind, rows, chs, first)
    {
      assert chs[i..][0] == chs[i] && chs[i..][1..] == chs[i + 1..];
      if Get(out, chs[i].key).Some? { continue; }
      var ref := FirstFit(kind, rows, free, chs[i]);
      if ref.Some? {
        out := Put(out, chs[i].key, ref);
        free := Without(free, ref.value);
      }
    }
  }

  /** Every old link is carried once or still free, never both. */
  ghost predicate Splits(c: Carry, was: Links) {
    && Once(c.out)
    && (forall u :: u in Refs(c.out) || u in c.free <==> u in Refs(was))
    && (forall u :: u in Refs(c.out) ==> u !in c.free)
  }

  lemma TakingSplits(c: Carry, was: Links, key: string, ref: nat)
    requires Splits(c, was) && ref in c.free && Get(c.out, key).None?
    ensures Splits(Taking(c, key, ref), was)
  {
    PutRefs(c.out, key, Some(ref));
  }

  /** The first pass takes only links the old part has under that key. */
  ghost predicate FromOld(c: Carry, was: Links) {
    forall k :: Get(c.out, k).Some? ==> Get(c.out, k) == Get(was, k)
  }

  lemma {:induction false} SameKeysSplits(was: Links, chs: seq<Channel>, c: Carry)
    requires Splits(c, was) && FromOld(c, was)
    ensures Splits(SameKeys(was, chs, c), was)
    decreases chs
  {
    if chs != [] {
      var ch := chs[0];
      var ref := Get(was, ch.key);
      if ref.Some? && ref.value in c.free {
        if Get(c.out, ch.key).Some? {
          GetIsRef(c.out, ch.key);
          assert false;
        }
        TakingSplits(c, was, ch.key, ref.value);
        forall k ensures Get(Put(c.out, ch.key, ref), k) == if k == ch.key then ref else Get(c.out, k) {
          GetPut(c.out, ch.key, ref, k);
        }
      }
      SameKeysSplits(was, chs[1..], SameKeyOne(was, ch, c));
    }
  }

  lemma {:induction false} ByFitSplits(kind: Kind, rows: seq<Row>, chs: seq<Channel>, c: Carry, was: Links)
    requires Splits(c, was)
    ensures Splits(ByFit(kind, rows, chs, c), was)
    decreases chs
  {
    if chs != [] {
      var ref := FirstFit(kind, rows, c.free, chs[0]);
      if Get(c.out, chs[0].key).None? && ref.Some? {
        TakingSplits(c, was, chs[0].key, ref.value);
      }
      ByFitSplits(kind, rows, chs[1..], ByFitOne(kind, rows, chs[0], c), was);
    }
  }

  /** Each old link goes to at most one channel, and none is made up. */
  lemma CarryConserves(kind: Kind, was: Links, chs: seq<Channel>, rows: seq<Row>)
    ensures Splits(Carrying(kind, was, chs, rows), was)
  {
    SameKeysSplits(was, chs, Carry([], RefList(was)));
    ByFitSplits(kind, rows, chs, SameKeys(was, chs, Carry([], RefList(was))), was);
  }

  // ---- Which links are carried --------------------------------------------------------------

  lemma {:induction false} SameKeysKeeps(was: Links, chs: seq<Channel>, c: Carry, key: string, ref: nat)
    requires Once(was) && Get(was, key) == Some(ref)
    requires Get(c.out, key) == Some(ref) || (ref in c.free && exists ch :: ch in chs && ch.key == key)
    ensures Get(SameKeys(was, chs, c).out, key) == Some(ref)
    decreases chs
  {
    if chs != [] {
      var ch := chs[0];
      var found := Get(was, ch.key);
      if found.Some? && found.value in c.free {
        if found == Some(ref) { OneKey(was, ch.key, key); }
        GetPut(c.out, ch.key, found, key);
      }
      SameKeysKeeps(was, chs[1..], SameKeyOne(was, ch, c), key, ref);
    }
  }

  lemma {:induction false} ByFitKeeps(kind: Kind, rows: seq<Row>, chs: seq<Channel>, c: Carry, key: string)
    requires Get(c.out, key).Some?
    ensures Get(ByFit(kind, rows, chs, c).out, key) == Get(c.out, key)
    decreases chs
  {
    if chs != [] {
      var ref := FirstFit(kind, rows, c.free, chs[0]);
      if Get(c.out, chs[0].key).None? && ref.Some? {
        GetPut(c.out, chs[0].key, ref, key);
      }
      ByFitKeeps(kind, rows, chs[1..], ByFitOne(kind, rows, chs[0], c), key);
    }
  }

  /** A reading the new driver also has keeps its row. */
  lemma SameKeyCarried(kind: Kind, was: Links, chs: seq<Channel>, rows: seq<Row>, ch: Channel)
    requires Once(was) && ch in chs && Get(was, ch.key).Some?
    ensures Get(Carrying(kind, was, chs, rows).out, ch.key) == Get(was, ch.key)
  {
    var ref := Get(was, ch.key).value;
    GetIsRef(was, ch.key);
    SameKeysKeeps(was, chs, Carry([], RefList(was)), ch.key, ref);
    ByFitKeeps(kind, rows, chs, SameKeys(was, chs, Carry([], RefList(was))), ch.key);
  }

  lemma {:induction false} ByFitFrees(kind: Kind, rows: seq<Row>, chs: seq<Channel>, c: Carry, u: nat)
    requires u in ByFit(kind, rows, chs, c).free
    ensures u in c.free
    decreases chs
  {
    if chs != [] {
      ByFitFrees(kind, rows, chs[1..], ByFitOne(kind, rows, chs[0], c), u);
    }
  }

  lemma {:induction false} ByFitMaximal(kind: Kind, rows: seq<Row>, chs: seq<Channel>, c: Carry, ch: Channel, u: nat)
    requires ch in chs && Get(ByFit(kind, rows, chs, c).out, ch.key).None? && u in ByFit(kind, rows, chs, c).free
    ensures !Fits(kind, rows, u, ch)
    decreases chs
  {
    var next := ByFitOne(kind, rows, chs[0], c);
    if ch == chs[0] {
      ByFitFrees(kind, rows, chs, c, u);
      if Get(next.out, ch.key).Some? {
        ByFitKeeps(kind, rows, chs[1..], next, ch.key);
        assert false;
      } else if FirstFit(kind, rows, c.free, ch).Some? {
        GetPut(c.out, ch.key, FirstFit(kind, rows, c.free, ch), ch.key);
        assert false;
      }
    } else {
      ByFitMaximal(kind, rows, chs[1..], next, ch, u);
    }
  }

  /** No old link is left behind that a channel left empty could have taken. */
  lemma CarryIsMaximal(kind: Kind, was: Links, chs: seq<Channel>, rows: seq<Row>, ch: Channel, u: nat)
    requires ch in chs && Get(Carrying(kind, was, chs, rows).out, ch.key).None?
    requires u in Refs(was) && u !in Refs(Carrying(kind, was, chs, rows).out)
    ensures !Fits(kind, rows, u, ch)
  {
    CarryConserves(kind, was, chs, rows);
    ByFitMaximal(kind, rows, chs, SameKeys(was, chs, Carry([], RefList(was))), ch, u);
  }
}
