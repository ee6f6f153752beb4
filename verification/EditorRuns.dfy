/** Whole editing sessions: what every edit keeps, and what that makes of the
    drawing and of the saved condition. */
module EditorRuns {
  import opened Wrappers
  import opened ConditionTree
  import opened TreeEdits
  import opened ConditionApi
  import opened LadderLayout
  import opened LadderCircuit

  datatype Edit =
    | Insert(target: string, added: Node, op: Combinator, groupId: string)
    | Remove(id: string)
    | SetOp(id: string, op: Combinator)
    | Patch(id: string, patch: ContactDraft -> ContactDraft)

  function Apply(t: Option<Node>, e: Edit): Option<Node> {
    match e
    case Insert(target, added, op, groupId) => InsertBeside(t, target, added, op, groupId)
    case Remove(id) => RemoveNode(t, id)
    case SetOp(id, op) => SetGroupOp(t, id, op)
    case Patch(id, patch) => UpdateContact(t, id, patch)
  }

  function Run(t: Option<Node>, edits: seq<Edit>): Option<Node>
    decreases |edits|
  {
    if edits == [] then t else Run(Apply(t, edits[0]), edits[1..])
  }

  function TreeIds(t: Option<Node>): seq<string> {
    if t.None? then [] else Ids(t.value)
  }

  /** The one duty of a caller: what it adds is a contact or a proper block, under
      ids from `newId()`. */
  ghost predicate Fresh(t: Option<Node>, e: Edit) {
    e.Insert? ==>
      && Alternating(e.added) && UniqueIds(e.added)
      && e.groupId !in TreeIds(t) && e.groupId !in Ids(e.added)
      && forall id | id in Ids(e.added) :: id !in TreeIds(t)
  }

  ghost predicate FreshRun(t: Option<Node>, edits: seq<Edit>)
    decreases |edits|
  {
    edits == [] || (Fresh(t, edits[0]) && FreshRun(Apply(t, edits[0]), edits[1..]))
  }

  ghost predicate WellFormed(t: Option<Node>) {
    t.Some? ==> Alternating(t.value) && UniqueIds(t.value)
  }

  // ---- Ids under edits ---------------------------------------------------------

  /** How often an id occurs. */
  function Times(ids: seq<string>, x: string): nat {
    multiset(ids)[x]
  }

  lemma {:induction false} DistinctIsOnce(s: seq<string>)
    ensures Distinct(s) <==> forall x :: Times(s, x) <= 1
  {
    if s != [] {
      var r := s[1..];
      DistinctIsOnce(r);
      assert s == [s[0]] + r;
      assert multiset(s) == multiset{s[0]} + multiset(r);
      assert forall x :: Times(s, x) == Times(r, x) + if x == s[0] then 1 else 0;
      if Distinct(s) {
        forall i, j | 0 <= i < j < |r| ensures r[i] != r[j] {
          assert s[i + 1] == r[i] && s[j + 1] == r[j];
        }
        forall i | 0 <= i < |r| ensures r[i] != s[0] {
          assert s[i + 1] == r[i];
        }
        assert s[0] !in multiset(r);
      } else {
        var i, j :| 0 <= i < j < |s| && s[i] == s[j];
        if i == 0 {
          assert s[j] == r[j - 1] && s[0] in multiset(r);
          assert Times(s, s[0]) >= 2;
        } else {
          assert r[i - 1] == r[j - 1];
          var x :| Times(r, x) > 1;
          assert Times(s, x) > 1;
        }
      }
    }
  }

  lemma FewerStayDistinct(s: seq<string>, t: seq<string>)
    requires Distinct(t) && multiset(s) <= multiset(t)
    ensures Distinct(s)
  {
    DistinctIsOnce(s);
    DistinctIsOnce(t);
    forall x ensures Times(s, x) <= 1 {
      assert Times(t, x) <= 1;
    }
  }

  lemma NormalKeepsUnique(n: Node)
    requires UniqueIds(n)
    ensures WellFormed(Normal(n))
  {
    NormalAlternates(n);
    NormalAddsNoIds(n);
    if Normal(n).Some? {
      FewerStayDistinct(Ids(Normal(n).value), Ids(n));
    }
  }

  /** Substituting trades the ids of the old subtree for those of the new one. */
  lemma {:induction false} IdsOfSubstitute(n: Node, id: string, sub: Node, x: string)
    requires UniqueIds(n) && id in Ids(n)
    ensures Find(n, id).Some?
    ensures Times(Ids(Substitute(n, id, sub)), x) + Times(Ids(Find(n, id).value), x) == Times(Ids(n), x) + Times(Ids(sub), x)
    decreases n, 0
  {
    FindFinds(n, id);
    if n.Id() != id {
      UniqueChildren(n);
      ListIdsOfSubstitute(n.children, id, sub, x);
    }
  }

  lemma {:induction false} ListIdsOfSubstitute(cs: seq<Node>, id: string, sub: Node, x: string)
    requires Distinct(ListIds(cs)) && id in ListIds(cs)
    ensures ListFind(cs, id).Some?
    ensures Times(ListIds(SubstituteChildren(cs, id, sub)), x) + Times(Ids(ListFind(cs, id).value), x)
         == Times(ListIds(cs), x) + Times(Ids(sub), x)
    decreases cs, 0
  {
    ListFindFinds(cs, id);
    FindFinds(cs[0], id);
    DistinctTail(cs);
    TimesInSubstitute(cs, id, sub, x);
    if id in Ids(cs[0]) {
      UniqueChild(cs, 0);
      IdsOfSubstitute(cs[0], id, sub, x);
      NotInTail(cs, id);
      SubstituteListElsewhere(cs[1..], id, sub);
    } else {
      SubstituteElsewhere(cs[0], id, sub);
      ListIdsOfSubstitute(cs[1..], id, sub, x);
    }
  }

  lemma TimesInSubstitute(cs: seq<Node>, id: string, sub: Node, x: string)
    requires cs != []
    ensures Times(ListIds(SubstituteChildren(cs, id, sub)), x)
         == Times(Ids(Substitute(cs[0], id, sub)), x) + Times(ListIds(SubstituteChildren(cs[1..], id, sub)), x)
    ensures Times(ListIds(cs), x) == Times(Ids(cs[0]), x) + Times(ListIds(cs[1..]), x)
  {
    assert SubstituteChildren(cs, id, sub)[1..] == SubstituteChildren(cs[1..], id, sub);
  }

  lemma {:induction false} PruneAddsNoIds(n: Node, id: string)
    ensures multiset(TreeIds(Prune(n, id))) <= multiset(Ids(n))
    decreases n, 0
  {
    if n.Id() != id && n.Group? {
      ListPruneAddsNoIds(n.children, id);
    }
  }

  lemma {:induction false} ListPruneAddsNoIds(cs: seq<Node>, id: string)
    ensures multiset(ListIds(PruneChildren(cs, id))) <= multiset(ListIds(cs))
    decreases cs, 0
  {
    if cs != [] {
      PruneAddsNoIds(cs[0], id);
      ListPruneAddsNoIds(cs[1..], id);
      match Prune(cs[0], id) {
        case None => assert PruneChildren(cs, id) == PruneChildren(cs[1..], id);
        case Some(c) =>
          assert PruneChildren(cs, id)[1..] == PruneChildren(cs[1..], id);
          assert ListIds(PruneChildren(cs, id)) == Ids(c) + ListIds(PruneChildren(cs[1..], id));
      }
    }
  }

  /** A rewrite that keeps each node's id, kind and children keeps all ids. */
  ghost predicate KeepsIds(f: Node -> Node) {
    forall m :: Ids(f(m)) == Ids(m)
  }

  lemma {:induction false} MapKeepsIds(n: Node, hit: Node -> bool, f: Node -> Node)
    requires KeepsIds(f)
    ensures Ids(MapNode(n, hit, f)) == Ids(n)
    decreases n, 0
  {
    if !hit(n) && n.Group? {
      ListMapKeepsIds(n.children, hit, f);
    }
  }

  lemma {:induction false} ListMapKeepsIds(cs: seq<Node>, hit: Node -> bool, f: Node -> Node)
    requires KeepsIds(f)
    ensures ListIds(MapChildren(cs, hit, f)) == ListIds(cs)
    decreases cs, 0
  {
    if cs != [] {
      MapKeepsIds(cs[0], hit, f);
      ListMapKeepsIds(cs[1..], hit, f);
      assert MapChildren(cs, hit, f)[1..] == MapChildren(cs[1..], hit, f);
    }
  }

  /** A rewrite of contacts alone keeps the shape. */
  lemma {:induction false} MapLeavesKeepsForm(n: Node, hit: Node -> bool, f: Node -> Node)
    requires Alternating(n) && forall m :: hit(m) ==> m.Leaf? && f(m).Leaf?
    ensures Alternating(MapNode(n, hit, f))
    ensures n.Group? <==> MapNode(n, hit, f).Group?
    ensures n.Group? ==> MapNode(n, hit, f).op == n.op
    decreases n
  {
    if !hit(n) && n.Group? {
      forall c | c in n.children ensures Alternating(MapNode(c, hit, f)) && !MapNode(c, hit, f).IsGroupOf(n.op) {
        MapLeavesKeepsForm(c, hit, f);
      }
    }
  }

  /** Inserting where the target is gives a well-formed tree, whatever the tree was. */
  lemma InsertKeepsForm(n: Node, target: string, added: Node, op: Combinator, groupId: string)
    requires UniqueIds(n) && target in Ids(n) && Fresh(Some(n), Insert(target, added, op, groupId))
    ensures WellFormed(InsertBeside(Some(n), target, added, op, groupId))
  {
    InsertIsSubstitution(n, target, added, op, groupId);
    var t := Find(n, target).value;
    var wrap := Group(groupId, op, [t, added]);
    forall x ensures Times(Ids(Substitute(n, target, wrap)), x) <= 1 {
      IdsOfSubstitute(n, target, wrap, x);
      IdsOfInsertion(n, t, added, op, groupId, x);
    }
    DistinctIsOnce(Ids(Substitute(n, target, wrap)));
    NormalKeepsUnique(Substitute(n, target, wrap));
  }

  lemma IdsOfInsertion(n: Node, t: Node, added: Node, op: Combinator, groupId: string, x: string)
    requires UniqueIds(n) && Fresh(Some(n), Insert("", added, op, groupId))
    ensures Times(Ids(Group(groupId, op, [t, added])), x) + Times(Ids(n), x) <= 1 + Times(Ids(t), x)
  {
    IdsOfPair(groupId, op, t, added);
    assert Times(Ids(Group(groupId, op, [t, added])), x) == Times([groupId], x) + Times(Ids(t), x) + Times(Ids(added), x);
    DistinctIsOnce(Ids(n));
    DistinctIsOnce(Ids(added));
    assert x in Ids(added) <==> Times(Ids(added), x) > 0;
    assert x in Ids(n) <==> Times(Ids(n), x) > 0;
  }

  lemma IdsOfPair(id: string, op: Combinator, x: Node, y: Node)
    ensures Ids(Group(id, op, [x, y])) == [id] + Ids(x) + Ids(y)
  {
    assert [x, y][1..] == [y] && [y][1..] == [];
    assert ListIds([y]) == Ids(y) + ListIds([]);
    assert ListIds([x, y]) == Ids(x) + ListIds([y]);
  }

  lemma RemovedForm(n: Node, id: string)
    requires UniqueIds(n) && n.Id() != id && n.Group?
    ensures WellFormed(RemoveNode(Some(n), id))
  {
    hide WellFormed, Normal, Ids;
    PruneAddsNoIds(n, id);
    FewerStayDistinct(Ids(Prune(n, id).value), Ids(n));
    NormalKeepsUnique(Prune(n, id).value);
  }

  lemma SetForm(n: Node, id: string, op: Combinator)
    requires UniqueIds(n)
    ensures WellFormed(SetGroupOp(Some(n), id, op))
  {
    hide WellFormed, Normal;
    var f := (m: Node) => if m.Group? then m.(op := op) else m;
    assert KeepsIds(f);
    MapKeepsIds(n, (m: Node) => m.Group? && m.groupId == id, f);
    NormalKeepsUnique(MapNode(n, (m: Node) => m.Group? && m.groupId == id, f));
  }

  /** Patching a contact moves no id and no group. */
  lemma PatchedForm(n: Node, id: string, patch: ContactDraft -> ContactDraft)
    ensures var r := UpdateContact(Some(n), id, patch);
      && r.Some? && Ids(r.value) == Ids(n)
      && (Alternating(n) ==> Alternating(r.value)) && (NoEmptyGroups(n) ==> NoEmptyGroups(r.value))
  {
    hide Alternating, NoEmptyGroups;
    var hit := (m: Node) => m.Leaf? && m.contact.id == id;
    var f := (m: Node) => if m.Leaf? then Leaf(patch(m.contact).(id := m.contact.id)) else m;
    assert KeepsIds(f);
    MapKeepsIds(n, hit, f);
    if Alternating(n) { MapLeavesKeepsForm(n, hit, f); }
    if NoEmptyGroups(n) { MapLeavesKeepsFull(n, hit, f); }
  }

  /** Every edit of a well-formed tree gives a well-formed tree. */
  lemma EditKeepsForm(t: Option<Node>, e: Edit)
    requires WellFormed(t) && Fresh(t, e)
    ensures WellFormed(Apply(t, e))
  {
    if t.Some? {
      var n := t.value;
      hide Alternating, InsertBeside, RemoveNode, SetGroupOp, UpdateContact, Ids, Fresh;
      match e
      case Insert(target, added, op, groupId) =>
        if target in Ids(n) { InsertKeepsForm(n, target, added, op, groupId); } else { InsertIsSubstitution(n, target, added, op, groupId); }
      case Remove(id) =>
        if n.Id() != id && n.Group? { RemovedForm(n, id); } else { RemovedWhole(n, id); }
      case SetOp(id, op) => SetForm(n, id, op);
      case Patch(id, patch) => PatchedForm(n, id, patch);
    }
  }

  lemma RemovedWhole(n: Node, id: string)
    requires n.Id() == id || n.Leaf?
    ensures RemoveNode(Some(n), id) == None || RemoveNode(Some(n), id) == Some(n)
  {
  }

  lemma {:induction false} RunKeepsForm(t: Option<Node>, edits: seq<Edit>)
    requires WellFormed(t) && FreshRun(t, edits)
    ensures WellFormed(Run(t, edits))
    decreases |edits|
  {
    if edits != [] {
      EditKeepsForm(t, edits[0]);
      RunKeepsForm(Apply(t, edits[0]), edits[1..]);
    }
  }

  /** Every group holds something, and ids are unique. */
  ghost predicate Sane(t: Option<Node>) {
    t.Some? ==> NoEmptyGroups(t.value) && UniqueIds(t.value)
  }

  lemma FormIsSane(t: Option<Node>)
    requires WellFormed(t)
    ensures Sane(t)
  {
    if t.Some? { AlternatingHasNoEmptyGroups(t.value); }
  }

  lemma {:induction false} MapLeavesKeepsFull(n: Node, hit: Node -> bool, f: Node -> Node)
    requires NoEmptyGroups(n) && forall m :: hit(m) ==> m.Leaf? && f(m).Leaf?
    ensures NoEmptyGroups(MapNode(n, hit, f))
    decreases n
  {
    if !hit(n) && n.Group? {
      forall c | c in n.children ensures NoEmptyGroups(MapNode(c, hit, f)) {
        MapLeavesKeepsFull(c, hit, f);
      }
    }
  }

  /** Every edit keeps a tree sane, alternating or not. */
  lemma EditKeepsSane(t: Option<Node>, e: Edit)
    requires Sane(t) && Fresh(t, e)
    ensures Sane(Apply(t, e))
  {
    if t.None? {
      EditKeepsForm(t, e);
      FormIsSane(Apply(t, e));
    } else {
      var n := t.value;
      hide Alternating, NoEmptyGroups, InsertBeside, RemoveNode, SetGroupOp, UpdateContact, Ids, WellFormed, Fresh;
      match e
      case Insert(target, added, op, groupId) =>
        InsertIsSubstitution(n, target, added, op, groupId);
        if target in Ids(n) {
          InsertKeepsForm(n, target, added, op, groupId);
          FormIsSane(Apply(t, e));
        }
      case Remove(id) =>
        if n.Id() != id && n.Group? {
          RemovedForm(n, id);
          FormIsSane(Apply(t, e));
        } else {
          RemovedWhole(n, id);
        }
      case SetOp(id, op) =>
        SetForm(n, id, op);
        FormIsSane(Apply(t, e));
      case Patch(id, patch) => PatchedForm(n, id, patch);
    }
  }

  lemma {:induction false} RunKeepsSane(t: Option<Node>, edits: seq<Edit>)
    requires Sane(t) && FreshRun(t, edits)
    ensures Sane(Run(t, edits))
    decreases |edits|
  {
    if edits != [] {
      EditKeepsSane(t, edits[0]);
      RunKeepsSane(Apply(t, edits[0]), edits[1..]);
    }
  }

  // ---- Opening a stored condition ------------------------------------------------

  ghost predicate Injective(newId: seq<nat> -> string) {
    forall p, q :: newId(p) == newId(q) ==> p == q
  }

  /** The ids are those of distinct paths that start with this one, its next step
      no less than `from`. */
  ghost predicate IdsFrom(ids: seq<string>, newId: seq<nat> -> string, path: seq<nat>, from: nat) {
    forall id | id in ids :: exists q: seq<nat> :: path < q && q[|path|] >= from && id == newId(q)
  }

  lemma {:induction false} LoadedIds(c: ConditionNode, newId: seq<nat> -> string, path: seq<nat>)
    requires NoNull(c) && Injective(newId)
    ensures var ids := Ids(NodeFromCondition(c, newId, path));
      Distinct(ids) && ids[0] == newId(path) && IdsFrom(ids[1..], newId, path, 0)
    decreases c, 1
  {
    if c.GroupNode? {
      LoadedListIds(c.predicates, newId, path, 0);
      var rest := ListIds(NodesFromPredicates(c.predicates, newId, path, 0));
      assert Ids(NodeFromCondition(c, newId, path)) == [newId(path)] + rest;
      forall i | 0 <= i < |rest| ensures rest[i] != newId(path) {
        assert rest[i] in rest;
        var q: seq<nat> :| path < q && rest[i] == newId(q);
      }
    }
  }

  lemma {:induction false} LoadedListIds(ps: seq<ConditionNode>, newId: seq<nat> -> string, path: seq<nat>, from: nat)
    requires (forall p | p in ps :: NoNull(p)) && Injective(newId)
    ensures var ids := ListIds(NodesFromPredicates(ps, newId, path, from)); Distinct(ids) && IdsFrom(ids, newId, path, from)
    decreases ps, 0
  {
    if ps != [] {
      LoadedIds(ps[0], newId, path + [from]);
      LoadedListIds(ps[1..], newId, path, from + 1);
      var head := Ids(NodeFromCondition(ps[0], newId, path + [from]));
      var tail := ListIds(NodesFromPredicates(ps[1..], newId, path, from + 1));
      assert NodesFromPredicates(ps, newId, path, from)[1..] == NodesFromPredicates(ps[1..], newId, path, from + 1);
      assert ListIds(NodesFromPredicates(ps, newId, path, from)) == head + tail;
      forall id | id in head ensures exists q: seq<nat> :: path < q && q[|path|] == from && id == newId(q) {
        if id == head[0] {
          assert path < path + [from];
        } else {
          assert id in head[1..];
          var q: seq<nat> :| path + [from] < q && id == newId(q);
          assert path < q && q[|path|] == from;
        }
      }
      forall i, j | 0 <= i < |head| && 0 <= j < |tail| ensures head[i] != tail[j] {
        assert head[i] in head && tail[j] in tail;
      }
    }
  }

  /** An opened condition without empty groups is a sane tree. */
  lemma OpenedIsSane(c: ConditionNode, newId: seq<nat> -> string)
    requires NoNull(c) && NoEmptyConditionGroups(c) && Injective(newId)
    ensures Sane(Some(NodeFromCondition(c, newId, [])))
  {
    LoadedIds(c, newId, []);
    LoadMeans(c, newId, [], (_: ConditionLeaf) => true);
  }

  // ---- One condition, three readings -------------------------------------------

  lemma {:induction false} SameOnLeaves(n: Node, a: ContactDraft -> bool, b: ContactDraft -> bool)
    requires forall c | c in Leaves(n) :: a(c) == b(c)
    ensures Meaning(n, a, {}) == Meaning(n, b, {})
    decreases n, 0
  {
    if n.Group? {
      ListSameOnLeaves(n.op, n.children, a, b);
    } else {
      assert n.contact in Leaves(n);
    }
  }

  lemma {:induction false} ListSameOnLeaves(op: Combinator, cs: seq<Node>, a: ContactDraft -> bool, b: ContactDraft -> bool)
    requires forall c | c in ListLeaves(cs) :: a(c) == b(c)
    ensures ListMeaning(op, cs, a, {}) == ListMeaning(op, cs, b, {})
    decreases cs, 0
  {
    if cs != [] {
      SameOnLeaves(cs[0], a, b);
      ListSameOnLeaves(op, cs[1..], a, b);
    }
  }

  function ContactIds(cs: seq<ContactDraft>): (ids: seq<string>)
    ensures |ids| == |cs| && forall i | 0 <= i < |cs| :: ids[i] == cs[i].id
  {
    seq(|cs|, i requires 0 <= i < |cs| => cs[i].id)
  }

  lemma ContactIdsAppend(a: seq<ContactDraft>, b: seq<ContactDraft>)
    ensures ContactIds(a + b) == ContactIds(a) + ContactIds(b)
  {
  }

  lemma {:induction false} LeafIdsInside(n: Node)
    ensures multiset(ContactIds(Leaves(n))) <= multiset(Ids(n))
    decreases n, 0
  {
    if n.Group? {
      ListLeafIdsInside(n.children);
    } else {
      assert ContactIds(Leaves(n)) == [n.contact.id];
    }
  }

  lemma {:induction false} ListLeafIdsInside(cs: seq<Node>)
    ensures multiset(ContactIds(ListLeaves(cs))) <= multiset(ListIds(cs))
    decreases cs, 0
  {
    if cs != [] {
      LeafIdsInside(cs[0]);
      ListLeafIdsInside(cs[1..]);
      ContactIdsAppend(Leaves(cs[0]), ListLeaves(cs[1..]));
    }
  }

  /** The ids of the contacts that are true. */
  ghost function ClosedContacts(n: Node, truth: ConditionLeaf -> bool): set<string> {
    set c | c in Leaves(n) && truth(LeafFromContact(c)) :: c.id
  }

  /** Of one sane tree: a contact is closed exactly when the leaf it saves as is true. */
  lemma ClosedAgree(n: Node, truth: ConditionLeaf -> bool)
    requires UniqueIds(n)
    ensures forall c | c in Leaves(n) :: ClosedIn(ClosedContacts(n, truth))(c) == Closed(truth)(c)
  {
    var closed := ClosedContacts(n, truth);
    LeafIdsInside(n);
    FewerStayDistinct(ContactIds(Leaves(n)), Ids(n));
    forall c | c in Leaves(n) ensures ClosedIn(closed)(c) == Closed(truth)(c) {
      if c.id in closed {
        var d :| d in Leaves(n) && truth(LeafFromContact(d)) && d.id == c.id;
        var i, j :| 0 <= i < |Leaves(n)| && 0 <= j < |Leaves(n)| && Leaves(n)[i] == c && Leaves(n)[j] == d;
        assert ContactIds(Leaves(n))[i] == ContactIds(Leaves(n))[j];
      }
    }
  }

  /** "The ladder can never show a graph the engine can't run": after any session,
      begun with a new rule or an opened one, current crosses the drawn rung exactly
      when the saved condition holds. */
  lemma DrawnIsSaved(start: Option<Node>, edits: seq<Edit>, truth: ConditionLeaf -> bool)
    requires Sane(start) && FreshRun(start, edits)
    ensures Run(start, edits).None? <==> ConditionFromTree(Run(start, edits)) == Null
    ensures Run(start, edits).Some? ==>
      var n := Run(start, edits).value;
      && NoEmptyGroups(n)
      && NoNull(ConditionFromNode(n))
      && (Connected(Draw(n, 0, 0), ClosedContacts(n, truth), Point(0, 0), Point(Width(n), 0))
          <==> Holds(ConditionFromNode(n), truth))
  {
    RunKeepsSane(start, edits);
    if Run(start, edits).Some? {
      var n := Run(start, edits).value;
      hide Run, FreshRun, ConditionFromNode, Connected, Draw;
      var closed := ClosedContacts(n, truth);
      HasLeaf(n);
      SaveMeans(n, truth);
      DrawingIsTheTree(n, closed);
      MeaningIsTruth(n, ClosedIn(closed));
      ClosedAgree(n, truth);
      SameOnLeaves(n, ClosedIn(closed), Closed(truth));
    }
  }
}
