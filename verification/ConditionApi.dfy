/** The condition tree to and from the API's shape
    (frontend/src/lib/rule-draft.ts): `nodeFromCondition`, `conditionFromNode` and
    the contact fields behind them. */
module ConditionApi {
  import opened Wrappers
  import opened ConditionTree

  datatype RhsSpec =
    | RhsStatic(value: real)
    | RhsMetric(deviceId: string, metric: string)
    | RhsRange(low: real, high: real)
    | RhsSet(values: seq<real>)

  /** `None` where the API may leave the field out. */
  datatype ConditionLeaf = ConditionLeaf(
    deviceId: Option<string>,
    metric: string,
    operator: string,
    rhs: Option<RhsSpec>,
    hysteresis: Option<real>)

  datatype ConditionNode =
    | Null
    | LeafNode(leaf: ConditionLeaf)
    | GroupNode(op: Combinator, predicates: seq<ConditionNode>)

  datatype Arity = NoValue | OneValue | RangeOfValues | SetOfValues

  function ArityOf(operator: string): Arity {
    if operator in {"changed", "increased", "decreased"} then NoValue
    else if operator in {"between", "not_between"} then RangeOfValues
    else if operator in {"in", "not_in"} then SetOfValues
    else OneValue
  }

  predicate HasHysteresis(operator: string) {
    operator in {">", ">=", "<", "<="}
  }

  const DEFAULT_HYSTERESIS := 1.0

  function EmptyContact(id: string, deviceId: string): ContactDraft {
    ContactDraft(id, deviceId, "", ">", DEFAULT_HYSTERESIS, Static, 0.0, 0.0, 0.0, [], "", "")
  }

  function ContactFromLeaf(leaf: ConditionLeaf, id: string): ContactDraft {
    var base := EmptyContact(id, if leaf.deviceId.Some? then leaf.deviceId.value else "").(
      metric := leaf.metric,
      operator := leaf.operator,
      hysteresis := if leaf.hysteresis.Some? then leaf.hysteresis.value else 0.0);
    match leaf.rhs
    case None => base
    case Some(RhsRange(low, high)) => base.(low := low, high := high)
    case Some(RhsSet(values)) => base.(setValues := values)
    case Some(RhsMetric(device, metric)) => base.(rhsKind := Metric, rhsDeviceId := device, rhsMetric := metric)
    case Some(RhsStatic(value)) => base.(value := value)
  }

  function BuildRhs(c: ContactDraft): Option<RhsSpec> {
    match ArityOf(c.operator)
    case NoValue => None
    case RangeOfValues => Some(RhsRange(c.low, c.high))
    case SetOfValues => Some(RhsSet(c.setValues))
    case OneValue => Some(if c.rhsKind.Metric? then RhsMetric(c.rhsDeviceId, c.rhsMetric) else RhsStatic(c.value))
  }

  function LeafFromContact(c: ContactDraft): ConditionLeaf {
    ConditionLeaf(Some(c.deviceId), c.metric, c.operator, BuildRhs(c),
                  Some(if HasHysteresis(c.operator) then c.hysteresis else 0.0))
  }

  /** A leaf the editor can hold: every field there, a right-hand side of the
      operator's arity, no hysteresis where the operator takes none. */
  predicate CanonicalLeaf(leaf: ConditionLeaf) {
    && leaf.deviceId.Some?
    && leaf.hysteresis.Some? && (!HasHysteresis(leaf.operator) ==> leaf.hysteresis.value == 0.0)
    && match ArityOf(leaf.operator)
       case NoValue => leaf.rhs.None?
       case RangeOfValues => leaf.rhs.Some? && leaf.rhs.value.RhsRange?
       case SetOfValues => leaf.rhs.Some? && leaf.rhs.value.RhsSet?
       case OneValue => leaf.rhs.Some? && (leaf.rhs.value.RhsStatic? || leaf.rhs.value.RhsMetric?)
  }

  /** Exactly the canonical leaves come back as they were. */
  lemma LeafRoundTrip(leaf: ConditionLeaf, id: string)
    ensures LeafFromContact(ContactFromLeaf(leaf, id)) == leaf <==> CanonicalLeaf(leaf)
    ensures CanonicalLeaf(LeafFromContact(ContactFromLeaf(leaf, id)))
  {
    var back := LeafFromContact(ContactFromLeaf(leaf, id));
    assert CanonicalLeaf(back);
  }

  /** `newId` names the node at a path from the root. */
  function NodeFromCondition(c: ConditionNode, newId: seq<nat> -> string, path: seq<nat>): Node
    requires NoNull(c)
    decreases c, 0
  {
    match c
    case LeafNode(leaf) => Leaf(ContactFromLeaf(leaf, newId(path)))
    case GroupNode(op, ps) => Group(newId(path), op, NodesFromPredicates(ps, newId, path, 0))
  }

  function NodesFromPredicates(ps: seq<ConditionNode>, newId: seq<nat> -> string, path: seq<nat>, from: nat): (r: seq<Node>)
    requires forall p | p in ps :: NoNull(p)
    ensures |r| == |ps|
    decreases ps, 0
  {
    if ps == [] then []
    else [NodeFromCondition(ps[0], newId, path + [from])] + NodesFromPredicates(ps[1..], newId, path, from + 1)
  }

  predicate NoNull(c: ConditionNode)
    decreases c
  {
    match c
    case Null => false
    case LeafNode(_) => true
    case GroupNode(_, ps) => forall p | p in ps :: NoNull(p)
  }

  lemma IdsNotEmpty(n: Node)
    ensures |Ids(n)| >= 1
  {
  }

  lemma NormalIsNoLonger(n: Node)
    ensures Normal(n).Some? ==> |Ids(Normal(n).value)| <= |Ids(n)|
  {
    NormalAddsNoIds(n);
    if Normal(n).Some? {
      assert |multiset(Ids(Normal(n).value))| <= |multiset(Ids(n))| by {
        SubsetSize(multiset(Ids(Normal(n).value)), multiset(Ids(n)));
      }
    }
  }

  lemma SubsetSize<T>(a: multiset<T>, b: multiset<T>)
    requires a <= b
    ensures |a| <= |b|
  {
    assert b == a + (b - a);
  }

  /** `conditionFromNode`: normalise, then the same for every child. A null child
      would land among the predicates as it does in the source. */
  function ConditionFromNode(n: Node): ConditionNode
    decreases |Ids(n)|, 0
  {
    NormalIsNoLonger(n);
    match Normal(n)
    case None => Null
    case Some(Leaf(c)) => LeafNode(LeafFromContact(c))
    case Some(Group(_, op, cs)) => GroupNode(op, PredicatesFromNodes(cs))
  }

  function PredicatesFromNodes(cs: seq<Node>): seq<ConditionNode>
    decreases |ListIds(cs)|, |cs|
  {
    if cs == [] then [] else
      IdsNotEmpty(cs[0]);
      [ConditionFromNode(cs[0])] + PredicatesFromNodes(cs[1..])
  }

  function ConditionFromTree(t: Option<Node>): ConditionNode {
    if t.None? then Null else ConditionFromNode(t.value)
  }

  /** What the engine makes of a stored condition, leaf truth given. */
  ghost predicate Holds(c: ConditionNode, truth: ConditionLeaf -> bool)
    decreases c
  {
    match c
    case Null => false
    case LeafNode(leaf) => truth(leaf)
    case GroupNode(And, ps) => forall p | p in ps :: Holds(p, truth)
    case GroupNode(Or, ps) => exists p | p in ps :: Holds(p, truth)
  }

  /** The stored shape every save produces. */
  ghost predicate Canonical(c: ConditionNode)
    decreases c
  {
    match c
    case Null => false
    case LeafNode(leaf) => CanonicalLeaf(leaf)
    case GroupNode(op, ps) => |ps| >= 2 && forall p | p in ps :: Canonical(p) && !(p.GroupNode? && p.op == op)
  }

  ghost predicate NoEmptyConditionGroups(c: ConditionNode)
    decreases c
  {
    c.GroupNode? ==> c.predicates != [] && forall p | p in c.predicates :: NoEmptyConditionGroups(p)
  }

  /** A contact is closed when the leaf it saves as is true. */
  function Closed(truth: ConditionLeaf -> bool): ContactDraft -> bool {
    (c: ContactDraft) => truth(LeafFromContact(c))
  }

  // ---- Saving ----------------------------------------------------------------

  lemma {:induction false} SavedAlternating(n: Node, truth: ConditionLeaf -> bool)
    requires Alternating(n)
    ensures Canonical(ConditionFromNode(n)) && NoNull(ConditionFromNode(n))
    ensures Holds(ConditionFromNode(n), truth) <==> Conducts(n, Closed(truth))
    ensures n.Group? <==> ConditionFromNode(n).GroupNode?
    ensures n.Group? ==> ConditionFromNode(n).op == n.op
    decreases n, 1
  {
    AlternatingIsNormal(n);
    if n.Group? {
      SavedChildren(n.op, n.children, truth);
      var ps := PredicatesFromNodes(n.children);
      if n.op.And? {
        forall p | p in ps && Conducts(n, Closed(truth)) ensures Holds(p, truth) {
          var i :| 0 <= i < |ps| && ps[i] == p;
          assert n.children[i] in n.children;
        }
        forall c | c in n.children && Holds(ConditionFromNode(n), truth) ensures Conducts(c, Closed(truth)) {
          var i :| 0 <= i < |ps| && n.children[i] == c;
          assert ps[i] in ps;
        }
      } else {
        if Conducts(n, Closed(truth)) {
          var i :| 0 <= i < |ps| && Conducts(n.children[i], Closed(truth));
          assert ps[i] in ps;
        }
        if Holds(ConditionFromNode(n), truth) {
          var i :| 0 <= i < |ps| && Holds(ps[i], truth);
          assert n.children[i] in n.children;
        }
      }
    }
  }

  lemma {:induction false} SavedChildren(op: Combinator, cs: seq<Node>, truth: ConditionLeaf -> bool)
    requires forall c | c in cs :: Alternating(c) && !c.IsGroupOf(op)
    ensures var ps := PredicatesFromNodes(cs);
      && |ps| == |cs|
      && forall i | 0 <= i < |cs| ::
           && Canonical(ps[i]) && NoNull(ps[i]) && !(ps[i].GroupNode? && ps[i].op == op)
           && (Holds(ps[i], truth) <==> Conducts(cs[i], Closed(truth)))
    decreases cs, 0
  {
    if cs != [] {
      SavedAlternating(cs[0], truth);
      SavedChildren(op, cs[1..], truth);
    }
  }

  lemma SavedIsNormalSaved(n: Node)
    ensures ConditionFromNode(n) == ConditionFromTree(Normal(n))
  {
    NormalAlternates(n);
    if Normal(n).Some? {
      AlternatingIsNormal(Normal(n).value);
    }
  }

  /** Whatever tree is saved, the stored condition has no null among its
      predicates, is canonical, and says what the tree says; only a tree without a
      single contact is stored as null. */
  lemma SaveMeans(n: Node, truth: ConditionLeaf -> bool)
    ensures ConditionFromNode(n) == Null <==> Leaves(n) == []
    ensures ConditionFromNode(n) != Null ==>
      && NoNull(ConditionFromNode(n)) && Canonical(ConditionFromNode(n))
      && Meaning(n, Closed(truth), {}) == Some(Holds(ConditionFromNode(n), truth))
  {
    SavedIsNormalSaved(n);
    NormalAlternates(n);
    NormalKeepsLeaves(n);
    NormalKeepsMeaning(n, Closed(truth));
    if Normal(n).Some? {
      var m := Normal(n).value;
      SavedAlternating(m, truth);
      AlternatingHasNoEmptyGroups(m);
      MeaningIsTruth(m, Closed(truth));
      HasLeaf(m);
    }
  }

  lemma {:induction false} HasLeaf(n: Node)
    requires NoEmptyGroups(n)
    ensures Leaves(n) != []
    decreases n
  {
    if n.Group? {
      HasLeaf(n.children[0]);
    }
  }

  // ---- Loading, then saving ---------------------------------------------------

  /** A stored leaf as the editor writes it back. */
  function RewrittenLeaf(leaf: ConditionLeaf): ConditionLeaf {
    LeafFromContact(ContactFromLeaf(leaf, ""))
  }

  function Reread(truth: ConditionLeaf -> bool): ConditionLeaf -> bool {
    (leaf: ConditionLeaf) => truth(RewrittenLeaf(leaf))
  }

  lemma RewrittenLeafIs(leaf: ConditionLeaf, id: string)
    ensures LeafFromContact(ContactFromLeaf(leaf, id)) == RewrittenLeaf(leaf)
  {
    hide LeafFromContact;
    assert ContactFromLeaf(leaf, id) == ContactFromLeaf(leaf, "").(id := id);
    IdUnsaved(ContactFromLeaf(leaf, ""), id);
  }

  /** A contact's id is not saved. */
  lemma IdUnsaved(c: ContactDraft, id: string)
    ensures LeafFromContact(c.(id := id)) == LeafFromContact(c)
  {
  }

  lemma {:induction false} LoadMeans(c: ConditionNode, newId: seq<nat> -> string, path: seq<nat>, truth: ConditionLeaf -> bool)
    requires NoNull(c) && NoEmptyConditionGroups(c)
    ensures NoEmptyGroups(NodeFromCondition(c, newId, path))
    ensures Conducts(NodeFromCondition(c, newId, path), Closed(truth)) <==> Holds(c, Reread(truth))
    decreases c, 1
  {
    match c {
      case LeafNode(leaf) => RewrittenLeafIs(leaf, newId(path));
      case GroupNode(op, ps) =>
        LoadChildrenMean(ps, newId, path, 0, truth);
        var cs := NodesFromPredicates(ps, newId, path, 0);
        if op.And? {
          forall p | p in ps && Conducts(NodeFromCondition(c, newId, path), Closed(truth)) ensures Holds(p, Reread(truth)) {
            var i :| 0 <= i < |ps| && ps[i] == p;
            assert cs[i] in cs;
          }
          forall d | d in cs && Holds(c, Reread(truth)) ensures Conducts(d, Closed(truth)) {
            var i :| 0 <= i < |cs| && cs[i] == d;
            assert ps[i] in ps;
          }
        } else {
          if Conducts(NodeFromCondition(c, newId, path), Closed(truth)) {
            var i :| 0 <= i < |cs| && Conducts(cs[i], Closed(truth));
            assert ps[i] in ps;
          }
          if Holds(c, Reread(truth)) {
            var i :| 0 <= i < |ps| && Holds(ps[i], Reread(truth));
            assert cs[i] in cs;
          }
        }
    }
  }

  lemma {:induction false} LoadChildrenMean(ps: seq<ConditionNode>, newId: seq<nat> -> string, path: seq<nat>, from: nat, truth: ConditionLeaf -> bool)
    requires forall p | p in ps :: NoNull(p) && NoEmptyConditionGroups(p)
    ensures var cs := NodesFromPredicates(ps, newId, path, from);
      forall i | 0 <= i < |ps| :: NoEmptyGroups(cs[i]) && (Conducts(cs[i], Closed(truth)) <==> Holds(ps[i], Reread(truth)))
    decreases ps, 0
  {
    if ps != [] {
      LoadMeans(ps[0], newId, path + [from], truth);
      LoadChildrenMean(ps[1..], newId, path, from + 1, truth);
    }
  }

  ghost predicate CanonicalLeaves(c: ConditionNode)
    decreases c
  {
    match c
    case Null => true
    case LeafNode(leaf) => CanonicalLeaf(leaf)
    case GroupNode(_, ps) => forall p | p in ps :: CanonicalLeaves(p)
  }

  lemma {:induction false} CanonicalReread(c: ConditionNode, truth: ConditionLeaf -> bool)
    requires CanonicalLeaves(c)
    ensures Holds(c, Reread(truth)) <==> Holds(c, truth)
    decreases c
  {
    match c {
      case Null =>
      case LeafNode(leaf) =>
        LeafRoundTrip(leaf, "");
        assert CanonicalLeaf(leaf) && RewrittenLeaf(leaf) == leaf && Reread(truth)(leaf) == truth(leaf);
      case GroupNode(op, ps) =>
        forall p | p in ps ensures Holds(p, Reread(truth)) <==> Holds(p, truth) {
          CanonicalReread(p, truth);
        }
    }
  }

  /** Opening a rule and saving it keeps what its condition means, each leaf read as
      the editor writes it back; leaves it writes back as they were keep theirs. */
  lemma LoadSaveMeans(c: ConditionNode, newId: seq<nat> -> string, truth: ConditionLeaf -> bool)
    requires NoNull(c) && NoEmptyConditionGroups(c)
    ensures var saved := ConditionFromNode(NodeFromCondition(c, newId, []));
      saved != Null && (Holds(saved, truth) <==> Holds(c, Reread(truth))) && (CanonicalLeaves(c) ==> (Holds(saved, truth) <==> Holds(c, truth)))
  {
    var n := NodeFromCondition(c, newId, []);
    LoadMeans(c, newId, [], truth);
    HasLeaf(n);
    SaveMeans(n, truth);
    MeaningIsTruth(n, Closed(truth));
    if CanonicalLeaves(c) { CanonicalReread(c, truth); }
  }

  lemma {:induction false} LoadCanonical(c: ConditionNode, newId: seq<nat> -> string, path: seq<nat>)
    requires Canonical(c) && NoNull(c)
    ensures Alternating(NodeFromCondition(c, newId, path))
    ensures ConditionFromNode(NodeFromCondition(c, newId, path)) == c
    decreases c, 1
  {
    match c {
      case LeafNode(leaf) => LeafRoundTrip(leaf, newId(path));
      case GroupNode(op, ps) =>
        LoadCanonicalChildren(op, ps, newId, path, 0);
        AlternatingIsNormal(NodeFromCondition(c, newId, path));
    }
  }

  lemma {:induction false} LoadCanonicalChildren(op: Combinator, ps: seq<ConditionNode>, newId: seq<nat> -> string, path: seq<nat>, from: nat)
    requires forall p | p in ps :: Canonical(p) && NoNull(p) && !(p.GroupNode? && p.op == op)
    ensures var cs := NodesFromPredicates(ps, newId, path, from);
      && PredicatesFromNodes(cs) == ps
      && forall c | c in cs :: Alternating(c) && !c.IsGroupOf(op)
    decreases ps, 0
  {
    if ps != [] {
      LoadCanonical(ps[0], newId, path + [from]);
      LoadCanonicalChildren(op, ps[1..], newId, path, from + 1);
      var cs := NodesFromPredicates(ps, newId, path, from);
      assert cs[1..] == NodesFromPredicates(ps[1..], newId, path, from + 1);
    }
  }

  /** A stored condition comes back unchanged exactly when it is canonical; and
      whatever was saved once is. */
  lemma LoadSaveFixedPoint(c: ConditionNode, newId: seq<nat> -> string)
    requires NoNull(c)
    ensures ConditionFromNode(NodeFromCondition(c, newId, [])) == c <==> Canonical(c)
  {
    if Canonical(c) {
      LoadCanonical(c, newId, []);
    }
    SaveMeans(NodeFromCondition(c, newId, []), (_: ConditionLeaf) => true);
  }
}
