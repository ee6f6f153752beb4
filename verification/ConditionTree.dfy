/** The rule editor's condition tree (frontend/src/lib/rule-draft.ts): contacts
    combined by AND (series) and OR (parallel) groups, what such a tree means,
    and the normal form every edit ends in. */
module ConditionTree {
  import opened Wrappers

  datatype Combinator = And | Or

  datatype RhsKind = Static | Metric

  /** One condition leaf. `setValues` stands for the numbers typed in the
      comma-separated set field. */
  datatype ContactDraft = ContactDraft(
    id: string,
    deviceId: string,
    metric: string,
    operator: string,
    hysteresis: real,
    rhsKind: RhsKind,
    value: real,
    low: real,
    high: real,
    setValues: seq<real>,
    rhsDeviceId: string,
    rhsMetric: string)

  datatype Node =
    | Leaf(contact: ContactDraft)
    | Group(groupId: string, op: Combinator, children: seq<Node>)
  {
    function Id(): string {
      if Leaf? then contact.id else groupId
    }

    predicate IsGroupOf(o: Combinator) {
      Group? && op == o
    }
  }

  // ---- Reading a tree ------------------------------------------------------

  /** The contacts in drawing order. */
  function Leaves(n: Node): seq<ContactDraft>
    decreases n, 0
  {
    match n
    case Leaf(c) => [c]
    case Group(_, _, cs) => ListLeaves(cs)
  }

  function ListLeaves(cs: seq<Node>): seq<ContactDraft>
    decreases cs, 0
  {
    if cs == [] then [] else Leaves(cs[0]) + ListLeaves(cs[1..])
  }

  /** Every id in the tree, each node before what it encloses. */
  function Ids(n: Node): seq<string>
    decreases n, 0
  {
    match n
    case Leaf(c) => [c.id]
    case Group(id, _, cs) => [id] + ListIds(cs)
  }

  function ListIds(cs: seq<Node>): seq<string>
    decreases cs, 0
  {
    if cs == [] then [] else Ids(cs[0]) + ListIds(cs[1..])
  }

  ghost predicate Distinct<T(!new)>(s: seq<T>) {
    forall i, j :: 0 <= i < j < |s| ==> s[i] != s[j]
  }

  ghost predicate UniqueIds(n: Node) {
    Distinct(Ids(n))
  }

  ghost predicate NoEmptyGroups(n: Node)
    decreases n
  {
    n.Group? ==> n.children != [] && forall c | c in n.children :: NoEmptyGroups(c)
  }

  /** Truth of the condition when `on` says which contacts are closed. */
  ghost predicate Conducts(n: Node, on: ContactDraft -> bool)
    decreases n
  {
    match n
    case Leaf(c) => on(c)
    case Group(_, And, cs) => forall c | c in cs :: Conducts(c, on)
    case Group(_, Or, cs) => exists c | c in cs :: Conducts(c, on)
  }

  /** The same truth for trees that may hold blank groups: a group with no
      contact under it says nothing (`None`), and so does any node whose id is
      in `gone`. */
  function Meaning(n: Node, on: ContactDraft -> bool, gone: set<string>): Option<bool>
    decreases n, 0
  {
    if n.Id() in gone then None else
    match n
    case Leaf(c) => Some(on(c))
    case Group(_, op, cs) => ListMeaning(op, cs, on, gone)
  }

  function ListMeaning(op: Combinator, cs: seq<Node>, on: ContactDraft -> bool, gone: set<string>): Option<bool>
    decreases cs, 0
  {
    if cs == [] then None
    else Join(op, Meaning(cs[0], on, gone), ListMeaning(op, cs[1..], on, gone))
  }

  function Join(op: Combinator, a: Option<bool>, b: Option<bool>): Option<bool> {
    match (a, b)
    case (None, _) => b
    case (_, None) => a
    case (Some(x), Some(y)) => Some(if op.And? then x && y else x || y)
  }

  lemma JoinAssociative(op: Combinator, a: Option<bool>, b: Option<bool>, c: Option<bool>)
    ensures Join(op, Join(op, a, b), c) == Join(op, a, Join(op, b, c))
  {
  }

  // ---- Lists of subtrees ---------------------------------------------------

  lemma {:induction false} ListLeavesAppend(xs: seq<Node>, ys: seq<Node>)
    ensures ListLeaves(xs + ys) == ListLeaves(xs) + ListLeaves(ys)
  {
    if xs == [] {
      assert xs + ys == ys;
    } else {
      assert (xs + ys)[1..] == xs[1..] + ys;
      ListLeavesAppend(xs[1..], ys);
    }
  }

  lemma {:induction false} ListIdsAppend(xs: seq<Node>, ys: seq<Node>)
    ensures ListIds(xs + ys) == ListIds(xs) + ListIds(ys)
  {
    if xs == [] {
      assert xs + ys == ys;
    } else {
      assert (xs + ys)[1..] == xs[1..] + ys;
      ListIdsAppend(xs[1..], ys);
    }
  }

  lemma {:induction false} ListMeaningAppend(op: Combinator, xs: seq<Node>, ys: seq<Node>, on: ContactDraft -> bool, gone: set<string>)
    ensures ListMeaning(op, xs + ys, on, gone) == Join(op, ListMeaning(op, xs, on, gone), ListMeaning(op, ys, on, gone))
  {
    if xs == [] {
      assert xs + ys == ys;
    } else {
      assert (xs + ys)[1..] == xs[1..] + ys;
      ListMeaningAppend(op, xs[1..], ys, on, gone);
      JoinAssociative(op, Meaning(xs[0], on, gone), ListMeaning(op, xs[1..], on, gone), ListMeaning(op, ys, on, gone));
    }
  }

  /** Without blank groups the two readings of a tree agree. */
  lemma {:induction false} MeaningIsTruth(n: Node, on: ContactDraft -> bool)
    requires NoEmptyGroups(n)
    ensures Meaning(n, on, {}) == Some(Conducts(n, on))
    decreases n, 0
  {
    if n.Group? {
      ListMeaningIsTruth(n.op, n.children, on);
    }
  }

  lemma {:induction false} ListMeaningIsTruth(op: Combinator, cs: seq<Node>, on: ContactDraft -> bool)
    requires forall c | c in cs :: NoEmptyGroups(c)
    ensures cs != [] && op.And? ==> ListMeaning(op, cs, on, {}) == Some(forall c | c in cs :: Conducts(c, on))
    ensures cs != [] && op.Or? ==> ListMeaning(op, cs, on, {}) == Some(exists c | c in cs :: Conducts(c, on))
    decreases cs, 0
  {
    if cs != [] {
      MeaningIsTruth(cs[0], on);
      ListMeaningIsTruth(op, cs[1..], on);
      assert forall c :: c in cs <==> c == cs[0] || c in cs[1..];
    }
  }

  // ---- Normal form ---------------------------------------------------------

  /** No group is blank or has a lone child, and none holds a group of its own
      operator: series and parallel alternate. */
  ghost predicate Alternating(n: Node)
    decreases n
  {
    n.Group? ==> |n.children| >= 2 && forall c | c in n.children :: Alternating(c) && !c.IsGroupOf(n.op)
  }

  ghost predicate AlternatingTree(t: Option<Node>) {
    t.Some? ==> Alternating(t.value)
  }

  function Normal(n: Node): Option<Node>
    decreases n, 0
  {
    match n
    case Leaf(_) => Some(n)
    case Group(id, op, cs) =>
      var kept := NormalChildren(op, cs);
      if kept == [] then None else if |kept| == 1 then Some(kept[0]) else Some(Group(id, op, kept))
  }

  function NormalChildren(op: Combinator, cs: seq<Node>): seq<Node>
    decreases cs, 0
  {
    if cs == [] then [] else Merged(op, Normal(cs[0])) + NormalChildren(op, cs[1..])
  }

  /** What a normalised child contributes to its parent's children. */
  function Merged(op: Combinator, child: Option<Node>): seq<Node> {
    match child
    case None => []
    case Some(c) => if c.IsGroupOf(op) then c.children else [c]
  }

  function NormalTree(t: Option<Node>): Option<Node> {
    if t.None? then None else Normal(t.value)
  }

  lemma {:induction false} NormalChildrenAppend(op: Combinator, xs: seq<Node>, ys: seq<Node>)
    ensures NormalChildren(op, xs + ys) == NormalChildren(op, xs) + NormalChildren(op, ys)
  {
    if xs == [] {
      assert xs + ys == ys;
    } else {
      assert (xs + ys)[1..] == xs[1..] + ys;
      NormalChildrenAppend(op, xs[1..], ys);
    }
  }

  lemma NormalChildrenExtend(op: Combinator, cs: seq<Node>, i: nat)
    requires i < |cs|
    ensures NormalChildren(op, cs[..i + 1]) == NormalChildren(op, cs[..i]) + Merged(op, Normal(cs[i]))
  {
    assert cs[..i + 1] == cs[..i] + [cs[i]];
    NormalChildrenAppend(op, cs[..i], [cs[i]]);
    assert NormalChildren(op, [cs[i]]) == Merged(op, Normal(cs[i])) + NormalChildren(op, [cs[i]][1..]);
  }

  /** `normalize` of a non-null tree, as the editor runs it: one pass over the
      children, building the new list as it goes. */
  method Normalize(node: Node) returns (r: Option<Node>)
    ensures r == Normal(node)
    decreases node
  {
    if node.Leaf? {
      return Some(node);
    }
    var children: seq<Node> := [];
    for i := 0 to |node.children|
      invariant children == NormalChildren(node.op, node.children[..i])
    {
      var child := Normalize(node.children[i]);
      NormalChildrenExtend(node.op, node.children, i);
      if child.Some? {
        if child.value.Group? && child.value.op == node.op {
          children := children + child.value.children;
        } else {
          children := children + [child.value];
        }
      }
    }
    assert node.children[..|node.children|] == node.children;
    if |children| == 0 {
      return None;
    }
    if |children| == 1 {
      return Some(children[0]);
    }
    r := Some(node.(children := children));
  }

  /** `normalize` always reaches the alternating form. */
  lemma {:induction false} NormalAlternates(n: Node)
    ensures AlternatingTree(Normal(n))
    decreases n, 0
  {
    if n.Group? {
      NormalChildrenAlternate(n.op, n.children);
    }
  }

  lemma {:induction false} NormalChildrenAlternate(op: Combinator, cs: seq<Node>)
    ensures forall c | c in NormalChildren(op, cs) :: Alternating(c) && !c.IsGroupOf(op)
    decreases cs, 0
  {
    if cs != [] {
      NormalAlternates(cs[0]);
      NormalChildrenAlternate(op, cs[1..]);
    }
  }

  /** A tree is left alone exactly when it is alternating already. */
  lemma NormalFixesAlternating(n: Node)
    ensures Normal(n) == Some(n) <==> Alternating(n)
  {
    NormalAlternates(n);
    if Alternating(n) {
      AlternatingIsNormal(n);
    }
  }

  lemma {:induction false} AlternatingIsNormal(n: Node)
    requires Alternating(n)
    ensures Normal(n) == Some(n)
    decreases n, 0
  {
    if n.Group? {
      AlternatingChildrenAreNormal(n.op, n.children);
    }
  }

  lemma {:induction false} AlternatingChildrenAreNormal(op: Combinator, cs: seq<Node>)
    requires forall c | c in cs :: Alternating(c) && !c.IsGroupOf(op)
    ensures NormalChildren(op, cs) == cs
    decreases cs, 0
  {
    if cs != [] {
      AlternatingIsNormal(cs[0]);
      AlternatingChildrenAreNormal(op, cs[1..]);
    }
  }

  lemma NormalIdempotent(n: Node)
    ensures NormalTree(Normal(n)) == Normal(n)
  {
    NormalAlternates(n);
    if Normal(n).Some? {
      NormalFixesAlternating(Normal(n).value);
    }
  }

  /** Normalising never drops, repeats or reorders a contact. */
  lemma {:induction false} NormalKeepsLeaves(n: Node)
    ensures Leaves(n) == if Normal(n).Some? then Leaves(Normal(n).value) else []
    decreases n, 0
  {
    if n.Group? {
      NormalChildrenKeepLeaves(n.op, n.children);
      var kept := NormalChildren(n.op, n.children);
      if |kept| == 1 {
        assert ListLeaves(kept) == Leaves(kept[0]) + ListLeaves(kept[1..]);
      }
    }
  }

  lemma {:induction false} NormalChildrenKeepLeaves(op: Combinator, cs: seq<Node>)
    ensures ListLeaves(NormalChildren(op, cs)) == ListLeaves(cs)
    decreases cs, 0
  {
    if cs != [] {
      NormalKeepsLeaves(cs[0]);
      NormalChildrenKeepLeaves(op, cs[1..]);
      var first := Merged(op, Normal(cs[0]));
      ListLeavesAppend(first, NormalChildren(op, cs[1..]));
      if first != [] && first[1..] == [] {
        assert ListLeaves(first) == Leaves(first[0]) + ListLeaves(first[1..]);
      }
    }
  }

  /** Normalising never changes what the condition means. */
  lemma {:induction false} NormalKeepsMeaning(n: Node, on: ContactDraft -> bool)
    ensures Meaning(n, on, {}) == if Normal(n).Some? then Meaning(Normal(n).value, on, {}) else None
    decreases n, 0
  {
    if n.Group? {
      NormalChildrenKeepMeaning(n.op, n.children, on);
      var kept := NormalChildren(n.op, n.children);
      if |kept| == 1 {
        assert kept[1..] == [];
      }
    }
  }

  lemma {:induction false} NormalChildrenKeepMeaning(op: Combinator, cs: seq<Node>, on: ContactDraft -> bool)
    ensures ListMeaning(op, NormalChildren(op, cs), on, {}) == ListMeaning(op, cs, on, {})
    decreases cs, 0
  {
    if cs != [] {
      NormalKeepsMeaning(cs[0], on);
      NormalChildrenKeepMeaning(op, cs[1..], on);
      var first := Merged(op, Normal(cs[0]));
      ListMeaningAppend(op, first, NormalChildren(op, cs[1..]), on, {});
      if |first| == 1 {
        assert first[1..] == [];
      }
    }
  }

  lemma {:induction false} AlternatingHasNoEmptyGroups(n: Node)
    requires Alternating(n)
    ensures NoEmptyGroups(n)
  {
    if n.Group? {
      forall c | c in n.children ensures NoEmptyGroups(c) {
        AlternatingHasNoEmptyGroups(c);
      }
    }
  }

  /** The headline form: a tree without blank groups keeps its truth value and
      never disappears. */
  lemma NormalKeepsTruth(n: Node, on: ContactDraft -> bool)
    requires NoEmptyGroups(n)
    ensures Normal(n).Some? && Alternating(Normal(n).value)
    ensures Conducts(Normal(n).value, on) <==> Conducts(n, on)
    ensures Leaves(Normal(n).value) == Leaves(n)
  {
    MeaningIsTruth(n, on);
    NormalKeepsMeaning(n, on);
    NormalAlternates(n);
    NormalKeepsLeaves(n);
    AlternatingHasNoEmptyGroups(Normal(n).value);
    MeaningIsTruth(Normal(n).value, on);
  }

  /** No id appears more often after normalising than before. */
  lemma {:induction false} NormalAddsNoIds(n: Node)
    ensures Normal(n).Some? ==> multiset(Ids(Normal(n).value)) <= multiset(Ids(n))
    decreases n, 0
  {
    if n.Group? {
      NormalChildrenAddNoIds(n.op, n.children);
      var kept := NormalChildren(n.op, n.children);
      if |kept| == 1 {
        assert ListIds(kept) == Ids(kept[0]) + ListIds(kept[1..]);
      }
    }
  }

  lemma {:induction false} NormalChildrenAddNoIds(op: Combinator, cs: seq<Node>)
    ensures multiset(ListIds(NormalChildren(op, cs))) <= multiset(ListIds(cs))
    decreases cs, 0
  {
    if cs != [] {
      NormalAddsNoIds(cs[0]);
      NormalChildrenAddNoIds(op, cs[1..]);
      var first := Merged(op, Normal(cs[0]));
      ListIdsAppend(first, NormalChildren(op, cs[1..]));
      if |first| == 1 {
        assert ListIds(first) == Ids(first[0]) + ListIds(first[1..]);
      }
    }
  }
}
