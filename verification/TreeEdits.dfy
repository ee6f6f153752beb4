/** The editor's tree operations (frontend/src/lib/rule-draft.ts): insert beside,
    remove, flip a group, patch a contact. Each is related to plain substitution
    of one subtree. */
module TreeEdits {
  import opened Wrappers
  import opened ConditionTree

  // ---- The operations ------------------------------------------------------

  predicate HoldsChild(n: Node, id: string) {
    n.Group? && exists c | c in n.children :: c.Id() == id
  }

  /** The first group, from the root down, with a child called `id`. */
  function ParentOf(n: Node, id: string): Option<Node>
    decreases n, 0
  {
    if n.Leaf? then None
    else if HoldsChild(n, id) then Some(n)
    else ListParentOf(n.children, id)
  }

  function ListParentOf(cs: seq<Node>, id: string): Option<Node>
    decreases cs, 0
  {
    if cs == [] then None
    else
      var hit := ParentOf(cs[0], id);
      if hit.Some? then hit else ListParentOf(cs[1..], id)
  }

  /** Rewrites every topmost node that `hit` selects; what is under a rewritten
      node is not visited. */
  function MapNode(n: Node, hit: Node -> bool, f: Node -> Node): Node
    decreases n, 0
  {
    if hit(n) then f(n)
    else if n.Leaf? then n
    else n.(children := MapChildren(n.children, hit, f))
  }

  function MapChildren(cs: seq<Node>, hit: Node -> bool, f: Node -> Node): (r: seq<Node>)
    ensures |r| == |cs|
    ensures forall i | 0 <= i < |cs| :: r[i] == MapNode(cs[i], hit, f)
    decreases cs, 0
  {
    if cs == [] then [] else [MapNode(cs[0], hit, f)] + MapChildren(cs[1..], hit, f)
  }

  function IndexOfChild(cs: seq<Node>, id: string): (i: nat)
    requires exists c | c in cs :: c.Id() == id
    ensures i < |cs| && cs[i].Id() == id
    ensures forall j | 0 <= j < i :: cs[j].Id() != id
  {
    if cs[0].Id() == id then 0 else 1 + IndexOfChild(cs[1..], id)
  }

  /** What `insertBeside` does to the parent: join it, or wrap the target. */
  function AddToParent(parent: Node, targetId: string, added: Node, op: Combinator, groupId: string): Node {
    if !HoldsChild(parent, targetId) then parent
    else
      var cs := parent.children;
      var at := IndexOfChild(cs, targetId);
      if parent.op == op then parent.(children := cs[..at + 1] + [added] + cs[at + 1..])
      else parent.(children := cs[at := Group(groupId, op, [cs[at], added])])
  }

  /** `groupId` is the id `newId()` hands out for a group the edit creates. */
  function InsertBeside(root: Option<Node>, targetId: string, added: Node, op: Combinator, groupId: string): Option<Node> {
    match root
    case None => Some(added)
    case Some(n) =>
      if n.Id() == targetId then Normal(Group(groupId, op, [n, added]))
      else match ParentOf(n, targetId)
        case None => root
        case Some(parent) =>
          Normal(MapNode(n,
            (m: Node) => m.Group? && m.groupId == parent.Id(),
            (m: Node) => AddToParent(m, targetId, added, op, groupId)))
  }

  function Prune(n: Node, id: string): Option<Node>
    decreases n, 0
  {
    if n.Id() == id then None
    else if n.Leaf? then Some(n)
    else Some(n.(children := PruneChildren(n.children, id)))
  }

  function Optional(t: Option<Node>): seq<Node> {
    if t.None? then [] else [t.value]
  }

  function PruneChildren(cs: seq<Node>, id: string): seq<Node>
    decreases cs, 0
  {
    if cs == [] then []
    else Optional(Prune(cs[0], id)) + PruneChildren(cs[1..], id)
  }

  function RemoveNode(root: Option<Node>, id: string): Option<Node> {
    if root.None? || root.value.Id() == id then None
    else if root.value.Leaf? then root
    else NormalTree(Prune(root.value, id))
  }

  function SetGroupOp(root: Option<Node>, id: string, op: Combinator): Option<Node> {
    if root.None? then None
    else Normal(MapNode(root.value, (m: Node) => m.Group? && m.groupId == id, (m: Node) => if m.Group? then m.(op := op) else m))
  }

  /** `patch` may change any field of the contact but its id. */
  function UpdateContact(root: Option<Node>, id: string, patch: ContactDraft -> ContactDraft): Option<Node> {
    if root.None? then None
    else Some(MapNode(root.value, (m: Node) => m.Leaf? && m.contact.id == id,
                      (m: Node) => if m.Leaf? then Leaf(patch(m.contact).(id := m.contact.id)) else m))
  }

  // ---- Substitution, the reference meaning ----------------------------------

  function Find(n: Node, id: string): Option<Node>
    decreases n, 0
  {
    if n.Id() == id then Some(n)
    else if n.Leaf? then None
    else ListFind(n.children, id)
  }

  function ListFind(cs: seq<Node>, id: string): Option<Node>
    decreases cs, 0
  {
    if cs == [] then None
    else if Find(cs[0], id).Some? then Find(cs[0], id) else ListFind(cs[1..], id)
  }

  /** The tree with the node called `id` replaced by `sub`. */
  function Substitute(n: Node, id: string, sub: Node): Node
    decreases n, 0
  {
    if n.Id() == id then sub
    else if n.Leaf? then n
    else n.(children := SubstituteChildren(n.children, id, sub))
  }

  function SubstituteChildren(cs: seq<Node>, id: string, sub: Node): (r: seq<Node>)
    ensures |r| == |cs|
    ensures forall i | 0 <= i < |cs| :: r[i] == Substitute(cs[i], id, sub)
    decreases cs, 0
  {
    if cs == [] then [] else [Substitute(cs[0], id, sub)] + SubstituteChildren(cs[1..], id, sub)
  }

  // ---- Where an id is -------------------------------------------------------

  lemma {:induction false} IdsOfChild(cs: seq<Node>, i: nat)
    requires i < |cs|
    ensures ListIds(cs) == ListIds(cs[..i]) + Ids(cs[i]) + ListIds(cs[i + 1..])
  {
    assert cs == cs[..i] + ([cs[i]] + cs[i + 1..]);
    ListIdsAppend(cs[..i], [cs[i]] + cs[i + 1..]);
    assert ([cs[i]] + cs[i + 1..])[1..] == cs[i + 1..];
  }

  lemma ChildIdsInside(cs: seq<Node>, i: nat, id: string)
    requires i < |cs| && id in Ids(cs[i])
    ensures id in ListIds(cs)
  {
    IdsOfChild(cs, i);
  }

  lemma {:induction false} SomeChildHolds(cs: seq<Node>, id: string) returns (i: nat)
    requires id in ListIds(cs)
    ensures i < |cs| && id in Ids(cs[i])
  {
    if id in Ids(cs[0]) {
      i := 0;
    } else {
      i := SomeChildHolds(cs[1..], id);
      i := i + 1;
    }
  }

  lemma OwnId(n: Node)
    ensures n.Id() in Ids(n)
    ensures n.Id() == Ids(n)[0]
  {
  }

  lemma UniqueChild(cs: seq<Node>, i: nat)
    requires i < |cs| && Distinct(ListIds(cs))
    ensures UniqueIds(cs[i])
  {
    IdsOfChild(cs, i);
    MiddleDistinct(ListIds(cs[..i]), Ids(cs[i]), ListIds(cs[i + 1..]));
  }

  lemma MiddleDistinct<T(!new)>(a: seq<T>, b: seq<T>, c: seq<T>)
    requires Distinct(a + b + c)
    ensures Distinct(b)
  {
    var all := a + b + c;
    forall p, q | 0 <= p < q < |b| ensures b[p] != b[q] {
      assert all[|a| + p] == b[p] && all[|a| + q] == b[q];
    }
  }

  lemma OneChildHolds(cs: seq<Node>, i: nat, j: nat, id: string)
    requires i < |cs| && j < |cs| && Distinct(ListIds(cs))
    requires id in Ids(cs[i]) && id in Ids(cs[j])
    ensures i == j
  {
    if i < j {
      TwoChildrenClash(cs, i, j, id);
    } else if j < i {
      TwoChildrenClash(cs, j, i, id);
    }
  }

  lemma TwoChildrenClash(cs: seq<Node>, i: nat, j: nat, id: string)
    requires i < j < |cs|
    requires id in Ids(cs[i]) && id in Ids(cs[j])
    ensures !Distinct(ListIds(cs))
  {
    hide *;
    IdsOfChild(cs, i);
    assert cs[i + 1..][j - i - 1] == cs[j];
    ChildIdsInside(cs[i + 1..], j - i - 1, id);
    SharedElement(ListIds(cs[..i]), Ids(cs[i]), ListIds(cs[i + 1..]), id);
  }

  lemma SharedElement<T(!new)>(a: seq<T>, b: seq<T>, c: seq<T>, x: T)
    requires x in b && x in c
    ensures !Distinct(a + b + c)
  {
    var p :| 0 <= p < |b| && b[p] == x;
    var q :| 0 <= q < |c| && c[q] == x;
    var all := a + b + c;
    assert all[|a| + p] == x && all[|a| + |b| + q] == x;
  }

  lemma UniqueChildren(n: Node)
    requires n.Group? && UniqueIds(n)
    ensures Distinct(ListIds(n.children)) && n.groupId !in ListIds(n.children)
  {
    var all := Ids(n);
    forall p, q | 0 <= p < q < |ListIds(n.children)| ensures ListIds(n.children)[p] != ListIds(n.children)[q] {
      assert all[p + 1] == ListIds(n.children)[p] && all[q + 1] == ListIds(n.children)[q];
    }
    forall p | 0 <= p < |ListIds(n.children)| ensures ListIds(n.children)[p] != n.groupId {
      assert all[p + 1] == ListIds(n.children)[p] && all[0] == n.groupId;
    }
  }

  lemma {:induction false} SubstituteElsewhere(n: Node, id: string, sub: Node)
    requires id !in Ids(n)
    ensures Substitute(n, id, sub) == n
    decreases n
  {
    OwnId(n);
    if n.Group? {
      forall i | 0 <= i < |n.children| ensures Substitute(n.children[i], id, sub) == n.children[i] {
        if id in Ids(n.children[i]) { ChildIdsInside(n.children, i, id); }
        SubstituteElsewhere(n.children[i], id, sub);
      }
      assert SubstituteChildren(n.children, id, sub) == n.children;
    }
  }

  lemma {:induction false} MapElsewhere(n: Node, id: string, f: Node -> Node)
    requires id !in Ids(n)
    ensures MapNode(n, (m: Node) => m.Group? && m.groupId == id, f) == n
    decreases n
  {
    OwnId(n);
    var hit := (m: Node) => m.Group? && m.groupId == id;
    if n.Group? {
      forall i | 0 <= i < |n.children| ensures MapNode(n.children[i], hit, f) == n.children[i] {
        if id in Ids(n.children[i]) { ChildIdsInside(n.children, i, id); }
        MapElsewhere(n.children[i], id, f);
      }
      assert MapChildren(n.children, hit, f) == n.children;
    }
  }

  lemma {:induction false} ParentOfFinds(n: Node, id: string)
    requires id in Ids(n) && n.Id() != id
    ensures ParentOf(n, id).Some?
    ensures var p := ParentOf(n, id).value; HoldsChild(p, id) && p.Id() in Ids(n)
    decreases n, 0
  {
    if !HoldsChild(n, id) {
      ListParentOfFinds(n.children, id);
    }
  }

  lemma {:induction false} ListParentOfFinds(cs: seq<Node>, id: string)
    requires id in ListIds(cs) && forall c | c in cs :: c.Id() != id
    ensures ListParentOf(cs, id).Some?
    ensures var p := ListParentOf(cs, id).value; HoldsChild(p, id) && p.Id() in ListIds(cs)
    decreases cs, 0
  {
    if id in Ids(cs[0]) {
      ParentOfFinds(cs[0], id);
    } else {
      NoParentOutside(cs[0], id);
      ListParentOfFinds(cs[1..], id);
    }
  }

  lemma {:induction false} NoParentOutside(n: Node, id: string)
    requires id !in Ids(n)
    ensures ParentOf(n, id).None?
    decreases n, 0
  {
    if n.Group? {
      forall c | c in n.children ensures c.Id() != id {
        var i :| 0 <= i < |n.children| && n.children[i] == c;
        OwnId(c);
        if c.Id() == id { ChildIdsInside(n.children, i, id); }
      }
      ListNoParentOutside(n.children, id);
    }
  }

  lemma {:induction false} ListNoParentOutside(cs: seq<Node>, id: string)
    requires id !in ListIds(cs)
    ensures ListParentOf(cs, id).None?
    decreases cs, 0
  {
    if cs != [] {
      NoParentOutside(cs[0], id);
      ListNoParentOutside(cs[1..], id);
    }
  }

  lemma {:induction false} FindFinds(n: Node, id: string)
    ensures Find(n, id).Some? <==> id in Ids(n)
    ensures Find(n, id).Some? ==> Find(n, id).value.Id() == id && multiset(Ids(Find(n, id).value)) <= multiset(Ids(n))
    decreases n, 0
  {
    OwnId(n);
    if n.Id() != id && n.Group? {
      ListFindFinds(n.children, id);
    }
  }

  lemma {:induction false} ListFindFinds(cs: seq<Node>, id: string)
    ensures ListFind(cs, id).Some? <==> id in ListIds(cs)
    ensures ListFind(cs, id).Some? ==>
      ListFind(cs, id).value.Id() == id && multiset(Ids(ListFind(cs, id).value)) <= multiset(ListIds(cs))
    decreases cs, 0
  {
    if cs != [] {
      FindFinds(cs[0], id);
      ListFindFinds(cs[1..], id);
    }
  }

  lemma {:induction false} ListFindAt(cs: seq<Node>, k: nat, id: string)
    requires k < |cs| && id in Ids(cs[k]) && Distinct(ListIds(cs))
    ensures ListFind(cs, id) == Find(cs[k], id)
  {
    FindFinds(cs[0], id);
    if k > 0 {
      if id in Ids(cs[0]) { OneChildHolds(cs, 0, k, id); }
      DistinctTail(cs);
      ListFindAt(cs[1..], k - 1, id);
    }
  }

  lemma DistinctTail(cs: seq<Node>)
    requires cs != [] && Distinct(ListIds(cs))
    ensures Distinct(ListIds(cs[1..]))
  {
    MiddleDistinct(Ids(cs[0]), ListIds(cs[1..]), []);
  }

  lemma FindDescends(n: Node, k: nat, id: string)
    requires n.Group? && UniqueIds(n) && k < |n.children| && id in Ids(n.children[k])
    ensures n.Id() != id && Find(n, id) == Find(n.children[k], id)
  {
    UniqueChildren(n);
    ChildIdsInside(n.children, k, id);
    ListFindAt(n.children, k, id);
  }

  /** With unique ids the parent that `ParentOf` returns is the node its id names. */
  lemma {:induction false} ParentOfIsFound(n: Node, id: string)
    requires UniqueIds(n) && id in Ids(n) && n.Id() != id
    ensures ParentOf(n, id).Some? && Find(n, ParentOf(n, id).value.Id()) == ParentOf(n, id)
    decreases n
  {
    ParentOfFinds(n, id);
    if !HoldsChild(n, id) {
      var cs := n.children;
      UniqueChildren(n);
      var k := SomeChildHolds(cs, id);
      UniqueChild(cs, k);
      ParentOfIsFound(cs[k], id);
      ListParentOfAt(cs, k, id);
      ParentOfFinds(cs[k], id);
      FindDescends(n, k, ParentOf(n, id).value.Id());
    }
  }

  lemma {:induction false} ListParentOfAt(cs: seq<Node>, k: nat, id: string)
    requires k < |cs| && id in Ids(cs[k]) && cs[k].Id() != id && Distinct(ListIds(cs))
    ensures ListParentOf(cs, id) == ParentOf(cs[k], id)
  {
    if k > 0 {
      if id in Ids(cs[0]) { OneChildHolds(cs, 0, k, id); }
      NoParentOutside(cs[0], id);
      DistinctTail(cs);
      ListParentOfAt(cs[1..], k - 1, id);
    } else {
      ParentOfFinds(cs[0], id);
    }
  }

  // ---- Inserting is substituting --------------------------------------------

  lemma {:induction false} NormalChildrenCongruent(op: Combinator, xs: seq<Node>, ys: seq<Node>)
    requires |xs| == |ys| && forall i | 0 <= i < |xs| :: Normal(xs[i]) == Normal(ys[i])
    ensures NormalChildren(op, xs) == NormalChildren(op, ys)
  {
    if xs != [] {
      NormalChildrenCongruent(op, xs[1..], ys[1..]);
    }
  }

  /** A group inside a group of the same operator leaves only its children. */
  lemma NestedGroupDissolves(op: Combinator, id: string, xs: seq<Node>)
    ensures Merged(op, Normal(Group(id, op, xs))) == NormalChildren(op, xs)
  {
    NormalChildrenAlternate(op, xs);
  }

  /** Adding `added` after child `at` or wrapping the two in a group of the same
      operator comes to the same normal children. */
  lemma JoinEqualsWrap(op: Combinator, cs: seq<Node>, at: nat, added: Node, groupId: string)
    requires at < |cs|
    ensures NormalChildren(op, cs[..at + 1] + [added] + cs[at + 1..])
         == NormalChildren(op, cs[at := Group(groupId, op, [cs[at], added])])
  {
    hide Normal;
    var wrap := Group(groupId, op, [cs[at], added]);
    var pre, post := cs[..at], cs[at + 1..];
    assert cs[..at + 1] + [added] + cs[at + 1..] == (pre + [cs[at], added]) + post;
    assert cs[at := wrap] == (pre + [wrap]) + post;
    NormalChildrenAppend(op, pre + [cs[at], added], post);
    NormalChildrenAppend(op, pre, [cs[at], added]);
    NormalChildrenAppend(op, pre + [wrap], post);
    NormalChildrenAppend(op, pre, [wrap]);
    NestedGroupDissolves(op, groupId, [cs[at], added]);
    assert NormalChildren(op, [wrap]) == Merged(op, Normal(wrap)) + NormalChildren(op, [wrap][1..]);
  }

  lemma NormalGroupCongruent(id: string, op: Combinator, xs: seq<Node>, ys: seq<Node>)
    requires NormalChildren(op, xs) == NormalChildren(op, ys)
    ensures Normal(Group(id, op, xs)) == Normal(Group(id, op, ys))
  {
  }

  lemma SubstituteChildAt(cs: seq<Node>, at: nat, target: string, sub: Node)
    requires at < |cs| && Distinct(ListIds(cs)) && cs[at].Id() == target
    ensures SubstituteChildren(cs, target, sub) == cs[at := sub]
  {
    OwnId(cs[at]);
    forall i | 0 <= i < |cs| && i != at ensures Substitute(cs[i], target, sub) == cs[i] {
      if target in Ids(cs[i]) { OneChildHolds(cs, i, at, target); }
      SubstituteElsewhere(cs[i], target, sub);
    }
  }

  /** Substituting a child of a parent. */
  lemma SubstituteChild(p: Node, target: string, sub: Node)
    requires UniqueIds(p) && HoldsChild(p, target)
    ensures var at := IndexOfChild(p.children, target);
      && Find(p, target) == Some(p.children[at]) && p.Id() != target
      && Substitute(p, target, sub) == p.(children := p.children[at := sub])
  {
    hide Normal;
    var at := IndexOfChild(p.children, target);
    OwnId(p.children[at]);
    FindDescends(p, at, target);
    UniqueChildren(p);
    SubstituteChildAt(p.children, at, target, sub);
  }

  /** At a parent of the same operator the added node joins its children. */
  lemma JoinIsSubstitution(p: Node, target: string, added: Node, op: Combinator, groupId: string)
    requires UniqueIds(p) && HoldsChild(p, target) && p.op == op && Find(p, target).Some?
    ensures Normal(AddToParent(p, target, added, op, groupId))
         == Normal(Substitute(p, target, Group(groupId, op, [Find(p, target).value, added])))
  {
    hide Normal, UniqueIds, Substitute, Find;
    var cs := p.children;
    var at := IndexOfChild(cs, target);
    var wrap := Group(groupId, op, [cs[at], added]);
    SubstituteChild(p, target, wrap);
    JoinEqualsWrap(op, cs, at, added, groupId);
    NormalGroupCongruent(p.groupId, op, cs[..at + 1] + [added] + cs[at + 1..], cs[at := wrap]);
  }

  /** At one of the other operator it wraps the target. */
  lemma WrapIsSubstitution(p: Node, target: string, added: Node, op: Combinator, groupId: string)
    requires UniqueIds(p) && HoldsChild(p, target) && p.op != op && Find(p, target).Some?
    ensures AddToParent(p, target, added, op, groupId) == Substitute(p, target, Group(groupId, op, [Find(p, target).value, added]))
  {
    hide Normal, UniqueIds, Substitute, Find;
    SubstituteChild(p, target, Group(groupId, op, [p.children[IndexOfChild(p.children, target)], added]));
  }

  /** At the parent itself. */
  lemma AddToParentIsSubstitution(p: Node, target: string, added: Node, op: Combinator, groupId: string)
    requires UniqueIds(p) && HoldsChild(p, target)
    ensures Find(p, target).Some? && p.Id() != target
    ensures Normal(AddToParent(p, target, added, op, groupId))
         == Normal(Substitute(p, target, Group(groupId, op, [Find(p, target).value, added])))
  {
    hide Normal, UniqueIds, Substitute, Find, AddToParent;
    SubstituteChild(p, target, added);
    if p.op == op {
      JoinIsSubstitution(p, target, added, op, groupId);
    } else {
      WrapIsSubstitution(p, target, added, op, groupId);
    }
  }

  /** And seen from any tree around it. */
  lemma {:induction false} MapIsSubstitution(n: Node, p: Node, target: string, added: Node, op: Combinator, groupId: string)
    requires UniqueIds(n) && Find(n, p.Id()) == Some(p) && HoldsChild(p, target)
    ensures Find(n, target).Some? && n.Id() != target
    ensures var hit := (m: Node) => m.Group? && m.groupId == p.Id();
            var f := (m: Node) => AddToParent(m, target, added, op, groupId);
            Normal(MapNode(n, hit, f)) == Normal(Substitute(n, target, Group(groupId, op, [Find(n, target).value, added])))
    decreases n
  {
    if n.Id() == p.Id() {
      AddToParentIsSubstitution(p, target, added, op, groupId);
    } else {
      var hit := (m: Node) => m.Group? && m.groupId == p.Id();
      var f := (m: Node) => AddToParent(m, target, added, op, groupId);
      var cs := n.children;
      var k := PathToParent(n, p, target);
      MapIsSubstitution(cs[k], p, target, added, op, groupId);
      var wrap := Group(groupId, op, [Find(n, target).value, added]);
      forall i | 0 <= i < |cs| ensures Normal(MapNode(cs[i], hit, f)) == Normal(Substitute(cs[i], target, wrap)) {
        if i != k {
          SubstituteElsewhere(cs[i], target, wrap);
          MapElsewhere(cs[i], p.Id(), f);
        }
      }
      NormalChildrenCongruent(n.op, MapChildren(cs, hit, f), SubstituteChildren(cs, target, wrap));
      NormalGroupCongruent(n.groupId, n.op, MapChildren(cs, hit, f), SubstituteChildren(cs, target, wrap));
    }
  }

  /** Only one child of `n` has the parent and the target under it. */
  lemma PathToParent(n: Node, p: Node, target: string) returns (k: nat)
    requires UniqueIds(n) && Find(n, p.Id()) == Some(p) && HoldsChild(p, target) && n.Id() != p.Id()
    ensures n.Group? && k < |n.children| && UniqueIds(n.children[k]) && Find(n.children[k], p.Id()) == Some(p)
    ensures n.Id() != target && Find(n, target) == Find(n.children[k], target)
    ensures forall i | 0 <= i < |n.children| && i != k ::
      target !in Ids(n.children[i]) && p.Id() !in Ids(n.children[i])
  {
    var cs := n.children;
    FindFinds(n, p.Id());
    UniqueChildren(n);
    k := SomeChildHolds(cs, p.Id());
    UniqueChild(cs, k);
    FindDescends(n, k, p.Id());
    FindFinds(cs[k], p.Id());
    var at := IndexOfChild(p.children, target);
    OwnId(p.children[at]);
    ChildIdsInside(p.children, at, target);
    assert target in multiset(Ids(p));
    assert target in multiset(Ids(cs[k]));
    FindDescends(n, k, target);
    forall i | 0 <= i < |cs| && i != k ensures target !in Ids(cs[i]) && p.Id() !in Ids(cs[i]) {
      if target in Ids(cs[i]) { OneChildHolds(cs, i, k, target); }
      if p.Id() in Ids(cs[i]) { OneChildHolds(cs, i, k, p.Id()); }
    }
  }

  /** Inserting beside a node is replacing it by the pair, then normalising —
      whether it joins the parent, wraps the target or sits at the root. An id
      the tree doesn't have changes nothing. */
  lemma InsertIsSubstitution(root: Node, target: string, added: Node, op: Combinator, groupId: string)
    requires UniqueIds(root)
    ensures target !in Ids(root) ==> InsertBeside(Some(root), target, added, op, groupId) == Some(root)
    ensures target in Ids(root) ==>
      && Find(root, target).Some?
      && InsertBeside(Some(root), target, added, op, groupId)
         == Normal(Substitute(root, target, Group(groupId, op, [Find(root, target).value, added])))
  {
    FindFinds(root, target);
    OwnId(root);
    if target !in Ids(root) {
      NoParentOutside(root, target);
    } else if root.Id() != target {
      ParentOfFinds(root, target);
      ParentOfIsFound(root, target);
      MapIsSubstitution(root, ParentOf(root, target).value, target, added, op, groupId);
    }
  }

  // ---- What the edits keep ---------------------------------------------------

  function TreeLeaves(t: Option<Node>): seq<ContactDraft> {
    if t.None? then [] else Leaves(t.value)
  }

  function TreeMeaning(t: Option<Node>, on: ContactDraft -> bool): Option<bool> {
    if t.None? then None else Meaning(t.value, on, {})
  }

  /** The contacts before and after the node called `id`. */
  function Before(n: Node, id: string): seq<ContactDraft>
    decreases n, 0
  {
    if n.Id() == id || n.Leaf? then [] else ListBefore(n.children, id)
  }

  function ListBefore(cs: seq<Node>, id: string): seq<ContactDraft>
    decreases cs, 0
  {
    if cs == [] then []
    else if id in Ids(cs[0]) then Before(cs[0], id)
    else Leaves(cs[0]) + ListBefore(cs[1..], id)
  }

  function After(n: Node, id: string): seq<ContactDraft>
    decreases n, 0
  {
    if n.Id() == id || n.Leaf? then [] else ListAfter(n.children, id)
  }

  function ListAfter(cs: seq<Node>, id: string): seq<ContactDraft>
    decreases cs, 0
  {
    if cs == [] then []
    else if id in Ids(cs[0]) then After(cs[0], id) + ListLeaves(cs[1..])
    else ListAfter(cs[1..], id)
  }

  lemma Regroup<T>(a: seq<T>, b: seq<T>, c: seq<T>, d: seq<T>)
    ensures (a + b + c) + d == a + b + (c + d)
    ensures a + (b + c + d) == (a + b) + c + d
    ensures (a + b) + c == a + (b + c)
  {
  }

  lemma {:induction false} LeavesAround(n: Node, id: string)
    requires id in Ids(n)
    ensures Find(n, id).Some? && Leaves(n) == Before(n, id) + Leaves(Find(n, id).value) + After(n, id)
    decreases n, 0
  {
    if n.Id() != id {
      ListLeavesAround(n.children, id);
    }
  }

  lemma {:induction false} ListLeavesAround(cs: seq<Node>, id: string)
    requires id in ListIds(cs)
    ensures ListFind(cs, id).Some?
    ensures ListLeaves(cs) == ListBefore(cs, id) + Leaves(ListFind(cs, id).value) + ListAfter(cs, id)
    decreases cs, 0
  {
    FindFinds(cs[0], id);
    if id in Ids(cs[0]) {
      LeavesAround(cs[0], id);
      Regroup(Before(cs[0], id), Leaves(Find(cs[0], id).value), After(cs[0], id), ListLeaves(cs[1..]));
    } else {
      ListLeavesAround(cs[1..], id);
      Regroup(Leaves(cs[0]), ListBefore(cs[1..], id), Leaves(ListFind(cs[1..], id).value), ListAfter(cs[1..], id));
    }
  }

  /** Replacing a subtree replaces its contacts where they stood. */
  lemma {:induction false} LeavesOfSubstitute(n: Node, id: string, sub: Node)
    requires UniqueIds(n) && id in Ids(n)
    ensures Leaves(Substitute(n, id, sub)) == Before(n, id) + Leaves(sub) + After(n, id)
    decreases n, 0
  {
    if n.Id() != id {
      UniqueChildren(n);
      ListLeavesOfSubstitute(n.children, id, sub);
    }
  }

  lemma {:induction false} ListLeavesOfSubstitute(cs: seq<Node>, id: string, sub: Node)
    requires Distinct(ListIds(cs)) && id in ListIds(cs)
    ensures ListLeaves(SubstituteChildren(cs, id, sub)) == ListBefore(cs, id) + Leaves(sub) + ListAfter(cs, id)
    decreases cs, 0
  {
    DistinctTail(cs);
    assert SubstituteChildren(cs, id, sub)[1..] == SubstituteChildren(cs[1..], id, sub);
    if id in Ids(cs[0]) {
      UniqueChild(cs, 0);
      LeavesOfSubstitute(cs[0], id, sub);
      NotInTail(cs, id);
      SubstituteListElsewhere(cs[1..], id, sub);
      Regroup(Before(cs[0], id), Leaves(sub), After(cs[0], id), ListLeaves(cs[1..]));
    } else {
      SubstituteElsewhere(cs[0], id, sub);
      ListLeavesOfSubstitute(cs[1..], id, sub);
      Regroup(Leaves(cs[0]), ListBefore(cs[1..], id), Leaves(sub), ListAfter(cs[1..], id));
    }
  }

  lemma NotInTail(cs: seq<Node>, id: string)
    requires cs != [] && Distinct(ListIds(cs)) && id in Ids(cs[0])
    ensures id !in ListIds(cs[1..])
  {
    if id in ListIds(cs[1..]) {
      var j := SomeChildHolds(cs[1..], id);
      OneChildHolds(cs, 0, j + 1, id);
    }
  }

  lemma {:induction false} SubstituteListElsewhere(cs: seq<Node>, id: string, sub: Node)
    requires id !in ListIds(cs)
    ensures SubstituteChildren(cs, id, sub) == cs
  {
    if cs != [] {
      SubstituteElsewhere(cs[0], id, sub);
      SubstituteListElsewhere(cs[1..], id, sub);
    }
  }

  /** Pruning a subtree drops its contacts and no others. */
  lemma {:induction false} LeavesOfPrune(n: Node, id: string)
    requires UniqueIds(n) && id in Ids(n)
    ensures TreeLeaves(Prune(n, id)) == Before(n, id) + After(n, id)
    decreases n, 0
  {
    if n.Id() != id {
      UniqueChildren(n);
      ListLeavesOfPrune(n.children, id);
    }
  }

  lemma {:induction false} ListLeavesOfPrune(cs: seq<Node>, id: string)
    requires Distinct(ListIds(cs)) && id in ListIds(cs)
    ensures ListLeaves(PruneChildren(cs, id)) == ListBefore(cs, id) + ListAfter(cs, id)
    decreases cs, 0
  {
    hide Prune, Ids, Leaves, Before, After;
    DistinctTail(cs);
    if id in Ids(cs[0]) {
      UniqueChild(cs, 0);
      LeavesOfPrune(cs[0], id);
      PruneHead(cs, id);
    } else {
      PruneElsewhere(cs[0], id);
      ListLeavesOfPrune(cs[1..], id);
      assert PruneChildren(cs, id)[1..] == PruneChildren(cs[1..], id);
      Regroup([], Leaves(cs[0]), ListBefore(cs[1..], id), ListAfter(cs[1..], id));
    }
  }

  /** The subtree is in the first child. */
  lemma PruneHead(cs: seq<Node>, id: string)
    requires Distinct(ListIds(cs)) && cs != [] && id in Ids(cs[0])
    requires TreeLeaves(Prune(cs[0], id)) == Before(cs[0], id) + After(cs[0], id)
    ensures ListLeaves(PruneChildren(cs, id)) == ListBefore(cs, id) + ListAfter(cs, id)
  {
    hide Prune, Ids, Leaves, Before, After, Distinct;
    NotInTail(cs, id);
    PruneListElsewhere(cs[1..], id);
    ListLeavesAppend(Optional(Prune(cs[0], id)), cs[1..]);
    LeavesOfOptional(Prune(cs[0], id));
    Regroup([], Before(cs[0], id), After(cs[0], id), ListLeaves(cs[1..]));
  }

  lemma LeavesOfOptional(t: Option<Node>)
    ensures ListLeaves(Optional(t)) == TreeLeaves(t)
  {
    if t.Some? { assert Optional(t)[1..] == []; }
  }

  lemma {:induction false} PruneElsewhere(n: Node, id: string)
    requires id !in Ids(n)
    ensures Prune(n, id) == Some(n)
    decreases n, 0
  {
    OwnId(n);
    if n.Group? {
      PruneListElsewhere(n.children, id);
    }
  }

  lemma {:induction false} PruneListElsewhere(cs: seq<Node>, id: string)
    requires id !in ListIds(cs)
    ensures PruneChildren(cs, id) == cs
    decreases cs, 0
  {
    if cs != [] {
      PruneElsewhere(cs[0], id);
      PruneListElsewhere(cs[1..], id);
    }
  }

  /** `insertBeside` puts the added contacts right after the target's own. */
  lemma InsertKeepsOrder(root: Node, target: string, added: Node, op: Combinator, groupId: string)
    requires UniqueIds(root) && target in Ids(root)
    ensures Find(root, target).Some?
    ensures Leaves(root) == Before(root, target) + Leaves(Find(root, target).value) + After(root, target)
    ensures TreeLeaves(InsertBeside(Some(root), target, added, op, groupId))
         == Before(root, target) + (Leaves(Find(root, target).value) + Leaves(added)) + After(root, target)
  {
    LeavesAround(root, target);
    InsertIsSubstitution(root, target, added, op, groupId);
    var wrap := Group(groupId, op, [Find(root, target).value, added]);
    LeavesOfSubstitute(root, target, wrap);
    NormalKeepsLeaves(Substitute(root, target, wrap));
    LeavesOfPair(groupId, op, Find(root, target).value, added);
  }

  lemma LeavesOfPair(id: string, op: Combinator, x: Node, y: Node)
    ensures Leaves(Group(id, op, [x, y])) == Leaves(x) + Leaves(y)
  {
    assert [x, y][1..] == [y] && [y][1..] == [];
    assert ListLeaves([y]) == Leaves(y) + ListLeaves([]);
    assert ListLeaves([x, y]) == Leaves(x) + ListLeaves([y]);
  }

  /** And means the tree with the target T read as (T op added). */
  lemma InsertMeans(root: Node, target: string, added: Node, op: Combinator, groupId: string, on: ContactDraft -> bool)
    requires UniqueIds(root) && target in Ids(root) && NoEmptyGroups(root) && NoEmptyGroups(added)
    ensures Find(root, target).Some?
    ensures var r := InsertBeside(Some(root), target, added, op, groupId);
            var t := Find(root, target).value;
            var wrap := Group(groupId, op, [t, added]);
            && r.Some?
            && (Conducts(r.value, on) <==> Conducts(Substitute(root, target, wrap), on))
            && (Conducts(wrap, on) <==> if op.And? then Conducts(t, on) && Conducts(added, on) else Conducts(t, on) || Conducts(added, on))
  {
    InsertIsSubstitution(root, target, added, op, groupId);
    var t := Find(root, target).value;
    var wrap := Group(groupId, op, [t, added]);
    FindNotEmpty(root, target);
    SubstituteNotEmpty(root, target, wrap);
    NormalKeepsTruth(Substitute(root, target, wrap), on);
    assert wrap.children[0] == t && wrap.children[1] == added;
  }

  lemma {:induction false} FindNotEmpty(n: Node, id: string)
    requires NoEmptyGroups(n)
    ensures Find(n, id).Some? ==> NoEmptyGroups(Find(n, id).value)
    decreases n, 0
  {
    if n.Id() != id && n.Group? {
      ListFindNotEmpty(n.children, id);
    }
  }

  lemma {:induction false} ListFindNotEmpty(cs: seq<Node>, id: string)
    requires forall c | c in cs :: NoEmptyGroups(c)
    ensures ListFind(cs, id).Some? ==> NoEmptyGroups(ListFind(cs, id).value)
    decreases cs, 0
  {
    if cs != [] {
      FindNotEmpty(cs[0], id);
      ListFindNotEmpty(cs[1..], id);
    }
  }

  lemma {:induction false} SubstituteNotEmpty(n: Node, id: string, sub: Node)
    requires NoEmptyGroups(n) && NoEmptyGroups(sub)
    ensures NoEmptyGroups(Substitute(n, id, sub))
  {
    if n.Id() != id && n.Group? {
      forall i | 0 <= i < |n.children| ensures NoEmptyGroups(Substitute(n.children[i], id, sub)) {
        SubstituteNotEmpty(n.children[i], id, sub);
      }
    }
  }

  /** `removeNode` drops exactly the removed subtree's contacts, keeping the
      order of the rest; an unknown id only normalises. */
  lemma RemoveKeepsOrder(root: Node, id: string)
    requires UniqueIds(root)
    ensures id in Ids(root) ==>
      && Find(root, id).Some?
      && Leaves(root) == Before(root, id) + Leaves(Find(root, id).value) + After(root, id)
      && TreeLeaves(RemoveNode(Some(root), id)) == Before(root, id) + After(root, id)
    ensures id !in Ids(root) ==> RemoveNode(Some(root), id) == Normal(root)
  {
    OwnId(root);
    if id in Ids(root) {
      LeavesAround(root, id);
      LeavesOfPrune(root, id);
      if root.Id() != id && root.Group? { NormalKeepsLeaves(Prune(root, id).value); }
    } else {
      PruneElsewhere(root, id);
    }
  }

  /** And the result means the tree with that node left unsaid. */
  lemma RemoveMeans(root: Node, id: string, on: ContactDraft -> bool)
    ensures TreeMeaning(RemoveNode(Some(root), id), on) == Meaning(root, on, {id})
  {
    PruneMeans(root, id, on);
    if root.Id() != id && root.Group? {
      NormalKeepsMeaning(Prune(root, id).value, on);
    }
  }

  lemma {:induction false} PruneMeans(n: Node, id: string, on: ContactDraft -> bool)
    ensures TreeMeaning(Prune(n, id), on) == Meaning(n, on, {id})
    decreases n, 0
  {
    if n.Id() != id && n.Group? {
      ListPruneMeans(n.op, n.children, id, on);
    }
  }

  lemma {:induction false} ListPruneMeans(op: Combinator, cs: seq<Node>, id: string, on: ContactDraft -> bool)
    ensures ListMeaning(op, PruneChildren(cs, id), on, {}) == ListMeaning(op, cs, on, {id})
    decreases cs, 0
  {
    if cs != [] {
      PruneMeans(cs[0], id, on);
      ListPruneMeans(op, cs[1..], id, on);
      match Prune(cs[0], id) {
        case None => assert PruneChildren(cs, id) == PruneChildren(cs[1..], id);
        case Some(_) => assert PruneChildren(cs, id)[1..] == PruneChildren(cs[1..], id);
      }
    }
  }

  // ---- Undo ------------------------------------------------------------------

  /** What an insertion makes of an alternating tree, read off its shape: dissolve
      a target that already combines with `op`, join a parent that does, or wrap. */
  function Inserted(n: Node, target: string, added: Node, op: Combinator, groupId: string): Node
    decreases n, 0
  {
    if n.Id() == target then
      Group(groupId, op, (if n.IsGroupOf(op) then n.children else [n]) + [added])
    else if n.Leaf? then n
    else n.(children := InsertedChildren(n.op, n.children, target, added, op, groupId))
  }

  function InsertedChildren(parentOp: Combinator, cs: seq<Node>, target: string, added: Node, op: Combinator, groupId: string): seq<Node>
    decreases cs, 0
  {
    if cs == [] then []
    else if target in Ids(cs[0]) then InsertedAt(parentOp, cs[0], target, added, op, groupId) + cs[1..]
    else [cs[0]] + InsertedChildren(parentOp, cs[1..], target, added, op, groupId)
  }

  /** What the child that holds the target becomes. */
  function InsertedAt(parentOp: Combinator, c: Node, target: string, added: Node, op: Combinator, groupId: string): seq<Node>
    decreases c, 1
  {
    if c.Id() == target && parentOp == op then [c] + [added] else [Inserted(c, target, added, op, groupId)]
  }

  /** The shape a single edit may meet: the added node is normal and won't merge. */
  ghost predicate Insertable(n: Node, target: string, added: Node, op: Combinator) {
    && Alternating(n) && UniqueIds(n) && target in Ids(n)
    && Alternating(added) && !added.IsGroupOf(op)
  }

  lemma NormalPair(groupId: string, op: Combinator, n: Node, added: Node)
    requires Alternating(n) && Alternating(added) && !added.IsGroupOf(op)
    ensures Normal(Group(groupId, op, [n, added]))
         == Some(Group(groupId, op, (if n.IsGroupOf(op) then n.children else [n]) + [added]))
  {
    NormalSingle(op, n);
    NormalSingle(op, added);
    assert [n, added] == [n] + [added];
    NormalChildrenAppend(op, [n], [added]);
  }

  lemma NormalSingle(op: Combinator, n: Node)
    requires Alternating(n)
    ensures NormalChildren(op, [n]) == if n.IsGroupOf(op) then n.children else [n]
  {
    AlternatingIsNormal(n);
    assert [n][1..] == [];
  }

  lemma {:induction false} InsertedIsNormal(n: Node, target: string, added: Node, op: Combinator, groupId: string)
    requires Insertable(n, target, added, op)
    ensures Find(n, target).Some?
    ensures Normal(Substitute(n, target, Group(groupId, op, [Find(n, target).value, added])))
         == Some(Inserted(n, target, added, op, groupId))
    decreases n, 0
  {
    FindFinds(n, target);
    var t := Find(n, target).value;
    var wrap := Group(groupId, op, [t, added]);
    if n.Id() == target {
      NormalPair(groupId, op, n, added);
    } else {
      UniqueChildren(n);
      InsertedChildrenAreNormal(n.op, n.children, target, added, op, groupId);
      InsertedChildrenGrow(n.op, n.children, target, added, op, groupId);
    }
  }

  lemma {:induction false} InsertedChildrenGrow(parentOp: Combinator, cs: seq<Node>, target: string, added: Node, op: Combinator, groupId: string)
    ensures |InsertedChildren(parentOp, cs, target, added, op, groupId)| >= |cs|
  {
    if cs != [] && target !in Ids(cs[0]) {
      InsertedChildrenGrow(parentOp, cs[1..], target, added, op, groupId);
    }
  }

  lemma {:induction false} InsertedChildrenAreNormal(parentOp: Combinator, cs: seq<Node>, target: string, added: Node, op: Combinator, groupId: string)
    requires forall c | c in cs :: Alternating(c) && !c.IsGroupOf(parentOp)
    requires Distinct(ListIds(cs)) && target in ListIds(cs)
    requires Alternating(added) && !added.IsGroupOf(op)
    ensures ListFind(cs, target).Some?
    ensures NormalChildren(parentOp, SubstituteChildren(cs, target, Group(groupId, op, [ListFind(cs, target).value, added])))
         == InsertedChildren(parentOp, cs, target, added, op, groupId)
    decreases cs, 0
  {
    ListFindFinds(cs, target);
    FindFinds(cs[0], target);
    var wrap := Group(groupId, op, [ListFind(cs, target).value, added]);
    assert SubstituteChildren(cs, target, wrap) == [Substitute(cs[0], target, wrap)] + SubstituteChildren(cs[1..], target, wrap);
    NormalChildrenCons(parentOp, Substitute(cs[0], target, wrap), SubstituteChildren(cs[1..], target, wrap));
    if target in Ids(cs[0]) {
      UniqueChild(cs, 0);
      InsertedHead(parentOp, cs[0], target, added, op, groupId);
      NotInTail(cs, target);
      SubstituteListElsewhere(cs[1..], target, wrap);
      AlternatingChildrenAreNormal(parentOp, cs[1..]);
    } else {
      OwnId(cs[0]);
      SubstituteElsewhere(cs[0], target, wrap);
      AlternatingIsNormal(cs[0]);
      DistinctTail(cs);
      InsertedChildrenAreNormal(parentOp, cs[1..], target, added, op, groupId);
    }
  }

  lemma NormalChildrenCons(op: Combinator, head: Node, rest: seq<Node>)
    ensures NormalChildren(op, [head] + rest) == Merged(op, Normal(head)) + NormalChildren(op, rest)
  {
    assert ([head] + rest)[1..] == rest;
  }

  /** The child that holds the target, as its parent receives it. */
  lemma {:induction false} InsertedHead(parentOp: Combinator, c: Node, target: string, added: Node, op: Combinator, groupId: string)
    requires Insertable(c, target, added, op) && !c.IsGroupOf(parentOp)
    ensures Find(c, target).Some?
    ensures Merged(parentOp, Normal(Substitute(c, target, Group(groupId, op, [Find(c, target).value, added]))))
         == InsertedAt(parentOp, c, target, added, op, groupId)
    decreases c, 1
  {
    InsertedIsNormal(c, target, added, op, groupId);
  }

  /** What pruning the added node leaves where the target was. */
  function Restored(t: Node, op: Combinator, groupId: string): Node {
    if t.IsGroupOf(op) then Group(groupId, op, t.children) else t
  }

  lemma {:induction false} PruneInserted(n: Node, target: string, added: Node, op: Combinator, groupId: string)
    requires Insertable(n, target, added, op)
    requires added.Id() !in Ids(n) && added.Id() != groupId
    ensures Find(n, target).Some?
    ensures NormalTree(Prune(Inserted(n, target, added, op, groupId), added.Id()))
         == Some(Substitute(n, target, Restored(Find(n, target).value, op, groupId)))
    decreases n, 0
  {
    FindFinds(n, target);
    OwnId(n);
    var i := added.Id();
    if n.Id() == target {
      var kept := if n.IsGroupOf(op) then n.children else [n];
      AlternatingIsNormal(n);
      PruneElsewhere(n, i);
      PruneKept(kept, added, i);
      AlternatingChildrenAreNormal(op, kept);
    } else {
      UniqueChildren(n);
      PruneInsertedChildren(n.op, n.children, target, added, op, groupId);
    }
  }

  lemma {:induction false} PruneKept(kept: seq<Node>, added: Node, i: string)
    requires i !in ListIds(kept) && added.Id() == i
    ensures PruneChildren(kept + [added], i) == kept
  {
    if kept == [] {
      assert kept + [added] == [added];
    } else {
      assert (kept + [added])[1..] == kept[1..] + [added];
      PruneElsewhere(kept[0], i);
      PruneKept(kept[1..], added, i);
    }
  }

  lemma {:induction false} PruneInsertedChildren(parentOp: Combinator, cs: seq<Node>, target: string, added: Node, op: Combinator, groupId: string)
    requires forall c | c in cs :: Alternating(c) && !c.IsGroupOf(parentOp)
    requires Distinct(ListIds(cs)) && target in ListIds(cs)
    requires Alternating(added) && !added.IsGroupOf(op)
    requires added.Id() !in ListIds(cs) && added.Id() != groupId
    ensures ListFind(cs, target).Some?
    ensures NormalChildren(parentOp, PruneChildren(InsertedChildren(parentOp, cs, target, added, op, groupId), added.Id()))
         == SubstituteChildren(cs, target, Restored(ListFind(cs, target).value, op, groupId))
    decreases cs, 0
  {
    ListFindFinds(cs, target);
    FindFinds(cs[0], target);
    OwnId(cs[0]);
    DistinctTail(cs);
    var i := added.Id();
    var back := Restored(ListFind(cs, target).value, op, groupId);
    PruneElsewhere(cs[0], i);
    PruneListElsewhere(cs[1..], i);
    AlternatingIsNormal(cs[0]);
    if target in Ids(cs[0]) {
      UniqueChild(cs, 0);
      NotInTail(cs, target);
      SubstituteListElsewhere(cs[1..], target, back);
      AlternatingChildrenAreNormal(parentOp, cs[1..]);
      PruneInsertedHead(parentOp, cs[0], cs[1..], target, added, op, groupId);
    } else {
      SubstituteElsewhere(cs[0], target, back);
      PruneInsertedChildren(parentOp, cs[1..], target, added, op, groupId);
      var rest := InsertedChildren(parentOp, cs[1..], target, added, op, groupId);
      assert ([cs[0]] + rest)[1..] == rest;
      PruneChangedHead(parentOp, cs[0], rest, i);
    }
  }

  lemma {:induction false} PruneInsertedHead(parentOp: Combinator, c: Node, rest: seq<Node>, target: string, added: Node, op: Combinator, groupId: string)
    requires Insertable(c, target, added, op) && !c.IsGroupOf(parentOp)
    requires added.Id() !in Ids(c) && added.Id() !in ListIds(rest) && added.Id() != groupId
    requires forall r | r in rest :: Alternating(r) && !r.IsGroupOf(parentOp)
    ensures Find(c, target).Some?
    ensures NormalChildren(parentOp, PruneChildren(InsertedAt(parentOp, c, target, added, op, groupId) + rest, added.Id()))
         == [Substitute(c, target, Restored(Find(c, target).value, op, groupId))] + rest
    decreases c, 1
  {
    var i := added.Id();
    FindFinds(c, target);
    if c.Id() == target && parentOp == op {
      PruneJoined(parentOp, c, added, rest);
      assert ([c] + [added]) + rest == [c] + ([added] + rest);
    } else {
      PruneInserted(c, target, added, op, groupId);
      PruneListElsewhere(rest, i);
      AlternatingChildrenAreNormal(parentOp, rest);
      PruneChangedHead(parentOp, Inserted(c, target, added, op, groupId), rest, i);
      assert Find(c, target).value.IsGroupOf(op) || c.Id() != target || Restored(c, op, groupId) == c;
      SubstituteKeepsOp(c, target, Restored(Find(c, target).value, op, groupId), parentOp);
    }
  }

  lemma PruneJoined(op: Combinator, c: Node, added: Node, rest: seq<Node>)
    requires Alternating(c) && !c.IsGroupOf(op) && added.Id() !in Ids(c) && added.Id() !in ListIds(rest)
    requires forall r | r in rest :: Alternating(r) && !r.IsGroupOf(op)
    ensures NormalChildren(op, PruneChildren([c] + ([added] + rest), added.Id())) == [c] + rest
  {
    hide NormalChildren;
    hide Alternating;
    hide PruneChildren;
    var i := added.Id();
    PruneElsewhere(c, i);
    PruneListElsewhere(rest, i);
    PruneCons(added, rest, i);
    PruneCons(c, [added] + rest, i);
    assert Optional(Some(c)) + ([] + rest) == [c] + rest;
    AlternatingChildrenAreNormal(op, [c] + rest);
  }

  lemma PruneCons(head: Node, rest: seq<Node>, i: string)
    ensures PruneChildren([head] + rest, i) == Optional(Prune(head, i)) + PruneChildren(rest, i)
  {
    assert ([head] + rest)[1..] == rest;
  }

  lemma SubstituteKeepsOp(c: Node, target: string, sub: Node, op: Combinator)
    requires !c.IsGroupOf(op) && (c.Id() == target ==> !sub.IsGroupOf(op))
    ensures !Substitute(c, target, sub).IsGroupOf(op)
  {
  }

  lemma PruneChangedHead(op: Combinator, head: Node, rest: seq<Node>, i: string)
    ensures NormalChildren(op, PruneChildren([head] + rest, i))
         == Merged(op, NormalTree(Prune(head, i))) + NormalChildren(op, PruneChildren(rest, i))
  {
    PruneCons(head, rest, i);
    NormalChildrenAppend(op, Optional(Prune(head, i)), PruneChildren(rest, i));
    if Prune(head, i).Some? {
      assert Optional(Prune(head, i))[1..] == [];
    }
  }

  lemma {:induction false} SubstituteBySelf(n: Node, id: string)
    requires UniqueIds(n) && id in Ids(n)
    ensures Find(n, id).Some? && Substitute(n, id, Find(n, id).value) == n
    decreases n, 0
  {
    FindFinds(n, id);
    if n.Id() != id {
      UniqueChildren(n);
      ListSubstituteBySelf(n.children, id);
    }
  }

  lemma {:induction false} ListSubstituteBySelf(cs: seq<Node>, id: string)
    requires Distinct(ListIds(cs)) && id in ListIds(cs)
    ensures ListFind(cs, id).Some? && SubstituteChildren(cs, id, ListFind(cs, id).value) == cs
    decreases cs, 0
  {
    ListFindFinds(cs, id);
    FindFinds(cs[0], id);
    if id in Ids(cs[0]) {
      UniqueChild(cs, 0);
      SubstituteBySelf(cs[0], id);
      NotInTail(cs, id);
      SubstituteListElsewhere(cs[1..], id, Find(cs[0], id).value);
    } else {
      DistinctTail(cs);
      SubstituteElsewhere(cs[0], id, ListFind(cs, id).value);
      ListSubstituteBySelf(cs[1..], id);
    }
  }

  /** The substitute is really in the tree. */
  lemma {:induction false} SubstituteHoldsIds(n: Node, id: string, sub: Node)
    requires id in Ids(n)
    ensures sub.Id() in Ids(Substitute(n, id, sub))
    decreases n, 0
  {
    OwnId(sub);
    if n.Id() != id {
      var k := SomeChildHolds(n.children, id);
      SubstituteHoldsIds(n.children[k], id, sub);
      ChildIdsInside(SubstituteChildren(n.children, id, sub), k, sub.Id());
    }
  }

  lemma RemoveUndoesPlain(root: Node, target: string, added: Node, op: Combinator, groupId: string)
    requires Insertable(root, target, added, op)
    requires added.Id() !in Ids(root) && groupId !in Ids(root) && added.Id() != groupId
    ensures Find(root, target).Some?
    ensures RemoveNode(InsertBeside(Some(root), target, added, op, groupId), added.Id()) == Some(root)
       <==> !Find(root, target).value.IsGroupOf(op)
  {
    FindFinds(root, target);
    OwnId(root);
    var t := Find(root, target).value;
    InsertIsSubstitution(root, target, added, op, groupId);
    InsertedIsNormal(root, target, added, op, groupId);
    PruneInserted(root, target, added, op, groupId);
    if t.IsGroupOf(op) {
      SubstituteHoldsIds(root, target, Restored(t, op, groupId));
    } else {
      SubstituteBySelf(root, target);
    }
  }

  // ---- Inserting a group of the operator itself -----------------------------------------------

  /** Substitutes that normalise alike make trees that do. */
  lemma {:induction false} SubstituteCongruent(n: Node, id: string, a: Node, b: Node)
    requires Normal(a) == Normal(b)
    ensures Normal(Substitute(n, id, a)) == Normal(Substitute(n, id, b))
    decreases n, 0
  {
    if n.Id() != id && n.Group? {
      SubstituteListCongruent(n.op, n.children, id, a, b);
    }
  }

  lemma {:induction false} SubstituteListCongruent(op: Combinator, cs: seq<Node>, id: string, a: Node, b: Node)
    requires Normal(a) == Normal(b)
    ensures NormalChildren(op, SubstituteChildren(cs, id, a)) == NormalChildren(op, SubstituteChildren(cs, id, b))
    decreases cs, 0
  {
    if cs != [] {
      SubstituteCongruent(cs[0], id, a, b);
      SubstituteListCongruent(op, cs[1..], id, a, b);
      assert SubstituteChildren(cs, id, a)[1..] == SubstituteChildren(cs[1..], id, a);
      assert SubstituteChildren(cs, id, b)[1..] == SubstituteChildren(cs[1..], id, b);
    }
  }

  /** A substitution brings in only the substitute's ids. */
  lemma {:induction false} SubstituteIds(n: Node, id: string, sub: Node, x: string)
    requires x in Ids(Substitute(n, id, sub))
    ensures x in Ids(n) || x in Ids(sub)
    decreases n, 0
  {
    if n.Id() != id && n.Group? && x != n.groupId {
      SubstituteListIds(n.children, id, sub, x);
    }
  }

  lemma {:induction false} SubstituteListIds(cs: seq<Node>, id: string, sub: Node, x: string)
    requires x in ListIds(SubstituteChildren(cs, id, sub))
    ensures x in ListIds(cs) || x in Ids(sub)
    decreases cs, 0
  {
    assert SubstituteChildren(cs, id, sub)[1..] == SubstituteChildren(cs[1..], id, sub);
    if x in Ids(Substitute(cs[0], id, sub)) {
      SubstituteIds(cs[0], id, sub, x);
    } else {
      SubstituteListIds(cs[1..], id, sub, x);
    }
  }

  lemma {:induction false} AlternatingHasLeaf(n: Node)
    requires Alternating(n)
    ensures Leaves(n) != []
    decreases n
  {
    if n.Group? {
      assert n.children[0] in n.children;
      AlternatingHasLeaf(n.children[0]);
    }
  }

  /** The added group dissolves into the pair. */
  lemma PairDissolves(groupId: string, op: Combinator, t: Node, id: string, xs: seq<Node>)
    ensures Normal(Group(groupId, op, [t, Group(id, op, xs)])) == Normal(Group(groupId, op, [t] + xs))
  {
    var added := Group(id, op, xs);
    NestedGroupDissolves(op, id, xs);
    NormalChildrenAppend(op, [t], [added]);
    NormalChildrenAppend(op, [t], xs);
    assert [added][1..] == [];
    assert NormalChildren(op, [added]) == Merged(op, Normal(added)) + NormalChildren(op, []) == NormalChildren(op, xs);
    assert [t, added] == [t] + [added];
    NormalGroupCongruent(groupId, op, [t, added], [t] + xs);
  }

  lemma FlatLacksId(root: Node, target: string, op: Combinator, groupId: string, xs: seq<Node>, i: string)
    requires Find(root, target).Some? && i !in Ids(root) && i != groupId && i !in ListIds(xs)
    ensures i !in Ids(Substitute(root, target, Group(groupId, op, [Find(root, target).value] + xs)))
  {
    var t := Find(root, target).value;
    FindFinds(root, target);
    assert i in Ids(t) ==> i in multiset(Ids(t)) && i in multiset(Ids(root));
    assert ([t] + xs)[1..] == xs;
    assert Ids(Group(groupId, op, [t] + xs)) == [groupId] + (Ids(t) + ListIds(xs));
    if i in Ids(Substitute(root, target, Group(groupId, op, [t] + xs))) {
      SubstituteIds(root, target, Group(groupId, op, [t] + xs), i);
    }
  }

  /** Its id is nowhere after the insertion. */
  lemma AddedGroupIsGone(root: Node, target: string, added: Node, op: Combinator, groupId: string)
    requires UniqueIds(root) && target in Ids(root) && added.IsGroupOf(op)
    requires added.Id() !in Ids(root) && added.Id() != groupId && added.Id() !in ListIds(added.children)
    ensures InsertBeside(Some(root), target, added, op, groupId).Some? ==>
      added.Id() !in Ids(InsertBeside(Some(root), target, added, op, groupId).value)
  {
    hide InsertBeside, Normal, Ids, Substitute;
    InsertIsSubstitution(root, target, added, op, groupId);
    var t := Find(root, target).value;
    var flat := Group(groupId, op, [t] + added.children);
    PairDissolves(groupId, op, t, added.groupId, added.children);
    SubstituteCongruent(root, target, Group(groupId, op, [t, added]), flat);
    var r := Substitute(root, target, flat);
    FlatLacksId(root, target, op, groupId, added.children, added.Id());
    NormalAddsNoIds(r);
    assert added.Id() !in multiset(Ids(r));
    if Normal(r).Some? {
      assert added.Id() !in multiset(Ids(Normal(r).value));
    }
  }

  /** So nothing is removed: its contacts stay. */
  lemma AddedGroupStays(root: Node, target: string, added: Node, op: Combinator, groupId: string)
    requires UniqueIds(root) && target in Ids(root) && Alternating(added) && added.IsGroupOf(op)
    requires added.Id() !in Ids(root) && added.Id() != groupId && added.Id() !in ListIds(added.children)
    ensures RemoveNode(InsertBeside(Some(root), target, added, op, groupId), added.Id()) != Some(root)
  {
    var i := added.Id();
    InsertKeepsOrder(root, target, added, op, groupId);
    AlternatingHasLeaf(added);
    AddedGroupIsGone(root, target, added, op, groupId);
    var r := InsertBeside(Some(root), target, added, op, groupId);
    if r.Some? {
      OwnId(r.value);
      PruneElsewhere(r.value, i);
      NormalKeepsLeaves(r.value);
    }
    assert |TreeLeaves(r)| > |Leaves(root)|;
  }

  /** Removing what was just inserted gives back the very same tree if and only if
      neither the target nor the added node is a group of that operator. Such a target
      dissolves into a group with a new id, so the old id is gone for good; such an
      added group dissolves too, and there is nothing by its id to remove. */
  lemma RemoveUndoesInsert(root: Node, target: string, added: Node, op: Combinator, groupId: string)
    requires Alternating(root) && UniqueIds(root) && target in Ids(root) && Alternating(added)
    requires added.Id() !in Ids(root) && groupId !in Ids(root) && added.Id() != groupId
    requires added.IsGroupOf(op) ==> added.Id() !in ListIds(added.children)
    ensures Find(root, target).Some?
    ensures RemoveNode(InsertBeside(Some(root), target, added, op, groupId), added.Id()) == Some(root)
       <==> !Find(root, target).value.IsGroupOf(op) && !added.IsGroupOf(op)
  {
    FindFinds(root, target);
    if added.IsGroupOf(op) {
      AddedGroupStays(root, target, added, op, groupId);
    } else {
      RemoveUndoesPlain(root, target, added, op, groupId);
    }
  }

  /** And so it goes for a group of two contacts, whatever they are. */
  lemma InsertedGroupIsLost(a: ContactDraft, b: ContactDraft, added: ContactDraft, op: Combinator, id: string, groupId: string)
    requires Distinct([id, a.id, b.id, added.id, groupId])
    ensures var root := Group(id, op, [Leaf(a), Leaf(b)]);
      RemoveNode(InsertBeside(Some(root), id, Leaf(added), op, groupId), added.id) != Some(root)
  {
    var root := Group(id, op, [Leaf(a), Leaf(b)]);
    var all := [id, a.id, b.id, added.id, groupId];
    assert all[0] == id && all[1] == a.id && all[2] == b.id && all[3] == added.id && all[4] == groupId;
    assert [Leaf(a), Leaf(b)][1..] == [Leaf(b)] && [Leaf(b)][1..] == [];
    assert ListIds([Leaf(b)]) == Ids(Leaf(b)) + ListIds([]) == [b.id];
    assert ListIds([Leaf(a), Leaf(b)]) == Ids(Leaf(a)) + ListIds([Leaf(b)]) == [a.id, b.id];
    assert Ids(root) == [id, a.id, b.id];
    forall c | c in root.children ensures Alternating(c) && !c.IsGroupOf(op) {
      assert c == Leaf(a) || c == Leaf(b);
    }
    assert Alternating(root);
    RemoveUndoesInsert(root, id, Leaf(added), op, groupId);
  }
}
