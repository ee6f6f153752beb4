/** The drawing as a circuit. Current runs along wires and through closed contact
    cells; the theorem is that it gets from the left rail to the right rail
    exactly when the AND/OR tree is true (frontend/src/lib/ladder-layout.ts:5-13). */
module LadderCircuit {
  import opened Wrappers
  import opened ConditionTree
  import opened LadderLayout

  datatype Point = Point(x: int, y: int)

  predicate OnWire(w: Wire, p: Point) {
    w.x1 <= p.x <= w.x2 && w.y1 <= p.y <= w.y2
  }

  predicate AcrossCell(c: Cell, p: Point, q: Point) {
    && (p == Point(c.x, c.y) || p == Point(c.x + 1, c.y))
    && (q == Point(c.x, c.y) || q == Point(c.x + 1, c.y))
  }

  /** Current passes directly between p and q: every grid point a wire touches is
      one conductor, and a closed contact joins the two sides of its cell. */
  ghost predicate Linked(s: Sketch, closed: set<string>, p: Point, q: Point) {
    || (exists c | c in s.contacts :: c.id in closed && AcrossCell(c, p, q))
    || (exists w | w in s.wires :: OnWire(w, p) && OnWire(w, q))
  }

  ghost predicate IsPath(s: Sketch, closed: set<string>, ps: seq<Point>) {
    ps != [] && forall i | 0 <= i < |ps| - 1 :: Linked(s, closed, ps[i], ps[i + 1])
  }

  ghost predicate PathBetween(s: Sketch, closed: set<string>, ps: seq<Point>, a: Point, b: Point) {
    IsPath(s, closed, ps) && ps[0] == a && ps[|ps| - 1] == b
  }

  ghost predicate Connected(s: Sketch, closed: set<string>, a: Point, b: Point) {
    exists ps :: PathBetween(s, closed, ps, a, b)
  }

  function ClosedIn(closed: set<string>): ContactDraft -> bool {
    (c: ContactDraft) => c.id in closed
  }

  // ---- A true tree has a live path --------------------------------------------

  ghost predicate Within(s: Sketch, t: Sketch) {
    (forall c | c in s.contacts :: c in t.contacts) && (forall w | w in s.wires :: w in t.wires)
  }

  lemma PathInLarger(s: Sketch, t: Sketch, closed: set<string>, ps: seq<Point>)
    requires Within(s, t) && IsPath(s, closed, ps)
    ensures IsPath(t, closed, ps)
  {
    forall i | 0 <= i < |ps| - 1 ensures Linked(t, closed, ps[i], ps[i + 1]) {
      assert Linked(s, closed, ps[i], ps[i + 1]);
    }
  }

  lemma JoinPaths(s: Sketch, closed: set<string>, a: seq<Point>, b: seq<Point>)
    requires IsPath(s, closed, a) && IsPath(s, closed, b) && Linked(s, closed, a[|a| - 1], b[0])
    ensures IsPath(s, closed, a + b)
  {
    forall i | 0 <= i < |a + b| - 1 ensures Linked(s, closed, (a + b)[i], (a + b)[i + 1]) {
      if i < |a| - 1 {
        assert Linked(s, closed, a[i], a[i + 1]);
      } else if i >= |a| {
        assert Linked(s, closed, b[i - |a|], b[i - |a| + 1]);
      }
    }
  }

  /** Two paths that meet in one point. */
  lemma ChainPaths(s: Sketch, closed: set<string>, a: seq<Point>, b: seq<Point>)
    requires IsPath(s, closed, a) && IsPath(s, closed, b) && a[|a| - 1] == b[0]
    ensures IsPath(s, closed, a + b[1..])
  {
    var c := a + b[1..];
    forall i | 0 <= i < |c| - 1 ensures Linked(s, closed, c[i], c[i + 1]) {
      if i < |a| - 1 {
        assert Linked(s, closed, a[i], a[i + 1]);
      } else {
        assert Linked(s, closed, b[i - |a| + 1], b[i - |a| + 2]);
      }
    }
  }

  lemma {:induction false} LivePath(n: Node, x: int, y: int, closed: set<string>) returns (ps: seq<Point>)
    requires NoEmptyGroups(n) && Conducts(n, ClosedIn(closed))
    ensures PathBetween(Draw(n, x, y), closed, ps, Point(x, y), Point(x + Width(n), y))
    decreases n, 0
  {
    match n
    case Leaf(c) =>
      ps := [Point(x, y), Point(x + 1, y)];
      assert Cell(c.id, x, y) in Draw(n, x, y).contacts;
    case Group(id, And, cs) =>
      ps := SeriesPath(cs, x, y, closed);
      PathInLarger(Series(cs, x, y), Draw(n, x, y), closed, ps);
    case Group(id, Or, cs) =>
      var k :| 0 <= k < |cs| && Conducts(cs[k], ClosedIn(closed));
      ps := BranchPath(n, k, x, y, closed);
  }

  lemma {:induction false} SeriesPath(cs: seq<Node>, x: int, y: int, closed: set<string>) returns (ps: seq<Point>)
    requires forall c | c in cs :: NoEmptyGroups(c) && Conducts(c, ClosedIn(closed))
    ensures PathBetween(Series(cs, x, y), closed, ps, Point(x, y), Point(x + SumWidth(cs), y))
    decreases cs, 0
  {
    if cs == [] {
      ps := [Point(x, y)];
    } else {
      var head := LivePath(cs[0], x, y, closed);
      var tail := SeriesPath(cs[1..], x + Width(cs[0]), y, closed);
      PathInLarger(Draw(cs[0], x, y), Series(cs, x, y), closed, head);
      PathInLarger(Series(cs[1..], x + Width(cs[0]), y), Series(cs, x, y), closed, tail);
      ChainPaths(Series(cs, x, y), closed, head, tail);
      ps := head + tail[1..];
    }
  }

  /** Where branch k's row starts, and that its sketch and filler are drawn. */
  lemma {:induction false} BranchWithin(cs: seq<Node>, k: nat, x: int, y: int)
    requires k < |cs|
    ensures Within(Draw(cs[k], x, y + SumHeight(cs[..k])), Parallel(cs, x, y))
  {
    hide Draw, Height;
    if k > 0 {
      BranchWithin(cs[1..], k - 1, x, y + Height(cs[0]));
      assert cs[..k][1..] == cs[1..][..k - 1];
    }
  }

  lemma {:induction false} BranchFiller(cs: seq<Node>, k: nat, x: int, y: int, width: int)
    requires k < |cs|
    ensures Width(cs[k]) < width ==>
      Wire(x + Width(cs[k]), y + SumHeight(cs[..k]), x + width, y + SumHeight(cs[..k])) in Fillers(cs, x, y, width)
    ensures MaxWidth(cs) >= Width(cs[k])
  {
    hide Width, Height;
    if k > 0 {
      BranchFiller(cs[1..], k - 1, x, y + Height(cs[0]), width);
      assert cs[..k][1..] == cs[1..][..k - 1];
    }
  }

  lemma {:induction false} BranchRow(cs: seq<Node>, k: nat, y: int)
    requires k < |cs| && forall c | c in cs :: NoEmptyGroups(c)
    ensures y <= y + SumHeight(cs[..k]) <= LastRow(cs, y)
  {
    hide Height;
    if k > 0 {
      SizesPositive(cs[0]);
      forall c | c in cs[1..] ensures c in cs {}
      BranchRow(cs[1..], k - 1, y + Height(cs[0]));
      assert cs[..k][1..] == cs[1..][..k - 1];
    } else {
      LastRowIs(cs, y);
      SizesPositiveList(cs[..|cs| - 1]);
    }
  }

  lemma BranchDrawn(cs: seq<Node>, k: nat, x: int, y: int, width: int)
    requires k < |cs|
    ensures Within(Draw(cs[k], x, y + SumHeight(cs[..k])), Parallel(cs, x, y))
    ensures Width(cs[k]) < width ==>
      Wire(x + Width(cs[k]), y + SumHeight(cs[..k]), x + width, y + SumHeight(cs[..k])) in Fillers(cs, x, y, width)
    ensures MaxWidth(cs) >= Width(cs[k])
    ensures (forall c | c in cs :: NoEmptyGroups(c)) ==> y <= y + SumHeight(cs[..k]) <= LastRow(cs, y)
  {
    hide *;
    BranchWithin(cs, k, x, y);
    BranchFiller(cs, k, x, y, width);
    if forall c | c in cs :: NoEmptyGroups(c) {
      BranchRow(cs, k, y);
    }
  }

  /** The parts of a parallel block's drawing. */
  lemma DrawOr(n: Node, x: int, y: int)
    requires n.Group? && n.op.Or?
    ensures var cs, w, h := n.children, Width(n), Height(n);
      && w == MaxWidth(cs) && h == SumHeight(cs)
      && Draw(n, x, y) == Parallel(cs, x, y).Plus(Sketch([], [], Fillers(cs, x, y, w))).Plus(Sketch([], [Block(n.groupId, Or, x, y, w, h)], Buses(cs, x, y, w)))
  {
    hide Parallel, Fillers, Buses, MaxWidth, SumHeight;
  }

  /** Branch k's sketch and its filler are in the block. */
  lemma BranchInBlock(n: Node, k: nat, x: int, y: int)
    requires n.Group? && n.op.Or? && k < |n.children|
    ensures var cs, w, s, row := n.children, Width(n), Draw(n, x, y), y + SumHeight(n.children[..k]);
      && Within(Draw(cs[k], x, row), s) && Width(cs[k]) <= w
      && (Width(cs[k]) < w ==> Wire(x + Width(cs[k]), row, x + w, row) in s.wires)
  {
    hide *;
    DrawOr(n, x, y);
    var cs, w, row := n.children, Width(n), y + SumHeight(n.children[..k]);
    BranchWithin(cs, k, x, y);
    BranchFiller(cs, k, x, y, w);
    var wiring := Sketch([], [], Fillers(cs, x, y, w));
    var frame := Sketch([], [Block(n.groupId, Or, x, y, w, Height(n))], Buses(cs, x, y, w));
    WithinMore(Draw(cs[k], x, row), Parallel(cs, x, y), wiring, frame);
    if Width(cs[k]) < w {
      WireInMore(Wire(x + Width(cs[k]), row, x + w, row), Parallel(cs, x, y), wiring, frame);
    }
  }

  lemma WithinMore(a: Sketch, s: Sketch, t: Sketch, u: Sketch)
    requires Within(a, s)
    ensures Within(a, s.Plus(t).Plus(u))
  {
  }

  lemma WireInMore(w: Wire, s: Sketch, t: Sketch, u: Sketch)
    requires w in t.wires
    ensures w in s.Plus(t).Plus(u).wires
  {
  }

  /** The block's buses. */
  lemma BusesInBlock(n: Node, x: int, y: int)
    requires n.Group? && n.op.Or?
    ensures forall w | w in Buses(n.children, x, y, Width(n)) :: w in Draw(n, x, y).wires
  {
    DrawOr(n, x, y);
    hide Draw, Parallel, Fillers, Buses, MaxWidth, SumHeight, Width, Height;
  }

  /** Branch k's row meets both. */
  lemma BranchOnBuses(n: Node, k: nat, x: int, y: int)
    requires n.Group? && n.op.Or? && NoEmptyGroups(n) && k < |n.children|
    ensures var w, row := Width(n), y + SumHeight(n.children[..k]);
      var left, right := Buses(n.children, x, y, w)[0], Buses(n.children, x, y, w)[1];
      && OnWire(left, Point(x, y)) && OnWire(left, Point(x, row)) && OnWire(right, Point(x + w, y)) && OnWire(right, Point(x + w, row))
  {
    BranchRow(n.children, k, y);
    hide SumHeight, Width, Height, LastRow, NoEmptyGroups;
  }

  lemma {:induction false} BranchPath(n: Node, k: nat, x: int, y: int, closed: set<string>) returns (ps: seq<Point>)
    requires n.Group? && n.op.Or? && NoEmptyGroups(n) && k < |n.children| && Conducts(n.children[k], ClosedIn(closed))
    ensures PathBetween(Draw(n, x, y), closed, ps, Point(x, y), Point(x + Width(n), y))
    decreases n.children, 1
  {
    var cs := n.children;
    var s, w := Draw(n, x, y), Width(n);
    var row := y + SumHeight(cs[..k]);
    assert NoEmptyGroups(cs[k]);
    hide Draw, Width, SumHeight, IsPath, LastRow, Conducts, NoEmptyGroups, Within;
    BranchInBlock(n, k, x, y);
    var inner := LivePath(cs[k], x, row, closed);
    PathInLarger(Draw(cs[k], x, row), s, closed, inner);
    ps := BetweenBuses(n, k, x, y, closed, inner);
  }

  /** A path along branch k, from bus to bus. */
  lemma BetweenBuses(n: Node, k: nat, x: int, y: int, closed: set<string>, inner: seq<Point>) returns (ps: seq<Point>)
    requires n.Group? && n.op.Or? && NoEmptyGroups(n) && k < |n.children|
    requires var row := y + SumHeight(n.children[..k]);
      PathBetween(Draw(n, x, y), closed, inner, Point(x, row), Point(x + Width(n.children[k]), row))
    ensures PathBetween(Draw(n, x, y), closed, ps, Point(x, y), Point(x + Width(n), y))
  {
    hide Draw, Width, Height, LastRow, SumHeight, NoEmptyGroups, Within, PathBetween, OnWire;
    var cs := n.children;
    var s, w := Draw(n, x, y), Width(n);
    var left, right := Buses(cs, x, y, w)[0], Buses(cs, x, y, w)[1];
    BusesInBlock(n, x, y);
    BranchOnBuses(n, k, x, y);
    BranchInBlock(n, k, x, y);
    assert left in s.wires && right in s.wires;
    ps := AcrossBlock(s, closed, inner, left, right, x, y, y + SumHeight(cs[..k]), Width(cs[k]), w);
  }

  /** Down the left wire, along the row, its filler if there is one, up the right wire. */
  lemma AcrossBlock(s: Sketch, closed: set<string>, inner: seq<Point>, left: Wire, right: Wire, x: int, y: int, row: int, width: int, w: int)
    returns (ps: seq<Point>)
    requires PathBetween(s, closed, inner, Point(x, row), Point(x + width, row)) && width <= w
    requires left in s.wires && OnWire(left, Point(x, y)) && OnWire(left, Point(x, row))
    requires right in s.wires && OnWire(right, Point(x + w, y)) && OnWire(right, Point(x + w, row))
    requires width < w ==> Wire(x + width, row, x + w, row) in s.wires
    ensures PathBetween(s, closed, ps, Point(x, y), Point(x + w, y))
  {
    hide IsPath;
    ps := AlongWire(s, closed, inner, left, Point(x, y), true);
    if width < w {
      ps := AlongWire(s, closed, ps, Wire(x + width, row, x + w, row), Point(x + w, row), false);
    }
    ps := AlongWire(s, closed, ps, right, Point(x + w, y), false);
  }

  /** A path one wire longer at its start or its end. */
  lemma AlongWire(s: Sketch, closed: set<string>, ps: seq<Point>, w: Wire, p: Point, atStart: bool) returns (longer: seq<Point>)
    requires IsPath(s, closed, ps) && w in s.wires && OnWire(w, p)
    requires OnWire(w, if atStart then ps[0] else ps[|ps| - 1])
    ensures IsPath(s, closed, longer)
    ensures longer[0] == if atStart then p else ps[0]
    ensures longer[|longer| - 1] == if atStart then ps[|ps| - 1] else p
  {
    if atStart {
      assert Linked(s, closed, p, ps[0]);
      JoinPaths(s, closed, [p], ps);
      longer := [p] + ps;
    } else {
      assert Linked(s, closed, ps[|ps| - 1], p);
      JoinPaths(s, closed, ps, [p]);
      longer := ps + [p];
    }
  }

  // ---- A false tree splits into a live and a dead side -------------------------

  /** Whether a point is on the live side of a false block: everything up to the
      block's left edge is, nothing from its right edge on is; inside, a series is
      cut in its first false block and a parallel in every branch. */
  ghost predicate Live(n: Node, x: int, y: int, closed: set<string>, p: Point)
    decreases n, 0
  {
    match n
    case Leaf(_) => p.x <= x
    case Group(_, And, cs) => SeriesLive(cs, x, y, closed, p)
    case Group(_, Or, cs) => ParallelLive(cs, x, y, closed, p)
  }

  ghost predicate SeriesLive(cs: seq<Node>, x: int, y: int, closed: set<string>, p: Point)
    decreases cs, 0
  {
    if cs == [] then p.x <= x
    else if Conducts(cs[0], ClosedIn(closed)) then SeriesLive(cs[1..], x + Width(cs[0]), y, closed, p)
    else Live(cs[0], x, y, closed, p)
  }

  ghost predicate ParallelLive(cs: seq<Node>, x: int, y: int, closed: set<string>, p: Point)
    decreases cs, 0
  {
    if cs == [] then p.x <= x
    else if p.y < y + Height(cs[0]) then Live(cs[0], x, y, closed, p)
    else ParallelLive(cs[1..], x, y + Height(cs[0]), closed, p)
  }

  lemma {:induction false} LiveEdges(n: Node, x: int, y: int, closed: set<string>, p: Point)
    requires NoEmptyGroups(n) && !Conducts(n, ClosedIn(closed))
    ensures p.x <= x ==> Live(n, x, y, closed, p)
    ensures p.x >= x + Width(n) ==> !Live(n, x, y, closed, p)
    decreases n, 0
  {
    match n
    case Leaf(_) =>
    case Group(_, And, cs) => SeriesLiveEdges(cs, x, y, closed, p);
    case Group(_, Or, cs) => ParallelLiveEdges(cs, x, y, closed, p);
  }

  lemma {:induction false} SeriesLiveEdges(cs: seq<Node>, x: int, y: int, closed: set<string>, p: Point)
    requires forall c | c in cs :: NoEmptyGroups(c)
    requires exists c | c in cs :: !Conducts(c, ClosedIn(closed))
    ensures p.x <= x ==> SeriesLive(cs, x, y, closed, p)
    ensures p.x >= x + SumWidth(cs) ==> !SeriesLive(cs, x, y, closed, p)
    decreases cs, 0
  {
    SizesPositive(cs[0]);
    SizesPositiveList(cs[1..]);
    if Conducts(cs[0], ClosedIn(closed)) {
      SeriesLiveEdges(cs[1..], x + Width(cs[0]), y, closed, p);
    } else {
      LiveEdges(cs[0], x, y, closed, p);
    }
  }

  lemma {:induction false} ParallelLiveEdges(cs: seq<Node>, x: int, y: int, closed: set<string>, p: Point)
    requires cs != [] && forall c | c in cs :: NoEmptyGroups(c) && !Conducts(c, ClosedIn(closed))
    ensures p.x <= x ==> ParallelLive(cs, x, y, closed, p)
    ensures p.x >= x + MaxWidth(cs) ==> !ParallelLive(cs, x, y, closed, p)
    decreases cs, 0
  {
    SizesPositive(cs[0]);
    LiveEdges(cs[0], x, y, closed, p);
    if |cs| > 1 {
      ParallelLiveEdges(cs[1..], x, y + Height(cs[0]), closed, p);
    }
  }

  // ---- The split is respected by everything drawn ------------------------------

  ghost predicate CellInBox(c: Cell, x1: int, y1: int, x2: int, y2: int) {
    x1 <= c.x < x2 && y1 <= c.y < y2
  }

  ghost predicate WireInBox(w: Wire, x1: int, y1: int, x2: int, y2: int) {
    x1 <= w.x1 <= w.x2 <= x2 && y1 <= w.y1 <= w.y2 < y2
  }

  /** Columns x1..x2 and rows y1 up to y2. */
  ghost predicate InBox(s: Sketch, x1: int, y1: int, x2: int, y2: int) {
    && (forall c | c in s.contacts :: CellInBox(c, x1, y1, x2, y2))
    && (forall w | w in s.wires :: WireInBox(w, x1, y1, x2, y2))
  }

  /** Every block stays inside its own width and height. */
  lemma {:induction false} DrawnInBox(n: Node, x: int, y: int)
    requires NoEmptyGroups(n)
    ensures InBox(Draw(n, x, y), x, y, x + Width(n), y + Height(n))
    decreases n, 0
  {
    hide InBox, Draw;
    match n
    case Leaf(_) => LeafInBox(n, x, y);
    case Group(_, And, cs) =>
      SeriesInBox(cs, x, y);
      AndInBox(n, x, y);
    case Group(_, Or, cs) =>
      ParallelInBox(cs, x, y);
      OrInBox(n, x, y);
  }

  lemma LeafInBox(n: Node, x: int, y: int)
    requires n.Leaf?
    ensures InBox(Draw(n, x, y), x, y, x + Width(n), y + Height(n))
  {
  }

  lemma AndInBox(n: Node, x: int, y: int)
    requires n.Group? && n.op.And?
    requires InBox(Series(n.children, x, y), x, y, x + SumWidth(n.children), y + MaxHeight(n.children))
    ensures InBox(Draw(n, x, y), x, y, x + Width(n), y + Height(n))
  {
    hide Series, SumWidth, MaxHeight;
  }

  /** A parallel block's wires on top of its branches. */
  lemma OrInBox(n: Node, x: int, y: int)
    requires n.Group? && n.op.Or? && NoEmptyGroups(n)
    requires InBox(Parallel(n.children, x, y), x, y, x + MaxWidth(n.children), y + SumHeight(n.children))
    ensures InBox(Draw(n, x, y), x, y, x + Width(n), y + Height(n))
  {
    hide *;
    var cs, width := n.children, MaxWidth(n.children);
    var wiring := Sketch([], [], Fillers(cs, x, y, width));
    var frame := Sketch([], [Block(n.groupId, Or, x, y, Width(n), Height(n))], Buses(cs, x, y, width));
    WiresInBox(n, x, y);
    DrawOr(n, x, y);
    InBoxPlus(Parallel(cs, x, y), wiring, x, y, x + width, y + SumHeight(cs));
    InBoxPlus(Parallel(cs, x, y).Plus(wiring), frame, x, y, x + width, y + SumHeight(cs));
  }

  lemma WiresInBox(n: Node, x: int, y: int)
    requires n.Group? && n.op.Or? && NoEmptyGroups(n)
    ensures var cs, width := n.children, MaxWidth(n.children);
      && InBox(Sketch([], [], Fillers(cs, x, y, width)), x, y, x + width, y + SumHeight(cs))
      && InBox(Sketch([], [Block(n.groupId, Or, x, y, Width(n), Height(n))], Buses(cs, x, y, width)), x, y, x + width, y + SumHeight(cs))
  {
    hide Fillers, MaxWidth, SumHeight;
    FillersInBox(n.children, x, y, MaxWidth(n.children));
    LastRowInBox(n.children, y);
    SizesPositiveList(n.children);
  }

  lemma NothingInBox(x1: int, y1: int, x2: int, y2: int)
    ensures InBox(Blank, x1, y1, x2, y2)
  {
  }

  lemma InBoxPlus(s: Sketch, t: Sketch, x1: int, y1: int, x2: int, y2: int)
    requires InBox(s, x1, y1, x2, y2) && InBox(t, x1, y1, x2, y2)
    ensures InBox(s.Plus(t), x1, y1, x2, y2)
  {
  }

  lemma InLargerBox(s: Sketch, x1: int, y1: int, x2: int, y2: int, x3: int, y3: int, x4: int, y4: int)
    requires InBox(s, x1, y1, x2, y2)
    requires x3 <= x1 && x2 <= x4 && y3 <= y1 && y2 <= y4
    ensures InBox(s, x3, y3, x4, y4)
  {
    forall c | c in s.contacts ensures CellInBox(c, x3, y3, x4, y4) {
      assert CellInBox(c, x1, y1, x2, y2);
    }
    forall w | w in s.wires ensures WireInBox(w, x3, y3, x4, y4) {
      assert WireInBox(w, x1, y1, x2, y2);
    }
  }

  lemma {:induction false} SeriesInBox(cs: seq<Node>, x: int, y: int)
    requires forall c | c in cs :: NoEmptyGroups(c)
    ensures InBox(Series(cs, x, y), x, y, x + SumWidth(cs), y + MaxHeight(cs))
    decreases cs, 0
  {
    hide Draw, Width, Height, InBox;
    if cs == [] {
      NothingInBox(x, y, x, y);
    } else {
      SizesPositive(cs[0]);
      SizesPositiveList(cs[1..]);
      DrawnInBox(cs[0], x, y);
      var right, x4, y4 := x + Width(cs[0]), x + SumWidth(cs), y + MaxHeight(cs);
      SeriesInBox(cs[1..], right, y);
      InLargerBox(Draw(cs[0], x, y), x, y, right, y + Height(cs[0]), x, y, x4, y4);
      InLargerBox(Series(cs[1..], right, y), right, y, right + SumWidth(cs[1..]), y + MaxHeight(cs[1..]), x, y, x4, y4);
      InBoxPlus(Draw(cs[0], x, y), Series(cs[1..], right, y), x, y, x4, y4);
    }
  }

  lemma {:induction false} ParallelInBox(cs: seq<Node>, x: int, y: int)
    requires forall c | c in cs :: NoEmptyGroups(c)
    ensures InBox(Parallel(cs, x, y), x, y, x + MaxWidth(cs), y + SumHeight(cs))
    decreases cs, 0
  {
    hide Draw, Width, Height, InBox;
    if cs == [] {
      NothingInBox(x, y, x, y);
    } else {
      SizesPositive(cs[0]);
      SizesPositiveList(cs[1..]);
      DrawnInBox(cs[0], x, y);
      var below, x4, y4 := y + Height(cs[0]), x + MaxWidth(cs), y + SumHeight(cs);
      ParallelInBox(cs[1..], x, below);
      InLargerBox(Draw(cs[0], x, y), x, y, x + Width(cs[0]), below, x, y, x4, y4);
      InLargerBox(Parallel(cs[1..], x, below), x, below, x + MaxWidth(cs[1..]), below + SumHeight(cs[1..]), x, y, x4, y4);
      InBoxPlus(Draw(cs[0], x, y), Parallel(cs[1..], x, below), x, y, x4, y4);
    }
  }

  lemma {:induction false} FillersInBox(cs: seq<Node>, x: int, y: int, width: int)
    requires forall c | c in cs :: NoEmptyGroups(c)
    ensures forall w | w in Fillers(cs, x, y, width) :: WireInBox(w, x, y, x + width, y + SumHeight(cs))
  {
    if cs != [] {
      SizesPositive(cs[0]);
      SizesPositiveList(cs[1..]);
      FillersInBox(cs[1..], x, y + Height(cs[0]), width);
    }
  }

  lemma LastRowInBox(cs: seq<Node>, y: int)
    requires cs != [] && forall c | c in cs :: NoEmptyGroups(c)
    ensures y <= LastRow(cs, y) < y + SumHeight(cs)
  {
    LastRowIs(cs, y);
    SizesGrow(cs, |cs| - 1);
    SizesPositiveList(cs[..|cs| - 1]);
    SizesPositive(cs[|cs| - 1]);
    assert cs[..|cs| - 1 + 1] == cs;
  }

  ghost predicate CellRespects(c: Cell, closed: set<string>, live: Point -> bool) {
    c.id in closed ==> live(Point(c.x, c.y)) == live(Point(c.x + 1, c.y))
  }

  ghost predicate WireRespects(w: Wire, live: Point -> bool) {
    forall p, q :: OnWire(w, p) && OnWire(w, q) ==> live(p) == live(q)
  }

  /** Nothing drawn joins the live side to the dead one. */
  ghost predicate Respects(s: Sketch, closed: set<string>, live: Point -> bool) {
    && (forall c | c in s.contacts :: CellRespects(c, closed, live))
    && (forall w | w in s.wires :: WireRespects(w, live))
  }

  /** Only the split inside a sketch's box matters to it. */
  lemma RespectsInBox(s: Sketch, closed: set<string>, a: Point -> bool, b: Point -> bool, x1: int, y1: int, x2: int, y2: int)
    requires InBox(s, x1, y1, x2, y2) && Respects(s, closed, a)
    requires forall p: Point :: x1 <= p.x <= x2 && y1 <= p.y < y2 ==> a(p) == b(p)
    ensures Respects(s, closed, b)
  {
    forall w | w in s.wires ensures WireRespects(w, b) {
      assert WireInBox(w, x1, y1, x2, y2) && WireRespects(w, a);
      forall p, q | OnWire(w, p) && OnWire(w, q) ensures b(p) == b(q) {
        assert a(p) == a(q);
      }
    }
    forall c | c in s.contacts ensures CellRespects(c, closed, b) {
      assert CellInBox(c, x1, y1, x2, y2) && CellRespects(c, closed, a);
    }
  }

  /** A sketch wholly on one side. */
  lemma RespectsOneSide(s: Sketch, closed: set<string>, live: Point -> bool, x1: int, y1: int, x2: int, y2: int, side: bool)
    requires InBox(s, x1, y1, x2, y2)
    requires forall p: Point :: x1 <= p.x <= x2 && y1 <= p.y < y2 ==> live(p) == side
    ensures Respects(s, closed, live)
  {
    RespectsInBox(s, closed, (p: Point) => side, live, x1, y1, x2, y2);
  }

  ghost function LiveSide(n: Node, x: int, y: int, closed: set<string>): Point -> bool {
    (p: Point) => Live(n, x, y, closed, p)
  }

  ghost function SeriesLiveSide(cs: seq<Node>, x: int, y: int, closed: set<string>): Point -> bool {
    (p: Point) => SeriesLive(cs, x, y, closed, p)
  }

  ghost function ParallelLiveSide(cs: seq<Node>, x: int, y: int, closed: set<string>): Point -> bool {
    (p: Point) => ParallelLive(cs, x, y, closed, p)
  }

  lemma {:induction false} DrawnRespects(n: Node, x: int, y: int, closed: set<string>)
    requires NoEmptyGroups(n) && !Conducts(n, ClosedIn(closed))
    ensures Respects(Draw(n, x, y), closed, LiveSide(n, x, y, closed))
    decreases n, 0
  {
    match n
    case Leaf(_) =>
    case Group(_, And, cs) =>
      SeriesRespects(cs, x, y, closed);
      SameSplit(Series(cs, x, y), Draw(n, x, y), closed, SeriesLiveSide(cs, x, y, closed), LiveSide(n, x, y, closed));
    case Group(_, Or, cs) =>
      ParallelRespects(cs, x, y, closed);
      WiringRespects(cs, x, y, MaxWidth(cs), closed);
      SameSplit(
        Parallel(cs, x, y).Plus(Sketch([], [], Fillers(cs, x, y, MaxWidth(cs)) + Buses(cs, x, y, MaxWidth(cs)))),
        Draw(n, x, y), closed, ParallelLiveSide(cs, x, y, closed), LiveSide(n, x, y, closed));
  }

  lemma SameSplit(s: Sketch, t: Sketch, closed: set<string>, a: Point -> bool, b: Point -> bool)
    requires Respects(s, closed, a) && Within(t, s) && forall p: Point :: a(p) == b(p)
    ensures Respects(t, closed, b)
  {
    forall w | w in t.wires ensures WireRespects(w, b) {
      assert WireRespects(w, a);
      forall p, q | OnWire(w, p) && OnWire(w, q) ensures b(p) == b(q) {
        assert a(p) == a(q);
      }
    }
    forall c | c in t.contacts ensures CellRespects(c, closed, b) {
      assert CellRespects(c, closed, a);
    }
  }

  lemma RespectsPlus(s: Sketch, t: Sketch, closed: set<string>, live: Point -> bool)
    requires Respects(s, closed, live) && Respects(t, closed, live)
    ensures Respects(s.Plus(t), closed, live)
  {
    hide CellRespects, WireRespects;
  }

  /** A series is cut where its first false block is. */
  lemma SeriesSide(cs: seq<Node>, x: int, y: int, closed: set<string>, p: Point)
    requires cs != []
    ensures SeriesLiveSide(cs, x, y, closed)(p) ==
            if Conducts(cs[0], ClosedIn(closed)) then SeriesLiveSide(cs[1..], x + Width(cs[0]), y, closed)(p) else LiveSide(cs[0], x, y, closed)(p)
  {
    hide Conducts, Live, Width;
  }

  lemma {:induction false} SeriesRespects(cs: seq<Node>, x: int, y: int, closed: set<string>)
    requires forall c | c in cs :: NoEmptyGroups(c)
    requires exists c | c in cs :: !Conducts(c, ClosedIn(closed))
    ensures Respects(Series(cs, x, y), closed, SeriesLiveSide(cs, x, y, closed))
    decreases cs, 0
  {
    hide Draw, Width, Height, InBox, Respects, Live, SeriesLive, LiveSide, SeriesLiveSide, Conducts, NoEmptyGroups;
    var side, right := SeriesLiveSide(cs, x, y, closed), x + Width(cs[0]);
    var head, tail := Draw(cs[0], x, y), Series(cs[1..], right, y);
    forall p: Point
      ensures side(p) == if Conducts(cs[0], ClosedIn(closed)) then SeriesLiveSide(cs[1..], right, y, closed)(p) else LiveSide(cs[0], x, y, closed)(p)
    {
      SeriesSide(cs, x, y, closed, p);
    }
    if Conducts(cs[0], ClosedIn(closed)) {
      SeriesRespects(cs[1..], right, y, closed);
      SameSplit(tail, tail, closed, SeriesLiveSide(cs[1..], right, y, closed), side);
      HeadLive(cs, x, y, closed, side);
    } else {
      DrawnRespects(cs[0], x, y, closed);
      SameSplit(head, head, closed, LiveSide(cs[0], x, y, closed), side);
      TailDead(cs, x, y, closed, side);
    }
    RespectsPlus(head, tail, closed, side);
  }

  /** A true first block lies wholly on the live side. */
  lemma HeadLive(cs: seq<Node>, x: int, y: int, closed: set<string>, side: Point -> bool)
    requires cs != [] && forall c | c in cs :: NoEmptyGroups(c)
    requires exists c | c in cs[1..] :: !Conducts(c, ClosedIn(closed))
    requires forall p: Point :: side(p) == SeriesLiveSide(cs[1..], x + Width(cs[0]), y, closed)(p)
    ensures Respects(Draw(cs[0], x, y), closed, side)
    decreases cs, 0
  {
    hide Draw, Width, Height, InBox, Respects, SeriesLive, Conducts, NoEmptyGroups;
    var right := x + Width(cs[0]);
    DrawnInBox(cs[0], x, y);
    forall p: Point | x <= p.x <= right ensures side(p) {
      SeriesLiveEdges(cs[1..], right, y, closed, p);
    }
    RespectsOneSide(Draw(cs[0], x, y), closed, side, x, y, right, y + Height(cs[0]), true);
  }

  /** What follows a false first block lies wholly on the dead side. */
  lemma TailDead(cs: seq<Node>, x: int, y: int, closed: set<string>, side: Point -> bool)
    requires cs != [] && (forall c | c in cs :: NoEmptyGroups(c)) && !Conducts(cs[0], ClosedIn(closed))
    requires forall p: Point :: side(p) == LiveSide(cs[0], x, y, closed)(p)
    ensures Respects(Series(cs[1..], x + Width(cs[0]), y), closed, side)
    decreases cs, 0
  {
    hide Draw, Width, Height, InBox, Respects, Series, Live, Conducts, NoEmptyGroups;
    var right := x + Width(cs[0]);
    SeriesInBox(cs[1..], right, y);
    forall p: Point | right <= p.x <= right + SumWidth(cs[1..]) ensures !side(p) {
      LiveEdges(cs[0], x, y, closed, p);
    }
    RespectsOneSide(Series(cs[1..], right, y), closed, side, right, y, right + SumWidth(cs[1..]), y + MaxHeight(cs[1..]), false);
  }

  /** A parallel is cut in each branch, rows apart. */
  lemma ParallelSide(cs: seq<Node>, x: int, y: int, closed: set<string>, p: Point)
    requires cs != []
    ensures ParallelLiveSide(cs, x, y, closed)(p) ==
            if p.y < y + Height(cs[0]) then LiveSide(cs[0], x, y, closed)(p) else ParallelLiveSide(cs[1..], x, y + Height(cs[0]), closed)(p)
  {
    hide Live, Height;
  }

  lemma {:induction false} ParallelRespects(cs: seq<Node>, x: int, y: int, closed: set<string>)
    requires forall c | c in cs :: NoEmptyGroups(c) && !Conducts(c, ClosedIn(closed))
    ensures Respects(Parallel(cs, x, y), closed, ParallelLiveSide(cs, x, y, closed))
    decreases cs, 0
  {
    hide Draw, Width, Height, InBox, Live, ParallelLive, LiveSide, ParallelLiveSide, Conducts, NoEmptyGroups, CellRespects, WireRespects;
    if cs != [] {
      hide Respects;
      var side, below := ParallelLiveSide(cs, x, y, closed), y + Height(cs[0]);
      forall p: Point
        ensures side(p) == if p.y < below then LiveSide(cs[0], x, y, closed)(p) else ParallelLiveSide(cs[1..], x, below, closed)(p)
      {
        ParallelSide(cs, x, y, closed, p);
      }
      DrawnInBox(cs[0], x, y);
      DrawnRespects(cs[0], x, y, closed);
      RespectsInBox(Draw(cs[0], x, y), closed, LiveSide(cs[0], x, y, closed), side, x, y, x + Width(cs[0]), below);
      ParallelInBox(cs[1..], x, below);
      ParallelRespects(cs[1..], x, below, closed);
      RespectsInBox(Parallel(cs[1..], x, below), closed, ParallelLiveSide(cs[1..], x, below, closed), side,
                    x, below, x + MaxWidth(cs[1..]), below + SumHeight(cs[1..]));
      RespectsPlus(Draw(cs[0], x, y), Parallel(cs[1..], x, below), closed, side);
    }
  }

  /** The left bus is all live, the right bus and the fillers all dead. */
  lemma {:induction false} WiringRespects(cs: seq<Node>, x: int, y: int, width: int, closed: set<string>)
    requires cs != [] && forall c | c in cs :: NoEmptyGroups(c) && !Conducts(c, ClosedIn(closed))
    requires width == MaxWidth(cs)
    ensures forall w | w in Fillers(cs, x, y, width) + Buses(cs, x, y, width) ::
      WireRespects(w, ParallelLiveSide(cs, x, y, closed))
  {
    var side := ParallelLiveSide(cs, x, y, closed);
    forall w | w in Fillers(cs, x, y, width) ensures WireRespects(w, side) {
      forall p | OnWire(w, p) ensures !side(p) {
        FillerDead(cs, x, y, width, closed, w, p);
      }
    }
    forall w | w in Buses(cs, x, y, width) ensures WireRespects(w, side) {
      forall p | OnWire(w, p) ensures side(p) == (p.x <= x) {
        SizesPositiveList(cs);
        ParallelLiveEdges(cs, x, y, closed, p);
      }
    }
  }

  lemma {:induction false} FillerDead(cs: seq<Node>, x: int, y: int, width: int, closed: set<string>, w: Wire, p: Point)
    requires forall c | c in cs :: NoEmptyGroups(c) && !Conducts(c, ClosedIn(closed))
    requires w in Fillers(cs, x, y, width) && OnWire(w, p)
    ensures !ParallelLive(cs, x, y, closed, p) && p.y >= y
    decreases cs
  {
    SizesPositive(cs[0]);
    if w in Filler(cs[0], x, y, width) {
      LiveEdges(cs[0], x, y, closed, p);
    } else {
      FillerDead(cs[1..], x, y + Height(cs[0]), width, closed, w, p);
    }
  }

  lemma {:induction false} PathStaysLive(s: Sketch, closed: set<string>, live: Point -> bool, ps: seq<Point>, i: nat)
    requires Respects(s, closed, live) && IsPath(s, closed, ps) && i < |ps|
    ensures live(ps[i]) == live(ps[0])
  {
    if i > 0 {
      PathStaysLive(s, closed, live, ps, i - 1);
      var p, q := ps[i - 1], ps[i];
      assert Linked(s, closed, ps[i - 1], ps[i - 1 + 1]);
      if c :| c in s.contacts && c.id in closed && AcrossCell(c, p, q) {
        assert CellRespects(c, closed, live);
      } else {
        var w :| w in s.wires && OnWire(w, p) && OnWire(w, q);
        assert WireRespects(w, live);
      }
    }
  }

  /** The drawing is electrically identical to the tree: for every contact state
      there is no sneak path and no missing path. */
  lemma DrawingIsTheTree(n: Node, closed: set<string>)
    requires NoEmptyGroups(n)
    ensures Connected(Draw(n, 0, 0), closed, Point(0, 0), Point(Width(n), 0)) <==> Conducts(n, ClosedIn(closed))
  {
    if Conducts(n, ClosedIn(closed)) {
      var ps := LivePath(n, 0, 0, closed);
    } else {
      DrawnRespects(n, 0, 0, closed);
      forall ps | PathBetween(Draw(n, 0, 0), closed, ps, Point(0, 0), Point(Width(n), 0)) ensures false {
        PathStaysLive(Draw(n, 0, 0), closed, LiveSide(n, 0, 0, closed), ps, |ps| - 1);
        LiveEdges(n, 0, 0, closed, Point(0, 0));
        LiveEdges(n, 0, 0, closed, Point(Width(n), 0));
      }
    }
  }

  // ---- The cells ---------------------------------------------------------------

  /** One cell per contact, in the tree's order. */
  lemma {:induction false} CellsAreContacts(n: Node, x: int, y: int)
    ensures var cells := Draw(n, x, y).contacts;
      && |cells| == |Leaves(n)|
      && forall i | 0 <= i < |cells| :: cells[i].id == Leaves(n)[i].id
    decreases n, 0
  {
    if n.Group? {
      ListCellsAreContacts(n.children, x, y);
    }
  }

  lemma {:induction false} ListCellsAreContacts(cs: seq<Node>, x: int, y: int)
    ensures var cells := Series(cs, x, y).contacts;
      |cells| == |ListLeaves(cs)| && forall i | 0 <= i < |cells| :: cells[i].id == ListLeaves(cs)[i].id
    ensures var cells := Parallel(cs, x, y).contacts;
      |cells| == |ListLeaves(cs)| && forall i | 0 <= i < |cells| :: cells[i].id == ListLeaves(cs)[i].id
    decreases cs, 0
  {
    hide Draw, Width, Height, Leaves;
    if cs != [] {
      CellsAreContacts(cs[0], x, y);
      ListCellsAreContacts(cs[1..], x + Width(cs[0]), y);
      ListCellsAreContacts(cs[1..], x, y + Height(cs[0]));
    }
  }

  /** No wire runs over a cell from its left side to its right side. */
  ghost predicate WireClear(w: Wire, c: Cell) {
    !(OnWire(w, Point(c.x, c.y)) && OnWire(w, Point(c.x + 1, c.y)))
  }

  ghost predicate Tidy(s: Sketch) {
    && (forall i, j | 0 <= i < j < |s.contacts| :: (s.contacts[i].x, s.contacts[i].y) != (s.contacts[j].x, s.contacts[j].y))
    && (forall w, c | w in s.wires && c in s.contacts :: WireClear(w, c))
  }

  lemma TidyBeside(s: Sketch, t: Sketch, x1: int, y1: int, x2: int, y2: int, x3: int, y3: int, x4: int, y4: int)
    requires Tidy(s) && Tidy(t) && InBox(s, x1, y1, x2, y2) && InBox(t, x3, y3, x4, y4)
    requires x2 <= x3 || y2 <= y3
    ensures Tidy(s.Plus(t))
  {
    var u := s.Plus(t);
    forall i, j | 0 <= i < j < |u.contacts|
      ensures (u.contacts[i].x, u.contacts[i].y) != (u.contacts[j].x, u.contacts[j].y)
    {
      if i < |s.contacts| <= j {
        assert u.contacts[i] in s.contacts && u.contacts[j] in t.contacts;
        assert CellInBox(u.contacts[i], x1, y1, x2, y2) && CellInBox(u.contacts[j], x3, y3, x4, y4);
      } else if j < |s.contacts| {
        assert u.contacts[i] == s.contacts[i] && u.contacts[j] == s.contacts[j];
      } else {
        assert u.contacts[i] == t.contacts[i - |s.contacts|] && u.contacts[j] == t.contacts[j - |s.contacts|];
      }
    }
    forall w, c | w in u.wires && c in u.contacts ensures WireClear(w, c) {
      if w in s.wires && c in t.contacts {
        assert WireInBox(w, x1, y1, x2, y2) && CellInBox(c, x3, y3, x4, y4);
      } else if w in t.wires && c in s.contacts {
        assert WireInBox(w, x3, y3, x4, y4) && CellInBox(c, x1, y1, x2, y2);
      }
    }
  }

  /** Contacts occupy distinct cells and no wire shorts one out. */
  lemma {:induction false} DrawnTidy(n: Node, x: int, y: int)
    requires NoEmptyGroups(n)
    ensures Tidy(Draw(n, x, y))
    decreases n, 0
  {
    match n
    case Leaf(_) =>
    case Group(_, And, cs) => SeriesTidy(cs, x, y);
    case Group(_, Or, cs) =>
      ParallelTidy(cs, x, y);
      WiringClear(cs, x, y, MaxWidth(cs));
  }

  lemma {:induction false} SeriesTidy(cs: seq<Node>, x: int, y: int)
    requires forall c | c in cs :: NoEmptyGroups(c)
    ensures Tidy(Series(cs, x, y))
    decreases cs, 0
  {
    hide Draw, Width, Height, InBox;
    if cs != [] {
      var right := x + Width(cs[0]);
      DrawnTidy(cs[0], x, y);
      SeriesTidy(cs[1..], right, y);
      DrawnInBox(cs[0], x, y);
      SeriesInBox(cs[1..], right, y);
      TidyBeside(Draw(cs[0], x, y), Series(cs[1..], right, y),
                 x, y, right, y + Height(cs[0]), right, y, right + SumWidth(cs[1..]), y + MaxHeight(cs[1..]));
    }
  }

  lemma {:induction false} ParallelTidy(cs: seq<Node>, x: int, y: int)
    requires forall c | c in cs :: NoEmptyGroups(c)
    ensures Tidy(Parallel(cs, x, y))
    decreases cs, 0
  {
    hide Draw, Width, Height, InBox;
    if cs != [] {
      var below := y + Height(cs[0]);
      DrawnTidy(cs[0], x, y);
      ParallelTidy(cs[1..], x, below);
      DrawnInBox(cs[0], x, y);
      ParallelInBox(cs[1..], x, below);
      TidyBeside(Draw(cs[0], x, y), Parallel(cs[1..], x, below),
                 x, y, x + Width(cs[0]), below, x, below, x + MaxWidth(cs[1..]), below + SumHeight(cs[1..]));
    }
  }

  lemma {:induction false} WiringClear(cs: seq<Node>, x: int, y: int, width: int)
    requires forall c | c in cs :: NoEmptyGroups(c)
    ensures forall w, c | w in Fillers(cs, x, y, width) + Buses(cs, x, y, width) && c in Parallel(cs, x, y).contacts :: WireClear(w, c)
  {
    forall w, c | w in Fillers(cs, x, y, width) && c in Parallel(cs, x, y).contacts ensures WireClear(w, c) {
      FillerClear(cs, x, y, width, w, c);
    }
  }

  /** The first branch's own filler. */
  lemma HeadFillerClear(cs: seq<Node>, x: int, y: int, width: int, w: Wire, c: Cell)
    requires cs != [] && forall d | d in cs :: NoEmptyGroups(d)
    requires w in Filler(cs[0], x, y, width) && c in Parallel(cs, x, y).contacts
    ensures WireClear(w, c)
  {
    hide Draw, Width, Height, NoEmptyGroups, InBox, WireClear;
    var below := y + Height(cs[0]);
    SizesPositive(cs[0]);
    if c in Draw(cs[0], x, y).contacts {
      DrawnInBox(cs[0], x, y);
      ContactInBox(Draw(cs[0], x, y), c, x, y, x + Width(cs[0]), below);
    } else {
      ParallelInBox(cs[1..], x, below);
      ContactInBox(Parallel(cs[1..], x, below), c, x, below, x + MaxWidth(cs[1..]), below + SumHeight(cs[1..]));
    }
    OutsideClear(w, c, x + Width(cs[0]), y);
  }

  lemma ContactInBox(s: Sketch, c: Cell, x1: int, y1: int, x2: int, y2: int)
    requires InBox(s, x1, y1, x2, y2) && c in s.contacts
    ensures x1 <= c.x < x2 && y1 <= c.y < y2
  {
  }

  /** A level wire misses a cell that ends left of it or lies in another row. */
  lemma OutsideClear(w: Wire, c: Cell, left: int, row: int)
    requires w.x1 == left && w.y1 == w.y2 == row && (c.x < left || c.y != row)
    ensures WireClear(w, c)
  {
  }

  lemma BelowClear(cs: seq<Node>, x: int, y: int, width: int, w: Wire, c: Cell)
    requires cs != [] && forall d | d in cs :: NoEmptyGroups(d)
    requires w in Fillers(cs[1..], x, y + Height(cs[0]), width) && c in Draw(cs[0], x, y).contacts
    ensures WireClear(w, c)
  {
    hide Draw, Width, Height, NoEmptyGroups;
    DrawnInBox(cs[0], x, y);
    assert CellInBox(c, x, y, x + Width(cs[0]), y + Height(cs[0]));
    FillerBelow(cs[1..], x, y + Height(cs[0]), width, w);
  }

  lemma FillersSplit(cs: seq<Node>, x: int, y: int, width: int, w: Wire)
    requires w in Fillers(cs, x, y, width)
    ensures cs != [] && (w in Filler(cs[0], x, y, width) || w in Fillers(cs[1..], x, y + Height(cs[0]), width))
  {
    hide Filler, Height;
  }

  lemma ParallelSplit(cs: seq<Node>, x: int, y: int, c: Cell)
    requires cs != [] && c in Parallel(cs, x, y).contacts
    ensures c in Draw(cs[0], x, y).contacts || c in Parallel(cs[1..], x, y + Height(cs[0])).contacts
  {
    hide Draw, Height;
  }

  lemma {:induction false} FillerClear(cs: seq<Node>, x: int, y: int, width: int, w: Wire, c: Cell)
    requires forall d | d in cs :: NoEmptyGroups(d)
    requires w in Fillers(cs, x, y, width) && c in Parallel(cs, x, y).contacts
    ensures WireClear(w, c)
    decreases cs
  {
    hide *;
    FillersSplit(cs, x, y, width, w);
    ParallelSplit(cs, x, y, c);
    if w in Filler(cs[0], x, y, width) {
      HeadFillerClear(cs, x, y, width, w, c);
    } else if c in Draw(cs[0], x, y).contacts {
      BelowClear(cs, x, y, width, w, c);
    } else {
      FillerClear(cs[1..], x, y + Height(cs[0]), width, w, c);
    }
  }

  lemma {:induction false} FillerBelow(cs: seq<Node>, x: int, y: int, width: int, w: Wire)
    requires forall d | d in cs :: NoEmptyGroups(d)
    requires w in Fillers(cs, x, y, width)
    ensures w.y1 >= y
    decreases cs
  {
    SizesPositive(cs[0]);
    if w !in Filler(cs[0], x, y, width) {
      FillerBelow(cs[1..], x, y + Height(cs[0]), width, w);
    }
  }

  /** The whole rung: one cell per contact, in order, all distinct and inside the
      stated size, and the same circuit as the tree. An empty rung is a bare wire. */
  method DrawRung(tree: Option<Node>) returns (out: LadderOut)
    requires tree.Some? ==> NoEmptyGroups(tree.value)
    ensures fresh(out)
    ensures InBox(out.Drawn(), 0, 0, out.width, out.height) && Tidy(out.Drawn())
    ensures tree.Some? ==> |out.contacts| == |Leaves(tree.value)|
    ensures tree.Some? ==> forall i | 0 <= i < |out.contacts| :: out.contacts[i].id == Leaves(tree.value)[i].id
    ensures forall closed ::
      Connected(out.Drawn(), closed, Point(0, 0), Point(out.width, 0)) <==> tree.None? || Conducts(tree.value, ClosedIn(closed))
  {
    if tree.Some? { FullIsDrawable(tree.value); }
    out := LayoutCondition(tree);
    if tree.Some? {
      var n := tree.value;
      DrawnInBox(n, 0, 0);
      DrawnTidy(n, 0, 0);
      CellsAreContacts(n, 0, 0);
      forall closed ensures Connected(Draw(n, 0, 0), closed, Point(0, 0), Point(Width(n), 0)) <==> Conducts(n, ClosedIn(closed)) {
        DrawingIsTheTree(n, closed);
      }
    } else {
      forall closed ensures Connected(Blank, closed, Point(0, 0), Point(0, 0)) {
        assert PathBetween(Blank, closed, [Point(0, 0)], Point(0, 0), Point(0, 0));
      }
    }
  }
}
