/** The ladder drawing of a condition tree (frontend/src/lib/ladder-layout.ts): a
    contact fills one grid cell, series blocks sit side by side, parallel blocks
    stack between two buses. */
module LadderLayout {
  import opened Wrappers
  import opened ConditionTree

  datatype Cell = Cell(id: string, x: int, y: int)

  datatype Block = Block(id: string, op: Combinator, x: int, y: int, width: int, height: int)

  datatype Wire = Wire(x1: int, y1: int, x2: int, y2: int)

  datatype Sketch = Sketch(contacts: seq<Cell>, blocks: seq<Block>, wires: seq<Wire>) {
    function Plus(s: Sketch): Sketch {
      Sketch(contacts + s.contacts, blocks + s.blocks, wires + s.wires)
    }
  }

  const Blank := Sketch([], [], [])

  // ---- What is drawn ---------------------------------------------------------

  function Max(a: int, b: int): int {
    if a >= b then a else b
  }

  function Width(n: Node): int
    decreases n, 0
  {
    match n
    case Leaf(_) => 1
    case Group(_, And, cs) => SumWidth(cs)
    case Group(_, Or, cs) => MaxWidth(cs)
  }

  function SumWidth(cs: seq<Node>): int
    decreases cs, 0
  {
    if cs == [] then 0 else Width(cs[0]) + SumWidth(cs[1..])
  }

  function MaxWidth(cs: seq<Node>): (w: int)
    ensures w >= 0
    decreases cs, 0
  {
    if cs == [] then 0 else Max(Width(cs[0]), MaxWidth(cs[1..]))
  }

  function Height(n: Node): int
    decreases n, 0
  {
    match n
    case Leaf(_) => 1
    case Group(_, And, cs) => MaxHeight(cs)
    case Group(_, Or, cs) => SumHeight(cs)
  }

  function SumHeight(cs: seq<Node>): int
    decreases cs, 0
  {
    if cs == [] then 0 else Height(cs[0]) + SumHeight(cs[1..])
  }

  function MaxHeight(cs: seq<Node>): (h: int)
    ensures h >= 0
    decreases cs, 0
  {
    if cs == [] then 0 else Max(Height(cs[0]), MaxHeight(cs[1..]))
  }

  /** The sketch of `n` with its top-left corner at (x, y). */
  function Draw(n: Node, x: int, y: int): Sketch
    decreases n, 0
  {
    match n
    case Leaf(c) => Sketch([Cell(c.id, x, y)], [], [])
    case Group(id, And, cs) =>
      Series(cs, x, y).Plus(Sketch([], [Block(id, And, x, y, Width(n), Height(n))], []))
    case Group(id, Or, cs) =>
      Parallel(cs, x, y)
      .Plus(Sketch([], [], Fillers(cs, x, y, Width(n))))
      .Plus(Sketch([], [Block(id, Or, x, y, Width(n), Height(n))], Buses(cs, x, y, Width(n))))
  }

  function Series(cs: seq<Node>, x: int, y: int): Sketch
    decreases cs, 0
  {
    if cs == [] then Blank else Draw(cs[0], x, y).Plus(Series(cs[1..], x + Width(cs[0]), y))
  }

  function Parallel(cs: seq<Node>, x: int, y: int): Sketch
    decreases cs, 0
  {
    if cs == [] then Blank else Draw(cs[0], x, y).Plus(Parallel(cs[1..], x, y + Height(cs[0])))
  }

  /** A wire from a short branch out to the right bus. */
  function Filler(c: Node, x: int, row: int, width: int): seq<Wire> {
    if Width(c) < width then [Wire(x + Width(c), row, x + width, row)] else []
  }

  function Fillers(cs: seq<Node>, x: int, y: int, width: int): seq<Wire> {
    if cs == [] then []
    else Filler(cs[0], x, y, width) + Fillers(cs[1..], x, y + Height(cs[0]), width)
  }

  /** The row of the last branch. */
  function LastRow(cs: seq<Node>, y: int): int {
    if |cs| <= 1 then y else LastRow(cs[1..], y + Height(cs[0]))
  }

  function Buses(cs: seq<Node>, x: int, y: int, width: int): seq<Wire> {
    [Wire(x, y, x, LastRow(cs, y)), Wire(x + width, y, x + width, LastRow(cs, y))]
  }

  // ---- Lists of blocks, one more at the end -----------------------------------

  lemma {:induction false} SizesGrow(cs: seq<Node>, i: nat)
    requires i < |cs|
    ensures SumWidth(cs[..i + 1]) == SumWidth(cs[..i]) + Width(cs[i])
    ensures MaxWidth(cs[..i + 1]) == Max(MaxWidth(cs[..i]), Width(cs[i]))
    ensures SumHeight(cs[..i + 1]) == SumHeight(cs[..i]) + Height(cs[i])
    ensures MaxHeight(cs[..i + 1]) == Max(MaxHeight(cs[..i]), Height(cs[i]))
  {
    SizesPositive(cs[i]);
    assert cs[..i + 1] == cs[..i] + [cs[i]];
    SizesAppend(cs[..i], cs[i]);
  }

  lemma {:induction false} SizesAppend(cs: seq<Node>, c: Node)
    requires Width(c) >= 0 && Height(c) >= 0
    ensures SumWidth(cs + [c]) == SumWidth(cs) + Width(c)
    ensures MaxWidth(cs + [c]) == Max(MaxWidth(cs), Width(c))
    ensures SumHeight(cs + [c]) == SumHeight(cs) + Height(c)
    ensures MaxHeight(cs + [c]) == Max(MaxHeight(cs), Height(c))
  {
    if cs == [] {
      assert cs + [c] == [c] && [c][1..] == [];
    } else {
      assert (cs + [c])[1..] == cs[1..] + [c];
      SizesAppend(cs[1..], c);
    }
  }

  lemma {:induction false} SizesPositive(n: Node)
    ensures Width(n) >= 0 && Height(n) >= 0
    ensures NoEmptyGroups(n) ==> Width(n) >= 1 && Height(n) >= 1
    decreases n, 0
  {
    if n.Group? {
      SizesPositiveList(n.children);
    }
  }

  lemma {:induction false} SizesPositiveList(cs: seq<Node>)
    ensures SumWidth(cs) >= 0 && SumHeight(cs) >= 0
    ensures (cs != [] && forall c | c in cs :: NoEmptyGroups(c)) ==>
      SumWidth(cs) >= 1 && SumHeight(cs) >= 1 && MaxWidth(cs) >= 1 && MaxHeight(cs) >= 1
    decreases cs, 0
  {
    if cs != [] {
      SizesPositive(cs[0]);
      SizesPositiveList(cs[1..]);
    }
  }

  lemma PlusAssociative(a: Sketch, b: Sketch, c: Sketch)
    ensures a.Plus(b).Plus(c) == a.Plus(b.Plus(c))
  {
    assert (a.contacts + b.contacts) + c.contacts == a.contacts + (b.contacts + c.contacts);
    assert (a.blocks + b.blocks) + c.blocks == a.blocks + (b.blocks + c.blocks);
    assert (a.wires + b.wires) + c.wires == a.wires + (b.wires + c.wires);
  }

  lemma PlusBlank(a: Sketch)
    ensures a.Plus(Blank) == a && Blank.Plus(a) == a
  {
  }

  lemma NothingDrawn(x: int, y: int)
    ensures Series([], x, y) == Blank && Parallel([], x, y) == Blank
  {
  }

  lemma {:induction false} SeriesAppend(cs: seq<Node>, c: Node, x: int, y: int)
    ensures Series(cs + [c], x, y) == Series(cs, x, y).Plus(Draw(c, x + SumWidth(cs), y))
  {
    hide Draw, Width;
    if cs == [] {
      assert cs + [c] == [c] && [c][1..] == [];
      PlusBlank(Draw(c, x, y));
      assert Series([c], x, y) == Draw(c, x, y).Plus(Series([], x + Width(c), y));
    } else {
      assert (cs + [c])[1..] == cs[1..] + [c];
      SeriesAppend(cs[1..], c, x + Width(cs[0]), y);
      PlusAssociative(Draw(cs[0], x, y), Series(cs[1..], x + Width(cs[0]), y), Draw(c, x + SumWidth(cs), y));
    }
  }

  lemma {:induction false} ParallelAppend(cs: seq<Node>, c: Node, x: int, y: int)
    ensures Parallel(cs + [c], x, y) == Parallel(cs, x, y).Plus(Draw(c, x, y + SumHeight(cs)))
  {
    hide Draw, Height;
    if cs == [] {
      assert cs + [c] == [c] && [c][1..] == [];
      PlusBlank(Draw(c, x, y));
      assert Parallel([c], x, y) == Draw(c, x, y).Plus(Parallel([], x, y + Height(c)));
    } else {
      assert (cs + [c])[1..] == cs[1..] + [c];
      ParallelAppend(cs[1..], c, x, y + Height(cs[0]));
      PlusAssociative(Draw(cs[0], x, y), Parallel(cs[1..], x, y + Height(cs[0])), Draw(c, x, y + SumHeight(cs)));
    }
  }

  lemma SeriesGrows(before: Sketch, cs: seq<Node>, i: nat, x: int, y: int)
    requires i < |cs|
    ensures SumWidth(cs[..i + 1]) == SumWidth(cs[..i]) + Width(cs[i])
    ensures MaxHeight(cs[..i + 1]) == Max(MaxHeight(cs[..i]), Height(cs[i]))
    ensures before.Plus(Series(cs[..i], x, y)).Plus(Draw(cs[i], x + SumWidth(cs[..i]), y))
         == before.Plus(Series(cs[..i + 1], x, y))
  {
    SizesGrow(cs, i);
    assert cs[..i + 1] == cs[..i] + [cs[i]];
    SeriesAppend(cs[..i], cs[i], x, y);
    PlusAssociative(before, Series(cs[..i], x, y), Draw(cs[i], x + SumWidth(cs[..i]), y));
  }

  lemma ParallelGrows(before: Sketch, cs: seq<Node>, i: nat, x: int, y: int)
    requires i < |cs|
    ensures MaxWidth(cs[..i + 1]) == Max(MaxWidth(cs[..i]), Width(cs[i]))
    ensures SumHeight(cs[..i + 1]) == SumHeight(cs[..i]) + Height(cs[i])
    ensures before.Plus(Parallel(cs[..i], x, y)).Plus(Draw(cs[i], x, y + SumHeight(cs[..i])))
         == before.Plus(Parallel(cs[..i + 1], x, y))
  {
    SizesGrow(cs, i);
    assert cs[..i + 1] == cs[..i] + [cs[i]];
    ParallelAppend(cs[..i], cs[i], x, y);
    PlusAssociative(before, Parallel(cs[..i], x, y), Draw(cs[i], x, y + SumHeight(cs[..i])));
  }

  lemma {:induction false} FillersAppend(cs: seq<Node>, c: Node, x: int, y: int, width: int)
    ensures Fillers(cs + [c], x, y, width) == Fillers(cs, x, y, width) + Filler(c, x, y + SumHeight(cs), width)
  {
    if cs == [] {
      assert cs + [c] == [c] && [c][1..] == [];
    } else {
      assert (cs + [c])[1..] == cs[1..] + [c];
      FillersAppend(cs[1..], c, x, y + Height(cs[0]), width);
    }
  }

  lemma {:induction false} LastRowIs(cs: seq<Node>, y: int)
    requires cs != []
    ensures LastRow(cs, y) == y + SumHeight(cs[..|cs| - 1])
  {
    if |cs| > 1 {
      LastRowIs(cs[1..], y + Height(cs[0]));
      assert cs[..|cs| - 1][1..] == cs[1..][..|cs[1..]| - 1];
    }
  }

  // ---- How it is drawn -------------------------------------------------------

  /** No parallel group is empty: such a one has no last branch, and the source fails
      on it. An empty series is drawn with no width. */
  ghost predicate Drawable(n: Node)
    decreases n
  {
    n.Group? ==> (n.op.Or? ==> n.children != []) && forall c | c in n.children :: Drawable(c)
  }

  lemma {:induction false} FullIsDrawable(n: Node)
    requires NoEmptyGroups(n)
    ensures Drawable(n)
    decreases n
  {
    if n.Group? {
      forall c | c in n.children ensures Drawable(c) {
        FullIsDrawable(c);
      }
    }
  }

  datatype Branch = Branch(row: int, width: int)

  class LadderOut {
    var width: int
    var height: int
    var contacts: seq<Cell>
    var blocks: seq<Block>
    var wires: seq<Wire>

    constructor ()
      ensures width == 0 && height == 1 && Drawn() == Blank
    {
      width, height := 0, 1;
      contacts, blocks, wires := [], [], [];
    }

    function Drawn(): Sketch
      reads this
    {
      Sketch(contacts, blocks, wires)
    }

    /** `place`: draws `node` after what is there and answers its size. */
    method Place(node: Node, x: int, y: int) returns (w: int, h: int)
      requires Drawable(node)
      modifies `contacts, `blocks, `wires
      ensures w == Width(node) && h == Height(node)
      ensures Drawn() == old(Drawn()).Plus(Draw(node, x, y))
      decreases node, 0
    {
      match node
      case Leaf(c) =>
        contacts := contacts + [Cell(c.id, x, y)];
        w, h := 1, 1;
      case Group(id, And, children) =>
        w, h := PlaceSeries(children, x, y);
        PlusAssociative(old(Drawn()), Series(children, x, y), Sketch([], [Block(id, And, x, y, w, h)], []));
        blocks := blocks + [Block(id, And, x, y, w, h)];
      case Group(id, Or, children) =>
        w, h := PlaceParallel(children, x, y);
        var inner := Parallel(children, x, y).Plus(Sketch([], [], Fillers(children, x, y, w)));
        PlusAssociative(old(Drawn()), inner, Sketch([], [Block(id, Or, x, y, w, h)], Buses(children, x, y, w)));
        blocks := blocks + [Block(id, Or, x, y, w, h)];
    }

    method PlaceSeries(children: seq<Node>, x: int, y: int) returns (width: int, height: int)
      requires forall c | c in children :: Drawable(c)
      modifies `contacts, `blocks, `wires
      ensures width == SumWidth(children) && height == MaxHeight(children)
      ensures Drawn() == old(Drawn()).Plus(Series(children, x, y))
      decreases children, 0
    {
      hide Series;
      hide Parallel;
      hide Draw;
      width, height := 0, 0;
      ghost var before := Drawn();
      PlusBlank(before);
      NothingDrawn(x, y);
      assert children[..0] == [];
      for i := 0 to |children|
        invariant width == SumWidth(children[..i])
        invariant height == MaxHeight(children[..i])
        invariant Drawn() == before.Plus(Series(children[..i], x, y))
      {
        var w, h := Place(children[i], x + width, y);
        SeriesGrows(before, children, i, x, y);
        width := width + w;
        height := Max(height, h);
      }
      assert children[..|children|] == children;
    }

    method PlaceParallel(children: seq<Node>, x: int, y: int) returns (width: int, height: int)
      requires children != [] && forall c | c in children :: Drawable(c)
      modifies `contacts, `blocks, `wires
      ensures width == MaxWidth(children) && height == SumHeight(children)
      ensures Drawn() == old(Drawn())
        .Plus(Parallel(children, x, y).Plus(Sketch([], [], Fillers(children, x, y, width))))
        .Plus(Sketch([], [], Buses(children, x, y, width)))
      decreases children, 1
    {
      var branches;
      branches, width, height := PlaceBranches(children, x, y);
      WireBranches(children, branches, x, y, width);
      PlusAssociative(old(Drawn()), Parallel(children, x, y), Sketch([], [], Fillers(children, x, y, width)));
    }

    ghost predicate Describes(branches: seq<Branch>, children: seq<Node>, y: int) {
      && |branches| <= |children|
      && forall j | 0 <= j < |branches| :: branches[j] == Branch(y + SumHeight(children[..j]), Width(children[j]))
    }

    /** Every branch first, to learn the block's width. */
    method PlaceBranches(children: seq<Node>, x: int, y: int) returns (branches: seq<Branch>, width: int, height: int)
      requires forall c | c in children :: Drawable(c)
      modifies `contacts, `blocks, `wires
      ensures |branches| == |children| && Describes(branches, children, y)
      ensures width == MaxWidth(children) && height == SumHeight(children)
      ensures Drawn() == old(Drawn()).Plus(Parallel(children, x, y))
      decreases children, 0
    {
      hide Series;
      hide Parallel;
      hide Draw;
      branches, width, height := [], 0, 0;
      ghost var before := Drawn();
      PlusBlank(before);
      NothingDrawn(x, y);
      assert children[..0] == [];
      for i := 0 to |children|
        invariant |branches| == i && Describes(branches, children, y)
        invariant width == MaxWidth(children[..i])
        invariant height == SumHeight(children[..i])
        invariant Drawn() == before.Plus(Parallel(children[..i], x, y))
      {
        var w, h := Place(children[i], x, y + height);
        ParallelGrows(before, children, i, x, y);
        branches := branches + [Branch(y + height, w)];
        height := height + h;
        width := Max(width, w);
      }
      assert children[..|children|] == children;
    }

    /** Wires the shorter branches out to the right bus, then both buses. */
    method WireBranches(ghost children: seq<Node>, branches: seq<Branch>, x: int, y: int, width: int)
      requires children != [] && |branches| == |children| && Describes(branches, children, y)
      modifies `wires
      ensures wires == old(wires) + Fillers(children, x, y, width) + Buses(children, x, y, width)
    {
      for i := 0 to |branches|
        invariant wires == old(wires) + Fillers(children[..i], x, y, width)
      {
        assert children[..i + 1] == children[..i] + [children[i]];
        FillersAppend(children[..i], children[i], x, y, width);
        var b := branches[i];
        if b.width < width {
          wires := wires + [Wire(x + b.width, b.row, x + width, b.row)];
        }
      }
      assert children[..|children|] == children;
      LastRowIs(children, y);
      var lastRow := branches[|branches| - 1].row;
      wires := wires + [Wire(x, y, x, lastRow)];
      wires := wires + [Wire(x + width, y, x + width, lastRow)];
    }
  }

  /** `layoutCondition`: the whole rung, its corner at the origin. */
  method LayoutCondition(tree: Option<Node>) returns (out: LadderOut)
    requires tree.Some? ==> Drawable(tree.value)
    ensures fresh(out)
    ensures tree.None? ==> out.width == 0 && out.height == 1 && out.Drawn() == Blank
    ensures tree.Some? ==>
      out.width == Width(tree.value) && out.height == Height(tree.value) && out.Drawn() == Draw(tree.value, 0, 0)
  {
    out := new LadderOut();
    if tree.Some? {
      PlusBlank(Draw(tree.value, 0, 0));
      var w, h := out.Place(tree.value, 0, 0);
      out.width, out.height := w, h;
    }
  }
}
