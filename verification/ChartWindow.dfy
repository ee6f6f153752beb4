/** The columns a live chart draws (frontend/src/lib/live-buffer.ts:145-191):
    appended to and trimmed in place, and seeded again after a fetch. */
module ChartWindow {
  import opened Wrappers
  import opened LiveBuffer

  // ---- Samples ----------------------------------------------------------------------

  ghost predicate Ascending(s: seq<LivePoint>) {
    forall i, j | 0 <= i < j < |s| :: s[i].t < s[j].t
  }

  /** A point no newer than the tip is not drawn again. */
  function Add(s: seq<LivePoint>, p: LivePoint): seq<LivePoint> {
    if s != [] && p.t <= s[|s| - 1].t then s else s + [p]
  }

  function AddAll(s: seq<LivePoint>, ps: seq<LivePoint>): seq<LivePoint>
    decreases ps
  {
    if ps == [] then s else AddAll(Add(s, ps[0]), ps[1..])
  }

  /** What has not slid out of the window. */
  function From(s: seq<LivePoint>, cutoff: int): seq<LivePoint> {
    if s == [] || s[0].t >= cutoff then s else From(s[1..], cutoff)
  }

  function NewerThan(s: seq<LivePoint>, tip: Option<int>): seq<LivePoint> {
    if s == [] then []
    else (if tip.None? || s[0].t > tip.value then [s[0]] else []) + NewerThan(s[1..], tip)
  }

  function Tip(s: seq<LivePoint>): Option<int> {
    if s == [] then None else Some(s[|s| - 1].t)
  }

  // ---- The columns --------------------------------------------------------------------

  /** uPlot's two aligned arrays. */
  class Columns {
    var xs: seq<int>
    var ys: seq<real>

    constructor (xs: seq<int>, ys: seq<real>)
      ensures this.xs == xs && this.ys == ys
    {
      this.xs, this.ys := xs, ys;
    }

    ghost predicate Valid()
      reads this
    {
      |xs| == |ys| && forall i, j | 0 <= i < j < |xs| :: xs[i] < xs[j]
    }

    function Samples(): (s: seq<LivePoint>)
      requires |xs| == |ys|
      reads this
      ensures |s| == |xs| && forall i | 0 <= i < |s| :: s[i] == LivePoint(xs[i], ys[i])
    {
      seq(|xs|, i requires 0 <= i < |xs| && |xs| == |ys| reads this => LivePoint(xs[i], ys[i]))
    }

    /** `appendToWindow`. */
    method AppendToWindow(points: seq<LivePoint>, cutoff: int)
      requires Valid()
      modifies this
      ensures Valid()
      ensures Samples() == From(AddAll(old(Samples()), points), cutoff)
    {
      for i := 0 to |points|
        invariant Valid()
        invariant AddAll(Samples(), points[i..]) == AddAll(old(Samples()), points)
      {
        assert points[i..][0] == points[i] && points[i..][1..] == points[i + 1..];
        PushPoint(points[i]);
      }
      assert points[|points|..] == [];
      Trim(cutoff);
    }

    /** Skips a point not newer than the tip. */
    method PushPoint(p: LivePoint)
      requires Valid()
      modifies this
      ensures Valid() && Samples() == Add(old(Samples()), p)
    {
      ghost var before := Samples();
      if |xs| > 0 && p.t <= xs[|xs| - 1] {
        return;
      }
      xs := xs + [p.t];
      ys := ys + [p.v];
      assert Samples() == before + [p];
    }

    /** Drops what slid out of the window. */
    method Trim(cutoff: int)
      requires Valid()
      modifies this
      ensures Valid() && Samples() == From(old(Samples()), cutoff)
    {
      ghost var all := Samples();
      var lo := FirstInside(cutoff);
      CutAt(all, lo, cutoff);
      if lo > 0 {
        xs := xs[lo..];
        ys := ys[lo..];
      }
      assert Samples() == all[lo..];
    }

    /** The first index inside the window, by halving. */
    method FirstInside(cutoff: int) returns (lo: nat)
      requires Valid()
      ensures lo <= |xs|
      ensures forall i | 0 <= i < lo :: xs[i] < cutoff
      ensures forall i | lo <= i < |xs| :: xs[i] >= cutoff
    {
      lo := 0;
      var hi := |xs|;
      while lo < hi
        invariant lo <= hi <= |xs|
        invariant forall i | 0 <= i < lo :: xs[i] < cutoff
        invariant forall i | hi <= i < |xs| :: xs[i] >= cutoff
      {
        var mid := (lo + hi) / 2;
        if xs[mid] < cutoff {
          lo := mid + 1;
        } else {
          hi := mid;
        }
      }
    }
  }

  datatype Series = Series(id: string, columns: Columns)

  /** `reseed`: the fetched columns take the live points newer than their tip, if
      they are of the same series. */
  method Reseed(prev: Series, id: string, fetched: Columns) returns (r: Series)
    requires prev.columns != fetched && prev.columns.Valid() && fetched.Valid()
    modifies fetched
    ensures r == Series(id, fetched) && fetched.Valid()
    ensures prev.id != id ==> fetched.Samples() == old(fetched.Samples())
    ensures prev.id == id ==>
      fetched.Samples() == old(fetched.Samples()) + NewerThan(prev.columns.Samples(), Tip(old(fetched.Samples())))
  {
    if prev.id != id {
      return Series(id, fetched);
    }
    var tip := if |fetched.xs| > 0 then Some(fetched.xs[|fetched.xs| - 1]) else None;
    ghost var seed, live := fetched.Samples(), prev.columns.Samples();
    assert tip == Tip(seed);
    assert live[..0] == [] && seed + [] == seed;
    for i := 0 to |prev.columns.xs|
      invariant prev.columns.xs == old(prev.columns.xs) && prev.columns.ys == old(prev.columns.ys)
      invariant |fetched.xs| == |fetched.ys|
      invariant fetched.Samples() == seed + NewerThan(live[..i], tip)
    {
      NewerThanExtend(live, i, tip);
      if tip.None? || prev.columns.xs[i] > tip.value {
        ghost var before := fetched.Samples();
        fetched.xs := fetched.xs + [prev.columns.xs[i]];
        fetched.ys := fetched.ys + [prev.columns.ys[i]];
        assert fetched.Samples() == before + [live[i]];
      }
    }
    assert live[..|live|] == live;
    SeedAscends(seed, live);
    ghost var end := fetched.Samples();
    forall i, j | 0 <= i < j < |fetched.xs| ensures fetched.xs[i] < fetched.xs[j] {
      assert end[i].t < end[j].t;
    }
    r := Series(id, fetched);
  }

  // ---- What the samples keep -----------------------------------------------------------

  lemma {:induction false} CutAt(s: seq<LivePoint>, lo: nat, cutoff: int)
    requires lo <= |s| && (forall i | 0 <= i < lo :: s[i].t < cutoff) && (forall i | lo <= i < |s| :: s[i].t >= cutoff)
    ensures From(s, cutoff) == s[lo..]
  {
    if lo > 0 {
      CutAt(s[1..], lo - 1, cutoff);
    }
  }

  lemma AddAscends(s: seq<LivePoint>, p: LivePoint)
    requires Ascending(s)
    ensures Ascending(Add(s, p))
  {
  }

  lemma {:induction false} AddAllAscends(s: seq<LivePoint>, ps: seq<LivePoint>)
    requires Ascending(s)
    ensures Ascending(AddAll(s, ps))
    decreases ps
  {
    if ps != [] {
      AddAllAscends(Add(s, ps[0]), ps[1..]);
    }
  }

  lemma {:induction false} FromIsSuffix(s: seq<LivePoint>, cutoff: int) returns (k: nat)
    requires Ascending(s)
    ensures k <= |s| && From(s, cutoff) == s[k..]
    ensures forall i | 0 <= i < |s| :: s[i].t >= cutoff <==> i >= k
  {
    if s == [] || s[0].t >= cutoff {
      k := 0;
    } else {
      k := FromIsSuffix(s[1..], cutoff);
      k := k + 1;
    }
  }

  lemma FromAgain(s: seq<LivePoint>, c1: int, c2: int)
    requires Ascending(s) && c1 <= c2
    ensures From(From(s, c1), c2) == From(s, c2) && Ascending(From(s, c1))
  {
    var k := FromIsSuffix(s, c1);
    var m := FromIsSuffix(s, c2);
    var n := FromIsSuffix(s[k..], c2);
    assert n == |s[k..]| || s[k + n].t >= c2;
    assert m == |s| || s[m].t >= c2;
    if m >= k && m - k < |s[k..]| {
      assert s[k..][m - k].t >= c2;
    }
    assert k + n == m;
  }

  /** Two columns that agree inside the window still do after one more point. */
  lemma AddKeepsWindow(a: seq<LivePoint>, b: seq<LivePoint>, p: LivePoint, cutoff: int)
    requires Ascending(a) && Ascending(b) && From(a, cutoff) == From(b, cutoff)
    ensures From(Add(a, p), cutoff) == From(Add(b, p), cutoff)
  {
    WindowOfAdd(a, p, cutoff);
    WindowOfAdd(b, p, cutoff);
  }

  /** The window after one more point depends on the window alone. */
  lemma WindowOfAdd(s: seq<LivePoint>, p: LivePoint, cutoff: int)
    requires Ascending(s)
    ensures From(Add(s, p), cutoff) == if p.t >= cutoff then Add(From(s, cutoff), p) else From(s, cutoff)
  {
    var k := FromIsSuffix(s, cutoff);
    if s != [] && p.t <= s[|s| - 1].t {
      if p.t >= cutoff {
        LastOfSuffix(s, k);
      }
    } else if p.t >= cutoff {
      if k < |s| { LastOfSuffix(s, k); }
      WindowGrows(s, p, cutoff, k);
    } else {
      WindowStaysEmpty(s, p, cutoff);
    }
  }

  lemma LastOfSuffix(s: seq<LivePoint>, k: nat)
    requires k < |s|
    ensures s[k..][|s[k..]| - 1] == s[|s| - 1]
  {
  }

  lemma WindowGrows(s: seq<LivePoint>, p: LivePoint, cutoff: int, k: nat)
    requires k <= |s| && p.t >= cutoff && forall i | 0 <= i < |s| :: s[i].t >= cutoff <==> i >= k
    ensures From(s + [p], cutoff) == s[k..] + [p]
  {
    CutAt(s + [p], k, cutoff);
  }

  lemma WindowStaysEmpty(s: seq<LivePoint>, p: LivePoint, cutoff: int)
    requires Ascending(s) && p.t < cutoff && (s == [] || s[|s| - 1].t < p.t)
    ensures From(s + [p], cutoff) == [] && From(s, cutoff) == []
  {
    CutAt(s + [p], |s| + 1, cutoff);
    CutAt(s, |s|, cutoff);
  }

  lemma {:induction false} AddAllKeepsWindow(a: seq<LivePoint>, b: seq<LivePoint>, ps: seq<LivePoint>, cutoff: int)
    requires Ascending(a) && Ascending(b) && From(a, cutoff) == From(b, cutoff)
    ensures From(AddAll(a, ps), cutoff) == From(AddAll(b, ps), cutoff)
    decreases ps
  {
    if ps != [] {
      AddKeepsWindow(a, b, ps[0], cutoff);
      AddAscends(a, ps[0]);
      AddAscends(b, ps[0]);
      AddAllKeepsWindow(Add(a, ps[0]), Add(b, ps[0]), ps[1..], cutoff);
    }
  }

  lemma {:induction false} AddAllAppend(s: seq<LivePoint>, p: seq<LivePoint>, q: seq<LivePoint>)
    ensures AddAll(s, p + q) == AddAll(AddAll(s, p), q)
    decreases p
  {
    if p == [] {
      assert p + q == q;
    } else {
      assert (p + q)[1..] == p[1..] + q;
      AddAllAppend(Add(s, p[0]), p[1..], q);
    }
  }

  /** One call of `appendToWindow`, as a step on the samples. */
  function Append(s: seq<LivePoint>, points: seq<LivePoint>, cutoff: int): seq<LivePoint> {
    From(AddAll(s, points), cutoff)
  }

  /** Batching does not matter, even if the first trim empties the window. */
  lemma TwoAppendsAreOne(s: seq<LivePoint>, p: seq<LivePoint>, q: seq<LivePoint>, c1: int, c2: int)
    requires Ascending(s) && c1 <= c2
    ensures Append(Append(s, p, c1), q, c2) == Append(s, p + q, c2)
    ensures Ascending(Append(s, p, c1))
  {
    var a := AddAll(s, p);
    AddAllAscends(s, p);
    FromAgain(a, c1, c2);
    AddAllKeepsWindow(From(a, c1), a, q, c2);
    AddAllAppend(s, p, q);
  }

  datatype Call = Call(points: seq<LivePoint>, cutoff: int)

  function AppendRun(s: seq<LivePoint>, calls: seq<Call>): seq<LivePoint>
    decreases calls
  {
    if calls == [] then s else AppendRun(Append(s, calls[0].points, calls[0].cutoff), calls[1..])
  }

  function AllPoints(calls: seq<Call>): seq<LivePoint> {
    if calls == [] then [] else calls[0].points + AllPoints(calls[1..])
  }

  /** Any run of calls whose cutoff never goes back draws what a single call with
      all the points would. */
  lemma {:induction false} RunIsOneAppend(s: seq<LivePoint>, calls: seq<Call>)
    requires Ascending(s) && calls != []
    requires forall i, j | 0 <= i < j < |calls| :: calls[i].cutoff <= calls[j].cutoff
    ensures AppendRun(s, calls) == Append(s, AllPoints(calls), calls[|calls| - 1].cutoff)
    ensures Ascending(AppendRun(s, calls))
    decreases calls
  {
    var p, c := calls[0].points, calls[0].cutoff;
    if |calls| == 1 {
      assert AllPoints(calls) == p + AllPoints(calls[1..]) == p;
      assert AppendRun(s, calls) == AppendRun(Append(s, p, c), []);
      TwoAppendsAreOne(s, p, [], c, c);
    } else {
      var last := calls[|calls| - 1].cutoff;
      TwoAppendsAreOne(s, p, AllPoints(calls[1..]), c, last);
      RunIsOneAppend(Append(s, p, c), calls[1..]);
    }
  }

  // ---- Seeding ---------------------------------------------------------------------------

  lemma {:induction false} NewerThanExtend(s: seq<LivePoint>, i: nat, tip: Option<int>)
    requires i < |s|
    ensures NewerThan(s[..i + 1], tip) == NewerThan(s[..i], tip) + if tip.None? || s[i].t > tip.value then [s[i]] else []
  {
    if i == 0 {
      assert s[..1][1..] == [] && s[..0] == [];
    } else {
      assert s[..i + 1][1..] == s[1..][..i] && s[..i][1..] == s[1..][..i - 1];
      NewerThanExtend(s[1..], i - 1, tip);
    }
  }

  lemma {:induction false} NewerAreNewer(s: seq<LivePoint>, tip: Option<int>)
    requires Ascending(s)
    ensures forall p :: p in NewerThan(s, tip) <==> p in s && (tip.None? || p.t > tip.value)
    ensures Ascending(NewerThan(s, tip))
  {
    if s != [] {
      NewerAreNewer(s[1..], tip);
      assert forall p :: p in s <==> p == s[0] || p in s[1..];
      var rest := NewerThan(s[1..], tip);
      forall i | 0 <= i < |rest| ensures s[0].t < rest[i].t {
        assert rest[i] in s[1..];
      }
    }
  }

  /** The seeded columns ascend, hold the fetch untouched, and every live point
      newer than its tip — no other. */
  lemma SeedAscends(seed: seq<LivePoint>, live: seq<LivePoint>)
    requires Ascending(seed) && Ascending(live)
    ensures Ascending(seed + NewerThan(live, Tip(seed)))
    ensures forall p | p in live && (seed == [] || p.t > seed[|seed| - 1].t) :: p in seed + NewerThan(live, Tip(seed))
    ensures forall p | p in NewerThan(live, Tip(seed)) :: p in live && p !in seed
  {
    NewerAreNewer(live, Tip(seed));
    var newer := NewerThan(live, Tip(seed));
    var all := seed + newer;
    forall i, j | 0 <= i < j < |all| ensures all[i].t < all[j].t {
      if i < |seed| <= j {
        assert all[j] in newer;
        assert seed[i].t <= seed[|seed| - 1].t;
      }
    }
    forall p, i | p in newer && 0 <= i < |seed| ensures seed[i] != p {
      assert seed[i].t <= seed[|seed| - 1].t;
    }
  }

  /** So seeding is the same as drawing the live points over the fetch. */
  lemma {:induction false} SeedIsAppend(seed: seq<LivePoint>, live: seq<LivePoint>)
    requires Ascending(seed) && Ascending(live)
    ensures seed + NewerThan(live, Tip(seed)) == AddAll(seed, live)
    decreases live
  {
    if live != [] {
      AddAscends(seed, live[0]);
      SeedIsAppend(Add(seed, live[0]), live[1..]);
      if seed == [] || live[0].t > seed[|seed| - 1].t {
        SeedFirst(seed, live);
      } else {
        assert NewerThan(live, Tip(seed)) == NewerThan(live[1..], Tip(seed));
      }
    }
  }

  lemma SeedFirst(seed: seq<LivePoint>, live: seq<LivePoint>)
    requires Ascending(live) && live != [] && (seed == [] || live[0].t > seed[|seed| - 1].t)
    ensures seed + NewerThan(live, Tip(seed)) == (seed + [live[0]]) + NewerThan(live[1..], Tip(seed + [live[0]]))
  {
    AllNewer(live, Tip(seed));
    var tip := Tip(seed + [live[0]]);
    assert tip == Some(live[0].t);
    AllNewer(live[1..], tip);
    SplitFirst(seed, live);
  }

  lemma SplitFirst<T>(a: seq<T>, b: seq<T>)
    requires b != []
    ensures a + b == (a + [b[0]]) + b[1..]
  {
  }

  lemma {:induction false} AllNewer(s: seq<LivePoint>, tip: Option<int>)
    requires tip.Some? ==> forall i | 0 <= i < |s| :: s[i].t > tip.value
    ensures NewerThan(s, tip) == s
  {
    if s != [] {
      AllNewer(s[1..], tip);
    }
  }
}
