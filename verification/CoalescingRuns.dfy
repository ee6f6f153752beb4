/** Whole runs of the buffer against direct application, exactly
    (frontend/src/lib/live-buffer.ts, packages/shared/src/live-telemetry.ts). */
module CoalescingRuns {
  import opened LiveTelemetry
  import opened Coalescing
  import opened LiveBuffer

  type Cache = map<string, seq<Row>>

  /** The frames each device has sent since the last flush. */
  type Window = map<string, seq<Reading>>

  function Since(window: Window, device: string): seq<Reading> {
    if device in window then window[device] else []
  }

  function Sent(window: Window, device: string, r: Reading): Window {
    window[device := Since(window, device) + [r]]
  }

  /** The lists with every frame merged on arrival. */
  function DirectStep(direct: Cache, e: Event): Cache {
    if e.Push? then DirectOne(direct, e.device, e.reading) else direct
  }

  /** A page that stays visible and handled. */
  predicate Visible(es: seq<Event>) {
    forall e | e in es :: e != SetHidden(true) && e != SetHandler(false)
  }

  /** After every flush the cached lists, values and order, are the direct ones. */
  ghost predicate AgreesAtFlushes(w: World, direct: Cache, es: seq<Event>)
    decreases es
  {
    es != [] ==>
      && (es[0].Flush? ==> Step(w, es[0]).cache == DirectStep(direct, es[0]))
      && AgreesAtFlushes(Step(w, es[0]), DirectStep(direct, es[0]), es[1..])
  }

  /** No metric's newest time in the window was sent first and last with different
      values while being news to the list. */
  ghost predicate Harmless(rows: seq<Row>, frames: seq<Reading>) {
    var last, first := KeepAll([], frames), KeepAllFirst([], frames);
    |last| == |first| && forall k | 0 <= k < |last| :: Counts(rows, last[k]) ==> last[k].value == first[k].value
  }

  function Merged(cache: Cache, window: Window): Cache {
    map d | d in cache :: MergeAll(cache[d], Since(window, d))
  }

  /** In each window each cached device's ties are harmless. */
  ghost predicate TiesHarmless(cache: Cache, window: Window, es: seq<Event>)
    decreases es
  {
    es != [] ==>
      match es[0]
      case Push(d, r) => TiesHarmless(cache, Sent(window, d, r), es[1..])
      case Flush => (forall d | d in cache :: Harmless(cache[d], Since(window, d))) && TiesHarmless(Merged(cache, window), map[], es[1..])
      case _ => TiesHarmless(cache, window, es[1..])
  }

  // ---- In the middle of a window -----------------------------------------------------------------

  /** The buffer holds the window's kept readings; the direct lists have all its frames. */
  ghost predicate Midway(w: World, direct: Cache, window: Window) {
    && !w.hidden && w.handled && direct == Merged(w.cache, window)
    && forall d :: w.buffer.Pending(d) == KeepAll([], Since(window, d))
  }

  lemma {:induction false} KeepAllMore(pending: seq<Reading>, frames: seq<Reading>, r: Reading)
    ensures KeepAll(pending, frames + [r]) == Keep(KeepAll(pending, frames), r)
    decreases frames
  {
    if frames == [] {
      assert frames + [r] == [r] && [r][1..] == [];
    } else {
      assert (frames + [r])[1..] == frames[1..] + [r];
      KeepAllMore(Keep(pending, frames[0]), frames[1..], r);
    }
  }

  lemma MergeAllMore(rows: seq<Row>, frames: seq<Reading>, r: Reading)
    ensures MergeAll(rows, frames + [r]) == Merge(MergeAll(rows, frames), r)
  {
    MergeAllAppend(rows, frames, [r]);
    assert [r][1..] == [];
  }

  lemma PushMidway(w: World, direct: Cache, window: Window, d: string, r: Reading)
    requires Midway(w, direct, window)
    ensures Midway(Step(w, Push(d, r)), DirectStep(direct, Push(d, r)), Sent(window, d, r))
  {
    hide Keep, Merge, MergeAll, KeepAll;
    var v, after := Step(w, Push(d, r)), Sent(window, d, r);
    forall x ensures v.buffer.Pending(x) == KeepAll([], Since(after, x)) {
      assert w.buffer.Pending(x) == KeepAll([], Since(window, x));
      if x == d { KeepAllMore([], Since(window, d), r); }
    }
    PushDirect(w.cache, direct, window, d, r);
  }

  lemma PushDirect(cache: Cache, direct: Cache, window: Window, d: string, r: Reading)
    requires direct == Merged(cache, window)
    ensures DirectStep(direct, Push(d, r)) == Merged(cache, Sent(window, d, r))
  {
    hide Merge, MergeAll;
    if d in cache {
      MergeAllMore(cache[d], Since(window, d), r);
    }
  }

  /** What a flush leaves in a list. */
  lemma FlushedList(w: World, direct: Cache, window: Window, d: string)
    requires Midway(w, direct, window) && d in w.cache
    ensures d in Step(w, Flush).cache && Step(w, Flush).cache[d] == MergeAll(w.cache[d], KeepAll([], Since(window, d)))
  {
    hide KeepAll;
    assert w.buffer.Pending(d) == KeepAll([], Since(window, d));
  }

  lemma FlushAgrees(w: World, direct: Cache, window: Window)
    requires Midway(w, direct, window)
    ensures Step(w, Flush).cache == direct <==> forall d | d in w.cache :: Harmless(w.cache[d], Since(window, d))
  {
    hide KeepAll, KeepAllFirst, MergeAll, Counts;
    var cache := Step(w, Flush).cache;
    assert cache.Keys == w.cache.Keys == direct.Keys;
    forall d | d in w.cache ensures cache[d] == direct[d] <==> Harmless(w.cache[d], Since(window, d)) {
      FlushedList(w, direct, window, d);
      WindowAgrees(w.cache[d], Since(window, d));
    }
    assert cache == direct <==> forall d | d in w.cache :: cache[d] == direct[d];
  }

  /** A flush that agrees starts the next window. */
  lemma FlushMidway(w: World, direct: Cache, window: Window)
    requires Midway(w, direct, window) && Step(w, Flush).cache == direct
    ensures Midway(Step(w, Flush), direct, map[])
  {
  }

  lemma OtherMidway(w: World, direct: Cache, window: Window, e: Event)
    requires Midway(w, direct, window) && !e.Push? && !e.Flush? && e != SetHidden(true) && e != SetHandler(false)
    ensures Midway(Step(w, e), direct, window)
  {
    var v := Step(w, e);
    assert v.buffer.latest == w.buffer.latest && v.cache == w.cache;
    forall d ensures v.buffer.Pending(d) == KeepAll([], Since(window, d)) {
      assert v.buffer.Pending(d) == w.buffer.Pending(d);
    }
  }

  lemma {:induction false} RunAgrees(w: World, direct: Cache, window: Window, es: seq<Event>)
    requires Midway(w, direct, window) && Visible(es)
    ensures AgreesAtFlushes(w, direct, es) <==> TiesHarmless(w.cache, window, es)
    decreases es
  {
    hide Midway, Harmless;
    if es != [] {
      var e, rest := es[0], es[1..];
      assert e in es && forall x :: x in rest ==> x in es;
      match e {
        case Push(d, r) =>
          PushMidway(w, direct, window, d, r);
          PushKeepsCache(w, d, r);
          RunAgrees(Step(w, e), DirectStep(direct, e), Sent(window, d, r), rest);
        case Flush =>
          FlushAgrees(w, direct, window);
          if Step(w, e).cache == direct {
            FlushMidway(w, direct, window);
            MidwayDirect(w, direct, window);
            RunAgrees(Step(w, e), direct, map[], rest);
          }
        case _ =>
          OtherMidway(w, direct, window, e);
          assert Step(w, e).cache == w.cache;
          RunAgrees(Step(w, e), direct, window, rest);
      }
    }
  }

  lemma PushKeepsCache(w: World, d: string, r: Reading)
    ensures Step(w, Push(d, r)).cache == w.cache
  {
  }

  lemma MidwayDirect(w: World, direct: Cache, window: Window)
    requires Midway(w, direct, window)
    ensures direct == Merged(w.cache, window)
  {
  }

  /** From an empty buffer, whatever is pushed, flushed and subscribed: the cached lists
      are the direct ones after every flush if and only if in each window each cached
      device's ties are harmless. */
  lemma CoalescingAgreesExactly(w: World, es: seq<Event>)
    requires w.buffer.latest == map[] && !w.hidden && w.handled && Visible(es)
    ensures AgreesAtFlushes(w, w.cache, es) <==> TiesHarmless(w.cache, map[], es)
  {
    assert Merged(w.cache, map[]) == w.cache;
    RunAgrees(w, w.cache, map[], es);
  }
}
