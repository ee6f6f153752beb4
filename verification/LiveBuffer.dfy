/** The coalescing buffer between the live socket and the caches
    (frontend/src/lib/live-buffer.ts, frontend/src/hooks/useRealtime.ts). */
module LiveBuffer {
  import opened Wrappers
  import opened LiveTelemetry
  import opened Coalescing

  datatype LivePoint = LivePoint(t: int, v: real)

  /** A charted series: one metric of one device. */
  datatype SeriesKey = SeriesKey(device: string, metric: string)

  type Batch = map<string, seq<Reading>>

  /** What an unsubscribe function closes over: a listener and the set object it was
      added to, the `of`th made for its series. */
  datatype Handle = Handle(key: SeriesKey, of: nat, listener: int)

  // ---- The buffer as a value ----------------------------------------------------

  /** `sets` holds every listener set ever made, the ones no longer in the map too:
      a handle may still reach them. */
  datatype State = State(
    latest: Batch,
    series: map<SeriesKey, seq<LivePoint>>,
    listeners: map<SeriesKey, nat>,
    sets: map<(SeriesKey, nat), set<int>>,
    made: nat,
    scheduled: bool)
  {
    function Pending(device: string): seq<Reading> {
      if device in latest then latest[device] else []
    }

    function PendingPoints(key: SeriesKey): seq<LivePoint> {
      if key in series then series[key] else []
    }

    function Listeners(key: SeriesKey): set<int> {
      if key in listeners && (key, listeners[key]) in sets then sets[(key, listeners[key])] else {}
    }

    /** Points are only kept for series somebody draws; anything kept has a flush
        coming. */
    ghost predicate Valid() {
      && series.Keys <= listeners.Keys
      && (forall k | k in listeners :: (k, listeners[k]) in sets && sets[(k, listeners[k])] != {})
      && (forall id | id in sets :: id.1 < made)
      && (forall d | d in latest :: DistinctMetrics(latest[d]))
      && (latest != map[] || series != map[] ==> scheduled)
    }

    function Push(device: string, r: Reading): State {
      var key := SeriesKey(device, r.metric);
      this.(
        latest := latest[device := Keep(Pending(device), r)],
        series := if key in listeners then series[key := PendingPoints(key) + [LivePoint(r.t, r.value)]] else series,
        scheduled := true)
    }

    function Flushed(): State {
      this.(latest := map[], series := map[], scheduled := false)
    }

    function Subscribe(key: SeriesKey, listener: int): State {
      if key in listeners then this.(sets := sets[(key, listeners[key]) := Listeners(key) + {listener}])
      else this.(listeners := listeners[key := made], sets := sets[(key, made) := {listener}], made := made + 1)
    }

    /** What subscribing hands back. */
    function HandleFor(key: SeriesKey, listener: int): Handle {
      Handle(key, if key in listeners then listeners[key] else made, listener)
    }

    /** Whichever set the map holds by now goes when the handle's own is empty. */
    function Unsubscribe(h: Handle): State
      requires (h.key, h.of) in sets
    {
      var left := sets[(h.key, h.of)] - {h.listener};
      var after := this.(sets := sets[(h.key, h.of) := left]);
      if left == {} then after.(listeners := listeners - {h.key}, series := series - {h.key}) else after
    }
  }

  const EMPTY: State := State(map[], map[], map[], map[], 0, false)

  // ---- The class ------------------------------------------------------------------

  class LiveBuffer {
    var latest: Batch
    var series: map<SeriesKey, seq<LivePoint>>
    var listeners: map<SeriesKey, nat>
    var sets: map<(SeriesKey, nat), set<int>>
    var made: nat
    var scheduled: bool
    var hasHandler: bool

    function Value(): State
      reads this
    {
      State(latest, series, listeners, sets, made, scheduled)
    }

    ghost predicate Valid()
      reads this
    {
      Value().Valid()
    }

    constructor ()
      ensures Valid() && Value() == EMPTY && !hasHandler
    {
      latest, series, listeners, sets, made := map[], map[], map[], map[], 0;
      scheduled, hasHandler := false, false;
    }

    method SetLatestHandler(present: bool)
      modifies `hasHandler
      ensures hasHandler == present
    {
      hasHandler := present;
    }

    /** `schedule` tells whether the call asks for a flush in `intervalMs`. */
    method Push(hidden: bool, device: string, metric: string, value: real, t: int) returns (schedule: bool)
      requires Valid()
      modifies `latest, `series, `scheduled
      ensures Valid()
      ensures Value() == if hidden then old(Value()) else old(Value()).Push(device, Reading(metric, value, t))
      ensures schedule == (!hidden && !old(scheduled))
    {
      schedule := false;
      if hidden {
        return;
      }
      PushKeepsValid(Value(), device, Reading(metric, value, t));
      KeepLatest(device, Reading(metric, value, t));
      KeepPoint(SeriesKey(device, metric), LivePoint(t, value));
      if !scheduled {
        scheduled := true;
        schedule := true;
      }
    }

    /** The newest reading of each metric, the last of equal times. */
    method KeepLatest(device: string, r: Reading)
      modifies `latest
      ensures latest == old(latest)[device := Keep(old(Value()).Pending(device), r)]
    {
      var perDevice: seq<Reading> := [];
      if device in latest {
        perDevice := latest[device];
      }
      var k := IndexOf(perDevice, r.metric);
      if k == |perDevice| {
        perDevice := perDevice + [r];
      } else if r.t >= perDevice[k].t {
        perDevice := perDevice[k := r];
      }
      latest := latest[device := perDevice];
    }

    /** Points are only kept for a series somebody draws. */
    method KeepPoint(key: SeriesKey, point: LivePoint)
      modifies `series
      ensures series == if key in listeners then old(series)[key := old(Value()).PendingPoints(key) + [point]] else old(series)
    {
      if key in listeners {
        var points: seq<LivePoint> := [];
        if key in series {
          points := series[key];
        }
        points := points + [point];
        series := series[key := points];
      }
    }

    /** Hands back what the unsubscribe function needs. */
    method SubscribeSeries(key: SeriesKey, listener: int) returns (h: Handle)
      requires Valid()
      modifies `listeners, `sets, `made
      ensures Valid() && Value() == old(Value()).Subscribe(key, listener)
      ensures h == old(Value()).HandleFor(key, listener) && (key, h.of) in sets && listener in sets[(key, h.of)]
    {
      ghost var was := sets;
      var of := if key in listeners then listeners[key] else made;
      if key !in listeners {
        sets := sets[(key, of) := {}];
        listeners := listeners[key := of];
        made := made + 1;
      }
      sets := sets[(key, of) := sets[(key, of)] + {listener}];
      h := Handle(key, of, listener);
      assert {} + {listener} == {listener};
      assert was[(key, of) := {}][(key, of) := {listener}] == was[(key, of) := {listener}];
    }

    /** The function `subscribeSeries` hands back, whenever and however often it is
        called. */
    method UnsubscribeSeries(h: Handle)
      requires Valid() && (h.key, h.of) in sets
      modifies `listeners, `sets, `series
      ensures Valid() && Value() == old(Value()).Unsubscribe(h)
    {
      var left := sets[(h.key, h.of)] - {h.listener};
      sets := sets[(h.key, h.of) := left];
      if left == {} {
        listeners := listeners - {h.key};
        series := series - {h.key};
      }
    }

    /** Drops everything pending. */
    method Clear()
      requires Valid()
      modifies `latest, `series
      ensures Valid() && latest == map[] && series == map[]
    {
      latest := map[];
      series := map[];
    }

    /** The batch handed to the handler, if any, and what every listener of a
        series is called with. */
    method Flush(hidden: bool) returns (batch: Option<Batch>, drawn: map<SeriesKey, seq<LivePoint>>)
      requires Valid()
      modifies `latest, `series, `scheduled
      ensures Valid() && Value() == old(Value()).Flushed()
      ensures batch == if hidden || old(latest) == map[] || !hasHandler then None else Some(old(latest))
      ensures drawn == if hidden then map[] else old(series)
    {
      scheduled := false;
      batch, drawn := None, map[];
      if hidden {
        latest, series := map[], map[];
        return;
      }
      var taken, points := latest, series;
      latest, series := map[], map[];
      if taken != map[] && hasHandler {
        batch := Some(taken);
      }
      drawn := map k | k in points && k in listeners :: points[k];
      assert drawn == points;
    }
  }

  // ---- Whole runs -------------------------------------------------------------------

  datatype Event =
    | Push(device: string, reading: Reading)
    | Flush
    | Subscribe(key: SeriesKey, listener: int)
    | Unsubscribe(handle: Handle)
    | SetHidden(hidden: bool)
    | SetHandler(present: bool)

  /** The buffer, the page, whether a handler takes the batches, the latest lists SWR
      holds data for, and all each listener has been handed so far. */
  datatype World = World(
    buffer: State,
    hidden: bool,
    handled: bool,
    cache: map<string, seq<Row>>,
    drawn: map<(SeriesKey, int), seq<LivePoint>>)
  {
    function Drawn(key: SeriesKey, listener: int): seq<LivePoint> {
      if (key, listener) in drawn then drawn[(key, listener)] else []
    }
  }

  /** `applyLatest`: each cached device's list takes the batch's readings in order. */
  function ApplyBatch(cache: map<string, seq<Row>>, batch: Batch): map<string, seq<Row>> {
    map d | d in cache :: if d in batch then MergeAll(cache[d], batch[d]) else cache[d]
  }

  function Deliver(w: World): map<(SeriesKey, int), seq<LivePoint>> {
    var keys := set k, l | k in w.buffer.series && l in w.buffer.Listeners(k) :: (k, l);
    map kl | kl in w.drawn.Keys + keys ::
      if kl in keys then w.Drawn(kl.0, kl.1) + w.buffer.series[kl.0] else w.Drawn(kl.0, kl.1)
  }

  function Step(w: World, e: Event): World {
    match e
    case Push(d, r) => if w.hidden then w else w.(buffer := w.buffer.Push(d, r))
    case Flush =>
      if w.hidden then w.(buffer := w.buffer.Flushed())
      else World(w.buffer.Flushed(), false, w.handled, if w.handled then ApplyBatch(w.cache, w.buffer.latest) else w.cache, Deliver(w))
    case Subscribe(k, l) => w.(buffer := w.buffer.Subscribe(k, l))
    case Unsubscribe(h) => if (h.key, h.of) in w.buffer.sets then w.(buffer := w.buffer.Unsubscribe(h)) else w
    case SetHidden(h) => w.(hidden := h)
    case SetHandler(present) => w.(handled := present)
  }

  function Run(w: World, es: seq<Event>): World
    decreases es
  {
    if es == [] then w else Run(Step(w, es[0]), es[1..])
  }

  lemma PushKeepsValid(s: State, device: string, r: Reading)
    requires s.Valid()
    ensures s.Push(device, r).Valid()
  {
    KeepIsDistinct(s.Pending(device), r);
  }

  lemma SubscribeKeepsValid(s: State, key: SeriesKey, listener: int)
    requires s.Valid()
    ensures s.Subscribe(key, listener).Valid()
  {
    assert forall id | id in s.Subscribe(key, listener).sets :: id in s.sets || id.1 == s.made || id == (key, s.listeners[key]);
  }

  lemma UnsubscribeKeepsValid(s: State, h: Handle)
    requires s.Valid() && (h.key, h.of) in s.sets
    ensures s.Unsubscribe(h).Valid()
  {
  }

  lemma StepKeepsValid(w: World, e: Event)
    requires w.buffer.Valid()
    ensures Step(w, e).buffer.Valid()
  {
    hide State.Push, State.Subscribe, State.Unsubscribe;
    match e
    case Push(d, r) => PushKeepsValid(w.buffer, d, r);
    case Subscribe(k, l) => SubscribeKeepsValid(w.buffer, k, l);
    case Unsubscribe(h) =>
      if (h.key, h.of) in w.buffer.sets { UnsubscribeKeepsValid(w.buffer, h); }
    case _ =>
  }

  lemma {:induction false} RunKeepsValid(w: World, es: seq<Event>)
    requires w.buffer.Valid()
    ensures Run(w, es).buffer.Valid()
    decreases es
  {
    if es != [] {
      StepKeepsValid(w, es[0]);
      RunKeepsValid(Step(w, es[0]), es[1..]);
    }
  }

  function DirectOne(cache: map<string, seq<Row>>, device: string, r: Reading): map<string, seq<Row>> {
    var merged := MergeLatest(if device in cache then Some(cache[device]) else None, r);
    if merged.Some? then cache[device := merged.value] else cache
  }

  /** The simple form: every frame merged into its device's list as it arrives. */
  function Direct(cache: map<string, seq<Row>>, es: seq<Event>): map<string, seq<Row>>
    decreases es
  {
    if es == [] then cache
    else Direct(if es[0].Push? then DirectOne(cache, es[0].device, es[0].reading) else cache, es[1..])
  }

  /** A frame that repeats the time of the pending reading of its metric with
      another value. */
  ghost predicate Clashes(pending: seq<Reading>, r: Reading) {
    exists p :: p in pending && p.metric == r.metric && p.t == r.t && p.value != r.value
  }

  /** The page stays visible, a handler there, and no pushed frame clashes with a pending one. */
  ghost predicate Smooth(w: World, es: seq<Event>)
    decreases es
  {
    && !w.hidden && w.handled
    && (es != [] ==>
          && (es[0].Push? ==> !Clashes(w.buffer.Pending(es[0].device), es[0].reading))
          && Smooth(Step(w, es[0]), es[1..]))
  }

  /** What a device's list would be if its pending readings were applied now. */
  ghost function Caught(w: World): map<string, seq<Row>> {
    map d | d in w.cache :: MergeAll(w.cache[d], w.buffer.Pending(d))
  }

  lemma PushIsDirect(w: World, d: string, r: Reading)
    requires w.buffer.Valid() && !w.hidden && !Clashes(w.buffer.Pending(d), r)
    ensures Caught(Step(w, Push(d, r))) == DirectOne(Caught(w), d, r)
  {
    hide Merge, Keep, KeepFirst;
    if d in w.cache {
      MergeOneMore(w.cache[d], w.buffer.Pending(d), r);
      NoClashSameKeep(w.buffer.Pending(d), r);
    }
  }

  lemma FlushIsDirect(w: World)
    requires !w.hidden && w.handled
    ensures Caught(Step(w, Flush)) == Caught(w)
  {
  }

  lemma StepIsDirect(w: World, e: Event)
    requires w.buffer.Valid() && !w.hidden && w.handled
    requires e.Push? ==> !Clashes(w.buffer.Pending(e.device), e.reading)
    ensures Caught(Step(w, e)) == if e.Push? then DirectOne(Caught(w), e.device, e.reading) else Caught(w)
  {
    hide MergeAll, Merge, DirectOne;
    match e
    case Push(d, r) => PushIsDirect(w, d, r);
    case Flush => FlushIsDirect(w);
    case _ => assert Step(w, e).buffer.latest == w.buffer.latest;
  }

  lemma NoClashSameKeep(pending: seq<Reading>, r: Reading)
    requires !Clashes(pending, r)
    ensures Keep(pending, r) == KeepFirst(pending, r)
  {
    var k := IndexOf(pending, r.metric);
    if k < |pending| {
      assert pending[k] in pending;
      assert pending[k].t == r.t ==> pending[k] == r;
    }
  }

  lemma {:induction false} RunIsDirect(w: World, es: seq<Event>)
    requires w.buffer.Valid() && Smooth(w, es)
    ensures Caught(Run(w, es)) == Direct(Caught(w), es)
    decreases es
  {
    if es != [] {
      StepIsDirect(w, es[0]);
      StepKeepsValid(w, es[0]);
      RunIsDirect(Step(w, es[0]), es[1..]);
    }
  }

  lemma {:induction false} RunExtend(w: World, es: seq<Event>, e: Event)
    ensures Run(w, es + [e]) == Step(Run(w, es), e)
    decreases es
  {
    if es == [] {
      assert es + [e] == [e] && [e][1..] == [];
      assert Run(w, [e]) == Run(Step(w, e), []);
    } else {
      assert (es + [e])[1..] == es[1..] + [e];
      RunExtend(Step(w, es[0]), es[1..], e);
    }
  }

  /** Coalescing refines direct application: from an empty buffer, after any run of
      pushes, flushes and subscriptions that ends in a flush, every cached latest
      list — values and order — is what merging each frame on arrival gives. */
  lemma CoalescingRefinesDirect(w: World, es: seq<Event>)
    requires w.buffer.Valid() && w.buffer.latest == map[]
    requires Smooth(w, es + [Flush])
    ensures Run(w, es + [Flush]).cache == Direct(w.cache, es + [Flush])
    ensures !Run(w, es + [Flush]).buffer.scheduled
  {
    RunIsDirect(w, es + [Flush]);
    RunExtend(w, es, Flush);
    var end := Run(w, es + [Flush]);
    assert Caught(w) == w.cache;
    RunKeepsValid(w, es + [Flush]);
    assert end.buffer.latest == map[];
    assert Caught(end) == end.cache;
  }

  /** The points of one series a run pushes. */
  function Pushed(key: SeriesKey, es: seq<Event>): seq<LivePoint> {
    if es == [] then []
    else if es[0].Push? && SeriesKey(es[0].device, es[0].reading.metric) == key then
      [LivePoint(es[0].reading.t, es[0].reading.value)] + Pushed(key, es[1..])
    else Pushed(key, es[1..])
  }

  /** All a listener has been or will be handed of what has arrived. */
  function Received(w: World, key: SeriesKey, l: int): seq<LivePoint> {
    w.Drawn(key, l) + w.buffer.PendingPoints(key)
  }

  /** Who an unsubscribe call takes out: its own listener while its set is the series'
      present one; but when it is not, everybody, if its own set is empty by then. */
  lemma UnsubscribeDrops(s: State, h: Handle, l: int)
    requires s.Valid() && (h.key, h.of) in s.sets && l in s.Listeners(h.key)
    ensures l !in s.Unsubscribe(h).Listeners(h.key) <==>
      if h.of == s.listeners[h.key] then h.listener == l else s.sets[(h.key, h.of)] <= {h.listener}
  {
  }

  /** So a second call of one function can silence a later subscriber. */
  lemma SecondCallDrops(key: SeriesKey, a: int, b: int)
    ensures var h := EMPTY.HandleFor(key, a);
      var one := EMPTY.Subscribe(key, a);
      (key, h.of) in one.sets &&
      var two := one.Unsubscribe(h).Subscribe(key, b);
      b in two.Listeners(key) && (key, h.of) in two.sets && two.Unsubscribe(h).Listeners(key) == {}
  {
    var one := EMPTY.Subscribe(key, a);
    assert one.sets[(key, 0)] - {a} == {};
  }

  lemma PushAddsPoint(w: World, d: string, r: Reading, key: SeriesKey, l: int)
    requires !w.hidden && l in w.buffer.Listeners(key)
    ensures l in Step(w, Push(d, r)).buffer.Listeners(key)
    ensures Received(Step(w, Push(d, r)), key, l)
         == Received(w, key, l) + if SeriesKey(d, r.metric) == key then [LivePoint(r.t, r.value)] else []
  {
    if SeriesKey(d, r.metric) == key {
      Chain(w.Drawn(key, l), Received(w, key, l), w.buffer.PendingPoints(key), [LivePoint(r.t, r.value)]);
    }
  }

  lemma FlushMovesPoints(w: World, key: SeriesKey, l: int)
    requires !w.hidden && l in w.buffer.Listeners(key)
    ensures l in Step(w, Flush).buffer.Listeners(key)
    ensures Received(Step(w, Flush), key, l) == Received(w, key, l)
  {
    var w' := Step(w, Flush);
    assert w'.buffer.PendingPoints(key) == [];
    if key in w.buffer.series {
      assert w'.Drawn(key, l) == w.Drawn(key, l) + w.buffer.series[key];
    } else {
      assert w'.Drawn(key, l) == w.Drawn(key, l);
    }
  }

  /** A call that may take the listener out: its own handle's, or one whose set is not
      the series' present one. */
  predicate Drops(e: Event, key: SeriesKey, of: nat, l: int) {
    e.Unsubscribe? && e.handle.key == key && (e.handle.listener == l || e.handle.of != of)
  }

  lemma SubscribeKeepsPoints(s: State, k: SeriesKey, m: int, key: SeriesKey, l: int)
    requires l in s.Listeners(key)
    ensures var after := s.Subscribe(k, m); l in after.Listeners(key) && after.listeners[key] == s.listeners[key] && after.series == s.series
  {
  }

  lemma UnsubscribeKeepsPoints(s: State, h: Handle, key: SeriesKey, l: int)
    requires l in s.Listeners(key) && (h.key, h.of) in s.sets && !Drops(Unsubscribe(h), key, s.listeners[key], l)
    ensures var after := s.Unsubscribe(h);
      l in after.Listeners(key) && after.listeners[key] == s.listeners[key] && after.PendingPoints(key) == s.PendingPoints(key)
  {
    if h.key == key {
      assert l in s.sets[(h.key, h.of)] - {h.listener};
    }
  }

  /** A step that leaves the points as they are. */
  lemma QuietStep(w: World, v: World, key: SeriesKey, l: int)
    requires v.drawn == w.drawn && v.buffer.PendingPoints(key) == w.buffer.PendingPoints(key)
    ensures Received(v, key, l) == Received(w, key, l) + []
  {
  }

  lemma PushedOne(key: SeriesKey, e: Event)
    ensures Pushed(key, [e]) == if e.Push? && SeriesKey(e.device, e.reading.metric) == key then [LivePoint(e.reading.t, e.reading.value)] else []
  {
    assert [e][1..] == [] && Pushed(key, []) == [];
  }

  lemma StepLosesNoPoint(w: World, e: Event, key: SeriesKey, l: int)
    requires !w.hidden && l in w.buffer.Listeners(key)
    requires !Drops(e, key, w.buffer.listeners[key], l) && e != SetHidden(true)
    ensures l in Step(w, e).buffer.Listeners(key) && Step(w, e).buffer.listeners[key] == w.buffer.listeners[key]
    ensures Received(Step(w, e), key, l) == Received(w, key, l) + Pushed(key, [e])
  {
    hide State.Subscribe, State.Unsubscribe, Deliver, Received, Pushed;
    PushedOne(key, e);
    match e
    case Push(d, r) => PushAddsPoint(w, d, r, key, l);
    case Flush => FlushMovesPoints(w, key, l);
    case Subscribe(k, m) =>
      SubscribeKeepsPoints(w.buffer, k, m, key, l);
      QuietStep(w, Step(w, e), key, l);
    case Unsubscribe(h) =>
      if (h.key, h.of) in w.buffer.sets { UnsubscribeKeepsPoints(w.buffer, h, key, l); }
      QuietStep(w, Step(w, e), key, l);
    case SetHidden(_) => QuietStep(w, Step(w, e), key, l);
    case SetHandler(_) => QuietStep(w, Step(w, e), key, l);
  }

  /** Charts lose nothing: while a listener stays subscribed and the page visible,
      what it was handed followed by what is pending is every point pushed to its
      series, in order — through other listeners coming and going. */
  lemma {:induction false} ChartsLoseNothing(w: World, es: seq<Event>, key: SeriesKey, l: int)
    requires w.buffer.Valid() && !w.hidden && l in w.buffer.Listeners(key)
    requires forall i | 0 <= i < |es| :: !Drops(es[i], key, w.buffer.listeners[key], l) && es[i] != SetHidden(true)
    ensures Received(Run(w, es), key, l) == Received(w, key, l) + Pushed(key, es)
    decreases es
  {
    if es != [] {
      StepLosesNoPoint(w, es[0], key, l);
      StepKeepsValid(w, es[0]);
      StepStaysVisible(w, es[0]);
      ChartsLoseNothing(Step(w, es[0]), es[1..], key, l);
      PushedFirst(key, es);
      Chain(Received(w, key, l), Received(Step(w, es[0]), key, l), Pushed(key, [es[0]]), Pushed(key, es[1..]));
    }
  }

  lemma Chain<T>(a: seq<T>, b: seq<T>, p: seq<T>, q: seq<T>)
    requires b == a + p
    ensures b + q == a + (p + q)
  {
  }

  lemma StepStaysVisible(w: World, e: Event)
    requires !w.hidden && e != SetHidden(true)
    ensures !Step(w, e).hidden
  {
  }

  lemma PushedFirst(key: SeriesKey, es: seq<Event>)
    requires es != []
    ensures Pushed(key, es) == Pushed(key, [es[0]]) + Pushed(key, es[1..])
  {
    assert [es[0]][1..] == [];
    assert Pushed(key, []) == [];
  }

  /** While hidden nothing gets in: pushes are dropped, and a flush that finds the
      page hidden hands out nothing and empties the buffer. */
  lemma {:induction false} HiddenDropsAll(w: World, es: seq<Event>)
    requires w.hidden && forall e | e in es :: e.Push? || e.Flush?
    ensures Run(w, es).cache == w.cache && Run(w, es).drawn == w.drawn
    ensures Run(w, es).buffer == if Flush in es then w.buffer.Flushed() else w.buffer
    decreases es
  {
    if es != [] {
      HiddenDropsAll(Step(w, es[0]), es[1..]);
    }
  }
}
