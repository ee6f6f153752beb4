/** When a metric is published (firmware/src/io.cpp): profiles, dead bands and
    heartbeats on a 32-bit millisecond clock that wraps. Readings and dead bands
    are reals; a missing reading is `None`. */
module PublishProfile {
  import opened Wrappers

  datatype Mode = Periodic | OnChange | Streaming

  const CLOCK: nat := 0x1_0000_0000
  const ON_CHANGE_MIN_GAP_MS: nat := 100

  function DefaultIntervalMs(mode: Mode): nat {
    match mode
    case OnChange => 300000
    case Streaming => 1000
    case Periodic => 15000
  }

  function ParseMode(publish: string): Mode {
    if publish == "on_change" then OnChange
    else if publish == "streaming" then Streaming
    else Periodic
  }

  /** Seconds to milliseconds in the board's 32-bit `unsigned long`. */
  function IntervalMs(mode: Mode, seconds: int): nat {
    if seconds > 0 then (seconds * 1000) % CLOCK else DefaultIntervalMs(mode)
  }

  datatype Metric = Metric(
    key: string,
    isBool: bool,
    mode: Mode,
    intervalMs: nat,
    deadband: real,
    bound: bool,
    lastValue: Option<real>,
    lastPublishMs: nat)

  /** One entry of the config message. */
  datatype ProfileItem = ProfileItem(key: string, publish: string, seconds: int, deadband: real)

  // ---- One metric ------------------------------------------------------------------

  function Abs(x: real): real {
    if x < 0.0 then -x else x
  }

  predicate Changed(m: Metric, value: real)
    requires m.lastValue.Some?
  {
    if m.isBool then value != m.lastValue.value else Abs(value - m.lastValue.value) > m.deadband
  }

  /** Unsigned subtraction of two clock readings. */
  function SinceLast(m: Metric, now: nat): nat {
    (now - m.lastPublishMs) % CLOCK
  }

  predicate ShouldSend(m: Metric, now: nat, value: real) {
    if m.lastValue.None? then true
    else if m.mode == OnChange then
      (Changed(m, value) && SinceLast(m, now) >= ON_CHANGE_MIN_GAP_MS) || SinceLast(m, now) >= m.intervalMs
    else SinceLast(m, now) >= m.intervalMs
  }

  /** Whether a publish is tried. */
  predicate Tries(m: Metric, now: nat, reading: Option<real>) {
    m.bound && reading.Some? && ShouldSend(m, now, reading.value)
  }

  function PollOne(m: Metric, now: nat, reading: Option<real>, ok: bool): Metric {
    if Tries(m, now, reading) && ok then m.(lastValue := reading, lastPublishMs := now) else m
  }

  function ProfileOne(m: Metric, item: ProfileItem): Metric {
    var mode := ParseMode(item.publish);
    m.(mode := mode, intervalMs := IntervalMs(mode, item.seconds), deadband := item.deadband)
  }

  // ---- The board's vector -------------------------------------------------------------

  function FindMetric(ms: seq<Metric>, key: string): (k: nat)
    ensures k <= |ms|
    ensures k < |ms| ==> ms[k].key == key
  {
    if ms == [] || ms[0].key == key then 0 else 1 + FindMetric(ms[1..], key)
  }

  function Profiled(ms: seq<Metric>, items: seq<ProfileItem>): (r: seq<Metric>)
    ensures |r| == |ms|
    decreases items
  {
    if items == [] then ms
    else
      var k := FindMetric(ms, items[0].key);
      Profiled(if k < |ms| then ms[k := ProfileOne(ms[k], items[0])] else ms, items[1..])
  }

  /** The last item for a key. */
  function LastFor(items: seq<ProfileItem>, key: string): Option<ProfileItem>
    decreases items
  {
    if items == [] then None
    else
      var later := LastFor(items[1..], key);
      if later.Some? then later else if items[0].key == key then Some(items[0]) else None
  }

  lemma {:induction false} FindIgnoresProfile(ms: seq<Metric>, k: nat, item: ProfileItem, key: string)
    requires k < |ms|
    ensures FindMetric(ms[k := ProfileOne(ms[k], item)], key) == FindMetric(ms, key)
  {
    var after := ms[k := ProfileOne(ms[k], item)];
    if k == 0 {
      assert after[1..] == ms[1..];
    } else {
      assert after[1..] == ms[1..][k - 1 := ProfileOne(ms[k], item)];
      FindIgnoresProfile(ms[1..], k - 1, item, key);
    }
  }

  /** A message sets the first metric of each key it names to its last item for that
      key; every other metric, and what was last sent, stays. */
  lemma {:induction false} ProfiledIs(ms: seq<Metric>, items: seq<ProfileItem>, k: nat)
    requires k < |ms|
    ensures var last := LastFor(items, ms[k].key);
      Profiled(ms, items)[k] == if FindMetric(ms, ms[k].key) == k && last.Some? then ProfileOne(ms[k], last.value) else ms[k]
    ensures Profiled(ms, items)[k].lastValue == ms[k].lastValue && Profiled(ms, items)[k].lastPublishMs == ms[k].lastPublishMs
    decreases items
  {
    if items != [] {
      var j := FindMetric(ms, items[0].key);
      if j < |ms| {
        var next := ms[j := ProfileOne(ms[j], items[0])];
        FindIgnoresProfile(ms, j, items[0], ms[k].key);
        ProfiledIs(next, items[1..], k);
      } else {
        FindMissing(ms, items[0].key, k);
        ProfiledIs(ms, items[1..], k);
      }
    }
  }

  lemma {:induction false} FindMissing(ms: seq<Metric>, key: string, k: nat)
    requires k < |ms| && FindMetric(ms, key) == |ms|
    ensures ms[k].key != key
  {
    if k > 0 { FindMissing(ms[1..], key, k - 1); }
  }

  class Io {
    var metrics: array<Metric>

    constructor (metrics: array<Metric>)
      ensures this.metrics == metrics
    {
      this.metrics := metrics;
    }

    /** `ioPublishMetrics`: what each input reads and whether the broker takes each
        publish come from outside. */
    method IoPublishMetrics(now: nat, readings: seq<Option<real>>, accepted: seq<bool>) returns (tried: seq<bool>)
      requires now < CLOCK && |readings| == |accepted| == metrics.Length
      modifies metrics
      ensures |tried| == metrics.Length
      ensures forall i | 0 <= i < metrics.Length ::
        && metrics[i] == PollOne(old(metrics[i]), now, readings[i], accepted[i])
        && tried[i] == Tries(old(metrics[i]), now, readings[i])
    {
      tried := [];
      for i := 0 to metrics.Length
        invariant |tried| == i
        invariant forall j | 0 <= j < i ::
          && metrics[j] == PollOne(old(metrics[j]), now, readings[j], accepted[j])
          && tried[j] == Tries(old(metrics[j]), now, readings[j])
        invariant forall j | i <= j < metrics.Length :: metrics[j] == old(metrics[j])
      {
        var m := metrics[i];
        if !m.bound || readings[i].None? {
          tried := tried + [false];
          continue;
        }
        var value := readings[i].value;
        var first := m.lastValue.None?;
        var sinceLast := (now - m.lastPublishMs) % CLOCK;
        var send := false;
        if first {
          send := true;
        } else if m.mode == OnChange {
          var changed := Changed(m, value);
          if changed && sinceLast >= ON_CHANGE_MIN_GAP_MS {
            send := true;
          } else if sinceLast >= m.intervalMs {
            send := true;
          }
        } else {
          send := sinceLast >= m.intervalMs;
        }
        tried := tried + [send];
        if send && accepted[i] {
          metrics[i] := m.(lastValue := Some(value), lastPublishMs := now);
        }
      }
    }

    /** `applyProfile`, on the parsed message. */
    method ApplyProfile(items: seq<ProfileItem>)
      modifies metrics
      ensures metrics[..] == Profiled(old(metrics[..]), items)
    {
      for i := 0 to |items|
        invariant Profiled(metrics[..], items[i..]) == Profiled(old(metrics[..]), items)
      {
        ghost var before := metrics[..];
        assert items[i..][0] == items[i] && items[i..][1..] == items[i + 1..];
        var k := FindMetric(metrics[..], items[i].key);
        if k == metrics.Length { continue; }
        metrics[k] := ProfileOne(metrics[k], items[i]);
        assert metrics[..] == before[k := ProfileOne(before[k], items[i])];
      }
      assert items[|items|..] == [];
    }
  }

  // ---- Runs of one metric ---------------------------------------------------------------

  datatype Event =
    | Poll(at: nat, reading: Option<real>, ok: bool)
    | Profile(mode: Mode, seconds: int, deadband: real)

  /** The metric, the true time and the true time of its last publish. */
  datatype State = State(m: Metric, time: nat, lastAt: nat)

  function Step(s: State, e: Event): State {
    match e
    case Poll(at, reading, ok) =>
      var m := PollOne(s.m, at % CLOCK, reading, ok);
      State(m, at, if Sends(s, e) then at else s.lastAt)
    case Profile(mode, seconds, deadband) =>
      s.(m := s.m.(mode := mode, intervalMs := IntervalMs(mode, seconds), deadband := deadband))
  }

  /** A publish that succeeds. */
  predicate Sends(s: State, e: Event) {
    e.Poll? && Tries(s.m, e.at % CLOCK, e.reading) && e.ok
  }

  /** The board's record agrees with the true times. */
  predicate Tracks(s: State) {
    s.m.lastValue.Some? ==> s.m.lastPublishMs == s.lastAt % CLOCK && s.lastAt <= s.time
  }

  predicate InOrder(s: State, e: Event) {
    e.Poll? ==> s.time <= e.at
  }

  lemma WrappedElapsed(a: nat, b: nat)
    requires a <= b
    ensures ((b % CLOCK) - (a % CLOCK)) % CLOCK == (b - a) % CLOCK
    ensures (b - a) % CLOCK <= b - a
    ensures b - a < CLOCK ==> (b - a) % CLOCK == b - a
  {
    var p, q := a / CLOCK, b / CLOCK;
    assert a == p * CLOCK + a % CLOCK && b == q * CLOCK + b % CLOCK;
    var x := (b % CLOCK) - (a % CLOCK);
    assert b - a == x + (q - p) * CLOCK;
    MultipleDropped(x, q - p);
  }

  lemma {:induction false} MultipleDropped(x: int, k: int)
    ensures (x + k * CLOCK) % CLOCK == x % CLOCK
    decreases if k < 0 then -k else k
  {
    if k > 0 {
      MultipleDropped(x, k - 1);
      assert x + k * CLOCK == (x + (k - 1) * CLOCK) + CLOCK;
    } else if k < 0 {
      MultipleDropped(x, k + 1);
      assert x + k * CLOCK == (x + (k + 1) * CLOCK) - CLOCK;
    }
  }

  lemma StepTracks(s: State, e: Event)
    requires Tracks(s) && InOrder(s, e)
    ensures Tracks(Step(s, e))
  {
  }

  /** The least the board waits between publishes in its present mode. */
  function Floor(m: Metric): nat {
    if m.mode == OnChange && ON_CHANGE_MIN_GAP_MS < m.intervalMs then ON_CHANGE_MIN_GAP_MS else m.intervalMs
  }

  ghost predicate OrderedRun(s: State, es: seq<Event>)
    decreases es
  {
    es != [] ==> InOrder(s, es[0]) && OrderedRun(Step(s, es[0]), es[1..])
  }

  ghost function Run(s: State, es: seq<Event>): State
    decreases es
  {
    if es == [] then s else Run(Step(s, es[0]), es[1..])
  }

  lemma {:induction false} RunTracks(s: State, es: seq<Event>)
    requires Tracks(s) && OrderedRun(s, es)
    ensures Tracks(Run(s, es))
    decreases es
  {
    if es != [] {
      StepTracks(s, es[0]);
      RunTracks(Step(s, es[0]), es[1..]);
    }
  }

  /** Whatever came before — polls, failures, profile changes, any number of clock
      wraps — a publish comes at least the present floor after the one before it. */
  lemma PublishesSpaced(start: State, es: seq<Event>, e: Event)
    requires Tracks(start) && OrderedRun(start, es)
    requires InOrder(Run(start, es), e) && Sends(Run(start, es), e) && Run(start, es).m.lastValue.Some?
    ensures e.at - Run(start, es).lastAt >= Floor(Run(start, es).m)
  {
    var s := Run(start, es);
    RunTracks(start, es);
    WrappedElapsed(s.lastAt, e.at);
  }

  /** The interval is the seconds asked for exactly when the 32-bit product holds
      them. `seconds` is the board's `long`, which reaches further. */
  lemma IntervalExact(mode: Mode, seconds: int)
    requires seconds > 0
    ensures IntervalMs(mode, seconds) == seconds * 1000 <==> seconds <= 4294967
  {
  }

  /** The floor is 100 ms on change exactly when what is left of the product is no
      less; in the other modes it is the interval itself. */
  lemma FloorIs(m: Metric, seconds: int)
    requires m.intervalMs == IntervalMs(m.mode, seconds)
    ensures m.mode == OnChange ==> (Floor(m) == ON_CHANGE_MIN_GAP_MS <==> seconds <= 0 || (seconds * 1000) % CLOCK >= ON_CHANGE_MIN_GAP_MS)
    ensures m.mode != OnChange ==> Floor(m) == m.intervalMs
  {
  }

  const WRAP_SECONDS: nat := 536870912

  /** The product wraps to nothing, and every poll publishes, exactly at the
      multiples of 536870912 s. */
  lemma IntervalWraps(mode: Mode, seconds: int)
    ensures IntervalMs(mode, seconds) == 0 <==> seconds > 0 && seconds % WRAP_SECONDS == 0
  {
    if seconds > 0 {
      var q, r := seconds / WRAP_SECONDS, seconds % WRAP_SECONDS;
      assert seconds * 1000 == r * 1000 + (125 * q) * CLOCK;
      MultipleDropped(r * 1000, 125 * q);
      if (r * 1000) % CLOCK == 0 {
        var k := r * 1000 / CLOCK;
        assert r * 125 == k * WRAP_SECONDS && k < 125;
        OddPart(r, k);
      }
    }
  }

  /** 125 and a power of two have no common divisor: 125 * 115964117 is one more
      than a multiple of 2^29. */
  lemma OddPart(r: int, k: int)
    requires r * 125 == k * WRAP_SECONDS && 0 <= r < WRAP_SECONDS
    ensures r == 0
  {
    assert 125 * 115964117 == 1 + 27 * WRAP_SECONDS;
    assert r * (125 * 115964117) == r + (r * 27) * WRAP_SECONDS;
    assert (r * 125) * 115964117 == (k * 115964117) * WRAP_SECONDS;
    assert r == (k * 115964117 - r * 27) * WRAP_SECONDS;
  }

  /** Never sent, or not for an interval. */
  predicate Due(s: State) {
    s.m.lastValue.None? || s.time - s.lastAt >= s.m.intervalMs
  }

  /** Polls the broker refuses, or that read nothing. */
  predicate Refused(es: seq<Event>) {
    forall e | e in es :: e.Poll? && (!e.ok || e.reading.None?)
  }

  /** A publish that is due and refused is tried again at every later poll that reads
      something, until one is taken, as long as the clock has not come round. */
  lemma {:induction false} RefusedIsRetried(s: State, es: seq<Event>, later: Event)
    requires Tracks(s) && Due(s) && s.m.bound && OrderedRun(s, es) && Refused(es)
    requires later.Poll? && later.reading.Some? && InOrder(Run(s, es), later)
    requires s.m.lastValue.Some? ==> later.at - s.lastAt < CLOCK
    ensures Run(s, es).m == s.m && Tries(Run(s, es).m, later.at % CLOCK, later.reading)
    decreases es
  {
    if es == [] {
      if s.m.lastValue.Some? { WrappedElapsed(s.lastAt, later.at); }
    } else {
      assert es[0] in es;
      StepTracks(s, es[0]);
      RefusedIsRetried(Step(s, es[0]), es[1..], later);
    }
  }

  // ---- Silence --------------------------------------------------------------------------

  /** A poll of a bound metric with a reading and a broker that takes publishes. */
  predicate Good(s: State, e: Event) {
    s.m.bound && e.Poll? && e.reading.Some? && e.ok
  }

  /** After a good poll the metric was heard of less than its interval ago; and on
      change, the last value sent is within the dead band of the reading, or was
      sent less than 100 ms ago. */
  ghost predicate Heard(s: State, value: real) {
    && s.m.lastValue.Some?
    && (s.lastAt == s.time || s.time - s.lastAt < s.m.intervalMs)
    && (s.m.mode == OnChange ==> !Changed(s.m, value) || s.time - s.lastAt < ON_CHANGE_MIN_GAP_MS)
  }

  lemma GoodPollHears(s: State, e: Event)
    requires Tracks(s) && InOrder(s, e) && Good(s, e) && s.m.deadband >= 0.0
    requires s.m.lastValue.Some? ==> e.at - s.lastAt < CLOCK
    ensures Heard(Step(s, e), e.reading.value)
  {
    if s.m.lastValue.Some? {
      WrappedElapsed(s.lastAt, e.at);
    }
  }

  /** A run of good polls, each at most `gap` after the one before, in which
      profiles may change. */
  ghost predicate SteadyRun(s: State, es: seq<Event>, gap: nat)
    decreases es
  {
    es != [] ==>
      && InOrder(s, es[0])
      && (es[0].Poll? ==> Good(s, es[0]) && es[0].at - s.time <= gap)
      && (es[0].Profile? ==> es[0].deadband >= 0.0)
      && SteadyRun(Step(s, es[0]), es[1..], gap)
  }

  /** An interval that leaves room for a poll gap below the clock's range; one of
      0 ms needs none. */
  predicate Room(m: Metric, gap: nat) {
    m.intervalMs == 0 || m.intervalMs + gap <= CLOCK
  }

  ghost predicate RoomThroughout(s: State, es: seq<Event>, gap: nat)
    decreases es
  {
    Room(s.m, gap) && (es != [] ==> RoomThroughout(Step(s, es[0]), es[1..], gap))
  }

  /** The metric was never sent, or lately enough for the clock to tell. */
  ghost predicate Lately(s: State, gap: nat) {
    && Tracks(s) && s.m.deadband >= 0.0
    && (s.m.lastValue.Some? ==> s.lastAt == s.time || s.time - s.lastAt + gap < CLOCK)
  }

  lemma LateStays(s: State, e: Event, gap: nat)
    requires Lately(s, gap) && SteadyRun(s, [e], gap) && Room(s.m, gap) && gap < CLOCK
    ensures Lately(Step(s, e), gap)
    ensures e.Poll? ==> Heard(Step(s, e), e.reading.value)
  {
    StepTracks(s, e);
    if e.Poll? {
      GoodPollHears(s, e);
    }
  }

  /** The run ends in a poll that hears the metric. */
  ghost predicate HeardAtEnd(s: State, es: seq<Event>)
    requires es != []
  {
    var last := es[|es| - 1];
    last.Poll? && last.reading.Some? && Heard(Run(s, es), last.reading.value)
  }

  /** At every poll of a steady run with room throughout the metric is heard of: no
      silence outlasts the interval by more than the poll that ends it, and on change
      no reading strays beyond the dead band for 100 ms unseen. */
  lemma {:induction false} NeverSilent(s: State, es: seq<Event>, gap: nat)
    requires Lately(s, gap) && gap < CLOCK && SteadyRun(s, es, gap) && RoomThroughout(s, es, gap)
    requires es != [] && es[|es| - 1].Poll?
    ensures HeardAtEnd(s, es)
    decreases es
  {
    var t := Step(s, es[0]);
    assert SteadyRun(t, [], gap);
    LateStays(s, es[0], gap);
    if |es| > 1 {
      assert es[1..][|es[1..]| - 1] == es[|es| - 1];
      NeverSilent(t, es[1..], gap);
    } else {
      assert Run(s, es) == Run(t, []);
    }
  }

  // ---- Silence, exactly -----------------------------------------------------------------

  ghost predicate OnlyPolls(es: seq<Event>) {
    forall e | e in es :: e.Poll?
  }

  /** A bound metric, never sent or just sent. */
  ghost predicate Fresh(s: State) {
    && s.m.bound && s.m.deadband >= 0.0 && s.m.intervalMs < CLOCK
    && Tracks(s) && (s.m.lastValue.Some? ==> s.lastAt == s.time)
  }

  ghost predicate NeverMissed(s: State, gap: nat) {
    forall es: seq<Event> | es != [] && OnlyPolls(es) && SteadyRun(s, es, gap) :: HeardAtEnd(s, es)
  }

  lemma {:induction false} PollsKeepInterval(s: State, es: seq<Event>, gap: nat)
    requires OnlyPolls(es) && Room(s.m, gap)
    ensures RoomThroughout(s, es, gap)
    decreases es
  {
    if es != [] {
      assert es[0] in es;
      PollsKeepInterval(Step(s, es[0]), es[1..], gap);
    }
  }

  /** An interval of 0 ms sends at every poll, however far apart. */
  lemma {:induction false} AlwaysSent(s: State, es: seq<Event>, gap: nat)
    requires s.m.intervalMs == 0 && s.m.bound && s.m.deadband >= 0.0
    requires es != [] && OnlyPolls(es) && SteadyRun(s, es, gap)
    ensures HeardAtEnd(s, es)
    decreases es
  {
    assert es[0] in es;
    var t := Step(s, es[0]);
    if |es| > 1 {
      assert es[1..][|es[1..]| - 1] == es[|es| - 1];
      AlwaysSent(t, es[1..], gap);
    } else {
      assert Run(s, es) == Run(t, []);
    }
  }

  /** `n` polls a millisecond apart, reading the same each time. */
  function Ticks(from: nat, n: nat, value: real): (es: seq<Event>)
    ensures |es| == n
    decreases n
  {
    if n == 0 then [] else [Poll(from + 1, Some(value), true)] + Ticks(from + 1, n - 1, value)
  }

  /** Polls a millisecond apart send nothing before the interval is up. */
  lemma {:induction false} TicksAreSilent(s: State, n: nat, value: real, rest: seq<Event>, gap: nat)
    requires s.m.bound && s.m.deadband >= 0.0 && s.m.lastValue == Some(value) && Tracks(s) && gap >= 1
    requires s.time + n - s.lastAt < s.m.intervalMs <= CLOCK
    ensures Run(s, Ticks(s.time, n, value) + rest) == Run(s.(time := s.time + n), rest)
    ensures SteadyRun(s, Ticks(s.time, n, value) + rest, gap) <==> SteadyRun(s.(time := s.time + n), rest, gap)
    decreases n
  {
    var es := Ticks(s.time, n, value);
    if n == 0 {
      assert es + rest == rest;
    } else {
      var e := Poll(s.time + 1, Some(value), true);
      assert (es + rest)[0] == e && (es + rest)[1..] == Ticks(s.time + 1, n - 1, value) + rest;
      WrappedElapsed(s.lastAt, s.time + 1);
      assert Step(s, e) == s.(time := s.time + 1);
      TicksAreSilent(s.(time := s.time + 1), n - 1, value, rest, gap);
    }
  }

  lemma TicksPoll(from: nat, n: nat, value: real)
    ensures OnlyPolls(Ticks(from, n, value))
    decreases n
  {
    if n > 0 { TicksPoll(from + 1, n - 1, value); }
  }

  /** Without room: polls up to a millisecond before the interval, then one a whole
      turn of the clock after the publish, which reads as no time at all. */
  lemma WrapHidesSilence(s: State, gap: nat)
    requires s.m.bound && s.m.deadband >= 0.0 && 0 < s.m.intervalMs < CLOCK
    requires Tracks(s) && s.m.lastValue.Some? && s.lastAt == s.time && !Room(s.m, gap)
    ensures !NeverMissed(s, gap)
  {
    var value, n := s.m.lastValue.value, s.m.intervalMs - 1;
    var last := Poll(s.time + CLOCK, Some(value), true);
    var es := Ticks(s.time, n, value) + [last];
    var t := s.(time := s.time + n);
    TicksAreSilent(s, n, value, [last], gap);
    TicksPoll(s.time, n, value);
    WrappedElapsed(s.lastAt, s.time + CLOCK);
    assert (CLOCK as int) % CLOCK == 0;
    var end := Step(t, last);
    assert end == t.(time := s.time + CLOCK);
    assert [last][1..] == [] && Run(t, [last]) == Run(end, []) == end;
    assert SteadyRun(end, [], gap) && SteadyRun(t, [last], gap);
    assert es[|es| - 1] == last && OnlyPolls(es);
    assert !Heard(end, value);
  }

  /** From the first poll on, a metric never sent is as one just sent. */
  lemma FirstPoll(s: State, gap: nat)
    requires Fresh(s) && s.m.lastValue.None? && 0 < s.m.intervalMs && !Room(s.m, gap)
    ensures !NeverMissed(s, gap)
  {
    var first := Poll(s.time, Some(0.0), true);
    var t := Step(s, first);
    StepTracks(s, first);
    WrapHidesSilence(t, gap);
    var es: seq<Event> :| es != [] && OnlyPolls(es) && SteadyRun(t, es, gap) && !HeardAtEnd(t, es);
    var all := [first] + es;
    assert all[0] == first && all[1..] == es && all[|all| - 1] == es[|es| - 1];
    assert SteadyRun(s, all, gap) && OnlyPolls(all);
  }

  /** In no run of good polls at most `gap` apart is a metric missed, if and only if
      its interval and the gap together fit the clock, or the interval is 0 ms. */
  lemma SilenceExactly(s: State, gap: nat)
    requires Fresh(s)
    ensures NeverMissed(s, gap) <==> Room(s.m, gap)
  {
    if Room(s.m, gap) {
      forall es: seq<Event> | es != [] && OnlyPolls(es) && SteadyRun(s, es, gap)
        ensures HeardAtEnd(s, es)
      {
        assert es[|es| - 1] in es;
        if s.m.intervalMs == 0 {
          AlwaysSent(s, es, gap);
        } else {
          PollsKeepInterval(s, es, gap);
          NeverSilent(s, es, gap);
        }
      }
    } else if s.m.lastValue.None? {
      FirstPoll(s, gap);
    } else {
      WrapHidesSilence(s, gap);
    }
  }
}
