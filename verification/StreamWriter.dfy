/** The worker that moves telemetry from a Redis stream into the database in
    batches (backend/src/app/worker.py). Redis, the database and the clock are the
    world: each turn of the loop is told what they did. Times are milliseconds. */
module StreamWriter {
  import opened Wrappers

  // ---- Entries ------------------------------------------------------------------------

  /** A stream entry's `timestamp`: absent (also empty or zero), refused with a
      ValueError, past the platform's range (an OverflowError, which nothing
      catches), or a time. */
  datatype Stamp = Absent | Refused | Overflows | At(time: real)

  /** The fields of an entry; `None` is a field that is missing or does not parse. */
  datatype Fields = Fields(stamp: Stamp, tenant: Option<nat>, device: Option<nat>, metric: Option<string>, value: Option<real>)

  /** `readAt` is the loop's clock, and `wall` the time of day, when the loop
      reaches the entry. */
  datatype Entry = Entry(id: nat, fields: Fields, readAt: real, wall: real)

  datatype Row = Row(time: real, tenant: nat, device: nat, metric: string, value: real)

  datatype Parsed = Good(row: Row) | Malformed | Raises

  /** `_row_from_stream_entry`. */
  function RowOf(e: Entry): Parsed {
    var f := e.fields;
    if f.stamp.Overflows? then Raises
    else if f.stamp.Refused? || f.tenant.None? || f.device.None? || f.metric.None? || f.value.None? then Malformed
    else
      var time := if f.stamp.At? then f.stamp.time else e.wall;
      Good(Row(time, f.tenant.value, f.device.value, f.metric.value, f.value.value))
  }

  /** The rows of the well-formed entries, in stream order. */
  function Rows(es: seq<Entry>): seq<Row> {
    if es == [] then []
    else (if RowOf(es[0]).Good? then [RowOf(es[0]).row] else []) + Rows(es[1..])
  }

  function Ids(es: seq<Entry>): (ids: seq<nat>)
    ensures |ids| == |es|
  {
    if es == [] then [] else [es[0].id] + Ids(es[1..])
  }

  /** The last value of each device's metric. */
  function Latest(rows: seq<Row>): map<(nat, string), real> {
    if rows == [] then map[]
    else
      var last := rows[|rows| - 1];
      Latest(rows[..|rows| - 1])[(last.device, last.metric) := last.value]
  }

  lemma {:induction false} RowsConcat(a: seq<Entry>, b: seq<Entry>)
    ensures Rows(a + b) == Rows(a) + Rows(b)
    decreases |a|
  {
    hide RowOf;
    if a == [] {
      assert a + b == b;
    } else {
      RowsConcat(a[1..], b);
      assert (a + b)[1..] == a[1..] + b;
    }
  }

  lemma {:induction false} IdsAt(es: seq<Entry>, i: nat)
    requires i < |es|
    ensures Ids(es)[i] == es[i].id
  {
    if i > 0 {
      IdsAt(es[1..], i - 1);
    }
  }

  lemma IdsConcat(a: seq<Entry>, b: seq<Entry>)
    ensures Ids(a + b) == Ids(a) + Ids(b)
  {
    forall i | 0 <= i < |a + b|
      ensures Ids(a + b)[i] == (Ids(a) + Ids(b))[i]
    {
      IdsAt(a + b, i);
      if i < |a| { IdsAt(a, i); } else { IdsAt(b, i - |a|); }
    }
  }

  /** Summarising batch after batch is summarising them all. */
  lemma {:induction false} LatestOfBatches(a: seq<Row>, b: seq<Row>)
    ensures Latest(a + b) == Latest(a) + Latest(b)
    decreases |b|
  {
    if b == [] {
      assert a + b == a;
    } else {
      var init := b[..|b| - 1];
      LatestOfBatches(a, init);
      assert (a + b)[..|a + b| - 1] == a + init;
    }
  }

  /** The last row of a device's metric decides what is recorded for it. */
  lemma {:induction false} LatestIsLast(rows: seq<Row>, k: nat)
    requires k < |rows|
    requires forall j | k < j < |rows| :: (rows[j].device, rows[j].metric) != (rows[k].device, rows[k].metric)
    ensures (rows[k].device, rows[k].metric) in Latest(rows)
    ensures Latest(rows)[(rows[k].device, rows[k].metric)] == rows[k].value
    decreases |rows|
  {
    if k < |rows| - 1 {
      LatestIsLast(rows[..|rows| - 1], k);
    }
  }

  // ---- The loop's specification ---------------------------------------------------------

  datatype Settings = Settings(batchSize: nat, blockMs: nat)

  predicate ShouldFlush(buffered: nat, age: real, s: Settings) {
    buffered >= s.batchSize || (buffered > 0 && age >= s.blockMs as real)
  }

  /** The loop's variables and the world's: entries handed over, rows committed, ids
      acknowledged, the health record; `clock` is the last look at the loop's clock. */
  datatype State = State(
    buffer: seq<Row>,
    ackIds: seq<nat>,
    firstAt: real,
    clock: real,
    running: bool,
    delivered: seq<Entry>,
    table: seq<Row>,
    acked: seq<nat>,
    health: map<(nat, string), real>)

  const START := State([], [], 0.0, 0.0, true, [], [], [], map[])

  /** One turn as the world decides it: the clock at its start and at its check,
      what the read returned (`None`: it failed), and whether the commit and the
      acknowledgement return. */
  datatype Turn = Turn(now: real, reply: Option<seq<Entry>>, checkedAt: real, commits: bool, acks: bool)

  /** How long the read may block. Python's int() and Floor differ only below zero,
      where both lose to 1. */
  function WaitMs(st: State, now: real, s: Settings): int {
    if st.buffer == [] then s.blockMs
    else
      var left := (st.firstAt + s.blockMs as real - now).Floor;
      if left < 1 then 1 else left
  }

  function TakeOne(st: State, e: Entry): State {
    match RowOf(e)
    case Good(row) =>
      st.(firstAt := if st.buffer == [] then e.readAt else st.firstAt, buffer := st.buffer + [row], ackIds := st.ackIds + [e.id])
    case Malformed => st.(ackIds := st.ackIds + [e.id])
    case Raises => st.(running := false)
  }

  function TakeIn(st: State, es: seq<Entry>): State
    decreases es
  {
    if es == [] || !st.running then st else TakeIn(TakeOne(st, es[0]), es[1..])
  }

  /** `flush`: an exception from the commit or from the acknowledgement ends the loop. */
  function Flushed(st: State, commits: bool, acks: bool): State {
    if st.buffer == [] then st.(ackIds := [])
    else if !commits then st.(running := false)
    else
      var written := st.(table := st.table + st.buffer, health := st.health + Latest(st.buffer));
      if !acks then written.(running := false) else written.(acked := st.acked + st.ackIds, buffer := [], ackIds := [])
  }

  function Took(st: State, t: Turn): State {
    if !st.running then st
    else if t.reply.None? then st.(running := false)
    else TakeIn(st.(delivered := st.delivered + t.reply.value), t.reply.value)
  }

  /** This turn ends in a flush. */
  predicate Flushes(st: State, t: Turn, s: Settings) {
    Took(st, t).running && ShouldFlush(|Took(st, t).buffer|, t.checkedAt - Took(st, t).firstAt, s)
  }

  function Step(st: State, t: Turn, s: Settings): State {
    var took := Took(st, t);
    if !took.running then took
    else if Flushes(st, t, s) then Flushed(took, t.commits, t.acks).(clock := t.checkedAt)
    else took.(clock := t.checkedAt)
  }

  ghost function Run(st: State, ts: seq<Turn>, s: Settings): State
    decreases ts
  {
    if ts == [] then st else Run(Step(st, ts[0], s), ts[1..], s)
  }

  // ---- The loop ---------------------------------------------------------------------------

  class StreamWriter {
    const settings: Settings
    var buffer: seq<Row>
    var ackIds: seq<nat>
    var firstBufferedAt: real
    var clock: real
    var running: bool
    var delivered: seq<Entry>
    var table: seq<Row>
    var acked: seq<nat>
    var health: map<(nat, string), real>

    function Value(): State
      reads this
    {
      State(buffer, ackIds, firstBufferedAt, clock, running, delivered, table, acked, health)
    }

    constructor (settings: Settings)
      ensures Value() == START && this.settings == settings
    {
      this.settings := settings;
      buffer, ackIds, firstBufferedAt, clock, running := [], [], 0.0, 0.0, true;
      delivered, table, acked, health := [], [], [], map[];
    }

    method Flush(commits: bool, acks: bool)
      modifies this
      ensures Value() == Flushed(old(Value()), commits, acks)
    {
      if buffer != [] {
        var latest: map<(nat, string), real> := map[];
        for i := 0 to |buffer|
          invariant latest == Latest(buffer[..i])
        {
          latest := latest[(buffer[i].device, buffer[i].metric) := buffer[i].value];
          assert buffer[..i + 1][..i] == buffer[..i];
        }
        assert buffer[..|buffer|] == buffer;
        if !commits {
          running := false;
          return;
        }
        table := table + buffer;
        health := health + latest;
        if !acks {
          running := false;
          return;
        }
        acked := acked + ackIds;
      }
      buffer := [];
      ackIds := [];
    }

    method TakeEntries(entries: seq<Entry>)
      requires running
      modifies this
      ensures Value() == TakeIn(old(Value()), entries)
    {
      for i := 0 to |entries|
        invariant running && TakeIn(Value(), entries[i..]) == TakeIn(old(Value()), entries)
      {
        assert entries[i..][0] == entries[i] && entries[i..][1..] == entries[i + 1..];
        match RowOf(entries[i]) {
          case Raises =>
            running := false;
            return;
          case Good(row) =>
            if buffer == [] { firstBufferedAt := entries[i].readAt; }
            buffer := buffer + [row];
          case Malformed =>
        }
        ackIds := ackIds + [entries[i].id];
      }
      assert entries[|entries|..] == [];
    }

    /** One turn of the loop; `wait` and `count` are what it asks Redis for. */
    method TakeTurn(t: Turn) returns (wait: int, count: int)
      requires running
      modifies this
      ensures Value() == Step(old(Value()), t, settings)
      ensures wait == WaitMs(old(Value()), t.now, settings) && count == settings.batchSize - |old(buffer)|
    {
      wait := settings.blockMs;
      if buffer != [] {
        var left := (firstBufferedAt + settings.blockMs as real - t.now).Floor;
        wait := if left < 1 then 1 else left;
      }
      count := settings.batchSize - |buffer|;
      if t.reply.None? {
        running := false;
        return;
      }
      delivered := delivered + t.reply.value;
      TakeEntries(t.reply.value);
      if !running { return; }
      if ShouldFlush(|buffer|, t.checkedAt - firstBufferedAt, settings) {
        Flush(t.commits, t.acks);
      }
      clock := t.checkedAt;
    }
  }

  // ---- What every run keeps -----------------------------------------------------------------

  /** The rows of the first `k` entries. */
  function RowsTo(es: seq<Entry>, k: nat): seq<Row>
    requires k <= |es|
  {
    Rows(es[..k])
  }

  /** While the loop runs, every entry so far is either acknowledged and its row
      committed, or its row is buffered and its id waits: a cut through the stream.
      Once it has stopped, the committed rows may be ahead of the acknowledged ids,
      never behind them. */
  ghost predicate Inv(st: State) {
    var k, d := |st.acked|, st.delivered;
    && k <= |d|
    && st.acked == Ids(d[..k])
    && st.health == Latest(st.table)
    && (if st.running then st.table == Rows(d[..k]) && st.ackIds == Ids(d[k..]) && st.buffer == Rows(d[k..])
        else CutAt(st))
  }

  /** The committed rows are those of the first so many entries. */
  ghost predicate CutAt(st: State) {
    exists c: nat :: |st.acked| <= c <= |st.delivered| && st.table == RowsTo(st.delivered, c)
  }

  /** What taking entries in changes, and what it cannot. */
  lemma {:induction false} TakeInIs(st: State, es: seq<Entry>)
    requires st.running
    ensures var r := TakeIn(st, es);
      && r.delivered == st.delivered && r.table == st.table && r.acked == st.acked && r.health == st.health && r.clock == st.clock
      && (r.running ==> r.buffer == st.buffer + Rows(es) && r.ackIds == st.ackIds + Ids(es))
      && (r.running && st.buffer != [] ==> r.firstAt == st.firstAt)
      && (r.running && st.buffer == [] && r.buffer != [] ==> exists e | e in es :: r.firstAt == e.readAt)
    decreases es
  {
    if es != [] {
      var one := TakeOne(st, es[0]);
      if one.running {
        TakeInIs(one, es[1..]);
        if one.buffer == st.buffer && st.buffer == [] && TakeIn(st, es).running && TakeIn(st, es).buffer != [] {
          var e :| e in es[1..] && TakeIn(st, es).firstAt == e.readAt;
          assert e in es;
        } else if st.buffer == [] {
          assert es[0] in es;
        }
      }
    }
  }

  /** After a read the cut is where it was, with the new entries behind it. */
  lemma TookInv(st: State, t: Turn)
    requires Inv(st) && st.running
    ensures Inv(Took(st, t)) && Took(st, t).acked == st.acked
  {
    var k, d := |st.acked|, st.delivered;
    if t.reply.None? {
      assert st.table == RowsTo(d, k);
      return;
    }
    var es := t.reply.value;
    var all := d + es;
    TakeInIs(st.(delivered := all), es);
    assert all[..k] == d[..k] && all[k..] == d[k..] + es;
    RowsConcat(d[k..], es);
    IdsConcat(d[k..], es);
    assert st.table == RowsTo(all, k);
  }

  /** A flush moves the cut to the end, or leaves it. */
  lemma FlushInv(st: State, commits: bool, acks: bool)
    requires Inv(st) && st.running && st.buffer != []
    ensures Inv(Flushed(st, commits, acks))
  {
    hide Latest;
    var k, d := |st.acked|, st.delivered;
    assert d == d[..k] + d[k..] == d[..|d|] && d[|d|..] == [];
    RowsConcat(d[..k], d[k..]);
    IdsConcat(d[..k], d[k..]);
    LatestOfBatches(st.table, st.buffer);
    assert st.table == RowsTo(d, k);
    assert st.table + st.buffer == RowsTo(d, |d|);
  }

  lemma StepInv(st: State, t: Turn, s: Settings)
    requires Inv(st) && s.batchSize >= 1
    ensures Inv(Step(st, t, s))
    ensures st.running && Step(st, t, s).running ==> |Step(st, t, s).buffer| < s.batchSize
  {
    if st.running {
      TookInv(st, t);
      var took := Took(st, t);
      if Flushes(st, t, s) {
        FlushInv(took, t.commits, t.acks);
        InvIgnoresClock(Flushed(took, t.commits, t.acks), t.checkedAt);
      } else {
        InvIgnoresClock(took, t.checkedAt);
      }
    }
  }

  lemma InvIgnoresClock(st: State, clock: real)
    requires Inv(st)
    ensures Inv(st.(clock := clock))
  {
  }

  lemma {:induction false} RunInv(st: State, ts: seq<Turn>, s: Settings)
    requires Inv(st) && s.batchSize >= 1 && (st.running ==> |st.buffer| < s.batchSize)
    ensures Inv(Run(st, ts, s)) && CutAt(Run(st, ts, s))
    ensures Run(st, ts, s).running ==> |Run(st, ts, s).buffer| < s.batchSize
    decreases ts
  {
    if ts == [] {
      assert st.running ==> st.table == RowsTo(st.delivered, |st.acked|);
    } else {
      StepInv(st, ts[0], s);
      if !st.running {
        assert Step(st, ts[0], s) == st;
      }
      RunInv(Step(st, ts[0], s), ts[1..], s);
    }
  }

  lemma StartInv()
    ensures Inv(START)
  {
  }

  /** After any run, crashed or not: the acknowledged ids are those of the first
      entries in order, and each such entry's row is committed, or it was malformed. */
  lemma AckedIsSafe(ts: seq<Turn>, s: Settings, i: nat)
    requires s.batchSize >= 1 && i < |Run(START, ts, s).acked|
    ensures var st := Run(START, ts, s);
      && i < |st.delivered| && st.acked[i] == st.delivered[i].id
      && (RowOf(st.delivered[i]).Good? ==> RowOf(st.delivered[i]).row in st.table)
  {
    StartInv();
    RunInv(START, ts, s);
    var st := Run(START, ts, s);
    var k, d := |st.acked|, st.delivered;
    IdsAt(d[..k], i);
    assert d[..k][i] == d[i];
    var c: nat :| k <= c <= |d| && st.table == RowsTo(d, c);
    assert d[..c][i] == d[i];
    if RowOf(d[i]).Good? {
      RowIsThere(d[..c], i);
    }
  }

  lemma {:induction false} RowIsThere(es: seq<Entry>, i: nat)
    requires i < |es| && RowOf(es[i]).Good?
    ensures RowOf(es[i]).row in Rows(es)
    decreases i
  {
    if i > 0 {
      RowIsThere(es[1..], i - 1);
    }
  }

  /** Without a crash every well-formed entry is exactly once in the committed rows
      followed by the buffer, in stream order, and what the health record was told is
      the last committed value of each device's metric. */
  lemma ExactlyOnce(ts: seq<Turn>, s: Settings)
    requires s.batchSize >= 1 && Run(START, ts, s).running
    ensures var st := Run(START, ts, s);
      st.table + st.buffer == Rows(st.delivered) && st.acked + st.ackIds == Ids(st.delivered) && st.health == Latest(st.table)
  {
    StartInv();
    RunInv(START, ts, s);
    var st := Run(START, ts, s);
    var k, d := |st.acked|, st.delivered;
    assert d == d[..k] + d[k..];
    RowsConcat(d[..k], d[k..]);
    IdsConcat(d[..k], d[k..]);
  }

  /** A crash may have committed rows it never acknowledged, but it commits none that
      was not delivered, none twice and none out of order. */
  lemma CrashKeepsAPrefix(ts: seq<Turn>, s: Settings)
    requires s.batchSize >= 1
    ensures var st := Run(START, ts, s); st.table <= Rows(st.delivered) && st.acked <= Ids(st.delivered)
  {
    StartInv();
    RunInv(START, ts, s);
    var st := Run(START, ts, s);
    var k, d := |st.acked|, st.delivered;
    assert d == d[..k] + d[k..];
    IdsConcat(d[..k], d[k..]);
    var c: nat :| k <= c <= |d| && st.table == RowsTo(d, c);
    assert d == d[..c] + d[c..];
    RowsConcat(d[..c], d[c..]);
  }

  /** Every read asks for at least one entry and blocks for at least a moment unless
      the interval is zero; and no flush acknowledges an empty list of ids. */
  lemma ReadsAndFlushesAreReal(ts: seq<Turn>, t: Turn, s: Settings)
    requires s.batchSize >= 1 && Run(START, ts, s).running
    ensures var st := Run(START, ts, s);
      && s.batchSize - |st.buffer| >= 1
      && (s.blockMs >= 1 ==> WaitMs(st, t.now, s) >= 1)
      && (Flushes(st, t, s) ==> 1 <= |Took(st, t).buffer| <= |Took(st, t).ackIds|)
  {
    StartInv();
    RunInv(START, ts, s);
    var st := Run(START, ts, s);
    if Flushes(st, t, s) {
      var all := st.delivered + t.reply.value;
      var k := |st.acked|;
      TakeInIs(st.(delivered := all), t.reply.value);
      RowsAreFewer(st.delivered[k..]);
      RowsAreFewer(t.reply.value);
    }
  }

  lemma {:induction false} RowsAreFewer(es: seq<Entry>)
    ensures |Rows(es)| <= |es|
  {
    if es != [] {
      RowsAreFewer(es[1..]);
    }
  }

  // ---- How late a row can be ------------------------------------------------------------------

  /** A turn in a world at most `lag` late: with rows waiting it starts within `lag`
      of the last check; its read returns and its check comes within `lag` of the
      time asked for. */
  ghost predicate Timely(st: State, t: Turn, s: Settings, lag: real) {
    && (st.buffer != [] ==> t.now <= st.clock + lag)
    && t.checkedAt <= t.now + WaitMs(st, t.now, s) as real + lag
    && (t.reply.Some? ==> forall e | e in t.reply.value :: t.now <= e.readAt)
  }

  ghost predicate TimelyRun(st: State, ts: seq<Turn>, s: Settings, lag: real)
    decreases ts
  {
    ts != [] ==> Timely(st, ts[0], s, lag) && TimelyRun(Step(st, ts[0], s), ts[1..], s, lag)
  }

  /** Between turns no waiting row is due: a due batch is flushed at the first check
      after it fell due. */
  ghost predicate NoneDue(st: State, s: Settings) {
    st.running && st.buffer != [] ==> st.clock - st.firstAt < s.blockMs as real
  }

  lemma StepNoneDue(st: State, t: Turn, s: Settings)
    requires st.running
    ensures NoneDue(Step(st, t, s), s)
  {
  }

  /** At a turn's check the oldest row has waited less than the interval, a
      millisecond of rounding and the world's lag. */
  lemma CheckedInTime(st: State, t: Turn, s: Settings, lag: real)
    requires st.running && NoneDue(st, s) && lag >= 0.0 && Timely(st, t, s, lag)
    requires Took(st, t).running && Took(st, t).buffer != []
    ensures t.checkedAt - Took(st, t).firstAt < s.blockMs as real + 1.0 + 2.0 * lag
  {
    TakeInIs(st.(delivered := st.delivered + t.reply.value), t.reply.value);
  }

  /** So in every timely run, each flush writes rows of which none has waited longer. */
  lemma {:induction false} NeverLate(st: State, ts: seq<Turn>, t: Turn, s: Settings, lag: real)
    requires st.running && NoneDue(st, s) && lag >= 0.0 && TimelyRun(st, ts + [t], s, lag)
    requires Flushes(Run(st, ts, s), t, s) && Took(Run(st, ts, s), t).buffer != []
    ensures t.checkedAt - Took(Run(st, ts, s), t).firstAt < s.blockMs as real + 1.0 + 2.0 * lag
    decreases ts
  {
    if ts == [] {
      assert (ts + [t])[0] == t;
      CheckedInTime(st, t, s, lag);
    } else {
      assert (ts + [t])[0] == ts[0] && (ts + [t])[1..] == ts[1..] + [t];
      var next := Step(st, ts[0], s);
      if next.running {
        StepNoneDue(st, ts[0], s);
        NeverLate(next, ts[1..], t, s, lag);
      } else {
        StoppedStays(next, ts[1..], s);
      }
    }
  }

  lemma {:induction false} StoppedStays(st: State, ts: seq<Turn>, s: Settings)
    requires !st.running
    ensures Run(st, ts, s) == st
    decreases ts
  {
    if ts != [] {
      StoppedStays(st, ts[1..], s);
    }
  }
}
