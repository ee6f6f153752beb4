/** The next runs of a cron (frontend/src/lib/schedule.ts:250-281), from the wall
    time now and the calendar's days counted from today. */
module NextRuns {
  import opened Cron
  import opened ScheduleRoundTrip

  datatype Day = Day(year: int, month: nat, day: nat, dow: nat)

  datatype WallTime = WallTime(date: Day, hour: nat, minute: nat)

  const HORIZON: nat := 400

  /** A minute of one of the days ahead; day 0 is today. */
  datatype Slot = Slot(day: nat, hour: nat, minute: nat)

  predicate Before(a: Slot, b: Slot) {
    a.day < b.day || (a.day == b.day && (a.hour < b.hour || (a.hour == b.hour && a.minute < b.minute)))
  }

  /** The day rule: when both day fields are restricted, either may match. */
  predicate DayMatches(p: CronParts, d: Day)
    requires |p.raw| == 5
  {
    var domAny, dowAny := IsStar(p.raw[2]), IsStar(p.raw[4]);
    d.month in p.months &&
    if domAny && dowAny then true
    else if domAny then d.dow in p.dow
    else if dowAny then d.day in p.dom
    else d.day in p.dom || d.dow in p.dow
  }

  /** The slots the cron runs in: on a matching day of the horizon, at a listed hour
      and minute, strictly after now. */
  predicate Runs(p: CronParts, calendar: nat -> Day, now: WallTime, s: Slot)
    requires |p.raw| == 5
  {
    && s.day < HORIZON
    && DayMatches(p, calendar(s.day))
    && s.hour in p.hours && s.minute in p.minutes
    && Before(Slot(0, now.hour, now.minute), s)
  }

  // ---- All slots, in order -------------------------------------------------------

  predicate Past(now: WallTime, s: Slot) {
    s.day == 0 && (s.hour < now.hour || (s.hour == now.hour && s.minute <= now.minute))
  }

  function HourSlots(now: WallTime, day: nat, hour: nat, minutes: seq<nat>): seq<Slot> {
    if minutes == [] then []
    else
      var s := Slot(day, hour, minutes[0]);
      (if Past(now, s) then [] else [s]) + HourSlots(now, day, hour, minutes[1..])
  }

  function DaySlots(now: WallTime, day: nat, hours: seq<nat>, minutes: seq<nat>): seq<Slot> {
    if hours == [] then [] else HourSlots(now, day, hours[0], minutes) + DaySlots(now, day, hours[1..], minutes)
  }

  function SlotsFrom(p: CronParts, calendar: nat -> Day, now: WallTime, day: nat): seq<Slot>
    requires |p.raw| == 5
    decreases HORIZON - day
  {
    if day >= HORIZON then []
    else
      (if DayMatches(p, calendar(day)) then DaySlots(now, day, p.hours, p.minutes) else [])
      + SlotsFrom(p, calendar, now, day + 1)
  }

  function AllSlots(p: CronParts, calendar: nat -> Day, now: WallTime): seq<Slot>
    requires |p.raw| == 5
  {
    SlotsFrom(p, calendar, now, 0)
  }

  function ToWall(s: Slot, calendar: nat -> Day): WallTime {
    WallTime(calendar(s.day), s.hour, s.minute)
  }

  function Walls(slots: seq<Slot>, calendar: nat -> Day): (w: seq<WallTime>)
    ensures |w| == |slots|
    ensures forall i | 0 <= i < |slots| :: w[i] == ToWall(slots[i], calendar)
  {
    seq(|slots|, i requires 0 <= i < |slots| => ToWall(slots[i], calendar))
  }

  function Take(slots: seq<Slot>, n: int): seq<Slot> {
    if n <= 0 then [] else if |slots| <= n then slots else slots[..n]
  }

  /** `nextRuns`. */
  method NextRuns(cron: seq<Field>, calendar: nat -> Day, now: WallTime, n: int) returns (out: seq<WallTime>)
    ensures Parts(cron).None? ==> out == []
    ensures Parts(cron).Some? ==> out == Walls(Take(AllSlots(Parts(cron).value, calendar, now), n), calendar)
  {
    hide *;
    var parsed := Parts(cron);
    RawFields(cron);
    if parsed.None? {
      return [];
    }
    var p := parsed.value;
    out := [];
    ghost var found: seq<Slot> := [];
    ghost var all := AllSlots(p, calendar, now);
    var day := 0;
    FirstDay(p, calendar, now);
    while day < HORIZON && |out| < n
      invariant day <= HORIZON
      invariant out == Walls(found, calendar)
      invariant |found| <= n || found == []
      invariant found + SlotsFrom(p, calendar, now, day) == all
      decreases HORIZON - day
    {
      NextDay(p, calendar, now, day, found);
      var date := calendar(day);
      if DayMatches(p, date) {
        ghost var before := found;
        var full;
        out, found, full := ScanDay(p, calendar, now, day, n, out, found);
        if full {
          FirstOnes(before, DaySlots(now, day, p.hours, p.minutes), SlotsFrom(p, calendar, now, day + 1), found, n);
          return;
        }
      }
      day := day + 1;
    }
    NoDayLeft(p, calendar, now, day);
    StoppedAt(found, SlotsFrom(p, calendar, now, day), n);
  }

  lemma FirstDay(p: CronParts, calendar: nat -> Day, now: WallTime)
    requires |p.raw| == 5
    ensures [] + SlotsFrom(p, calendar, now, 0) == AllSlots(p, calendar, now)
    ensures Walls([], calendar) == []
    ensures HORIZON > 0
  {
  }

  lemma NextDay(p: CronParts, calendar: nat -> Day, now: WallTime, day: nat, found: seq<Slot>)
    requires |p.raw| == 5 && day < HORIZON
    ensures found + SlotsFrom(p, calendar, now, day)
         == (if DayMatches(p, calendar(day)) then found + DaySlots(now, day, p.hours, p.minutes) else found)
            + SlotsFrom(p, calendar, now, day + 1)
  {
    var today := DaySlots(now, day, p.hours, p.minutes);
    var later := SlotsFrom(p, calendar, now, day + 1);
    assert found + (today + later) == (found + today) + later;
    assert found + ([] + later) == found + later;
  }

  lemma NoDayLeft(p: CronParts, calendar: nat -> Day, now: WallTime, day: nat)
    requires |p.raw| == 5
    ensures day >= HORIZON ==> SlotsFrom(p, calendar, now, day) == []
  {
  }

  lemma RawFields(cron: seq<Field>)
    ensures Parts(cron).Some? ==> |Parts(cron).value.raw| == 5
  {
  }

  lemma StoppedAt(found: seq<Slot>, rest: seq<Slot>, n: int)
    requires |found| <= n || found == []
    requires |found| < n ==> rest == []
    ensures Take(found + rest, n) == found
  {
  }

  lemma FirstOnes(before: seq<Slot>, today: seq<Slot>, later: seq<Slot>, found: seq<Slot>, n: int)
    requires |found| == n && found <= before + today
    ensures Take((before + today) + later, n) == found
  {
  }

  /** One day's hours and minutes; `full` once n runs are found. */
  method ScanDay(p: CronParts, calendar: nat -> Day, now: WallTime, day: nat, n: int, start: seq<WallTime>, ghost slots: seq<Slot>)
      returns (out: seq<WallTime>, ghost found: seq<Slot>, full: bool)
    requires start == Walls(slots, calendar) && |slots| < n
    ensures out == Walls(found, calendar)
    ensures full ==> |found| == n && found <= slots + DaySlots(now, day, p.hours, p.minutes)
    ensures !full ==> |found| < n && found == slots + DaySlots(now, day, p.hours, p.minutes)
  {
    out, found, full := start, slots, false;
    ghost var all := slots + DaySlots(now, day, p.hours, p.minutes);
    for i := 0 to |p.hours|
      invariant !full && |found| < n && out == Walls(found, calendar)
      invariant found + DaySlots(now, day, p.hours[i..], p.minutes) == all
    {
      ghost var later := DaySlots(now, day, p.hours[i + 1..], p.minutes);
      assert p.hours[i..][0] == p.hours[i] && p.hours[i..][1..] == p.hours[i + 1..];
      ghost var atHour := found + HourSlots(now, day, p.hours[i], p.minutes);
      assert atHour + later == all by {
        assert atHour + later == found + (HourSlots(now, day, p.hours[i], p.minutes) + later);
      }
      out, found, full := ScanHour(calendar, now, day, p.hours[i], p.minutes, n, out, found);
      if full {
        assert found <= atHour + later;
        return;
      }
    }
    assert p.hours[|p.hours|..] == [] && found + [] == found;
  }

  method ScanHour(calendar: nat -> Day, now: WallTime, day: nat, hour: nat, minutes: seq<nat>, n: int, start: seq<WallTime>, ghost slots: seq<Slot>)
      returns (out: seq<WallTime>, ghost found: seq<Slot>, full: bool)
    requires start == Walls(slots, calendar) && |slots| < n
    ensures out == Walls(found, calendar)
    ensures full ==> |found| == n && found <= slots + HourSlots(now, day, hour, minutes)
    ensures !full ==> |found| < n && found == slots + HourSlots(now, day, hour, minutes)
  {
    out, found, full := start, slots, false;
    ghost var all := slots + HourSlots(now, day, hour, minutes);
    for i := 0 to |minutes|
      invariant !full && |found| < n && out == Walls(found, calendar)
      invariant found + HourSlots(now, day, hour, minutes[i..]) == all
    {
      var minute := minutes[i];
      ghost var later := HourSlots(now, day, hour, minutes[i + 1..]);
      assert minutes[i..][0] == minute && minutes[i..][1..] == minutes[i + 1..];
      if day == 0 && (hour < now.hour || (hour == now.hour && minute <= now.minute)) {
        assert found + ([] + later) == found + later;
        continue;
      }
      assert found + ([Slot(day, hour, minute)] + later) == (found + [Slot(day, hour, minute)]) + later;
      out := out + [WallTime(calendar(day), hour, minute)];
      found := found + [Slot(day, hour, minute)];
      if |out| >= n {
        full := true;
        assert found <= found + later;
        return;
      }
    }
    assert minutes[|minutes|..] == [] && found + [] == found;
  }

  // ---- What the slots are ----------------------------------------------------------

  ghost predicate Ordered(s: seq<Slot>) {
    forall i, j | 0 <= i < j < |s| :: Before(s[i], s[j])
  }

  lemma OrderedAppend(a: seq<Slot>, b: seq<Slot>)
    requires Ordered(a) && Ordered(b)
    requires forall x, y | x in a && y in b :: Before(x, y)
    ensures Ordered(a + b)
  {
    var c := a + b;
    forall i, j | 0 <= i < j < |c| ensures Before(c[i], c[j]) {
      if i < |a| <= j {
        assert a[i] in a && b[j - |a|] in b;
      }
    }
  }

  lemma {:induction false} HourSlotsAre(now: WallTime, day: nat, hour: nat, minutes: seq<nat>)
    requires Ascending(minutes)
    ensures Ordered(HourSlots(now, day, hour, minutes))
    ensures forall s :: s in HourSlots(now, day, hour, minutes) <==>
      s.day == day && s.hour == hour && s.minute in minutes && !Past(now, s)
  {
    if minutes != [] {
      HourSlotsAre(now, day, hour, minutes[1..]);
      var s := Slot(day, hour, minutes[0]);
      var head: seq<Slot> := if Past(now, s) then [] else [s];
      assert forall m :: m in minutes <==> m == minutes[0] || m in minutes[1..];
      forall x, y | x in head && y in HourSlots(now, day, hour, minutes[1..]) ensures Before(x, y) {
        var i :| 0 <= i < |minutes[1..]| && minutes[1..][i] == y.minute;
        assert minutes[0] < minutes[i + 1];
      }
      OrderedAppend(head, HourSlots(now, day, hour, minutes[1..]));
    }
  }

  lemma {:induction false} DaySlotsAre(now: WallTime, day: nat, hours: seq<nat>, minutes: seq<nat>)
    requires Ascending(hours) && Ascending(minutes)
    ensures Ordered(DaySlots(now, day, hours, minutes))
    ensures forall s :: s in DaySlots(now, day, hours, minutes) <==>
      s.day == day && s.hour in hours && s.minute in minutes && !Past(now, s)
  {
    if hours != [] {
      HourSlotsAre(now, day, hours[0], minutes);
      DaySlotsAre(now, day, hours[1..], minutes);
      assert forall h :: h in hours <==> h == hours[0] || h in hours[1..];
      forall x, y | x in HourSlots(now, day, hours[0], minutes) && y in DaySlots(now, day, hours[1..], minutes) ensures Before(x, y) {
        var i :| 0 <= i < |hours[1..]| && hours[1..][i] == y.hour;
        assert hours[0] < hours[i + 1];
      }
      OrderedAppend(HourSlots(now, day, hours[0], minutes), DaySlots(now, day, hours[1..], minutes));
    }
  }

  lemma {:induction false} SlotsFromAre(p: CronParts, calendar: nat -> Day, now: WallTime, day: nat)
    requires |p.raw| == 5 && Ascending(p.hours) && Ascending(p.minutes)
    ensures Ordered(SlotsFrom(p, calendar, now, day))
    ensures forall s :: s in SlotsFrom(p, calendar, now, day) <==> s.day >= day && Runs(p, calendar, now, s)
    decreases HORIZON - day
  {
    if day < HORIZON {
      SlotsFromAre(p, calendar, now, day + 1);
      DaySlotsAre(now, day, p.hours, p.minutes);
      var today: seq<Slot> := if DayMatches(p, calendar(day)) then DaySlots(now, day, p.hours, p.minutes) else [];
      OrderedAppend(today, SlotsFrom(p, calendar, now, day + 1));
    }
  }

  lemma PartsAscend(cron: seq<Field>)
    requires Parts(cron).Some?
    ensures Ascending(Parts(cron).value.hours) && Ascending(Parts(cron).value.minutes) && |Parts(cron).value.raw| == 5
  {
    FieldIsUnion(cron[0], 0, MAX_MINUTE, 0);
    FieldIsUnion(cron[1], 0, MAX_HOUR, 0);
  }

  /** The runs handed out are exactly the first n, in strictly increasing order, of
      all the slots the cron runs in: nothing before the last one is left out. */
  lemma FirstRuns(cron: seq<Field>, calendar: nat -> Day, now: WallTime, n: nat)
    requires Parts(cron).Some?
    ensures var p, runs := Parts(cron).value, Take(AllSlots(Parts(cron).value, calendar, now), n);
      && |p.raw| == 5
      && Ordered(runs) && |runs| <= n
      && (forall s | s in runs :: Runs(p, calendar, now, s))
      && (forall s | Runs(p, calendar, now, s) :: s in runs || (|runs| == n && forall r | r in runs :: Before(r, s)))
  {
    hide Parts;
    hide Runs;
    hide Take;
    PartsAscend(cron);
    SlotsFromAre(Parts(cron).value, calendar, now, 0);
    TakeIsFirst(AllSlots(Parts(cron).value, calendar, now), n);
  }

  lemma TakeIsFirst(all: seq<Slot>, n: nat)
    requires Ordered(all)
    ensures Ordered(Take(all, n)) && |Take(all, n)| <= n
    ensures forall s | s in Take(all, n) :: s in all
    ensures forall s | s in all :: s in Take(all, n) || (|Take(all, n)| == n && forall r | r in Take(all, n) :: Before(r, s))
  {
    hide Before;
    var runs := Take(all, n);
    forall s | s in all ensures s in runs || (|runs| == n && forall r | r in runs :: Before(r, s)) {
      var i :| 0 <= i < |all| && all[i] == s;
      if i < n {
        assert runs[i] == s;
      } else {
        forall r | r in runs ensures Before(r, s) {
          var j :| 0 <= j < |runs| && runs[j] == r;
          assert all[j] == r;
        }
      }
    }
  }

  /** A cron the picker rewrites keeps every run it had. */
  lemma RewrittenRunsAlike(cron: seq<Field>, calendar: nat -> Day, now: WallTime)
    requires FromCron(cron) != Custom && StepInRange(FromCron(cron))
    ensures ToCron(FromCron(cron)).Some?
    ensures var back := ToCron(FromCron(cron)).value;
      && Parts(cron).Some? && Parts(back).Some? && |Parts(cron).value.raw| == |Parts(back).value.raw| == 5
      && AllSlots(Parts(back).value, calendar, now) == AllSlots(Parts(cron).value, calendar, now)
  {
    hide FieldValues;
    hide FromCron;
    hide ToCron;
    CronRoundTrip(cron);
    var back := ToCron(FromCron(cron)).value;
    SameSlots(Parts(cron).value, Parts(back).value, calendar, now, 0);
  }

  lemma {:induction false} SameSlots(p: CronParts, q: CronParts, calendar: nat -> Day, now: WallTime, day: nat)
    requires |p.raw| == |q.raw| == 5
    requires p.(raw := q.raw) == q && (IsStar(p.raw[2]) <==> IsStar(q.raw[2])) && (IsStar(p.raw[4]) <==> IsStar(q.raw[4]))
    ensures SlotsFrom(p, calendar, now, day) == SlotsFrom(q, calendar, now, day)
    decreases HORIZON - day
  {
    if day < HORIZON {
      SameSlots(p, q, calendar, now, day + 1);
    }
  }
}
