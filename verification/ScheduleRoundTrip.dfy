/** Cron and the picker's models undo each other (frontend/src/lib/schedule.ts:115-162). */
module ScheduleRoundTrip {
  import opened Wrappers
  import opened Cron

  // ---- The fields the picker writes ----------------------------------------------

  lemma {:induction false} SameMembersSameList(a: seq<nat>, b: seq<nat>)
    requires Ascending(a) && Ascending(b) && forall v: nat :: v in a <==> v in b
    ensures a == b
  {
    assert a != [] ==> a[0] in b;
    assert b != [] ==> b[0] in a;
    if a != [] && b != [] {
      assert a[0] == b[0];
      forall v: nat ensures v in a[1..] <==> v in b[1..] {
        assert v in a[1..] <==> v in a && v != a[0];
        assert v in b[1..] <==> v in b && v != b[0];
      }
      SameMembersSameList(a[1..], b[1..]);
    }
  }

  lemma ValuesAre(f: Field, lo: nat, hi: nat, values: seq<nat>)
    requires AllValues(f, lo, hi).Some?
    requires Ascending(values) && forall v: nat :: v in values <==> v in AllValues(f, lo, hi).value && v <= hi
    ensures FieldValues(f, lo, hi) == Some(values)
  {
    ListedIsSorted(AllValues(f, lo, hi).value, 0, hi);
    SameMembersSameList(Listed(AllValues(f, lo, hi).value, 0, hi), values);
  }

  lemma OnePart(p: Part, lo: nat, hi: nat)
    ensures AllValues([p], lo, hi) == if Readable(p, lo, hi) then Some(PartValues(p, lo, hi)) else None
  {
    assert [p][1..] == [];
    if Readable(p, lo, hi) {
      assert PartValues(p, lo, hi) + {} == PartValues(p, lo, hi);
    }
  }

  lemma NumValues(n: nat, lo: nat, hi: nat)
    ensures FieldValues(Num(n), lo, hi).Some? <==> lo <= n <= hi
    ensures lo <= n <= hi ==> FieldValues(Num(n), lo, hi) == Some([Fold(n, hi)])
  {
    OnePart(Part(One(n), None), lo, hi);
    if lo <= n <= hi {
      assert Stepped(n, n, 1, hi) == {Fold(n, hi)} + Stepped(n + 1, n, 1, hi);
      ValuesAre(Num(n), lo, hi, [Fold(n, hi)]);
    }
  }

  /** A starred field reads, with or without a step, and starts at its low end. */
  lemma StarValues(step: Option<nat>, lo: nat, hi: nat)
    requires lo <= hi && lo < 7
    ensures var f := [Part(Any, step)];
      && (FieldValues(f, lo, hi).Some? <==> step.None? || step.value >= 1)
      && (FieldValues(f, lo, hi).Some? ==> lo in FieldValues(f, lo, hi).value)
  {
    var p := Part(Any, step);
    OnePart(p, lo, hi);
    if Readable(p, lo, hi) {
      ListedIsSorted(PartValues(p, lo, hi), 0, hi);
      assert Fold(lo, hi) == lo;
    }
  }

  lemma StarIsEveryOne(lo: nat, hi: nat)
    ensures FieldValues([Part(Any, Some(1))], lo, hi) == FieldValues(STAR, lo, hi)
  {
    OnePart(Part(Any, Some(1)), lo, hi);
    OnePart(Part(Any, None), lo, hi);
  }

  function Members(days: seq<nat>): set<nat> {
    set d | d in days
  }

  lemma {:induction false} DayListParts(days: seq<nat>)
    requires forall d | d in days :: d <= 6
    ensures AllValues(DayList(days), 0, MAX_DOW) == Some(Members(days))
    ensures |DayList(days)| == |days|
    ensures days != [] ==> DayList(days)[0] == Part(One(days[0]), None)
  {
    if days == [] {
      assert Members(days) == {};
    } else {
      var d := days[0];
      assert d in days;
      forall e | e in days[1..] ensures e in days {}
      DayListParts(days[1..]);
      assert DayList(days)[1..] == DayList(days[1..]);
      assert Stepped(d, d, 1, MAX_DOW) == {Fold(d, MAX_DOW)} + Stepped(d + 1, d, 1, MAX_DOW);
      assert PartValues(DayList(days)[0], 0, MAX_DOW) == {d};
      assert Members(days) == {d} + Members(days[1..]);
    }
  }

  lemma DayListValues(days: seq<nat>)
    requires Ascending(days) && forall d | d in days :: d <= 6
    ensures FieldValues(DayList(days), 0, MAX_DOW) == Some(days)
  {
    DayListParts(days);
    ValuesAre(DayList(days), 0, MAX_DOW, days);
  }

  lemma WorkweekValues()
    ensures FieldValues([Part(Span(1, 5), None)], 0, MAX_DOW) == Some([1, 2, 3, 4, 5])
  {
    var f: Field := [Part(Span(1, 5), None)];
    OnePart(f[0], 0, MAX_DOW);
    assert Stepped(4, 5, 1, 7) == {4} + ({5} + Stepped(6, 5, 1, 7));
    assert Stepped(2, 5, 1, 7) == {2} + ({3} + Stepped(4, 5, 1, 7));
    assert Stepped(1, 5, 1, 7) == {1} + Stepped(2, 5, 1, 7);
    ValuesAre(f, 0, 7, [1, 2, 3, 4, 5]);
  }

  /** Weekday lists that were read hold 0 to 6, once each, in order. */
  lemma WeekdaysRead(f: Field)
    requires FieldValues(f, 0, MAX_DOW).Some?
    ensures var days := FieldValues(f, 0, MAX_DOW).value; Ascending(days) && forall d | d in days :: d <= 6
  {
    var days := FieldValues(f, 0, MAX_DOW).value;
    ListedIsSorted(AllValues(f, 0, MAX_DOW).value, 0, MAX_DOW);
    forall d | d in days ensures d <= 6 {
      FieldIsUnion(f, 0, 7, d);
    }
  }

  lemma {:induction false} SortedAlready(s: seq<nat>)
    requires Ascending(s)
    ensures Sort(s) == s
  {
    if s != [] {
      SortedAlready(s[1..]);
      if |s| > 1 { assert s[0] < s[1]; }
    }
  }

  // ---- Model to cron and back --------------------------------------------------------

  /** What the picker can hold and write. */
  ghost predicate Showable(m: Model) {
    match m
    case Daily(h, mi) => h <= 23 && mi <= 59
    case Days(h, mi, days) => h <= 23 && mi <= 59 && days != [] && Ascending(days) && forall d | d in days :: d <= 6
    case Monthly(h, mi, dom) => h <= 23 && mi <= 59 && 1 <= dom <= 28
    case EveryMinutes(n) => 1 <= n <= 59
    case EveryHours(n, at) => 1 <= n <= 23 && at <= 59
    case Custom => false
  }

  /** The starred fields read. */
  lemma StarsRead()
    ensures FieldValues(STAR, 0, MAX_MINUTE).Some? && FieldValues(STAR, 0, MAX_MINUTE).value != []
    ensures FieldValues(STAR, 0, MAX_HOUR).Some? && FieldValues(STAR, 0, MAX_HOUR).value != []
    ensures FieldValues(STAR, 1, MAX_DOM).Some? && FieldValues(STAR, 1, MAX_DOM).value != []
    ensures FieldValues(STAR, 1, MAX_MONTH).Some? && FieldValues(STAR, 1, MAX_MONTH).value != []
    ensures FieldValues(STAR, 0, MAX_DOW).Some? && FieldValues(STAR, 0, MAX_DOW).value != []
  {
    StarValues(None, 0, MAX_MINUTE);
    StarValues(None, 0, MAX_HOUR);
    StarValues(None, 1, MAX_DOM);
    StarValues(None, 1, MAX_MONTH);
    StarValues(None, 0, MAX_DOW);
  }

  predicate Present(values: Option<seq<nat>>) {
    values.Some? && values.value != []
  }

  /** The time fields read exactly when they are a time of day. */
  lemma TimeReads(h: nat, mi: nat)
    ensures Present(FieldValues(Num(mi), 0, MAX_MINUTE)) <==> mi <= 59
    ensures Present(FieldValues(Num(h), 0, MAX_HOUR)) <==> h <= 23
  {
    NumValues(mi, 0, MAX_MINUTE);
    NumValues(h, 0, MAX_HOUR);
  }

  /** What the written fields of a model read as, given how each reads alone. */
  lemma ShownIfComplete(m: Model, r: Reads)
    requires m.Daily? || m.Monthly? || m.EveryMinutes? || m.EveryHours?
    ensures |ToCron(m).value| == 5
    ensures var c := ToCron(m).value;
      FromRead(c[0], c[1], c[2], c[3], c[4], r) == m <==>
        && r.Complete()
        && (m.Monthly? ==> m.dom <= 28)
        && (m.EveryMinutes? ==> 1 <= m.n <= 59)
        && (m.EveryHours? ==> 1 <= m.n <= 23)
  {
  }

  lemma TimedComplete(m: Model)
    requires m.Daily? || m.Monthly?
    ensures ReadFields(ToCron(m).value).Complete() <==>
      m.hour <= 23 && m.minute <= 59 && (m.Monthly? ==> 1 <= m.dom <= 31)
  {
    StarsRead();
    TimeReads(m.hour, m.minute);
    if m.Monthly? { NumValues(m.dom, 1, MAX_DOM); }
  }

  lemma MinutesComplete(n: int)
    ensures ReadFields(ToCron(EveryMinutes(n)).value).Complete()
  {
    StarsRead();
    StarValues(Some(ClampRepeat(n, MAX_MINUTE)), 0, MAX_MINUTE);
  }

  lemma HoursComplete(n: int, at: nat)
    ensures ReadFields(ToCron(EveryHours(n, at)).value).Complete() <==> at <= 59
  {
    var c := ClampRepeat(n, MAX_HOUR);
    HourFieldReads(c);
    StarsRead();
    TimeReads(0, at);
  }

  /** The hour field of an hourly repeat. */
  function HourField(c: nat): Field {
    if c == 1 then STAR else [Part(Any, Some(c))]
  }

  lemma HourFieldReads(c: nat)
    requires c >= 1
    ensures Present(FieldValues(HourField(c), 0, MAX_HOUR))
  {
    StarValues(if c == 1 then None else Some(c), 0, MAX_HOUR);
  }

  lemma {:induction false} SortKeeps(days: seq<nat>)
    ensures multiset(Sort(days)) == multiset(days)
    ensures forall d :: d in Sort(days) <==> d in days
  {
    if days != [] {
      SortKeeps(days[1..]);
      InsertAdds(days[0], Sort(days[1..]));
      assert days == [days[0]] + days[1..];
      assert forall d :: d in Sort(days) <==> d in multiset(Sort(days));
      assert forall d :: d in days <==> d in multiset(days);
    }
  }

  lemma {:induction false} InsertAdds(x: nat, s: seq<nat>)
    ensures multiset(Insert(x, s)) == multiset([x] + s)
  {
    if s != [] && x > s[0] {
      InsertAdds(x, s[1..]);
      assert s == [s[0]] + s[1..];
    }
  }

  /** The weekdays chosen, 7 read as 0. */
  function Weekdays(days: seq<nat>): set<nat> {
    set d | d in days :: Fold(d, MAX_DOW)
  }

  predicate UpTo7(days: seq<nat>) {
    forall d | d in days :: d <= 7
  }

  /** A list of days reads as them, unless one is past 7. */
  lemma {:induction false} DayListReads(days: seq<nat>)
    ensures AllValues(DayList(days), 0, MAX_DOW) == if UpTo7(days) then Some(Weekdays(days)) else None
  {
    if days == [] {
      assert Weekdays(days) == {};
    } else {
      var d := days[0];
      DayListReads(days[1..]);
      assert DayList(days)[0] == Part(One(d), None) && DayList(days)[1..] == DayList(days[1..]);
      assert forall e :: e in days <==> e == d || e in days[1..];
      assert UpTo7(days) <==> d <= 7 && UpTo7(days[1..]);
      if d <= 7 {
        assert Stepped(d, d, 1, MAX_DOW) == {Fold(d, MAX_DOW)} + Stepped(d + 1, d, 1, MAX_DOW);
        assert PartValues(DayList(days)[0], 0, MAX_DOW) == {Fold(d, MAX_DOW)};
        assert Weekdays(days) == {Fold(d, MAX_DOW)} + Weekdays(days[1..]);
      }
    }
  }

  /** A field reads as exactly these values. */
  ghost predicate ReadsAs(f: Field, days: seq<nat>) {
    && (FieldValues(f, 0, MAX_DOW).Some? <==> UpTo7(days))
    && (FieldValues(f, 0, MAX_DOW).Some? ==> forall d: nat :: d in FieldValues(f, 0, MAX_DOW).value <==> d in Weekdays(days))
  }

  lemma DayListReadsAs(days: seq<nat>)
    ensures ReadsAs(DayList(days), days)
  {
    hide AllValues, DayList;
    DayListReads(days);
    if UpTo7(days) {
      ListedIsSorted(Weekdays(days), 0, MAX_DOW);
    }
  }

  lemma WorkweekReadsAs(days: seq<nat>)
    requires days == [1, 2, 3, 4, 5]
    ensures ReadsAs([Part(Span(1, 5), None)], days)
  {
    hide FieldValues, AllValues;
    WorkweekValues();
    assert forall d :: d in days <==> d in [1, 2, 3, 4, 5];
  }

  /** What the written weekday field reads as. */
  lemma DaysFieldReads(days: seq<nat>)
    ensures ReadsAs(DaysField(days), days)
  {
    hide ReadsAs, DayList;
    if days == [1, 2, 3, 4, 5] {
      WorkweekReadsAs(days);
    } else {
      DayListReadsAs(days);
    }
  }

  /** What becomes of any chosen days: custom exactly when the time is none, no day is
      chosen or one is past 7; else the same time with exactly the weekdays chosen, 7
      read as 0, in order. */
  lemma DaysComeBack(h: nat, mi: nat, days: seq<nat>)
    ensures var back := FromCron(ToCron(Days(h, mi, days)).value);
      if h > 23 || mi > 59 || days == [] || exists d :: d in days && d > 7 then back == Custom
      else back.Days? && back.hour == h && back.minute == mi && Ascending(back.days) && forall d: nat :: d in back.days <==> d in Weekdays(days)
  {
    var sorted := Sort(days);
    SortKeeps(days);
    assert Weekdays(sorted) == Weekdays(days);
    if days != [] {
      var c := ToCron(Days(h, mi, days)).value;
      assert c == [Num(mi), Num(h), STAR, STAR, DaysField(sorted)];
      TimeReads(h, mi);
      DaysFieldReads(sorted);
      if FieldValues(c[4], 0, MAX_DOW).Some? {
        var values := FieldValues(c[4], 0, MAX_DOW).value;
        WeekdaysRead(c[4]);
        NotStar(c[4], sorted);
        assert Fold(days[0], MAX_DOW) in Weekdays(days);
        assert values != [];
        if h <= 23 && mi <= 59 {
          DaysComplete(h, mi, sorted);
          ShownDays(c[0], c[1], c[2], c[3], c[4], ReadFields(c), h, mi, values);
        }
      }
    }
  }

  lemma NotStar(f: Field, sorted: seq<nat>)
    requires f == [Part(Span(1, 5), None)] || f == DayList(sorted)
    ensures !IsStar(f)
  {
    if sorted != [] {
      assert DayList(sorted)[0] == Part(One(sorted[0]), None);
    }
  }

  lemma ShowableDaysComeBack(h: nat, mi: nat, days: seq<nat>)
    requires Showable(Days(h, mi, days))
    ensures FromCron(ToCron(Days(h, mi, days)).value) == Days(h, mi, days)
  {
    SortedAlready(days);
    WrittenDays(days);
    var c := ToCron(Days(h, mi, days)).value;
    assert c[4] == DaysField(days);
    ShownDays(c[0], c[1], c[2], c[3], c[4], ReadFields(c), h, mi, days);
    DaysComplete(h, mi, days);
  }

  lemma DaysComplete(h: nat, mi: nat, days: seq<nat>)
    requires h <= 23 && mi <= 59 && Present(FieldValues(DaysField(days), 0, MAX_DOW))
    ensures ReadFields([Num(mi), Num(h), STAR, STAR, DaysField(days)]).Complete()
  {
    StarsRead();
    TimeReads(h, mi);
  }

  lemma ShownDays(c0: Field, c1: Field, c2: Field, c3: Field, c4: Field, r: Reads, h: nat, mi: nat, days: seq<nat>)
    requires c0 == Num(mi) && c1 == Num(h) && IsStar(c2) && IsStar(c3) && !IsStar(c4)
    requires r.dow == Some(days)
    ensures r.Complete() ==> FromRead(c0, c1, c2, c3, c4, r) == Days(h, mi, days)
  {
  }

  /** The weekday field the picker writes for days in order. */
  function DaysField(days: seq<nat>): Field {
    if days == [1, 2, 3, 4, 5] then [Part(Span(1, 5), None)] else DayList(days)
  }

  lemma WrittenDays(days: seq<nat>)
    requires Ascending(days) && forall d | d in days :: d <= 6
    ensures FieldValues(DaysField(days), 0, MAX_DOW) == Some(days)
    ensures !IsStar(DaysField(days))
  {
    DayListValues(days);
    WorkweekValues();
    NotStar(DaysField(days), days);
  }

  lemma DaysRoundTrip(h: nat, mi: nat, days: seq<nat>)
    ensures FromCron(ToCron(Days(h, mi, days)).value) == Days(h, mi, days) <==> Showable(Days(h, mi, days))
  {
    hide FromCron;
    DaysComeBack(h, mi, days);
    if Showable(Days(h, mi, days)) {
      ShowableDaysComeBack(h, mi, days);
    }
  }

  /** The picker's model comes back unchanged exactly when it is one it can show. */
  lemma ModelRoundTrip(m: Model)
    ensures ToCron(m).Some? && FromCron(ToCron(m).value) == m <==> Showable(m)
  {
    match m
    case Days(h, mi, days) => DaysRoundTrip(h, mi, days);
    case Custom =>
    case _ =>
      ShownIfComplete(m, ReadFields(ToCron(m).value));
      match m {
        case EveryMinutes(n) => MinutesComplete(n);
        case EveryHours(n, at) => HoursComplete(n, at);
        case _ => TimedComplete(m);
      }
  }

  // ---- Cron to model and back ---------------------------------------------------------

  /** The two crons run at the same minutes, hours and days: equal value sets, and
      the same day fields left open, which the day rule asks. */
  predicate SameRuns(a: seq<Field>, b: seq<Field>) {
    && |a| == |b| == 5
    && ReadFields(a).Complete()
    && ReadFields(a) == ReadFields(b)
    && (IsStar(a[2]) <==> IsStar(b[2]))
    && (IsStar(a[4]) <==> IsStar(b[4]))
  }

  predicate StepInRange(m: Model) {
    (m.EveryMinutes? ==> m.n <= 59) && (m.EveryHours? ==> m.n <= 23)
  }

  lemma FieldShape(f: Field)
    ensures IsNum(f) ==> f == Num(NumberOf(f))
    ensures IsEvery(f) ==> f == [Part(Any, Some(EveryOf(f)))]
    ensures IsStar(f) ==> f == STAR
  {
    if |f| == 1 {
      assert f == [f[0]];
    }
  }

  /** The fields a shown model was read from. */
  lemma ReadShape(c0: Field, c1: Field, c2: Field, c3: Field, c4: Field, r: Reads)
    ensures match FromRead(c0, c1, c2, c3, c4, r)
      case Daily(h, mi) => c0 == Num(mi) && c1 == Num(h) && c2 == c3 == c4 == STAR
      case Days(h, mi, days) => c0 == Num(mi) && c1 == Num(h) && c2 == c3 == STAR && !IsStar(c4) && r.dow == Some(days)
      case Monthly(h, mi, dom) => c0 == Num(mi) && c1 == Num(h) && c2 == Num(dom) && c3 == c4 == STAR
      case EveryMinutes(n) => n >= 0 && c0 == [Part(Any, Some(n))] && c1 == c2 == c3 == c4 == STAR
      case EveryHours(n, at) => n >= 0 && c0 == Num(at) && (c1 == [Part(Any, Some(n))] || (n == 1 && c1 == STAR)) && c2 == c3 == c4 == STAR
      case Custom => true
    ensures FromRead(c0, c1, c2, c3, c4, r) != Custom ==> r.Complete()
  {
    FieldShape(c0);
    FieldShape(c1);
    FieldShape(c2);
    FieldShape(c3);
    FieldShape(c4);
  }

  /** A step wider than its field only ever hits the low end; the widest step the
      picker writes also hits the high end. */
  lemma WideStep(n: nat, hi: nat)
    requires n > hi >= 8
    ensures FieldValues([Part(Any, Some(n))], 0, hi) != FieldValues([Part(Any, Some(hi))], 0, hi)
  {
    WideMisses(n, hi);
    var most := Part(Any, Some(hi));
    FieldIsUnion([most], 0, hi, hi);
    assert most in [most] && Reached(0, hi, hi, hi) by { assert hi == 0 + 1 * hi; }
    assert forall q | q in [most] :: q == most;
    assert hi == Fold(hi, hi);
  }

  lemma WideMisses(n: nat, hi: nat)
    requires n > hi
    ensures FieldValues([Part(Any, Some(n))], 0, hi).Some? ==> forall v | v in FieldValues([Part(Any, Some(n))], 0, hi).value :: v == 0
  {
    var f: Field := [Part(Any, Some(n))];
    OnePart(f[0], 0, hi);
    if FieldValues(f, 0, hi).Some? {
      assert Stepped(0, hi, n, hi) == {Fold(0, hi)} + Stepped(n, hi, n, hi);
      ListedIsSorted(AllValues(f, 0, hi).value, 0, hi);
    }
  }

  lemma MinuteFieldRewritten(n: nat)
    requires FieldValues([Part(Any, Some(n))], 0, MAX_MINUTE).Some?
    ensures FieldValues([Part(Any, Some(n))], 0, MAX_MINUTE) == FieldValues([Part(Any, Some(ClampRepeat(n, MAX_MINUTE)))], 0, MAX_MINUTE)
       <==> n <= 59
  {
    StarValues(Some(n), 0, MAX_MINUTE);
    if n > 59 { WideStep(n, MAX_MINUTE); }
  }

  lemma HourFieldRewritten(f: Field, n: nat)
    requires f == [Part(Any, Some(n))] || (n == 1 && f == STAR)
    requires FieldValues(f, 0, MAX_HOUR).Some?
    ensures FieldValues(f, 0, MAX_HOUR) == FieldValues(HourField(ClampRepeat(n, MAX_HOUR)), 0, MAX_HOUR) <==> n <= 23
  {
    StarIsEveryOne(0, MAX_HOUR);
    if f == [Part(Any, Some(n))] { StarValues(Some(n), 0, MAX_HOUR); }
    if n > 23 { WideStep(n, MAX_HOUR); }
  }

  /** Only one field differs. */
  lemma OneFieldDiffers(a: seq<Field>, b: seq<Field>, k: nat, lo: nat, hi: nat)
    requires |a| == |b| == 5 && k < 5 && forall i | 0 <= i < 5 && i != k :: a[i] == b[i]
    requires k == 0 ==> lo == 0 && hi == MAX_MINUTE
    requires k == 1 ==> lo == 0 && hi == MAX_HOUR
    requires k == 4 ==> lo == 0 && hi == MAX_DOW
    requires k in {0, 1, 4} && (k == 4 ==> (IsStar(a[4]) <==> IsStar(b[4])))
    requires ReadFields(a).Complete()
    ensures SameRuns(a, b) <==> FieldValues(a[k], lo, hi) == FieldValues(b[k], lo, hi)
  {
  }

  lemma DaysRewritten(c: seq<Field>, h: nat, mi: nat, days: seq<nat>)
    requires |c| == 5 && c[0] == Num(mi) && c[1] == Num(h) && c[2] == c[3] == STAR && !IsStar(c[4])
    requires ReadFields(c).Complete() && FieldValues(c[4], 0, MAX_DOW) == Some(days)
    ensures SameRuns(c, ToCron(Days(h, mi, days)).value)
  {
    hide FieldValues;
    WeekdaysRead(c[4]);
    SortedAlready(days);
    WrittenDays(days);
    var back := ToCron(Days(h, mi, days)).value;
    assert back[4] == DaysField(days);
    OneFieldDiffers(c, back, 4, 0, MAX_DOW);
  }

  lemma MinutesRewritten(c: seq<Field>, n: nat)
    requires |c| == 5 && c[0] == [Part(Any, Some(n))] && c[1] == c[2] == c[3] == c[4] == STAR
    requires ReadFields(c).Complete()
    ensures SameRuns(c, ToCron(EveryMinutes(n)).value) <==> n <= 59
  {
    hide FieldValues;
    MinuteFieldRewritten(n);
    OneFieldDiffers(c, ToCron(EveryMinutes(n)).value, 0, 0, MAX_MINUTE);
  }

  lemma HoursRewritten(c: seq<Field>, n: nat, at: nat)
    requires |c| == 5 && c[0] == Num(at) && c[2] == c[3] == c[4] == STAR
    requires c[1] == [Part(Any, Some(n))] || (n == 1 && c[1] == STAR)
    requires ReadFields(c).Complete()
    ensures SameRuns(c, ToCron(EveryHours(n, at)).value) <==> n <= 23
  {
    hide FieldValues;
    HourFieldRewritten(c[1], n);
    var back := ToCron(EveryHours(n, at)).value;
    assert back[1] == HourField(ClampRepeat(n, MAX_HOUR));
    OneFieldDiffers(c, back, 1, 0, MAX_HOUR);
  }

  /** A cron the picker shows is rewritten to one that runs at the same times,
      exactly when its step is one the picker keeps. */
  lemma CronRoundTrip(c: seq<Field>)
    requires FromCron(c) != Custom
    ensures ToCron(FromCron(c)).Some?
    ensures SameRuns(c, ToCron(FromCron(c)).value) <==> StepInRange(FromCron(c))
  {
    hide FieldValues;
    ReadShape(c[0], c[1], c[2], c[3], c[4], ReadFields(c));
    match FromCron(c)
    case Daily(h, mi) => assert ToCron(Daily(h, mi)).value == c;
    case Days(h, mi, days) => DaysRewritten(c, h, mi, days);
    case Monthly(h, mi, dom) => assert ToCron(Monthly(h, mi, dom)).value == c;
    case EveryMinutes(n) => MinutesRewritten(c, n);
    case EveryHours(n, at) => HoursRewritten(c, n, at);
  }
}
