/** Cron expressions and the schedule picker's plain models
    (frontend/src/lib/schedule.ts:50-162). A field's text is its list of parts; the
    spelling of a number (leading zeros) is not kept. */
module Cron {
  import opened Wrappers

  datatype Range =
    | Any
    | One(a: nat)
    | Span(a: nat, b: nat)

  /** One comma-separated part: a range with an optional step, or anything the
      field pattern does not match. */
  datatype Part =
    | Unreadable
    | Part(range: Range, step: Option<nat>)

  type Field = seq<Part>

  const MAX_MINUTE: nat := 59
  const MAX_HOUR: nat := 23
  const MAX_DOM: nat := 31
  const MAX_MONTH: nat := 12
  const MAX_DOW: nat := 7

  const STAR: Field := [Part(Any, None)]

  function Num(n: nat): Field {
    [Part(One(n), None)]
  }

  predicate IsStar(f: Field) {
    |f| == 1 && f[0] == Part(Any, None)
  }

  predicate IsNum(f: Field) {
    |f| == 1 && f[0].Part? && f[0].range.One? && f[0].step.None?
  }

  /** The n of a field written `*` with a step. */
  predicate IsEvery(f: Field) {
    |f| == 1 && f[0].Part? && f[0].range.Any? && f[0].step.Some?
  }

  // ---- One field ----------------------------------------------------------------

  function First(p: Part, lo: nat): nat
    requires p.Part?
  {
    if p.range.Any? then lo else p.range.a
  }

  function Last(p: Part, hi: nat): nat
    requires p.Part?
  {
    match p.range
    case Any => hi
    case One(a) => if p.step.Some? then hi else a
    case Span(_, b) => b
  }

  function StepOf(p: Part): nat
    requires p.Part?
  {
    if p.step.Some? then p.step.value else 1
  }

  predicate Readable(p: Part, lo: nat, hi: nat) {
    p.Part? && First(p, lo) >= lo && Last(p, hi) <= hi && First(p, lo) <= Last(p, hi) && StepOf(p) >= 1
  }

  /** Weekday 7 is Sunday again. */
  function Fold(v: nat, hi: nat): nat {
    if hi == MAX_DOW && v == 7 then 0 else v
  }

  function Stepped(a: nat, b: nat, step: nat, hi: nat): set<nat>
    requires step >= 1
    decreases if a <= b then b - a + 1 else 0
  {
    if a > b then {} else {Fold(a, hi)} + Stepped(a + step, b, step, hi)
  }

  function PartValues(p: Part, lo: nat, hi: nat): set<nat>
    requires Readable(p, lo, hi)
  {
    Stepped(First(p, lo), Last(p, hi), StepOf(p), hi)
  }

  /** The union over the parts, if they all read. */
  function AllValues(f: Field, lo: nat, hi: nat): Option<set<nat>> {
    if f == [] then Some({})
    else if !Readable(f[0], lo, hi) then None
    else
      match AllValues(f[1..], lo, hi)
      case None => None
      case Some(rest) => Some(PartValues(f[0], lo, hi) + rest)
  }

  /** The members of s from `from` up to `to`, in order. */
  function Listed(s: set<nat>, from: nat, to: nat): seq<nat>
    decreases if from <= to then to - from + 1 else 0
  {
    if from > to then [] else (if from in s then [from] else []) + Listed(s, from + 1, to)
  }

  function FieldValues(f: Field, lo: nat, hi: nat): Option<seq<nat>> {
    match AllValues(f, lo, hi)
    case None => None
    case Some(values) => Some(Listed(values, 0, hi))
  }

  /** `cronField`. */
  method CronField(field: Field, lo: nat, hi: nat) returns (r: Option<seq<nat>>)
    ensures r == FieldValues(field, lo, hi)
  {
    var out: set<nat> := {};
    for i := 0 to |field|
      invariant AllValues(field[..i], lo, hi) == Some(out)
    {
      var part := field[i];
      AllValuesExtend(field, i, lo, hi);
      if part.Unreadable? {
        return None;
      }
      var a, b, step := First(part, lo), Last(part, hi), StepOf(part);
      if a < lo || b > hi || a > b || step < 1 {
        return None;
      }
      out := AddSteps(out, a, b, step, hi);
    }
    assert field[..|field|] == field;
    r := Some(Sorted(out, hi));
  }

  /** The inner loop. */
  method AddSteps(values: set<nat>, a: nat, b: nat, step: nat, hi: nat) returns (out: set<nat>)
    requires step >= 1
    ensures out == values + Stepped(a, b, step, hi)
  {
    out := values;
    var v := a;
    while v <= b
      invariant out + Stepped(v, b, step, hi) == values + Stepped(a, b, step, hi)
      decreases b - v
    {
      out := out + {if hi == MAX_DOW && v == 7 then 0 else v};
      v := v + step;
    }
  }

  lemma {:induction false} AllValuesExtend(f: Field, i: nat, lo: nat, hi: nat)
    requires i < |f| && AllValues(f[..i], lo, hi).Some?
    ensures Readable(f[i], lo, hi) ==>
      AllValues(f[..i + 1], lo, hi) == Some(AllValues(f[..i], lo, hi).value + PartValues(f[i], lo, hi))
    ensures !Readable(f[i], lo, hi) ==> AllValues(f, lo, hi).None?
  {
    if i == 0 {
      assert f[..1][1..] == [] && f[..0] == [];
      if Readable(f[0], lo, hi) {
        assert PartValues(f[0], lo, hi) + {} == {} + PartValues(f[0], lo, hi);
      }
    } else {
      assert f[..i + 1][1..] == f[1..][..i] && f[..i][1..] == f[1..][..i - 1];
      AllValuesExtend(f[1..], i - 1, lo, hi);
      if Readable(f[i], lo, hi) {
        var a, b, c := PartValues(f[0], lo, hi), AllValues(f[1..][..i - 1], lo, hi).value, PartValues(f[i], lo, hi);
        assert a + (b + c) == (a + b) + c;
      }
    }
  }

  /** `[...out].sort(...)` of values up to `hi`. */
  function Sorted(out: set<nat>, hi: nat): seq<nat> {
    Listed(out, 0, hi)
  }

  ghost predicate Ascending(s: seq<nat>) {
    forall i, j | 0 <= i < j < |s| :: s[i] < s[j]
  }

  lemma {:induction false} ListedIsSorted(s: set<nat>, from: nat, to: nat)
    ensures Ascending(Listed(s, from, to))
    ensures forall v: nat :: v in Listed(s, from, to) <==> v in s && from <= v <= to
    decreases if from <= to then to - from + 1 else 0
  {
    if from <= to {
      ListedIsSorted(s, from + 1, to);
      var rest := Listed(s, from + 1, to);
      assert forall i | 0 <= i < |rest| :: rest[i] in rest;
    }
  }

  /** v is one of a, a + step, a + 2 step, ... not past b. */
  ghost predicate Reached(a: nat, b: nat, step: nat, v: nat) {
    v <= b && exists k: nat :: v == a + k * step
  }

  lemma {:induction false} SteppedReaches(a: nat, b: nat, step: nat, hi: nat, x: nat)
    requires step >= 1
    ensures x in Stepped(a, b, step, hi) <==> exists v: nat :: Reached(a, b, step, v) && x == Fold(v, hi)
    decreases if a <= b then b - a + 1 else 0
  {
    if a <= b {
      SteppedReaches(a + step, b, step, hi, x);
      if x == Fold(a, hi) {
        assert a == a + 0 * step;
        assert Reached(a, b, step, a);
      }
      if v: nat :| Reached(a + step, b, step, v) && x == Fold(v, hi) {
        var k: nat :| v == a + step + k * step;
        assert v == a + (k + 1) * step;
        assert Reached(a, b, step, v);
      }
      if v: nat :| Reached(a, b, step, v) && x == Fold(v, hi) {
        var k: nat :| v == a + k * step;
        if k > 0 {
          assert v == (a + step) + (k - 1) * step;
          assert Reached(a + step, b, step, v);
        }
      }
    } else {
      if v: nat :| Reached(a, b, step, v) {
        ReachedIsInside(a, b, step, v);
        assert false;
      }
    }
  }

  lemma ReachedIsInside(a: nat, b: nat, step: nat, v: nat)
    requires Reached(a, b, step, v)
    ensures a <= v <= b
  {
    var k: nat :| v == a + k * step;
    assert k * step >= 0;
  }

  lemma {:induction false} AllValuesMembers(f: Field, lo: nat, hi: nat, x: nat)
    ensures AllValues(f, lo, hi).Some? <==> forall p | p in f :: Readable(p, lo, hi)
    ensures AllValues(f, lo, hi).Some? ==>
      (x in AllValues(f, lo, hi).value <==> exists p :: p in f && Readable(p, lo, hi) && x in PartValues(p, lo, hi))
  {
    if f != [] {
      AllValuesMembers(f[1..], lo, hi, x);
      assert forall p :: p in f <==> p == f[0] || p in f[1..];
    }
  }

  /** A field that reads gives, in ascending order and once each, exactly the values
      its parts step through, 7 read as 0 for weekdays; it reads when every part is
      readable and inside the field's range. */
  lemma FieldIsUnion(f: Field, lo: nat, hi: nat, x: nat)
    ensures FieldValues(f, lo, hi).Some? <==> forall p | p in f :: Readable(p, lo, hi)
    ensures FieldValues(f, lo, hi).Some? ==> Ascending(FieldValues(f, lo, hi).value)
    ensures FieldValues(f, lo, hi).Some? ==>
      (x in FieldValues(f, lo, hi).value <==>
       exists p, v: nat :: p in f && Reached(First(p, lo), Last(p, hi), StepOf(p), v) && x == Fold(v, hi))
  {
    AllValuesMembers(f, lo, hi, x);
    if FieldValues(f, lo, hi).Some? {
      ListedIsSorted(AllValues(f, lo, hi).value, 0, hi);
      forall p | p in f
        ensures x in PartValues(p, lo, hi) <==>
          exists v: nat :: Reached(First(p, lo), Last(p, hi), StepOf(p), v) && x == Fold(v, hi)
      {
        SteppedReaches(First(p, lo), Last(p, hi), StepOf(p), hi, x);
      }
      if p :| p in f && x in PartValues(p, lo, hi) {
        var v: nat :| Reached(First(p, lo), Last(p, hi), StepOf(p), v) && x == Fold(v, hi);
        assert x <= hi;
      }
    }
  }

  // ---- Five fields ----------------------------------------------------------------

  datatype CronParts = CronParts(
    raw: seq<Field>,
    minutes: seq<nat>,
    hours: seq<nat>,
    dom: seq<nat>,
    months: seq<nat>,
    dow: seq<nat>)

  /** The five fields, each read or not. */
  datatype Reads = Reads(
    minutes: Option<seq<nat>>,
    hours: Option<seq<nat>>,
    dom: Option<seq<nat>>,
    months: Option<seq<nat>>,
    dow: Option<seq<nat>>)
  {
    predicate Complete() {
      && minutes.Some? && minutes.value != []
      && hours.Some? && hours.value != []
      && dom.Some? && dom.value != []
      && months.Some? && months.value != []
      && dow.Some? && dow.value != []
    }
  }

  function ReadFields(p: seq<Field>): Reads
    requires |p| == 5
  {
    Reads(
      FieldValues(p[0], 0, MAX_MINUTE),
      FieldValues(p[1], 0, MAX_HOUR),
      FieldValues(p[2], 1, MAX_DOM),
      FieldValues(p[3], 1, MAX_MONTH),
      FieldValues(p[4], 0, MAX_DOW))
  }

  /** `cronParts`, on the whitespace-separated fields. */
  function Parts(p: seq<Field>): Option<CronParts> {
    if |p| != 5 || !ReadFields(p).Complete() then None
    else
      var r := ReadFields(p);
      Some(CronParts(p, r.minutes.value, r.hours.value, r.dom.value, r.months.value, r.dow.value))
  }

  // ---- The picker's models -----------------------------------------------------------

  /** The fields the picker shows in each mode. */
  datatype Model =
    | Daily(hour: nat, minute: nat)
    | Days(hour: nat, minute: nat, days: seq<nat>)
    | Monthly(hour: nat, minute: nat, dom: nat)
    | EveryMinutes(n: int)
    | EveryHours(n: int, at: nat)
    | Custom

  function NumberOf(f: Field): nat
    requires IsNum(f)
  {
    f[0].range.a
  }

  function EveryOf(f: Field): nat
    requires IsEvery(f)
  {
    f[0].step.value
  }

  /** `scheduleFromCron`. */
  function FromCron(cron: seq<Field>): Model {
    if |cron| != 5 then Custom else FromRead(cron[0], cron[1], cron[2], cron[3], cron[4], ReadFields(cron))
  }

  function FromRead(mi: Field, h: Field, dom: Field, mon: Field, dow: Field, r: Reads): Model {
    if !r.Complete() then Custom else FromFields(mi, h, dom, mon, dow, r.dow.value)
  }

  function FromFields(mi: Field, h: Field, dom: Field, mon: Field, dow: Field, weekdays: seq<nat>): Model {
    var timed := IsNum(mi) && IsNum(h);
    if !IsStar(mon) then Custom
    else if timed && IsStar(dom) && IsStar(dow) then Daily(NumberOf(h), NumberOf(mi))
    else if timed && IsStar(dom) then Days(NumberOf(h), NumberOf(mi), weekdays)
    else if timed && IsNum(dom) && IsStar(dow) && NumberOf(dom) <= 28 then Monthly(NumberOf(h), NumberOf(mi), NumberOf(dom))
    else if IsStar(dom) && IsStar(dow) then
      if IsEvery(mi) && IsStar(h) then EveryMinutes(EveryOf(mi))
      else if IsEvery(h) && IsNum(mi) then EveryHours(EveryOf(h), NumberOf(mi))
      else if IsNum(mi) && IsStar(h) then EveryHours(1, NumberOf(mi))
      else Custom
    else Custom
  }

  /** `clampRepeat` on a whole number, which 0 is not taken for. */
  function ClampRepeat(n: int, most: nat): (r: nat)
    requires most >= 1
    ensures 1 <= r <= most
    ensures 1 <= n <= most ==> r == n
  {
    var v := if n == 0 then 1 else n;
    if v < 1 then 1 else if v > most then most else v
  }

  function Insert(x: nat, s: seq<nat>): (r: seq<nat>)
    ensures |r| == |s| + 1
  {
    if s == [] || x <= s[0] then [x] + s else [s[0]] + Insert(x, s[1..])
  }

  function Sort(s: seq<nat>): (r: seq<nat>)
    ensures |r| == |s|
  {
    if s == [] then [] else Insert(s[0], Sort(s[1..]))
  }

  function DayList(days: seq<nat>): Field {
    if days == [] then [] else Num(days[0]) + DayList(days[1..])
  }

  /** `cronFromSchedule`. With no day chosen the text ends after four fields. */
  function ToCron(m: Model): Option<seq<Field>> {
    match m
    case Daily(h, mi) => Some([Num(mi), Num(h), STAR, STAR, STAR])
    case Days(h, mi, days) =>
      var sorted := Sort(days);
      if sorted == [] then Some([Num(mi), Num(h), STAR, STAR])
      else if sorted == [1, 2, 3, 4, 5] then Some([Num(mi), Num(h), STAR, STAR, [Part(Span(1, 5), None)]])
      else Some([Num(mi), Num(h), STAR, STAR, DayList(sorted)])
    case Monthly(h, mi, dom) => Some([Num(mi), Num(h), Num(dom), STAR, STAR])
    case EveryMinutes(n) => Some([[Part(Any, Some(ClampRepeat(n, MAX_MINUTE)))], STAR, STAR, STAR, STAR])
    case EveryHours(n, at) =>
      var c := ClampRepeat(n, MAX_HOUR);
      if c == 1 then Some([Num(at), STAR, STAR, STAR, STAR])
      else Some([Num(at), [Part(Any, Some(c))], STAR, STAR, STAR])
    case Custom => None
  }
}
