/** The reconnecting socket (packages/shared/src/realtime.ts): the closure's three
    variables, and the world of pending token requests, timers and sockets that calls
    its handlers in any order. `log` is what an observer saw. */
module Realtime {
  import opened Powers
  import opened Wrappers

  datatype Reason = Initial | AuthRejected | Reconnect

  datatype Status = Connecting | Opened | Reconnecting | Closed

  datatype Timer = Timer(reason: Reason, delay: nat)

  const FIRST_BACKOFF_MS: nat := 1000
  const MAX_BACKOFF_MS: nat := 15000
  const TOKEN_REJECTED: nat := 4401
  const WRONG_TENANT: nat := 4403

  datatype Note =
    | Asked(reason: Reason)
    | Created(id: nat)
    | Open(id: nat)
    | Dropped(id: nat, code: nat)
    | Waits(timer: Timer)
    | Threw
    | UserClosed

  /** `live` holds the sockets created whose close event has not come; `closing`
      those told to close. */
  datatype World = World(
    closed: bool,
    backoff: nat,
    socket: Option<nat>,
    status: Status,
    requests: multiset<Reason>,
    timers: multiset<Timer>,
    live: set<nat>,
    closing: set<nat>,
    next: nat,
    log: seq<Note>)

  /** What the world does next. A token request can bring a token, nothing, or an
      exception; creating the socket may throw. */
  datatype Event =
    | TokenComes(reason: Reason, token: Option<string>, creates: bool)
    | TokenThrows(reason: Reason)
    | Opens(id: nat)
    | Errs(id: nat)
    | Closes(id: nat, code: nat)
    | Fires(timer: Timer)
    | CallerCloses

  predicate Enabled(w: World, e: Event) {
    match e
    case TokenComes(reason, _, _) => reason in w.requests
    case TokenThrows(reason) => reason in w.requests
    case Opens(id) => id in w.live && id !in w.closing
    case Errs(id) => id in w.live
    case Closes(id, _) => id in w.live
    case Fires(timer) => timer in w.timers
    case CallerCloses => true
  }

  function Doubled(backoff: nat): nat {
    if backoff * 2 < MAX_BACKOFF_MS then backoff * 2 else MAX_BACKOFF_MS
  }

  /** `connect`, up to the token request. */
  function Requesting(w: World, reason: Reason): World {
    if w.closed then w
    else w.(status := if reason == Initial then Connecting else Reconnecting, requests := w.requests + multiset{reason}, log := w.log + [Asked(reason)])
  }

  /** `connect`, from the token on. */
  function Connected(w: World, reason: Reason, token: Option<string>, creates: bool): World {
    var w := w.(requests := w.requests - multiset{reason});
    if w.closed then w
    else if token.None? || token.value == "" then w.(status := Closed)
    else if !creates then w.(log := w.log + [Threw])
    else w.(socket := Some(w.next), live := w.live + {w.next}, next := w.next + 1, log := w.log + [Created(w.next)])
  }

  function TimerFor(code: nat, backoff: nat): Timer {
    if code == TOKEN_REJECTED then Timer(AuthRejected, 0) else Timer(Reconnect, backoff)
  }

  /** The close handler. */
  function Closing(w: World, id: nat, code: nat): World {
    var w := w.(live := w.live - {id}, socket := None, log := w.log + [Dropped(id, code)]);
    if w.closed then w
    else if code == WRONG_TENANT then w.(status := Closed)
    else
      var timer := TimerFor(code, w.backoff);
      w.(status := Reconnecting, timers := w.timers + multiset{timer}, backoff := Doubled(w.backoff), log := w.log + [Waits(timer)])
  }

  /** `socket?.close()`. */
  function ToldToClose(w: World): World {
    if w.socket.Some? then w.(closing := w.closing + {w.socket.value}) else w
  }

  function Step(w: World, e: Event): World {
    match e
    case TokenComes(reason, token, creates) => Connected(w, reason, token, creates)
    case TokenThrows(reason) => w.(requests := w.requests - multiset{reason}, log := w.log + [Threw])
    case Opens(id) => w.(backoff := FIRST_BACKOFF_MS, status := Opened, log := w.log + [Open(id)])
    case Errs(_) => ToldToClose(w)
    case Closes(id, code) => Closing(w, id, code)
    case Fires(timer) => Requesting(w.(timers := w.timers - multiset{timer}), timer.reason)
    case CallerCloses => ToldToClose(w.(closed := true, log := w.log + [UserClosed]))
  }

  const START := World(false, FIRST_BACKOFF_MS, None, Connecting, multiset{Initial}, multiset{}, {}, {}, 0, [Asked(Initial)])

  ghost predicate CanRun(w: World, es: seq<Event>)
    decreases es
  {
    es != [] ==> Enabled(w, es[0]) && CanRun(Step(w, es[0]), es[1..])
  }

  ghost function Run(w: World, es: seq<Event>): World
    decreases es
  {
    if es == [] then w else Run(Step(w, es[0]), es[1..])
  }

  // ---- The handlers ---------------------------------------------------------------------

  /** What lies outside the closure. */
  datatype Env = Env(requests: multiset<Reason>, timers: multiset<Timer>, live: set<nat>, closing: set<nat>, next: nat, log: seq<Note>)

  class Connection {
    var closed: bool
    var backoff: nat
    var socket: Option<nat>
    var status: Status
    var env: Env

    function Value(): World
      reads this
    {
      World(closed, backoff, socket, status, env.requests, env.timers, env.live, env.closing, env.next, env.log)
    }

    constructor ()
      ensures Value() == START
    {
      closed, backoff, socket, status := false, FIRST_BACKOFF_MS, None, Connecting;
      env := Env(multiset{}, multiset{}, {}, {}, 0, []);
      new;
      Connect(Initial);
    }

    method Connect(reason: Reason)
      modifies this
      ensures Value() == Requesting(old(Value()), reason)
    {
      if closed { return; }
      status := if reason == Initial then Connecting else Reconnecting;
      env := env.(requests := env.requests + multiset{reason}, log := env.log + [Asked(reason)]);
    }

    method OnToken(reason: Reason, token: Option<string>, creates: bool)
      modifies this
      ensures Value() == Connected(old(Value()), reason, token, creates)
    {
      env := env.(requests := env.requests - multiset{reason});
      if closed { return; }
      if token.None? || token.value == "" {
        status := Closed;
        return;
      }
      if !creates {
        env := env.(log := env.log + [Threw]);
        return;
      }
      socket := Some(env.next);
      env := env.(live := env.live + {env.next}, next := env.next + 1, log := env.log + [Created(env.next)]);
    }

    method OnClose(id: nat, code: nat)
      modifies this
      ensures Value() == Closing(old(Value()), id, code)
    {
      env := env.(live := env.live - {id}, log := env.log + [Dropped(id, code)]);
      socket := None;
      if closed { return; }
      if code == WRONG_TENANT {
        status := Closed;
        return;
      }
      var nextReason := if code == TOKEN_REJECTED then AuthRejected else Reconnect;
      var delay := if nextReason == AuthRejected then 0 else backoff;
      status := Reconnecting;
      var timer := Timer(nextReason, delay);
      env := env.(timers := env.timers + multiset{timer}, log := env.log + [Waits(timer)]);
      backoff := if backoff * 2 < MAX_BACKOFF_MS then backoff * 2 else MAX_BACKOFF_MS;
    }

    method CloseSocket()
      modifies this
      ensures Value() == ToldToClose(old(Value()))
    {
      if socket.Some? { env := env.(closing := env.closing + {socket.value}); }
    }

    /** The world's event loop calling one handler. */
    method Handle(e: Event)
      modifies this
      ensures Value() == Step(old(Value()), e)
    {
      hide Requesting, Connected, Closing, ToldToClose;
      match e {
        case TokenComes(reason, token, creates) => OnToken(reason, token, creates);
        case TokenThrows(reason) =>
          env := env.(requests := env.requests - multiset{reason}, log := env.log + [Threw]);
        case Opens(id) =>
          backoff := FIRST_BACKOFF_MS;
          status := Opened;
          env := env.(log := env.log + [Open(id)]);
        case Errs(_) => CloseSocket();
        case Closes(id, code) => OnClose(id, code);
        case Fires(timer) =>
          env := env.(timers := env.timers - multiset{timer});
          Connect(timer.reason);
        case CallerCloses =>
          closed := true;
          env := env.(log := env.log + [UserClosed]);
          CloseSocket();
      }
    }
  }

  // ---- What an observer may see -----------------------------------------------------------

  /** Drops since the last open. */
  function Drops(log: seq<Note>): nat {
    if log == [] then 0
    else
      var last, before := log[|log| - 1], log[..|log| - 1];
      if last.Open? then 0 else Drops(before) + (if last.Dropped? then 1 else 0)
  }

  /** 1 s, doubled for each drop since the last open, at most 15 s. */
  function Delay(drops: nat): nat {
    if FIRST_BACKOFF_MS * Pow2(drops) < MAX_BACKOFF_MS then FIRST_BACKOFF_MS * Pow2(drops) else MAX_BACKOFF_MS
  }

  /** The caller has closed, or the server refused the tenant. */
  ghost predicate Over(log: seq<Note>) {
    exists i | 0 <= i < |log| :: log[i].UserClosed? || (log[i].Dropped? && log[i].code == WRONG_TENANT)
  }

  /** What may come after `past`. */
  ghost predicate Follows(past: seq<Note>, note: Note) {
    var n := |past|;
    match note
    case Asked(reason) =>
      && !Over(past)
      && (reason == Initial <==> n == 0)
      && (n > 0 ==> n >= 2 && past[n - 1].Waits? && past[n - 1].timer.reason == reason)
    case Created(id) => !Over(past) && Created(id) !in past && n > 0
    case Waits(timer) =>
      && !Over(past)
      && n > 0 && past[n - 1].Dropped?
      && timer.reason == (if past[n - 1].code == TOKEN_REJECTED then AuthRejected else Reconnect)
      && timer.delay == (if timer.reason == AuthRejected then 0 else Delay(Drops(past[..n - 1])))
    case _ => true
  }

  ghost predicate Lawful(log: seq<Note>) {
    log != [] ==> Lawful(log[..|log| - 1]) && Follows(log[..|log| - 1], log[|log| - 1])
  }

  lemma LawfulSnoc(log: seq<Note>, note: Note)
    requires Lawful(log) && Follows(log, note)
    ensures Lawful(log + [note])
    ensures Drops(log + [note]) == if note.Open? then 0 else Drops(log) + (if note.Dropped? then 1 else 0)
  {
    assert (log + [note])[..|log|] == log;
  }

  lemma {:induction false} LawfulAt(log: seq<Note>, j: nat)
    requires Lawful(log) && j < |log|
    ensures Follows(log[..j], log[j])
    decreases |log|
  {
    if j < |log| - 1 {
      LawfulAt(log[..|log| - 1], j);
      assert log[..|log| - 1][..j] == log[..j];
    }
  }

  lemma OverSnoc(log: seq<Note>, note: Note)
    ensures Over(log + [note]) <==> Over(log) || note.UserClosed? || (note.Dropped? && note.code == WRONG_TENANT)
  {
    var all := log + [note];
    if Over(log) {
      var i :| 0 <= i < |log| && (log[i].UserClosed? || (log[i].Dropped? && log[i].code == WRONG_TENANT));
      assert all[i] == log[i];
    }
    assert all[|log|] == note;
    if Over(all) {
      var i :| 0 <= i < |all| && (all[i].UserClosed? || (all[i].Dropped? && all[i].code == WRONG_TENANT));
      if i < |log| { assert all[i] == log[i]; }
    }
  }

  lemma DelayDoubles(drops: nat)
    ensures Delay(drops + 1) == Doubled(Delay(drops))
  {
  }

  // ---- The invariant --------------------------------------------------------------------------

  /** Nothing is pending any more. */
  predicate Ended(w: World) {
    w.requests == multiset{} && w.timers == multiset{} && w.live == {}
  }

  ghost predicate Asking(w: World) {
    w.timers == multiset{} && w.live == {} && exists r :: w.requests == multiset{r} && (!w.closed ==> w.log != [] && w.log[|w.log| - 1] == Asked(r))
  }

  /** The caller hears "closed" exactly of an end that was no exception. */
  ghost predicate Told(w: World) {
    !w.closed ==> (w.status == Closed <==> Ended(w) && w.log != [] && w.log[|w.log| - 1] != Threw)
  }

  ghost predicate Live(w: World) {
    && w.requests == multiset{} && w.timers == multiset{} && w.socket.Some?
    && w.live == {w.socket.value} && w.socket.value < w.next
  }

  ghost predicate Sleeping(w: World) {
    w.requests == multiset{} && w.live == {} && exists t :: w.timers == multiset{t} && (!w.closed ==> EndsIn(w.log, t))
  }

  ghost predicate EndsIn(log: seq<Note>, t: Timer) {
    |log| >= 2 && log[|log| - 1] == Waits(t)
  }

  /** Exactly one thing is under way, or the connection has ended; the socket variable
      is the live socket, and after close() it has been told to close. */
  ghost predicate OneThing(w: World) {
    && (Asking(w) || Live(w) || Sleeping(w) || Ended(w))
    && (w.live == {} ==> w.socket.None?)
    && (w.closed ==> w.live <= w.closing)
  }

  /** The log is lawful, and over exactly when the caller closed or the tenant was
      refused. */
  ghost predicate LogKept(w: World) {
    && |w.log| > 0 && Lawful(w.log)
    && (forall i | 0 <= i < |w.log| :: w.log[i].Created? ==> w.log[i].id < w.next)
    && (Over(w.log) ==> w.closed || Ended(w))
    && (w.closed ==> Over(w.log))
  }

  /** The back-off is what the log says. */
  ghost predicate BackoffKept(w: World) {
    !w.closed && !Ended(w) ==> w.backoff == Delay(Drops(w.log))
  }

  ghost predicate StatusKept(w: World) {
    Told(w) && (!w.closed && w.status == Opened ==> w.live != {})
  }

  ghost predicate Inv(w: World) {
    OneThing(w) && LogKept(w) && BackoffKept(w) && StatusKept(w)
  }

  lemma StartInv()
    ensures Inv(START)
  {
    assert START.log[..0] == [];
    assert START.requests == multiset{Initial};
    assert Asking(START);
    assert Drops(START.log[..0]) == 0 && Drops(START.log) == 0;
  }

  // ---- One note more ----------------------------------------------------------------------------

  predicate EndsAll(note: Note) {
    note.UserClosed? || (note.Dropped? && note.code == WRONG_TENANT)
  }

  lemma Noted(w: World, v: World, note: Note)
    requires LogKept(w) && v.log == w.log + [note] && Follows(w.log, note) && w.next <= v.next
    requires note.Created? ==> note.id < v.next
    requires Over(w.log) || EndsAll(note) ==> v.closed || Ended(v)
    requires v.closed ==> w.closed || note.UserClosed?
    ensures LogKept(v)
  {
    hide Lawful, Over, Follows, Ended;
    OverSnoc(w.log, note);
    LawfulSnoc(w.log, note);
  }

  lemma DropsNoted(log: seq<Note>, note: Note)
    ensures Drops(log + [note]) == if note.Open? then 0 else Drops(log) + (if note.Dropped? then 1 else 0)
  {
    assert (log + [note])[..|log|] == log;
  }

  lemma NotOver(w: World)
    requires LogKept(w) && !w.closed && !Ended(w)
    ensures !Over(w.log)
  {
  }

  // ---- Each event ---------------------------------------------------------------------------------

  lemma OneRequest(w: World, reason: Reason)
    requires OneThing(w) && reason in w.requests
    ensures w.requests == multiset{reason} && w.timers == multiset{} && w.live == {} && w.socket.None?
    ensures !w.closed ==> w.log != [] && w.log[|w.log| - 1] == Asked(reason)
    ensures !Ended(w)
  {
    var r :| w.requests == multiset{r} && (!w.closed ==> w.log != [] && w.log[|w.log| - 1] == Asked(r));
    assert r == reason;
  }

  /** The request is answered and nothing is made of it. */
  lemma AnsweredInv(w: World, v: World, reason: Reason)
    requires Inv(w) && reason in w.requests
    requires v == w.(requests := w.requests - multiset{reason}, status := v.status)
    requires w.closed || v.status == Closed
    ensures Inv(v)
  {
    hide Lawful, Over, Drops, Delay;
    OneRequest(w, reason);
    assert v.requests == multiset{};
  }

  lemma ThrewInv(w: World, reason: Reason)
    requires Inv(w) && reason in w.requests
    ensures Inv(Step(w, TokenThrows(reason)))
  {
    hide Lawful, Over, Drops, Delay;
    var v := Step(w, TokenThrows(reason));
    OneRequest(w, reason);
    assert v.requests == multiset{};
    Noted(w, v, Threw);
  }

  lemma CreatedInv(w: World, reason: Reason, token: Option<string>)
    requires Inv(w) && reason in w.requests && !w.closed && token.Some? && token.value != ""
    ensures Inv(Connected(w, reason, token, true))
  {
    hide Lawful, Over, Drops, Delay;
    var v := Connected(w, reason, token, true);
    OneRequest(w, reason);
    NotOver(w);
    assert v.requests == multiset{} && v.live == {w.next};
    Noted(w, v, Created(w.next));
    DropsNoted(w.log, Created(w.next));
  }

  lemma TokenInv(w: World, reason: Reason, token: Option<string>, creates: bool)
    requires Inv(w) && reason in w.requests
    ensures Inv(Connected(w, reason, token, creates))
  {
    if w.closed || token.None? || token.value == "" {
      hide Inv;
      AnsweredInv(w, Connected(w, reason, token, creates), reason);
    } else if creates {
      hide *;
      CreatedInv(w, reason, token);
    } else {
      hide Inv;
      ThrewInv(w, reason);
    }
  }

  lemma OpensInv(w: World, id: nat)
    requires Inv(w) && id in w.live && id !in w.closing
    ensures Inv(Step(w, Opens(id)))
  {
    hide Lawful, Over, Drops;
    Noted(w, Step(w, Opens(id)), Open(id));
    DropsNoted(w.log, Open(id));
    assert Delay(0) == FIRST_BACKOFF_MS;
  }

  lemma OneSocket(w: World, id: nat)
    requires OneThing(w) && id in w.live
    ensures w.live == {id} && w.requests == multiset{} && w.timers == multiset{} && !Ended(w)
  {
  }

  /** What the drop leaves pending. */
  lemma DroppedThing(w: World, id: nat, code: nat)
    requires OneThing(w) && id in w.live
    ensures var v := Closing(w, id, code);
      OneThing(v) && v.live == {} && (w.closed || code == WRONG_TENANT ==> Ended(v))
  {
    OneSocket(w, id);
    var v := Closing(w, id, code);
    assert v.live == {};
    if !w.closed && code != WRONG_TENANT {
      var timer := TimerFor(code, w.backoff);
      assert v.timers == multiset{timer} && v.log[|v.log| - 1] == Waits(timer);
      assert EndsIn(v.log, timer);
    }
  }

  lemma DroppedLog(w: World, id: nat, code: nat)
    requires Inv(w) && id in w.live
    ensures LogKept(Closing(w, id, code)) && BackoffKept(Closing(w, id, code))
  {
    hide Lawful, Over, Drops, Delay, Doubled, Told, OneThing;
    OneSocket(w, id);
    var v := Closing(w, id, code);
    var u := w.(live := {}, log := w.log + [Dropped(id, code)]);
    DroppedThing(w, id, code);
    Noted(w, u, Dropped(id, code));
    if w.closed || code == WRONG_TENANT {
      assert v.log == u.log;
    } else {
      NotOver(w);
      var timer := TimerFor(code, w.backoff);
      OverSnoc(w.log, Dropped(id, code));
      assert u.log[..|u.log| - 1] == w.log;
      Noted(u, v, Waits(timer));
      DropsNoted(w.log, Dropped(id, code));
      DropsNoted(u.log, Waits(timer));
      DelayDoubles(Drops(w.log));
    }
  }

  lemma ClosesInv(w: World, id: nat, code: nat)
    requires Inv(w) && id in w.live
    ensures Inv(Closing(w, id, code))
  {
    hide LogKept, BackoffKept, OneThing;
    assert OneThing(w);
    DroppedLog(w, id, code);
    DroppedThing(w, id, code);
    DroppedStatus(w, id, code);
  }

  lemma DroppedStatus(w: World, id: nat, code: nat)
    requires OneThing(w) && id in w.live
    ensures StatusKept(Closing(w, id, code))
  {
    hide OneThing;
    DroppedThing(w, id, code);
    var v := Closing(w, id, code);
    if !w.closed && code != WRONG_TENANT {
      assert TimerFor(code, w.backoff) in v.timers;
    }
  }

  lemma OneTimer(w: World, timer: Timer)
    requires OneThing(w) && timer in w.timers
    ensures w.timers == multiset{timer} && w.requests == multiset{} && w.live == {} && w.socket.None? && !Ended(w)
    ensures !w.closed ==> EndsIn(w.log, timer)
  {
    var t :| w.timers == multiset{t} && (!w.closed ==> EndsIn(w.log, t));
    assert t == timer;
  }

  lemma FiredLog(w: World, timer: Timer)
    requires LogKept(w) && EndsIn(w.log, timer) && !w.closed && !Ended(w)
    ensures var v := Step(w, Fires(timer)); LogKept(v) && Drops(v.log) == Drops(w.log)
  {
    hide Lawful, Over, Drops, Ended;
    NotOver(w);
    LawfulAt(w.log, |w.log| - 1);
    Noted(w, Step(w, Fires(timer)), Asked(timer.reason));
    DropsNoted(w.log, Asked(timer.reason));
  }

  lemma FiresInv(w: World, timer: Timer)
    requires Inv(w) && timer in w.timers
    ensures Inv(Step(w, Fires(timer)))
  {
    var v := Step(w, Fires(timer));
    OneTimer(w, timer);
    assert v.timers == multiset{};
    if w.closed {
      hide Lawful, Over, Drops, Delay;
      assert Ended(v);
    } else {
      hide LogKept, Drops, Delay;
      FiredLog(w, timer);
      assert v.requests == multiset{timer.reason} && v.log[|v.log| - 1] == Asked(timer.reason);
      assert Asking(v);
    }
  }

  lemma CloseInv(w: World)
    requires Inv(w)
    ensures Inv(Step(w, CallerCloses))
  {
    hide Lawful, Over, Drops, Delay;
    Noted(w, Step(w, CallerCloses), UserClosed);
    OverSnoc(w.log, UserClosed);
  }

  lemma ErrsInv(w: World, id: nat)
    requires Inv(w)
    ensures Inv(Step(w, Errs(id)))
  {
    hide Lawful, Over, Drops, Delay;
  }

  lemma StepInv(w: World, e: Event)
    requires Inv(w) && Enabled(w, e)
    ensures Inv(Step(w, e))
  {
    hide Inv;
    match e
    case TokenComes(reason, token, creates) => TokenInv(w, reason, token, creates);
    case TokenThrows(reason) => ThrewInv(w, reason);
    case Opens(id) => OpensInv(w, id);
    case Errs(id) => ErrsInv(w, id);
    case Closes(id, code) => ClosesInv(w, id, code);
    case Fires(timer) => FiresInv(w, timer);
    case CallerCloses => CloseInv(w);
  }

  lemma {:induction false} RunInv(w: World, es: seq<Event>)
    requires Inv(w) && CanRun(w, es)
    ensures Inv(Run(w, es))
    decreases es
  {
    if es != [] {
      StepInv(w, es[0]);
      RunInv(Step(w, es[0]), es[1..]);
    }
  }

  // ---- The theorems -------------------------------------------------------------------------------

  /** In every run at most one token request, timer or socket is pending, and the
      socket that `close` would close is the live one. */
  lemma OneAtATime(es: seq<Event>)
    requires CanRun(START, es)
    ensures var w := Run(START, es);
      && |w.requests| + |w.timers| + |w.live| == (if Ended(w) then 0 else 1)
      && (forall id :: id in w.live <==> w.socket == Some(id))
      && (w.closed ==> w.live <= w.closing)
  {
    StartInv();
    RunInv(START, es);
  }

  /** In every run, no note breaks the rules of `Follows`: no token is asked for and
      no socket created after close() or a 4403; a token is asked for as rejected
      exactly when the wait before it followed a 4401; and an ordinary wait is 1 s
      doubled for each drop since the last open, up to 15 s. */
  lemma LogIsLawful(es: seq<Event>, j: nat)
    requires CanRun(START, es) && j < |Run(START, es).log|
    ensures Follows(Run(START, es).log[..j], Run(START, es).log[j])
  {
    StartInv();
    RunInv(START, es);
    LawfulAt(Run(START, es).log, j);
  }

  /** After close() or a 4403, whatever the world does, no token is asked for, no
      timer set and no socket created. */
  lemma {:induction false} OverIsFinal(w: World, es: seq<Event>, j: nat)
    requires Inv(w) && Over(w.log) && CanRun(w, es)
    requires |w.log| <= j < |Run(w, es).log|
    ensures var note := Run(w, es).log[j]; !note.Asked? && !note.Waits? && !note.Created?
  {
    RunInv(w, es);
    var log := Run(w, es).log;
    LawfulAt(log, j);
    LogGrows(w, es);
    var i :| 0 <= i < |w.log| && (w.log[i].UserClosed? || (w.log[i].Dropped? && w.log[i].code == WRONG_TENANT));
    assert log[..j][i] == w.log[i];
  }

  lemma {:induction false} LogGrows(w: World, es: seq<Event>)
    ensures w.log <= Run(w, es).log
    decreases es
  {
    if es != [] {
      StepLogGrows(w, es[0]);
      LogGrows(Step(w, es[0]), es[1..]);
    }
  }

  lemma StepLogGrows(w: World, e: Event)
    ensures w.log <= Step(w, e).log
  {
  }

  /** An event after which the connection has a reason to go on. */
  predicate Bearable(e: Event) {
    match e
    case TokenComes(_, token, creates) => token.Some? && token.value != "" && creates
    case TokenThrows(_) => false
    case Closes(_, code) => code != WRONG_TENANT
    case CallerCloses => false
    case _ => true
  }

  /** What the event answers is the one thing pending. */
  ghost predicate Answers(w: World, e: Event) {
    match e
    case TokenComes(reason, _, _) => w.requests == multiset{reason} && w.timers == multiset{} && w.live == {}
    case TokenThrows(reason) => w.requests == multiset{reason} && w.timers == multiset{} && w.live == {}
    case Fires(timer) => w.requests == multiset{} && w.timers == multiset{timer} && w.live == {}
    case Opens(id) => w.live == {id}
    case Errs(id) => w.live == {id}
    case Closes(id, _) => w.requests == multiset{} && w.timers == multiset{} && w.live == {id}
    case CallerCloses => true
  }

  lemma OneAnswer(w: World, e: Event)
    requires Inv(w) && Enabled(w, e)
    ensures Answers(w, e)
  {
    hide Lawful, Over, Drops, Delay;
    if Asking(w) {
      var r :| w.requests == multiset{r};
    } else if Sleeping(w) {
      var t :| w.timers == multiset{t};
    }
  }

  lemma AnswerEnds(w: World, e: Event)
    requires Answers(w, e) && !w.closed && !Ended(w) && !e.CallerCloses?
    ensures Ended(Step(w, e)) <==> !Bearable(e)
  {
    hide Connected, Closing;
    var v := Step(w, e);
    match e
    case TokenComes(reason, token, creates) => TokenEnds(w, reason, token, creates);
    case TokenThrows(reason) => assert v.requests == multiset{};
    case Fires(timer) => assert timer.reason in v.requests;
    case Opens(id) => assert id in v.live;
    case Errs(id) => assert id in v.live;
    case Closes(id, code) => DropEnds(w, id, code);
  }

  lemma TokenEnds(w: World, reason: Reason, token: Option<string>, creates: bool)
    requires w.requests == multiset{reason} && w.timers == multiset{} && w.live == {} && !w.closed
    ensures Ended(Connected(w, reason, token, creates)) <==> !(token.Some? && token.value != "" && creates)
  {
    var v := Connected(w, reason, token, creates);
    assert v.requests == multiset{};
    if token.Some? && token.value != "" && creates { assert w.next in v.live; }
  }

  lemma DropEnds(w: World, id: nat, code: nat)
    requires w.requests == multiset{} && w.timers == multiset{} && w.live == {id} && !w.closed
    ensures Ended(Closing(w, id, code)) <==> code == WRONG_TENANT
  {
    var v := Closing(w, id, code);
    assert v.live == {};
    if code != WRONG_TENANT { assert TimerFor(code, w.backoff) in v.timers; }
  }

  /** The connection gives up exactly at an event that is not bearable: without a
      missing token, an exception, a 4403 or close(), it is always asking, waiting or
      live; and a token that does not come, or 4403, ends it at once. */
  lemma EndsExactly(w: World, e: Event)
    requires Inv(w) && Enabled(w, e) && !w.closed && !Ended(w) && !e.CallerCloses?
    ensures Ended(Step(w, e)) <==> !Bearable(e)
  {
    hide *;
    OneAnswer(w, e);
    AnswerEnds(w, e);
  }

  lemma {:induction false} KeepsTrying(w: World, es: seq<Event>)
    requires Inv(w) && !w.closed && !Ended(w) && CanRun(w, es)
    requires forall e | e in es :: Bearable(e)
    ensures !Ended(Run(w, es)) && !Run(w, es).closed
    decreases es
  {
    hide Inv, Ended;
    if es != [] {
      assert es[0] in es;
      EndsExactly(w, es[0]);
      StepInv(w, es[0]);
      KeepsTrying(Step(w, es[0]), es[1..]);
    }
  }

  /** An ended connection stays ended. The caller is told so by the status, unless an
      exception ended it: then the status stays as it was. */
  lemma {:induction false} EndedStays(w: World, es: seq<Event>)
    requires Inv(w) && Ended(w) && CanRun(w, es)
    ensures Ended(Run(w, es)) && Run(w, es).status == w.status
    decreases es
  {
    if es != [] {
      EndedStays(Step(w, es[0]), es[1..]);
    }
  }

  /** In every run the caller who has not closed is told "closed" exactly when the
      connection has ended and the last thing was no exception. */
  lemma ToldExactly(es: seq<Event>)
    requires CanRun(START, es) && !Run(START, es).closed
    ensures var w := Run(START, es); w.log != [] && (w.status == Closed <==> Ended(w) && w.log[|w.log| - 1] != Threw)
  {
    StartInv();
    RunInv(START, es);
  }

  /** Of the events that end it, the caller is told of all but an exception: a token
      request that throws, or a socket that cannot be created. */
  lemma EndIsTold(w: World, e: Event)
    requires Inv(w) && Enabled(w, e) && !w.closed && !Ended(w) && !e.CallerCloses? && Ended(Step(w, e))
    ensures Step(w, e).status == Closed <==> !(e.TokenThrows? || (e.TokenComes? && e.token.Some? && e.token.value != "" && !e.creates))
  {
    EndsExactly(w, e);
  }

  /** An exception at any attempt, the first or a reconnect, leaves the caller with
      the status it had, for good. */
  lemma ThrowingIsSilent(w: World, e: Event, es: seq<Event>)
    requires Inv(w) && Enabled(w, e) && !w.closed && CanRun(Step(w, e), es)
    requires e.TokenThrows? || (e.TokenComes? && e.token.Some? && e.token.value != "" && !e.creates)
    ensures Ended(Run(Step(w, e), es)) && Run(Step(w, e), es).status == w.status != Closed
  {
    OneAnswer(w, e);
    assert w.requests != multiset{};
    EndsExactly(w, e);
    StepInv(w, e);
    EndedStays(Step(w, e), es);
  }
}
