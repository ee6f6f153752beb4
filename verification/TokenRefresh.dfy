/** Refresh-token rotation across tabs (frontend/src/lib/auth-context.tsx): any
    number of tabs share the kept token in local storage and one Web Lock; each may
    hold a token of its own in session storage. A step system: every interleaving
    of the tabs, the server and the network is a run. */
module TokenRefresh {
  import opened Wrappers

  type Token = nat
  type TabId = nat

  /** `RETRY_DELAYS_MS.length`. */
  const RETRIES: nat := 3

  // ---- One tab's storage ------------------------------------------------------------

  datatype Stores = Stores(session: Option<Token>, kept: Option<Token>)

  /** `readRefreshToken`: the tab's own token first. */
  function ReadToken(s: Stores): Option<Token> {
    if s.session.Some? then s.session else s.kept
  }

  /** `writeRefreshToken`: to one store, and out of the other. */
  function WriteToken(s: Stores, token: Token, keep: bool): Stores {
    if keep then Stores(None, Some(token)) else Stores(Some(token), None)
  }

  predicate IsKept(s: Stores) {
    s.session.None?
  }

  /** What one post of a refresh token comes to. */
  datatype Answer = Rotated(token: Token) | Rejected | Unreachable

  /** The attempts of one refresh: only the last post may be answered. */
  ghost predicate Attempts(posted: seq<Token>, found: seq<Stores>, answers: seq<Answer>)
    requires |found| == |answers| == RETRIES + 1
  {
    && |posted| <= RETRIES + 1
    && (forall k | 0 <= k < |posted| :: ReadToken(found[k]) == Some(posted[k]))
    && (forall k | 0 <= k < |posted| - 1 :: answers[k].Unreachable?)
  }

  /** The browser's two stores as one tab sees them. */
  class Storage {
    var session: Option<Token>
    var kept: Option<Token>

    function Value(): Stores
      reads this
    {
      Stores(session, kept)
    }

    method ReadRefreshToken() returns (token: Option<Token>)
      ensures token == ReadToken(Value())
    {
      token := session;
      if token.None? { token := kept; }
    }

    /** The write of `applySession`, to whichever store already holds the session.
        What it stored is what the next read finds. */
    method ApplySession(token: Token)
      modifies this
      ensures Value() == WriteToken(old(Value()), token, IsKept(old(Value())))
      ensures ReadToken(Value()) == Some(token)
    {
      if session.None? {
        kept := Some(token);
        session := None;
      } else {
        session := Some(token);
        kept := None;
      }
    }

    method ClearSession()
      modifies this
      ensures ReadToken(Value()) == None
      ensures Value() == Stores(None, None)
    {
      kept, session := None, None;
    }

    /** The retry loop of `refresh`, whatever goes on meanwhile: `found` is what the
        stores hold at each read, `left` what they hold when each answer comes. It
        posts the token it reads each time, at most four times, and stops at the first
        answer or missing token; only a rejection clears the stores, only a rotation
        writes them, to the store that holds the session by then. */
    method Refresh(found: seq<Stores>, left: seq<Stores>, answers: seq<Answer>) returns (result: Option<Token>, posted: seq<Token>)
      requires |found| == |left| == |answers| == RETRIES + 1
      modifies this
      ensures Attempts(posted, found, answers)
      ensures var n := |posted|;
        if n == 0 || answers[n - 1].Unreachable? then
          result == None && (if n <= RETRIES then Value() == found[n] && ReadToken(found[n]).None? else Value() == left[RETRIES])
        else if answers[n - 1].Rejected? then result == None && Value() == Stores(None, None)
        else result == Some(answers[n - 1].token) && Value() == WriteToken(left[n - 1], answers[n - 1].token, IsKept(left[n - 1]))
    {
      posted := [];
      var attempt := 0;
      while true
        invariant attempt == |posted| <= RETRIES && Attempts(posted, found, answers)
        invariant forall k | 0 <= k < attempt :: answers[k].Unreachable?
        decreases RETRIES - attempt
      {
        session, kept := found[attempt].session, found[attempt].kept;
        var token := ReadRefreshToken();
        if token.None? { return None, posted; }
        posted := posted + [token.value];
        session, kept := left[attempt].session, left[attempt].kept;
        match answers[attempt] {
          case Rotated(rotated) =>
            ApplySession(rotated);
            return Some(rotated), posted;
          case Rejected =>
            ClearSession();
            return None, posted;
          case Unreachable =>
            if attempt >= RETRIES { return None, posted; }
        }
        attempt := attempt + 1;
      }
    }
  }

  // ---- The system -------------------------------------------------------------------

  /** Where a tab's one refresh is. `Settling` is after the lock is released and
      before `inFlight` is cleared. */
  datatype Phase =
    | Idle
    | Waiting
    | Reading(attempt: nat)
    | Posted(token: Token, attempt: nat)
    | Answered(token: Token, rotatedTo: Token)
    | Refused
    | Failed(attempt: nat)
    | Sleeping(attempt: nat)
    | Settling
  {
    predicate HoldsLock() {
      !Idle? && !Waiting? && !Settling?
    }
  }

  /** `posts` counts the requests of the refresh in flight. */
  datatype Tab = Tab(phase: Phase, session: Option<Token>, posts: nat)

  /** Every token the server ever issued is below `next` and current, rotated or
      revoked. `replayed` records a rotated token presented for a refresh. */
  datatype World = World(
    tabs: map<TabId, Tab>,
    kept: Option<Token>,
    lock: Option<TabId>,
    next: Token,
    current: set<Token>,
    rotated: set<Token>,
    revoked: set<Token>,
    replayed: bool)
  {
    function StoresOf(i: TabId): Stores
      requires i in tabs
    {
      Stores(tabs[i].session, kept)
    }

    function With(i: TabId, phase: Phase): World
      requires i in tabs
    {
      this.(tabs := tabs[i := tabs[i].(phase := phase)])
    }

    function Released(i: TabId): World
      requires i in tabs
    {
      With(i, Settling).(lock := None)
    }

    function Store(i: TabId, s: Stores): World
      requires i in tabs
    {
      this.(tabs := tabs[i := tabs[i].(session := s.session)], kept := s.kept)
    }
  }

  datatype Step =
    | Open(tab: TabId)
    | Start(tab: TabId)
    | Acquire(tab: TabId)
    | Read(tab: TabId)
    | Rotate(tab: TabId)
    | Refuse(tab: TabId)
    | Fail(tab: TabId)
    | Apply(tab: TabId)
    | Clear(tab: TabId)
    | GiveUpOrSleep(tab: TabId)
    | Wake(tab: TabId)
    | Settle(tab: TabId)
    | Adopt(tab: TabId, keep: bool)
    | Logout(tab: TabId)
    | Revoke(token: Token)

  predicate Enabled(w: World, s: Step) {
    match s
    case Open(i) => i !in w.tabs
    case Revoke(t) => t in w.current
    case _ =>
      s.tab in w.tabs &&
      var phase := w.tabs[s.tab].phase;
      match s
      case Start(_) => phase.Idle?
      case Acquire(_) => phase.Waiting? && w.lock.None?
      case Read(_) => phase.Reading?
      case Rotate(_) => phase.Posted? && phase.token in w.current
      case Refuse(_) => phase.Posted? && phase.token !in w.current
      case Fail(_) => phase.Posted?
      case Apply(_) => phase.Answered?
      case Clear(_) => phase.Refused?
      case GiveUpOrSleep(_) => phase.Failed?
      case Wake(_) => phase.Sleeping?
      case Settle(_) => phase.Settling?
      case _ => true
  }

  function Do(w: World, s: Step): World
    requires Enabled(w, s)
  {
    match s
    case Open(i) => w.(tabs := w.tabs[i := Tab(Idle, None, 0)])
    // Requests that hit a 401 meanwhile share the refresh: no further step.
    case Start(i) => w.(tabs := w.tabs[i := w.tabs[i].(phase := Waiting, posts := 0)])
    case Acquire(i) => w.With(i, Reading(0)).(lock := Some(i))
    // Read under the lock, then post.
    case Read(i) =>
      var token := ReadToken(w.StoresOf(i));
      if token.None? then w.Released(i)
      else
        var tab := w.tabs[i];
        w.(tabs := w.tabs[i := tab.(phase := Posted(token.value, tab.phase.attempt), posts := tab.posts + 1)])
    case Rotate(i) =>
      var t := w.tabs[i].phase.token;
      w.With(i, Answered(t, w.next)).(
        next := w.next + 1, current := w.current - {t} + {w.next}, rotated := w.rotated + {t})
    // The API answers 401: a replay if the token was rotated.
    case Refuse(i) => w.With(i, Refused).(replayed := w.replayed || w.tabs[i].phase.token in w.rotated)
    // Unreachable, restarting, 5xx: the server is unchanged.
    case Fail(i) => w.With(i, Failed(w.tabs[i].phase.attempt))
    case Apply(i) =>
      var s := w.StoresOf(i);
      w.Store(i, WriteToken(s, w.tabs[i].phase.rotatedTo, IsKept(s))).Released(i)
    case Clear(i) => w.Store(i, Stores(None, None)).Released(i)
    case GiveUpOrSleep(i) =>
      var attempt := w.tabs[i].phase.attempt;
      if attempt >= RETRIES then w.Released(i) else w.With(i, Sleeping(attempt))
    case Wake(i) => w.With(i, Reading(w.tabs[i].phase.attempt + 1))
    case Settle(i) => w.With(i, Idle)
    // Signing in and adopting a session write without the lock.
    case Adopt(i, keep) =>
      w.Store(i, WriteToken(w.StoresOf(i), w.next, keep)).(next := w.next + 1, current := w.current + {w.next})
    case Logout(i) => w.Store(i, Stores(None, None))
    case Revoke(t) => w.(current := w.current - {t}, revoked := w.revoked + {t})
  }

  const Init := World(map[], None, None, 0, {}, {}, {}, false)

  ghost predicate EnabledRun(w: World, steps: seq<Step>)
    decreases |steps|
  {
    steps != [] ==> Enabled(w, steps[0]) && EnabledRun(Do(w, steps[0]), steps[1..])
  }

  ghost function After(w: World, steps: seq<Step>): World
    requires EnabledRun(w, steps)
    decreases |steps|
  {
    if steps == [] then w else After(Do(w, steps[0]), steps[1..])
  }

  // ---- What every run keeps -----------------------------------------------------------

  ghost predicate LockKept(w: World) {
    && (w.lock.Some? ==> w.lock.value in w.tabs)
    && forall i | i in w.tabs :: w.tabs[i].phase.HoldsLock() <==> w.lock == Some(i)
  }

  ghost predicate TokensKept(w: World) {
    && (forall t :: t in w.current || t in w.rotated || t in w.revoked ==> t < w.next)
    && w.current !! w.rotated && w.current !! w.revoked && w.rotated !! w.revoked
    && (forall t: Token :: t < w.next ==> t in w.current || t in w.rotated || t in w.revoked)
  }

  /** Each issued token is stored in at most one place. */
  ghost predicate StoresApart(w: World) {
    && (w.kept.Some? ==> w.kept.value < w.next)
    && (forall i | i in w.tabs && w.tabs[i].session.Some? :: w.tabs[i].session.value < w.next && w.tabs[i].session != w.kept)
    && (forall i, j | i in w.tabs && j in w.tabs && i != j && w.tabs[i].session.Some? :: w.tabs[i].session != w.tabs[j].session)
  }

  /** A tab in the middle of a refresh still has the token it presented where it
      read it, or nobody has it any more. */
  ghost predicate Mine(w: World, i: TabId, t: Token)
    requires i in w.tabs
  {
    && (w.kept == Some(t) ==> w.tabs[i].session.None?)
    && (forall j | j in w.tabs && w.tabs[j].session == Some(t) :: j == i)
  }

  /** Nothing stored is rotated, but for the token the lock holder is replacing. */
  ghost predicate Unrotated(w: World) {
    && (forall t | w.kept == Some(t) && t in w.rotated :: Replacing(w, t))
    && (forall i, t | i in w.tabs && w.tabs[i].session == Some(t) && t in w.rotated :: Replacing(w, t))
  }

  ghost predicate Replacing(w: World, t: Token) {
    w.lock.Some? && w.lock.value in w.tabs && w.tabs[w.lock.value].phase.Answered? && w.tabs[w.lock.value].phase.token == t
  }

  ghost predicate PhaseKept(w: World, i: TabId)
    requires i in w.tabs
  {
    var tab := w.tabs[i];
    match tab.phase
    case Waiting => tab.posts == 0
    case Reading(a) => tab.posts == a <= RETRIES
    case Posted(t, a) => tab.posts == a + 1 <= RETRIES + 1 && t < w.next && t !in w.rotated && Mine(w, i, t)
    case Answered(t, f) => tab.posts <= RETRIES + 1 && t < w.next && f < w.next && t != f && t in w.rotated && f !in w.rotated
      && Mine(w, i, t) && w.kept != Some(f) && forall j | j in w.tabs :: w.tabs[j].session != Some(f)
    case Failed(a) => tab.posts == a + 1 <= RETRIES + 1
    case Sleeping(a) => tab.posts == a + 1 <= RETRIES
    case _ => tab.posts <= RETRIES + 1
  }

  ghost predicate Inv(w: World) {
    && LockKept(w) && TokensKept(w) && StoresApart(w) && Unrotated(w)
    && (forall i | i in w.tabs :: PhaseKept(w, i))
    && !w.replayed
  }

  lemma InvInit()
    ensures Inv(Init)
  {
  }

  /** A step that moves one tab's refresh along, leaving tokens where they are. */
  lemma OnlyPhase(w: World, v: World, i: TabId)
    requires Inv(w) && i in w.tabs && i in v.tabs
    requires v == w.(tabs := w.tabs[i := v.tabs[i]], lock := v.lock)
    requires v.tabs[i].session == w.tabs[i].session && !w.tabs[i].phase.Answered?
    requires LockKept(v) && PhaseKept(v, i)
    ensures Inv(v)
  {
    MovedStores(w, v, i);
    MovedPhases(w, v, i);
  }

  lemma MovedStores(w: World, v: World, i: TabId)
    requires LockKept(w) && TokensKept(w) && StoresApart(w) && Unrotated(w) && i in w.tabs && i in v.tabs
    requires v == w.(tabs := w.tabs[i := v.tabs[i]], lock := v.lock)
    requires v.tabs[i].session == w.tabs[i].session && !w.tabs[i].phase.Answered? && LockKept(v)
    ensures TokensKept(v) && StoresApart(v) && Unrotated(v)
  {
    StillReplacing(w, v, i);
    SameSessions(w, v, i);
    hide LockKept, Replacing;
    TokensAlike(w, v);
    hide TokensKept;
  }

  lemma SameSessions(w: World, v: World, i: TabId)
    requires i in w.tabs && i in v.tabs && v.tabs == w.tabs[i := v.tabs[i]] && v.tabs[i].session == w.tabs[i].session
    ensures v.tabs.Keys == w.tabs.Keys && forall j | j in w.tabs :: v.tabs[j].session == w.tabs[j].session
  {
  }

  lemma TokensAlike(w: World, v: World)
    requires TokensKept(w) && v.current == w.current && v.rotated == w.rotated && v.revoked == w.revoked && v.next == w.next
    ensures TokensKept(v)
  {
  }

  /** The move is not the answered tab's. */
  lemma StillReplacing(w: World, v: World, i: TabId)
    requires LockKept(w) && LockKept(v) && i in w.tabs && i in v.tabs && !w.tabs[i].phase.Answered?
    requires v == w.(tabs := w.tabs[i := v.tabs[i]], lock := v.lock)
    ensures forall t :: Replacing(w, t) ==> Replacing(v, t)
  {
    forall t | Replacing(w, t) ensures Replacing(v, t) {
      assert w.tabs[w.lock.value].phase.HoldsLock();
    }
  }

  lemma MovedPhases(w: World, v: World, i: TabId)
    requires (forall j | j in w.tabs :: PhaseKept(w, j)) && i in w.tabs && i in v.tabs && PhaseKept(v, i)
    requires v == w.(tabs := w.tabs[i := v.tabs[i]], lock := v.lock) && v.tabs[i].session == w.tabs[i].session
    ensures forall j | j in v.tabs :: PhaseKept(v, j)
  {
    forall j | j in v.tabs ensures PhaseKept(v, j) {
      if j != i { StillKept(w, v, j); }
    }
  }

  /** A phase says nothing of the other tabs but what tokens they store. */
  lemma StillKept(w: World, v: World, j: TabId)
    requires j in w.tabs && j in v.tabs && PhaseKept(w, j) && v.tabs[j] == w.tabs[j]
    requires v.next == w.next && v.rotated == w.rotated && v.kept == w.kept && v.tabs.Keys == w.tabs.Keys
    requires forall k | k in w.tabs :: v.tabs[k].session == w.tabs[k].session
    ensures PhaseKept(v, j)
  {
  }

  /** The moving tab keeps the lock's discipline and its own count of posts. */
  lemma MoveKeeps(w: World, s: Step)
    requires LockKept(w) && Enabled(w, s)
    requires s.Start? || s.Acquire? || s.Refuse? || s.Fail? || s.GiveUpOrSleep? || s.Wake? || s.Settle?
    ensures LockKept(Do(w, s))
  {
  }

  lemma MovePhase(w: World, s: Step)
    requires s.Start? || s.Acquire? || s.Refuse? || s.Fail? || s.GiveUpOrSleep? || s.Wake? || s.Settle?
    requires Enabled(w, s) && PhaseKept(w, s.tab) && !w.replayed && (s.Refuse? ==> w.tabs[s.tab].phase.token !in w.rotated)
    ensures PhaseKept(Do(w, s), s.tab)
    ensures var v := Do(w, s); v == w.(tabs := w.tabs[s.tab := v.tabs[s.tab]], lock := v.lock) && v.tabs[s.tab].session == w.tabs[s.tab].session
  {
    hide Mine;
  }

  lemma AfterMove(w: World, s: Step)
    requires Inv(w) && Enabled(w, s)
    requires s.Start? || s.Acquire? || s.Refuse? || s.Fail? || s.GiveUpOrSleep? || s.Wake? || s.Settle?
    ensures Inv(Do(w, s))
  {
    assert PhaseKept(w, s.tab);
    hide Unrotated, TokensKept, StoresApart, Mine, LockKept;
    MoveKeeps(w, s);
    MovePhase(w, s);
    hide PhaseKept, Do;
    OnlyPhase(w, Do(w, s), s.tab);
  }

  lemma AfterOpen(w: World, i: TabId)
    requires Inv(w) && Enabled(w, Open(i))
    ensures Inv(Do(w, Open(i)))
  {
    OpenStores(w, i);
    OpenPhases(w, i);
  }

  lemma OpenStores(w: World, i: TabId)
    requires Inv(w) && Enabled(w, Open(i))
    ensures var v := Do(w, Open(i)); LockKept(v) && TokensKept(v) && StoresApart(v) && Unrotated(v)
  {
    hide PhaseKept, Mine;
    forall t | Replacing(w, t) ensures Replacing(Do(w, Open(i)), t) {}
  }

  lemma OpenPhases(w: World, i: TabId)
    requires Inv(w) && Enabled(w, Open(i))
    ensures forall j | j in Do(w, Open(i)).tabs :: PhaseKept(Do(w, Open(i)), j)
  {
    hide LockKept, TokensKept, StoresApart, Unrotated;
    var v := Do(w, Open(i));
    forall j | j in v.tabs ensures PhaseKept(v, j) {
      if j in w.tabs { assert PhaseKept(w, j); }
    }
  }

  lemma AfterRead(w: World, i: TabId)
    requires Inv(w) && Enabled(w, Read(i))
    ensures Inv(Do(w, Read(i)))
  {
    assert PhaseKept(w, i);
    var token := ReadToken(w.StoresOf(i));
    assert forall t :: !Replacing(w, t);
    if token.Some? {
      ReadIsMine(w, i, token.value);
    }
    OnlyPhase(w, Do(w, Read(i)), i);
  }

  lemma ReadIsMine(w: World, i: TabId, t: Token)
    requires Inv(w) && i in w.tabs && ReadToken(w.StoresOf(i)) == Some(t) && forall u :: !Replacing(w, u)
    ensures Mine(w, i, t) && t < w.next && t !in w.rotated
  {
  }

  /** The server's turn: the presented token becomes the one being replaced. */
  lemma AfterRotate(w: World, i: TabId)
    requires Inv(w) && Enabled(w, Rotate(i))
    ensures Inv(Do(w, Rotate(i)))
  {
    assert PhaseKept(w, i);
    RotatedStores(w, i);
    RotatedPhases(w, i);
  }

  lemma RotatedStores(w: World, i: TabId)
    requires Inv(w) && Enabled(w, Rotate(i)) && PhaseKept(w, i)
    ensures var v := Do(w, Rotate(i)); LockKept(v) && TokensKept(v) && StoresApart(v) && Unrotated(v)
  {
    hide PhaseKept, Mine;
    var v := Do(w, Rotate(i));
    var t := w.tabs[i].phase.token;
    assert Replacing(v, t);
    forall u | u in v.rotated && u != t ensures u in w.rotated && !Replacing(w, u) {}
  }

  lemma RotatedPhases(w: World, i: TabId)
    requires Inv(w) && Enabled(w, Rotate(i))
    ensures forall j | j in Do(w, Rotate(i)).tabs :: PhaseKept(Do(w, Rotate(i)), j)
  {
    hide Unrotated;
    var v := Do(w, Rotate(i));
    assert PhaseKept(w, i);
    forall j | j in v.tabs ensures PhaseKept(v, j) {
      assert PhaseKept(w, j);
      assert j != i ==> !w.tabs[j].phase.HoldsLock();
    }
  }

  /** The write puts the new token where the old one was, and it is nowhere else. */
  lemma AfterApply(w: World, i: TabId)
    requires Inv(w) && Enabled(w, Apply(i))
    ensures Inv(Do(w, Apply(i)))
  {
    hide StoresApart, Unrotated, PhaseKept;
    AppliedStores(w, i);
    AppliedPhases(w, i);
  }

  lemma AppliedPhases(w: World, i: TabId)
    requires Inv(w) && Enabled(w, Apply(i))
    ensures forall j | j in Do(w, Apply(i)).tabs :: PhaseKept(Do(w, Apply(i)), j)
  {
    hide TokensKept, StoresApart, Unrotated;
    var v := Do(w, Apply(i));
    assert PhaseKept(w, i);
    forall j | j in v.tabs ensures PhaseKept(v, j) {
      assert PhaseKept(w, j);
      assert j != i ==> !w.tabs[j].phase.HoldsLock();
    }
  }

  lemma AppliedStores(w: World, i: TabId)
    requires Inv(w) && Enabled(w, Apply(i))
    ensures StoresApart(Do(w, Apply(i))) && Unrotated(Do(w, Apply(i)))
  {
    assert PhaseKept(w, i);
    assert forall u :: Replacing(w, u) ==> u == w.tabs[i].phase.token by { HolderIs(w, i); }
    AppliedApart(w, i);
    AppliedUnrotated(w, i);
  }

  lemma AppliedApart(w: World, i: TabId)
    requires Enabled(w, Apply(i)) && StoresApart(w) && PhaseKept(w, i)
    ensures StoresApart(Do(w, Apply(i)))
  {
  }

  /** The rotated token was stored nowhere but where the new one goes. */
  lemma AppliedUnrotated(w: World, i: TabId)
    requires Enabled(w, Apply(i)) && Unrotated(w) && PhaseKept(w, i)
    requires forall u :: Replacing(w, u) ==> u == w.tabs[i].phase.token
    ensures Unrotated(Do(w, Apply(i)))
  {
    hide Replacing;
    var v := Do(w, Apply(i));
    var t := w.tabs[i].phase.token;
    forall j, u | j in v.tabs && v.tabs[j].session == Some(u) ensures u !in v.rotated {
      assert j != i ==> w.tabs[j].session == Some(u) && u != t;
    }
    forall u | v.kept == Some(u) ensures u !in v.rotated {}
  }

  lemma HolderIs(w: World, i: TabId)
    requires LockKept(w) && i in w.tabs && w.tabs[i].phase.HoldsLock()
    ensures w.lock == Some(i)
  {
  }

  /** Dropping a tab's tokens can't hurt. */
  lemma StoreNothing(w: World, i: TabId)
    requires Inv(w) && i in w.tabs
    ensures Inv(w.Store(i, Stores(None, None)))
  {
    NothingStores(w, i);
    NothingPhases(w, i);
  }

  lemma NothingStores(w: World, i: TabId)
    requires LockKept(w) && TokensKept(w) && StoresApart(w) && Unrotated(w) && i in w.tabs
    ensures var v := w.Store(i, Stores(None, None)); LockKept(v) && TokensKept(v) && StoresApart(v) && Unrotated(v)
  {
    var v := w.Store(i, Stores(None, None));
    TokensAlike(w, v);
    hide TokensKept;
    forall t | Replacing(w, t) ensures Replacing(v, t) {}
  }

  lemma NothingPhases(w: World, i: TabId)
    requires (forall j | j in w.tabs :: PhaseKept(w, j)) && i in w.tabs
    ensures var v := w.Store(i, Stores(None, None)); forall j | j in v.tabs :: PhaseKept(v, j)
  {
    var v := w.Store(i, Stores(None, None));
    forall j | j in v.tabs ensures PhaseKept(v, j) {
      assert PhaseKept(w, j);
    }
  }

  lemma AfterClear(w: World, i: TabId)
    requires Inv(w) && Enabled(w, Clear(i))
    ensures Inv(Do(w, Clear(i)))
  {
    hide Unrotated;
    hide TokensKept;
    hide StoresApart;
    StoreNothing(w, i);
    var v := w.Store(i, Stores(None, None));
    assert PhaseKept(v, i);
    OnlyPhase(v, Do(w, Clear(i)), i);
  }

  /** A token no one holds and no answer carries. */
  ghost predicate Unused(w: World, t: Token) {
    && t < w.next && t !in w.rotated && w.kept != Some(t)
    && forall i | i in w.tabs :: w.tabs[i].session != Some(t)
         && !(w.tabs[i].phase.Answered? && w.tabs[i].phase.rotatedTo == t)
         && !(w.tabs[i].phase.Posted? && w.tabs[i].phase.token == t)
         && !(w.tabs[i].phase.Answered? && w.tabs[i].phase.token == t)
  }

  lemma IssueToken(w: World)
    requires Inv(w)
    ensures var v := w.(next := w.next + 1, current := w.current + {w.next}); Inv(v) && Unused(v, w.next)
  {
    var v := w.(next := w.next + 1, current := w.current + {w.next});
    forall j | j in v.tabs ensures PhaseKept(v, j) {
      assert PhaseKept(w, j);
    }
    forall t | Replacing(w, t) ensures Replacing(v, t) {}
    forall i | i in w.tabs
      ensures w.tabs[i].session != Some(w.next)
         && !(w.tabs[i].phase.Answered? && w.tabs[i].phase.rotatedTo == w.next)
         && !(w.tabs[i].phase.Posted? && w.tabs[i].phase.token == w.next)
         && !(w.tabs[i].phase.Answered? && w.tabs[i].phase.token == w.next)
    {
      assert PhaseKept(w, i);
    }
  }

  lemma StoreUnused(w: World, i: TabId, t: Token, keep: bool)
    requires Inv(w) && i in w.tabs && Unused(w, t)
    ensures Inv(w.Store(i, WriteToken(w.StoresOf(i), t, keep)))
  {
    UnusedStores(w, i, t, keep);
    UnusedPhases(w, i, t, keep);
  }

  lemma UnusedStores(w: World, i: TabId, t: Token, keep: bool)
    requires LockKept(w) && TokensKept(w) && StoresApart(w) && Unrotated(w) && i in w.tabs && Unused(w, t)
    ensures var v := w.Store(i, WriteToken(w.StoresOf(i), t, keep)); LockKept(v) && TokensKept(v) && StoresApart(v) && Unrotated(v)
  {
    var v := w.Store(i, WriteToken(w.StoresOf(i), t, keep));
    TokensAlike(w, v);
    hide TokensKept;
    forall u | Replacing(w, u) ensures Replacing(v, u) {}
  }

  lemma UnusedPhases(w: World, i: TabId, t: Token, keep: bool)
    requires (forall j | j in w.tabs :: PhaseKept(w, j)) && i in w.tabs && Unused(w, t)
    ensures var v := w.Store(i, WriteToken(w.StoresOf(i), t, keep)); forall j | j in v.tabs :: PhaseKept(v, j)
  {
    var v := w.Store(i, WriteToken(w.StoresOf(i), t, keep));
    forall j | j in v.tabs ensures PhaseKept(v, j) {
      assert PhaseKept(w, j);
    }
  }

  lemma AfterAdopt(w: World, i: TabId, keep: bool)
    requires Inv(w) && Enabled(w, Adopt(i, keep))
    ensures Inv(Do(w, Adopt(i, keep)))
  {
    hide Inv;
    hide Unused;
    IssueToken(w);
    StoreUnused(w.(next := w.next + 1, current := w.current + {w.next}), i, w.next, keep);
  }

  lemma AfterRevoke(w: World, t: Token)
    requires Inv(w) && Enabled(w, Revoke(t))
    ensures Inv(Do(w, Revoke(t)))
  {
    var v := Do(w, Revoke(t));
    forall j | j in v.tabs ensures PhaseKept(v, j) {
      assert PhaseKept(w, j);
    }
    forall u | Replacing(w, u) ensures Replacing(v, u) {}
  }

  lemma InvStep(w: World, s: Step)
    requires Inv(w) && Enabled(w, s)
    ensures Inv(Do(w, s))
  {
    hide Inv;
    match s
    case Open(i) => AfterOpen(w, i);
    case Read(i) => AfterRead(w, i);
    case Rotate(i) => AfterRotate(w, i);
    case Apply(i) => AfterApply(w, i);
    case Clear(i) => AfterClear(w, i);
    case Adopt(i, keep) => AfterAdopt(w, i, keep);
    case Logout(i) => StoreNothing(w, i);
    case Revoke(t) => AfterRevoke(w, t);
    case _ => AfterMove(w, s);
  }

  lemma {:induction false} InvRun(w: World, steps: seq<Step>)
    requires Inv(w) && EnabledRun(w, steps)
    ensures Inv(After(w, steps))
    decreases |steps|
  {
    hide Inv;
    hide Do;
    if steps != [] {
      InvStep(w, steps[0]);
      InvRun(Do(w, steps[0]), steps[1..]);
    }
  }

  // ---- What follows ---------------------------------------------------------------------

  /** In every run, whatever the tabs, requests, failures, sign-ins and revocations:
      no rotated token is ever presented; a refresh posts at most four times; and
      while no one holds the lock every stored token is one the server takes, unless
      it revoked it. */
  lemma NoReplayEver(steps: seq<Step>)
    requires EnabledRun(Init, steps)
    ensures var w := After(Init, steps);
      && !w.replayed
      && (forall i | i in w.tabs :: w.tabs[i].posts <= 4)
      && (forall i | i in w.tabs && w.tabs[i].phase.Posted? :: w.tabs[i].phase.token !in w.rotated)
      && (w.lock.None? ==>
            && (w.kept.Some? ==> w.kept.value in w.current + w.revoked)
            && (forall i | i in w.tabs && w.tabs[i].session.Some? :: w.tabs[i].session.value in w.current + w.revoked))
  {
    InvInit();
    InvRun(Init, steps);
    var w := After(Init, steps);
    assert w.lock.None? ==> forall t :: !Replacing(w, t);
    forall i | i in w.tabs
      ensures w.tabs[i].posts <= 4 && (w.tabs[i].phase.Posted? ==> w.tabs[i].phase.token !in w.rotated)
    {
      assert PhaseKept(w, i);
    }
  }

  /** A step of a refresh, as against signing in, signing out or opening a tab. */
  predicate OfRefresh(s: Step) {
    !s.Adopt? && !s.Logout? && !s.Open? && !s.Revoke?
  }

  /** A refresh leaves its own tab without a token only on a refusal, a 401 or 403. */
  lemma OnlyRefusalClears(w: World, s: Step)
    requires Enabled(w, s) && OfRefresh(s) && ReadToken(w.StoresOf(s.tab)).Some?
    ensures ReadToken(Do(w, s).StoresOf(s.tab)).None? <==> s.Clear?
  {
  }

  /** Another tab loses its token to a refresh in just two cases: the refusal, and
      the success of a tab with a session of its own, whose write empties the kept
      store even when that held another session. */
  lemma OtherTabsKeepTokens(w: World, s: Step, j: TabId)
    requires Enabled(w, s) && OfRefresh(s) && j in w.tabs && j != s.tab && ReadToken(w.StoresOf(j)).Some?
    ensures ReadToken(Do(w, s).StoresOf(j)).None? <==>
      w.tabs[j].session.None? && (s.Clear? || (s.Apply? && w.tabs[s.tab].session.Some?))
  {
  }

  /** And that second case happens. */
  lemma KeptSessionLost()
    ensures var steps := [Open(0), Open(1), Adopt(0, false), Adopt(1, true),
                          Start(0), Acquire(0), Read(0), Rotate(0), Apply(0)];
      EnabledRun(Init, steps) && ReadToken(After(Init, steps).StoresOf(1)).None?
  {
    hide EnabledRun, After;
    var w1 := Do(Init, Open(0));
    var w2 := Do(w1, Open(1));
    var w3 := Do(w2, Adopt(0, false));
    var w4 := Do(w3, Adopt(1, true));
    var w5 := Do(w4, Start(0));
    var w6 := Do(w5, Acquire(0));
    var w7 := Do(w6, Read(0));
    var w8 := Do(w7, Rotate(0));
    var w9 := Do(w8, Apply(0));
    NoSteps(w9);
    FirstStep(w8, Apply(0), []);
    var r8 := [Apply(0)] + [];
    FirstStep(w7, Rotate(0), r8);
    var r7 := [Rotate(0)] + r8;
    FirstStep(w6, Read(0), r7);
    var r6 := [Read(0)] + r7;
    FirstStep(w5, Acquire(0), r6);
    var r5 := [Acquire(0)] + r6;
    FirstStep(w4, Start(0), r5);
    var r4 := [Start(0)] + r5;
    FirstStep(w3, Adopt(1, true), r4);
    var r3 := [Adopt(1, true)] + r4;
    FirstStep(w2, Adopt(0, false), r3);
    var r2 := [Adopt(0, false)] + r3;
    FirstStep(w1, Open(1), r2);
    var r1 := [Open(1)] + r2;
    FirstStep(Init, Open(0), r1);
    assert [Open(0)] + r1 == [Open(0), Open(1), Adopt(0, false), Adopt(1, true),
                              Start(0), Acquire(0), Read(0), Rotate(0), Apply(0)];
    assert w9.kept.None? && w9.tabs[1].session.None?;
  }

  lemma NoSteps(w: World)
    ensures EnabledRun(w, []) && After(w, []) == w
  {
  }

  lemma FirstStep(w: World, s: Step, rest: seq<Step>)
    requires Enabled(w, s) && EnabledRun(Do(w, s), rest)
    ensures EnabledRun(w, [s] + rest) && After(w, [s] + rest) == After(Do(w, s), rest)
  {
    hide Do, Enabled;
    assert ([s] + rest)[1..] == rest;
  }
}
