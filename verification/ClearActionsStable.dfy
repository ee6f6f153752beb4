/** A rule that was saved once is a fixed point of opening and saving
    (frontend/src/lib/rule-draft.ts:369-455, 546-592). */
module ClearActionsStable {
  import opened Text
  import opened Wrappers
  import opened ClearActions

  /** `validateDraft` refuses a clear notification without a message. */
  predicate ValidToSave(d: Draft) {
    d.folded.notify ==> Trim(d.folded.message) != []
  }

  predicate SameTarget(a: ActionDraft, b: ActionDraft) {
    a.Actuator? && b.Actuator? && a.device == b.device && a.actuator == b.actuator
  }

  /** The two are saved under one target. */
  predicate SavedAlike(a: ActionDraft, b: ActionDraft) {
    a.Actuator? && b.Actuator? && a.device == b.device && Trim(a.actuator) == Trim(b.actuator)
  }

  /** The action, saved and not turned back, would own this clear action. */
  predicate OwnsSaved(a: ActionDraft, c: RawAction) {
    && c.Command? && c.actuator.Some?
    && a.Actuator? && !a.revertOnClear && Trim(a.actuator) == c.actuator.value && a.device == Str(c.device)
  }

  /** Of the first n actions saved under one target, those turned back come first. */
  ghost predicate OrderedTo(actions: seq<ActionDraft>, n: nat)
    requires n <= |actions|
  {
    forall i, j | 0 <= i < j < n && SavedAlike(actions[i], actions[j]) && actions[j].revertOnClear :: actions[i].revertOnClear
  }

  /** What a loaded draft may have to be wary of: of the actions saved under one target
      those turned back come first, and no saved action would take a clear action that
      was passed through. Only names that trim alike can break it. */
  ghost predicate NamesAgree(f: Folding) {
    && OrderedTo(f.actions, |f.actions|)
    && forall c, a | c in f.kept && a in f.actions :: !OwnsSaved(a, c)
  }

  ghost predicate NotNoted(f: Folding) {
    forall c | c in f.kept :: !TakesNotify(f, c)
  }

  /** Every loaded folding is settled, names as they are: of the actions with one
      target those turned back come first, and what was kept has no owner and no
      place as the clear notification. */
  ghost predicate Settled(f: Folding) {
    && (forall i, j | 0 <= i < j < |f.actions| && SameTarget(f.actions[i], f.actions[j]) && f.actions[j].revertOnClear ::
          f.actions[i].revertOnClear)
    && (forall c, a | c in f.kept && a in f.actions :: !Owns(a, c))
    && NotNoted(f)
  }

  lemma FoldOneSettles(f: Folding, c: RawAction)
    requires Settled(f)
    ensures Settled(FoldOne(f, c))
  {
    hide TakesNotify;
    KeptSettles(f, c);
    OrderSettles(f, c);
  }

  lemma OrderSettles(f: Folding, c: RawAction)
    requires Settled(f)
    ensures var g := FoldOne(f, c);
      forall i, j | 0 <= i < j < |g.actions| && SameTarget(g.actions[i], g.actions[j]) && g.actions[j].revertOnClear :: g.actions[i].revertOnClear
  {
    hide TakesNotify;
  }

  lemma KeptSettles(f: Folding, c: RawAction)
    requires Settled(f)
    ensures var g := FoldOne(f, c);
      && (forall d, a | d in g.kept && a in g.actions :: !Owns(a, d))
      && NotNoted(g)
  {
    hide SameTarget;
    var g := FoldOne(f, c);
    var k := FirstOwner(f.actions, c);
    forall d, a | d in g.kept && a in g.actions ensures !Owns(a, d) {
      var i :| 0 <= i < |g.actions| && g.actions[i] == a;
      assert f.actions[i] in f.actions;
      if k < |f.actions| {
        assert !Owns(f.actions[i], d);
      } else if d in f.kept {
        assert !Owns(f.actions[i], d);
      }
    }
  }

  lemma {:induction false} FoldAllSettles(f: Folding, clears: seq<RawAction>)
    requires Settled(f)
    ensures Settled(FoldAll(f, clears))
    decreases clears
  {
    hide Settled;
    hide FoldOne;
    if clears != [] {
      FoldOneSettles(f, clears[0]);
      FoldAllSettles(FoldOne(f, clears[0]), clears[1..]);
    }
  }

  // ---- Actions come back ----------------------------------------------------------------

  /** An action as it is loaded from what it was saved as. */
  function Reset(a: ActionDraft): ActionDraft {
    match FromApi(ToApi(a))
    case Some(d) => d
    case None => a
  }

  function ResetAll(actions: seq<ActionDraft>): (r: seq<ActionDraft>)
    ensures |r| == |actions| && forall i | 0 <= i < |actions| :: r[i] == Reset(actions[i])
  {
    seq(|actions|, i requires 0 <= i < |actions| => Reset(actions[i]))
  }

  lemma {:induction false} FiresComeBack(name: string, actions: seq<ActionDraft>)
    ensures DraftsOf(name, FiresOf(actions)) == ResetAll(actions)
    ensures UnparsedOf(FiresOf(actions)) == []
  {
    hide ToApi, Reset, DraftsOfOne, Unparsed;
    if actions != [] {
      FiresComeBack(name, actions[1..]);
      assert FiresOf(actions) == [ToApi(actions[0])] + FiresOf(actions[1..]);
      assert FiresOf(actions)[1..] == FiresOf(actions[1..]);
      OneComesBack(name, actions[0]);
      assert ResetAll(actions) == [Reset(actions[0])] + ResetAll(actions[1..]);
    }
  }

  lemma OneComesBack(name: string, a: ActionDraft)
    ensures DraftsOfOne(name, ToApi(a)) == [Reset(a)] && Unparsed(ToApi(a)) == []
  {
    hide Trim;
  }

  lemma {:induction false} ParseAll(name: string, a: seq<RawAction>, b: seq<RawAction>)
    ensures DraftsOf(name, a + b) == DraftsOf(name, a) + DraftsOf(name, b)
    ensures UnparsedOf(a + b) == UnparsedOf(a) + UnparsedOf(b)
  {
    hide DraftsOfOne;
    hide Unparsed;
    if a == [] {
      assert a + b == b;
    } else {
      assert (a + b)[1..] == a[1..] + b;
      ParseAll(name, a[1..], b);
    }
  }

  lemma {:induction false} UnparsedStays(name: string, raws: seq<RawAction>)
    ensures DraftsOf(name, UnparsedOf(raws)) == [] && UnparsedOf(UnparsedOf(raws)) == UnparsedOf(raws)
  {
    if raws != [] {
      UnparsedStays(name, raws[1..]);
      if FromApi(raws[0]).None? {
        assert UnparsedOf(raws) == [raws[0]] + UnparsedOf(raws[1..]);
        assert UnparsedOf(raws)[1..] == UnparsedOf(raws[1..]);
      } else {
        assert UnparsedOf(raws) == UnparsedOf(raws[1..]);
      }
    }
  }

  // ---- Clear actions find their owners again ------------------------------------------------

  /** An action loaded back together with its own clear action. */
  function Reloaded(a: ActionDraft): ActionDraft {
    if a.Actuator? && a.revertOnClear then TurnBack(Reset(a), ClearValue(a)) else Reset(a)
  }

  /** The first k actions have their clear actions back. */
  function Partly(actions: seq<ActionDraft>, k: nat): (r: seq<ActionDraft>)
    ensures |r| == |actions|
    ensures forall i | 0 <= i < |actions| :: r[i] == if i < k then Reloaded(actions[i]) else Reset(actions[i])
  {
    seq(|actions|, i requires 0 <= i < |actions| => if i < k then Reloaded(actions[i]) else Reset(actions[i]))
  }

  lemma ReloadedIs(a: ActionDraft)
    ensures a.Actuator? <==> Reset(a).Actuator?
    ensures a.Actuator? <==> Reloaded(a).Actuator?
    ensures a.Actuator? ==>
      && !Reset(a).revertOnClear && Reset(a).device == Reloaded(a).device == a.device
      && Reset(a).actuator == Reloaded(a).actuator == Trim(a.actuator) == Trim(Trim(a.actuator))
      && Reloaded(a).revertOnClear == a.revertOnClear
    ensures ToApi(Reloaded(a)) == ToApi(a) && ClearOf(Reloaded(a)) == ClearOf(a)
  {
    match a
    case Actuator(_, name, _, _, _, _, _, _, _, _) => TrimTwice(name);
    case EmailDraft(_, subject, body) =>
      TrimTwice(subject);
      TrimTwice(body);
    case WebhookDraft(url, _) => TrimTwice(url);
    case NotificationDraft(message) => TrimTwice(message);
  }

  /** Who owns action k's own clear action once those before it have theirs: no one
      after k, and no one before it but an action saved alike and not turned back. */
  lemma OwnerFound(actions: seq<ActionDraft>, k: nat)
    requires k < |actions| && actions[k].Actuator? && actions[k].revertOnClear
    ensures var o := FirstOwner(Partly(actions, k), ClearOf(actions[k])[0]);
      o <= k && (o < k ==> SavedAlike(actions[o], actions[k]) && !actions[o].revertOnClear)
    ensures OrderedTo(actions, k + 1) ==> FirstOwner(Partly(actions, k), ClearOf(actions[k])[0]) == k
    ensures forall i | 0 <= i < k && SavedAlike(actions[i], actions[k]) && !actions[i].revertOnClear :: FirstOwner(Partly(actions, k), ClearOf(actions[k])[0]) <= i
  {
    hide Trim, ToApi, FromApi, Reset, Reloaded, ClearValue;
    var a, c, part := actions[k], ClearOf(actions[k])[0], Partly(actions, k);
    ReloadedIs(a);
    assert Owns(part[k], c);
    forall j | 0 <= j < k ensures Owns(part[j], c) <==> SavedAlike(actions[j], a) && !actions[j].revertOnClear {
      ReloadedIs(actions[j]);
    }
  }

  lemma OrderedFewer(actions: seq<ActionDraft>, k: nat, n: nat)
    requires k <= n <= |actions| && OrderedTo(actions, n)
    ensures OrderedTo(actions, k)
  {
    hide SavedAlike;
  }

  lemma ClearsFrom(actions: seq<ActionDraft>, k: nat, n: nat)
    requires k < n <= |actions|
    ensures ClearsOf(actions[k..n]) == ClearOf(actions[k]) + ClearsOf(actions[k + 1..n])
  {
    hide ClearOf;
    assert actions[k..n][0] == actions[k] && actions[k..n][1..] == actions[k + 1..n];
  }

  /** A folding past an action's own clear action, if it has one. */
  lemma FoldOwn(g: Folding, h: Folding, own: seq<RawAction>, rest: seq<RawAction>, end: Folding)
    requires |own| <= 1 && (if own == [] then g == h else FoldOne(g, own[0]) == h) && FoldAll(h, rest) == end
    ensures FoldAll(g, own + rest) == end
  {
    hide FoldOne;
    if own == [] {
      assert own + rest == rest;
    } else {
      assert (own + rest)[0] == own[0] && (own + rest)[1..] == rest;
    }
  }

  lemma {:induction false} ClearsFoldBack(actions: seq<ActionDraft>, k: nat, n: nat, notify: bool, message: string)
    requires k <= n <= |actions| && OrderedTo(actions, n)
    ensures FoldAll(Folding(Partly(actions, k), notify, message, []), ClearsOf(actions[k..n]))
         == Folding(Partly(actions, n), notify, message, [])
    decreases n - k
  {
    hide *;
    if k < n {
      var g, h := Folding(Partly(actions, k), notify, message, []), Folding(Partly(actions, k + 1), notify, message, []);
      var own, rest := ClearOf(actions[k]), ClearsOf(actions[k + 1..n]);
      OwnIsOne(actions[k]);
      OrderedFewer(actions, k + 1, n);
      ClearsFoldBack(actions, k + 1, n, notify, message);
      FoldsBackOne(actions, k, notify, message);
      ClearsFrom(actions, k, n);
      FoldOwn(g, h, own, rest, Folding(Partly(actions, n), notify, message, []));
    } else {
      NothingFolds(Folding(Partly(actions, k), notify, message, []), actions[k..n]);
    }
  }

  lemma NothingFolds(f: Folding, none: seq<ActionDraft>)
    requires none == []
    ensures FoldAll(f, ClearsOf(none)) == f
  {
  }

  lemma OwnIsOne(a: ActionDraft)
    ensures |ClearOf(a)| <= 1
  {
    hide Trim, ClearValue;
  }

  lemma FoldsBackOne(actions: seq<ActionDraft>, k: nat, notify: bool, message: string)
    requires k < |actions| && OrderedTo(actions, k + 1)
    ensures var g, h := Folding(Partly(actions, k), notify, message, []), Folding(Partly(actions, k + 1), notify, message, []);
      if ClearOf(actions[k]) == [] then g == h else FoldOne(g, ClearOf(actions[k])[0]) == h
  {
    hide OrderedTo, Trim;
    var a := actions[k];
    if ClearOf(a) == [] {
      assert Partly(actions, k) == Partly(actions, k + 1);
    } else {
      OwnerFound(actions, k);
      assert Partly(actions, k)[k := Reloaded(a)] == Partly(actions, k + 1);
    }
  }

  lemma {:induction false} KeptStayKept(g: Folding, kept: seq<RawAction>)
    requires forall c, a | c in kept && a in g.actions :: !Owns(a, c)
    requires forall c | c in kept :: !TakesNotify(g, c)
    ensures FoldAll(g, kept) == g.(kept := g.kept + kept)
    decreases kept
  {
    if kept == [] {
      assert g.kept + kept == g.kept;
    } else {
      var c := kept[0];
      assert c in kept;
      forall i | 0 <= i < |g.actions| ensures !Owns(g.actions[i], c) {
        assert g.actions[i] in g.actions;
      }
      assert !TakesNotify(g, c);
      var h := g.(kept := g.kept + [c]);
      assert FoldOne(g, c) == h;
      forall d | d in kept[1..] ensures !TakesNotify(h, d) && d in kept {
        assert d in kept && !TakesNotify(g, d);
      }
      KeptStayKept(h, kept[1..]);
      assert (g.kept + [c]) + kept[1..] == g.kept + kept;
    }
  }

  lemma {:induction false} FoldAllAppend(f: Folding, a: seq<RawAction>, b: seq<RawAction>)
    ensures FoldAll(f, a + b) == FoldAll(FoldAll(f, a), b)
    decreases a
  {
    if a == [] {
      assert a + b == b;
    } else {
      assert (a + b)[1..] == a[1..] + b;
      FoldAllAppend(FoldOne(f, a[0]), a[1..], b);
    }
  }

  /** The folding that loading the saved clear actions arrives at. */
  function Refolded(f: Folding): Folding {
    Folding(Partly(f.actions, |f.actions|), f.notify, if f.notify then Trim(f.message) else "", f.kept)
  }

  /** The state after the clear actions of the actions and the notification. */
  function Noted(f: Folding): Folding {
    Folding(Partly(f.actions, |f.actions|), f.notify, if f.notify then Trim(f.message) else "", [])
  }

  lemma ClearsComeBack(f: Folding)
    requires OrderedTo(f.actions, |f.actions|) && (f.notify ==> Trim(f.message) != [])
    ensures FoldAll(Folding(ResetAll(f.actions), false, "", []), SavedClears(f)) == FoldAll(Noted(f), f.kept)
  {
    hide Trim, OrderedTo, ClearsOf;
    assert ResetAll(f.actions) == Partly(f.actions, 0);
    assert f.actions[0..|f.actions|] == f.actions;
    ClearsFoldBack(f.actions, 0, |f.actions|, false, "");
    var note := NoteOf(f.notify, f.message);
    NoteFoldsBack(Partly(f.actions, |f.actions|), f.notify, f.message);
    FoldAllAppend(Folding(ResetAll(f.actions), false, "", []), ClearsOf(f.actions), note);
    FoldAllAppend(Folding(ResetAll(f.actions), false, "", []), ClearsOf(f.actions) + note, f.kept);
  }

  lemma SavedClearsFoldBack(f: Folding)
    requires NamesAgree(f) && NotNoted(f) && (f.notify ==> Trim(f.message) != [])
    ensures FoldAll(Folding(ResetAll(f.actions), false, "", []), SavedClears(f)) == Refolded(f)
  {
    hide Trim, SavedClears;
    ClearsComeBack(f);
    KeptHaveNoOwner(f);
    assert forall c | c in f.kept :: !TakesNotify(Noted(f), c);
    KeptStayKept(Noted(f), f.kept);
    assert [] + f.kept == f.kept;
  }

  lemma NoteFoldsBack(actions: seq<ActionDraft>, notify: bool, message: string)
    requires notify ==> Trim(message) != []
    ensures FoldAll(Folding(actions, false, "", []), NoteOf(notify, message))
         == Folding(actions, notify, if notify then Trim(message) else "", [])
  {
    hide Trim;
    if notify {
      var c := Notification(Some(Trim(message)), ["platform"]);
      var g := Folding(actions, false, "", []);
      assert [c][1..] == [];
      assert FirstOwner(actions, c) == |actions|;
      assert FoldAll(g, [c]) == FoldAll(FoldOne(g, c), []);
    }
  }

  /** A saved action owns what `OwnsSaved` says. */
  lemma ReloadedOwns(a: ActionDraft, c: RawAction)
    ensures Owns(Reloaded(a), c) <==> OwnsSaved(a, c)
  {
    hide Trim;
    ReloadedIs(a);
  }

  lemma KeptHaveNoOwner(f: Folding)
    requires NamesAgree(f)
    ensures forall c, a | c in f.kept && a in Partly(f.actions, |f.actions|) :: !Owns(a, c)
  {
    hide Owns, OwnsSaved, OrderedTo;
    var full := Partly(f.actions, |f.actions|);
    forall c, a | c in f.kept && a in full ensures !Owns(a, c) {
      var i :| 0 <= i < |full| && full[i] == a;
      assert f.actions[i] in f.actions;
      ReloadedOwns(f.actions[i], c);
    }
  }

  lemma {:induction false} SameClears(a: seq<ActionDraft>, b: seq<ActionDraft>)
    requires |a| == |b| && forall i | 0 <= i < |a| :: ClearOf(a[i]) == ClearOf(b[i])
    ensures ClearsOf(a) == ClearsOf(b)
  {
    if a != [] {
      SameClears(a[1..], b[1..]);
    }
  }

  lemma RefoldedSavesAlike(f: Folding)
    ensures SavedClears(Refolded(f)) == SavedClears(f)
    ensures FiresOf(Refolded(f).actions) == FiresOf(f.actions)
  {
    hide Trim;
    hide ToApi;
    hide ClearOf;
    var full := Partly(f.actions, |f.actions|);
    forall i | 0 <= i < |full| ensures ClearOf(full[i]) == ClearOf(f.actions[i]) && ToApi(full[i]) == ToApi(f.actions[i]) {
      ReloadedIs(f.actions[i]);
    }
    SameClears(full, f.actions);
    TrimTwice(f.message);
  }

  lemma FreshSettled(name: string, raws: seq<RawAction>)
    ensures Settled(Folding(DraftsOf(name, raws), false, "", []))
  {
    hide DraftsOf, Owns, TakesNotify;
    FreshDraftsOwe(name, raws);
  }

  lemma LoadSettles(r: Rule)
    ensures Settled(Load(r).folded) && Load(r).name == r.name
  {
    hide FoldAll, Settled, DraftsOf;
    FreshSettled(r.name, r.actions);
    FoldAllSettles(Folding(DraftsOf(r.name, r.actions), false, "", []), r.clearActions);
  }

  /** The draft that opening the saved rule gives. */
  lemma SecondLoad(r: Rule)
    ensures var f := Load(r).folded;
      Load(Save(Load(r))) == Draft(r.name, FoldAll(Folding(ResetAll(f.actions), false, "", []), SavedClears(f)), Load(r).unparsed)
    ensures Settled(Load(r).folded) && Load(r).name == r.name
  {
    LoadSettles(r);
    hide Trim, FoldAll, SavedClears, Settled, DraftsOf, UnparsedOf, FiresOf, ResetAll;
    var d := Load(r);
    FiresComeBack(r.name, d.folded.actions);
    UnparsedStays(r.name, r.actions);
    ParseAll(r.name, FiresOf(d.folded.actions), d.unparsed);
    assert ResetAll(d.folded.actions) + [] == ResetAll(d.folded.actions) && [] + d.unparsed == d.unparsed;
  }

  /** Opening and saving a second time changes nothing, for every rule whose draft may
      be saved and whose names agree; and then they go on agreeing. */
  lemma SecondSaveSame(r: Rule)
    requires NamesAgree(Load(r).folded) && ValidToSave(Load(r))
    ensures Save(Load(Save(Load(r)))) == Save(Load(r))
    ensures NamesAgree(Load(Save(Load(r))).folded) && ValidToSave(Load(Save(Load(r))))
  {
    hide Load, SavedClears, FiresOf, NamesAgree, Trim;
    var f := Load(r).folded;
    SecondLoad(r);
    SavedClearsFoldBack(f);
    RefoldedSavesAlike(f);
    TrimTwice(f.message);
    RefoldedAgrees(f);
  }

  lemma RefoldedAgrees(f: Folding)
    requires NamesAgree(f)
    ensures NamesAgree(Refolded(f))
  {
    hide Trim;
    var full := Partly(f.actions, |f.actions|);
    forall i | 0 <= i < |full| ensures full[i] == Reloaded(f.actions[i]) {}
    forall i, j | 0 <= i < j < |full| && SavedAlike(full[i], full[j]) && full[j].revertOnClear ensures full[i].revertOnClear {
      ReloadedIs(f.actions[i]);
      ReloadedIs(f.actions[j]);
    }
    forall c, a | c in f.kept && a in full ensures !OwnsSaved(a, c) {
      var i :| 0 <= i < |full| && full[i] == a;
      assert f.actions[i] in f.actions;
      ReloadedIs(f.actions[i]);
    }
  }

  /** Names without padding agree. */
  lemma TrimmedAgree(r: Rule)
    requires forall a | a in Load(r).folded.actions :: a.Actuator? ==> Trim(a.actuator) == a.actuator
    ensures NamesAgree(Load(r).folded)
  {
    hide Trim, Load;
    SecondLoad(r);
    var f := Load(r).folded;
    forall i, j | 0 <= i < j < |f.actions| && SavedAlike(f.actions[i], f.actions[j]) && f.actions[j].revertOnClear
      ensures f.actions[i].revertOnClear
    {
      assert f.actions[i] in f.actions && f.actions[j] in f.actions;
    }
    forall c, a | c in f.kept && a in f.actions ensures !OwnsSaved(a, c) {
      assert !Owns(a, c);
    }
  }

  // ---- Exactly when the draft comes back ------------------------------------------------------

  /** The same actions are turned back, and the same clear actions passed through. */
  ghost predicate SameFolds(f: Folding, g: Folding) {
    |f.actions| == |g.actions| && (forall i | 0 <= i < |f.actions| :: Turned(f, i) == Turned(g, i)) && f.kept == g.kept
  }

  predicate Turned(f: Folding, i: nat)
    requires i < |f.actions|
  {
    f.actions[i].Actuator? && f.actions[i].revertOnClear
  }

  /** What is turned back stays so. */
  lemma {:induction false} TurnedStays(f: Folding, clears: seq<RawAction>, i: nat)
    requires i < |f.actions| && Turned(f, i)
    ensures |FoldAll(f, clears).actions| == |f.actions| && Turned(FoldAll(f, clears), i)
    decreases clears
  {
    if clears != [] {
      TurnedStays(FoldOne(f, clears[0]), clears[1..], i);
    }
  }

  /** A clear action that some action owns turns one back that was not. */
  lemma {:induction false} OwnedTurns(f: Folding, clears: seq<RawAction>) returns (i: nat)
    requires exists c, a :: c in clears && a in f.actions && Owns(a, c)
    ensures i < |f.actions| == |FoldAll(f, clears).actions| && !Turned(f, i) && Turned(FoldAll(f, clears), i)
    decreases clears
  {
    var c, a :| c in clears && a in f.actions && Owns(a, c);
    var k := FirstOwner(f.actions, clears[0]);
    if k < |f.actions| {
      TurnedStays(FoldOne(f, clears[0]), clears[1..], k);
      i := k;
    } else {
      var j :| 0 <= j < |f.actions| && f.actions[j] == a;
      assert c != clears[0];
      assert c in clears[1..];
      i := OwnedTurns(FoldOne(f, clears[0]), clears[1..]);
    }
  }

  /** The first action turned back behind one saved alike that is not. */
  lemma FirstOutOfOrder(actions: seq<ActionDraft>) returns (i: nat, j: nat)
    requires !OrderedTo(actions, |actions|)
    ensures i < j < |actions| && OrderedTo(actions, j)
    ensures SavedAlike(actions[i], actions[j]) && actions[j].revertOnClear && !actions[i].revertOnClear
  {
    j := 0;
    while OrderedTo(actions, j + 1)
      invariant j < |actions| && OrderedTo(actions, j)
      decreases |actions| - j
    {
      j := j + 1;
    }
    i :| 0 <= i < j && SavedAlike(actions[i], actions[j]) && !actions[i].revertOnClear;
  }

  /** Its clear action then turns another action back. */
  lemma OutOfOrderTurns(f: Folding) returns (o: nat)
    requires !OrderedTo(f.actions, |f.actions|)
    ensures var g := FoldAll(Folding(ResetAll(f.actions), false, "", []), SavedClears(f));
      o < |f.actions| == |g.actions| && !Turned(f, o) && Turned(g, o)
  {
    var i, j := FirstOutOfOrder(f.actions);
    var actions := f.actions;
    OwnerFound(actions, j);
    hide OrderedTo, ClearsOf, NoteOf, Trim, SavedAlike, Reset, Reloaded, FoldOne, FoldAll, SavedClears;
    var c := ClearOf(actions[j])[0];
    var rest := ClearsOf(actions[j + 1..]) + NoteOf(f.notify, f.message) + f.kept;
    o := FirstOwner(Partly(actions, j), c);
    ReloadedIs(actions[o]);
    FoldsUpTo(f, j);
    OwnerTurns(Folding(Partly(actions, j), false, "", []), c, rest);
  }

  /** The clear actions before the jth action's find their owners. */
  lemma FoldsUpTo(f: Folding, j: nat)
    requires j < |f.actions| && OrderedTo(f.actions, j) && ClearOf(f.actions[j]) != []
    ensures FoldAll(Folding(ResetAll(f.actions), false, "", []), SavedClears(f))
         == FoldAll(Folding(Partly(f.actions, j), false, "", []), [ClearOf(f.actions[j])[0]] + (ClearsOf(f.actions[j + 1..]) + NoteOf(f.notify, f.message) + f.kept))
  {
    hide OrderedTo, ClearsOf, ClearOf, NoteOf, FoldOne, FoldAll, Reset, Reloaded;
    var actions := f.actions;
    var c := ClearOf(actions[j])[0];
    var rest := ClearsOf(actions[j + 1..]) + NoteOf(f.notify, f.message) + f.kept;
    assert ResetAll(actions) == Partly(actions, 0) && actions[0..j] == actions[..j];
    ClearsFoldBack(actions, 0, j, false, "");
    SplitClears(actions, j);
    assert SavedClears(f) == ClearsOf(actions[..j]) + ([c] + rest);
    FoldAllAppend(Folding(ResetAll(actions), false, "", []), ClearsOf(actions[..j]), [c] + rest);
  }

  lemma OwnerTurns(f: Folding, c: RawAction, rest: seq<RawAction>)
    requires FirstOwner(f.actions, c) < |f.actions|
    ensures var g, o := FoldAll(f, [c] + rest), FirstOwner(f.actions, c); |g.actions| == |f.actions| && Turned(g, o)
  {
    assert ([c] + rest)[1..] == rest;
    TurnedStays(FoldOne(f, c), rest, FirstOwner(f.actions, c));
  }

  lemma SplitClears(actions: seq<ActionDraft>, j: nat)
    requires j < |actions| && ClearOf(actions[j]) != []
    ensures ClearsOf(actions) == ClearsOf(actions[..j]) + ([ClearOf(actions[j])[0]] + ClearsOf(actions[j + 1..]))
  {
    assert actions == actions[..j] + actions[j..] && actions[j..][1..] == actions[j + 1..];
    ClearsAppend(actions[..j], actions[j..]);
    assert ClearOf(actions[j]) == [ClearOf(actions[j])[0]];
  }

  /** Opening the saved rule turns back the same actions and passes the same clear
      actions through if and only if the names agree. */
  lemma SecondLoadSame(r: Rule)
    requires ValidToSave(Load(r))
    ensures SameFolds(Load(r).folded, Load(Save(Load(r))).folded) <==> NamesAgree(Load(r).folded)
  {
    hide Load, SavedClears, Trim, OwnsSaved, Owns;
    var f := Load(r).folded;
    SecondLoad(r);
    if NamesAgree(f) {
      SavedClearsFoldBack(f);
      forall i | 0 <= i < |f.actions| ensures Turned(f, i) == Turned(Refolded(f), i) {
        ReloadedIs(f.actions[i]);
      }
    } else if !OrderedTo(f.actions, |f.actions|) {
      var o := OutOfOrderTurns(f);
    } else {
      var c, a :| c in f.kept && a in f.actions && OwnsSaved(a, c);
      var k :| 0 <= k < |f.actions| && f.actions[k] == a;
      ReloadedOwns(a, c);
      assert Noted(f).actions[k] in Noted(f).actions && Owns(Noted(f).actions[k], c);
      ClearsComeBack(f);
      var i := OwnedTurns(Noted(f), f.kept);
      ReloadedIs(f.actions[i]);
    }
  }

  // ---- Padded names ---------------------------------------------------------------------------

  /** Names that trim alike do break it: the first save trims " r" to "r", so the second
      load folds its clear action into another "r" of another type, which is saved
      with a value of its own. */
  lemma PaddedNameMoves()
    ensures var r := Padded(); Save(Load(Save(Load(r)))).clearActions != Save(Load(r)).clearActions
  {
    hide Load, Save;
    PaddedSavedOnce();
    PaddedSavedTwice();
    assert Switch(Number(0.0)) != Switch(Bool(false));
    assert [Switch(Number(0.0))][0] == Switch(Number(0.0)) && [Switch(Bool(false))][0] == Switch(Bool(false));
  }

  function Switch(v: Value): RawAction {
    Command(Some("d"), Some("r"), v)
  }

  lemma PaddedSavedOnce()
    ensures Save(Load(Padded())) == Rule("", [Switch(Bool(true)), Switch(Number(5.0))], [Switch(Number(0.0))])
  {
    hide Load, Save, FoldOne, Trim, Owns;
    var r := Padded();
    var a, b := FromApi(r.actions[0]).value, FromApi(r.actions[1]).value;
    TrimsTo();
    TwoLoaded(r.actions[0], r.actions[1], r.clearActions[0]);
    assert !Owns(a, r.clearActions[0]) && Owns(b, r.clearActions[0]) by { assert " r" != "r"; OwnsIs(a, r.clearActions[0]); OwnsIs(b, r.clearActions[0]); }
    TwoFolded(a, b, r.clearActions[0], 1);
    var c := TurnBack(b, Number(0.0));
    assert [a, b][1 := c] == [a, c];
    TwoSaved(a, c);
    assert ToApi(a) == Switch(Bool(true)) && ToApi(c) == Switch(Number(5.0)) && ClearOf(a) == [] && ClearOf(c) == [Switch(Number(0.0))];
  }

  lemma OwnsIs(a: ActionDraft, c: RawAction)
    requires a.Actuator? && !a.revertOnClear && c.Command? && c.actuator.Some?
    ensures Owns(a, c) <==> a.actuator == c.actuator.value && a.device == Str(c.device)
  {
  }

  lemma PaddedSavedTwice()
    ensures Save(Load(Rule("", [Switch(Bool(true)), Switch(Number(5.0))], [Switch(Number(0.0))]))).clearActions == [Switch(Bool(false))]
  {
    hide Load, Save, FoldOne, Trim, Owns;
    var a, b := FromApi(Switch(Bool(true))).value, FromApi(Switch(Number(5.0))).value;
    TrimsTo();
    TwoLoaded(Switch(Bool(true)), Switch(Number(5.0)), Switch(Number(0.0)));
    OwnsIs(a, Switch(Number(0.0)));
    TwoFolded(a, b, Switch(Number(0.0)), 0);
    var c := TurnBack(a, Number(0.0));
    assert [a, b][0 := c] == [c, b];
    TwoSaved(c, b);
    assert ClearOf(c) == [Switch(Bool(false))] && ClearOf(b) == [];
  }

  function Padded(): Rule {
    Rule("", [Command(Some("d"), Some("r"), Bool(true)), Command(Some("d"), Some(" r"), Number(5.0))], [Command(Some("d"), Some(" r"), Number(0.0))])
  }

  lemma TrimsTo()
    ensures Trim("r") == "r" && Trim(" r") == "r"
  {
    assert " r"[1..] == "r";
    assert TrimLeft("r") == "r" && TrimLeft(" r") == "r" && TrimRight("r") == "r";
  }

  lemma TwoLoaded(a: RawAction, b: RawAction, c: RawAction)
    requires FromApi(a).Some? && FromApi(b).Some? && !a.Notification? && !b.Notification?
    ensures Load(Rule("", [a, b], [c])) == Draft("", FoldOne(Folding([FromApi(a).value, FromApi(b).value], false, "", []), c), [])
  {
    var two, one := [a, b], [b];
    assert two[0] == a && two[1..] == one && one[0] == b && one[1..] == [] && [c][1..] == [];
    assert DraftsOfOne("", a) == [FromApi(a).value] && DraftsOfOne("", b) == [FromApi(b).value];
    assert DraftsOf("", one) == DraftsOfOne("", b) + DraftsOf("", []) == [FromApi(b).value];
    assert DraftsOf("", two) == DraftsOfOne("", a) + DraftsOf("", one) == [FromApi(a).value, FromApi(b).value];
    assert Unparsed(a) == [] && Unparsed(b) == [];
    assert UnparsedOf(one) == Unparsed(b) + UnparsedOf([]) == [];
    assert UnparsedOf(two) == Unparsed(a) + UnparsedOf(one) == [];
    var start := Folding([FromApi(a).value, FromApi(b).value], false, "", []);
    assert FoldAll(start, [c]) == FoldAll(FoldOne(start, c), [c][1..]);
  }

  lemma TwoFolded(a: ActionDraft, b: ActionDraft, c: RawAction, k: nat)
    requires k <= 1 && Owns([a, b][k], c) && (k == 1 ==> !Owns(a, c))
    ensures FoldOne(Folding([a, b], false, "", []), c) == Folding([a, b][k := TurnBack([a, b][k], c.value)], false, "", [])
  {
    assert [a, b][1..] == [b];
  }

  lemma TwoSaved(a: ActionDraft, b: ActionDraft)
    ensures Save(Draft("", Folding([a, b], false, "", []), [])) == Rule("", [ToApi(a), ToApi(b)], ClearOf(a) + ClearOf(b))
  {
    hide ClearOf, ToApi;
    var two, one := [a, b], [b];
    assert two[0] == a && two[1..] == one && one[0] == b && one[1..] == [];
    assert ClearsOf(one) == ClearOf(b) + ClearsOf([]) == ClearOf(b);
    assert ClearsOf(two) == ClearOf(a) + ClearsOf(one);
    assert FiresOf(two) == [ToApi(a), ToApi(b)];
  }

  /** Names that do not agree need not show in what is saved: of two switches set
      alike, the clear action moves from the second to the first and is the same. */
  lemma PaddedNameCoincides()
    ensures !NamesAgree(Load(Twins()).folded) && Save(Load(Save(Load(Twins())))) == Save(Load(Twins()))
  {
    hide Load, Save, FoldOne, Trim, Owns, NamesAgree;
    var r := Twins();
    var a, b := FromApi(r.actions[0]).value, FromApi(r.actions[1]).value;
    var off := Switch(Bool(false));
    TrimsTo();
    TwoLoaded(r.actions[0], r.actions[1], r.clearActions[0]);
    assert " r" != "r";
    OwnsIs(a, r.clearActions[0]);
    OwnsIs(b, r.clearActions[0]);
    TwoFolded(a, b, r.clearActions[0], 1);
    var c := TurnBack(b, Bool(false));
    assert [a, b][1 := c] == [a, c];
    TwoSaved(a, c);
    assert ToApi(a) == ToApi(c) == Switch(Bool(true)) && ClearOf(a) == [] && ClearOf(c) == [off];
    NotInOrder(a, c);
    TwoLoaded(Switch(Bool(true)), Switch(Bool(true)), off);
    OwnsIs(a, off);
    TwoFolded(a, a, off, 0);
    var d := TurnBack(a, Bool(false));
    assert [a, a][0 := d] == [d, a];
    TwoSaved(d, a);
    assert ToApi(d) == Switch(Bool(true)) && ClearOf(d) == [off];
    assert [off] + [] == [off] == [] + [off];
    assert Save(Load(r)) == Rule("", [Switch(Bool(true)), Switch(Bool(true))], [off]);
  }

  function Twins(): Rule {
    Rule("", [Switch(Bool(true)), Command(Some("d"), Some(" r"), Bool(true))], [Command(Some("d"), Some(" r"), Bool(false))])
  }

  lemma NotInOrder(a: ActionDraft, b: ActionDraft)
    requires SavedAlike(a, b) && !a.revertOnClear && b.revertOnClear
    ensures !NamesAgree(Folding([a, b], false, "", []))
  {
    assert SavedAlike([a, b][0], [a, b][1]);
  }
}
