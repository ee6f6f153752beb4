/** A rule's actions and clear actions through the editor
    (frontend/src/lib/rule-draft.ts:335-455, 498-592), for a rule that runs on each
    reading and re-arms: loading folds clear actions into the actions they turn
    back, saving unfolds them. */
module ClearActions {
  import opened Text
  import opened Wrappers

  // ---- The two shapes ---------------------------------------------------------------

  /** A JSON scalar; `Other` is anything else, a missing value included. */
  datatype Value =
    | Bool(b: bool)
    | Number(n: real)
    | Text(s: string)
    | Other

  datatype Kind = BoolKind | NumberKind | TextKind

  /** One action as the API holds it; `None` for a field that is missing or not a
      string. `payload` stands for a webhook's JSON body, `raw` for an action of an
      unknown type. */
  datatype RawAction =
    | Command(device: Option<string>, actuator: Option<string>, value: Value)
    | Email(to: seq<string>, subject: Option<string>, body: Option<string>)
    | Webhook(url: Option<string>, payload: int)
    | Notification(message: Option<string>, channels: seq<string>)
    | Unknown(raw: int)

  datatype ActionDraft =
    | Actuator(device: string, actuator: string, kind: Kind, bool_: bool, num: real, text: string,
               revertOnClear: bool, clearBool: Option<bool>, clearNum: real, clearText: string)
    | EmailDraft(to: seq<string>, subject: string, body: string)
    | WebhookDraft(url: string, payload: int)
    | NotificationDraft(message: string)

  function Str(v: Option<string>): string {
    if v.Some? then v.value else ""
  }

  // ---- Loading actions -----------------------------------------------------------------

  function KindOf(v: Value): Kind {
    match v
    case Number(_) => NumberKind
    case Text(_) => TextKind
    case _ => BoolKind
  }

  /** `actionFromApi`. */
  function FromApi(a: RawAction): Option<ActionDraft> {
    match a
    case Command(device, Some(actuator), value) =>
      Some(Actuator(Str(device), actuator, KindOf(value), value != Bool(false),
                    if value.Number? then value.n else 0.0, if value.Text? then value.s else "",
                    false, None, 0.0, ""))
    case Email(to, subject, body) => Some(EmailDraft(to, Str(subject), Str(body)))
    case Webhook(url, payload) => Some(WebhookDraft(Str(url), payload))
    case Notification(message, _) => Some(NotificationDraft(Str(message)))
    case _ => None
  }

  function AlertSubject(ruleName: string): string {
    "[" + ruleName + "] alert"
  }

  /** The email an old notification's email channel becomes. */
  function AlertEmail(ruleName: string, a: RawAction): seq<ActionDraft> {
    if a.Notification? && "email" in a.channels
    then [EmailDraft([], AlertSubject(ruleName), Str(a.message))]
    else []
  }

  function DraftsOfOne(ruleName: string, raw: RawAction): seq<ActionDraft> {
    match FromApi(raw)
    case None => []
    case Some(d) => [d] + AlertEmail(ruleName, raw)
  }

  function DraftsOf(ruleName: string, raws: seq<RawAction>): seq<ActionDraft> {
    if raws == [] then [] else DraftsOfOne(ruleName, raws[0]) + DraftsOf(ruleName, raws[1..])
  }

  function Unparsed(raw: RawAction): seq<RawAction> {
    if FromApi(raw).None? then [raw] else []
  }

  function UnparsedOf(raws: seq<RawAction>): seq<RawAction> {
    if raws == [] then [] else Unparsed(raws[0]) + UnparsedOf(raws[1..])
  }

  // ---- Folding clear actions -------------------------------------------------------------

  /** The loop's state: the drafts, the clear notification, what passes through. */
  datatype Folding = Folding(actions: seq<ActionDraft>, notify: bool, message: string, kept: seq<RawAction>)

  predicate Owns(a: ActionDraft, c: RawAction) {
    && c.Command? && c.actuator.Some?
    && a.Actuator? && !a.revertOnClear && a.actuator == c.actuator.value && a.device == Str(c.device)
  }

  /** `actions.find(...)`: the first owner, or the number of actions. */
  function FirstOwner(actions: seq<ActionDraft>, c: RawAction): (k: nat)
    ensures k <= |actions|
    ensures k < |actions| ==> Owns(actions[k], c)
    ensures forall j | 0 <= j < k :: !Owns(actions[j], c)
  {
    if actions == [] || Owns(actions[0], c) then 0 else 1 + FirstOwner(actions[1..], c)
  }

  /** The owner once it takes the command's value, by the value's own type. */
  function TurnBack(a: ActionDraft, v: Value): ActionDraft
    requires a.Actuator?
  {
    var b := a.(revertOnClear := true);
    match v
    case Bool(x) => b.(clearBool := Some(x))
    case Number(x) => b.(clearNum := x)
    case Text(x) => b.(clearText := x)
    case Other => b
  }

  predicate TakesNotify(f: Folding, c: RawAction) {
    c.Notification? && !f.notify && "email" !in c.channels
  }

  function FoldOne(f: Folding, c: RawAction): Folding {
    var k := FirstOwner(f.actions, c);
    if k < |f.actions| then f.(actions := f.actions[k := TurnBack(f.actions[k], c.value)])
    else if TakesNotify(f, c) then f.(notify := true, message := Str(c.message))
    else f.(kept := f.kept + [c])
  }

  function FoldAll(f: Folding, clears: seq<RawAction>): Folding
    decreases clears
  {
    if clears == [] then f else FoldAll(FoldOne(f, clears[0]), clears[1..])
  }

  datatype Rule = Rule(name: string, actions: seq<RawAction>, clearActions: seq<RawAction>)

  datatype Draft = Draft(name: string, folded: Folding, unparsed: seq<RawAction>)

  function Load(r: Rule): Draft {
    Draft(r.name, FoldAll(Folding(DraftsOf(r.name, r.actions), false, "", []), r.clearActions), UnparsedOf(r.actions))
  }

  /** The action loops of `draftFromRule`. */
  method DraftFromRule(rule: Rule) returns (d: Draft)
    ensures d == Load(rule)
  {
    hide *;
    var actions, preserved := ParseActions(rule.name, rule.actions);
    d := FoldClearActions(rule, actions, preserved);
  }

  method ParseActions(name: string, raws: seq<RawAction>) returns (actions: seq<ActionDraft>, preserved: seq<RawAction>)
    ensures actions == DraftsOf(name, raws) && preserved == UnparsedOf(raws)
  {
    hide *;
    actions, preserved := [], [];
    NothingParsed(name);
    assert raws[..0] == [];
    for i := 0 to |raws|
      invariant actions == DraftsOf(name, raws[..i])
      invariant preserved == UnparsedOf(raws[..i])
    {
      var raw := raws[i];
      ParseExtend(name, raws, i);
      var parsed := FromApi(raw);
      if parsed.None? {
        preserved := preserved + [raw];
        continue;
      }
      actions := actions + [parsed.value];
      if raw.Notification? && "email" in raw.channels {
        actions := actions + [EmailDraft([], AlertSubject(name), parsed.value.message)];
      }
    }
    assert raws[..|raws|] == raws;
  }

  lemma NothingParsed(name: string)
    ensures DraftsOf(name, []) == [] && UnparsedOf([]) == []
  {
  }

  lemma {:induction false} ParseExtend(name: string, raws: seq<RawAction>, i: nat)
    requires i < |raws|
    ensures FromApi(raws[i]).Some? && raws[i].Notification? ==> FromApi(raws[i]).value.NotificationDraft?
    ensures DraftsOf(name, raws[..i + 1]) ==
      if FromApi(raws[i]).None? then DraftsOf(name, raws[..i])
      else if raws[i].Notification? && "email" in raws[i].channels
      then DraftsOf(name, raws[..i]) + [FromApi(raws[i]).value] + [EmailDraft([], AlertSubject(name), FromApi(raws[i]).value.message)]
      else DraftsOf(name, raws[..i]) + [FromApi(raws[i]).value]
    ensures UnparsedOf(raws[..i + 1]) == UnparsedOf(raws[..i]) + if FromApi(raws[i]).None? then [raws[i]] else []
  {
    assert raws[..i + 1] == raws[..i] + [raws[i]];
    ParseAppend(name, raws[..i], raws[i]);
  }

  lemma {:induction false} ParseAppend(name: string, raws: seq<RawAction>, raw: RawAction)
    ensures DraftsOf(name, raws + [raw]) == DraftsOf(name, raws) + DraftsOfOne(name, raw)
    ensures UnparsedOf(raws + [raw]) == UnparsedOf(raws) + Unparsed(raw)
  {
    hide DraftsOfOne;
    hide Unparsed;
    if raws == [] {
      assert raws + [raw] == [raw] && [raw][1..] == [];
    } else {
      assert (raws + [raw])[1..] == raws[1..] + [raw];
      ParseAppend(name, raws[1..], raw);
    }
  }

  method FoldClearActions(rule: Rule, parsed: seq<ActionDraft>, preserved: seq<RawAction>) returns (d: Draft)
    requires parsed == DraftsOf(rule.name, rule.actions) && preserved == UnparsedOf(rule.actions)
    ensures d == Load(rule)
  {
    hide DraftsOf;
    hide UnparsedOf;
    hide TurnBack;
    var clears, actions := rule.clearActions, parsed;
    var preservedClear: seq<RawAction> := [];
    var clearNotify, clearMessage := false, "";
    ghost var end := FoldAll(Folding(parsed, false, "", []), clears);
    for i := 0 to |clears|
      invariant FoldAll(Folding(actions, clearNotify, clearMessage, preservedClear), clears[i..]) == end
    {
      var raw := clears[i];
      assert clears[i..][0] == raw && clears[i..][1..] == clears[i + 1..];
      var k := FirstOwner(actions, raw);
      if k < |actions| {
        actions := actions[k := TurnBack(actions[k], raw.value)];
        continue;
      }
      if raw.Notification? && !clearNotify && "email" !in raw.channels {
        clearNotify := true;
        clearMessage := Str(raw.message);
        continue;
      }
      preservedClear := preservedClear + [raw];
    }
    d := Draft(rule.name, Folding(actions, clearNotify, clearMessage, preservedClear), preserved);
  }

  // ---- Saving ---------------------------------------------------------------------------

  function FireValue(a: ActionDraft): Value
    requires a.Actuator?
  {
    match a.kind case BoolKind => Bool(a.bool_) case NumberKind => Number(a.num) case TextKind => Text(a.text)
  }

  /** A boolean owner without a clear value turns back to the opposite. */
  function ClearValue(a: ActionDraft): Value
    requires a.Actuator?
  {
    match a.kind
    case BoolKind => Bool(if a.clearBool.Some? then a.clearBool.value else !a.bool_)
    case NumberKind => Number(a.clearNum)
    case TextKind => Text(a.clearText)
  }

  function ToApi(a: ActionDraft): RawAction {
    match a
    case Actuator(_, _, _, _, _, _, _, _, _, _) => Command(Some(a.device), Some(Trim(a.actuator)), FireValue(a))
    case EmailDraft(to, subject, body) => Email(to, Some(Trim(subject)), Some(Trim(body)))
    case WebhookDraft(url, payload) => Webhook(Some(Trim(url)), payload)
    case NotificationDraft(message) => Notification(Some(Trim(message)), ["platform"])
  }

  function ClearOf(a: ActionDraft): seq<RawAction> {
    if a.Actuator? && a.revertOnClear then [Command(Some(a.device), Some(Trim(a.actuator)), ClearValue(a))] else []
  }

  function ClearsOf(actions: seq<ActionDraft>): seq<RawAction> {
    if actions == [] then [] else ClearOf(actions[0]) + ClearsOf(actions[1..])
  }

  function NoteOf(notify: bool, message: string): seq<RawAction> {
    if notify && Trim(message) != [] then [Notification(Some(Trim(message)), ["platform"])] else []
  }

  function SavedClears(f: Folding): seq<RawAction> {
    ClearsOf(f.actions) + NoteOf(f.notify, f.message) + f.kept
  }

  function FiresOf(actions: seq<ActionDraft>): (r: seq<RawAction>)
    ensures |r| == |actions|
  {
    seq(|actions|, i requires 0 <= i < |actions| => ToApi(actions[i]))
  }

  function Save(d: Draft): Rule {
    Rule(d.name, FiresOf(d.folded.actions) + d.unparsed, SavedClears(d.folded))
  }

  /** The clear-action loop of `draftToRequest`. */
  method ClearActionsToSave(d: Draft) returns (clearActions: seq<RawAction>)
    ensures clearActions == Save(d).clearActions
  {
    hide Trim, FiresOf, ClearsOf;
    clearActions := OwnClears(d.folded.actions);
    if d.folded.notify && Trim(d.folded.message) != [] {
      clearActions := clearActions + [Notification(Some(Trim(d.folded.message)), ["platform"])];
    }
    clearActions := clearActions + d.folded.kept;
  }

  method OwnClears(actions: seq<ActionDraft>) returns (clearActions: seq<RawAction>)
    ensures clearActions == ClearsOf(actions)
  {
    clearActions := [];
    for i := 0 to |actions|
      invariant clearActions + ClearsOf(actions[i..]) == ClearsOf(actions)
    {
      hide ClearOf;
      assert actions[i..][0] == actions[i] && actions[i..][1..] == actions[i + 1..];
      var own := OwnClear(actions[i]);
      assert (clearActions + own) + ClearsOf(actions[i + 1..]) == clearActions + (own + ClearsOf(actions[i + 1..]));
      clearActions := clearActions + own;
    }
  }

  method OwnClear(a: ActionDraft) returns (own: seq<RawAction>)
    ensures own == ClearOf(a)
  {
    hide Trim, ClearValue;
    own := [];
    if a.Actuator? && a.revertOnClear {
      own := [Command(Some(a.device), Some(Trim(a.actuator)), ClearValue(a))];
    }
  }

  // ---- Nothing is lost ---------------------------------------------------------------------

  /** What a clear action is saved as, given where it is folded. */
  function Rewritten(f: Folding, c: RawAction): seq<RawAction> {
    var k := FirstOwner(f.actions, c);
    if k < |f.actions| then ClearOf(TurnBack(f.actions[k], c.value))
    else if TakesNotify(f, c) then NoteOf(true, Str(c.message))
    else [c]
  }

  /** A clear action that comes back as it was: its owner's value type, no padding,
      every field there. */
  predicate KeptAsIs(f: Folding, c: RawAction) {
    var k := FirstOwner(f.actions, c);
    if k < |f.actions| then
      c.device.Some? && Trim(c.actuator.value) == c.actuator.value && c.value != Other && KindOf(c.value) == f.actions[k].kind
    else if TakesNotify(f, c) then
      c.channels == ["platform"] && c.message.Some? && Trim(c.message.value) == c.message.value != []
    else true
  }

  /** Exactly those do: a number sent to clear a switch, say, is saved as the
      opposite of what the switch fires with. */
  lemma RewrittenSame(f: Folding, c: RawAction)
    ensures Rewritten(f, c) == [c] <==> KeptAsIs(f, c)
  {
    hide Trim;
    var k := FirstOwner(f.actions, c);
    if k < |f.actions| {
      assert Rewritten(f, c)[0] == ClearOf(TurnBack(f.actions[k], c.value))[0];
    } else if TakesNotify(f, c) && Rewritten(f, c) != [] {
      assert Rewritten(f, c)[0] == NoteOf(true, Str(c.message))[0];
    }
  }

  function AllRewritten(f: Folding, clears: seq<RawAction>): seq<RawAction>
    decreases clears
  {
    if clears == [] then [] else Rewritten(f, clears[0]) + AllRewritten(FoldOne(f, clears[0]), clears[1..])
  }

  lemma {:induction false} OneMoreClear(actions: seq<ActionDraft>, k: nat, a: ActionDraft)
    requires k < |actions| && ClearOf(actions[k]) == []
    ensures multiset(ClearsOf(actions[k := a])) == multiset(ClearsOf(actions)) + multiset(ClearOf(a))
  {
    if k == 0 {
      assert actions[0 := a][1..] == actions[1..];
    } else {
      assert actions[k := a][1..] == actions[1..][k - 1 := a];
      OneMoreClear(actions[1..], k - 1, a);
    }
  }

  lemma SavedParts(f: Folding)
    ensures multiset(SavedClears(f)) == multiset(ClearsOf(f.actions)) + multiset(NoteOf(f.notify, f.message)) + multiset(f.kept)
  {
    hide ClearsOf, NoteOf;
  }

  lemma OwnerKeeps(f: Folding, c: RawAction)
    requires FirstOwner(f.actions, c) < |f.actions|
    ensures multiset(ClearsOf(FoldOne(f, c).actions)) == multiset(ClearsOf(f.actions)) + multiset(Rewritten(f, c))
  {
    hide Trim, ClearsOf, ClearValue, TurnBack;
    var k := FirstOwner(f.actions, c);
    OneMoreClear(f.actions, k, TurnBack(f.actions[k], c.value));
  }

  lemma NotOwnedKeeps(f: Folding, c: RawAction)
    requires FirstOwner(f.actions, c) == |f.actions| && (!f.notify ==> f.message == "")
    ensures var g := FoldOne(f, c);
      g.actions == f.actions
      && multiset(NoteOf(g.notify, g.message)) + multiset(g.kept) == multiset(NoteOf(f.notify, f.message)) + multiset(f.kept) + multiset(Rewritten(f, c))
  {
    hide Trim, FirstOwner;
  }

  lemma FoldOneKeeps(f: Folding, c: RawAction)
    requires !f.notify ==> f.message == ""
    ensures multiset(SavedClears(FoldOne(f, c))) == multiset(SavedClears(f)) + multiset(Rewritten(f, c))
    ensures !FoldOne(f, c).notify ==> FoldOne(f, c).message == ""
  {
    hide SavedClears, ClearsOf, NoteOf, Rewritten, TurnBack, Trim;
    var g := FoldOne(f, c);
    SavedParts(f);
    SavedParts(g);
    if FirstOwner(f.actions, c) < |f.actions| {
      OwnerKeeps(f, c);
      assert g.notify == f.notify && g.message == f.message && g.kept == f.kept;
    } else {
      NotOwnedKeeps(f, c);
      Regrouped(multiset(ClearsOf(f.actions)), multiset(NoteOf(g.notify, g.message)), multiset(g.kept), multiset(NoteOf(f.notify, f.message)), multiset(f.kept), multiset(Rewritten(f, c)));
    }
  }

  lemma Regrouped<T>(a: multiset<T>, b: multiset<T>, c: multiset<T>, d: multiset<T>, e: multiset<T>, r: multiset<T>)
    requires b + c == d + e + r
    ensures a + b + c == a + d + e + r
  {
    assert a + b + c == a + (b + c) && a + d + e + r == a + (d + e + r);
  }

  /** In every case the saved clear actions are the loaded ones, each as rewritten
      where it was folded: none is lost, repeated or invented. */
  lemma {:induction false} SavedAreRewritten(f: Folding, clears: seq<RawAction>)
    requires !f.notify ==> f.message == ""
    ensures multiset(SavedClears(FoldAll(f, clears))) == multiset(SavedClears(f)) + multiset(AllRewritten(f, clears))
    decreases clears
  {
    hide SavedClears, FoldOne, Rewritten;
    if clears != [] {
      FoldOneKeeps(f, clears[0]);
      SavedAreRewritten(FoldOne(f, clears[0]), clears[1..]);
    }
  }

  /** A clear action that keeps its every field wherever these actions may fold it. */
  predicate Faithful(actions: seq<ActionDraft>, c: RawAction) {
    match c
    case Command(device, actuator, value) =>
      forall a | a in actions ::
        a.Actuator? && actuator == Some(a.actuator) && Str(device) == a.device ==>
          device.Some? && Trim(a.actuator) == a.actuator && value != Other && KindOf(value) == a.kind
    case Notification(message, channels) =>
      "email" !in channels ==> channels == ["platform"] && message.Some? && Trim(message.value) == message.value != []
    case _ => true
  }

  /** Folding never changes what an action is, only how it turns back. */
  ghost predicate SameActions(a: seq<ActionDraft>, b: seq<ActionDraft>) {
    && |a| == |b|
    && forall i | 0 <= i < |a| ::
         a[i] == b[i] || (a[i].Actuator? && b[i].Actuator? && a[i].device == b[i].device && a[i].actuator == b[i].actuator
                          && a[i].kind == b[i].kind)
  }

  lemma {:induction false} FaithfulRewritten(base: seq<ActionDraft>, f: Folding, clears: seq<RawAction>)
    requires SameActions(base, f.actions) && forall c | c in clears :: Faithful(base, c)
    ensures multiset(AllRewritten(f, clears)) == multiset(clears)
    decreases clears
  {
    hide Faithful, SameActions, Rewritten, FoldOne;
    if clears != [] {
      var c := clears[0];
      assert Faithful(base, c);
      FaithfulOne(base, f, c);
      assert forall d :: d in clears[1..] ==> d in clears;
      FaithfulRewritten(base, FoldOne(f, c), clears[1..]);
      assert clears == [c] + clears[1..];
    }
  }

  lemma FaithfulKept(base: seq<ActionDraft>, f: Folding, c: RawAction)
    requires SameActions(base, f.actions) && Faithful(base, c)
    ensures KeptAsIs(f, c)
  {
    hide Trim, KindOf;
    var k := FirstOwner(f.actions, c);
    if k < |f.actions| {
      assert base[k] in base;
    }
  }

  lemma FaithfulOne(base: seq<ActionDraft>, f: Folding, c: RawAction)
    requires SameActions(base, f.actions) && Faithful(base, c)
    ensures Rewritten(f, c) == [c] && SameActions(base, FoldOne(f, c).actions)
  {
    FaithfulKept(base, f, c);
    RewrittenSame(f, c);
    hide Faithful, Rewritten, KeptAsIs;
  }

  /** Loading and saving keeps the clear actions as a multiset, when each is one
      the editor can hold as it is. */
  lemma ClearActionsKept(r: Rule)
    requires forall c | c in r.clearActions :: Faithful(DraftsOf(r.name, r.actions), c)
    ensures multiset(Save(Load(r)).clearActions) == multiset(r.clearActions)
  {
    var base := DraftsOf(r.name, r.actions);
    var start := Folding(base, false, "", []);
    FreshDraftsOwe(r.name, r.actions);
    SavedAreRewritten(start, r.clearActions);
    FaithfulRewritten(base, start, r.clearActions);
  }

  lemma {:induction false} FreshDraftsOwe(name: string, raws: seq<RawAction>)
    ensures ClearsOf(DraftsOf(name, raws)) == []
    ensures forall a | a in DraftsOf(name, raws) :: a.Actuator? ==> Fresh(a)
  {
    if raws != [] {
      FreshDraftsOwe(name, raws[1..]);
      var first := DraftsOfOne(name, raws[0]);
      ClearsAppend(first, DraftsOf(name, raws[1..]));
      if |first| == 1 { assert first[1..] == []; }
      if |first| == 2 { assert first[1..][1..] == []; }
    }
  }

  predicate Fresh(a: ActionDraft) {
    a.Actuator? ==> !a.revertOnClear && a.clearBool == None && a.clearNum == 0.0 && a.clearText == ""
  }

  lemma {:induction false} ClearsAppend(a: seq<ActionDraft>, b: seq<ActionDraft>)
    ensures ClearsOf(a + b) == ClearsOf(a) + ClearsOf(b)
  {
    if a == [] {
      assert a + b == b;
    } else {
      assert (a + b)[1..] == a[1..] + b;
      ClearsAppend(a[1..], b);
    }
  }
}
