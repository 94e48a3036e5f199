/** What an author may write (model/statemachine.go, model/guard.go,
    model/composite_state.go): which JSON reads as which value. A member left out reads
    like an empty one, enumerations are read in any case, and anything else is refused. */
module AuthoredJson {
  import opened Model
  import opened Json

  // ---- Leaves -------------------------------------------------------------

  predicate IsText(j: Json, s: string) { j == JString(s) || (j == JNull && s == "") }

  predicate IsFlag(j: Json, b: bool) { j == JBool(b) || (j == JNull && !b) }

  lemma TextRead(j: Json, s: string)
    ensures DecodeText(j) == Some(s) <==> IsText(j, s)
  {}

  lemma FlagRead(j: Json, b: bool)
    ensures DecodeFlag(j) == Some(b) <==> IsFlag(j, b)
  {}

  /** `raw` is the word `name`, which is in capitals, in any case. */
  predicate Spelled(raw: string, name: string) {
    && |raw| == |name|
    && forall i :: 0 <= i < |raw| ==> raw[i] == name[i] || ('A' <= name[i] <= 'Z' && raw[i] as int == name[i] as int + 32)
  }

  ghost predicate IsWord(j: Json, name: string) {
    exists raw :: IsText(j, raw) && Spelled(raw, name)
  }

  function TriggerName(t: Trigger): string {
    match t case AutomaticTrigger => "AUTOMATIC" case UserTrigger => "USER" case SystemTrigger => "SYSTEM" case TriggerUnset => ""
  }

  function KindName(k: Kind): string {
    match k
    case ExternalKind => "EXTERNAL" case InternalKind => "INTERNAL" case ForkKind => "FORK" case JoinKind => "JOIN"
    case KindUnset => ""
  }

  function ActionName(a: ActionType): string {
    match a
    case HttpRequestAction => "HTTPREQUESTACTION" case SetContextMapAction => "SETCONTEXTMAPACTION"
    case CreateChildWorkflowAction => "CREATECHILDWORKFLOWACTION" case ActionTypeUnset => ""
  }

  function OpName(op: GuardOp): string {
    match op
    case GuardEq => "EQ" case GuardNeq => "NEQ" case GuardGt => "GT" case GuardGte => "GTE" case GuardLt => "LT"
    case GuardLte => "LTE" case GuardExists => "EXISTS" case GuardNotExists => "NOT_EXISTS" case OpUnset => ""
  }

  lemma UpperSpells(raw: string, name: string)
    requires forall i :: 0 <= i < |name| ==> !('a' <= name[i] <= 'z')
    ensures Upper(raw) == name <==> Spelled(raw, name)
  {
    if Spelled(raw, name) {
      assert forall i :: 0 <= i < |raw| ==> Upper(raw)[i] == name[i];
    } else if Upper(raw) == name {
      forall i | 0 <= i < |raw| ensures raw[i] == name[i] || ('A' <= name[i] <= 'Z' && raw[i] as int == name[i] as int + 32) {
        assert Upper(raw)[i] == name[i] && Upper(raw)[i] == UpperChar(raw[i]);
      }
    }
  }

  lemma WordIsUpper(j: Json, name: string)
    requires forall i :: 0 <= i < |name| ==> !('a' <= name[i] <= 'z')
    ensures IsWord(j, name) <==> DecodeText(j).Some? && Upper(DecodeText(j).value) == name
  {
    hide Upper, Spelled;
    if DecodeText(j).Some? {
      UpperSpells(DecodeText(j).value, name);
      assert IsText(j, DecodeText(j).value);
    }
    assert forall raw :: IsText(j, raw) ==> DecodeText(j) == Some(raw);
  }

  lemma TriggerRead(j: Json, t: Trigger)
    ensures DecodeTrigger(j) == Some(t) <==> IsWord(j, TriggerName(t))
  {
    hide Upper, IsWord;
    WordIsUpper(j, TriggerName(t));
  }

  lemma KindRead(j: Json, k: Kind)
    ensures DecodeKind(j) == Some(k) <==> IsWord(j, KindName(k))
  {
    hide Upper, IsWord;
    WordIsUpper(j, KindName(k));
  }

  lemma ActionTypeRead(j: Json, a: ActionType)
    ensures DecodeActionType(j) == Some(a) <==> IsWord(j, ActionName(a))
  {
    hide Upper, IsWord;
    WordIsUpper(j, ActionName(a));
  }

  lemma GuardOpRead(j: Json, op: GuardOp)
    ensures DecodeGuardOp(j) == Some(op) <==> IsWord(j, OpName(op))
  {
    hide Upper, IsWord;
    WordIsUpper(j, OpName(op));
  }

  // ---- Lists --------------------------------------------------------------

  /** A list left out is empty; otherwise each item reads as the value in its place. */
  predicate IsList<T(==)>(j: Json, xs: seq<T>, read: Json -> Option<T>) {
    || (j == JNull && xs == [])
    || (j.JArray? && |j.items| == |xs| && forall i :: 0 <= i < |xs| ==> read(j.items[i]) == Some(xs[i]))
  }

  /** Reading items one after the other. */
  ghost predicate Items<T>(items: seq<Json>, xs: Option<seq<T>>, read: Json -> Option<T>) {
    if xs.Some? then |items| == |xs.value| && forall i :: 0 <= i < |items| ==> read(items[i]) == Some(xs.value[i])
    else exists i :: 0 <= i < |items| && read(items[i]).None?
  }

  lemma ItemsStep<T>(items: seq<Json>, rest: Option<seq<T>>, read: Json -> Option<T>)
    requires items != [] && Items(items[1..], rest, read)
    ensures Items(items, if read(items[0]).None? || rest.None? then None else Some([read(items[0]).value] + rest.value), read)
  {
    if read(items[0]).Some? && rest.None? {
      var i :| 0 <= i < |items[1..]| && read(items[1..][i]).None?;
      assert read(items[i + 1]).None?;
    }
  }

  lemma ItemsAre<T>(items: seq<Json>, r: Option<seq<T>>, read: Json -> Option<T>, xs: seq<T>)
    requires Items(items, r, read)
    ensures r == Some(xs) <==> |items| == |xs| && forall i :: 0 <= i < |xs| ==> read(items[i]) == Some(xs[i])
  {
    if r.Some? && |items| == |xs| && forall i :: 0 <= i < |xs| ==> read(items[i]) == Some(xs[i]) { assert r.value == xs; }
  }

  lemma {:induction false} ActionItems(items: seq<Json>)
    ensures Items(items, DecodeActionItems(items), DecodeAction)
  {
    hide DecodeAction;
    if items != [] {
      ActionItems(items[1..]);
      ItemsStep(items, DecodeActionItems(items[1..]), DecodeAction);
    }
  }

  lemma {:induction false} ForkItems(items: seq<Json>)
    ensures Items(items, DecodeForkItems(items), DecodeForkTarget)
  {
    hide DecodeForkTarget;
    if items != [] {
      ForkItems(items[1..]);
      ItemsStep(items, DecodeForkItems(items[1..]), DecodeForkTarget);
    }
  }

  lemma {:induction false} TransitionItems(items: seq<Json>)
    ensures Items(items, DecodeTransitionItems(items), DecodeTransition)
  {
    hide DecodeTransition;
    if items != [] {
      TransitionItems(items[1..]);
      ItemsStep(items, DecodeTransitionItems(items[1..]), DecodeTransition);
    }
  }

  lemma {:induction false} CommonItems(items: seq<Json>)
    ensures Items(items, DecodeCommonItems(items), DecodeCommon)
  {
    hide DecodeCommon;
    if items != [] {
      CommonItems(items[1..]);
      ItemsStep(items, DecodeCommonItems(items[1..]), DecodeCommon);
    }
  }

  lemma {:induction false} StateItems(items: seq<Json>)
    ensures Items(items, DecodeStateItems(items), DecodeState)
  {
    hide DecodeState;
    if items != [] {
      StateItems(items[1..]);
      ItemsStep(items, DecodeStateItems(items[1..]), DecodeState);
    }
  }

  lemma ActionsRead(j: Json, actions: seq<Action>)
    ensures DecodeActions(j) == Some(actions) <==> IsList(j, actions, DecodeAction)
  {
    hide DecodeAction, DecodeActionItems;
    if j.JArray? {
      ActionItems(j.items);
      ItemsAre(j.items, DecodeActionItems(j.items), DecodeAction, actions);
    }
  }

  lemma ForksRead(j: Json, fs: seq<ForkTarget>)
    ensures DecodeForkTargets(j) == Some(fs) <==> IsList(j, fs, DecodeForkTarget)
  {
    hide DecodeForkTarget, DecodeForkItems;
    if j.JArray? {
      ForkItems(j.items);
      ItemsAre(j.items, DecodeForkItems(j.items), DecodeForkTarget, fs);
    }
  }

  lemma TransitionsRead(j: Json, ts: seq<Transition>)
    ensures DecodeTransitions(j) == Some(ts) <==> IsList(j, ts, DecodeTransition)
  {
    hide DecodeTransition, DecodeTransitionItems;
    if j.JArray? {
      TransitionItems(j.items);
      ItemsAre(j.items, DecodeTransitionItems(j.items), DecodeTransition, ts);
    }
  }

  lemma CommonsRead(j: Json, cs: seq<CommonTransition>)
    ensures DecodeCommons(j) == Some(cs) <==> IsList(j, cs, DecodeCommon)
  {
    hide DecodeCommon, DecodeCommonItems;
    if j.JArray? {
      CommonItems(j.items);
      ItemsAre(j.items, DecodeCommonItems(j.items), DecodeCommon, cs);
    }
  }

  lemma StatesRead(j: Json, ss: seq<State>)
    ensures DecodeStates(j) == Some(ss) <==> IsList(j, ss, DecodeState)
  {
    hide DecodeState, DecodeStateItems;
    if j.JArray? {
      StateItems(j.items);
      ItemsAre(j.items, DecodeStateItems(j.items), DecodeState, ss);
    }
  }

  // ---- Objects ------------------------------------------------------------

  ghost predicate IsGuard(j: Json, g: Option<Guard>) {
    match g
    case None => j == JNull
    case Some(Guard(key, op, value)) =>
      && j.JObject? && IsText(Member(j.members, "key"), key) && IsWord(Member(j.members, "op"), OpName(op))
      && IsText(Member(j.members, "value"), value)
  }

  lemma GuardRead(j: Json, g: Option<Guard>)
    ensures DecodeGuardRef(j) == Some(g) <==> IsGuard(j, g)
  {
    hide DecodeGuardOp, IsWord;
    if j.JObject? && g.Some? { GuardOpRead(Member(j.members, "op"), g.value.op); }
  }

  /** Main result: an object reads as a transition exactly when each of its members reads
      as that field. Every member may be left out: the event, the guard, the actions. */
  lemma TransitionRead(m: Members, t: Transition)
    ensures DecodeTransition(JObject(m)) == Some(t) <==>
      && IsWord(Member(m, "type"), TriggerName(t.trigger)) && IsWord(Member(m, "kind"), KindName(t.kind))
      && IsText(Member(m, "source"), t.source) && IsText(Member(m, "target"), t.target) && IsText(Member(m, "event"), t.event)
      && IsGuard(Member(m, "guard"), t.guard) && IsList(Member(m, "entryActions"), t.entryActions, DecodeAction)
      && IsFlag(Member(m, "join"), t.join) && IsList(Member(m, "forkTargets"), t.forkTargets, DecodeForkTarget)
      && IsText(Member(m, "after"), t.after) && IsFlag(Member(m, "entersHistory"), t.entersHistory)
  {
    hide DecodeTrigger, DecodeKind, DecodeGuardRef, DecodeActions, DecodeForkTargets, IsWord, IsGuard, IsList, DecodeAction, DecodeForkTarget,
      DecodeText, DecodeFlag, IsText, IsFlag;
    TextRead(Member(m, "source"), t.source);
    TextRead(Member(m, "target"), t.target);
    TextRead(Member(m, "event"), t.event);
    TextRead(Member(m, "after"), t.after);
    FlagRead(Member(m, "join"), t.join);
    FlagRead(Member(m, "entersHistory"), t.entersHistory);
    TriggerRead(Member(m, "type"), t.trigger);
    KindRead(Member(m, "kind"), t.kind);
    GuardRead(Member(m, "guard"), t.guard);
    ActionsRead(Member(m, "entryActions"), t.entryActions);
    ForksRead(Member(m, "forkTargets"), t.forkTargets);
    AbsentLists();
  }

  lemma AbsentLists()
    ensures DecodeActions(JNull) == Some([]) && DecodeForkTargets(JNull) == Some([]) && DecodeTransitions(JNull) == Some([])
    ensures DecodeStates(JNull) == Some([]) && DecodeCommons(JNull) == Some([]) && DecodeWorkflowRef(JNull) == Some(None)
  {}

  lemma CommonRead(m: Members, ct: CommonTransition)
    ensures DecodeCommon(JObject(m)) == Some(ct) <==>
      && IsWord(Member(m, "type"), TriggerName(ct.trigger)) && IsWord(Member(m, "kind"), KindName(ct.kind))
      && IsList(Member(m, "sourceList"), ct.sourceList, DecodeText)
      && IsText(Member(m, "target"), ct.target) && IsText(Member(m, "event"), ct.event)
      && IsGuard(Member(m, "guard"), ct.guard) && IsList(Member(m, "entryActions"), ct.entryActions, DecodeAction)
  {
    hide DecodeTrigger, DecodeKind, DecodeGuardRef, DecodeActions, DecodeTexts, IsWord, IsGuard, IsList, DecodeAction;
    TriggerRead(Member(m, "type"), ct.trigger);
    KindRead(Member(m, "kind"), ct.kind);
    GuardRead(Member(m, "guard"), ct.guard);
    TextsRead(Member(m, "sourceList"), ct.sourceList);
    ActionsRead(Member(m, "entryActions"), ct.entryActions);
    AbsentLists();
  }

  lemma TextsRead(j: Json, ss: seq<string>)
    ensures DecodeTexts(j) == Some(ss) <==> IsList(j, ss, DecodeText)
  {
    if DecodeTexts(j).Some? && DecodeItems(j).Some? {
      assert forall i :: 0 <= i < |DecodeItems(j).value| ==> DecodeText(DecodeItems(j).value[i]).Some?;
    }
    if IsList(j, ss, DecodeText) { assert DecodeTexts(j).value == ss; }
  }

  ghost predicate IsDict(j: Json, d: map<string, string>) {
    || (j == JNull && d == map[])
    || (j.JObject? && j.members.Keys == d.Keys && forall k :: k in d ==> IsText(j.members[k], d[k]))
  }

  lemma DictRead(j: Json, d: map<string, string>)
    ensures DecodeDict(j) == Some(d) <==> IsDict(j, d)
  {
    if j.JObject? && IsDict(j, d) { assert DecodeDict(j).value == d; }
  }

  ghost predicate IsRef(j: Json, w: Option<Workflow>) {
    if w.None? then j == JNull else j != JNull && DecodeWorkflow(j) == w
  }

  lemma RefRead(j: Json, w: Option<Workflow>)
    ensures DecodeWorkflowRef(j) == Some(w) <==> IsRef(j, w)
  {
    hide DecodeWorkflow;
  }

  lemma ActionRead(m: Members, a: Action)
    ensures DecodeAction(JObject(m)) == Some(a) <==>
      && IsWord(Member(m, "type"), ActionName(a.actionType)) && IsText(Member(m, "method"), a.httpMethod)
      && IsText(Member(m, "url"), a.url) && IsFlag(Member(m, "expectResponse"), a.expectResponse)
      && IsFlag(Member(m, "forwardToken"), a.forwardToken) && IsText(Member(m, "status"), a.status)
      && IsDict(Member(m, "variables"), a.variables) && IsRef(Member(m, "childWorkflow"), a.childWorkflow)
  {
    hide DecodeActionType, DecodeDict, DecodeWorkflowRef, IsWord, IsDict, IsRef;
    ActionTypeRead(Member(m, "type"), a.actionType);
    DictRead(Member(m, "variables"), a.variables);
    RefRead(Member(m, "childWorkflow"), a.childWorkflow);
    AbsentLists();
  }

  lemma ForkTargetRead(m: Members, f: ForkTarget)
    ensures DecodeForkTarget(JObject(m)) == Some(f) <==> IsText(Member(m, "ref"), f.ref) && IsRef(Member(m, "childWorkflow"), f.childWorkflow)
  {
    hide DecodeWorkflowRef, IsRef;
    RefRead(Member(m, "childWorkflow"), f.childWorkflow);
    AbsentLists();
  }

  predicate IsInfo(m: Members, i: Info) {
    && IsText(Member(m, "type"), i.typeTag) && IsText(Member(m, "id"), i.id) && IsFlag(Member(m, "frontendBullet"), i.frontendBullet)
    && IsText(Member(m, "bulletName"), i.bulletName) && IsText(Member(m, "resumeEvent"), i.resumeEvent)
    && IsText(Member(m, "productStatus"), i.productStatus) && IsText(Member(m, "status"), i.status)
    && Member(m, "isHappyFlow") == match i.isHappyFlow case None => JNull case Some(b) => JBool(b)
  }

  lemma InfoRead(m: Members, i: Info)
    ensures DecodeInfo(m) == Some(i) <==> IsInfo(m, i)
  {}

  /** The members of each variant. */
  predicate IsVariant(m: Members, s: State) {
    match s
    case SimpleState(i) => i.typeTag == "SimpleState" || i.typeTag == ""
    case ActionState(i, expectResponse, entry, exit, doing) =>
      && i.typeTag == "ActionState" && IsFlag(Member(m, "expectResponse"), expectResponse)
      && IsList(Member(m, "entryActions"), entry, DecodeAction) && IsList(Member(m, "exitActions"), exit, DecodeAction)
      && IsList(Member(m, "doActions"), doing, DecodeAction)
    case CompositeState(i, entry, exit, initial, subs, ts, history) =>
      && i.typeTag == "CompositeState" && IsText(Member(m, "initialSubstate"), initial) && IsText(Member(m, "history"), history)
      && IsList(Member(m, "entryActions"), entry, DecodeAction) && IsList(Member(m, "exitActions"), exit, DecodeAction)
      && IsList(Member(m, "substates"), subs, DecodeState) && IsList(Member(m, "subTransitions"), ts, DecodeTransition)
  }

  /** Main result: an object reads as a state exactly when its "type" names the variant,
      or is left out of a simple one, and each member reads as its field. */
  lemma StateRead(m: Members, s: State)
    ensures DecodeState(JObject(m)) == Some(s) <==> IsInfo(m, s.info) && IsVariant(m, s)
  {
    hide DecodeInfo, DecodeActions, DecodeStates, DecodeTransitions, IsList, IsInfo, DecodeAction, DecodeTransition,
      DecodeText, DecodeFlag, IsText, IsFlag;
    InfoRead(m, s.info);
    AbsentLists();
    if !s.SimpleState? {
      ActionsRead(Member(m, "entryActions"), s.entryActions);
      ActionsRead(Member(m, "exitActions"), s.exitActions);
    }
    if s.ActionState? {
      FlagRead(Member(m, "expectResponse"), s.expectResponse);
      ActionsRead(Member(m, "doActions"), s.doActions);
    } else if s.CompositeState? {
      TextRead(Member(m, "initialSubstate"), s.initialSubstate);
      TextRead(Member(m, "history"), s.history);
      StatesRead(Member(m, "substates"), s.substates);
      TransitionsRead(Member(m, "subTransitions"), s.subTransitions);
    }
  }

  lemma WorkflowRead(m: Members, w: Workflow)
    ensures DecodeWorkflow(JObject(m)) == Some(w) <==>
      && IsText(Member(m, "id"), w.id) && IsText(Member(m, "kind"), w.kind) && IsText(Member(m, "version"), w.version)
      && IsFlag(Member(m, "deprecated"), w.deprecated) && IsText(Member(m, "creationDate"), w.creationDate)
      && IsText(Member(m, "updateDate"), w.updateDate) && IsText(Member(m, "initialState"), w.initialState)
      && IsList(Member(m, "states"), w.states, DecodeState) && IsList(Member(m, "transitions"), w.transitions, DecodeTransition)
      && IsList(Member(m, "commonTransitions"), w.commonTransitions, DecodeCommon)
      && IsList(Member(m, "endStates"), w.endStates, DecodeText)
  {
    hide DecodeStates, DecodeTransitions, DecodeCommons, DecodeTexts, IsList, DecodeState, DecodeTransition, DecodeCommon,
      DecodeText, DecodeFlag, IsText, IsFlag;
    AbsentLists();
    TextRead(Member(m, "id"), w.id);
    TextRead(Member(m, "kind"), w.kind);
    TextRead(Member(m, "version"), w.version);
    FlagRead(Member(m, "deprecated"), w.deprecated);
    TextRead(Member(m, "creationDate"), w.creationDate);
    TextRead(Member(m, "updateDate"), w.updateDate);
    TextRead(Member(m, "initialState"), w.initialState);
    StatesRead(Member(m, "states"), w.states);
    TransitionsRead(Member(m, "transitions"), w.transitions);
    CommonsRead(Member(m, "commonTransitions"), w.commonTransitions);
    TextsRead(Member(m, "endStates"), w.endStates);
  }
}
