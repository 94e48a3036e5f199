/** What survives storage: definitions, and the position column of an instance
    (persistence/state_container.go). */
module Storage {
  import opened Model
  import opened Persistence
  import opened Json

  // ---- Leaves -------------------------------------------------------------

  lemma UpperFixes(s: string)
    requires forall i :: 0 <= i < |s| ==> !('a' <= s[i] <= 'z')
    ensures Upper(s) == s
  {}

  lemma TriggerRoundTrip(t: Trigger)
    ensures DecodeTrigger(JString(TriggerText(t))) == Some(t)
  {
    UpperFixes(TriggerText(t));
  }

  lemma KindRoundTrip(k: Kind)
    ensures DecodeKind(JString(KindText(k))) == Some(k)
  {
    UpperFixes(KindText(k));
  }

  lemma ActionTypeRoundTrip(a: ActionType)
    ensures DecodeActionType(JString(ActionTypeText(a))) == Some(a)
  {
    match a
    case HttpRequestAction => UpperFixes("HTTPREQUESTACTION");
    case SetContextMapAction => UpperFixes("SETCONTEXTMAPACTION");
    case CreateChildWorkflowAction => UpperFixes("CREATECHILDWORKFLOWACTION");
    case ActionTypeUnset => UpperFixes("");
  }

  lemma GuardOpRoundTrip(op: GuardOp)
    ensures DecodeGuardOp(JString(GuardOpText(op))) == Some(op)
  {
    UpperFixes(GuardOpText(op));
  }

  lemma GuardRoundTrip(g: Option<Guard>)
    ensures DecodeGuardRef(EncodeGuardRef(g)) == Some(g)
  {
    hide DecodeGuardOp, GuardOpText;
    if g.Some? { GuardOpRoundTrip(g.value.op); }
  }

  lemma TextsRoundTrip(ss: seq<string>)
    ensures DecodeTexts(EncodeTexts(ss)) == Some(ss)
  {
    var items := EncodeTexts(ss).items;
    assert forall i :: 0 <= i < |items| ==> DecodeText(items[i]) == Some(ss[i]);
    assert DecodeTexts(EncodeTexts(ss)).value == ss;
  }

  lemma DictRoundTrip(d: map<string, string>)
    ensures DecodeDict(EncodeDict(d)) == Some(d)
  {
    var m := EncodeDict(d).members;
    assert forall k :: k in m ==> DecodeText(m[k]) == Some(d[k]);
    assert DecodeDict(EncodeDict(d)).value == d;
  }

  // ---- Tagged definitions -------------------------------------------------

  /** Every state in the tree carries the type of its variant; only a simple state
      may leave it out. */
  predicate TaggedState(s: State) {
    match s
    case SimpleState(info) => info.typeTag == "SimpleState" || info.typeTag == ""
    case ActionState(info, _, entry, exit, doActions) =>
      info.typeTag == "ActionState" && TaggedActions(entry) && TaggedActions(exit) && TaggedActions(doActions)
    case CompositeState(info, entry, exit, _, substates, subTransitions, _) =>
      && info.typeTag == "CompositeState" && TaggedActions(entry) && TaggedActions(exit)
      && TaggedStates(substates) && TaggedTransitions(subTransitions)
  }

  predicate TaggedStates(ss: seq<State>) {
    ss == [] || (TaggedState(ss[0]) && TaggedStates(ss[1..]))
  }

  predicate TaggedAction(a: Action) { TaggedRef(a.childWorkflow) }

  predicate TaggedActions(actions: seq<Action>) {
    actions == [] || (TaggedAction(actions[0]) && TaggedActions(actions[1..]))
  }

  predicate TaggedForkTargets(fs: seq<ForkTarget>) {
    fs == [] || (TaggedRef(fs[0].childWorkflow) && TaggedForkTargets(fs[1..]))
  }

  predicate TaggedTransition(t: Transition) {
    TaggedActions(t.entryActions) && TaggedForkTargets(t.forkTargets)
  }

  predicate TaggedTransitions(ts: seq<Transition>) {
    ts == [] || (TaggedTransition(ts[0]) && TaggedTransitions(ts[1..]))
  }

  predicate TaggedCommons(cs: seq<CommonTransition>) {
    cs == [] || (TaggedActions(cs[0].entryActions) && TaggedCommons(cs[1..]))
  }

  predicate TaggedRef(w: Option<Workflow>) {
    match w case None => true case Some(wf) => TaggedWorkflow(wf)
  }

  predicate TaggedWorkflow(w: Workflow) {
    TaggedStates(w.states) && TaggedTransitions(w.transitions) && TaggedCommons(w.commonTransitions)
  }

  lemma ConsEquals<T>(x: T, xs: seq<T>, list: seq<T>)
    requires list != []
    ensures [x] + xs == list <==> x == list[0] && xs == list[1..]
  {
    if [x] + xs == list { assert list[1..] == xs; }
    if x == list[0] && xs == list[1..] { assert list == [list[0]] + list[1..]; }
  }

  // ---- Round trips, by induction over the tree ----------------------------

  lemma {:induction false} RefRoundTrip(w: Option<Workflow>)
    ensures DecodeWorkflowRef(EncodeWorkflowRef(w)) == Some(w) <==> TaggedRef(w)
    decreases w
  {
    if w.Some? { WorkflowRoundTrip(w.value); }
  }

  ghost predicate CarriesAction(m: Members, a: Action) {
    && DecodeActionType(Member(m, "type")) == Some(a.actionType) && Member(m, "method") == JString(a.httpMethod)
    && Member(m, "url") == JString(a.url) && Member(m, "expectResponse") == JBool(a.expectResponse)
    && Member(m, "forwardToken") == JBool(a.forwardToken) && Member(m, "status") == JString(a.status)
    && Member(m, "variables") == EncodeDict(a.variables)
    && Member(m, "childWorkflow") == EncodeWorkflowRef(a.childWorkflow)
  }

  lemma ActionMembers(a: Action)
    ensures EncodeAction(a).JObject? && CarriesAction(EncodeAction(a).members, a)
  {
    hide DecodeActionType, ActionTypeText, EncodeDict, EncodeWorkflow;
    ActionTypeRoundTrip(a.actionType);
  }

  lemma {:induction false} ActionRoundTrip(a: Action)
    ensures DecodeAction(EncodeAction(a)) == Some(a) <==> TaggedAction(a)
    decreases a
  {
    hide DecodeActionType, DecodeDict, EncodeDict, DecodeWorkflowRef, EncodeWorkflowRef, TaggedRef, EncodeAction;
    ActionMembers(a);
    DictRoundTrip(a.variables);
    RefRoundTrip(a.childWorkflow);
    AbsentRef();
  }

  lemma AbsentRef()
    ensures EncodeWorkflowRef(None) == JNull && DecodeWorkflowRef(JNull) == Some(None) && TaggedRef(None)
  {}

  lemma {:induction false} ActionsRoundTrip(actions: seq<Action>)
    ensures DecodeActionItems(EncodeActions(actions)) == Some(actions) <==> TaggedActions(actions)
    decreases actions
  {
    hide DecodeAction, EncodeAction, TaggedAction;
    if actions != [] {
      ActionRoundTrip(actions[0]);
      ActionsRoundTrip(actions[1..]);
      assert EncodeActions(actions)[1..] == EncodeActions(actions[1..]);
      var first, rest := DecodeAction(EncodeAction(actions[0])), DecodeActionItems(EncodeActions(actions[1..]));
      if first.Some? && rest.Some? { ConsEquals(first.value, rest.value, actions); }
    }
  }

  lemma {:induction false} ForkTargetRoundTrip(f: ForkTarget)
    ensures DecodeForkTarget(EncodeForkTarget(f)) == Some(f) <==> TaggedRef(f.childWorkflow)
    decreases f
  {
    hide DecodeWorkflowRef, EncodeWorkflowRef, TaggedRef;
    RefRoundTrip(f.childWorkflow);
    AbsentRef();
  }

  lemma {:induction false} ForkTargetsRoundTrip(fs: seq<ForkTarget>)
    ensures DecodeForkItems(EncodeForkTargets(fs)) == Some(fs) <==> TaggedForkTargets(fs)
    decreases fs
  {
    hide DecodeForkTarget, EncodeForkTarget, TaggedRef;
    if fs != [] {
      ForkTargetRoundTrip(fs[0]);
      ForkTargetsRoundTrip(fs[1..]);
      assert EncodeForkTargets(fs)[1..] == EncodeForkTargets(fs[1..]);
      var first, rest := DecodeForkTarget(EncodeForkTarget(fs[0])), DecodeForkItems(EncodeForkTargets(fs[1..]));
      if first.Some? && rest.Some? { ConsEquals(first.value, rest.value, fs); }
    }
  }

  /** What the members of an encoded transition read back as. */
  ghost predicate CarriesTransition(m: Members, t: Transition) {
    && DecodeTrigger(Member(m, "type")) == Some(t.trigger) && DecodeKind(Member(m, "kind")) == Some(t.kind)
    && Member(m, "source") == JString(t.source) && Member(m, "target") == JString(t.target) && Member(m, "event") == JString(t.event)
    && DecodeGuardRef(Member(m, "guard")) == Some(t.guard)
    && Member(m, "entryActions") == JArray(EncodeActions(t.entryActions)) && Member(m, "join") == JBool(t.join)
    && Member(m, "forkTargets") == (if t.forkTargets == [] then JNull else JArray(EncodeForkTargets(t.forkTargets)))
    && DecodeText(Member(m, "after")) == Some(t.after) && DecodeFlag(Member(m, "entersHistory")) == Some(t.entersHistory)
  }

  ghost predicate CarriesLabels(m: Members, t: Transition) {
    && DecodeTrigger(Member(m, "type")) == Some(t.trigger) && DecodeKind(Member(m, "kind")) == Some(t.kind)
    && Member(m, "source") == JString(t.source) && Member(m, "target") == JString(t.target) && Member(m, "event") == JString(t.event)
    && Member(m, "join") == JBool(t.join)
    && DecodeText(Member(m, "after")) == Some(t.after) && DecodeFlag(Member(m, "entersHistory")) == Some(t.entersHistory)
  }

  lemma LabelMembers(t: Transition)
    ensures CarriesLabels(EncodeLabels(t), t)
    ensures "guard" !in EncodeLabels(t) && "forkTargets" !in EncodeLabels(t)
  {
    hide DecodeTrigger, TriggerText, DecodeKind, KindText;
    TriggerRoundTrip(t.trigger);
    KindRoundTrip(t.kind);
    AbsentLeaves();
  }

  lemma TransitionMembers(t: Transition)
    ensures CarriesTransition(EncodeTransition(t).members, t)
  {
    hide DecodeTrigger, DecodeKind, DecodeText, DecodeFlag, DecodeGuardRef, EncodeGuardRef, EncodeActions, EncodeForkTargets, EncodeLabels;
    LabelMembers(t);
    GuardRoundTrip(t.guard);
    AbsentLeaves();
  }

  lemma {:induction false} TransitionRoundTrip(t: Transition)
    ensures DecodeTransition(EncodeTransition(t)) == Some(t) <==> TaggedTransition(t)
    decreases t
  {
    hide DecodeTrigger, DecodeKind, DecodeGuardRef, DecodeActionItems, EncodeActions, EncodeTransition,
      DecodeForkItems, EncodeForkTargets, TaggedActions, TaggedForkTargets;
    TransitionMembers(t);
    ActionsRoundTrip(t.entryActions);
    ForkTargetsRoundTrip(t.forkTargets);
    EncodesToObject(t);
    AbsentLeaves();
  }

  lemma EncodesToObject(t: Transition)
    ensures EncodeTransition(t).JObject?
  {}

  lemma AbsentLeaves()
    ensures DecodeTrigger(JNull) == Some(TriggerUnset) && DecodeKind(JNull) == Some(KindUnset) && DecodeGuardRef(JNull) == Some(None)
    ensures TaggedForkTargets([]) && TaggedActions([])
  {}

  lemma {:induction false} TransitionsRoundTrip(ts: seq<Transition>)
    ensures DecodeTransitionItems(EncodeTransitions(ts)) == Some(ts) <==> TaggedTransitions(ts)
    decreases ts
  {
    hide DecodeTransition, EncodeTransition, TaggedTransition;
    if ts != [] {
      TransitionRoundTrip(ts[0]);
      TransitionsRoundTrip(ts[1..]);
      assert EncodeTransitions(ts)[1..] == EncodeTransitions(ts[1..]);
      var first, rest := DecodeTransition(EncodeTransition(ts[0])), DecodeTransitionItems(EncodeTransitions(ts[1..]));
      if first.Some? && rest.Some? { ConsEquals(first.value, rest.value, ts); }
    }
  }

  ghost predicate CarriesCommon(m: Members, ct: CommonTransition) {
    && DecodeTrigger(Member(m, "type")) == Some(ct.trigger) && DecodeKind(Member(m, "kind")) == Some(ct.kind)
    && Member(m, "sourceList") == EncodeTexts(ct.sourceList) && Member(m, "target") == JString(ct.target)
    && Member(m, "event") == JString(ct.event) && DecodeGuardRef(Member(m, "guard")) == Some(ct.guard)
    && Member(m, "entryActions") == JArray(EncodeActions(ct.entryActions))
  }

  lemma CommonMembers(ct: CommonTransition)
    ensures EncodeCommon(ct).JObject? && CarriesCommon(EncodeCommon(ct).members, ct)
  {
    hide DecodeTrigger, TriggerText, DecodeKind, KindText, DecodeGuardRef, EncodeGuardRef, EncodeActions, EncodeTexts;
    TriggerRoundTrip(ct.trigger);
    KindRoundTrip(ct.kind);
    GuardRoundTrip(ct.guard);
    AbsentLeaves();
  }

  lemma {:induction false} CommonRoundTrip(ct: CommonTransition)
    ensures DecodeCommon(EncodeCommon(ct)) == Some(ct) <==> TaggedActions(ct.entryActions)
    decreases ct
  {
    hide DecodeTrigger, DecodeKind, DecodeGuardRef, DecodeActionItems, EncodeActions, DecodeTexts, EncodeTexts, TaggedActions,
      EncodeCommon;
    CommonMembers(ct);
    TextsRoundTrip(ct.sourceList);
    ActionsRoundTrip(ct.entryActions);
  }

  lemma {:induction false} CommonsRoundTrip(cs: seq<CommonTransition>)
    ensures DecodeCommonItems(EncodeCommons(cs)) == Some(cs) <==> TaggedCommons(cs)
    decreases cs
  {
    hide DecodeCommon, EncodeCommon, TaggedActions;
    if cs != [] {
      CommonRoundTrip(cs[0]);
      CommonsRoundTrip(cs[1..]);
      assert EncodeCommons(cs)[1..] == EncodeCommons(cs[1..]);
      var first, rest := DecodeCommon(EncodeCommon(cs[0])), DecodeCommonItems(EncodeCommons(cs[1..]));
      if first.Some? && rest.Some? { ConsEquals(first.value, rest.value, cs); }
    }
  }

  /** The members every variant shares read back, whatever members are added. */
  ghost predicate CarriesInfo(m: Members, i: Info) {
    && Member(m, "type") == JString(i.typeTag) && Member(m, "id") == JString(i.id)
    && Member(m, "frontendBullet") == JBool(i.frontendBullet) && Member(m, "bulletName") == JString(i.bulletName)
    && Member(m, "resumeEvent") == JString(i.resumeEvent) && Member(m, "productStatus") == JString(i.productStatus)
    && Member(m, "status") == JString(i.status) && Member(m, "isHappyFlow") == EncodeFlagRef(i.isHappyFlow)
  }

  lemma InfoRoundTrip(m: Members, i: Info)
    requires CarriesInfo(m, i)
    ensures DecodeInfo(m) == Some(i)
  {}

  predicate InfoKey(key: string) {
    || key == "type" || key == "id" || key == "frontendBullet" || key == "bulletName" || key == "resumeEvent"
    || key == "productStatus" || key == "status" || key == "isHappyFlow"
  }

  lemma InfoMembers(i: Info)
    ensures CarriesInfo(EncodeInfo(i), i)
  {}

  lemma OtherMember(m: Members, i: Info, key: string, j: Json)
    requires CarriesInfo(m, i) && !InfoKey(key)
    ensures CarriesInfo(m[key := j], i)
  {}

  lemma ActionStateInfo(s: State)
    requires s.ActionState?
    ensures CarriesInfo(EncodeState(s).members, s.info)
  {
    hide EncodeActions, EncodeInfo, CarriesInfo;
    var m := EncodeInfo(s.info);
    InfoMembers(s.info);
    OtherMember(m, s.info, "expectResponse", JBool(s.expectResponse));
    var m1 := m["expectResponse" := JBool(s.expectResponse)];
    OtherMember(m1, s.info, "entryActions", JArray(EncodeActions(s.entryActions)));
    var m2 := m1["entryActions" := JArray(EncodeActions(s.entryActions))];
    OtherMember(m2, s.info, "exitActions", JArray(EncodeActions(s.exitActions)));
    OtherMember(m2["exitActions" := JArray(EncodeActions(s.exitActions))], s.info, "doActions", JArray(EncodeActions(s.doActions)));
  }

  lemma CompositeInfo(s: State)
    requires s.CompositeState?
    ensures CarriesInfo(EncodeState(s).members, s.info)
  {
    hide EncodeActions, EncodeInfo, CarriesInfo, EncodeStates, EncodeTransitions;
    var m := EncodeInfo(s.info);
    InfoMembers(s.info);
    OtherMember(m, s.info, "entryActions", JArray(EncodeActions(s.entryActions)));
    var m1 := m["entryActions" := JArray(EncodeActions(s.entryActions))];
    OtherMember(m1, s.info, "exitActions", JArray(EncodeActions(s.exitActions)));
    var m2 := m1["exitActions" := JArray(EncodeActions(s.exitActions))];
    OtherMember(m2, s.info, "initialSubstate", JString(s.initialSubstate));
    var m3 := m2["initialSubstate" := JString(s.initialSubstate)];
    OtherMember(m3, s.info, "substates", JArray(EncodeStates(s.substates)));
    var m4 := m3["substates" := JArray(EncodeStates(s.substates))];
    OtherMember(m4, s.info, "subTransitions", JArray(EncodeTransitions(s.subTransitions)));
    OtherMember(m4["subTransitions" := JArray(EncodeTransitions(s.subTransitions))], s.info, "history", JString(s.history));
  }

  lemma StateInfo(s: State)
    ensures CarriesInfo(EncodeState(s).members, s.info)
  {
    hide EncodeActions, CarriesInfo, EncodeStates, EncodeTransitions, EncodeInfo;
    if s.SimpleState? {
      InfoMembers(s.info);
    } else if s.ActionState? {
      ActionStateInfo(s);
    } else {
      CompositeInfo(s);
    }
  }

  ghost predicate CarriesActions(m: Members, key: string, actions: seq<Action>) {
    Member(m, key) == JArray(EncodeActions(actions)) || (actions == [] && key !in m)
  }

  lemma ActionStateMembers(s: State)
    requires s.ActionState?
    ensures
      var m := EncodeState(s).members;
      && Member(m, "expectResponse") == JBool(s.expectResponse) && CarriesActions(m, "entryActions", s.entryActions)
      && CarriesActions(m, "exitActions", s.exitActions) && CarriesActions(m, "doActions", s.doActions)
  {
    hide EncodeActions, EncodeStates, EncodeTransitions;
  }

  lemma {:induction false} ActionStateRoundTrip(s: State)
    requires s.ActionState?
    ensures DecodeState(EncodeState(s)) == Some(s) <==> TaggedState(s)
    decreases s, 0
  {
    hide DecodeInfo, DecodeActionItems, EncodeActions, DecodeStates, DecodeTransitions, EncodeState, CarriesInfo, TaggedActions;
    StateIsObject(s);
    StateInfo(s);
    InfoRoundTrip(EncodeState(s).members, s.info);
    ActionStateMembers(s);
    AbsentLeaves();
    ActionsRoundTrip(s.entryActions);
    ActionsRoundTrip(s.exitActions);
    ActionsRoundTrip(s.doActions);
  }

  lemma StateIsObject(s: State)
    ensures EncodeState(s).JObject?
  {}

  lemma CompositeMembers(s: State)
    requires s.CompositeState?
    ensures
      var m := EncodeState(s).members;
      && CarriesActions(m, "entryActions", s.entryActions) && CarriesActions(m, "exitActions", s.exitActions)
      && Member(m, "initialSubstate") == JString(s.initialSubstate)
      && Member(m, "substates") == JArray(EncodeStates(s.substates))
      && Member(m, "subTransitions") == JArray(EncodeTransitions(s.subTransitions))
      && DecodeText(Member(m, "history")) == Some(s.history)
  {
    hide EncodeActions, EncodeStates, EncodeTransitions;
  }

  lemma {:induction false} CompositeRoundTrip(s: State)
    requires s.CompositeState?
    ensures DecodeState(EncodeState(s)) == Some(s) <==> TaggedState(s)
    decreases s, 0
  {
    hide DecodeInfo, DecodeActionItems, EncodeActions, DecodeStateItems, EncodeStates, DecodeTransitionItems, EncodeTransitions,
      TaggedActions, TaggedStates, TaggedTransitions, EncodeState, CarriesInfo;
    StateIsObject(s);
    StateInfo(s);
    InfoRoundTrip(EncodeState(s).members, s.info);
    CompositeMembers(s);
    AbsentLeaves();
    ActionsRoundTrip(s.entryActions);
    ActionsRoundTrip(s.exitActions);
    StatesRoundTrip(s.substates);
    TransitionsRoundTrip(s.subTransitions);
  }

  /** Main result: a state comes back from storage exactly when every state in it
      carries the type of its variant. */
  lemma {:induction false} StateRoundTrip(s: State)
    ensures DecodeState(EncodeState(s)) == Some(s) <==> TaggedState(s)
    decreases s, 1
  {
    if s.SimpleState? {
      SimpleRoundTrip(s);
    } else if s.ActionState? {
      ActionStateRoundTrip(s);
    } else {
      CompositeRoundTrip(s);
    }
  }

  lemma SimpleRoundTrip(s: State)
    requires s.SimpleState?
    ensures DecodeState(EncodeState(s)) == Some(s) <==> TaggedState(s)
  {
    hide DecodeInfo, CarriesInfo, EncodeInfo, DecodeActions, DecodeStates, DecodeTransitions;
    StateInfo(s);
    InfoRoundTrip(EncodeState(s).members, s.info);
  }

  lemma {:induction false} StatesRoundTrip(ss: seq<State>)
    ensures DecodeStateItems(EncodeStates(ss)) == Some(ss) <==> TaggedStates(ss)
    decreases ss
  {
    hide DecodeState, EncodeState, TaggedState;
    if ss != [] {
      StateRoundTrip(ss[0]);
      StatesRoundTrip(ss[1..]);
      assert EncodeStates(ss)[1..] == EncodeStates(ss[1..]);
      var first, rest := DecodeState(EncodeState(ss[0])), DecodeStateItems(EncodeStates(ss[1..]));
      if first.Some? && rest.Some? { ConsEquals(first.value, rest.value, ss); }
    }
  }

  ghost predicate CarriesWorkflow(m: Members, w: Workflow) {
    && Member(m, "id") == JString(w.id) && Member(m, "version") == JString(w.version)
    && Member(m, "deprecated") == JBool(w.deprecated) && Member(m, "creationDate") == JString(w.creationDate)
    && Member(m, "updateDate") == JString(w.updateDate) && Member(m, "initialState") == JString(w.initialState)
    && Member(m, "states") == JArray(EncodeStates(w.states)) && Member(m, "transitions") == JArray(EncodeTransitions(w.transitions))
    && Member(m, "commonTransitions") == JArray(EncodeCommons(w.commonTransitions))
    && Member(m, "endStates") == EncodeTexts(w.endStates) && DecodeText(Member(m, "kind")) == Some(w.kind)
  }

  lemma HeaderMembers(w: Workflow)
    ensures
      var m := EncodeHeader(w);
      && Member(m, "id") == JString(w.id) && Member(m, "version") == JString(w.version)
      && Member(m, "deprecated") == JBool(w.deprecated) && Member(m, "creationDate") == JString(w.creationDate)
      && Member(m, "updateDate") == JString(w.updateDate) && Member(m, "initialState") == JString(w.initialState)
      && DecodeText(Member(m, "kind")) == Some(w.kind)
  {}

  lemma WorkflowMembers(w: Workflow)
    ensures EncodeWorkflow(w).JObject? && CarriesWorkflow(EncodeWorkflow(w).members, w)
  {
    hide EncodeStates, EncodeTransitions, EncodeCommons, EncodeTexts, EncodeHeader;
    HeaderMembers(w);
  }

  lemma {:induction false} WorkflowRoundTrip(w: Workflow)
    ensures DecodeWorkflow(EncodeWorkflow(w)) == Some(w) <==> TaggedWorkflow(w)
    decreases w
  {
    hide DecodeStateItems, EncodeStates, DecodeTransitionItems, EncodeTransitions, DecodeCommonItems, EncodeCommons,
      DecodeTexts, EncodeTexts, TaggedStates, TaggedTransitions, TaggedCommons, EncodeWorkflow;
    WorkflowMembers(w);
    StatesRoundTrip(w.states);
    TransitionsRoundTrip(w.transitions);
    CommonsRoundTrip(w.commonTransitions);
    TextsRoundTrip(w.endStates);
  }

  // ---- The position column ------------------------------------------------

  /** An envelope holds the state and, inside a composite, the substate. */
  function Envelope(c: StateContainer): Json {
    JObject(OmitEmpty(map["state" := EncodeState(c.state)], "substate", c.substate.None?,
                      if c.substate.Some? then EncodeState(c.substate.value) else JNull))
  }

  /** StateContainer.Value; SQL NULL is None. */
  function Value(c: Option<StateContainer>): Option<Json> {
    match c case None => None case Some(at) => Some(Envelope(at))
  }

  datatype Scanned = ScanError | Loaded(at: Option<StateContainer>)

  /** StateContainer.Scan: a row without a "state" member is a bare state, written
      before the envelope existed. */
  function Scan(v: Option<Json>): Scanned {
    match v
    case None => Loaded(None)
    case Some(j) =>
      match DecodeMembers(j)
      case None => ScanError
      case Some(m) =>
        if "state" !in m then
          match DecodeState(j)
          case None => ScanError
          case Some(s) => Loaded(Some(StateContainer(s, None)))
        else
          match (DecodeState(m["state"]), if "substate" in m then DecodeState(m["substate"]) else None)
          case (None, _) => ScanError
          case (Some(s), sub) =>
            if "substate" in m && sub.None? then ScanError else Loaded(Some(StateContainer(s, sub)))
  }

  predicate TaggedPosition(c: StateContainer) {
    TaggedState(c.state) && (c.substate.Some? ==> TaggedState(c.substate.value))
  }

  /** Main result: a stored position comes back exactly when its states carry the
      types of their variants, and a position never set comes back as such. */
  lemma PositionRoundTrip(c: Option<StateContainer>)
    ensures Scan(Value(c)) == Loaded(c) <==> (c.Some? ==> TaggedPosition(c.value))
  {
    hide DecodeState, EncodeState, TaggedState;
    if c.Some? {
      StateRoundTrip(c.value.state);
      if c.value.substate.Some? { StateRoundTrip(c.value.substate.value); }
    }
  }

  /** What a position is written as: the state, and the substate only when there is one. */
  lemma EnvelopeWritten(c: StateContainer)
    ensures Value(None) == None && Value(Some(c)).Some? && Value(Some(c)).value.JObject?
    ensures
      var m := Value(Some(c)).value.members;
      && m.Keys == (if c.substate.Some? then {"state", "substate"} else {"state"})
      && m["state"] == EncodeState(c.state) && (c.substate.Some? ==> m["substate"] == EncodeState(c.substate.value))
  {
    hide EncodeState;
  }

  /** And what an envelope is read as; one whose substate does not decode is refused. */
  lemma EnvelopeRead(m: Members, c: StateContainer)
    requires "state" in m
    ensures Scan(Some(JObject(m))) == Loaded(Some(c)) <==>
      && DecodeState(m["state"]) == Some(c.state)
      && (if "substate" in m then c.substate.Some? && DecodeState(m["substate"]) == c.substate else c.substate.None?)
    ensures Scan(Some(JObject(m))) == ScanError <==>
      DecodeState(m["state"]).None? || ("substate" in m && DecodeState(m["substate"]).None?)
  {
    hide DecodeState;
  }

  /** A bare state has no member called "state". */
  lemma BareIsNoEnvelope(s: State)
    ensures EncodeState(s).JObject? && "state" !in EncodeState(s).members
  {
    hide EncodeActions, EncodeStates, EncodeTransitions;
  }

  /** Main result: the two forms of a row never overlap, and a bare state is read as
      itself, without a substate, whatever it is. */
  lemma LegacyNeverConfused(s: State, c: StateContainer)
    ensures EncodeState(s) != Envelope(c)
    ensures Scan(Some(EncodeState(s))) == Loaded(Some(StateContainer(s, None))) <==> TaggedState(s)
    ensures Scan(Some(EncodeState(s))) == if DecodeState(EncodeState(s)).Some?
      then Loaded(Some(StateContainer(DecodeState(EncodeState(s)).value, None))) else ScanError
  {
    hide DecodeState, EncodeState, TaggedState;
    BareIsNoEnvelope(s);
    StateRoundTrip(s);
  }

  /** An action state without a type is read back as a simple one: its actions are
      lost. */
  lemma UntaggedLosesActions(a: Action)
    ensures
      var info := Info("", "s", false, "", "", "", "", None);
      var s := ActionState(info, false, [a], [], []);
      Scan(Value(Some(StateContainer(s, None)))) == Loaded(Some(StateContainer(SimpleState(info), None)))
  {
    hide DecodeInfo, EncodeActions, DecodeActions, DecodeStates, DecodeTransitions, CarriesInfo, EncodeInfo;
    var info := Info("", "s", false, "", "", "", "", None);
    var s := ActionState(info, false, [a], [], []);
    StateInfo(s);
    InfoRoundTrip(EncodeState(s).members, info);
  }

  /** The receiver of Value and Scan. */
  class Column {
    var state: Option<State>
    var substate: Option<State>

    constructor ()
      ensures Contents() == None
    {
      state, substate := None, None;
    }

    function Contents(): Option<StateContainer>
      reads this
    {
      if state.None? then None else Some(StateContainer(state.value, substate))
    }

    method Write() returns (v: Option<Json>)
      ensures v == Value(Contents())
    {
      if state.None? {
        return None;
      }
      var m := map["state" := EncodeState(state.value)];
      if substate.Some? {
        m := m["substate" := EncodeState(substate.value)];
      }
      v := Some(JObject(m));
    }

    /** Fills the receiver; a substate that does not decode leaves the new state
        without one, any other failure leaves the receiver as it was. */
    method Read(v: Option<Json>) returns (ok: bool)
      modifies this
      ensures ok <==> Scan(v).Loaded?
      ensures ok ==> Contents() == Scan(v).at
      ensures !ok ==>
        if DecodeMembers(v.value).Some? && "state" in DecodeMembers(v.value).value
           && DecodeState(DecodeMembers(v.value).value["state"]).Some?
        then state == DecodeState(DecodeMembers(v.value).value["state"]) && substate == None
        else state == old(state) && substate == old(substate)
    {
      ok := true;
      if v.None? {
        state, substate := None, None;
        return;
      }
      var m := DecodeMembers(v.value);
      if m.None? {
        return false;
      }
      var decoded := DecodeState(if "state" in m.value then m.value["state"] else v.value);
      if decoded.None? {
        return false;
      }
      state, substate := decoded, None;
      if "state" in m.value && "substate" in m.value {
        var sub := DecodeState(m.value["substate"]);
        if sub.None? {
          return false;
        }
        substate := sub;
      }
    }
  }
}
