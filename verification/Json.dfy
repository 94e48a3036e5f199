/** How a definition is written to and read from JSON (model/statemachine.go,
    model/composite_state.go), over trees: a member that is absent reads like one
    that is null, and neither changes the field it is for. */
module Json {
  import opened Model

  datatype Json =
    | JNull | JBool(b: bool) | JNumber(n: real) | JString(s: string)
    | JArray(items: seq<Json>) | JObject(members: map<string, Json>)

  type Members = map<string, Json>

  function Member(m: Members, key: string): Json {
    if key in m then m[key] else JNull
  }

  /** A member left out when it is empty. */
  function OmitEmpty(m: Members, key: string, empty: bool, j: Json): Members {
    if empty then m else m[key := j]
  }

  // ---- Leaves -------------------------------------------------------------

  function DecodeMembers(j: Json): Option<Members> {
    match j case JNull => Some(map[]) case JObject(m) => Some(m) case _ => None
  }

  function DecodeItems(j: Json): Option<seq<Json>> {
    match j case JNull => Some([]) case JArray(items) => Some(items) case _ => None
  }

  function DecodeText(j: Json): Option<string> {
    match j case JNull => Some("") case JString(s) => Some(s) case _ => None
  }

  function DecodeFlag(j: Json): Option<bool> {
    match j case JNull => Some(false) case JBool(b) => Some(b) case _ => None
  }

  function DecodeFlagRef(j: Json): Option<Option<bool>> {
    match j case JNull => Some(None) case JBool(b) => Some(Some(b)) case _ => None
  }

  function EncodeFlagRef(b: Option<bool>): Json {
    match b case None => JNull case Some(v) => JBool(v)
  }

  function EncodeTexts(ss: seq<string>): Json {
    JArray(seq(|ss|, i requires 0 <= i < |ss| => JString(ss[i])))
  }

  function DecodeTexts(j: Json): Option<seq<string>> {
    var items :- DecodeItems(j);
    if exists i :: 0 <= i < |items| && DecodeText(items[i]).None? then None
    else Some(seq(|items|, i requires 0 <= i < |items| && DecodeText(items[i]).Some? => DecodeText(items[i]).value))
  }

  function EncodeDict(d: map<string, string>): Json {
    JObject(map k | k in d :: JString(d[k]))
  }

  function DecodeDict(j: Json): Option<map<string, string>> {
    var m :- DecodeMembers(j);
    if exists k :: k in m && DecodeText(m[k]).None? then None
    else Some(map k | k in m && DecodeText(m[k]).Some? :: DecodeText(m[k]).value)
  }

  // ---- Enumerations, read in any case ------------------------------------

  function UpperChar(c: char): char {
    if 'a' <= c <= 'z' then (c as int - 32) as char else c
  }

  function Upper(s: string): string {
    seq(|s|, i requires 0 <= i < |s| => UpperChar(s[i]))
  }

  function TriggerText(t: Trigger): string {
    match t case AutomaticTrigger => "AUTOMATIC" case UserTrigger => "USER" case SystemTrigger => "SYSTEM" case TriggerUnset => ""
  }

  function DecodeTrigger(j: Json): Option<Trigger> {
    var raw :- DecodeText(j);
    var u := Upper(raw);
    if u == "" then Some(TriggerUnset)
    else if u == "AUTOMATIC" then Some(AutomaticTrigger)
    else if u == "USER" then Some(UserTrigger)
    else if u == "SYSTEM" then Some(SystemTrigger)
    else None
  }

  function KindText(k: Kind): string {
    match k
    case ExternalKind => "EXTERNAL" case InternalKind => "INTERNAL" case ForkKind => "FORK" case JoinKind => "JOIN"
    case KindUnset => ""
  }

  function DecodeKind(j: Json): Option<Kind> {
    var raw :- DecodeText(j);
    var u := Upper(raw);
    if u == "" then Some(KindUnset)
    else if u == "EXTERNAL" then Some(ExternalKind)
    else if u == "INTERNAL" then Some(InternalKind)
    else if u == "FORK" then Some(ForkKind)
    else if u == "JOIN" then Some(JoinKind)
    else None
  }

  function ActionTypeText(a: ActionType): string {
    match a
    case HttpRequestAction => "HTTPREQUESTACTION" case SetContextMapAction => "SETCONTEXTMAPACTION"
    case CreateChildWorkflowAction => "CREATECHILDWORKFLOWACTION" case ActionTypeUnset => ""
  }

  function DecodeActionType(j: Json): Option<ActionType> {
    var raw :- DecodeText(j);
    var u := Upper(raw);
    if u == "" then Some(ActionTypeUnset)
    else if u == "HTTPREQUESTACTION" then Some(HttpRequestAction)
    else if u == "SETCONTEXTMAPACTION" then Some(SetContextMapAction)
    else if u == "CREATECHILDWORKFLOWACTION" then Some(CreateChildWorkflowAction)
    else None
  }

  function GuardOpText(op: GuardOp): string {
    match op
    case GuardEq => "EQ" case GuardNeq => "NEQ" case GuardGt => "GT" case GuardGte => "GTE" case GuardLt => "LT"
    case GuardLte => "LTE" case GuardExists => "EXISTS" case GuardNotExists => "NOT_EXISTS" case OpUnset => ""
  }

  function DecodeGuardOp(j: Json): Option<GuardOp> {
    var raw :- DecodeText(j);
    var u := Upper(raw);
    if u == "" then Some(OpUnset)
    else if u == "EQ" then Some(GuardEq)
    else if u == "NEQ" then Some(GuardNeq)
    else if u == "GT" then Some(GuardGt)
    else if u == "GTE" then Some(GuardGte)
    else if u == "LT" then Some(GuardLt)
    else if u == "LTE" then Some(GuardLte)
    else if u == "EXISTS" then Some(GuardExists)
    else if u == "NOT_EXISTS" then Some(GuardNotExists)
    else None
  }

  // ---- Guards -------------------------------------------------------------

  function EncodeGuardRef(g: Option<Guard>): Json {
    match g
    case None => JNull
    case Some(Guard(key, op, value)) =>
      JObject(OmitEmpty(map["key" := JString(key), "op" := JString(GuardOpText(op))], "value", value == "", JString(value)))
  }

  function DecodeGuardRef(j: Json): Option<Option<Guard>> {
    if j == JNull then Some(None)
    else
      var m :- DecodeMembers(j);
      var key :- DecodeText(Member(m, "key"));
      var op :- DecodeGuardOp(Member(m, "op"));
      var value :- DecodeText(Member(m, "value"));
      Some(Some(Guard(key, op, value)))
  }

  // ---- Writing a definition -----------------------------------------------

  function EncodeAction(a: Action): Json {
    JObject(OmitEmpty(
      map["type" := JString(ActionTypeText(a.actionType)), "method" := JString(a.httpMethod), "url" := JString(a.url),
          "expectResponse" := JBool(a.expectResponse), "forwardToken" := JBool(a.forwardToken),
          "status" := JString(a.status), "variables" := EncodeDict(a.variables)],
      "childWorkflow", a.childWorkflow.None?, EncodeWorkflowRef(a.childWorkflow)))
  }

  function EncodeWorkflowRef(w: Option<Workflow>): Json {
    match w case None => JNull case Some(wf) => EncodeWorkflow(wf)
  }

  function EncodeActions(actions: seq<Action>): seq<Json> {
    if actions == [] then [] else [EncodeAction(actions[0])] + EncodeActions(actions[1..])
  }

  function EncodeForkTarget(f: ForkTarget): Json {
    JObject(OmitEmpty(OmitEmpty(map[], "ref", f.ref == "", JString(f.ref)),
      "childWorkflow", f.childWorkflow.None?, EncodeWorkflowRef(f.childWorkflow)))
  }

  function EncodeForkTargets(fs: seq<ForkTarget>): seq<Json> {
    if fs == [] then [] else [EncodeForkTarget(fs[0])] + EncodeForkTargets(fs[1..])
  }

  /** The members about what triggers a transition. */
  function EncodeLabels(t: Transition): Members {
    var m := map["source" := JString(t.source), "target" := JString(t.target), "event" := JString(t.event), "join" := JBool(t.join)];
    var m1 := OmitEmpty(OmitEmpty(m, "type", t.trigger == TriggerUnset, JString(TriggerText(t.trigger))),
                        "kind", t.kind == KindUnset, JString(KindText(t.kind)));
    OmitEmpty(OmitEmpty(m1, "after", t.after == "", JString(t.after)), "entersHistory", !t.entersHistory, JBool(t.entersHistory))
  }

  function EncodeTransition(t: Transition): Json {
    var m := EncodeLabels(t)["entryActions" := JArray(EncodeActions(t.entryActions))];
    JObject(OmitEmpty(OmitEmpty(m, "guard", t.guard.None?, EncodeGuardRef(t.guard)),
                      "forkTargets", t.forkTargets == [], JArray(EncodeForkTargets(t.forkTargets))))
  }

  function EncodeTransitions(ts: seq<Transition>): seq<Json> {
    if ts == [] then [] else [EncodeTransition(ts[0])] + EncodeTransitions(ts[1..])
  }

  function EncodeCommon(ct: CommonTransition): Json {
    var m := map["sourceList" := EncodeTexts(ct.sourceList), "target" := JString(ct.target), "event" := JString(ct.event),
                 "entryActions" := JArray(EncodeActions(ct.entryActions))];
    var m1 := OmitEmpty(OmitEmpty(m, "type", ct.trigger == TriggerUnset, JString(TriggerText(ct.trigger))),
                        "kind", ct.kind == KindUnset, JString(KindText(ct.kind)));
    JObject(OmitEmpty(m1, "guard", ct.guard.None?, EncodeGuardRef(ct.guard)))
  }

  function EncodeCommons(cs: seq<CommonTransition>): seq<Json> {
    if cs == [] then [] else [EncodeCommon(cs[0])] + EncodeCommons(cs[1..])
  }

  function EncodeInfo(i: Info): Members {
    OmitEmpty(
      map["type" := JString(i.typeTag), "id" := JString(i.id), "frontendBullet" := JBool(i.frontendBullet),
          "bulletName" := JString(i.bulletName), "resumeEvent" := JString(i.resumeEvent),
          "productStatus" := JString(i.productStatus), "status" := JString(i.status)],
      "isHappyFlow", i.isHappyFlow.None?, EncodeFlagRef(i.isHappyFlow))
  }

  function EncodeState(s: State): Json {
    match s
    case SimpleState(info) => JObject(EncodeInfo(info))
    case ActionState(info, expectResponse, entry, exit, doActions) =>
      JObject(OmitEmpty(
        EncodeInfo(info)["expectResponse" := JBool(expectResponse)]
          ["entryActions" := JArray(EncodeActions(entry))]["exitActions" := JArray(EncodeActions(exit))],
        "doActions", doActions == [], JArray(EncodeActions(doActions))))
    case CompositeState(info, entry, exit, initial, substates, subTransitions, history) =>
      JObject(OmitEmpty(
        EncodeInfo(info)["entryActions" := JArray(EncodeActions(entry))]["exitActions" := JArray(EncodeActions(exit))]
          ["initialSubstate" := JString(initial)]["substates" := JArray(EncodeStates(substates))]
          ["subTransitions" := JArray(EncodeTransitions(subTransitions))],
        "history", history == "", JString(history)))
  }

  function EncodeStates(ss: seq<State>): seq<Json> {
    if ss == [] then [] else [EncodeState(ss[0])] + EncodeStates(ss[1..])
  }

  function EncodeHeader(w: Workflow): Members {
    OmitEmpty(
      map["id" := JString(w.id), "version" := JString(w.version), "deprecated" := JBool(w.deprecated),
          "creationDate" := JString(w.creationDate), "updateDate" := JString(w.updateDate),
          "initialState" := JString(w.initialState)],
      "kind", w.kind == "", JString(w.kind))
  }

  function EncodeWorkflow(w: Workflow): Json {
    JObject(
      EncodeHeader(w)["states" := JArray(EncodeStates(w.states))]["transitions" := JArray(EncodeTransitions(w.transitions))]
        ["commonTransitions" := JArray(EncodeCommons(w.commonTransitions))]["endStates" := EncodeTexts(w.endStates)])
  }

  // ---- Reading a definition -----------------------------------------------

  function DecodeAction(j: Json): Option<Action>
    decreases j, 0
  {
    var m :- DecodeMembers(j);
    var actionType :- DecodeActionType(Member(m, "type"));
    var verb :- DecodeText(Member(m, "method"));
    var url :- DecodeText(Member(m, "url"));
    var expectResponse :- DecodeFlag(Member(m, "expectResponse"));
    var forwardToken :- DecodeFlag(Member(m, "forwardToken"));
    var status :- DecodeText(Member(m, "status"));
    var variables :- DecodeDict(Member(m, "variables"));
    var child :- (if "childWorkflow" in m then DecodeWorkflowRef(m["childWorkflow"]) else Some(None));
    Some(Action(actionType, verb, url, expectResponse, forwardToken, status, variables, child))
  }

  function DecodeWorkflowRef(j: Json): Option<Option<Workflow>>
    decreases j, 1
  {
    if j == JNull then Some(None)
    else
      var w :- DecodeWorkflow(j);
      Some(Some(w))
  }

  function DecodeActionItems(items: seq<Json>): Option<seq<Action>>
    decreases items
  {
    if items == [] then Some([])
    else
      var first :- DecodeAction(items[0]);
      var rest :- DecodeActionItems(items[1..]);
      Some([first] + rest)
  }

  function DecodeActions(j: Json): Option<seq<Action>>
    decreases j, 1
  {
    match j case JNull => Some([]) case JArray(items) => DecodeActionItems(items) case _ => None
  }

  function DecodeForkTarget(j: Json): Option<ForkTarget>
    decreases j, 0
  {
    var m :- DecodeMembers(j);
    var ref :- DecodeText(Member(m, "ref"));
    var child :- (if "childWorkflow" in m then DecodeWorkflowRef(m["childWorkflow"]) else Some(None));
    Some(ForkTarget(ref, child))
  }

  function DecodeForkItems(items: seq<Json>): Option<seq<ForkTarget>>
    decreases items
  {
    if items == [] then Some([])
    else
      var first :- DecodeForkTarget(items[0]);
      var rest :- DecodeForkItems(items[1..]);
      Some([first] + rest)
  }

  function DecodeForkTargets(j: Json): Option<seq<ForkTarget>>
    decreases j, 1
  {
    match j case JNull => Some([]) case JArray(items) => DecodeForkItems(items) case _ => None
  }

  function DecodeTransition(j: Json): Option<Transition>
    decreases j, 0
  {
    var m :- DecodeMembers(j);
    var trigger :- DecodeTrigger(Member(m, "type"));
    var kind :- DecodeKind(Member(m, "kind"));
    var source :- DecodeText(Member(m, "source"));
    var target :- DecodeText(Member(m, "target"));
    var event :- DecodeText(Member(m, "event"));
    var guard :- DecodeGuardRef(Member(m, "guard"));
    var entry :- (if "entryActions" in m then DecodeActions(m["entryActions"]) else Some([]));
    var join :- DecodeFlag(Member(m, "join"));
    var forks :- (if "forkTargets" in m then DecodeForkTargets(m["forkTargets"]) else Some([]));
    var after :- DecodeText(Member(m, "after"));
    var entersHistory :- DecodeFlag(Member(m, "entersHistory"));
    Some(Transition(trigger, kind, source, target, event, guard, entry, join, forks, after, entersHistory))
  }

  function DecodeTransitionItems(items: seq<Json>): Option<seq<Transition>>
    decreases items
  {
    if items == [] then Some([])
    else
      var first :- DecodeTransition(items[0]);
      var rest :- DecodeTransitionItems(items[1..]);
      Some([first] + rest)
  }

  function DecodeTransitions(j: Json): Option<seq<Transition>>
    decreases j, 1
  {
    match j case JNull => Some([]) case JArray(items) => DecodeTransitionItems(items) case _ => None
  }

  function DecodeCommon(j: Json): Option<CommonTransition>
    decreases j, 0
  {
    var m :- DecodeMembers(j);
    var sources :- DecodeTexts(Member(m, "sourceList"));
    var target :- DecodeText(Member(m, "target"));
    var event :- DecodeText(Member(m, "event"));
    var trigger :- DecodeTrigger(Member(m, "type"));
    var kind :- DecodeKind(Member(m, "kind"));
    var guard :- DecodeGuardRef(Member(m, "guard"));
    var entry :- (if "entryActions" in m then DecodeActions(m["entryActions"]) else Some([]));
    Some(CommonTransition(sources, target, event, trigger, kind, guard, entry))
  }

  function DecodeCommonItems(items: seq<Json>): Option<seq<CommonTransition>>
    decreases items
  {
    if items == [] then Some([])
    else
      var first :- DecodeCommon(items[0]);
      var rest :- DecodeCommonItems(items[1..]);
      Some([first] + rest)
  }

  function DecodeCommons(j: Json): Option<seq<CommonTransition>>
    decreases j, 1
  {
    match j case JNull => Some([]) case JArray(items) => DecodeCommonItems(items) case _ => None
  }

  function DecodeInfo(m: Members): Option<Info> {
    var tag :- DecodeText(Member(m, "type"));
    var id :- DecodeText(Member(m, "id"));
    var frontendBullet :- DecodeFlag(Member(m, "frontendBullet"));
    var bulletName :- DecodeText(Member(m, "bulletName"));
    var resumeEvent :- DecodeText(Member(m, "resumeEvent"));
    var productStatus :- DecodeText(Member(m, "productStatus"));
    var status :- DecodeText(Member(m, "status"));
    var isHappyFlow :- DecodeFlagRef(Member(m, "isHappyFlow"));
    Some(Info(tag, id, frontendBullet, bulletName, resumeEvent, productStatus, status, isHappyFlow))
  }

  /** DecodeState: the "type" member picks the variant; without one it is a simple
      state, and any other value is an error. */
  function DecodeState(j: Json): Option<State>
    decreases j, 0
  {
    var m :- DecodeMembers(j);
    var info :- DecodeInfo(m);
    if info.typeTag == "ActionState" then
      var expectResponse :- DecodeFlag(Member(m, "expectResponse"));
      var entry :- (if "entryActions" in m then DecodeActions(m["entryActions"]) else Some([]));
      var exit :- (if "exitActions" in m then DecodeActions(m["exitActions"]) else Some([]));
      var doActions :- (if "doActions" in m then DecodeActions(m["doActions"]) else Some([]));
      Some(ActionState(info, expectResponse, entry, exit, doActions))
    else if info.typeTag == "CompositeState" then
      var entry :- (if "entryActions" in m then DecodeActions(m["entryActions"]) else Some([]));
      var exit :- (if "exitActions" in m then DecodeActions(m["exitActions"]) else Some([]));
      var initial :- DecodeText(Member(m, "initialSubstate"));
      var substates :- (if "substates" in m then DecodeStates(m["substates"]) else Some([]));
      var subTransitions :- (if "subTransitions" in m then DecodeTransitions(m["subTransitions"]) else Some([]));
      var history :- DecodeText(Member(m, "history"));
      Some(CompositeState(info, entry, exit, initial, substates, subTransitions, history))
    else if info.typeTag == "SimpleState" || info.typeTag == "" then Some(SimpleState(info))
    else None
  }

  function DecodeStateItems(items: seq<Json>): Option<seq<State>>
    decreases items
  {
    if items == [] then Some([])
    else
      var first :- DecodeState(items[0]);
      var rest :- DecodeStateItems(items[1..]);
      Some([first] + rest)
  }

  function DecodeStates(j: Json): Option<seq<State>>
    decreases j, 1
  {
    match j case JNull => Some([]) case JArray(items) => DecodeStateItems(items) case _ => None
  }

  function DecodeWorkflow(j: Json): Option<Workflow>
    decreases j, 0
  {
    var m :- DecodeMembers(j);
    var id :- DecodeText(Member(m, "id"));
    var kind :- DecodeText(Member(m, "kind"));
    var version :- DecodeText(Member(m, "version"));
    var deprecated_ :- DecodeFlag(Member(m, "deprecated"));
    var creationDate :- DecodeText(Member(m, "creationDate"));
    var updateDate :- DecodeText(Member(m, "updateDate"));
    var initialState :- DecodeText(Member(m, "initialState"));
    var states :- (if "states" in m then DecodeStates(m["states"]) else Some([]));
    var transitions :- (if "transitions" in m then DecodeTransitions(m["transitions"]) else Some([]));
    var commons :- (if "commonTransitions" in m then DecodeCommons(m["commonTransitions"]) else Some([]));
    var endStates :- DecodeTexts(Member(m, "endStates"));
    Some(Workflow(id, kind, version, deprecated_, creationDate, updateDate, initialState, states, transitions, commons, endStates))
  }
}
