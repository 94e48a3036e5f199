/** What filling in writes, and that a filled-in definition survives storage
    (model/defaults.go, persistence/state_container.go). Which value a field gets is
    stated here as a relation between a definition and its outcome. */
module DefaultsStored {
  import opened Model
  import opened Persistence
  import opened Json
  import opened Storage
  import opened Defaults

  // ---- Which values are filled in -----------------------------------------

  /** A text the author wrote stays; one left out becomes `value`. */
  predicate Fills(was: string, now: string, value: string) {
    (was != "" ==> now == was) && (was == "" ==> now == value)
  }

  predicate FilledInfo(i: Info, d: Info, tag: string) {
    && Fills(i.typeTag, d.typeTag, tag) && Fills(i.status, d.status, "NEW")
    && Fills(i.productStatus, d.productStatus, "IN_PROGRESS") && Fills(i.bulletName, d.bulletName, i.id)
    && d.id == i.id && d.frontendBullet == i.frontendBullet && d.resumeEvent == i.resumeEvent && d.isHappyFlow == i.isHappyFlow
  }

  predicate FilledRef(w: Option<Workflow>, d: Option<Workflow>)
    decreases w, 0
  {
    match (w, d)
    case (None, None) => true
    case (Some(x), Some(y)) => FilledWorkflow(x, y)
    case _ => false
  }

  predicate FilledAction(a: Action, d: Action)
    decreases a
  {
    && d.actionType == a.actionType && d.url == a.url && d.expectResponse == a.expectResponse
    && d.forwardToken == a.forwardToken && d.status == a.status && d.variables == a.variables
    && Fills(a.httpMethod, d.httpMethod, if a.actionType == HttpRequestAction then "GET" else "")
    && FilledRef(a.childWorkflow, d.childWorkflow)
  }

  predicate FilledActions(actions: seq<Action>, d: seq<Action>)
    decreases actions
  {
    |d| == |actions| && forall i :: 0 <= i < |actions| ==> FilledAction(actions[i], d[i])
  }

  /** USER and EXTERNAL where the author named neither. */
  predicate FilledLabels(trigger: Trigger, kind: Kind, dTrigger: Trigger, dKind: Kind) {
    && (if trigger.TriggerUnset? then dTrigger.UserTrigger? else dTrigger == trigger)
    && (if kind.KindUnset? then dKind.ExternalKind? else dKind == kind)
  }

  predicate FilledTransition(t: Transition, d: Transition)
    decreases t
  {
    && FilledLabels(t.trigger, t.kind, d.trigger, d.kind) && FilledActions(t.entryActions, d.entryActions)
    && d.source == t.source && d.target == t.target && d.event == t.event && d.guard == t.guard && d.join == t.join
    && d.after == t.after && d.entersHistory == t.entersHistory
    && |d.forkTargets| == |t.forkTargets|
    && forall i :: 0 <= i < |t.forkTargets| ==>
         d.forkTargets[i].ref == t.forkTargets[i].ref
         && FilledRef(t.forkTargets[i].childWorkflow, d.forkTargets[i].childWorkflow)
  }

  predicate FilledTransitions(ts: seq<Transition>, d: seq<Transition>)
    decreases ts
  {
    |d| == |ts| && forall i :: 0 <= i < |ts| ==> FilledTransition(ts[i], d[i])
  }

  predicate FilledCommon(ct: CommonTransition, d: CommonTransition)
    decreases ct
  {
    && FilledLabels(ct.trigger, ct.kind, d.trigger, d.kind) && FilledActions(ct.entryActions, d.entryActions)
    && d.sourceList == ct.sourceList && d.target == ct.target && d.event == ct.event && d.guard == ct.guard
  }

  /** The id a list of states starts with. */
  function LeadingId(ss: seq<State>): string { if |ss| > 0 then ss[0].info.id else "" }

  predicate FilledState(s: State, d: State)
    decreases s
  {
    match (s, d)
    case (SimpleState(i), SimpleState(j)) => FilledInfo(i, j, "SimpleState")
    case (ActionState(i, expects, entry, exit, doing), ActionState(j, expects', entry', exit', doing')) =>
      && FilledInfo(i, j, "ActionState") && expects' == expects
      && FilledActions(entry, entry') && FilledActions(exit, exit') && FilledActions(doing, doing')
    case (CompositeState(i, entry, exit, initial, subs, ts, history), CompositeState(j, entry', exit', initial', subs', ts', history')) =>
      && FilledInfo(i, j, "CompositeState") && Fills(initial, initial', LeadingId(subs)) && history' == history
      && FilledActions(entry, entry') && FilledActions(exit, exit') && FilledStates(subs, subs') && FilledTransitions(ts, ts')
    case _ => false
  }

  predicate FilledStates(ss: seq<State>, d: seq<State>)
    decreases ss
  {
    |d| == |ss| && forall i :: 0 <= i < |ss| ==> FilledState(ss[i], d[i])
  }

  /** The kind is always USER. A date left out becomes the time of filling in, which is
      the same for both. */
  predicate FilledHeader(w: Workflow, d: Workflow) {
    && d.kind == "USER" && Fills(w.version, d.version, "1.0.0") && Fills(w.initialState, d.initialState, LeadingId(w.states))
    && (w.creationDate != "" ==> d.creationDate == w.creationDate) && (w.updateDate != "" ==> d.updateDate == w.updateDate)
    && d.creationDate != "" && d.updateDate != ""
    && (w.creationDate == "" && w.updateDate == "" ==> d.creationDate == d.updateDate)
    && d.id == w.id && d.deprecated == w.deprecated && d.endStates == w.endStates
  }

  predicate FilledWorkflow(w: Workflow, d: Workflow)
    decreases w
  {
    && FilledHeader(w, d) && FilledStates(w.states, d.states) && FilledTransitions(w.transitions, d.transitions)
    && |d.commonTransitions| == |w.commonTransitions|
    && forall i :: 0 <= i < |w.commonTransitions| ==> FilledCommon(w.commonTransitions[i], d.commonTransitions[i])
  }

  // ---- That is what filling in does ---------------------------------------

  lemma {:induction false} RefFilled(w: Option<Workflow>, clock: Clock, path: seq<nat>)
    requires Reads(clock)
    ensures FilledRef(w, if w.Some? then Some(ApplyDefaults(w.value, clock, path)) else None)
    decreases w, 0
  {
    if w.Some? { WorkflowFilled(w.value, clock, path); }
  }

  lemma {:induction false} ActionFilled(a: Action, clock: Clock, path: seq<nat>)
    requires Reads(clock)
    ensures FilledAction(a, DefaultAction(a, clock, path))
    decreases a
  {
    hide ApplyDefaults, FilledRef;
    RefFilled(a.childWorkflow, clock, path);
  }

  lemma {:induction false} ActionsFilled(actions: seq<Action>, clock: Clock, path: seq<nat>)
    requires Reads(clock)
    ensures FilledActions(actions, DefaultActions(actions, clock, path))
    decreases actions
  {
    hide DefaultAction, FilledAction;
    forall i | 0 <= i < |actions| ensures FilledAction(actions[i], DefaultActions(actions, clock, path)[i]) {
      ActionFilled(actions[i], clock, path + [i]);
    }
  }

  lemma {:induction false} TransitionFilled(t: Transition, clock: Clock, path: seq<nat>)
    requires Reads(clock)
    ensures FilledTransition(t, DefaultTransition(t, clock, path))
    decreases t
  {
    hide ApplyDefaults, FilledActions, DefaultActions, FilledRef;
    ActionsFilled(t.entryActions, clock, path + [0]);
    var d := DefaultTransition(t, clock, path);
    forall i | 0 <= i < |t.forkTargets|
      ensures d.forkTargets[i].ref == t.forkTargets[i].ref && FilledRef(t.forkTargets[i].childWorkflow, d.forkTargets[i].childWorkflow)
    {
      RefFilled(t.forkTargets[i].childWorkflow, clock, path + [1, i]);
      assert d.forkTargets[i] == DefaultForkTarget(t.forkTargets[i], clock, path + [1, i]);
    }
  }

  lemma {:induction false} TransitionsFilled(ts: seq<Transition>, clock: Clock, path: seq<nat>)
    requires Reads(clock)
    ensures FilledTransitions(ts, DefaultTransitions(ts, clock, path))
    decreases ts
  {
    hide DefaultTransition, FilledTransition;
    forall i | 0 <= i < |ts| ensures FilledTransition(ts[i], DefaultTransitions(ts, clock, path)[i]) {
      TransitionFilled(ts[i], clock, path + [i]);
    }
  }

  lemma {:induction false} StateFilled(s: State, clock: Clock, path: seq<nat>)
    requires Reads(clock)
    ensures FilledState(s, DefaultState(s, clock, path))
    decreases s
  {
    hide FilledActions, DefaultActions, FilledStates, DefaultStates, FilledTransitions, DefaultTransitions;
    if s.ActionState? {
      ActionsFilled(s.entryActions, clock, path + [0]);
      ActionsFilled(s.exitActions, clock, path + [1]);
      ActionsFilled(s.doActions, clock, path + [2]);
    } else if s.CompositeState? {
      ActionsFilled(s.entryActions, clock, path + [0]);
      ActionsFilled(s.exitActions, clock, path + [1]);
      StatesFilled(s.substates, clock, path + [2]);
      TransitionsFilled(s.subTransitions, clock, path + [3]);
    }
  }

  lemma {:induction false} StatesFilled(ss: seq<State>, clock: Clock, path: seq<nat>)
    requires Reads(clock)
    ensures FilledStates(ss, DefaultStates(ss, clock, path))
    decreases ss
  {
    hide DefaultState, FilledState;
    forall i | 0 <= i < |ss| ensures FilledState(ss[i], DefaultStates(ss, clock, path)[i]) {
      StateFilled(ss[i], clock, path + [i]);
    }
  }

  /** Main result: throughout the tree, nested workflows included, filling in writes
      exactly these values where a field was left out and keeps what the author wrote. */
  lemma {:induction false} WorkflowFilled(w: Workflow, clock: Clock, path: seq<nat>)
    requires Reads(clock)
    ensures FilledWorkflow(w, ApplyDefaults(w, clock, path))
    decreases w
  {
    hide FilledActions, DefaultActions, FilledStates, DefaultStates, FilledTransitions, DefaultTransitions;
    StatesFilled(w.states, clock, path + [0]);
    TransitionsFilled(w.transitions, clock, path + [1]);
    var d := ApplyDefaults(w, clock, path);
    forall i | 0 <= i < |w.commonTransitions| ensures FilledCommon(w.commonTransitions[i], d.commonTransitions[i]) {
      ActionsFilled(w.commonTransitions[i].entryActions, clock, path + [2, i]);
      assert d.commonTransitions[i] == DefaultCommon(w.commonTransitions[i], clock, path + [2, i]);
    }
  }

  // ---- Storage ------------------------------------------------------------

  /** No state in the tree carries the type of another variant. */
  predicate FitState(s: State)
    decreases s
  {
    match s
    case SimpleState(i) => i.typeTag == "" || i.typeTag == "SimpleState"
    case ActionState(i, _, entry, exit, doing) =>
      (i.typeTag == "" || i.typeTag == "ActionState") && FitActions(entry) && FitActions(exit) && FitActions(doing)
    case CompositeState(i, entry, exit, _, subs, ts, _) =>
      && (i.typeTag == "" || i.typeTag == "CompositeState")
      && FitActions(entry) && FitActions(exit) && FitStates(subs) && FitTransitions(ts)
  }

  predicate FitStates(ss: seq<State>)
    decreases ss
  {
    forall i :: 0 <= i < |ss| ==> FitState(ss[i])
  }

  predicate FitRef(w: Option<Workflow>)
    decreases w, 0
  {
    w.Some? ==> FitWorkflow(w.value)
  }

  predicate FitActions(actions: seq<Action>)
    decreases actions
  {
    forall i :: 0 <= i < |actions| ==> FitRef(actions[i].childWorkflow)
  }

  predicate FitTransition(t: Transition)
    decreases t
  {
    FitActions(t.entryActions) && forall i :: 0 <= i < |t.forkTargets| ==> FitRef(t.forkTargets[i].childWorkflow)
  }

  predicate FitTransitions(ts: seq<Transition>)
    decreases ts
  {
    forall i :: 0 <= i < |ts| ==> FitTransition(ts[i])
  }

  predicate FitWorkflow(w: Workflow)
    decreases w
  {
    && FitStates(w.states) && FitTransitions(w.transitions)
    && forall i :: 0 <= i < |w.commonTransitions| ==> FitActions(w.commonTransitions[i].entryActions)
  }

  // Storage speaks of lists one element at a time.

  lemma {:induction false} TaggedStatesAt(ss: seq<State>)
    ensures TaggedStates(ss) <==> forall i :: 0 <= i < |ss| ==> TaggedState(ss[i])
  {
    hide TaggedState;
    if ss != [] {
      TaggedStatesAt(ss[1..]);
      assert forall i :: 0 < i < |ss| ==> ss[i] == ss[1..][i - 1];
    }
  }

  lemma {:induction false} TaggedActionsAt(actions: seq<Action>)
    ensures TaggedActions(actions) <==> forall i :: 0 <= i < |actions| ==> TaggedRef(actions[i].childWorkflow)
  {
    hide TaggedRef;
    if actions != [] {
      TaggedActionsAt(actions[1..]);
      assert forall i :: 0 < i < |actions| ==> actions[i] == actions[1..][i - 1];
    }
  }

  lemma {:induction false} TaggedForkTargetsAt(fs: seq<ForkTarget>)
    ensures TaggedForkTargets(fs) <==> forall i :: 0 <= i < |fs| ==> TaggedRef(fs[i].childWorkflow)
  {
    hide TaggedRef;
    if fs != [] {
      TaggedForkTargetsAt(fs[1..]);
      assert forall i :: 0 < i < |fs| ==> fs[i] == fs[1..][i - 1];
    }
  }

  lemma {:induction false} TaggedTransitionsAt(ts: seq<Transition>)
    ensures TaggedTransitions(ts) <==> forall i :: 0 <= i < |ts| ==> TaggedTransition(ts[i])
  {
    hide TaggedTransition;
    if ts != [] {
      TaggedTransitionsAt(ts[1..]);
      assert forall i :: 0 < i < |ts| ==> ts[i] == ts[1..][i - 1];
    }
  }

  lemma {:induction false} TaggedCommonsAt(cs: seq<CommonTransition>)
    ensures TaggedCommons(cs) <==> forall i :: 0 <= i < |cs| ==> TaggedActions(cs[i].entryActions)
  {
    hide TaggedActions;
    if cs != [] {
      TaggedCommonsAt(cs[1..]);
      assert forall i :: 0 < i < |cs| ==> cs[i] == cs[1..][i - 1];
    }
  }

  lemma {:induction false} RefTagged(w: Option<Workflow>, d: Option<Workflow>)
    requires FilledRef(w, d)
    ensures TaggedRef(d) <==> FitRef(w)
    decreases w, 0
  {
    if w.Some? { WorkflowTagged(w.value, d.value); }
  }

  lemma {:induction false} ActionsTagged(actions: seq<Action>, d: seq<Action>)
    requires FilledActions(actions, d)
    ensures TaggedActions(d) <==> FitActions(actions)
    decreases actions
  {
    hide TaggedRef, FitRef, FilledRef, TaggedActions;
    TaggedActionsAt(d);
    forall i | 0 <= i < |actions| ensures TaggedRef(d[i].childWorkflow) <==> FitRef(actions[i].childWorkflow) {
      assert FilledAction(actions[i], d[i]);
      RefTagged(actions[i].childWorkflow, d[i].childWorkflow);
    }
  }

  lemma {:induction false} TransitionTagged(t: Transition, d: Transition)
    requires FilledTransition(t, d)
    ensures TaggedTransition(d) <==> FitTransition(t)
    decreases t
  {
    hide TaggedRef, FitRef, FilledRef, TaggedActions, FitActions, FilledActions, TaggedForkTargets;
    ActionsTagged(t.entryActions, d.entryActions);
    TaggedForkTargetsAt(d.forkTargets);
    forall i | 0 <= i < |t.forkTargets| ensures TaggedRef(d.forkTargets[i].childWorkflow) <==> FitRef(t.forkTargets[i].childWorkflow) {
      RefTagged(t.forkTargets[i].childWorkflow, d.forkTargets[i].childWorkflow);
    }
  }

  lemma {:induction false} TransitionsTagged(ts: seq<Transition>, d: seq<Transition>)
    requires FilledTransitions(ts, d)
    ensures TaggedTransitions(d) <==> FitTransitions(ts)
    decreases ts
  {
    hide TaggedTransition, FitTransition, FilledTransition, TaggedTransitions;
    TaggedTransitionsAt(d);
    forall i | 0 <= i < |ts| ensures TaggedTransition(d[i]) <==> FitTransition(ts[i]) { TransitionTagged(ts[i], d[i]); }
  }

  lemma {:induction false} StateTagged(s: State, d: State)
    requires FilledState(s, d)
    ensures TaggedState(d) <==> FitState(s)
    decreases s
  {
    hide TaggedActions, FitActions, FilledActions, TaggedStates, FitStates, FilledStates, TaggedTransitions, FitTransitions, FilledTransitions;
    if s.ActionState? {
      ActionsTagged(s.entryActions, d.entryActions);
      ActionsTagged(s.exitActions, d.exitActions);
      ActionsTagged(s.doActions, d.doActions);
    } else if s.CompositeState? {
      ActionsTagged(s.entryActions, d.entryActions);
      ActionsTagged(s.exitActions, d.exitActions);
      StatesTagged(s.substates, d.substates);
      TransitionsTagged(s.subTransitions, d.subTransitions);
    }
  }

  lemma {:induction false} StatesTagged(ss: seq<State>, d: seq<State>)
    requires FilledStates(ss, d)
    ensures TaggedStates(d) <==> FitStates(ss)
    decreases ss
  {
    hide TaggedState, FitState, FilledState, TaggedStates;
    TaggedStatesAt(d);
    forall i | 0 <= i < |ss| ensures TaggedState(d[i]) <==> FitState(ss[i]) { StateTagged(ss[i], d[i]); }
  }

  lemma {:induction false} WorkflowTagged(w: Workflow, d: Workflow)
    requires FilledWorkflow(w, d)
    ensures TaggedWorkflow(d) <==> FitWorkflow(w)
    decreases w
  {
    hide TaggedActions, FitActions, FilledActions, TaggedStates, FitStates, FilledStates, TaggedTransitions, FitTransitions, FilledTransitions,
      TaggedCommons, FilledHeader;
    StatesTagged(w.states, d.states);
    TransitionsTagged(w.transitions, d.transitions);
    TaggedCommonsAt(d.commonTransitions);
    forall i | 0 <= i < |w.commonTransitions|
      ensures TaggedActions(d.commonTransitions[i].entryActions) <==> FitActions(w.commonTransitions[i].entryActions)
    {
      assert FilledCommon(w.commonTransitions[i], d.commonTransitions[i]);
      ActionsTagged(w.commonTransitions[i].entryActions, d.commonTransitions[i].entryActions);
    }
  }

  /** Main result: a filled-in definition comes back from storage as it was exactly when
      its author gave no state the type of another variant. A type left out is no
      obstacle: filling in supplies it. */
  lemma FilledInSurvives(w: Workflow, clock: Clock, path: seq<nat>)
    requires Reads(clock)
    ensures
      var d := ApplyDefaults(w, clock, path);
      && (TaggedWorkflow(d) <==> FitWorkflow(w))
      && (DecodeWorkflow(EncodeWorkflow(d)) == Some(d) <==> FitWorkflow(w))
  {
    hide ApplyDefaults, DecodeWorkflow, EncodeWorkflow, FitWorkflow, TaggedWorkflow, FilledWorkflow;
    WorkflowFilled(w, clock, path);
    WorkflowTagged(w, ApplyDefaults(w, clock, path));
    WorkflowRoundTrip(ApplyDefaults(w, clock, path));
  }

  /** And so does every position of an instance of such a definition. */
  lemma FilledInPositionSurvives(w: Workflow, clock: Clock, path: seq<nat>, at: StateContainer)
    requires Reads(clock) && FitWorkflow(w) && at.state in ApplyDefaults(w, clock, path).states
    requires at.substate.Some? ==> at.state.CompositeState? && at.substate.value in at.state.substates
    ensures Scan(Value(Some(at))) == Loaded(Some(at))
  {
    hide ApplyDefaults, Scan, Value, FitWorkflow, FilledWorkflow;
    FilledInSurvives(w, clock, path);
    hide TaggedTransitions, TaggedCommons, TaggedActions, TaggedStates;
    TaggedStatesAt(ApplyDefaults(w, clock, path).states);
    assert TaggedState(at.state);
    if at.substate.Some? { TaggedStatesAt(at.state.substates); }
    PositionRoundTrip(Some(at));
  }
}
