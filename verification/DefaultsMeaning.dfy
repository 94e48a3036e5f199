/** Filling in defaults preserves meaning: a run that succeeds on the definitions as
    authored takes the same transitions, positions and context on the filled-in
    ones, children included. */
module DefaultsMeaning {
  import opened Model
  import opened Defaults
  import opened Persistence
  import opened Lookup
  import opened Children
  import opened Actions
  import opened Transitions
  import opened WorkflowOps
  import opened RunInvariants
  import opened SameMeaning

  // ---- Whole operations ---------------------------------------------------

  lemma ChildrenCompleteRel(e: Env, f: Env, id: string, gen: string)
    requires EnvRel(e, f)
    ensures AllChildrenComplete(e.store, id, gen) == AllChildrenComplete(f.store, id, gen)
  {
    hide WorkflowRel, PositionRel, JourneyRel;
    forall c | c in e.store
      ensures InScope(e.store[c], id, gen) == InScope(f.store[c], id, gen) && e.store[c].complete == f.store[c].complete
    {
      assert RowRel(e.store[c], f.store[c]);
    }
  }

  lemma EndStateRel(d: Workflow, x: Workflow, a: StateContainer, b: StateContainer)
    requires WorkflowRel(d, x) && PositionRel(a, b)
    ensures IsEndState(d, a) == IsEndState(x, b)
  {
    hide StatesRel, TransitionsRel, CommonRel;
    SamePlace(a, b);
  }

  lemma SavedRel(r: Run, q: Run)
    requires RunRel(r, q)
    ensures RowRel(Saved(r), Saved(q))
  {
    hide WorkflowRel, PositionRel, JourneyRel, EnvRel, PhasesRel, TransitionsRel;
    EndStateRel(r.row.def, q.row.def, r.row.current, q.row.current);
  }

  ghost predicate OutcomeRel(o: Outcome, p: Outcome) {
    match o
    case Committed(e, r, n) => p.Committed? && EnvRel(e, p.env) && RunRel(r, p.run) && n == p.notify
    case Refused(e, why, m) => why != StepFailed ==> p.Refused? && EnvRel(e, p.env) && p.why == why && p.moved == m
  }

  lemma CommitRel(w: World, id: string, before: Row, after_: Row, r: Run, q: Run)
    requires RunRel(r, q) && before.complete == after_.complete
    ensures OutcomeRel(Commit(w, id, before, r), Commit(w, id, after_, q))
  {
    hide RowRel, PhasesRel, TransitionsRel, Saved, EnvRel;
    SavedRel(r, q);
    RowParts(Saved(r), Saved(q));
    SameTable(r.env, q.env, id);
    InsertRel(r.env, q.env, r.env.tick + 1, r.env.cohorts, id, Saved(r), Saved(q));
    TickRel(r.env, q.env);
  }

  lemma TickRel(e: Env, f: Env)
    requires EnvRel(e, f)
    ensures EnvRel(e.(tick := e.tick + 1), f.(tick := f.tick + 1))
  {
    hide RowRel;
  }

  lemma BeginRel(r: Row, q: Row, e: Env, f: Env)
    requires RowRel(r, q) && EnvRel(e, f)
    ensures RunRel(Begin(r, e), Begin(q, f))
  {
    hide WorkflowRel, PositionRel, JourneyRel, EnvRel;
  }

  /** One event: a committed one commits with the same effect, and a refusal is the
      same refusal unless an action, a target or the chain failed. */
  lemma ProcessEventRel(w: World, id: string, event: string, e: Env, f: Env)
    requires EnvRel(e, f)
    ensures OutcomeRel(ProcessEvent(w, id, event, e), ProcessEvent(w, id, event, f))
  {
    hide EnvRel, RowRel, RunRel, TransitionRel, StepAndChain, Commit, FindCandidateTransition, AllChildrenComplete, OutcomeRel;
    SameTable(e, f, id);
    if Live(e.store, id) {
      var r, q := e.store[id], f.store[id];
      RowParts(r, q);
      CandidateRel(w, r.def, q.def, r.current, q.current, event, r.contextMap);
      ChildrenCompleteRel(e, f, id, r.pendingForkGeneration);
      var t, u := FindCandidateTransition(w, r.def, r.current, event, r.contextMap), FindCandidateTransition(w, q.def, q.current, event, q.contextMap);
      if t.Some? {
        KindsRel(t.value, u.value);
        BeginRel(r, q, e, f);
        var x := StepAndChain(w, id, t.value, Begin(r, e));
        if x.Done? {
          StepAndChainRel(w, id, t.value, u.value, Begin(r, e), Begin(q, f));
          CommitRel(w, id, r, q, x.run, StepAndChain(w, id, u.value, Begin(q, f)).run);
        }
      }
    }
    RefusedRel(ProcessEvent(w, id, event, e), ProcessEvent(w, id, event, f), e, f);
  }

  lemma RefusedRel(o: Outcome, p: Outcome, e: Env, f: Env)
    requires EnvRel(e, f)
    ensures o.Refused? && o.env == e && p == o.(env := f) ==> OutcomeRel(o, p)
    ensures o.Refused? && o.why == StepFailed ==> OutcomeRel(o, p)
  {
    hide EnvRel;
  }

  lemma FreshRel(def: Workflow, x: Workflow, a: StateContainer, b: StateContainer)
    requires WorkflowRel(def, x) && PositionRel(a, b)
    ensures RowRel(Fresh(def, a), Fresh(x, b))
  {
    hide StatesRel, TransitionsRel, CommonRel;
    SamePlace(a, b);
    EndStateRel(def, x, a, b);
  }

  ghost predicate MadeRel(a: (Env, Option<(string, Run)>), b: (Env, Option<(string, Run)>)) {
    && EnvRel(a.0, b.0) && a.1.Some? && b.1.Some? && a.1.value.0 == b.1.value.0 && RunRel(a.1.value.1, b.1.value.1)
  }

  lemma NewInstanceRel(w: World, def: Workflow, x: Workflow, e: Env, f: Env)
    requires WorkflowRel(def, x) && EnvRel(e, f) && NewInstance(w, def, e).1.Some?
    ensures MadeRel(NewInstance(w, def, e), NewInstance(w, x, f))
  {
    hide EnvRel, RowRel, PositionRel, WorkflowRel, PhasesRel, TransitionsRel, Chain, InitialPosition, Fresh;
    SameTable(e, f, "");
    InitialsRel(def, x);
    var a, b := InitialPosition(def.states[0]).value, InitialPosition(x.states[0]).value;
    var id := w.uuid(e.tick);
    FreshRel(def, x, a, b);
    TickRel(e, f);
    var e1, f1 := e.(tick := e.tick + 1), f.(tick := f.tick + 1);
    BeginRel(Fresh(def, a), Fresh(x, b), e1, f1);
    ChainRel(w, id, Begin(Fresh(def, a), e1), Begin(Fresh(x, b), f1), 0);
    var r, q := Chain(w, id, Begin(Fresh(def, a), e1), 0).run, Chain(w, id, Begin(Fresh(x, b), f1), 0).run;
    SameTable(r.env, q.env, id);
    NewRowRel(def, x, r, q);
    InsertRel(r.env, q.env, r.env.tick + 1, r.env.cohorts, id,
      r.row.(contextMap := r.ctx, complete := IsEndState(def, r.row.current)),
      q.row.(contextMap := q.ctx, complete := IsEndState(x, q.row.current)));
  }

  lemma NewRowRel(def: Workflow, x: Workflow, r: Run, q: Run)
    requires RunRel(r, q) && WorkflowRel(def, x)
    ensures RowRel(r.row.(contextMap := r.ctx, complete := IsEndState(def, r.row.current)),
                   q.row.(contextMap := q.ctx, complete := IsEndState(x, q.row.current)))
  {
    hide WorkflowRel, PositionRel, JourneyRel, EnvRel, PhasesRel, TransitionsRel;
    EndStateRel(def, x, r.row.current, q.row.current);
  }

  lemma WithdrawRel(parentId: string, childId: string, e: Env, f: Env)
    requires EnvRel(e, f)
    ensures EnvRel(Withdraw(parentId, childId, e), Withdraw(parentId, childId, f))
  {
    hide WorkflowRel, PositionRel, JourneyRel;
    if childId in e.store { assert RowRel(e.store[childId], f.store[childId]); }
  }

  // ---- Whole runs ---------------------------------------------------------

  ghost predicate LogRel(a: Log, b: Log) {
    PhasesRel(a.trace, b.trace) && TransitionsRel(a.applied, b.applied) && a.commits == b.commits
  }

  ghost predicate SysRel(s: Sys, z: Sys) {
    EnvRel(s.env, z.env) && forall id :: LogRel(s.LogOf(id), z.LogOf(id))
  }

  ghost predicate OpRel(a: Op, b: Op) {
    match a
    case New(def) => b.New? && WorkflowRel(def, b.def)
    case Event(id, event) => b == a
    case Child(parentId, def) => b.Child? && b.parentId == parentId && WorkflowRel(def, b.def)
    case WithdrawChild(_, _) => b == a
  }

  /** An operation that does what it is for, or is refused before it starts. */
  predicate Succeeds(w: World, op: Op, s: Sys) {
    match op
    case New(def) => NewInstance(w, def, s.env).1.Some?
    case Event(id, event) =>
      var o := ProcessEvent(w, id, event, s.env);
      o.Refused? ==> o.why != StepFailed
    case Child(parentId, def) => CreateChild(w, parentId, def, "", s.env).1.Some?
    case WithdrawChild(_, _) => true
  }

  predicate AllSucceed(w: World, ops: seq<Op>) {
    ops != [] ==>
      AllSucceed(w, ops[..|ops| - 1]) && Succeeds(w, ops[|ops| - 1], PerformAll(w, ops[..|ops| - 1], EMPTY))
  }

  lemma EventRel(w: World, id: string, event: string, s: Sys, z: Sys)
    requires SysRel(s, z) && Succeeds(w, Event(id, event), s)
    ensures SysRel(Perform(w, Event(id, event), s), Perform(w, Event(id, event), z))
  {
    hide EnvRel, RowRel, PhaseRel, TransitionRel, ProcessEvent;
    ProcessEventRel(w, id, event, s.env, z.env);
    var n, m := Perform(w, Event(id, event), s), Perform(w, Event(id, event), z);
    forall k ensures LogRel(n.LogOf(k), m.LogOf(k)) {
      assert LogRel(s.LogOf(k), z.LogOf(k));
    }
  }

  lemma PerformRel(w: World, a: Op, b: Op, s: Sys, z: Sys)
    requires SysRel(s, z) && OpRel(a, b) && Succeeds(w, a, s)
    ensures SysRel(Perform(w, a, s), Perform(w, b, z))
  {
    hide Perform, SysRel, WorkflowRel;
    match a
    case New(def) => NewRel(w, def, b.def, s, z);
    case Event(id, event) => EventRel(w, id, event, s, z);
    case Child(parentId, def) => ChildRel(w, parentId, def, b.def, s, z);
    case WithdrawChild(parentId, childId) => WithdrawnRel(w, parentId, childId, s, z);
  }

  lemma NewRel(w: World, def: Workflow, x: Workflow, s: Sys, z: Sys)
    requires SysRel(s, z) && WorkflowRel(def, x) && Succeeds(w, New(def), s)
    ensures SysRel(Perform(w, New(def), s), Perform(w, New(x), z))
  {
    hide EnvRel, PhasesRel, TransitionsRel, NewInstance, WorkflowRel, RowRel;
    NewInstanceRel(w, def, x, s.env, z.env);
    var n, m := Perform(w, New(def), s), Perform(w, New(x), z);
    forall k ensures LogRel(n.LogOf(k), m.LogOf(k)) {
      assert LogRel(s.LogOf(k), z.LogOf(k));
    }
  }

  lemma ChildRel(w: World, parentId: string, def: Workflow, x: Workflow, s: Sys, z: Sys)
    requires SysRel(s, z) && WorkflowRel(def, x) && Succeeds(w, Child(parentId, def), s)
    ensures SysRel(Perform(w, Child(parentId, def), s), Perform(w, Child(parentId, x), z))
  {
    hide EnvRel, PhasesRel, TransitionsRel, CreateChild, WorkflowRel;
    CreateChildRel(w, parentId, def, x, "", s.env, z.env);
    SameLogs(s, z, Perform(w, Child(parentId, def), s), Perform(w, Child(parentId, x), z));
  }

  lemma WithdrawnRel(w: World, parentId: string, childId: string, s: Sys, z: Sys)
    requires SysRel(s, z)
    ensures SysRel(Perform(w, WithdrawChild(parentId, childId), s), Perform(w, WithdrawChild(parentId, childId), z))
  {
    hide EnvRel, PhasesRel, TransitionsRel, Withdraw;
    WithdrawRel(parentId, childId, s.env, z.env);
    SameLogs(s, z, Perform(w, WithdrawChild(parentId, childId), s), Perform(w, WithdrawChild(parentId, childId), z));
  }

  lemma SameLogs(s: Sys, z: Sys, n: Sys, m: Sys)
    requires SysRel(s, z) && n.logs == s.logs && m.logs == z.logs && EnvRel(n.env, m.env)
    ensures SysRel(n, m)
  {
    hide EnvRel, PhasesRel, TransitionsRel;
    forall k ensures LogRel(n.LogOf(k), m.LogOf(k)) {
      assert LogRel(s.LogOf(k), z.LogOf(k));
    }
  }

  lemma {:induction false} RunsRel(w: World, ops: seq<Op>, others: seq<Op>)
    requires |ops| == |others| && (forall i :: 0 <= i < |ops| ==> OpRel(ops[i], others[i])) && AllSucceed(w, ops)
    ensures SysRel(PerformAll(w, ops, EMPTY), PerformAll(w, others, EMPTY))
  {
    hide Perform, OpRel, Succeeds;
    if ops != [] {
      var n := |ops| - 1;
      hide SysRel;
      RunsRel(w, ops[..n], others[..n]);
      PerformRel(w, ops[n], others[n], PerformAll(w, ops[..n], EMPTY), PerformAll(w, others[..n], EMPTY));
    } else {
      EmptyRel();
    }
  }

  lemma EmptyRel()
    ensures SysRel(EMPTY, EMPTY)
  {}

  // ---- Defaults are such a change -----------------------------------------

  /** A composite without an initial substate has no substate that an empty id
      would find, other than the first. */
  predicate ClearEntry(initial: string, substates: seq<State>) {
    initial == "" ==> FirstId(substates) == "" || FindState(substates, "").None?
  }

  predicate ClearRef(w: Option<Workflow>)
    decreases w, 0
  {
    w.Some? ==> ClearWorkflow(w.value)
  }

  predicate ClearActions(actions: seq<Action>)
    decreases actions
  {
    forall i :: 0 <= i < |actions| ==> ClearRef(actions[i].childWorkflow)
  }

  predicate ClearTransition(t: Transition)
    decreases t
  {
    ClearActions(t.entryActions) && forall i :: 0 <= i < |t.forkTargets| ==> ClearRef(t.forkTargets[i].childWorkflow)
  }

  predicate ClearTransitions(ts: seq<Transition>)
    decreases ts
  {
    forall i :: 0 <= i < |ts| ==> ClearTransition(ts[i])
  }

  predicate ClearState(s: State)
    decreases s
  {
    match s
    case SimpleState(_) => true
    case ActionState(_, _, entry, exit, doActions) => ClearActions(entry) && ClearActions(exit) && ClearActions(doActions)
    case CompositeState(_, entry, exit, initial, substates, subTransitions, _) =>
      && ClearActions(entry) && ClearActions(exit) && ClearEntry(initial, substates)
      && ClearStates(substates) && ClearTransitions(subTransitions)
  }

  predicate ClearStates(ss: seq<State>)
    decreases ss
  {
    forall i :: 0 <= i < |ss| ==> ClearState(ss[i])
  }

  predicate ClearWorkflow(w: Workflow)
    decreases w
  {
    && ClearStates(w.states) && ClearTransitions(w.transitions)
    && forall i :: 0 <= i < |w.commonTransitions| ==> ClearActions(w.commonTransitions[i].entryActions)
  }

  // ---- Definitions whose states have ids ----------------------------------

  predicate NamedRef(w: Option<Workflow>)
    decreases w, 0
  {
    w.Some? ==> NamedWorkflow(w.value)
  }

  predicate NamedActions(actions: seq<Action>)
    decreases actions
  {
    forall i :: 0 <= i < |actions| ==> NamedRef(actions[i].childWorkflow)
  }

  predicate NamedTransition(t: Transition)
    decreases t
  {
    NamedActions(t.entryActions) && forall i :: 0 <= i < |t.forkTargets| ==> NamedRef(t.forkTargets[i].childWorkflow)
  }

  predicate NamedTransitions(ts: seq<Transition>)
    decreases ts
  {
    forall i :: 0 <= i < |ts| ==> NamedTransition(ts[i])
  }

  predicate NamedState(s: State)
    decreases s
  {
    && s.info.id != ""
    && match s
       case SimpleState(_) => true
       case ActionState(_, _, entry, exit, doActions) => NamedActions(entry) && NamedActions(exit) && NamedActions(doActions)
       case CompositeState(_, entry, exit, _, substates, subTransitions, _) =>
         NamedActions(entry) && NamedActions(exit) && NamedStates(substates) && NamedTransitions(subTransitions)
  }

  predicate NamedStates(ss: seq<State>)
    decreases ss
  {
    forall i :: 0 <= i < |ss| ==> NamedState(ss[i])
  }

  /** Every state of the tree, nested workflows included, has an id. */
  predicate NamedWorkflow(w: Workflow)
    decreases w
  {
    && NamedStates(w.states) && NamedTransitions(w.transitions)
    && forall i :: 0 <= i < |w.commonTransitions| ==> NamedActions(w.commonTransitions[i].entryActions)
  }

  lemma NamedEntry(initial: string, substates: seq<State>)
    requires NamedStates(substates)
    ensures ClearEntry(initial, substates)
  {
    assert forall i :: 0 <= i < |substates| ==> NamedState(substates[i]) && substates[i].Id() != "";
  }

  lemma {:induction false} NamedActionsClear(actions: seq<Action>)
    requires NamedActions(actions)
    ensures ClearActions(actions)
    decreases actions
  {
    hide NamedWorkflow, ClearWorkflow;
    forall i | 0 <= i < |actions| ensures ClearRef(actions[i].childWorkflow) {
      assert NamedRef(actions[i].childWorkflow);
      if actions[i].childWorkflow.Some? { NamedIsClear(actions[i].childWorkflow.value); }
    }
  }

  lemma {:induction false} NamedTransitionsClear(ts: seq<Transition>)
    requires NamedTransitions(ts)
    ensures ClearTransitions(ts)
    decreases ts
  {
    hide NamedWorkflow, ClearWorkflow, NamedActions, ClearActions;
    forall i | 0 <= i < |ts| ensures ClearTransition(ts[i]) {
      assert NamedTransition(ts[i]);
      NamedActionsClear(ts[i].entryActions);
      forall j | 0 <= j < |ts[i].forkTargets| ensures ClearRef(ts[i].forkTargets[j].childWorkflow) {
        assert NamedRef(ts[i].forkTargets[j].childWorkflow);
        if ts[i].forkTargets[j].childWorkflow.Some? { NamedIsClear(ts[i].forkTargets[j].childWorkflow.value); }
      }
    }
  }

  lemma {:induction false} NamedStatesClear(ss: seq<State>)
    requires NamedStates(ss)
    ensures ClearStates(ss)
    decreases ss
  {
    hide NamedState, ClearState;
    forall i | 0 <= i < |ss| ensures ClearState(ss[i]) {
      NamedStateClear(ss[i]);
    }
  }

  lemma {:induction false} NamedStateClear(s: State)
    requires NamedState(s)
    ensures ClearState(s)
    decreases s
  {
    hide NamedActions, ClearActions, NamedStates, ClearStates, NamedTransitions, ClearTransitions, ClearEntry;
    if s.ActionState? {
      NamedActionsClear(s.entryActions);
      NamedActionsClear(s.exitActions);
      NamedActionsClear(s.doActions);
    } else if s.CompositeState? {
      NamedActionsClear(s.entryActions);
      NamedActionsClear(s.exitActions);
      NamedEntry(s.initialSubstate, s.substates);
      NamedStatesClear(s.substates);
      NamedTransitionsClear(s.subTransitions);
    }
  }

  /** A definition whose states all have ids has clear entries only. */
  lemma {:induction false} NamedIsClear(w: Workflow)
    requires NamedWorkflow(w)
    ensures ClearWorkflow(w)
    decreases w
  {
    hide NamedActions, ClearActions, NamedStates, ClearStates, NamedTransitions, ClearTransitions;
    NamedStatesClear(w.states);
    NamedTransitionsClear(w.transitions);
    forall i | 0 <= i < |w.commonTransitions| ensures ClearActions(w.commonTransitions[i].entryActions) {
      NamedActionsClear(w.commonTransitions[i].entryActions);
    }
  }

  // ---- Defaults are related to what they fill in ---------------------------

  lemma {:induction false} DefaultRefRel(w: Option<Workflow>, clock: Clock, path: seq<nat>)
    ensures w.Some? ==> (WorkflowRel(w.value, ApplyDefaults(w.value, clock, path)) <==> ClearWorkflow(w.value))
    decreases w, 0
  {
    if w.Some? { DefaultsRel(w.value, clock, path); }
  }

  lemma {:induction false} DefaultActionsRel(actions: seq<Action>, clock: Clock, path: seq<nat>)
    ensures ActionsRel(actions, DefaultActions(actions, clock, path)) <==> ClearActions(actions)
    decreases actions
  {
    hide WorkflowRel, ClearWorkflow, ApplyDefaults;
    forall i | 0 <= i < |actions|
      ensures ActionRel(actions[i], DefaultAction(actions[i], clock, path + [i])) <==> ClearRef(actions[i].childWorkflow)
    {
      DefaultRefRel(actions[i].childWorkflow, clock, path + [i]);
    }
    var d := DefaultActions(actions, clock, path);
    assert forall i :: 0 <= i < |actions| ==> d[i] == DefaultAction(actions[i], clock, path + [i]);
    hide ActionRel, ClearRef;
  }

  lemma {:induction false} DefaultTransitionRel(t: Transition, clock: Clock, path: seq<nat>)
    ensures TransitionRel(t, DefaultTransition(t, clock, path)) <==> ClearTransition(t)
    decreases t
  {
    hide WorkflowRel, ClearWorkflow, ApplyDefaults, DefaultActions, ActionsRel, ClearActions;
    DefaultActionsRel(t.entryActions, clock, path + [0]);
    var d := DefaultTransition(t, clock, path);
    forall i | 0 <= i < |t.forkTargets|
      ensures RefRel(t.forkTargets[i].childWorkflow, d.forkTargets[i].childWorkflow) <==> ClearRef(t.forkTargets[i].childWorkflow)
    {
      DefaultRefRel(t.forkTargets[i].childWorkflow, clock, path + [1, i]);
      assert d.forkTargets[i] == DefaultForkTarget(t.forkTargets[i], clock, path + [1, i]);
    }
    hide RefRel, ClearRef;
  }

  lemma {:induction false} DefaultTransitionsRel(ts: seq<Transition>, clock: Clock, path: seq<nat>)
    ensures TransitionsRel(ts, DefaultTransitions(ts, clock, path)) <==> ClearTransitions(ts)
    decreases ts
  {
    hide TransitionRel, ClearTransition, DefaultTransition;
    forall i | 0 <= i < |ts| ensures TransitionRel(ts[i], DefaultTransition(ts[i], clock, path + [i])) <==> ClearTransition(ts[i]) {
      DefaultTransitionRel(ts[i], clock, path + [i]);
    }
    var d := DefaultTransitions(ts, clock, path);
    assert forall i :: 0 <= i < |ts| ==> d[i] == DefaultTransition(ts[i], clock, path + [i]);
  }

  lemma {:induction false} DefaultStatesRel(ss: seq<State>, clock: Clock, path: seq<nat>)
    ensures StatesRel(ss, DefaultStates(ss, clock, path)) <==> ClearStates(ss)
    decreases ss
  {
    hide StateRel, ClearState, DefaultState;
    forall i | 0 <= i < |ss| ensures StateRel(ss[i], DefaultState(ss[i], clock, path + [i])) <==> ClearState(ss[i]) {
      DefaultStateRel(ss[i], clock, path + [i]);
    }
    var d := DefaultStates(ss, clock, path);
    assert forall i :: 0 <= i < |ss| ==> d[i] == DefaultState(ss[i], clock, path + [i]);
  }

  lemma {:induction false} DefaultStateRel(s: State, clock: Clock, path: seq<nat>)
    ensures StateRel(s, DefaultState(s, clock, path)) <==> ClearState(s)
    decreases s
  {
    hide ActionsRel, ClearActions, DefaultActions, StatesRel, ClearStates, DefaultStates, TransitionsRel, ClearTransitions, DefaultTransitions;
    if s.ActionState? {
      DefaultActionsRel(s.entryActions, clock, path + [0]);
      DefaultActionsRel(s.exitActions, clock, path + [1]);
      DefaultActionsRel(s.doActions, clock, path + [2]);
    } else if s.CompositeState? {
      DefaultActionsRel(s.entryActions, clock, path + [0]);
      DefaultActionsRel(s.exitActions, clock, path + [1]);
      DefaultStatesRel(s.substates, clock, path + [2]);
      DefaultTransitionsRel(s.subTransitions, clock, path + [3]);
    }
  }

  /** The filled-in definition means the same exactly when every composite's entry is
      clear, here and in every nested workflow. */
  lemma {:induction false} DefaultsRel(wf: Workflow, clock: Clock, path: seq<nat>)
    ensures WorkflowRel(wf, ApplyDefaults(wf, clock, path)) <==> ClearWorkflow(wf)
    decreases wf
  {
    hide StatesRel, ClearStates, DefaultStates, TransitionsRel, ClearTransitions, DefaultTransitions, ActionsRel, ClearActions, DefaultActions;
    DefaultStatesRel(wf.states, clock, path + [0]);
    DefaultTransitionsRel(wf.transitions, clock, path + [1]);
    var d := ApplyDefaults(wf, clock, path);
    forall i | 0 <= i < |wf.commonTransitions|
      ensures CommonRel(wf.commonTransitions[i], d.commonTransitions[i]) <==> ClearActions(wf.commonTransitions[i].entryActions)
    {
      DefaultActionsRel(wf.commonTransitions[i].entryActions, clock, path + [2, i]);
      assert d.commonTransitions[i] == DefaultCommon(wf.commonTransitions[i], clock, path + [2, i]);
    }
    hide CommonRel;
  }

  // ---- The promise --------------------------------------------------------

  function DefaultOp(op: Op, clock: Clock): Op {
    match op
    case New(def) => New(ApplyDefaults(def, clock, []))
    case Child(parentId, def) => Child(parentId, ApplyDefaults(def, clock, []))
    case Event(_, _) => op
    case WithdrawChild(_, _) => op
  }

  predicate ClearOp(op: Op) {
    op.New? || op.Child? ==> ClearWorkflow(op.def)
  }

  /** Main result: take any run whose operations all succeed. With every definition
      filled in first, each at a time of its own, the same operations lead to the
      same instances: the same positions, contexts, histories, counts and
      generations, the same entries, exits and transitions, and the same journeys up
      to labels that were left out. */
  lemma DefaultsPreserveRuns(w: World, ops: seq<Op>, clocks: nat -> Clock)
    requires (forall i :: 0 <= i < |ops| ==> ClearOp(ops[i])) && AllSucceed(w, ops)
    ensures SysRel(After(w, ops), After(w, seq(|ops|, i requires 0 <= i < |ops| => DefaultOp(ops[i], clocks(i)))))
  {
    hide WorkflowRel, ClearWorkflow, ApplyDefaults, SysRel, AllSucceed, PerformAll;
    var others := seq(|ops|, i requires 0 <= i < |ops| => DefaultOp(ops[i], clocks(i)));
    forall i | 0 <= i < |ops| ensures OpRel(ops[i], others[i]) {
      assert ClearOp(ops[i]) && others[i] == DefaultOp(ops[i], clocks(i));
      if ops[i].New? || ops[i].Child? { DefaultsRel(ops[i].def, clocks(i), []); }
    }
    RunsRel(w, ops, others);
  }

  /** In particular for definitions whose states all have ids. */
  lemma NamedRunsPreserved(w: World, ops: seq<Op>, clocks: nat -> Clock)
    requires (forall i :: 0 <= i < |ops| && (ops[i].New? || ops[i].Child?) ==> NamedWorkflow(ops[i].def)) && AllSucceed(w, ops)
    ensures SysRel(After(w, ops), After(w, seq(|ops|, i requires 0 <= i < |ops| => DefaultOp(ops[i], clocks(i)))))
  {
    hide NamedWorkflow, ClearWorkflow, SysRel, AllSucceed, PerformAll, ApplyDefaults;
    forall i | 0 <= i < |ops| ensures ClearOp(ops[i]) {
      if ops[i].New? || ops[i].Child? { NamedIsClear(ops[i].def); }
    }
    DefaultsPreserveRuns(w, ops, clocks);
  }

  /** What happens to a composite without an initial substate. As authored it cannot
      be entered, unless a substate has an empty id, which is then entered; filled in,
      it is entered at its first substate. So only successful runs are preserved, and
      only with clear entries. */
  lemma EntryFilledIn(s: State, clock: Clock, path: seq<nat>)
    requires s.CompositeState? && s.initialSubstate == "" && s.substates != []
    ensures
      var d := DefaultState(s, clock, path);
      && InitialPosition(d).Some? && InitialPosition(d).value.SubstateId() == s.substates[0].Id()
      && (if ClearEntry(s.initialSubstate, s.substates)
          then s.substates[0].Id() != "" ==> InitialPosition(s).None?
          else InitialPosition(s).Some? && InitialPosition(s).value.SubstateId() == "" != s.substates[0].Id())
  {
    var d := DefaultState(s, clock, path);
    assert d.substates == DefaultStates(s.substates, clock, path + [2]);
    assert d.substates[0] == DefaultState(s.substates[0], clock, path + [2] + [0]);
    assert d.substates[0].Id() == d.initialSubstate;
  }
}
