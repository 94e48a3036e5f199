/** When two definitions mean the same to the engine, and the proof that they do:
    whatever the first one does successfully, the second one does too. The two may
    differ in what the engine never looks at, in an absent trigger, kind or verb
    against its default, and where the first one cannot be entered at all. */
module SameMeaning {
  import opened Model
  import opened Defaults
  import opened Persistence
  import opened Interpolation
  import opened Lookup
  import opened Children
  import opened Actions
  import opened Transitions
  import opened WorkflowOps
  import opened RunInvariants

  // ---- The relation -------------------------------------------------------

  predicate RefRel(a: Option<Workflow>, b: Option<Workflow>)
    decreases a, 0
  {
    a.Some? == b.Some? && (a.Some? ==> WorkflowRel(a.value, b.value))
  }

  predicate ActionRel(a: Action, b: Action)
    decreases a
  {
    && a.actionType == b.actionType && Or(a.httpMethod, "GET") == Or(b.httpMethod, "GET") && a.url == b.url
    && a.expectResponse == b.expectResponse && a.forwardToken == b.forwardToken && a.variables == b.variables
    && RefRel(a.childWorkflow, b.childWorkflow)
  }

  predicate ActionsRel(as_: seq<Action>, bs: seq<Action>)
    decreases as_
  {
    |as_| == |bs| && forall i :: 0 <= i < |as_| ==> ActionRel(as_[i], bs[i])
  }

  predicate TransitionRel(t: Transition, u: Transition)
    decreases t
  {
    && DefaultTrigger(t.trigger) == DefaultTrigger(u.trigger) && DefaultKind(t.kind) == DefaultKind(u.kind)
    && t.source == u.source && t.target == u.target && t.event == u.event && t.guard == u.guard && t.join == u.join
    && t.after == u.after && t.entersHistory == u.entersHistory && ActionsRel(t.entryActions, u.entryActions)
    && |t.forkTargets| == |u.forkTargets|
    && forall i :: 0 <= i < |t.forkTargets| ==> RefRel(t.forkTargets[i].childWorkflow, u.forkTargets[i].childWorkflow)
  }

  predicate TransitionsRel(ts: seq<Transition>, us: seq<Transition>)
    decreases ts
  {
    |ts| == |us| && forall i :: 0 <= i < |ts| ==> TransitionRel(ts[i], us[i])
  }

  predicate CommonRel(c: CommonTransition, d: CommonTransition)
    decreases c
  {
    && DefaultTrigger(c.trigger) == DefaultTrigger(d.trigger) && DefaultKind(c.kind) == DefaultKind(d.kind)
    && c.sourceList == d.sourceList && c.target == d.target && c.event == d.event && c.guard == d.guard
    && ActionsRel(c.entryActions, d.entryActions)
  }

  predicate StateRel(s: State, d: State)
    decreases s
  {
    && s.info.id == d.info.id
    && match s
       case SimpleState(_) => d.SimpleState?
       case ActionState(_, _, entry, exit, doActions) =>
         && d.ActionState? && ActionsRel(entry, d.entryActions) && ActionsRel(exit, d.exitActions)
         && ActionsRel(doActions, d.doActions)
       case CompositeState(_, entry, exit, initial, substates, subTransitions, history) =>
         && d.CompositeState? && ActionsRel(entry, d.entryActions) && ActionsRel(exit, d.exitActions)
         && (d.initialSubstate == initial || FindState(substates, initial).None?)
         && StatesRel(substates, d.substates) && TransitionsRel(subTransitions, d.subTransitions) && d.history == history
  }

  predicate StatesRel(ss: seq<State>, ds: seq<State>)
    decreases ss
  {
    |ss| == |ds| && forall i :: 0 <= i < |ss| ==> StateRel(ss[i], ds[i])
  }

  predicate WorkflowRel(w: Workflow, x: Workflow)
    decreases w
  {
    && StatesRel(w.states, x.states) && TransitionsRel(w.transitions, x.transitions) && w.endStates == x.endStates
    && |w.commonTransitions| == |x.commonTransitions|
    && forall i :: 0 <= i < |w.commonTransitions| ==> CommonRel(w.commonTransitions[i], x.commonTransitions[i])
  }

  // ---- Related instances --------------------------------------------------

  predicate PositionRel(a: StateContainer, b: StateContainer) {
    && StateRel(a.state, b.state) && a.substate.Some? == b.substate.Some?
    && (a.substate.Some? ==> StateRel(a.substate.value, b.substate.value))
  }

  predicate MaybePositionRel(a: Option<StateContainer>, b: Option<StateContainer>) {
    a.Some? == b.Some? && (a.Some? ==> PositionRel(a.value, b.value))
  }

  /** The same step, up to an absent label against its default. */
  predicate EntryRel(e: JourneyEntry, f: JourneyEntry) {
    e.(trigger := DefaultTrigger(e.trigger), kind := DefaultKind(e.kind))
    == f.(trigger := DefaultTrigger(f.trigger), kind := DefaultKind(f.kind))
  }

  predicate JourneyRel(a: seq<JourneyEntry>, b: seq<JourneyEntry>) {
    |a| == |b| && forall i :: 0 <= i < |a| ==> EntryRel(a[i], b[i])
  }

  /** The same instance, of a related definition. */
  predicate RowRel(r: Row, q: Row) {
    && r.parentId == q.parentId && WorkflowRel(r.def, q.def) && PositionRel(r.current, q.current)
    && r.lastTransition == q.lastTransition && r.contextMap == q.contextMap && r.compositeHistory == q.compositeHistory
    && JourneyRel(r.journey, q.journey) && r.version == q.version && r.complete == q.complete
    && r.forkGeneration == q.forkGeneration && r.pendingForkGeneration == q.pendingForkGeneration && r.deleted == q.deleted
  }

  ghost predicate EnvRel(e: Env, f: Env) {
    && e.tick == f.tick && e.cohorts == f.cohorts && e.store.Keys == f.store.Keys
    && forall k :: k in e.store ==> RowRel(e.store[k], f.store[k])
  }

  predicate PhaseRel(p: Phase, q: Phase) {
    && (p.ExitSub? == q.ExitSub?) && (p.ExitTop? == q.ExitTop?) && (p.EnterTop? == q.EnterTop?) && StateRel(p.s, q.s)
  }

  predicate PhasesRel(ps: seq<Phase>, qs: seq<Phase>) {
    |ps| == |qs| && forall i :: 0 <= i < |ps| ==> PhaseRel(ps[i], qs[i])
  }

  ghost predicate RunRel(r: Run, q: Run) {
    && RowRel(r.row, q.row) && r.ctx == q.ctx && EnvRel(r.env, q.env) && r.moved == q.moved
    && PhasesRel(r.trace, q.trace) && TransitionsRel(r.applied, q.applied)
  }

  ghost predicate ExecRel(e: Exec, f: Exec) {
    e.ok && f.ok && e.ctx == f.ctx && EnvRel(e.env, f.env)
  }

  // ---- Finding things -----------------------------------------------------

  /** Two lists that agree on a test have their first match at the same place. */
  lemma {:induction false} FirstSame<T(!new), U(!new)>(xs: seq<T>, ys: seq<U>, p: T -> bool, q: U -> bool)
    requires |xs| == |ys| && forall i :: 0 <= i < |xs| ==> p(xs[i]) == q(ys[i])
    ensures First(xs, p).Some? == First(ys, q).Some?
    ensures First(xs, p).Some? ==> exists i :: 0 <= i < |xs| && First(xs, p) == Some(xs[i]) && First(ys, q) == Some(ys[i])
  {
    if xs != [] && !p(xs[0]) {
      FirstSame(xs[1..], ys[1..], p, q);
      if First(xs[1..], p).Some? {
        var i :| 0 <= i < |xs[1..]| && First(xs[1..], p) == Some(xs[1..][i]) && First(ys[1..], q) == Some(ys[1..][i]);
        assert First(xs, p) == Some(xs[i + 1]) && First(ys, q) == Some(ys[i + 1]);
      }
    }
  }

  predicate MaybeStateRel(a: Option<State>, b: Option<State>) {
    a.Some? == b.Some? && (a.Some? ==> StateRel(a.value, b.value))
  }

  lemma StateIds(ss: seq<State>, ds: seq<State>, i: nat)
    requires StatesRel(ss, ds) && i < |ss|
    ensures ss[i].Id() == ds[i].Id()
  {}

  lemma FindStateRel(ss: seq<State>, ds: seq<State>, id: string)
    requires StatesRel(ss, ds)
    ensures MaybeStateRel(FindState(ss, id), FindState(ds, id))
  {
    FirstSame(ss, ds, (x: State) => x.Id() == id, (x: State) => x.Id() == id);
  }

  predicate MaybeTransitionRel(a: Option<Transition>, b: Option<Transition>) {
    a.Some? == b.Some? && (a.Some? ==> TransitionRel(a.value, b.value))
  }

  /** A test a lookup may apply: it looks at nothing the relation leaves open. */
  ghost predicate Agrees(p: Transition -> bool) {
    forall t, u :: TransitionRel(t, u) ==> p(t) == p(u)
  }

  lemma FiresAgrees(w: World, event: string, ctx: Context)
    ensures Agrees(Fires(w, event, ctx)) && Agrees(FiresNow(w, ctx))
  {}

  lemma FirstTransitionRel(ts: seq<Transition>, us: seq<Transition>, source: string, p: Transition -> bool)
    requires TransitionsRel(ts, us) && Agrees(p)
    ensures MaybeTransitionRel(First(ts, Both(SourceIs(source), p)), First(us, Both(SourceIs(source), p)))
  {
    FirstSame(ts, us, Both(SourceIs(source), p), Both(SourceIs(source), p));
  }

  /** The scopes searched one by one. */
  lemma SearchInOrder(def: Workflow, at: StateContainer, p: Transition -> bool)
    ensures
      var top := First(def.transitions, Both(SourceIs(at.state.Id()), p));
      SearchScopes(Scopes(def, at), p) ==
        if at.substate.Some? && at.state.CompositeState? then
          (match First(at.state.subTransitions, Both(SourceIs(at.substate.value.Id()), p)) case Some(t) => Some(t) case None => top)
        else top
  {
    var last := [Scope(def.transitions, at.state.Id())];
    assert last[1..] == [];
    assert SearchScopes(last, p) == First(def.transitions, Both(SourceIs(at.state.Id()), p));
    if at.substate.Some? && at.state.CompositeState? {
      assert Scopes(def, at)[1..] == last;
    } else {
      assert Scopes(def, at) == last;
    }
  }

  lemma SearchRel(w: Workflow, x: Workflow, a: StateContainer, b: StateContainer, p: Transition -> bool)
    requires WorkflowRel(w, x) && PositionRel(a, b) && Agrees(p)
    ensures MaybeTransitionRel(SearchScopes(Scopes(w, a), p), SearchScopes(Scopes(x, b), p))
  {
    hide TransitionsRel, Agrees, TransitionRel, ActionsRel;
    SearchInOrder(w, a, p);
    SearchInOrder(x, b, p);
    FirstTransitionRel(w.transitions, x.transitions, a.state.Id(), p);
    if a.substate.Some? && a.state.CompositeState? {
      FirstTransitionRel(a.state.subTransitions, b.state.subTransitions, a.substate.value.Id(), p);
    }
  }

  lemma CandidateRel(w: World, d: Workflow, x: Workflow, a: StateContainer, b: StateContainer, event: string, ctx: Context)
    requires WorkflowRel(d, x) && PositionRel(a, b)
    ensures MaybeTransitionRel(FindCandidateTransition(w, d, a, event, ctx), FindCandidateTransition(w, x, b, event, ctx))
  {
    hide SearchScopes, Scopes, Enabled, ActionsRel, TransitionsRel, StatesRel;
    FiresAgrees(w, event, ctx);
    SearchRel(d, x, a, b, Fires(w, event, ctx));
    FirstSame(d.commonTransitions, x.commonTransitions,
      CommonFires(w, a.state.Id(), event, ctx), CommonFires(w, a.state.Id(), event, ctx));
  }

  lemma AutomaticRel(w: World, d: Workflow, x: Workflow, a: StateContainer, b: StateContainer, ctx: Context)
    requires WorkflowRel(d, x) && PositionRel(a, b)
    ensures MaybeTransitionRel(FindAutomaticTransition(w, d, a, ctx), FindAutomaticTransition(w, x, b, ctx))
  {
    hide SearchScopes, Scopes, Agrees, PositionRel, WorkflowRel, MaybeTransitionRel;
    FiresAgrees(w, "", ctx);
    SearchRel(d, x, a, b, FiresNow(w, ctx));
  }

  // ---- Creating children --------------------------------------------------

  lemma InitialRel(s: State, d: State)
    requires StateRel(s, d) && InitialPosition(s).Some?
    ensures MaybePositionRel(InitialPosition(s), InitialPosition(d))
  {
    hide ActionsRel, TransitionsRel, StatesRel;
    if s.CompositeState? { FindStateRel(s.substates, d.substates, s.initialSubstate); }
  }

  lemma ChildRowRel(parentId: string, def: Workflow, x: Workflow, gen: string, a: StateContainer, b: StateContainer)
    requires WorkflowRel(def, x) && PositionRel(a, b)
    ensures RowRel(ChildRow(parentId, def, gen, a), ChildRow(parentId, x, gen, b))
  {
    hide StatesRel, TransitionsRel, CommonRel;
  }

  lemma InsertRel(e: Env, f: Env, tick: nat, cohorts: map<string, Cohort>, id: string, r: Row, q: Row)
    requires EnvRel(e, f) && RowRel(r, q)
    ensures EnvRel(Env(tick, e.store[id := r], cohorts), Env(tick, f.store[id := q], cohorts))
  {
    hide RowRel;
  }

  lemma CreateChildRel(w: World, parentId: string, def: Workflow, x: Workflow, gen: string, e: Env, f: Env)
    requires WorkflowRel(def, x) && EnvRel(e, f) && CreateChild(w, parentId, def, gen, e).1.Some?
    ensures
      var (e', id) := CreateChild(w, parentId, def, gen, e);
      var (f', id') := CreateChild(w, parentId, x, gen, f);
      id' == id && EnvRel(e', f')
  {
    hide CreateChild, ChildRow, InitialPosition, WorkflowRel, PositionRel, RowRel, EnvRel, Record;
    CreateChildShape(w, parentId, def, gen, e);
    CreateChildShape(w, parentId, x, gen, f);
    InitialsRel(def, x);
    SameTable(e, f, parentId);
    var a, b := InitialPosition(def.states[0]).value, InitialPosition(x.states[0]).value;
    ChildRowRel(parentId, def, x, gen, a, b);
    InsertRel(e, f, e.tick + 1, Record(e.cohorts, gen, parentId, w.uuid(e.tick)), w.uuid(e.tick),
              ChildRow(parentId, def, gen, a), ChildRow(parentId, x, gen, b));
  }

  lemma InitialsRel(def: Workflow, x: Workflow)
    requires WorkflowRel(def, x) && def.states != [] && InitialPosition(def.states[0]).Some?
    ensures x.states != [] && MaybePositionRel(InitialPosition(def.states[0]), InitialPosition(x.states[0]))
  {
    hide StateRel, TransitionsRel, CommonRel, PositionRel, InitialPosition;
    InitialRel(def.states[0], x.states[0]);
  }

  lemma SameTable(e: Env, f: Env, id: string)
    requires EnvRel(e, f)
    ensures e.tick == f.tick && e.cohorts == f.cohorts && e.store.Keys == f.store.Keys
    ensures Live(e.store, id) == Live(f.store, id) && (id in e.store ==> RowRel(e.store[id], f.store[id]))
  {
    hide WorkflowRel, PositionRel, JourneyRel;
  }

  lemma {:induction false} CreateBatchRel(w: World, parentId: string, defs: seq<Workflow>, xs: seq<Workflow>, gen: string, e: Env, f: Env)
    requires |defs| == |xs| && (forall i :: 0 <= i < |defs| ==> WorkflowRel(defs[i], xs[i])) && EnvRel(e, f)
    requires CreateBatch(w, parentId, defs, gen, e).ok
    ensures
      var b, c := CreateBatch(w, parentId, defs, gen, e), CreateBatch(w, parentId, xs, gen, f);
      c.ok && c.ids == b.ids && EnvRel(b.env, c.env)
  {
    hide WorkflowRel, EnvRel, CreateChild;
    if defs != [] {
      var n := |defs| - 1;
      CreateBatchRel(w, parentId, defs[..n], xs[..n], gen, e, f);
      CreateChildRel(w, parentId, defs[n], xs[n], gen,
        CreateBatch(w, parentId, defs[..n], gen, e).env, CreateBatch(w, parentId, xs[..n], gen, f).env);
    }
  }

  // ---- Actions ------------------------------------------------------------

  lemma {:induction false} RunLengthRel(as_: seq<Action>, bs: seq<Action>)
    requires ActionsRel(as_, bs)
    ensures RunLength(as_) == RunLength(bs)
  {
    hide RefRel;
    if as_ != [] {
      assert ActionRel(as_[0], bs[0]);
      RunLengthRel(as_[1..], bs[1..]);
    }
  }

  lemma {:induction false} DefinitionsRel(as_: seq<Action>, bs: seq<Action>)
    requires ActionsRel(as_, bs)
    ensures Definitions(as_).Some? == Definitions(bs).Some?
    ensures Definitions(as_).Some? ==> forall i :: 0 <= i < |as_| ==> WorkflowRel(Definitions(as_).value[i], Definitions(bs).value[i])
  {
    hide WorkflowRel;
    if as_ != [] {
      var n := |as_| - 1;
      assert ActionRel(as_[n], bs[n]) && RefRel(as_[n].childWorkflow, bs[n].childWorkflow);
      DefinitionsRel(as_[..n], bs[..n]);
      var da, db := Definitions(as_[..n]), Definitions(bs[..n]);
      assert Definitions(as_) == if da.None? || as_[n].childWorkflow.None? then None else Some(da.value + [as_[n].childWorkflow.value]);
      assert Definitions(bs) == if db.None? || bs[n].childWorkflow.None? then None else Some(db.value + [bs[n].childWorkflow.value]);
    }
  }

  lemma ExecuteOneRel(w: World, token: string, a: Action, b: Action, ctx: Context, e: Env, f: Env)
    requires ActionRel(a, b) && EnvRel(e, f) && !CreatesChild(a) && ExecuteOne(w, token, a, ctx, e).ok
    ensures ExecRel(ExecuteOne(w, token, a, ctx, e), ExecuteOne(w, token, b, ctx, f))
  {
    hide RefRel, RowRel, InterpolateIn, SetVariables;
    assert RequestOf(w, token, a, ctx, e.tick) == RequestOf(w, token, b, ctx, f.tick);
  }

  lemma CreateRunRel(w: World, token: string, as_: seq<Action>, bs: seq<Action>, ctx: Context, e: Env, f: Env)
    requires ActionsRel(as_, bs) && EnvRel(e, f) && CreateRun(w, token, as_, ctx, e).ok
    ensures ExecRel(CreateRun(w, token, as_, ctx, e), CreateRun(w, token, bs, ctx, f))
  {
    hide EnvRel, CreateBatch, WorkflowRel, ActionRel, WithChildren;
    DefinitionsRel(as_, bs);
    CreateBatchRel(w, token, Definitions(as_).value, Definitions(bs).value, "", e, f);
  }

  lemma ExecuteFrontRel(w: World, token: string, as_: seq<Action>, bs: seq<Action>, ctx: Context, e: Env, f: Env)
    requires as_ != [] && ActionsRel(as_, bs) && EnvRel(e, f) && ExecuteFront(w, token, as_, ctx, e).ok
    ensures ExecRel(ExecuteFront(w, token, as_, ctx, e), ExecuteFront(w, token, bs, ctx, f))
    ensures ActionsRel(AfterFront(as_), AfterFront(bs))
  {
    hide EnvRel, ExecuteOne, CreateRun, ActionRel, RunLength;
    RunLengthRel(as_, bs);
    var n := RunLength(as_);
    if n > 0 {
      CreateRunRel(w, token, as_[..n], bs[..n], ctx, e, f);
    } else {
      ExecuteOneRel(w, token, as_[0], bs[0], ctx, e, f);
    }
  }

  lemma {:induction false} ExecuteActionsRel(w: World, token: string, as_: seq<Action>, bs: seq<Action>, ctx: Context, e: Env, f: Env)
    requires ActionsRel(as_, bs) && EnvRel(e, f) && ExecuteActions(w, token, as_, ctx, e).ok
    ensures ExecRel(ExecuteActions(w, token, as_, ctx, e), ExecuteActions(w, token, bs, ctx, f))
    decreases |as_|
  {
    hide EnvRel, ExecuteFront, ActionRel, AfterFront;
    if as_ != [] {
      ExecuteFrontRel(w, token, as_, bs, ctx, e, f);
      var x, y := ExecuteFront(w, token, as_, ctx, e), ExecuteFront(w, token, bs, ctx, f);
      ExecuteActionsRel(w, token, AfterFront(as_), AfterFront(bs), x.ctx, x.env, y.env);
    }
  }

  lemma PhaseActions(p: Phase, q: Phase)
    requires PhaseRel(p, q)
    ensures ActionsRel(p.Actions(), q.Actions())
  {
    hide ActionRel, TransitionsRel, StatesRel;
  }

  lemma {:induction false} RunPhasesRel(w: World, id: string, ps: seq<Phase>, qs: seq<Phase>, ctx: Context, e: Env, f: Env)
    requires PhasesRel(ps, qs) && EnvRel(e, f) && RunPhases(w, id, ps, ctx, e).ok
    ensures ExecRel(RunPhases(w, id, ps, ctx, e), RunPhases(w, id, qs, ctx, f))
  {
    hide EnvRel, ExecuteActions, PhaseRel;
    if ps != [] {
      PhaseActions(ps[0], qs[0]);
      ExecuteActionsRel(w, id, ps[0].Actions(), qs[0].Actions(), ctx, e, f);
      var x, y := ExecuteActions(w, id, ps[0].Actions(), ctx, e), ExecuteActions(w, id, qs[0].Actions(), ctx, f);
      RunPhasesRel(w, id, ps[1..], qs[1..], x.ctx, x.env, y.env);
    }
  }

  // ---- Where a transition leads -------------------------------------------

  lemma LocalRel(a: StateContainer, b: StateContainer, t: Transition, u: Transition)
    requires PositionRel(a, b) && TransitionRel(t, u)
    ensures IsLocal(a, t) == IsLocal(b, u)
    ensures IsLocal(a, t) ==> StateRel(a.state.FindSubstate(t.target).value, b.state.FindSubstate(u.target).value)
  {
    hide ActionsRel, TransitionsRel, StatesRel, RefRel;
    if a.state.CompositeState? { FindStateRel(a.state.substates, b.state.substates, t.target); }
  }

  lemma StateIdRel(s: State, d: State)
    requires StateRel(s, d)
    ensures s.Id() == d.Id()
  {}

  lemma SamePlace(a: StateContainer, b: StateContainer)
    requires PositionRel(a, b)
    ensures a.state.Id() == b.state.Id() && a.SubstateId() == b.SubstateId() && a.EffectiveId() == b.EffectiveId()
  {
    hide StateRel;
    StateIdRel(a.state, b.state);
    if a.substate.Some? { StateIdRel(a.substate.value, b.substate.value); }
  }

  lemma ResolveRel(d: Workflow, x: Workflow, t: Transition, u: Transition, history: map<string, string>)
    requires WorkflowRel(d, x) && TransitionRel(t, u) && ResolveTarget(d, t, history).Some?
    ensures MaybePositionRel(ResolveTarget(d, t, history), ResolveTarget(x, u, history))
  {
    hide ActionsRel, TransitionsRel, StatesRel, RefRel, CommonRel;
    FindStateRel(d.states, x.states, t.target);
    var s, q := FindState(d.states, t.target).value, FindState(x.states, t.target).value;
    if s.CompositeState? {
      FindStateRel(s.substates, q.substates, EntrySubstate(s, t.entersHistory, history));
    }
  }

  lemma DestinationRel(d: Workflow, x: Workflow, a: StateContainer, b: StateContainer, t: Transition, u: Transition, history: map<string, string>)
    requires WorkflowRel(d, x) && PositionRel(a, b) && TransitionRel(t, u) && Destination(d, a, t, history).Some?
    ensures MaybePositionRel(Destination(d, a, t, history), Destination(x, b, u, history))
  {
    hide WorkflowRel, StateRel, TransitionRel, ResolveTarget, IsLocal;
    LocalRel(a, b, t, u);
    LocalFinds(a, t);
    LocalFinds(b, u);
    if !IsLocal(a, t) { ResolveRel(d, x, t, u, history); }
  }

  lemma LocalFinds(a: StateContainer, t: Transition)
    ensures IsLocal(a, t) ==> a.state.CompositeState? && a.state.FindSubstate(t.target).Some?
  {}

  // ---- One transition -----------------------------------------------------

  lemma KindsRel(t: Transition, u: Transition)
    requires TransitionRel(t, u)
    ensures (t.kind == InternalKind) == (u.kind == InternalKind) && (t.kind == ForkKind) == (u.kind == ForkKind)
    ensures t.IsJoin() == u.IsJoin() && t.event == u.event
    ensures |t.forkTargets| == |u.forkTargets| && ActionsRel(t.entryActions, u.entryActions)
  {
    hide ActionsRel, RefRel;
  }

  lemma {:induction false} ForkDefinitionsRel(fs: seq<ForkTarget>, gs: seq<ForkTarget>)
    requires |fs| == |gs| && forall i :: 0 <= i < |fs| ==> RefRel(fs[i].childWorkflow, gs[i].childWorkflow)
    requires ForkDefinitions(fs).Some?
    ensures ForkDefinitions(gs).Some?
    ensures forall i :: 0 <= i < |fs| ==> WorkflowRel(ForkDefinitions(fs).value[i], ForkDefinitions(gs).value[i])
  {
    hide WorkflowRel, ForkDefinitions;
    forall i | 0 <= i < |fs| ensures gs[i].childWorkflow.Some? { assert fs[i].childWorkflow.Some?; }
  }

  lemma BookkeepingRel(w: World, id: string, t: Transition, u: Transition, pending: string, e: Env, f: Env)
    requires TransitionRel(t, u) && EnvRel(e, f) && Bookkeeping(w, id, t, pending, e).1.Some?
    ensures
      var (e', p) := Bookkeeping(w, id, t, pending, e);
      var (f', q) := Bookkeeping(w, id, u, pending, f);
      p == q && EnvRel(e', f')
  {
    hide ActionsRel, CreateBatch, ForkDefinitions, RowRel, WorkflowRel;
    KindsRel(t, u);
    if t.kind == ForkKind {
      ForkDefinitionsRel(t.forkTargets, u.forkTargets);
      var gen := w.uuid(e.tick);
      CreateBatchRel(w, id, ForkDefinitions(t.forkTargets).value, ForkDefinitions(u.forkTargets).value, gen,
        e.(tick := e.tick + 1), f.(tick := f.tick + 1));
    }
  }

  lemma LeavingRel(a: StateContainer, b: StateContainer, t: Transition, u: Transition)
    requires PositionRel(a, b) && TransitionRel(t, u)
    ensures PhasesRel(Leaving(a, t), Leaving(b, u))
    ensures forall h :: Remember(a, t, h) == Remember(b, u, h)
  {
    hide StateRel, TransitionRel, IsLocal;
    LocalRel(a, b, t, u);
    SamePlace(a, b);
  }

  lemma ArrivingRel(local: bool, a: StateContainer, b: StateContainer)
    requires PositionRel(a, b)
    ensures PhasesRel(Arriving(local, a), Arriving(local, b))
  {
    hide StateRel;
  }

  ghost predicate HalfwayRel(h: Halfway, k: Halfway) {
    PositionRel(h.dest, k.dest) && h.history == k.history && h.pending == k.pending && h.ctx == k.ctx
  }

  lemma DepartRel(w: World, id: string, t: Transition, u: Transition, r: Run, q: Run)
    requires TransitionRel(t, u) && RunRel(r, q) && Depart(w, id, t, r).1.Some?
    ensures
      var (e, h) := Depart(w, id, t, r);
      var (f, k) := Depart(w, id, u, q);
      k.Some? && HalfwayRel(h.value, k.value) && EnvRel(e, f)
  {
    hide TransitionRel, PositionRel, WorkflowRel, JourneyRel, EnvRel, PhasesRel, TransitionsRel, RunPhases, Bookkeeping, Destination,
      Leaving, Remember, IsLocal;
    var a, b := r.row.current, q.row.current;
    LeavingRel(a, b, t, u);
    RunPhasesRel(w, id, Leaving(a, t), Leaving(b, u), r.ctx, r.env, q.env);
    var x, y := RunPhases(w, id, Leaving(a, t), r.ctx, r.env), RunPhases(w, id, Leaving(b, u), q.ctx, q.env);
    DestinationRel(r.row.def, q.row.def, a, b, t, u, Remember(a, t, r.row.compositeHistory));
    LocalRel(a, b, t, u);
    if !IsLocal(a, t) { BookkeepingRel(w, id, t, u, r.row.pendingForkGeneration, x.env, y.env); }
  }

  lemma SettleRel(w: World, id: string, t: Transition, u: Transition, local: bool, h: Halfway, k: Halfway, e: Env, f: Env)
    requires TransitionRel(t, u) && HalfwayRel(h, k) && EnvRel(e, f) && Settle(w, id, t, local, h, e).ok
    ensures ExecRel(Settle(w, id, t, local, h, e), Settle(w, id, u, local, k, f))
  {
    hide TransitionRel, PositionRel, EnvRel, PhasesRel, ActionsRel, RunPhases, ExecuteActions, Arriving;
    ArrivingRel(local, h.dest, k.dest);
    RunPhasesRel(w, id, Arriving(local, h.dest), Arriving(local, k.dest), h.ctx, e, f);
    var x, y := RunPhases(w, id, Arriving(local, h.dest), h.ctx, e), RunPhases(w, id, Arriving(local, k.dest), k.ctx, f);
    KindsRel(t, u);
    ExecuteActionsRel(w, id, t.entryActions, u.entryActions, x.ctx, x.env, y.env);
  }

  lemma EntriesRel(t: Transition, u: Transition, a: StateContainer, b: StateContainer, to: StateContainer, to': StateContainer)
    requires TransitionRel(t, u) && PositionRel(a, b) && PositionRel(to, to')
    ensures EntryRel(Entry(t, a, to), Entry(u, b, to')) && Summary(t, a, to) == Summary(u, b, to')
  {
    hide PositionRel, ActionsRel, RefRel;
    SamePlace(a, b);
    SamePlace(to, to');
  }

  lemma MovedRel(r: Row, q: Row, t: Transition, u: Transition, h: Halfway, k: Halfway)
    requires RowRel(r, q) && TransitionRel(t, u) && HalfwayRel(h, k)
    ensures RowRel(Moved(r, t, h), Moved(q, u, k))
  {
    hide TransitionRel, PositionRel, WorkflowRel, EntryRel, Entry, Summary;
    EntriesRel(t, u, r.current, q.current, h.dest, k.dest);
  }

  lemma ApplyInternalRel(w: World, id: string, t: Transition, u: Transition, r: Run, q: Run)
    requires TransitionRel(t, u) && RunRel(r, q) && ApplyInternal(w, id, t, r).Done?
    ensures ApplyInternal(w, id, u, q).Done? && RunRel(ApplyInternal(w, id, t, r).run, ApplyInternal(w, id, u, q).run)
  {
    hide TransitionRel, PositionRel, WorkflowRel, EntryRel, Entry, EnvRel, ExecuteActions, ActionsRel, PhaseRel;
    KindsRel(t, u);
    ExecuteActionsRel(w, id, t.entryActions, u.entryActions, r.ctx, r.env, q.env);
    EntriesRel(t, u, r.row.current, q.row.current, r.row.current, q.row.current);
  }

  lemma ApplyMoveRel(w: World, id: string, t: Transition, u: Transition, r: Run, q: Run)
    requires TransitionRel(t, u) && RunRel(r, q) && ApplyMove(w, id, t, r).Done?
    ensures ApplyMove(w, id, u, q).Done? && RunRel(ApplyMove(w, id, t, r).run, ApplyMove(w, id, u, q).run)
  {
    hide TransitionRel, PositionRel, RowRel, EnvRel, PhaseRel, Depart, Settle, Moved, Leaving, Arriving, IsLocal, HalfwayRel;
    RowParts(r.row, q.row);
    var a, b := r.row.current, q.row.current;
    DepartRel(w, id, t, u, r, q);
    var (e, h) := Depart(w, id, t, r);
    var (f, k) := Depart(w, id, u, q);
    LocalRel(a, b, t, u);
    var local := IsLocal(a, t);
    SettleRel(w, id, t, u, local, h.value, k.value, e, f);
    MovedRel(r.row, q.row, t, u, h.value, k.value);
    LeavingRel(a, b, t, u);
    HalfwayDest(h.value, k.value);
    ArrivingRel(local, h.value.dest, k.value.dest);
  }

  lemma HalfwayDest(h: Halfway, k: Halfway)
    requires HalfwayRel(h, k)
    ensures PositionRel(h.dest, k.dest)
  {}

  lemma RowParts(r: Row, q: Row)
    requires RowRel(r, q)
    ensures PositionRel(r.current, q.current) && WorkflowRel(r.def, q.def) && r.contextMap == q.contextMap
    ensures r.pendingForkGeneration == q.pendingForkGeneration && r.complete == q.complete && r.parentId == q.parentId
  {
    hide PositionRel, WorkflowRel, JourneyRel;
  }

  lemma ApplyRel(w: World, id: string, t: Transition, u: Transition, r: Run, q: Run)
    requires TransitionRel(t, u) && RunRel(r, q) && Apply(w, id, t, r).Done?
    ensures Apply(w, id, u, q).Done? && RunRel(Apply(w, id, t, r).run, Apply(w, id, u, q).run)
  {
    hide TransitionRel, RunRel, ApplyInternal, ApplyMove;
    KindsRel(t, u);
    if t.kind == InternalKind { ApplyInternalRel(w, id, t, u, r, q); } else { ApplyMoveRel(w, id, t, u, r, q); }
  }

  /** The chain takes the same hops. */
  lemma {:induction false} ChainRel(w: World, id: string, r: Run, q: Run, hop: nat)
    requires hop <= MAX_AUTOMATIC_HOPS && RunRel(r, q) && Chain(w, id, r, hop).Done?
    ensures Chain(w, id, q, hop).Done? && RunRel(Chain(w, id, r, hop).run, Chain(w, id, q, hop).run)
    decreases MAX_AUTOMATIC_HOPS - hop
  {
    hide TransitionRel, RowRel, EnvRel, PhasesRel, TransitionsRel, Apply, FindAutomaticTransition;
    RowParts(r.row, q.row);
    AutomaticRel(w, r.row.def, q.row.def, r.row.current, q.row.current, r.ctx);
    var t, u := FindAutomaticTransition(w, r.row.def, r.row.current, r.ctx), FindAutomaticTransition(w, q.row.def, q.row.current, q.ctx);
    if t.Some? {
      ApplyRel(w, id, t.value, u.value, r, q);
      ChainRel(w, id, Apply(w, id, t.value, r).run, Apply(w, id, u.value, q).run, hop + 1);
    }
  }

  lemma StepAndChainRel(w: World, id: string, t: Transition, u: Transition, r: Run, q: Run)
    requires TransitionRel(t, u) && RunRel(r, q) && StepAndChain(w, id, t, r).Done?
    ensures StepAndChain(w, id, u, q).Done? && RunRel(StepAndChain(w, id, t, r).run, StepAndChain(w, id, u, q).run)
  {
    hide TransitionRel, RunRel, Apply, Chain;
    ApplyRel(w, id, t, u, r, q);
    ChainRel(w, id, Apply(w, id, t, r).run, Apply(w, id, u, q).run, 0);
  }
}
