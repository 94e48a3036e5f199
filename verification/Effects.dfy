/** What a transition and an action list do, read off the definition: which lists
    run and in which order, and what they leave in the context and the table
    (engine/transitions.go, model/action_state.go, model/composite_state.go,
    model/executions.go). */
module Effects {
  import opened Model
  import opened Persistence
  import opened Interpolation
  import opened Children
  import opened Actions
  import opened Transitions

  // ---- The lists an author writes -----------------------------------------

  function EntryList(s: State): seq<Action> {
    match s
    case SimpleState(_) => []
    case ActionState(_, _, entryActions, _, _) => entryActions
    case CompositeState(_, entryActions, _, _, _, _, _) => entryActions
  }

  function ExitList(s: State): seq<Action> {
    match s
    case SimpleState(_) => []
    case ActionState(_, _, _, exitActions, _) => exitActions
    case CompositeState(_, _, exitActions, _, _, _, _) => exitActions
  }

  /** A list run after what came before it, unless that failed. */
  function Then(w: World, id: string, e: Exec, actions: seq<Action>): Exec {
    if e.ok then ExecuteActions(w, id, actions, e.ctx, e.env) else e
  }

  // ---- One transition -----------------------------------------------------

  /** The target is a substate of the composite the instance is in. */
  predicate StaysInside(at: StateContainer, target: string) {
    at.state.CompositeState? && at.substate.Some? && exists s :: s in at.state.substates && s.info.id == target
  }

  function SubExits(at: StateContainer): seq<Action> {
    if at.substate.Some? then ExitList(at.substate.value) else []
  }

  function SubEntries(at: StateContainer): seq<Action> {
    if at.substate.Some? then EntryList(at.substate.value) else []
  }

  /** The exit actions of the substate, then those of the state if it is left. */
  function Exits(w: World, id: string, at: StateContainer, local: bool, ctx: Context, env: Env): Exec {
    Then(w, id, Then(w, id, Exec(ctx, env, true), SubExits(at)), if local then [] else ExitList(at.state))
  }

  /** The entry actions of the state if it is entered, then those of the substate, then
      the transition's own. */
  function Entries(w: World, id: string, to: StateContainer, local: bool, t: Transition, e: Exec): Exec {
    Then(w, id, Then(w, id, Then(w, id, e, if local then [] else EntryList(to.state)), SubEntries(to)), t.entryActions)
  }

  /** A fork inserts one child per target under a generation of its own; the row then
      waits for it. A join waits for nothing any more. */
  ghost predicate Forks(w: World, id: string, t: Transition, local: bool, before: Env, after: Env, was: string, pending: string) {
    if local then after == before && pending == was
    else if t.kind == ForkKind then
      && pending == w.uuid(before.tick)
      && (exists defs :: AreTargets(defs, t.forkTargets) && Inserts(w, id, defs, pending, before.(tick := before.tick + 1), after))
    else after == before && pending == if t.kind == JoinKind || t.join then "" else was
  }

  /** The definitions of a fork's targets, of which there is at least one. */
  ghost predicate AreTargets(defs: seq<Workflow>, targets: seq<ForkTarget>) {
    |defs| == |targets| > 0 && forall i :: 0 <= i < |defs| ==> targets[i].childWorkflow == Some(defs[i])
  }

  ghost predicate Inserts(w: World, id: string, defs: seq<Workflow>, gen: string, before: Env, after: Env) {
    CreateBatch(w, id, defs, gen, before).ok && CreateBatch(w, id, defs, gen, before).env == after
  }

  lemma {:induction false} SameLists(s: State)
    ensures s.OnEntry() == EntryList(s) && s.OnExit() == ExitList(s)
  {}

  lemma LocalMeans(at: StateContainer, t: Transition)
    ensures IsLocal(at, t) <==> StaysInside(at, t.target)
  {}

  lemma LeavingRuns(w: World, id: string, at: StateContainer, t: Transition, ctx: Context, env: Env)
    ensures RunPhases(w, id, Leaving(at, t), ctx, env) == Exits(w, id, at, StaysInside(at, t.target), ctx, env)
  {
    hide RunPhases, IsLocal;
    LocalMeans(at, t);
    var e := Exec(ctx, env, true);
    assert Then(w, id, e, []) == e;
    SameLists(at.state);
    if at.substate.Some? {
      var sub := at.substate.value;
      SameLists(sub);
      RunOnePhase(w, id, ExitSub(sub), ctx, env);
      RunTwoPhases(w, id, ExitSub(sub), ExitTop(at.state), ctx, env);
      assert [ExitSub(sub)] + [] == [ExitSub(sub)];
    } else {
      RunOnePhase(w, id, ExitTop(at.state), ctx, env);
      assert [] + [ExitTop(at.state)] == [ExitTop(at.state)];
    }
  }

  lemma ArrivingRuns(w: World, id: string, local: bool, t: Transition, h: Halfway, env: Env)
    requires local ==> h.dest.substate.Some?
    ensures Settle(w, id, t, local, h, env) == Entries(w, id, h.dest, local, t, Exec(h.ctx, env, true))
  {
    hide RunPhases;
    var e, to := Exec(h.ctx, env, true), h.dest;
    assert Then(w, id, e, []) == e;
    SameLists(to.state);
    if to.substate.Some? {
      var sub := to.substate.value;
      SameLists(sub);
      RunOnePhase(w, id, EnterSub(sub), h.ctx, env);
      RunTwoPhases(w, id, EnterTop(to.state), EnterSub(sub), h.ctx, env);
      assert [] + [EnterSub(sub)] == [EnterSub(sub)];
    } else {
      RunOnePhase(w, id, EnterTop(to.state), h.ctx, env);
      assert [EnterTop(to.state)] + [] == [EnterTop(to.state)];
    }
  }

  lemma ForkingInserts(w: World, id: string, t: Transition, was: string, env: Env)
    ensures
      var (after, pending) := Bookkeeping(w, id, t, was, env);
      pending.Some? ==> Forks(w, id, t, false, env, after, was, pending.value)
  {
    hide CreateBatch;
    if t.kind == ForkKind && t.forkTargets != [] && ForkDefinitions(t.forkTargets).Some? {
      assert AreTargets(ForkDefinitions(t.forkTargets).value, t.forkTargets);
    }
  }

  /** A fork that stops could not have inserted its children. */
  lemma ForkingFails(w: World, id: string, t: Transition, was: string, env: Env, after: Env, pending: string)
    requires Bookkeeping(w, id, t, was, env).1.None?
    ensures t.kind == ForkKind && !Forks(w, id, t, false, env, after, was, pending)
    ensures Grows(id, env, Bookkeeping(w, id, t, was, env).0)
  {
    hide CreateBatch;
    var gen, next := w.uuid(env.tick), env.(tick := env.tick + 1);
    if t.forkTargets != [] && ForkDefinitions(t.forkTargets).Some? {
      var defs := ForkDefinitions(t.forkTargets).value;
      CreateBatchGrows(w, id, defs, gen, next);
      assert forall d :: AreTargets(d, t.forkTargets) ==> d == defs;
    }
  }

  lemma LocalForksNothing(w: World, id: string, t: Transition, env: Env, was: string)
    ensures Forks(w, id, t, true, env, env, was, was)
  {}

  /** Where a move ends: at the named substate of the same composite, or at the first
      state with the target's id. A composite is entered at its initial substate, or at
      the one last left when the transition asks for that, the composite allows it and
      one is on record. */
  ghost predicate Lands(def: Workflow, at: StateContainer, t: Transition, history: map<string, string>, to: StateContainer) {
    if StaysInside(at, t.target) then to.state == at.state && to.substate == FindState(at.state.substates, t.target)
    else
      && FindState(def.states, t.target) == Some(to.state)
      && (if to.state.CompositeState?
          then to.substate.Some? && to.substate == FindState(to.state.substates,
            if t.entersHistory && to.state.history != "" && to.state.info.id in history && history[to.state.info.id] != ""
            then history[to.state.info.id] else to.state.initialSubstate)
          else to.substate == None)
  }

  /** Leaving a composite records which substate was active. */
  function Recorded(at: StateContainer, local: bool, history: map<string, string>): map<string, string> {
    if local || at.substate.None? then history else history[at.state.info.id := at.substate.value.info.id]
  }

  lemma DestinationLands(def: Workflow, at: StateContainer, t: Transition, history: map<string, string>)
    ensures
      var to := Destination(def, at, t, history);
      to.Some? ==> Lands(def, at, t, history, to.value) && (StaysInside(at, t.target) ==> to.value.substate.Some?)
  {
    LocalMeans(at, t);
  }

  lemma NowhereToLand(def: Workflow, at: StateContainer, t: Transition, history: map<string, string>, to: StateContainer)
    requires Destination(def, at, t, history).None?
    ensures !Lands(def, at, t, history, to)
  {
    LocalMeans(at, t);
  }

  lemma DepartRuns(w: World, id: string, t: Transition, r: Run)
    requires Depart(w, id, t, r).1.Some?
    ensures
      var at := r.row.current;
    var (env, h) := Depart(w, id, t, r);
      var local := StaysInside(at, t.target);
      var out := Exits(w, id, at, local, r.ctx, r.env);
      && out.ok && h.value.ctx == out.ctx && h.value.history == Recorded(at, local, r.row.compositeHistory)
      && Lands(r.row.def, at, t, h.value.history, h.value.dest) && (local ==> h.value.dest.substate.Some?)
      && Forks(w, id, t, local, out.env, env, r.row.pendingForkGeneration, h.value.pending)
  {
    hide Exits, Forks, Lands, Bookkeeping, Destination, RunPhases, StaysInside, IsLocal, Leaving;
    var at := r.row.current;
    var (env, h) := Depart(w, id, t, r);
    LocalMeans(at, t);
    LeavingRuns(w, id, at, t, r.ctx, r.env);
    DestinationLands(r.row.def, at, t, h.value.history);
    var e := RunPhases(w, id, Leaving(at, t), r.ctx, r.env);
    ForkingInserts(w, id, t, r.row.pendingForkGeneration, e.env);
    LocalForksNothing(w, id, t, e.env, r.row.pendingForkGeneration);
    if !IsLocal(at, t) {
      assert Bookkeeping(w, id, t, r.row.pendingForkGeneration, e.env) == (env, Some(h.value.pending));
    }
  }

  /** The states left and entered, in order. */
  function Steps(at: StateContainer, to: StateContainer, local: bool): seq<Phase> {
    (if at.substate.Some? then [ExitSub(at.substate.value)] else [])
    + (if local then [] else [ExitTop(at.state)] + [EnterTop(to.state)])
    + (if to.substate.Some? then [EnterSub(to.substate.value)] else [])
  }

  lemma StepsTraced(at: StateContainer, to: StateContainer, t: Transition)
    ensures Leaving(at, t) + Arriving(IsLocal(at, t), to) == Steps(at, to, IsLocal(at, t))
  {}

  /** Main result: what a transition that is not internal executes. The exit actions of
      the substate and of the state run first, then a fork inserts its children, then
      come the entry actions of the new state and of its substate, and the transition's
      own actions last; a move inside a composite leaves and enters only substates. The
      row differs in exactly what the move says, and the trace names the states whose
      lists ran. */
  lemma MoveRuns(w: World, id: string, t: Transition, r: Run)
    requires t.kind != InternalKind && Apply(w, id, t, r).Done?
    ensures
      var at, next := r.row.current, Apply(w, id, t, r).run;
      var to, local := next.row.current, StaysInside(at, t.target);
      var out := Exits(w, id, at, local, r.ctx, r.env);
      && out.ok && Lands(r.row.def, at, t, next.row.compositeHistory, to)
      && (exists forked: Env ::
            && Forks(w, id, t, local, out.env, forked, r.row.pendingForkGeneration, next.row.pendingForkGeneration)
            && Entries(w, id, to, local, t, Exec(out.ctx, forked, true)) == Exec(next.ctx, next.env, true))
      && next.trace == r.trace + Steps(at, to, local)
  {
    hide Exits, Entries, Forks, Lands, Settle, Depart, IsLocal, StaysInside, Summary, Entry;
    var at := r.row.current;
    var (env, h) := Depart(w, id, t, r);
    LocalMeans(at, t);
    DepartRuns(w, id, t, r);
    ArrivingRuns(w, id, IsLocal(at, t), t, h.value, env);
    StepsTraced(at, h.value.dest, t);
  }

  function ActiveId(at: StateContainer): string {
    if at.substate.Some? then at.substate.value.info.id else at.state.info.id
  }

  function SubId(at: StateContainer): string {
    if at.substate.Some? then at.substate.value.info.id else ""
  }

  /** What the row of a move says of itself: the substate left is on record, the text of
      the last transition and the new journey entry name both positions, and every other
      field is as it was. */
  lemma MoveRecords(w: World, id: string, t: Transition, r: Run)
    requires t.kind != InternalKind && Apply(w, id, t, r).Done?
    ensures
      var at, next := r.row.current, Apply(w, id, t, r).run;
      var to := next.row.current;
      && next.row == r.row.(
           current := to,
           compositeHistory := Recorded(at, StaysInside(at, t.target), r.row.compositeHistory),
           pendingForkGeneration := next.row.pendingForkGeneration,
           lastTransition := "Event: " + t.event + ", From: " + ActiveId(at) + ", To: " + ActiveId(to),
           journey := r.row.journey
             + [JourneyEntry(t.event, t.trigger, t.kind, at.state.info.id, SubId(at), to.state.info.id, SubId(to))])
      && next.moved && next.applied == r.applied + [t]
  {
    hide Settle, Depart, Leaving, Arriving, Forks, Lands, Exits;
    DepartRuns(w, id, t, r);
  }

  /** An internal transition runs its own actions and nothing else: no state is left or
      entered, and of the row only the journey grows. It fails exactly when they do. */
  lemma InternalRuns(w: World, id: string, t: Transition, r: Run)
    requires t.kind == InternalKind
    ensures
      var at, s := r.row.current, Apply(w, id, t, r);
      var e := ExecuteActions(w, id, t.entryActions, r.ctx, r.env);
      && s.Done? == e.ok && s.Env() == e.env && s.Moved() == r.moved
      && (e.ok ==>
            && s.run.ctx == e.ctx && s.run.trace == r.trace && s.run.applied == r.applied + [t]
            && s.run.row == r.row.(journey := r.row.journey
                 + [JourneyEntry(t.event, t.trigger, t.kind, at.state.info.id, SubId(at), at.state.info.id, SubId(at))]))
  {
    hide ExecuteActions;
  }

  /** Whether the entered position, the fork and the entry lists account for `left`. */
  ghost predicate EntersAndFails(w: World, id: string, t: Transition, row: Row, out: Exec, left: Env) {
    var local := StaysInside(row.current, t.target);
    var history := Recorded(row.current, local, row.compositeHistory);
    exists to, forked, pending ::
      && Lands(row.def, row.current, t, history, to)
      && Forks(w, id, t, local, out.env, forked, row.pendingForkGeneration, pending)
      && Entries(w, id, to, local, t, Exec(out.ctx, forked, true)).env == left
      && !Entries(w, id, to, local, t, Exec(out.ctx, forked, true)).ok
  }

  /** There is no position to enter. */
  ghost predicate CannotLand(t: Transition, row: Row) {
    var history := Recorded(row.current, StaysInside(row.current, t.target), row.compositeHistory);
    forall to :: !Lands(row.def, row.current, t, history, to)
  }

  /** The fork cannot create all its children. */
  ghost predicate CannotFork(w: World, id: string, t: Transition, row: Row, env: Env) {
    && t.kind == ForkKind && !StaysInside(row.current, t.target)
    && forall after, pending :: !Forks(w, id, t, false, env, after, row.pendingForkGeneration, pending)
  }

  lemma DepartStops(w: World, id: string, t: Transition, r: Run)
    requires Depart(w, id, t, r).1.None?
    ensures
      var out := Exits(w, id, r.row.current, StaysInside(r.row.current, t.target), r.ctx, r.env);
      var left := Depart(w, id, t, r).0;
      && (!out.ok || CannotLand(t, r.row) ==> left == out.env)
      && (out.ok ==> CannotLand(t, r.row) || (CannotFork(w, id, t, r.row, out.env) && Grows(id, out.env, left)))
  {
    hide Exits, Forks, Lands, Bookkeeping, Destination, RunPhases, StaysInside, IsLocal, Leaving, Grows;
    var at := r.row.current;
    LocalMeans(at, t);
    LeavingRuns(w, id, at, t, r.ctx, r.env);
    var e := RunPhases(w, id, Leaving(at, t), r.ctx, r.env);
    var history := Remember(at, t, r.row.compositeHistory);
    assert history == Recorded(at, IsLocal(at, t), r.row.compositeHistory);
    if e.ok && Destination(r.row.def, at, t, history).None? {
      forall to ensures !Lands(r.row.def, at, t, history, to) { NowhereToLand(r.row.def, at, t, history, to); }
    } else if e.ok {
      DestinationLands(r.row.def, at, t, history);
      assert Bookkeeping(w, id, t, r.row.pendingForkGeneration, e.env).1.None?;
      forall after, pending ensures !Forks(w, id, t, false, e.env, after, r.row.pendingForkGeneration, pending) {
        ForkingFails(w, id, t, r.row.pendingForkGeneration, e.env, after, pending);
      }
      ForkingFails(w, id, t, r.row.pendingForkGeneration, e.env, e.env, "");
    }
  }

  /** A move that fails stops where it failed, and nothing after that has run: at an exit
      action, at a target that cannot be entered, at a fork that cannot create all its
      children, or at an entry action. */
  lemma MoveStops(w: World, id: string, t: Transition, r: Run)
    requires t.kind != InternalKind && Apply(w, id, t, r).Failed?
    ensures
      var left := Apply(w, id, t, r).failedEnv;
      var out := Exits(w, id, r.row.current, StaysInside(r.row.current, t.target), r.ctx, r.env);
      && Apply(w, id, t, r).failedMoved
      && (!out.ok || CannotLand(t, r.row) ==> left == out.env)
      && (out.ok && !CannotLand(t, r.row) ==>
            (CannotFork(w, id, t, r.row, out.env) && Grows(id, out.env, left)) || EntersAndFails(w, id, t, r.row, out, left))
  {
    hide Exits, Entries, Forks, Lands, Settle, Depart, IsLocal, StaysInside, Summary, Entry, Grows, CannotFork;
    var at := r.row.current;
    LocalMeans(at, t);
    var (env, h) := Depart(w, id, t, r);
    if h.None? {
      DepartStops(w, id, t, r);
    } else {
      DepartRuns(w, id, t, r);
      ArrivingRuns(w, id, IsLocal(at, t), t, h.value, env);
    }
  }

  // ---- Action lists -------------------------------------------------------

  lemma {:induction false} RunLengthAppend(a: seq<Action>, b: seq<Action>)
    ensures RunLength(a + b) == if RunLength(a) < |a| then RunLength(a) else |a| + RunLength(b)
  {
    if a == [] {
      assert a + b == b;
    } else {
      assert (a + b)[0] == a[0] && (a + b)[1..] == a[1..] + b;
      RunLengthAppend(a[1..], b);
    }
  }

  /** Two lists that do not meet in the middle of a run of create-child actions. */
  predicate Separate(a: seq<Action>, b: seq<Action>) {
    a == [] || b == [] || a[|a| - 1].actionType != CreateChildWorkflowAction || b[0].actionType != CreateChildWorkflowAction
  }

  lemma NoRunIn(b: seq<Action>)
    ensures b == [] || b[0].actionType != CreateChildWorkflowAction ==> RunLength(b) == 0
  {}

  lemma FrontOfAppend(w: World, id: string, a: seq<Action>, b: seq<Action>, ctx: Context, env: Env)
    requires a != [] && Separate(a, b)
    ensures ExecuteFront(w, id, a + b, ctx, env) == ExecuteFront(w, id, a, ctx, env)
    ensures AfterFront(a + b) == AfterFront(a) + b && Separate(AfterFront(a), b)
  {
    hide CreateRun, ExecuteOne, RunLength;
    RunLengthAppend(a, b);
    NoRunIn(b);
    var n := RunLength(a);
    assert (a + b)[..n] == a[..n] && (a + b)[n..] == a[n..] + b && (a + b)[0] == a[0] && (a + b)[1..] == a[1..] + b;
  }

  /** Main result: a list runs its parts one after the other, each on the context and the
      table the one before left, and a part that fails is the last to run. Only two parts
      that meet in a run of create-child actions are one batch. */
  lemma {:induction false} AppendLists(w: World, id: string, a: seq<Action>, b: seq<Action>, ctx: Context, env: Env)
    requires Separate(a, b)
    ensures ExecuteActions(w, id, a + b, ctx, env) == Then(w, id, ExecuteActions(w, id, a, ctx, env), b)
    decreases |a|
  {
    hide ExecuteFront, AfterFront, Separate;
    if a == [] {
      assert a + b == b;
    } else {
      FrontOfAppend(w, id, a, b, ctx, env);
      var e := ExecuteFront(w, id, a, ctx, env);
      if e.ok { AppendLists(w, id, AfterFront(a), b, e.ctx, e.env); }
    }
  }

  lemma OneAction(w: World, id: string, a: Action, ctx: Context, env: Env)
    requires a.actionType != CreateChildWorkflowAction
    ensures ExecuteActions(w, id, [a], ctx, env) == ExecuteOne(w, id, a, ctx, env)
  {
    hide ExecuteOne;
    assert RunLength([a]) == 0;
    assert AfterFront([a]) == [];
  }

  // ---- Setting variables --------------------------------------------------

  /** Every order a Go map may be ranged over in visits each key once. */
  ghost predicate RangesAll(w: World) {
    forall tick, name, keys :: IsOrder(w.keyOrder(tick, name, keys), keys)
  }

  /** The context after an action that sets `vars`. */
  function SetIn(vars: map<string, string>, ctx: Context): Context {
    ctx + map k | k in vars :: Expand(vars[k], ctx)
  }

  /** The context after a list of such actions: each sees what the earlier ones set. */
  function SetAll(actions: seq<Action>, ctx: Context): Context {
    if actions == [] then ctx else SetAll(actions[1..], SetIn(actions[0].variables, ctx))
  }

  /** At every action of the list the values mention no key that action sets, and what
      they mention is plain text. */
  ghost predicate AllIndependent(actions: seq<Action>, ctx: Context) {
    actions != [] ==>
      && actions[0].actionType == SetContextMapAction
      && PlainKeys(ctx.Keys + actions[0].variables.Keys) && IndependentVariables(actions[0].variables, ctx)
      && AllIndependent(actions[1..], SetIn(actions[0].variables, ctx))
  }

  lemma SetOne(w: World, id: string, a: Action, ctx: Context, env: Env)
    requires RangesAll(w) && a.actionType == SetContextMapAction
    requires PlainKeys(ctx.Keys + a.variables.Keys) && IndependentVariables(a.variables, ctx)
    ensures ExecuteActions(w, id, [a], ctx, env) == Exec(SetIn(a.variables, ctx), env.(tick := env.tick + 1), true)
  {
    hide SetVariables, Expand, PlainKeys, IndependentVariables;
    OneAction(w, id, a, ctx, env);
    SetVariablesOrderIndependent(w.keyOrder(env.tick, None, a.variables.Keys), a.variables, InnerOrder(w, env.tick), ctx);
    assert Expanded(a.variables.Keys, a.variables, ctx) == map k | k in a.variables :: Expand(a.variables[k], ctx);
  }

  /** Main result: a list of actions that set variables leaves the starting context plus
      each value with its placeholders filled in, later actions seeing earlier ones,
      whatever order the maps are ranged over in. */
  lemma {:induction false} SetListRuns(w: World, id: string, actions: seq<Action>, ctx: Context, env: Env)
    requires RangesAll(w) && AllIndependent(actions, ctx)
    ensures ExecuteActions(w, id, actions, ctx, env) == Exec(SetAll(actions, ctx), env.(tick := env.tick + |actions|), true)
  {
    hide SetIn, ExecuteActions;
    if actions == [] {
      NoActions(w, id, ctx, env);
    } else {
      var a, rest := actions[0], actions[1..];
      SetOne(w, id, a, ctx, env);
      AppendLists(w, id, [a], rest, ctx, env);
      assert [a] + rest == actions;
      SetListRuns(w, id, rest, SetIn(a.variables, ctx), env.(tick := env.tick + 1));
    }
  }

  lemma NoActions(w: World, id: string, ctx: Context, env: Env)
    ensures ExecuteActions(w, id, [], ctx, env) == Exec(ctx, env, true)
  {}

  // ---- HTTP requests ------------------------------------------------------

  /** A request nobody waits for changes nothing here, nor does an action without a type.
      An awaited one that is refused fails the list and leaves the context alone; one that
      is answered overrides the keys its reply holds and keeps every other. */
  lemma RequestRuns(w: World, id: string, a: Action, ctx: Context, env: Env)
    requires a.actionType == HttpRequestAction || a.actionType == ActionTypeUnset
    ensures
      var e := ExecuteActions(w, id, [a], ctx, env);
      if a.actionType == ActionTypeUnset || !a.expectResponse then e == Exec(ctx, env, true)
      else
        var reply := w.http(env.tick, RequestOf(w, id, a, ctx, env.tick));
        && e.env == env.(tick := env.tick + 1) && e.ok == reply.HttpOk?
        && (reply.HttpFailed? ==> e.ctx == ctx)
        && (reply.HttpOk? ==> forall k ::
              && (k in e.ctx <==> k in ctx || k in reply.members)
              && (k in reply.members ==> e.ctx[k] == reply.members[k])
              && (k in ctx && k !in reply.members ==> e.ctx[k] == ctx[k]))
  {
    hide RequestOf;
    OneAction(w, id, a, ctx, env);
  }

  /** What is sent: GET unless the author names a verb, the address and every variable
      with their placeholders filled in, and the caller's token only if it is to be
      forwarded. */
  lemma RequestSent(w: World, token: string, a: Action, ctx: Context, tick: nat)
    requires RangesAll(w) && PlainKeys(ctx.Keys)
    ensures
      var q := RequestOf(w, token, a, ctx, tick);
      && (a.httpMethod == "" ==> q.verb == "GET") && (a.httpMethod != "" ==> q.verb == a.httpMethod)
      && (a.forwardToken ==> q.token == token) && (!a.forwardToken ==> q.token == "")
      && (Clean(a.url) && PlainValues(Mentions(a.url), ctx) ==> q.url == Expand(a.url, ctx))
      && q.body.Keys == a.variables.Keys
      && (forall k :: k in a.variables && Clean(a.variables[k]) && PlainValues(Mentions(a.variables[k]), ctx) ==>
            q.body[k] == Expand(a.variables[k], ctx))
  {
    hide Clean, Expand, Mentions, PlainValues;
    if Clean(a.url) && PlainValues(Mentions(a.url), ctx) {
      InterpolateConfluent(w.keyOrder(tick, None, ctx.Keys), ctx, a.url);
    }
    forall k | k in a.variables && Clean(a.variables[k]) && PlainValues(Mentions(a.variables[k]), ctx)
      ensures RequestOf(w, token, a, ctx, tick).body[k] == Expand(a.variables[k], ctx)
    {
      InterpolateConfluent(InnerOrder(w, tick)(k, ctx.Keys), ctx, a.variables[k]);
    }
  }

  // ---- Creating children --------------------------------------------------

  /** The ids in order, separated by commas. */
  function Commas(ids: seq<string>): string {
    if ids == [] then ""
    else if |ids| == 1 then ids[0]
    else ids[0] + "," + Commas(ids[1..])
  }

  lemma {:induction false} JoinedIsCommas(ids: seq<string>)
    ensures Joined(ids) == Commas(ids)
    decreases |ids|
  {
    if |ids| > 1 {
      var n := |ids| - 1;
      JoinedIsCommas(ids[..n]);
      if n == 1 {
        assert ids[..1] == [ids[0]] && ids[1..] == [ids[1]];
      } else {
        JoinedIsCommas(ids[1..]);
        JoinedIsCommas(ids[1..n]);
        assert ids[1..][..n - 1] == ids[1..n] && ids[..n][1..] == ids[1..n];
      }
    }
  }

  /** One new child per action, inserted under `parent` in that order. */
  ghost predicate InsertedInOrder(env: Env, next: Env, ids: seq<string>, parent: string, run: seq<Action>) {
    && |ids| == |run| && (forall i, j :: 0 <= i < j < |ids| ==> ids[i] != ids[j])
    && forall i :: 0 <= i < |run| ==>
         run[i].childWorkflow.Some? && Inserted(env, next, ids[i], parent, run[i].childWorkflow.value, "")
  }

  /** The definitions the actions name. */
  ghost predicate NamedBy(defs: seq<Workflow>, run: seq<Action>) {
    |defs| == |run| && forall i :: 0 <= i < |run| ==> run[i].childWorkflow == Some(defs[i])
  }

  lemma {:induction false} AllCreate(run: seq<Action>)
    requires forall i :: 0 <= i < |run| ==> run[i].actionType == CreateChildWorkflowAction
    ensures RunLength(run) == |run|
  {
    if run != [] { AllCreate(run[1..]); }
  }

  lemma {:induction false} NoneMissing(run: seq<Action>)
    ensures Definitions(run).None? ==> exists i :: 0 <= i < |run| && run[i].childWorkflow.None?
  {
    if run != [] { NoneMissing(run[..|run| - 1]); }
  }

  /** Main result: a run of create-child actions inserts one child per action and leaves
      the last id and all ids in the context. It fails as a whole, without touching the
      context: before anything is created when a definition is missing, and otherwise
      exactly when some child cannot be created. */
  lemma ChildrenCreated(w: World, id: string, run: seq<Action>, ctx: Context, env: Env)
    requires run != [] && forall i :: 0 <= i < |run| ==> run[i].actionType == CreateChildWorkflowAction
    ensures
      var e := ExecuteActions(w, id, run, ctx, env);
      && (e.ok ==> exists ids: seq<string> ::
            && InsertedInOrder(env, e.env, ids, id, run)
            && e.ctx == ctx["childWorkflowId" := ids[|ids| - 1]]["childWorkflowIds" := Commas(ids)])
      && (!e.ok ==> e.ctx == ctx && Grows(id, env, e.env))
      && (forall defs :: NamedBy(defs, run) ==> e.ok == AllCanStart(w, id, defs, env))
      && ((exists i :: 0 <= i < |run| && run[i].childWorkflow.None?) ==> !e.ok && e.env == env)
  {
    hide CreateBatch, Joined, Commas, Inserted, Definitions, Grows, AllCanStart;
    AllCreate(run);
    NoneMissing(run);
    assert run[..|run|] == run && AfterFront(run) == [];
    forall i | 0 <= i < |run| && run[i].childWorkflow.None? ensures Definitions(run).None? { MissingDefinition(run, i); }
    if Definitions(run).Some? {
      var defs := Definitions(run).value;
      var b := CreateBatch(w, id, defs, "", env);
      CreateBatchGrows(w, id, defs, "", env);
      JoinedIsCommas(b.ids);
      BatchSucceedsExactly(w, id, defs, "", env);
      assert forall d :: NamedBy(d, run) ==> d == defs;
      if b.ok {
        BatchInserts(w, id, defs, "", env);
        assert InsertedInOrder(env, b.env, b.ids, id, run);
      }
    } else {
      GrowsSelf(id, env);
    }
  }

  /** A create-child action executed by itself, outside a list, leaves only the id. */
  lemma ChildCreatedAlone(w: World, id: string, a: Action, ctx: Context, env: Env)
    requires a.actionType == CreateChildWorkflowAction
    ensures
      var e := ExecuteOne(w, id, a, ctx, env);
      && (a.childWorkflow.None? ==> e == Exec(ctx, env, false))
      && (a.childWorkflow.Some? ==> e.ok == (Live(env.store, id) && CanStart(w, a.childWorkflow.value, env, 0)))
      && (e.ok ==> exists child ::
            Inserted(env, e.env, child, id, a.childWorkflow.value, "") && e.ctx == ctx["childWorkflowId" := child])
      && (!e.ok ==> e.ctx == ctx && Grows(id, env, e.env))
  {
    hide InitialPosition, ChildRow, Record, Inserted, Grows;
    GrowsSelf(id, env);
    if a.childWorkflow.Some? {
      var def := a.childWorkflow.value;
      CreateChildShape(w, id, def, "", env);
      CreateChildGrows(w, id, def, "", env);
      if CreateChild(w, id, def, "", env).1.Some? { LastInserted(w, id, def, "", env, env); }
    }
  }
}
