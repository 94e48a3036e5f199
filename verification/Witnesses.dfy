/** Concrete runs of what the engine does not promise. They use small definitions of
    simple states, in a world where ids are fresh and every insert and save succeeds. */
module Witnesses {
  import opened Model
  import opened Persistence
  import opened Lookup
  import opened Children
  import opened Actions
  import opened Transitions
  import opened WorkflowOps
  import opened RunInvariants
  import opened Generations
  import opened Offers
  import A = AutoJoin

  ghost predicate Calm(w: World) {
    FreshIds(w) && (forall n :: w.insertOk(n)) && (forall n :: w.saveOk(n))
  }

  // ---- Small definitions --------------------------------------------------

  function Plain(id: string): State {
    SimpleState(Info("SimpleState", id, false, "", "", "", "", None))
  }

  function At(id: string): StateContainer { StateContainer(Plain(id), None) }

  function Arrow(source: string, target: string, event: string, trigger: Trigger, kind: Kind): Transition {
    Transition(trigger, kind, source, target, event, None, [], false, [], "", false)
  }

  function Definition(ids: seq<string>, transitions: seq<Transition>, ends: seq<string>): Workflow {
    Workflow("", "", "", false, "", "", "", seq(|ids|, i requires 0 <= i < |ids| => Plain(ids[i])), transitions, [], ends)
  }

  lemma FirstOfOne<T(!new)>(a: T, p: T -> bool)
    ensures First([a], p) == if p(a) then Some(a) else None
  {
    assert [a][1..] == [];
  }

  lemma FirstOfTwo<T(!new)>(a: T, b: T, p: T -> bool)
    ensures First([a, b], p) == if p(a) then Some(a) else if p(b) then Some(b) else None
  {
    assert [a, b][1..] == [b];
    FirstOfOne(b, p);
  }

  lemma FindOfTwo(a: string, b: string, id: string)
    ensures FindState([Plain(a), Plain(b)], id) == if a == id then Some(Plain(a)) else if b == id then Some(Plain(b)) else None
  {
    FirstOfTwo(Plain(a), Plain(b), (x: State) => x.Id() == id);
  }

  lemma FindOfThree(a: string, b: string, c: string, id: string)
    ensures FindState([Plain(a), Plain(b), Plain(c)], id)
         == if a == id then Some(Plain(a)) else if b == id then Some(Plain(b)) else if c == id then Some(Plain(c)) else None
  {
    assert [Plain(a), Plain(b), Plain(c)][1..] == [Plain(b), Plain(c)];
    FirstOfTwo(Plain(b), Plain(c), (x: State) => x.Id() == id);
  }

  /** In a simple state every lookup is a search of the top-level transitions. */
  lemma PlainLookup(w: World, def: Workflow, id: string, event: string, ctx: Context)
    requires def.commonTransitions == []
    ensures FindCandidateTransition(w, def, At(id), event, ctx) == First(def.transitions, Both(SourceIs(id), Fires(w, event, ctx)))
    ensures FindAutomaticTransition(w, def, At(id), ctx) == First(def.transitions, Both(SourceIs(id), FiresNow(w, ctx)))
    ensures FindPendingJoinTransition(def, At(id)) == First(def.transitions, Both(SourceIs(id), JoinPoint()))
    ensures Candidates(def, At(id)) == Filter(def.transitions, SourceIs(id))
  {
    assert Scopes(def, At(id)) == [Scope(def.transitions, id)];
    SearchOne(Scope(def.transitions, id), Fires(w, event, ctx));
    SearchOne(Scope(def.transitions, id), FiresNow(w, ctx));
    SearchOne(Scope(def.transitions, id), JoinPoint());
  }

  lemma SearchOne(scope: Scope, p: Transition -> bool)
    ensures SearchScopes([scope], p) == First(scope.transitions, Both(SourceIs(scope.sourceId), p))
  {
    assert [scope][1..] == [];
  }

  // ---- Small steps --------------------------------------------------------

  lemma NoActions(w: World, id: string, s: string, ctx: Context, env: Env)
    ensures RunPhases(w, id, [ExitTop(Plain(s))], ctx, env) == Exec(ctx, env, true)
    ensures RunPhases(w, id, [EnterTop(Plain(s))], ctx, env) == Exec(ctx, env, true)
  {
    RunOnePhase(w, id, ExitTop(Plain(s)), ctx, env);
    RunOnePhase(w, id, EnterTop(Plain(s)), ctx, env);
  }

  /** A move between simple states runs its bookkeeping and its effect. */
  lemma PlainMove(w: World, id: string, t: Transition, r: Run, from_: string, to: string, env: Env, pending: string)
    requires t.kind != InternalKind && r.row.current == At(from_) && FindState(r.row.def.states, t.target) == Some(Plain(to))
    requires Bookkeeping(w, id, t, r.row.pendingForkGeneration, r.env) == (env, Some(pending))
    ensures
      var h := Halfway(At(to), r.row.compositeHistory, pending, r.ctx);
      var e := ExecuteActions(w, id, t.entryActions, r.ctx, env);
      Apply(w, id, t, r) ==
        if e.ok then Done(Run(Moved(r.row, t, h), e.ctx, e.env, true, r.trace + [ExitTop(Plain(from_))] + [EnterTop(Plain(to))], r.applied + [t]))
        else Failed(e.env, true)
  {
    hide Bookkeeping, ExecuteActions, RunPhases;
    NoActions(w, id, from_, r.ctx, r.env);
    NoActions(w, id, to, r.ctx, env);
    assert Leaving(r.row.current, t) == [ExitTop(Plain(from_))] && Arriving(false, At(to)) == [EnterTop(Plain(to))];
  }

  /** The bookkeeping of a fork into one child. */
  lemma OneChildFork(w: World, id: string, t: Transition, def: Workflow, first: string, pending: string, env: Env)
    requires Calm(w) && t.kind == ForkKind && t.forkTargets == [ForkTarget("", Some(def))] && Live(env.store, id)
    requires def.states != [] && def.states[0] == Plain(first) && w.uuid(env.tick + 1) !in env.store
    ensures
      var gen, kid := w.uuid(env.tick), w.uuid(env.tick + 1);
      Bookkeeping(w, id, t, pending, env)
      == (Env(env.tick + 2, env.store[kid := ChildRow(id, def, gen, At(first))], Record(env.cohorts, gen, id, kid)), Some(gen))
  {
    var gen := w.uuid(env.tick);
    var next := env.(tick := env.tick + 1);
    OneTarget(def);
    OneChildBatch(w, id, def, gen, next);
    hide FreshIds, ForkDefinitions, Record, CreateBatch, InitialPosition;
    assert InitialPosition(Plain(first)) == Some(At(first)) by { PlainInitial(first); }
    CreateChildShape(w, id, def, gen, next);
  }

  lemma PlainInitial(first: string)
    ensures InitialPosition(Plain(first)) == Some(At(first))
  {}

  lemma OneTarget(def: Workflow)
    ensures ForkDefinitions([ForkTarget("", Some(def))]) == Some([def])
  {
    var ts := [ForkTarget("", Some(def))];
    assert ts[..0] == [] && ForkDefinitions(ts[..0]) == Some([]);
    assert [] + [def] == [def];
  }

  lemma OneChildBatch(w: World, id: string, def: Workflow, gen: string, env: Env)
    ensures
      var (next, kid) := CreateChild(w, id, def, gen, env);
      CreateBatch(w, id, [def], gen, env) == Batch(next, [if kid.Some? then kid.value else ""], kid.Some?)
  {
    hide CreateChild;
    assert [def][..0] == [] && CreateBatch(w, id, [], gen, env) == Batch(env, [], true);
  }

  lemma NoFork(w: World, id: string, t: Transition, pending: string, env: Env)
    requires t.kind != ForkKind
    ensures Bookkeeping(w, id, t, pending, env) == (env, Some(if t.IsJoin() then "" else pending))
  {}

  lemma StillChain(w: World, id: string, r: Run)
    requires FindAutomaticTransition(w, r.row.def, r.row.current, r.ctx).None?
    ensures Chain(w, id, r, 0) == Done(r)
  {
    hide Apply, FindAutomaticTransition;
  }

  lemma AfterMore(w: World, ops: seq<Op>, op: Op)
    ensures After(w, ops + [op]) == Perform(w, op, After(w, ops))
  {
    hide Perform;
    assert (ops + [op])[..|ops|] == ops;
  }

  /** Creating an instance whose first state is simple and has no automatic way on. */
  lemma NewPlain(w: World, def: Workflow, first: string)
    requires Calm(w) && def.states != [] && def.states[0] == Plain(first)
    requires FindAutomaticTransition(w, def, At(first), map[]).None?
    ensures After(w, [New(def)]).env == Env(2, map[w.uuid(0) := Fresh(def, At(first))], map[])
  {
    hide FreshIds, FindAutomaticTransition, Chain;
    AfterMore(w, [], New(def));
    assert [] + [New(def)] == [New(def)];
    StillChain(w, w.uuid(0), Begin(Fresh(def, At(first)), Env(1, map[], map[])));
  }

  lemma ChildPlain(w: World, def: Workflow, first: string, x: Workflow, start: string)
    requires Calm(w) && def.states != [] && def.states[0] == Plain(first) && x.states != [] && x.states[0] == Plain(start)
    requires FindAutomaticTransition(w, def, At(first), map[]).None?
    ensures w.uuid(0) != w.uuid(2)
    ensures After(w, [New(def), Child(w.uuid(0), x)]).env
         == Env(3, map[w.uuid(0) := Fresh(def, At(first)), w.uuid(2) := ChildRow(w.uuid(0), x, "", At(start))], map[])
  {
    hide FindAutomaticTransition;
    NewPlain(w, def, first);
    AfterMore(w, [New(def)], Child(w.uuid(0), x));
    assert [New(def)] + [Child(w.uuid(0), x)] == [New(def), Child(w.uuid(0), x)];
  }

  // ---- Offered and refused ------------------------------------------------

  function JoinDefinition(): Workflow {
    Definition(["a", "b"], [Arrow("a", "b", "go", UserTrigger, JoinKind)], ["b"])
  }

  lemma JoinLookup(w: World, event: string)
    ensures
      var t := Arrow("a", "b", "go", UserTrigger, JoinKind);
      && FindAutomaticTransition(w, JoinDefinition(), At("a"), map[]).None?
      && FindCandidateTransition(w, JoinDefinition(), At("a"), "go", map[]) == Some(t)
      && t in Candidates(JoinDefinition(), At("a"))
  {
    var t := Arrow("a", "b", "go", UserTrigger, JoinKind);
    PlainLookup(w, JoinDefinition(), "a", "go", map[]);
    FirstOfOne(t, Both(SourceIs("a"), Fires(w, "go", map[])));
    FirstOfOne(t, Both(SourceIs("a"), FiresNow(w, map[])));
    assert t in Filter([t], SourceIs("a")) by { assert SourceIs("a")(t); }
  }

  /** An instance with an incomplete child, at a join: the join's event is offered, and
      refused. */
  lemma OfferedAndRefused(w: World)
    requires Calm(w)
    ensures
      var def, id := JoinDefinition(), w.uuid(0);
      var env := After(w, [New(def), Child(id, def)]).env;
      && Live(env.store, id) && IsOffered(w, env.store[id], "go")
      && ProcessEvent(w, id, "go", env) == Refused(env, ChildrenNotComplete, false)
  {
    hide FindCandidateTransition, FindAutomaticTransition, Candidates, PossibleEvents, After;
    var def, id := JoinDefinition(), w.uuid(0);
    JoinLookup(w, "go");
    ChildPlain(w, def, "a", def, "a");
    var env := After(w, [New(def), Child(id, def)]).env;
    PossibleEventsExact(w, def, At("a"), "go", map[]);
    assert InScope(env.store[w.uuid(2)], id, "") && !env.store[w.uuid(2)].complete;
  }

  // ---- Succeeding without being offered -----------------------------------

  function DelayedDefinition(): Workflow {
    Definition(["a", "b"], [Arrow("a", "b", "late", AutomaticTrigger, KindUnset).(after := "1h")], ["b"])
  }

  lemma DelayedLookup(w: World)
    ensures
      var def := DelayedDefinition();
      var t := def.transitions[0];
      && FindAutomaticTransition(w, def, At("a"), map[]).None? && FindAutomaticTransition(w, def, At("b"), map[]).None?
      && FindCandidateTransition(w, def, At("a"), "late", map[]) == Some(t)
      && Candidates(def, At("a")) == [t]
  {
    var def := DelayedDefinition();
    var t := def.transitions[0];
    PlainLookup(w, def, "a", "late", map[]);
    PlainLookup(w, def, "b", "late", map[]);
    FirstOfOne(t, Both(SourceIs("a"), Fires(w, "late", map[])));
    FirstOfOne(t, Both(SourceIs("a"), FiresNow(w, map[])));
    FirstOfOne(t, Both(SourceIs("b"), FiresNow(w, map[])));
    assert [t][1..] == [] && SourceIs("a")(t);
  }

  /** A waiting timer's event is not offered, and succeeds when sent. */
  lemma UnofferedAndTaken(w: World)
    requires Calm(w)
    ensures
      var def, id := DelayedDefinition(), w.uuid(0);
      var env := After(w, [New(def)]).env;
      && Live(env.store, id) && !IsOffered(w, env.store[id], "late")
      && ProcessEvent(w, id, "late", env).Committed?
      && ProcessEvent(w, id, "late", env).env.store[id].current == At("b")
  {
    hide FindCandidateTransition, FindAutomaticTransition, Candidates, PossibleEvents, After, FreshIds, Apply, Chain, FindState, Bookkeeping,
      Summary, Entry, IsEndState;
    var def, id := DelayedDefinition(), w.uuid(0);
    DelayedLookup(w);
    NewPlain(w, def, "a");
    var env := After(w, [New(def)]).env;
    PossibleEventsExact(w, def, At("a"), "late", map[]);
    var t := def.transitions[0];
    var r := Begin(env.store[id], env);
    FindOfTwo("a", "b", "b");
    assert def.states == [Plain("a"), Plain("b")];
    NoFork(w, id, t, "", env);
    PlainMove(w, id, t, r, "a", "b", env, "");
    StillChain(w, id, Apply(w, id, t, r).run);
  }

  // ---- A join without its gate --------------------------------------------

  function UngatedDefinition(): Workflow {
    Definition(["a", "w", "b"],
      [Arrow("a", "w", "go", UserTrigger, KindUnset), Arrow("w", "b", "join", AutomaticTrigger, JoinKind)], ["b"])
  }

  lemma UngatedLookup(w: World)
    ensures
      var def := UngatedDefinition();
      && FindAutomaticTransition(w, def, At("a"), map[]).None?
      && FindCandidateTransition(w, def, At("a"), "go", map[]) == Some(def.transitions[0])
      && FindAutomaticTransition(w, def, At("w"), map[]) == Some(def.transitions[1])
      && FindAutomaticTransition(w, def, At("b"), map[]).None?
  {
    hide FindCandidateTransition, FindAutomaticTransition, FindPendingJoinTransition, Candidates, First;
    var def := UngatedDefinition();
    var t, u := def.transitions[0], def.transitions[1];
    PlainLookup(w, def, "a", "go", map[]);
    PlainLookup(w, def, "w", "go", map[]);
    PlainLookup(w, def, "b", "go", map[]);
    FirstOfTwo(t, u, Both(SourceIs("a"), Fires(w, "go", map[])));
    FirstOfTwo(t, u, Both(SourceIs("a"), FiresNow(w, map[])));
    FirstOfTwo(t, u, Both(SourceIs("w"), FiresNow(w, map[])));
    FirstOfTwo(t, u, Both(SourceIs("b"), FiresNow(w, map[])));
  }

  lemma IncompleteBlocks(store: map<string, Row>, id: string, gen: string, k: string)
    requires k in store && InScope(store[k], id, gen) && !store[k].complete
    ensures !AllChildrenComplete(store, id, gen)
  {}

  /** The two hops. */
  lemma UngatedHops(w: World, id: string, env: Env)
    requires Live(env.store, id) && env.store[id] == Fresh(UngatedDefinition(), At("a"))
    ensures
      var def := UngatedDefinition();
      var s := StepAndChain(w, id, def.transitions[0], Begin(env.store[id], env));
      && s.Done? && s.run.env == env && s.run.applied == def.transitions && s.run.row.current == At("b") && s.run.row.def == def
  {
    hide FindAutomaticTransition, Apply, Chain, UngatedDefinition, FindState, Bookkeeping, IsEndState, Summary, Entry;
    var def := UngatedDefinition();
    var t, u := Arrow("a", "w", "go", UserTrigger, KindUnset), Arrow("w", "b", "join", AutomaticTrigger, JoinKind);
    UngatedLookup(w);
    UngatedParts();
    var r := Begin(env.store[id], env);
    NoFork(w, id, t, "", env);
    PlainMove(w, id, t, r, "a", "w", env, "");
    var r1 := Apply(w, id, t, r).run;
    NoFork(w, id, u, "", env);
    PlainMove(w, id, u, r1, "w", "b", env, "");
    OneHop(w, id, r1, u);
    assert def.transitions == [] + [t] + [u];
  }

  lemma UngatedParts()
    ensures
      var def := UngatedDefinition();
      && def.transitions == [Arrow("a", "w", "go", UserTrigger, KindUnset), Arrow("w", "b", "join", AutomaticTrigger, JoinKind)]
      && FindState(def.states, "w") == Some(Plain("w")) && FindState(def.states, "b") == Some(Plain("b"))
  {
    assert UngatedDefinition().states == [Plain("a"), Plain("w"), Plain("b")];
    FindOfThree("a", "w", "b", "w");
    FindOfThree("a", "w", "b", "b");
  }

  /** The chain hops over an AUTOMATIC join while a child in its scope is incomplete. */
  lemma UngatedJoin(w: World)
    requires Calm(w)
    ensures
      var def, id := UngatedDefinition(), w.uuid(0);
      var env := After(w, [New(def), Child(id, JoinDefinition())]).env;
      var o := ProcessEvent(w, id, "go", env);
      && def.transitions[1].IsJoin() && !AllChildrenComplete(env.store, id, "")
      && o.Committed? && o.run.applied == def.transitions && o.run.row.current == At("b")
      && !AllChildrenComplete(o.env.store, id, "")
  {
    hide FindCandidateTransition, FindAutomaticTransition, After, FreshIds, StepAndChain, AllChildrenComplete, IsEndState;
    var def, id := UngatedDefinition(), w.uuid(0);
    UngatedLookup(w);
    ChildPlain(w, def, "a", JoinDefinition(), "a");
    var env := After(w, [New(def), Child(id, JoinDefinition())]).env;
    UngatedHops(w, id, env);
    ChildIncomplete(w, id);
    IncompleteBlocks(env.store, id, "", w.uuid(2));
    IncompleteBlocks(ProcessEvent(w, id, "go", env).env.store, id, "", w.uuid(2));
  }

  lemma ChildIncomplete(w: World, id: string)
    ensures var c := ChildRow(id, JoinDefinition(), "", At("a")); !c.complete && InScope(c, id, "")
  {}

  lemma OneHop(w: World, id: string, r: Run, t: Transition)
    requires FindAutomaticTransition(w, r.row.def, r.row.current, r.ctx) == Some(t) && Apply(w, id, t, r).Done?
    requires var x := Apply(w, id, t, r).run; FindAutomaticTransition(w, x.row.def, x.row.current, x.ctx).None?
    ensures Chain(w, id, r, 0) == Apply(w, id, t, r)
  {
    hide Apply, FindAutomaticTransition;
  }

  // ---- Orphans ------------------------------------------------------------

  function ChildDefinition(): Workflow {
    Definition(["x", "y"], [Arrow("x", "y", "done", UserTrigger, KindUnset)], ["y"])
  }

  /** A fork whose own effect then fails. */
  function FailingFork(): Transition {
    Arrow("a", "w", "fork", UserTrigger, ForkKind).(
      forkTargets := [ForkTarget("", Some(ChildDefinition()))],
      entryActions := [Action(CreateChildWorkflowAction, "", "", false, false, "", map[], None)])
  }

  function OrphanDefinition(): Workflow {
    Definition(["a", "w"], [FailingFork()], [])
  }

  lemma OrphanLookup(w: World)
    ensures
      && FindAutomaticTransition(w, OrphanDefinition(), At("a"), map[]).None?
      && FindCandidateTransition(w, OrphanDefinition(), At("a"), "fork", map[]) == Some(FailingFork())
  {
    var t := FailingFork();
    PlainLookup(w, OrphanDefinition(), "a", "fork", map[]);
    FirstOfOne(t, Both(SourceIs("a"), Fires(w, "fork", map[])));
    FirstOfOne(t, Both(SourceIs("a"), FiresNow(w, map[])));
  }

  lemma EffectFails(w: World, id: string, ctx: Context, env: Env)
    ensures ExecuteActions(w, id, FailingFork().entryActions, ctx, env) == Exec(ctx, env, false)
  {
    var actions := FailingFork().entryActions;
    assert RunLength(actions) == 1 && actions[..1] == actions;
    assert Definitions(actions).None?;
  }

  /** The event is refused and its row is as it was, waiting for no one; the child the
      fork created stays, stamped with a generation nobody waits for. */
  lemma OrphanStays(w: World)
    requires Calm(w)
    ensures
      var def, id := OrphanDefinition(), w.uuid(0);
      var before, after_ := After(w, [New(def)]).env, After(w, [New(def), Event(id, "fork")]).env;
      && ProcessEvent(w, id, "fork", before).Refused? && id in before.store && id in after_.store
      && after_.store[id] == before.store[id] && after_.store[id].pendingForkGeneration == ""
      && w.uuid(3) !in before.store && w.uuid(3) in after_.store
      && after_.store[w.uuid(3)].parentId == Some(id) && after_.store[w.uuid(3)].forkGeneration == w.uuid(2) != ""
  {
    hide FindCandidateTransition, FindAutomaticTransition, After, Apply, Chain, Bookkeeping, ExecuteActions;
    var def, id := OrphanDefinition(), w.uuid(0);
    OrphanLookup(w);
    NewPlain(w, def, "a");
    AfterMore(w, [New(def)], Event(id, "fork"));
    assert [New(def)] + [Event(id, "fork")] == [New(def), Event(id, "fork")];
    var env := After(w, [New(def)]).env;
    var r := Begin(env.store[id], env);
    assert def.states == [Plain("a"), Plain("w")];
    FindOfTwo("a", "w", "w");
    OneChildFork(w, id, FailingFork(), ChildDefinition(), "x", "", env);
    var (forked, gen) := Bookkeeping(w, id, FailingFork(), "", env);
    PlainMove(w, id, FailingFork(), r, "a", "w", forked, gen.value);
    EffectFails(w, id, r.ctx, forked);
  }

  // ---- A child that finishes too early ------------------------------------

  function ForkingDefinition(): Workflow {
    Definition(["a", "w", "b"],
      [Arrow("a", "w", "fork", UserTrigger, ForkKind).(forkTargets := [ForkTarget("", Some(ChildDefinition()))]),
       Arrow("w", "b", "join", UserTrigger, JoinKind)], ["b"])
  }

  lemma ForkingLookup(w: World)
    ensures
      var def := ForkingDefinition();
      && FindAutomaticTransition(w, def, At("a"), map[]).None? && FindAutomaticTransition(w, def, At("w"), map[]).None?
      && FindCandidateTransition(w, def, At("a"), "fork", map[]) == Some(def.transitions[0])
      && FindPendingJoinTransition(def, At("a")).None? && FindPendingJoinTransition(def, At("w")) == Some(def.transitions[1])
  {
    var def := ForkingDefinition();
    var t, u := def.transitions[0], def.transitions[1];
    PlainLookup(w, def, "a", "fork", map[]);
    PlainLookup(w, def, "w", "fork", map[]);
    FirstOfTwo(t, u, Both(SourceIs("a"), Fires(w, "fork", map[])));
    FirstOfTwo(t, u, Both(SourceIs("a"), FiresNow(w, map[])));
    FirstOfTwo(t, u, Both(SourceIs("w"), FiresNow(w, map[])));
    FirstOfTwo(t, u, Both(SourceIs("a"), JoinPoint()));
    FirstOfTwo(t, u, Both(SourceIs("w"), JoinPoint()));
  }

  lemma ChildLookup(w: World)
    ensures
      var def := ChildDefinition();
      && FindAutomaticTransition(w, def, At("y"), map[]).None?
      && FindCandidateTransition(w, def, At("x"), "done", map[]) == Some(def.transitions[0])
  {
    var def := ChildDefinition();
    var t := def.transitions[0];
    PlainLookup(w, def, "x", "done", map[]);
    PlainLookup(w, def, "y", "done", map[]);
    FirstOfOne(t, Both(SourceIs("x"), Fires(w, "done", map[])));
    FirstOfOne(t, Both(SourceIs("y"), FiresNow(w, map[])));
  }

  /** The fork's step: its child inserted, its parent at the join. */
  lemma ForkSteps(w: World, id: string, env: Env)
    requires Calm(w) && env == Env(2, map[id := Fresh(ForkingDefinition(), At("a"))], map[]) && id == w.uuid(0)
    ensures
      var s := StepAndChain(w, id, ForkingDefinition().transitions[0], Begin(env.store[id], env));
      && s.Done? && s.run.row.current == At("w") && s.run.ctx == map[] && s.run.row.pendingForkGeneration == w.uuid(2)
      && w.uuid(3) != id && s.run.env.store == env.store[w.uuid(3) := ChildRow(id, ChildDefinition(), w.uuid(2), At("x"))]
  {
    hide FindAutomaticTransition, Apply, Chain, Bookkeeping, ForkingDefinition, ChildDefinition, FindState, FreshIds, Record, Summary, Entry;
    var def := ForkingDefinition();
    ForkingLookup(w);
    ForkingParts();
    var t, r := def.transitions[0], Begin(env.store[id], env);
    assert w.uuid(3) != w.uuid(0) by { Distinct(w); }
    OneChildFork(w, id, t, ChildDefinition(), "x", "", env);
    var (forked, gen) := Bookkeeping(w, id, t, "", env);
    PlainMove(w, id, t, r, "a", "w", forked, gen.value);
    StillChain(w, id, Apply(w, id, t, r).run);
  }

  lemma Distinct(w: World)
    requires FreshIds(w)
    ensures w.uuid(3) != w.uuid(0)
  {}

  lemma ForkingParts()
    ensures
      var def := ForkingDefinition();
      var t := def.transitions[0];
      && t.kind == ForkKind && t.target == "w" && t.entryActions == [] && t.forkTargets == [ForkTarget("", Some(ChildDefinition()))]
      && FindState(def.states, "w") == Some(Plain("w"))
      && ChildDefinition().states != [] && ChildDefinition().states[0] == Plain("x")
  {
    assert ForkingDefinition().states == [Plain("a"), Plain("w"), Plain("b")];
    FindOfThree("a", "w", "b", "w");
  }

  /** The fork as one event: it inserts its child and commits the waiting parent. */
  lemma ForkCommits(w: World)
    requires Calm(w)
    ensures
      var def, id := ForkingDefinition(), w.uuid(0);
      var env := After(w, [New(def)]).env;
      var o := ProcessEvent(w, id, "fork", env);
      && env == Env(2, map[id := Fresh(def, At("a"))], map[])
      && o.Committed? && id in o.env.store && w.uuid(3) != id
      && o.env.store == map[id := o.env.store[id], w.uuid(3) := ChildRow(id, ChildDefinition(), w.uuid(2), At("x"))]
      && o.env.store[id].current == At("w") && o.env.store[id].def == def && o.env.store[id].contextMap == map[]
      && o.env.store[id].parentId == None && o.env.store[id].pendingForkGeneration == w.uuid(2)
      && !o.env.store[id].deleted && o.env.store[id].forkGeneration == "" && !o.env.store[id].complete
  {
    hide FindCandidateTransition, FindAutomaticTransition, After, StepAndChain;
    var def, id := ForkingDefinition(), w.uuid(0);
    ForkingLookup(w);
    NewPlain(w, def, "a");
    var env := After(w, [New(def)]).env;
    ForkSteps(w, id, env);
    StepKeepsIdentity(w, id, def.transitions[0], Begin(env.store[id], env));
  }

  /** The child's event completes it and notifies its parent. */
  lemma ChildCompletes(w: World, kid: string, parent: string, gen: string, env: Env)
    requires Calm(w) && kid in env.store && env.store[kid] == ChildRow(parent, ChildDefinition(), gen, At("x"))
    ensures
      var o := ProcessEvent(w, kid, "done", env);
      && o.Committed? && o.notify == Some(parent) && kid in o.env.store
      && o.env.store == env.store[kid := o.env.store[kid]]
      && o.env.store[kid].complete && o.env.store[kid].parentId == Some(parent) && o.env.store[kid].def == env.store[kid].def
      && o.env.store[kid].forkGeneration == gen && !o.env.store[kid].deleted
  {
    hide FindCandidateTransition, FindAutomaticTransition, Apply, Chain, FreshIds;
    var def := ChildDefinition();
    ChildLookup(w);
    var t, r := def.transitions[0], Begin(env.store[kid], env);
    assert def.states == [Plain("x"), Plain("y")];
    FindOfTwo("x", "y", "y");
    PlainMove(w, kid, t, r, "x", "y", env, "");
    StillChain(w, kid, Apply(w, kid, t, r).run);
  }

  lemma ReadsNothing(w: World, store: map<string, Row>, id: string)
    requires id in store && store[id] == Fresh(ForkingDefinition(), At("a"))
    ensures A.ReadParent(w, store, id).None?
  {
    ForkingLookup(w);
  }

  lemma ReadsJoin(w: World, store: map<string, Row>, id: string)
    requires Live(store, id) && store[id].def == ForkingDefinition() && store[id].current == At("w")
    ensures A.ReadParent(w, store, id) == Some(("join", store[id].pendingForkGeneration))
  {
    hide FindPendingJoinTransition;
    ForkingLookup(w);
  }

  /** The end of the run below: everyone is done. `p1` is the parent's row, `k1` the
      child's. */
  lemma EarlyEnd(id: string, kid: string, p1: Row, k1: Row, a: A.Wait)
    requires id != kid && p1.parentId == None && k1.complete && a.parent == id
    ensures
      var s := A.Net(map[id := p1, kid := k1], [A.Attempt(id, A.Finished)], []);
      A.NoneLeft(a, s.store) && A.AllFinished(a, s) && AllChildrenComplete(s.store, id, a.gen)
  {}

  /** The commits of the run below: the fork's insert, the child's, the parent's. */
  lemma EarlyCommits(id: string, kid: string, p0: Row, p1: Row, k0: Row, k1: Row)
    requires id != kid && p0.parentId == None && p1.parentId == None && p0.forkGeneration == p1.forkGeneration && p0.deleted == p1.deleted
    requires k0.parentId == Some(id) && !k0.complete
    requires k1.parentId == Some(id) && k1.forkGeneration == k0.forkGeneration && k1.deleted == k0.deleted && k1.complete
    ensures A.CommitOf(A.Net(map[id := p0], [], []), A.Net(map[id := p0, kid := k0], [], []), id)
    ensures A.CommitOf(A.Net(map[id := p0, kid := k0], [], []), A.Net(map[id := p0, kid := k1], [A.Attempt(id, A.Spawned)], []), kid)
    ensures
      var over := [A.Attempt(id, A.Finished)];
      A.CommitOf(A.Net(map[id := p0, kid := k1], over, []), A.Net(map[id := p1, kid := k1], over, []), id)
  {}

  lemma EarlyRead(w: World, id: string, store: map<string, Row>)
    requires A.ReadParent(w, store, id).None?
    ensures A.AfterRead(w, A.Net(store, [A.Attempt(id, A.Spawned)], []), 0) == A.Net(store, [A.Attempt(id, A.Finished)], [])
  {
    hide A.ReadParent;
  }

  /** The run: the fork inserts its child while the parent's row is still the old one,
      the child commits its completion, its attempt looks at the old row and is over,
      and only then the parent commits. Now it waits at its join, all its children are
      complete and every attempt is over. */
  lemma EarlyChild(w: World) returns (run: seq<A.Net>, a: A.Wait)
    requires Calm(w)
    ensures
      var id, kid := w.uuid(0), w.uuid(3);
      var before := After(w, [New(ForkingDefinition())]).env;
      var forked := ProcessEvent(w, id, "fork", before);
      && |run| == 5 && run[0] == A.Net(before.store, [], []) && a.parent == id
      && forked.Committed? && id in forked.env.store && kid in forked.env.store
      && run[1].store == before.store[kid := forked.env.store[kid]]
      && run[2].store == ProcessEvent(w, kid, "done", Env(4, run[1].store, map[])).env.store
      && run[3] == A.Net(run[2].store, [A.Attempt(id, A.Finished)], [])
      && run[4] == run[3].(store := run[3].store[id := forked.env.store[id]])
    ensures A.CommitOf(run[0], run[1], w.uuid(0)) && A.CommitOf(run[1], run[2], w.uuid(3))
    ensures |run[2].attempts| == 1 && run[3] == A.AfterRead(w, run[2], 0) && A.CommitOf(run[3], run[4], w.uuid(0))
    ensures A.Waiting(w, a, run[4].store) && A.NoneLeft(a, run[4].store) && A.AllFinished(a, run[4]) && run[4].sent == []
    ensures AllChildrenComplete(run[4].store, a.parent, a.gen)
  {
    hide FindPendingJoinTransition, FindCandidateTransition, FindAutomaticTransition, After, StepAndChain, ProcessEvent, A.ReadParent,
      ForkingDefinition, ChildDefinition, IsEndState, A.CommitOf, A.NoneLeft, A.AllFinished, AllChildrenComplete, A.AfterRead;
    var id, kid := w.uuid(0), w.uuid(3);
    ForkCommits(w);
    var before := After(w, [New(ForkingDefinition())]).env;
    var forked := ProcessEvent(w, id, "fork", before).env.store;
    var p0, p1, k0 := before.store[id], forked[id], forked[kid];
    ChildStartsIncomplete(id, w.uuid(2));
    var env := Env(4, map[id := p0, kid := k0], map[]);
    ChildCompletes(w, kid, id, w.uuid(2), env);
    var k1 := ProcessEvent(w, kid, "done", env).env.store[kid];
    ReadsNothing(w, map[id := p0, kid := k1], id);
    ReadsJoin(w, map[id := p1, kid := k1], id);
    a := A.Wait(id, p1, "join", w.uuid(2));
    EarlyCommits(id, kid, p0, p1, k0, k1);
    EarlyRead(w, id, map[id := p0, kid := k1]);
    EarlyEnd(id, kid, p1, k1, a);
    run := [A.Net(map[id := p0], [], []), A.Net(map[id := p0, kid := k0], [], []),
            A.Net(map[id := p0, kid := k1], [A.Attempt(id, A.Spawned)], []),
            A.Net(map[id := p0, kid := k1], [A.Attempt(id, A.Finished)], []),
            A.Net(map[id := p1, kid := k1], [A.Attempt(id, A.Finished)], [])];
  }

  lemma ChildStartsIncomplete(parent: string, gen: string)
    ensures !ChildRow(parent, ChildDefinition(), gen, At("x")).complete
    ensures ChildRow(parent, ChildDefinition(), gen, At("x")).parentId == Some(parent)
    ensures ChildRow(parent, ChildDefinition(), gen, At("x")).forkGeneration == gen
  {}

  /** A continuation in which complete children stay complete and the parent gets no new
      ones. */
  ghost predicate GoesOn(w: World, a: A.Wait, s: A.Net, more: seq<A.Net>) {
    A.NetRun(w, a, more) && more[0] == s && forall i :: 0 <= i < |more| - 1 ==> A.StayComplete(a, more[i], more[i + 1])
  }

  ghost predicate NothingSent(a: A.Wait, s: A.Net) {
    forall k :: 0 <= k < |s.sent| ==> s.sent[k].0 != a.parent
  }

  /** Main result: so auto-join never dispatches the join of that parent, although its
      gate would pass, however the run goes on. */
  lemma EarlyChildIsMissed(w: World) returns (run: seq<A.Net>, a: A.Wait)
    requires Calm(w)
    ensures |run| == 5 && A.Waiting(w, a, run[4].store) && AllChildrenComplete(run[4].store, a.parent, a.gen)
    ensures forall more :: GoesOn(w, a, run[4], more) ==> NothingSent(a, more[|more| - 1])
  {
    run, a := EarlyChild(w);
    hide A.Waiting, A.NetRun, A.StayComplete, A.NoneLeft, A.AllFinished, AllChildrenComplete, After, A.CommitOf, ProcessEvent, A.AfterRead;
    forall more | GoesOn(w, a, run[4], more) ensures NothingSent(a, more[|more| - 1]) {
      A.LateParentIsNeverWoken(w, a, more);
    }
  }
}
