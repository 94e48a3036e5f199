/** Creating an instance (engine/workflow_ops.go:30-65): its automatic hops run
    before its row exists, and a child is only created under a parent whose row
    does. So a definition that forks on its way to its first resting place cannot
    be instantiated. */
module Creation {
  import opened Model
  import opened Persistence
  import opened Lookup
  import opened Children
  import opened Actions
  import opened Transitions
  import opened WorkflowOps
  import opened RunInvariants
  import opened AutomaticChain

  /** The table is as it was. */
  predicate SameStore(e: Env, f: Env) { f.store == e.store && f.cohorts == e.cohorts }

  /** Without a live row of its own, an instance cannot create children. */
  lemma {:induction false} NoBatch(w: World, id: string, defs: seq<Workflow>, gen: string, env: Env)
    requires !Live(env.store, id)
    ensures CreateBatch(w, id, defs, gen, env).env == env
    ensures CreateBatch(w, id, defs, gen, env).ok <==> defs == []
  {
    if defs != [] { NoBatch(w, id, defs[..|defs| - 1], gen, env); }
  }

  lemma NoRun(w: World, id: string, run: seq<Action>, ctx: Context, env: Env)
    requires !Live(env.store, id) && run != []
    ensures !CreateRun(w, id, run, ctx, env).ok && CreateRun(w, id, run, ctx, env).env == env
  {
    if Definitions(run).Some? { NoBatch(w, id, Definitions(run).value, "", env); }
  }

  lemma OneKeepsStore(w: World, id: string, a: Action, ctx: Context, env: Env)
    requires !CreatesChild(a)
    ensures SameStore(env, ExecuteOne(w, id, a, ctx, env).env)
  {}

  lemma {:induction false} NoChildAction(w: World, id: string, actions: seq<Action>, ctx: Context, env: Env)
    requires !Live(env.store, id)
    ensures SameStore(env, ExecuteActions(w, id, actions, ctx, env).env)
    ensures ExecuteActions(w, id, actions, ctx, env).ok ==> forall a :: a in actions ==> !CreatesChild(a)
    decreases |actions|
  {
    if actions != [] {
      hide ExecuteOne, CreateRun;
      var e := ExecuteFront(w, id, actions, ctx, env);
      var n := RunLength(actions);
      if n > 0 {
        NoRun(w, id, actions[..n], ctx, env);
      } else {
        OneKeepsStore(w, id, actions[0], ctx, env);
        assert actions == [actions[0]] + actions[1..];
        if e.ok { NoChildAction(w, id, actions[1..], e.ctx, e.env); }
      }
    }
  }

  lemma {:induction false} NoChildPhase(w: World, id: string, phases: seq<Phase>, ctx: Context, env: Env)
    requires !Live(env.store, id)
    ensures SameStore(env, RunPhases(w, id, phases, ctx, env).env)
  {
    hide ExecuteActions;
    if phases != [] {
      NoChildAction(w, id, phases[0].Actions(), ctx, env);
      var e := ExecuteActions(w, id, phases[0].Actions(), ctx, env);
      if e.ok { NoChildPhase(w, id, phases[1..], e.ctx, e.env); }
    }
  }

  lemma NoFork(w: World, id: string, t: Transition, pending: string, env: Env)
    requires !Live(env.store, id)
    ensures SameStore(env, Bookkeeping(w, id, t, pending, env).0)
    ensures t.kind == ForkKind ==> Bookkeeping(w, id, t, pending, env).1.None?
  {
    hide CreateBatch, ForkDefinitions;
    if t.kind == ForkKind && ForkDefinitions(t.forkTargets).Some? {
      NoBatch(w, id, ForkDefinitions(t.forkTargets).value, w.uuid(env.tick), env.(tick := env.tick + 1));
    }
  }

  lemma NoChildMove(w: World, id: string, t: Transition, r: Run)
    requires !Live(r.env.store, id)
    ensures SameStore(r.env, ApplyMove(w, id, t, r).Env())
    ensures ApplyMove(w, id, t, r).Done? && !IsLocal(r.row.current, t) ==> t.kind != ForkKind
  {
    hide RunPhases, Bookkeeping, ExecuteActions, Destination, Leaving, Arriving, Remember, Moved, IsLocal;
    var at := r.row.current;
    NoChildPhase(w, id, Leaving(at, t), r.ctx, r.env);
    var e := RunPhases(w, id, Leaving(at, t), r.ctx, r.env);
    NoFork(w, id, t, r.row.pendingForkGeneration, e.env);
    var (env, h) := Depart(w, id, t, r);
    if h.Some? {
      NoChildPhase(w, id, Arriving(IsLocal(at, t), h.value.dest), h.value.ctx, env);
      var x := RunPhases(w, id, Arriving(IsLocal(at, t), h.value.dest), h.value.ctx, env);
      NoChildAction(w, id, t.entryActions, x.ctx, x.env);
    }
  }

  lemma {:induction false} NoChildChain(w: World, id: string, r: Run, hop: nat)
    requires hop <= MAX_AUTOMATIC_HOPS && !Live(r.env.store, id)
    ensures SameStore(r.env, Chain(w, id, r, hop).Env())
    decreases MAX_AUTOMATIC_HOPS - hop
  {
    hide ApplyMove, ExecuteActions, FindAutomaticTransition;
    var t := FindAutomaticTransition(w, r.row.def, r.row.current, r.ctx);
    if hop < MAX_AUTOMATIC_HOPS && t.Some? {
      NoChildMove(w, id, t.value, r);
      NoChildAction(w, id, t.value.entryActions, r.ctx, r.env);
      var s := Apply(w, id, t.value, r);
      if s.Done? { NoChildChain(w, id, s.run, hop + 1); }
    }
  }

  /** Main result: creating an instance under a fresh id adds its row or nothing. Any
      child its start would have created makes the creation fail. */
  lemma CreationAddsOneRow(w: World, def: Workflow, env: Env)
    requires w.uuid(env.tick) !in env.store
    ensures
      var (next, made) := NewInstance(w, def, env);
      && next.cohorts == env.cohorts
      && (made.None? ==> next.store == env.store)
      && (made.Some? ==> made.value.0 == w.uuid(env.tick) && next.store == env.store[made.value.0 := made.value.1.row])
  {
    hide Chain, InitialPosition;
    if def.states != [] && InitialPosition(def.states[0]).Some? {
      var env1 := env.(tick := env.tick + 1);
      NoChildChain(w, w.uuid(env.tick), Begin(Fresh(def, InitialPosition(def.states[0]).value), env1), 0);
    }
  }

  // ---- Starts that would create a child -----------------------------------

  predicate Childless(actions: seq<Action>) {
    forall a :: a in actions ==> !CreatesChild(a)
  }

  ghost predicate ChildlessPhases(phases: seq<Phase>) {
    forall p :: p in phases ==> Childless(p.Actions())
  }

  /** A hop that forks for real, or reaches a create-child action on leaving, on
      arriving or as its effect. */
  ghost predicate WouldCreate(x: Run, t: Transition) {
    || !Childless(t.entryActions)
    || (t.kind == ForkKind && !IsLocal(x.row.current, t))
    || (t.kind != InternalKind && !ChildlessPhases(Leaving(x.row.current, t)))
    || (t.kind != InternalKind && WouldArriveCreating(x, t))
  }

  ghost predicate WouldArriveCreating(x: Run, t: Transition) {
    var at := x.row.current;
    var dest := Destination(x.row.def, at, t, Remember(at, t, x.row.compositeHistory));
    dest.Some? && !ChildlessPhases(Arriving(IsLocal(at, t), dest.value))
  }

  lemma {:induction false} PhasesRanChildless(w: World, id: string, phases: seq<Phase>, ctx: Context, env: Env)
    requires !Live(env.store, id) && RunPhases(w, id, phases, ctx, env).ok
    ensures ChildlessPhases(phases)
  {
    hide ExecuteActions, Childless;
    if phases != [] {
      NoChildAction(w, id, phases[0].Actions(), ctx, env);
      assert Childless(phases[0].Actions()) by { RanChildless(w, id, phases[0].Actions(), ctx, env); }
      var e := ExecuteActions(w, id, phases[0].Actions(), ctx, env);
      PhasesRanChildless(w, id, phases[1..], e.ctx, e.env);
      assert phases == [phases[0]] + phases[1..];
    }
  }

  lemma RanChildless(w: World, id: string, actions: seq<Action>, ctx: Context, env: Env)
    requires !Live(env.store, id) && ExecuteActions(w, id, actions, ctx, env).ok
    ensures Childless(actions)
  {
    hide ExecuteActions;
    NoChildAction(w, id, actions, ctx, env);
  }

  /** A move that succeeds without a row of its own has created nothing. */
  lemma MoveCreatesNothing(w: World, id: string, t: Transition, x: Run)
    requires !Live(x.env.store, id) && ApplyMove(w, id, t, x).Done?
    ensures t.kind != InternalKind ==> !WouldCreate(x, t)
  {
    hide RunPhases, Bookkeeping, ExecuteActions, Destination, Leaving, Arriving, Remember, Moved, IsLocal, Childless, ChildlessPhases;
    var at := x.row.current;
    NoChildMove(w, id, t, x);
    PhasesRanChildless(w, id, Leaving(at, t), x.ctx, x.env);
    NoChildPhase(w, id, Leaving(at, t), x.ctx, x.env);
    NoFork(w, id, t, x.row.pendingForkGeneration, RunPhases(w, id, Leaving(at, t), x.ctx, x.env).env);
    var (env, h) := Depart(w, id, t, x);
    var phases := Arriving(IsLocal(at, t), h.value.dest);
    PhasesRanChildless(w, id, phases, h.value.ctx, env);
    NoChildPhase(w, id, phases, h.value.ctx, env);
    var e := RunPhases(w, id, phases, h.value.ctx, env);
    RanChildless(w, id, t.entryActions, e.ctx, e.env);
  }

  lemma HopCreatesNothing(w: World, id: string, t: Transition, x: Run)
    requires !Live(x.env.store, id) && Apply(w, id, t, x).Done?
    ensures !WouldCreate(x, t) && SameStore(x.env, Apply(w, id, t, x).run.env)
  {
    hide ApplyMove, ExecuteActions, Childless, ChildlessPhases, WouldArriveCreating;
    NoChildMove(w, id, t, x);
    if t.kind == InternalKind {
      NoChildAction(w, id, t.entryActions, x.ctx, x.env);
      RanChildless(w, id, t.entryActions, x.ctx, x.env);
    } else {
      MoveCreatesNothing(w, id, t, x);
    }
  }

  lemma {:induction false} HopsKeepStore(w: World, id: string, r: Run, n: nat)
    requires !Live(r.env.store, id) && Hops(w, id, r, n).Some?
    ensures SameStore(r.env, Hops(w, id, r, n).value.env)
  {
    hide Apply, FindAutomaticTransition, WouldCreate;
    if n > 0 {
      HopsKeepStore(w, id, r, n - 1);
      var x, t := LastHop(w, id, r, n);
      HopCreatesNothing(w, id, t, x);
    }
  }

  /** Main result: if the automatic hops of a start lead, after however many hops, to
      one that would fork or create a child, then the definition cannot be
      instantiated. */
  lemma CreatingStartFails(w: World, def: Workflow, env: Env, n: nat)
    requires w.uuid(env.tick) !in env.store && Startable(def)
    requires
      var x := Hops(w, w.uuid(env.tick), FirstRun(w, def, env), n);
      x.Some? && NextHop(w, x.value).Some? && WouldCreate(x.value, NextHop(w, x.value).value)
    ensures NewInstance(w, def, env).1.None?
  {
    hide Chain, Hops, Apply, FindAutomaticTransition, WouldCreate, InitialPosition;
    var id, r := w.uuid(env.tick), FirstRun(w, def, env);
    HopsKeepStore(w, id, r, n);
    var x := Hops(w, id, r, n).value;
    if Apply(w, id, NextHop(w, x).value, x).Done? { HopCreatesNothing(w, id, NextHop(w, x).value, x); }
    assert FailsAt(w, id, r, n);
    if n >= MAX_AUTOMATIC_HOPS { HopsShrink(w, id, r, MAX_AUTOMATIC_HOPS, n); }
    ChainExact(w, id, r);
  }

  /** The run a creation starts with. */
  ghost function FirstRun(w: World, def: Workflow, env: Env): Run
    requires Startable(def)
  {
    Begin(Fresh(def, Start(def)), env.(tick := env.tick + 1))
  }
}
