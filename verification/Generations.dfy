/** What a generation id stands for (engine/transitions.go:298-322,
    engine/children.go:90-171): the children of exactly one fork. Children of
    other forks, orphans of rolled-back ones included, neither block a join nor
    satisfy it. */
module Generations {
  import opened Model
  import opened Persistence
  import opened Lookup
  import opened Children
  import opened Actions
  import opened Transitions
  import opened WorkflowOps
  import opened RunInvariants

  /** UUIDs do not repeat and are not empty. */
  ghost predicate FreshIds(w: World) {
    (forall i: nat, j: nat :: i != j ==> w.uuid(i) != w.uuid(j)) && forall i: nat :: w.uuid(i) != ""
  }

  /** `g` has been handed out before `tick`. */
  ghost predicate Issued(w: World, tick: nat, g: string) {
    exists t: nat :: t < tick && w.uuid(t) == g
  }

  lemma IssuedNot(w: World, tick: nat)
    requires FreshIds(w)
    ensures !Issued(w, tick, w.uuid(tick))
  {}

  /** A child carries a generation exactly when the fork of that generation
      created it. */
  ghost predicate CohortsFit(w: World, env: Env) {
    && (forall g :: g in env.cohorts ==> g != "" && Issued(w, env.tick, g))
    && (forall c :: c in env.store && env.store[c].forkGeneration != "" ==>
          var g := env.store[c].forkGeneration;
          g in env.cohorts && c in env.cohorts[g].kids)
    && (forall g, k :: g in env.cohorts && k in env.cohorts[g].kids ==>
          k in env.store && env.store[k].forkGeneration == g && env.store[k].parentId == Some(env.cohorts[g].parent))
  }

  /** The generation an instance waits for was stamped by one of its own forks. */
  ghost predicate PendingFits(env: Env, id: string, pending: string) {
    pending != "" ==> pending in env.cohorts && env.cohorts[pending].parent == id
  }

  /** No fork adds to the cohort of another one. */
  ghost predicate CohortsKept(env: Env, next: Env) {
    forall g :: g in env.cohorts ==> g in next.cohorts && next.cohorts[g] == env.cohorts[g]
  }

  lemma AdHocKeeps(w: World, id: string, env: Env, next: Env)
    requires CohortsFit(w, env) && Grows(id, env, next) && AdHoc(env, next)
    ensures CohortsFit(w, next) && CohortsKept(env, next)
  {
    forall g | g in next.cohorts ensures Issued(w, next.tick, g) {
      var t: nat :| t < env.tick && w.uuid(t) == g;
    }
  }

  ghost function KidsOf(env: Env, gen: string): set<string> {
    if gen in env.cohorts then env.cohorts[gen].kids else {}
  }

  /** One child of a running fork joins its cohort and no other. */
  lemma CreateChildRecords(w: World, id: string, def: Workflow, gen: string, env: Env)
    requires gen != "" && (gen in env.cohorts ==> env.cohorts[gen].parent == id)
    ensures
      var (next, kid) := CreateChild(w, id, def, gen, env);
      && (forall g :: g in env.cohorts && g != gen ==> g in next.cohorts && next.cohorts[g] == env.cohorts[g])
      && (gen in next.cohorts ==> next.cohorts[gen].parent == id)
      && KidsOf(next, gen) == KidsOf(env, gen) + (if kid.Some? then {kid.value} else {})
      && (kid.Some? || gen in env.cohorts ==> gen in next.cohorts)
  {}

  lemma IssuedLater(w: World, tick: nat, later: nat, g: string)
    requires Issued(w, tick, g) && tick <= later
    ensures Issued(w, later, g)
  {
    var t: nat :| t < tick && w.uuid(t) == g;
  }

  lemma CreateChildKeeps(w: World, id: string, def: Workflow, gen: string, env: Env)
    requires CohortsFit(w, env) && gen != "" && Issued(w, env.tick, gen)
    requires gen in env.cohorts ==> env.cohorts[gen].parent == id
    ensures
      var next := CreateChild(w, id, def, gen, env).0;
      CohortsFit(w, next) && Issued(w, next.tick, gen)
  {
    hide Issued, CohortsFit;
    var (next, kid) := CreateChild(w, id, def, gen, env);
    IssuedLater(w, env.tick, next.tick, gen);
    if kid.Some? {
      CreateChildShape(w, id, def, gen, env);
      RecordFits(w, env, id, gen, kid.value, next.store[kid.value]);
    } else {
      TickFits(w, env, next.tick);
    }
  }

  lemma TickFits(w: World, env: Env, tick: nat)
    requires CohortsFit(w, env) && env.tick <= tick
    ensures CohortsFit(w, env.(tick := tick))
  {
    hide Issued;
    forall g | g in env.cohorts ensures Issued(w, tick, g) { IssuedLater(w, env.tick, tick, g); }
  }

  lemma RecordFits(w: World, env: Env, id: string, gen: string, kid: string, row: Row)
    requires CohortsFit(w, env) && gen != "" && Issued(w, env.tick + 1, gen) && kid !in env.store
    requires (gen in env.cohorts ==> env.cohorts[gen].parent == id) && row.parentId == Some(id) && row.forkGeneration == gen
    ensures CohortsFit(w, Env(env.tick + 1, env.store[kid := row], Record(env.cohorts, gen, id, kid)))
  {
    hide Issued;
    forall g | g in env.cohorts ensures Issued(w, env.tick + 1, g) { IssuedLater(w, env.tick, env.tick + 1, g); }
  }

  lemma {:induction false} CreateBatchKeeps(w: World, id: string, defs: seq<Workflow>, gen: string, env: Env)
    requires CohortsFit(w, env) && gen != "" && Issued(w, env.tick, gen) && gen !in env.cohorts
    ensures
      var b := CreateBatch(w, id, defs, gen, env);
      && CohortsFit(w, b.env) && CohortsKept(env, b.env) && Issued(w, b.env.tick, gen)
      && (gen in b.env.cohorts ==> b.env.cohorts[gen].parent == id)
      && (b.ok ==> KidsOf(b.env, gen) == set x | x in b.ids)
      && (b.ok && defs != [] ==> gen in b.env.cohorts)
  {
    hide CohortsFit, CreateChild, Issued;
    if defs != [] {
      var n := |defs| - 1;
      CreateBatchKeeps(w, id, defs[..n], gen, env);
      var b := CreateBatch(w, id, defs[..n], gen, env);
      CreateChildRecords(w, id, defs[n], gen, b.env);
      CreateChildKeeps(w, id, defs[n], gen, b.env);
      var c := CreateBatch(w, id, defs, gen, env);
      assert c.ok ==> (set x | x in c.ids) == (set x | x in b.ids) + {c.ids[n]};
    }
  }

  /** The children of a batch are new and as many as their definitions. */
  lemma BatchCount(w: World, id: string, defs: seq<Workflow>, gen: string, env: Env)
    requires CreateBatch(w, id, defs, gen, env).ok
    ensures
      var kids := set x | x in CreateBatch(w, id, defs, gen, env).ids;
      |kids| == |defs| && kids !! env.store.Keys
  {
    hide CreateBatch;
    BatchInserts(w, id, defs, gen, env);
    var b := CreateBatch(w, id, defs, gen, env);
    DistinctCount(b.ids);
    forall k | k in b.ids ensures k !in env.store {
      var i :| 0 <= i < |b.ids| && b.ids[i] == k;
      assert Inserted(env, b.env, b.ids[i], id, defs[i], gen);
    }
  }

  /** A fork that succeeds waits for exactly the children it has just created,
      one per target, and touches no earlier cohort; a join waits for none. */
  lemma ForkStampsItsChildren(w: World, id: string, t: Transition, pending: string, env: Env)
    requires FreshIds(w) && CohortsFit(w, env) && PendingFits(env, id, pending)
    ensures
      var (next, p) := Bookkeeping(w, id, t, pending, env);
      && CohortsFit(w, next) && CohortsKept(env, next)
      && (p.Some? ==> PendingFits(next, id, p.value))
      && (p.Some? && t.kind == ForkKind ==>
            && p.value in next.cohorts && p.value !in env.cohorts
            && |next.cohorts[p.value].kids| == |t.forkTargets|
            && next.cohorts[p.value].kids !! env.store.Keys)
      && (p.Some? && t.kind != ForkKind && t.IsJoin() ==> p.value == "")
  {
    hide FreshIds, CohortsFit, Issued, CreateBatch;
    if t.kind == ForkKind && t.forkTargets != [] {
      var gen := w.uuid(env.tick);
      var env1 := env.(tick := env.tick + 1);
      NewGeneration(w, env, gen);
      var defs := ForkDefinitions(t.forkTargets);
      if defs.Some? {
        CreateBatchKeeps(w, id, defs.value, gen, env1);
        if CreateBatch(w, id, defs.value, gen, env1).ok { BatchCount(w, id, defs.value, gen, env1); }
      }
    }
  }

  /** The generation a fork draws belongs to no earlier fork. */
  lemma NewGeneration(w: World, env: Env, gen: string)
    requires FreshIds(w) && CohortsFit(w, env) && gen == w.uuid(env.tick)
    ensures
      var next := env.(tick := env.tick + 1);
      gen !in env.cohorts && gen != "" && CohortsFit(w, next) && Issued(w, next.tick, gen)
  {
    var next := env.(tick := env.tick + 1);
    IssuedNot(w, env.tick);
    assert w.uuid(env.tick) == gen && env.tick < next.tick;
    forall g | g in env.cohorts ensures Issued(w, next.tick, g) {
      IssuedLater(w, env.tick, next.tick, g);
    }
  }

  lemma {:induction false} DistinctCount(ids: seq<string>)
    requires forall i, j :: 0 <= i < j < |ids| ==> ids[i] != ids[j]
    ensures |set x | x in ids| == |ids|
  {
    if ids != [] {
      var n := |ids| - 1;
      DistinctCount(ids[..n]);
      assert (set x | x in ids) == (set x | x in ids[..n]) + {ids[n]};
      assert ids[n] !in ids[..n];
    }
  }

  // ---- Through a step -----------------------------------------------------

  lemma KeptPending(env: Env, next: Env, id: string, pending: string)
    requires CohortsKept(env, next) && PendingFits(env, id, pending)
    ensures PendingFits(next, id, pending)
  {}

  lemma DepartKeeps(w: World, id: string, t: Transition, r: Run)
    requires FreshIds(w) && CohortsFit(w, r.env) && PendingFits(r.env, id, r.row.pendingForkGeneration)
    ensures
      var (e, h) := Depart(w, id, t, r);
      CohortsFit(w, e) && CohortsKept(r.env, e) && (h.Some? ==> PendingFits(e, id, h.value.pending))
  {
    hide CohortsFit, FreshIds, Grows, AdHoc, Bookkeeping, RunPhases, Destination, IsLocal, PendingFits;
    var at := r.row.current;
    RunPhasesGrows(w, id, Leaving(at, t), r.ctx, r.env);
    var e := RunPhases(w, id, Leaving(at, t), r.ctx, r.env);
    AdHocKeeps(w, id, r.env, e.env);
    KeptPending(r.env, e.env, id, r.row.pendingForkGeneration);
    ForkStampsItsChildren(w, id, t, r.row.pendingForkGeneration, e.env);
    var (d, h) := Depart(w, id, t, r);
    if h.Some? {
      if IsLocal(at, t) { assert d == e.env; assert h.value.pending == r.row.pendingForkGeneration; }
      else { assert (d, Some(h.value.pending)) == Bookkeeping(w, id, t, r.row.pendingForkGeneration, e.env); }
    }
  }

  lemma ApplyKeeps(w: World, id: string, t: Transition, r: Run)
    requires FreshIds(w) && CohortsFit(w, r.env) && PendingFits(r.env, id, r.row.pendingForkGeneration)
    ensures
      var s := Apply(w, id, t, r);
      && CohortsFit(w, s.Env()) && CohortsKept(r.env, s.Env())
      && (s.Done? ==> PendingFits(s.Env(), id, s.run.row.pendingForkGeneration))
  {
    hide CohortsFit, FreshIds, Grows, AdHoc, Depart, Settle, ExecuteActions, PendingFits;
    if t.kind == InternalKind {
      ExecuteActionsGrows(w, id, t.entryActions, r.ctx, r.env);
      var e := ExecuteActions(w, id, t.entryActions, r.ctx, r.env);
      AdHocKeeps(w, id, r.env, e.env);
      KeptPending(r.env, e.env, id, r.row.pendingForkGeneration);
    } else {
      DepartKeeps(w, id, t, r);
      var (env, h) := Depart(w, id, t, r);
      if h.Some? {
        var local := IsLocal(r.row.current, t);
        SettleGrows(w, id, t, local, h.value, env);
        var e := Settle(w, id, t, local, h.value, env);
        AdHocKeeps(w, id, env, e.env);
        KeptPending(env, e.env, id, h.value.pending);
      }
    }
  }

  lemma {:induction false} ChainKeeps(w: World, id: string, r: Run, hop: nat)
    requires hop <= MAX_AUTOMATIC_HOPS
    requires FreshIds(w) && CohortsFit(w, r.env) && PendingFits(r.env, id, r.row.pendingForkGeneration)
    ensures
      var s := Chain(w, id, r, hop);
      && CohortsFit(w, s.Env()) && CohortsKept(r.env, s.Env())
      && (s.Done? ==> PendingFits(s.Env(), id, s.run.row.pendingForkGeneration))
    decreases MAX_AUTOMATIC_HOPS - hop
  {
    hide CohortsFit, FreshIds, Apply, PendingFits, FindAutomaticTransition;
    if hop < MAX_AUTOMATIC_HOPS {
      var t := FindAutomaticTransition(w, r.row.def, r.row.current, r.ctx);
      if t.Some? {
        ApplyKeeps(w, id, t.value, r);
        var s := Apply(w, id, t.value, r);
        if s.Done? { ChainKeeps(w, id, s.run, hop + 1); }
      }
    }
  }

  lemma StepAndChainKeeps(w: World, id: string, t: Transition, r: Run)
    requires FreshIds(w) && CohortsFit(w, r.env) && PendingFits(r.env, id, r.row.pendingForkGeneration)
    ensures
      var s := StepAndChain(w, id, t, r);
      && CohortsFit(w, s.Env()) && CohortsKept(r.env, s.Env())
      && (s.Done? ==> PendingFits(s.Env(), id, s.run.row.pendingForkGeneration))
  {
    hide CohortsFit, FreshIds, Apply, PendingFits, Chain;
    ApplyKeeps(w, id, t, r);
    var s := Apply(w, id, t, r);
    if s.Done? { ChainKeeps(w, id, s.run, 0); }
  }

  // ---- Through a run ------------------------------------------------------

  ghost predicate GenInv(w: World, env: Env) {
    CohortsFit(w, env) && forall id :: id in env.store ==> PendingFits(env, id, env.store[id].pendingForkGeneration)
  }

  /** Growing the table keeps every pending generation meaningful. */
  lemma GrowsKeepsGen(w: World, id: string, env: Env, next: Env)
    requires GenInv(w, env) && Grows(id, env, next) && CohortsFit(w, next) && CohortsKept(env, next)
    ensures GenInv(w, next)
  {
    hide CohortsFit;
    forall k | k in next.store ensures PendingFits(next, k, next.store[k].pendingForkGeneration) {
      if k in env.store { assert PendingFits(env, k, env.store[k].pendingForkGeneration); }
    }
  }

  /** Saving a row that keeps its parent and generation. */
  lemma SaveKeepsGen(w: World, env: Env, id: string, row: Row, tick: nat)
    requires GenInv(w, env) && env.tick <= tick && PendingFits(env, id, row.pendingForkGeneration)
    requires if id in env.store then row.parentId == env.store[id].parentId && row.forkGeneration == env.store[id].forkGeneration
             else row.forkGeneration == ""
    ensures GenInv(w, Env(tick, env.store[id := row], env.cohorts))
  {
    var next := Env(tick, env.store[id := row], env.cohorts);
    forall g | g in next.cohorts ensures Issued(w, tick, g) {
      var t: nat :| t < env.tick && w.uuid(t) == g;
    }
    forall k | k in next.store ensures PendingFits(next, k, next.store[k].pendingForkGeneration) {
      if k != id { assert PendingFits(env, k, env.store[k].pendingForkGeneration); }
    }
  }

  lemma EventKeepsGen(w: World, id: string, event: string, env: Env)
    requires FreshIds(w) && GenInv(w, env)
    ensures
      var next := ProcessEvent(w, id, event, env).env;
      GenInv(w, next) && CohortsKept(env, next)
  {
    hide CohortsFit, FreshIds, PendingFits, StepAndChain, FindCandidateTransition, AllChildrenComplete;
    if Live(env.store, id) {
      var row := env.store[id];
      var t := FindCandidateTransition(w, row.def, row.current, event, row.contextMap);
      if t.Some? {
        var r0 := Begin(row, env);
        StepAndChainKeeps(w, id, t.value, r0);
        StepAndChainGrows(w, id, t.value, r0);
        var s := StepAndChain(w, id, t.value, r0);
        GrowsKeepsGen(w, id, env, s.Env());
        if s.Done? { CommitKeepsGen(w, id, t.value, row, env, s.run); }
      }
    }
  }

  lemma CommitKeepsGen(w: World, id: string, t: Transition, row: Row, env: Env, r: Run)
    requires id in env.store && env.store[id] == row && StepAndChain(w, id, t, Begin(row, env)) == Done(r)
    requires Grows(id, env, r.env) && GenInv(w, r.env) && PendingFits(r.env, id, r.row.pendingForkGeneration)
    ensures GenInv(w, Commit(w, id, row, r).env) && Commit(w, id, row, r).env.cohorts == r.env.cohorts
  {
    hide GenInv, PendingFits, StepAndChain;
    StepKeepsIdentity(w, id, t, Begin(row, env));
    SaveKeepsGen(w, r.env, id, Saved(r), r.env.tick + 1);
    TickKeepsGen(w, r.env, r.env.tick + 1);
  }

  lemma TickKeepsGen(w: World, env: Env, tick: nat)
    requires GenInv(w, env) && env.tick <= tick
    ensures GenInv(w, env.(tick := tick))
  {
    var next := env.(tick := tick);
    forall g | g in next.cohorts ensures Issued(w, tick, g) {
      var t: nat :| t < env.tick && w.uuid(t) == g;
    }
    forall k | k in next.store ensures PendingFits(next, k, next.store[k].pendingForkGeneration) {
      assert PendingFits(env, k, env.store[k].pendingForkGeneration);
    }
  }

  lemma NewKeepsGen(w: World, def: Workflow, env: Env)
    requires FreshIds(w) && GenInv(w, env)
    ensures
      var next := NewInstance(w, def, env).0;
      GenInv(w, next) && CohortsKept(env, next)
  {
    hide GenInv, FreshIds, PendingFits, Chain, CohortsFit;
    var id := w.uuid(env.tick);
    var env1 := env.(tick := env.tick + 1);
    TickKeepsGen(w, env, env.tick + 1);
    if Startable(def) {
      var r0 := Begin(Fresh(def, Start(def)), env1);
      GenInvFits(w, env1, id);
      ChainKeeps(w, id, r0, 0);
      ChainGrows(w, id, r0, 0);
      var s := Chain(w, id, r0, 0);
      GrowsKeepsGen(w, id, env1, s.Env());
      if s.Done? {
        var r := s.run;
        ChainKeepsIdentity(w, id, r0, 0);
        TickKeepsGen(w, r.env, r.env.tick + 1);
        if id !in r.env.store {
          SaveKeepsGen(w, r.env, id, r.row.(contextMap := r.ctx, complete := IsEndState(def, r.row.current)), r.env.tick + 1);
        }
      }
    }
  }

  lemma GenInvFits(w: World, env: Env, id: string)
    requires GenInv(w, env)
    ensures CohortsFit(w, env) && PendingFits(env, id, "")
  {}

  lemma PerformKeepsGen(w: World, op: Op, s: Sys)
    requires FreshIds(w) && GenInv(w, s.env)
    ensures GenInv(w, Perform(w, op, s).env) && CohortsKept(s.env, Perform(w, op, s).env)
  {
    hide GenInv, FreshIds, NewInstance, ProcessEvent, CohortsFit;
    match op
    case New(def) => NewKeepsGen(w, def, s.env);
    case Event(id, event) => EventKeepsGen(w, id, event, s.env);
    case Child(parentId, def) =>
      CreateChildGrows(w, parentId, def, "", s.env);
      GenInvFits(w, s.env, parentId);
      AdHocKeeps(w, parentId, s.env, CreateChild(w, parentId, def, "", s.env).0);
      GrowsKeepsGen(w, parentId, s.env, CreateChild(w, parentId, def, "", s.env).0);
    case WithdrawChild(parentId, childId) =>
      if Live(s.env.store, childId) {
        var row := s.env.store[childId];
        PendingOf(w, s.env, childId);
        SaveKeepsGen(w, s.env, childId, row.(deleted := true), s.env.tick);
      }
  }

  lemma PendingOf(w: World, env: Env, id: string)
    requires GenInv(w, env) && id in env.store
    ensures PendingFits(env, id, env.store[id].pendingForkGeneration)
  {}

  /** Over any sequence of operations, rolled-back forks included, the cohorts
      stay what they are for. */
  lemma {:induction false} GenerationInvariant(w: World, ops: seq<Op>)
    requires FreshIds(w)
    ensures GenInv(w, After(w, ops).env)
  {
    hide GenInv, FreshIds, Perform;
    if ops != [] {
      GenerationInvariant(w, ops[..|ops| - 1]);
      PerformKeepsGen(w, ops[|ops| - 1], PerformAll(w, ops[..|ops| - 1], EMPTY));
    } else {
      EmptyGen(w);
    }
  }

  lemma EmptyGen(w: World)
    ensures GenInv(w, EMPTY.env)
  {}

  // ---- The gate -----------------------------------------------------------

  /** Main result: the gate of a pending fork looks at exactly the children that
      fork created. */
  lemma GateIsCohort(w: World, ops: seq<Op>, id: string)
    requires FreshIds(w) && id in After(w, ops).env.store
    requires After(w, ops).env.store[id].pendingForkGeneration != ""
    ensures
      var env := After(w, ops).env;
      var g := env.store[id].pendingForkGeneration;
      && g in env.cohorts && env.cohorts[g].parent == id
      && env.cohorts[g].kids <= env.store.Keys
      && (AllChildrenComplete(env.store, id, g) <==>
            forall k :: k in env.cohorts[g].kids ==> env.store[k].deleted || env.store[k].complete)
  {
    hide After, FreshIds;
    GenerationInvariant(w, ops);
    var env := After(w, ops).env;
    PendingOf(w, env, id);
  }

  /** An event whose transition is a join commits under a pending generation only
      if every child of that fork is complete or withdrawn. */
  lemma JoinPassesOnlyComplete(w: World, ops: seq<Op>, id: string, event: string)
    requires FreshIds(w) && id in After(w, ops).env.store
    requires
      var env := After(w, ops).env;
      var row := env.store[id];
      var t := FindCandidateTransition(w, row.def, row.current, event, row.contextMap);
      t.Some? && t.value.IsJoin() && row.pendingForkGeneration != "" && ProcessEvent(w, id, event, env).Committed?
    ensures
      var env := After(w, ops).env;
      forall k :: k in KidsOf(env, env.store[id].pendingForkGeneration) ==>
        k in env.store && (env.store[k].deleted || env.store[k].complete)
  {
    hide After, FreshIds, FindCandidateTransition, StepAndChain, AllChildrenComplete, Commit;
    GateIsCohort(w, ops, id);
  }

  /** Whatever happens to rows outside the cohort, the gate answers the same. */
  lemma GateIgnoresOthers(w: World, ops: seq<Op>, more: seq<Op>, id: string)
    requires FreshIds(w) && id in After(w, ops).env.store && id in After(w, ops + more).env.store
    requires
      var env, later := After(w, ops).env, After(w, ops + more).env;
      var g := env.store[id].pendingForkGeneration;
      && g != "" && later.store[id].pendingForkGeneration == g
      && forall k :: k in KidsOf(env, g) && k in env.store && k in later.store ==>
           later.store[k].complete == env.store[k].complete && later.store[k].deleted == env.store[k].deleted
    ensures
      var env, later := After(w, ops).env, After(w, ops + more).env;
      var g := env.store[id].pendingForkGeneration;
      KidsOf(later, g) == KidsOf(env, g)
      && AllChildrenComplete(later.store, id, g) == AllChildrenComplete(env.store, id, g)
  {
    hide After, FreshIds, AllChildrenComplete;
    GateIsCohort(w, ops, id);
    GateIsCohort(w, ops + more, id);
    CohortsStay(w, ops, more);
  }

  lemma {:induction false} CohortsStay(w: World, ops: seq<Op>, more: seq<Op>)
    requires FreshIds(w)
    ensures CohortsKept(After(w, ops).env, After(w, ops + more).env)
  {
    hide GenInv, FreshIds, Perform;
    if more == [] {
      assert ops + more == ops;
    } else {
      var n := |more| - 1;
      var all := ops + more;
      assert all[..|all| - 1] == ops + more[..n] && all[|all| - 1] == more[n];
      CohortsStay(w, ops, more[..n]);
      GenerationInvariant(w, ops + more[..n]);
      PerformKeepsGen(w, more[n], After(w, ops + more[..n]));
    }
  }
}
