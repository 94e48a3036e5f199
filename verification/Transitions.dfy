/** One transition and the chain of automatic ones (engine/transitions.go).

    `Apply` and `Chain` say what a step does to a row. They are written as lists
    of phases, and the methods of `WorkflowInstance`, which go through the fields
    one by one, are proved against them. */
module Transitions {
  import opened Model
  import opened Persistence
  import opened Lookup
  import opened Children
  import opened Actions

  /** Leaving or entering a state, with the actions that go with it. */
  datatype Phase =
    | ExitSub(s: State) | ExitTop(s: State) | EnterTop(s: State) | EnterSub(s: State)
  {
    function Actions(): seq<Action> {
      if ExitSub? || ExitTop? then s.OnExit() else s.OnEntry()
    }
  }

  /** A transaction in progress: the row as it would be saved, the context, what
      outlives a rollback, whether any state was left, and what has happened. */
  datatype Run = Run(
    row: Row,
    ctx: Context,
    env: Env,
    moved: bool,
    trace: seq<Phase>,
    applied: seq<Transition>)

  /** A failed step keeps nothing of the row. */
  datatype Step = Done(run: Run) | Failed(failedEnv: Env, failedMoved: bool) {
    function Env(): Env { if Done? then run.env else failedEnv }

    function Moved(): bool { if Done? then run.moved else failedMoved }
  }

  // ---- Where a transition leads -------------------------------------------

  /** A target that names a substate of the active composite keeps the instance
      inside it. */
  predicate IsLocal(at: StateContainer, t: Transition) {
    at.state.CompositeState? && at.substate.Some? && at.state.FindSubstate(t.target).Some?
  }

  /** The substate a composite is entered at. */
  function EntrySubstate(c: State, entersHistory: bool, history: map<string, string>): string
    requires c.CompositeState?
  {
    if entersHistory && c.history != NO_HISTORY && c.Id() in history && history[c.Id()] != ""
    then history[c.Id()]
    else c.initialSubstate
  }

  function ResolveTarget(def: Workflow, t: Transition, history: map<string, string>): Option<StateContainer> {
    match FindState(def.states, t.target)
    case None => None
    case Some(s) =>
      if !s.CompositeState? then Some(StateContainer(s, None))
      else
        match s.FindSubstate(EntrySubstate(s, t.entersHistory, history))
        case None => None
        case Some(sub) => Some(StateContainer(s, Some(sub)))
  }

  function Destination(def: Workflow, at: StateContainer, t: Transition, history: map<string, string>): Option<StateContainer> {
    if IsLocal(at, t) then Some(StateContainer(at.state, at.state.FindSubstate(t.target)))
    else ResolveTarget(def, t, history)
  }

  /** Leaving a composite for good remembers its active substate. */
  function Remember(at: StateContainer, t: Transition, history: map<string, string>): map<string, string> {
    if IsLocal(at, t) || at.substate.None? then history
    else history[at.state.Id() := at.substate.value.Id()]
  }

  function Leaving(at: StateContainer, t: Transition): seq<Phase> {
    (if at.substate.Some? then [ExitSub(at.substate.value)] else [])
    + (if IsLocal(at, t) then [] else [ExitTop(at.state)])
  }

  function Arriving(local: bool, dest: StateContainer): seq<Phase> {
    (if local then [] else [EnterTop(dest.state)])
    + (if dest.substate.Some? then [EnterSub(dest.substate.value)] else [])
  }

  // ---- Fork and join bookkeeping ------------------------------------------

  function ForkDefinitions(targets: seq<ForkTarget>): (r: Option<seq<Workflow>>)
    ensures r.Some? ==> |r.value| == |targets| && forall i :: 0 <= i < |targets| ==> targets[i].childWorkflow == Some(r.value[i])
    ensures r.None? <==> exists i :: 0 <= i < |targets| && targets[i].childWorkflow.None?
  {
    if targets == [] then Some([])
    else
      var n := |targets| - 1;
      var front := ForkDefinitions(targets[..n]);
      if front.None? then assert exists i :: 0 <= i < n && targets[..n][i].childWorkflow.None?; None
      else if targets[n].childWorkflow.None? then None
      else Some(front.value + [targets[n].childWorkflow.value])
  }

  /** What a non-local move does to the pending generation: a fork stamps a new
      one on the children it creates, a join clears it. */
  function Bookkeeping(w: World, id: string, t: Transition, pending: string, env: Env): (Env, Option<string>) {
    if t.kind == ForkKind then
      if t.forkTargets == [] then (env, None)
      else
        var gen := w.uuid(env.tick);
        var next := env.(tick := env.tick + 1);
        (match ForkDefinitions(t.forkTargets)
         case None => (next, None)
         case Some(defs) =>
           var b := CreateBatch(w, id, defs, gen, next);
           (b.env, if b.ok then Some(gen) else None))
    else if t.IsJoin() then (env, Some(""))
    else (env, Some(pending))
  }

  // ---- One transition -----------------------------------------------------

  function RunPhases(w: World, id: string, phases: seq<Phase>, ctx: Context, env: Env): Exec {
    if phases == [] then Exec(ctx, env, true)
    else
      var e := ExecuteActions(w, id, phases[0].Actions(), ctx, env);
      if e.ok then RunPhases(w, id, phases[1..], e.ctx, e.env) else e
  }

  function Entry(t: Transition, from_: StateContainer, to: StateContainer): JourneyEntry {
    JourneyEntry(t.event, t.trigger, t.kind, from_.state.Id(), from_.SubstateId(), to.state.Id(), to.SubstateId())
  }

  function Summary(t: Transition, from_: StateContainer, to: StateContainer): string {
    "Event: " + t.event + ", From: " + from_.EffectiveId() + ", To: " + to.EffectiveId()
  }

  /** An internal transition only runs its effect. */
  function ApplyInternal(w: World, id: string, t: Transition, r: Run): Step {
    var e := ExecuteActions(w, id, t.entryActions, r.ctx, r.env);
    if !e.ok then Failed(e.env, r.moved)
    else
      var row := r.row.(journey := r.row.journey + [Entry(t, r.row.current, r.row.current)]);
      Done(r.(row := row, ctx := e.ctx, env := e.env, applied := r.applied + [t]))
  }

  /** Halfway through a move: the old position is left, the new one is known,
      and its entry actions have not run. */
  datatype Halfway = Halfway(dest: StateContainer, history: map<string, string>, pending: string, ctx: Context)

  function Depart(w: World, id: string, t: Transition, r: Run): (Env, Option<Halfway>) {
    var row, at := r.row, r.row.current;
    var e := RunPhases(w, id, Leaving(at, t), r.ctx, r.env);
    if !e.ok then (e.env, None)
    else
      var history := Remember(at, t, row.compositeHistory);
      match Destination(row.def, at, t, history)
      case None => (e.env, None)
      case Some(dest) =>
        if IsLocal(at, t) then (e.env, Some(Halfway(dest, history, row.pendingForkGeneration, e.ctx)))
        else
          var (env, pending) := Bookkeeping(w, id, t, row.pendingForkGeneration, e.env);
          (env, if pending.None? then None else Some(Halfway(dest, history, pending.value, e.ctx)))
  }

  /** Entry actions, then the effect of the transition. */
  function Settle(w: World, id: string, t: Transition, local: bool, h: Halfway, env: Env): Exec {
    var e := RunPhases(w, id, Arriving(local, h.dest), h.ctx, env);
    if e.ok then ExecuteActions(w, id, t.entryActions, e.ctx, e.env) else e
  }

  function Moved(row: Row, t: Transition, h: Halfway): Row {
    row.(current := h.dest,
         compositeHistory := h.history,
         pendingForkGeneration := h.pending,
         lastTransition := Summary(t, row.current, h.dest),
         journey := row.journey + [Entry(t, row.current, h.dest)])
  }

  /** Any other transition leaves, moves, arrives, and then runs its effect. */
  function ApplyMove(w: World, id: string, t: Transition, r: Run): Step {
    match Depart(w, id, t, r)
    case (env, None) => Failed(env, true)
    case (env, Some(h)) =>
      var at := r.row.current;
      var e := Settle(w, id, t, IsLocal(at, t), h, env);
      if !e.ok then Failed(e.env, true)
      else Done(Run(Moved(r.row, t, h), e.ctx, e.env, true,
                    r.trace + Leaving(at, t) + Arriving(IsLocal(at, t), h.dest), r.applied + [t]))
  }

  function Apply(w: World, id: string, t: Transition, r: Run): Step {
    if t.kind == InternalKind then ApplyInternal(w, id, t, r) else ApplyMove(w, id, t, r)
  }

  // ---- The automatic chain ------------------------------------------------

  const MAX_AUTOMATIC_HOPS: nat := 100

  /** runAutomaticChain from hop number `hop`. The limit is checked before the
      next match is looked for. */
  function Chain(w: World, id: string, r: Run, hop: nat): Step
    requires hop <= MAX_AUTOMATIC_HOPS
    decreases MAX_AUTOMATIC_HOPS - hop
  {
    if hop == MAX_AUTOMATIC_HOPS then Failed(r.env, r.moved)
    else
      match FindAutomaticTransition(w, r.row.def, r.row.current, r.ctx)
      case None => Done(r)
      case Some(t) =>
        match Apply(w, id, t, r)
        case Failed(e, m) => Failed(e, m)
        case Done(next) => Chain(w, id, next, hop + 1)
  }

  // ---- The instance as an object ------------------------------------------

  lemma RunOnePhase(w: World, id: string, p: Phase, ctx: Context, env: Env)
    ensures RunPhases(w, id, [p], ctx, env) == ExecuteActions(w, id, p.Actions(), ctx, env)
  {
    assert [p][1..] == [];
  }

  lemma RunTwoPhases(w: World, id: string, p: Phase, q: Phase, ctx: Context, env: Env)
    ensures
      var e := ExecuteActions(w, id, p.Actions(), ctx, env);
      RunPhases(w, id, [p] + [q], ctx, env) == if e.ok then ExecuteActions(w, id, q.Actions(), e.ctx, e.env) else e
  {
    assert ([p] + [q])[1..] == [q];
    var e := ExecuteActions(w, id, p.Actions(), ctx, env);
    RunOnePhase(w, id, q, e.ctx, e.env);
  }

  /** The loop of a fork over its targets. */
  method TargetDefinitions(targets: seq<ForkTarget>) returns (r: Option<seq<Workflow>>)
    ensures r == ForkDefinitions(targets)
  {
    var defs: seq<Workflow> := [];
    for i := 0 to |targets|
      invariant ForkDefinitions(targets[..i]) == Some(defs)
    {
      if targets[i].childWorkflow.None? {
        return None;
      }
      assert targets[..i + 1][..i] == targets[..i];
      defs := defs + [targets[i].childWorkflow.value];
    }
    assert targets[..|targets|] == targets;
    r := Some(defs);
  }

  class WorkflowInstance {
    const parentId: Option<string>
    const def: Workflow
    const forkGeneration: string
    const deleted: bool
    var current: StateContainer
    var lastTransition: string
    var contextMap: Context
    var compositeHistory: map<string, string>
    var journey: seq<JourneyEntry>
    var version: int
    var complete: bool
    var pendingForkGeneration: string

    function Snapshot(): Row
      reads this
    {
      Row(parentId, def, current, lastTransition, contextMap, compositeHistory, journey, version, complete,
          forkGeneration, pendingForkGeneration, deleted)
    }

    constructor (row: Row)
      ensures Snapshot() == row
    {
      parentId, def, forkGeneration, deleted := row.parentId, row.def, row.forkGeneration, row.deleted;
      current, lastTransition, contextMap := row.current, row.lastTransition, row.contextMap;
      compositeHistory, journey, version := row.compositeHistory, row.journey, row.version;
      complete, pendingForkGeneration := row.complete, row.pendingForkGeneration;
    }

    /** Exit actions of what is left. */
    method Leave(w: World, db: Database, id: string, t: Transition, ctx: Context) returns (r: Context, ok: bool)
      modifies db, this`compositeHistory
      ensures Exec(r, db.State(), ok) == RunPhases(w, id, Leaving(current, t), ctx, old(db.State()))
      ensures ok ==> compositeHistory == Remember(current, t, old(compositeHistory))
    {
      r, ok := ctx, true;
      ghost var at := current;
      ghost var e0 := db.State();
      if current.substate.Some? {
        r, ok := Execute(w, db, id, current.substate.value.OnExit(), r);
        RunOnePhase(w, id, ExitSub(at.substate.value), ctx, e0);
        RunTwoPhases(w, id, ExitSub(at.substate.value), ExitTop(at.state), ctx, e0);
        if !ok {
          return;
        }
      }
      if !IsLocal(current, t) {
        if current.substate.Some? {
          compositeHistory := compositeHistory[current.state.Id() := current.substate.value.Id()];
        }
        RunOnePhase(w, id, ExitTop(at.state), r, db.State());
        r, ok := Execute(w, db, id, current.state.OnExit(), r);
      }
    }

    /** Entry actions of what is entered. */
    method Arrive(w: World, db: Database, id: string, local: bool, ctx: Context) returns (r: Context, ok: bool)
      modifies db
      ensures Exec(r, db.State(), ok) == RunPhases(w, id, Arriving(local, current), ctx, old(db.State()))
    {
      r, ok := ctx, true;
      ghost var e0 := db.State();
      if !local {
        RunOnePhase(w, id, EnterTop(current.state), ctx, e0);
        r, ok := Execute(w, db, id, current.state.OnEntry(), r);
        if current.substate.Some? {
          RunTwoPhases(w, id, EnterTop(current.state), EnterSub(current.substate.value), ctx, e0);
        }
        if !ok {
          return;
        }
      }
      if current.substate.Some? {
        RunOnePhase(w, id, EnterSub(current.substate.value), r, db.State());
        r, ok := Execute(w, db, id, current.substate.value.OnEntry(), r);
      }
    }

    /** A fork creates its children; a join forgets the generation. */
    method ForkOrJoin(w: World, db: Database, id: string, t: Transition) returns (ok: bool)
      modifies db, this`pendingForkGeneration
      ensures
        var (e, pending) := Bookkeeping(w, id, t, old(pendingForkGeneration), old(db.State()));
        db.State() == e && ok == pending.Some? && (ok ==> pendingForkGeneration == pending.value)
    {
      hide ForkDefinitions, CreateBatch;
      ok := true;
      if t.kind == ForkKind {
        if |t.forkTargets| == 0 {
          return false;
        }
        var gen := w.uuid(db.tick);
        db.tick := db.tick + 1;
        var defs := TargetDefinitions(t.forkTargets);
        if defs.None? {
          return false;
        }
        var ids := db.CreateChildWorkflowInstancesBatchWithGeneration(w, id, defs.value, gen);
        if ids.None? {
          return false;
        }
        pendingForkGeneration := gen;
      } else if t.IsJoin() {
        pendingForkGeneration := "";
      }
    }

    /** The state change itself, with its fork or join bookkeeping. */
    method Relocate(w: World, db: Database, id: string, t: Transition) returns (ok: bool)
      modifies db, this`current, this`pendingForkGeneration
      ensures
        var dest := Destination(def, old(current), t, compositeHistory);
        var (e, pending) :=
          if dest.None? || IsLocal(old(current), t) then (old(db.State()), Some(old(pendingForkGeneration)))
          else Bookkeeping(w, id, t, old(pendingForkGeneration), old(db.State()));
        && ok == (dest.Some? && pending.Some?) && db.State() == e
        && (ok ==> current == dest.value && pendingForkGeneration == pending.value)
    {
      if IsLocal(current, t) {
        current := StateContainer(current.state, current.state.FindSubstate(t.target));
        ok := true;
      } else {
        var dest := ResolveTarget(def, t, compositeHistory);
        if dest.None? {
          return false;
        }
        current := dest.value;
        ok := ForkOrJoin(w, db, id, t);
      }
    }

    method LeaveAndRelocate(w: World, db: Database, id: string, t: Transition, ctx: Context, ghost run: Run)
      returns (r: Context, ok: bool)
      requires run.row == Snapshot() && run.ctx == ctx && run.env == db.State()
      modifies db, this`compositeHistory, this`current, this`pendingForkGeneration
      ensures
        var (e, h) := Depart(w, id, t, run);
        && ok == h.Some? && db.State() == e
        && (ok ==> h.value == Halfway(current, compositeHistory, pendingForkGeneration, r))
    {
      hide RunPhases, Leaving, CreateBatch, ForkDefinitions, ExecuteActions;
      r, ok := Leave(w, db, id, t, ctx);
      if ok {
        ok := Relocate(w, db, id, t);
      }
    }

    method Enter(w: World, db: Database, id: string, t: Transition, local: bool, ctx: Context, ghost h: Halfway)
      returns (r: Context, ok: bool)
      requires h.dest == current && h.ctx == ctx
      modifies db
      ensures Exec(r, db.State(), ok) == Settle(w, id, t, local, h, old(db.State()))
    {
      r, ok := Arrive(w, db, id, local, ctx);
      if ok {
        r, ok := Execute(w, db, id, t.entryActions, r);
      }
    }

    method Move(w: World, db: Database, id: string, t: Transition, ctx: Context, ghost run: Run)
      returns (r: Context, ok: bool)
      requires run.row == Snapshot() && run.ctx == ctx && run.env == db.State()
      modifies this, db
      ensures
        var s := ApplyMove(w, id, t, run);
        && ok == s.Done? && db.State() == s.Env() && s.Moved()
        && (ok ==> Snapshot() == s.run.row && r == s.run.ctx)
    {
      hide Depart, Settle, IsLocal, Entry, Summary, Leaving, Arriving;
      var from_, local := current, IsLocal(current, t);
      r, ok := LeaveAndRelocate(w, db, id, t, ctx, run);
      if ok {
        r, ok := Enter(w, db, id, t, local, r, Depart(w, id, t, run).1.value);
        if !ok {
          return;
        }
        lastTransition := Summary(t, from_, current);
        journey := journey + [Entry(t, from_, current)];
      }
    }

    /** applyTransition. `run` is the transaction so far; only its log is not
        among the fields and arguments. */
    method ApplyTransition(w: World, db: Database, id: string, t: Transition, ctx: Context, ghost run: Run)
      returns (r: Context, moved: bool, ok: bool)
      requires run.row == Snapshot() && run.ctx == ctx && run.env == db.State()
      modifies this, db
      ensures
        var s := Apply(w, id, t, run);
        && ok == s.Done? && db.State() == s.Env() && (run.moved || moved) == s.Moved()
        && (ok ==> Snapshot() == s.run.row && r == s.run.ctx)
    {
      if t.kind == InternalKind {
        moved := false;
        r, ok := Execute(w, db, id, t.entryActions, ctx);
        if ok {
          journey := journey + [Entry(t, current, current)];
        }
      } else {
        moved := true;
        r, ok := Move(w, db, id, t, ctx, run);
      }
    }

    /** runAutomaticChain. */
    method RunAutomaticChain(w: World, db: Database, id: string, ctx: Context, ghost run: Run)
      returns (r: Context, moved: bool, ok: bool)
      requires run.row == Snapshot() && run.ctx == ctx && run.env == db.State()
      modifies this, db
      ensures
        var s := Chain(w, id, run, 0);
        && ok == s.Done? && db.State() == s.Env() && (run.moved || moved) == s.Moved()
        && (ok ==> Snapshot() == s.run.row && r == s.run.ctx)
    {
      r, moved := ctx, false;
      ghost var now := run;
      var hop: nat := 0;
      while true
        invariant hop <= MAX_AUTOMATIC_HOPS
        invariant now.row == Snapshot() && now.ctx == r && now.env == db.State() && now.moved == (run.moved || moved)
        invariant Chain(w, id, now, hop) == Chain(w, id, run, 0)
        decreases MAX_AUTOMATIC_HOPS - hop
      {
        if hop >= MAX_AUTOMATIC_HOPS {
          return r, moved, false;
        }
        var t := FindAutomaticTransition(w, def, current, r);
        if t.None? {
          return r, moved, true;
        }
        ghost var s := Apply(w, id, t.value, now);
        var hopMoved: bool;
        r, hopMoved, ok := ApplyTransition(w, db, id, t.value, r, now);
        moved := moved || hopMoved;
        if !ok {
          return;
        }
        now := s.run;
        hop := hop + 1;
      }
    }
  }
}
