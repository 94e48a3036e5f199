/** Creating an instance and processing one event (engine/workflow_ops.go).

    An event runs in a transaction: the row is read, changed in memory and saved
    once, so a refusal leaves the stored row as it was. Children are inserted
    outside the transaction and stay. */
module WorkflowOps {
  import opened Model
  import opened Persistence
  import opened Lookup
  import opened Children
  import opened Actions
  import opened Transitions

  datatype Refusal = NotFound | NoTransition | ChildrenNotComplete | StepFailed | SaveFailed

  /** `notify` is the parent whose join is to be attempted; `moved` says whether
      any state was left, which also stops that state's activities. */
  datatype Outcome =
    | Committed(env: Env, run: Run, notify: Option<string>)
    | Refused(env: Env, why: Refusal, moved: bool)

  function Begin(row: Row, env: Env): Run {
    Run(row, row.contextMap, env, false, [], [])
  }

  /** The row as saved at the end of a successful step. */
  function Saved(r: Run): Row {
    r.row.(contextMap := r.ctx, complete := IsEndState(r.row.def, r.row.current), version := r.row.version + 1)
  }

  /** The transition an event triggers, then the automatic chain. */
  function StepAndChain(w: World, id: string, t: Transition, r: Run): Step {
    match Apply(w, id, t, r)
    case Failed(e, m) => Failed(e, m)
    case Done(next) => Chain(w, id, next, 0)
  }

  function Commit(w: World, id: string, before: Row, r: Run): Outcome {
    var row := Saved(r);
    var next := r.env.(tick := r.env.tick + 1);
    if !w.saveOk(r.env.tick) then Refused(next, SaveFailed, r.moved)
    else Committed(next.(store := next.store[id := row]), r.(row := row),
                   if !before.complete && row.complete then row.parentId else None)
  }

  function ProcessEvent(w: World, id: string, event: string, env: Env): Outcome {
    if !Live(env.store, id) then Refused(env, NotFound, false)
    else
      var row := env.store[id];
      match FindCandidateTransition(w, row.def, row.current, event, row.contextMap)
      case None => Refused(env, NoTransition, false)
      case Some(t) =>
        if t.IsJoin() && !AllChildrenComplete(env.store, id, row.pendingForkGeneration)
        then Refused(env, ChildrenNotComplete, false)
        else
          match StepAndChain(w, id, t, Begin(row, env))
          case Failed(e, m) => Refused(e, StepFailed, m)
          case Done(r) => Commit(w, id, row, r)
  }

  /** The instance before its first automatic hop. */
  function Fresh(def: Workflow, at: StateContainer): Row {
    Row(None, def, at, "", map[], map[], [InitialEntry(at)], 0, IsEndState(def, at), "", "", false)
  }

  function NewInstance(w: World, def: Workflow, env: Env): (Env, Option<(string, Run)>) {
    var id := w.uuid(env.tick);
    var env1 := env.(tick := env.tick + 1);
    if def.states == [] then (env1, None)
    else
      match InitialPosition(def.states[0])
      case None => (env1, None)
      case Some(at) =>
        match Chain(w, id, Begin(Fresh(def, at), env1), 0)
        case Failed(e, _) => (e, None)
        case Done(r) =>
          var next := r.env.(tick := r.env.tick + 1);
          if id in next.store || !w.insertOk(r.env.tick) then (next, None)
          else
            var row := r.row.(contextMap := r.ctx, complete := IsEndState(def, r.row.current));
            (next.(store := next.store[id := row]), Some((id, r.(row := row))))
  }

  /** WithdrawChildWorkflowInstance: a soft delete. */
  function Withdraw(parentId: string, childId: string, env: Env): Env {
    if Live(env.store, childId) && env.store[childId].parentId == Some(parentId)
    then env.(store := env.store[childId := env.store[childId].(deleted := true)])
    else env
  }

  /** What a committed event stores: the row the transition and the chain left, with their
      context, one version on, complete exactly in an end state. No other row is touched
      beyond what they inserted, and the parent hears of a first completion only. */
  lemma CommitStores(w: World, id: string, event: string, env: Env)
    requires ProcessEvent(w, id, event, env).Committed?
    ensures Live(env.store, id) && FindCandidateTransition(w, env.store[id].def, env.store[id].current, event, env.store[id].contextMap).Some?
    ensures
      var o, row := ProcessEvent(w, id, event, env), env.store[id];
      var t := FindCandidateTransition(w, row.def, row.current, event, row.contextMap).value;
      var start := Run(row, row.contextMap, env, false, [], []);
      && Apply(w, id, t, start).Done? && Chain(w, id, Apply(w, id, t, start).run, 0).Done?
      && var r := Chain(w, id, Apply(w, id, t, start).run, 0).run;
      && o.run.row == r.row.(contextMap := r.ctx, complete := r.row.current.state.info.id in r.row.def.endStates, version := r.row.version + 1)
      && o.run == r.(row := o.run.row)
      && o.env == Env(r.env.tick + 1, r.env.store[id := o.run.row], r.env.cohorts)
      && o.notify == if o.run.row.complete && !row.complete then r.row.parentId else None
  {
    hide Apply, Chain, FindCandidateTransition, AllChildrenComplete;
  }

  /** Why an event is refused: the instance is unknown or withdrawn, no transition takes
      the event, the join it takes has an incomplete child, the transition or the chain
      fails, or the row cannot be saved. The first three leave everything as it was. */
  lemma RefusalReasons(w: World, id: string, event: string, env: Env)
    ensures
      var o := ProcessEvent(w, id, event, env);
      if id !in env.store || env.store[id].deleted then o == Refused(env, NotFound, false)
      else
        var row := env.store[id];
        var t := FindCandidateTransition(w, row.def, row.current, event, row.contextMap);
        if t.None? then o == Refused(env, NoTransition, false)
        else if (t.value.kind == JoinKind || t.value.join) && !AllChildrenComplete(env.store, id, row.pendingForkGeneration)
        then o == Refused(env, ChildrenNotComplete, false)
        else
          var s := Apply(w, id, t.value, Run(row, row.contextMap, env, false, [], []));
          if s.Failed? then o == Refused(s.failedEnv, StepFailed, s.failedMoved)
          else
            var c := Chain(w, id, s.run, 0);
            if c.Failed? then o == Refused(c.failedEnv, StepFailed, c.failedMoved)
            else if w.saveOk(c.run.env.tick) then o.Committed?
            else o == Refused(c.run.env.(tick := c.run.env.tick + 1), SaveFailed, c.run.moved)
  {
    hide Apply, Chain, FindCandidateTransition, AllChildrenComplete;
  }

  /** What a new instance is: it starts at the first state of its definition, inside a
      composite at the initial substate, with nothing in its context, goes through the
      automatic chain, and is stored once under an id of its own. */
  lemma InstanceStarts(w: World, def: Workflow, env: Env)
    requires NewInstance(w, def, env).1.Some?
    ensures def.states != [] && InitialPosition(def.states[0]).Some?
    ensures
      var (next, made) := NewInstance(w, def, env);
      var id, at := w.uuid(env.tick), InitialPosition(def.states[0]).value;
      var entry := JourneyEntry("", TriggerUnset, KindUnset, "", "", def.states[0].info.id,
                                if at.substate.Some? then at.substate.value.info.id else "");
      var row := Row(None, def, at, "", map[], map[], [entry], 0, def.states[0].info.id in def.endStates, "", "", false);
      var s := Chain(w, id, Run(row, map[], env.(tick := env.tick + 1), false, [], []), 0);
      && made.value.0 == id && s.Done? && id !in s.run.env.store
      && made.value.1.row == s.run.row.(contextMap := s.run.ctx, complete := s.run.row.current.state.info.id in def.endStates)
      && next == Env(s.run.env.tick + 1, s.run.env.store[id := made.value.1.row], s.run.env.cohorts)
  {
    hide Chain;
  }

  /** A withdrawn child is out of every gate's scope, and nothing else has changed; only
      its own parent can withdraw it. */
  lemma WithdrawnIsOut(parentId: string, childId: string, env: Env, p: string, gen: string)
    ensures
      var next := Withdraw(parentId, childId, env);
      if childId in env.store && !env.store[childId].deleted && env.store[childId].parentId == Some(parentId) then
        && next.store.Keys == env.store.Keys && next.tick == env.tick && next.cohorts == env.cohorts
        && (forall c :: c in env.store && c != childId ==> next.store[c] == env.store[c])
        && next.store[childId] == env.store[childId].(deleted := true)
        && (AllChildrenComplete(next.store, p, gen) <==>
              forall c :: c in env.store && c != childId && InScope(env.store[c], p, gen) ==> env.store[c].complete)
      else next == env
  {}

  class Engine {
    const db: Database

    constructor (db: Database)
      ensures this.db == db
    {
      this.db := db;
    }

    /** The database and the returned values are those of the outcome. */
    ghost predicate Reports(o: Outcome, newState: Option<string>, moved: bool, notify: Option<string>)
      reads db
    {
      && db.State() == o.env
      && match o
         case Committed(_, run, n) => newState == Some(run.row.current.state.Id()) && moved == run.moved && notify == n
         case Refused(_, _, m) => newState == None && moved == m && notify == None
    }

    /** processEvent, up to the publication on the event bus. */
    method Process(w: World, id: string, event: string) returns (newState: Option<string>, moved: bool, notify: Option<string>)
      modifies db
      ensures Reports(ProcessEvent(w, id, event, old(db.State())), newState, moved, notify)
    {
      newState, moved, notify := None, false, None;
      if Live(db.rows, id) {
        var row := db.rows[id];
        var t := FindCandidateTransition(w, row.def, row.current, event, row.contextMap);
        if t.Some? && !(t.value.IsJoin() && !AllChildrenComplete(db.rows, id, row.pendingForkGeneration)) {
          newState, moved, notify := Transact(w, id, t.value, row);
        }
      }
    }

    /** The part of the transaction after the join gate. */
    method Transact(w: World, id: string, t: Transition, row: Row) returns (newState: Option<string>, moved: bool, notify: Option<string>)
      modifies db
      ensures
        match StepAndChain(w, id, t, Begin(row, old(db.State())))
        case Failed(e, m) => Reports(Refused(e, StepFailed, m), newState, moved, notify)
        case Done(r) => Reports(Commit(w, id, row, r), newState, moved, notify)
    {
      newState, notify := None, None;
      var wf := new WorkflowInstance(row);
      var ctxMap, ok := wf.contextMap, true;
      ctxMap, moved, ok := StepInPlace(w, wf, id, t, ctxMap, Begin(row, db.State()));
      if ok {
        newState, notify := Save(w, id, row, wf, ctxMap, StepAndChain(w, id, t, Begin(row, old(db.State()))).run);
      }
    }

    method Save(w: World, id: string, before: Row, wf: WorkflowInstance, ctx: Context, ghost r: Run)
      returns (newState: Option<string>, notify: Option<string>)
      requires r.row == wf.Snapshot() && r.ctx == ctx && r.env == db.State()
      modifies db, wf
      ensures Reports(Commit(w, id, before, r), newState, r.moved, notify)
    {
      newState, notify := None, None;
      wf.contextMap := ctx;
      wf.complete := IsEndState(wf.def, wf.current);
      wf.version := wf.version + 1;
      var ok := w.saveOk(db.tick);
      db.tick := db.tick + 1;
      if ok {
        db.rows := db.rows[id := wf.Snapshot()];
        newState := Some(wf.current.state.Id());
        notify := if !before.complete && wf.complete then wf.parentId else None;
      }
    }

    method StepInPlace(w: World, wf: WorkflowInstance, id: string, t: Transition, ctx: Context, ghost run: Run)
      returns (r: Context, moved: bool, ok: bool)
      requires run == Begin(wf.Snapshot(), db.State()) && ctx == wf.contextMap
      modifies db, wf
      ensures
        var s := StepAndChain(w, id, t, run);
        && ok == s.Done? && db.State() == s.Env() && moved == s.Moved()
        && (ok ==> wf.Snapshot() == s.run.row && r == s.run.ctx)
    {
      r, moved, ok := wf.ApplyTransition(w, db, id, t, ctx, run);
      if ok {
        ghost var mid := Apply(w, id, t, run).run;
        var chainMoved: bool;
        r, chainMoved, ok := wf.RunAutomaticChain(w, db, id, r, mid);
        moved := moved || chainMoved;
      }
    }

    /** NewWorkflowInstance. */
    method New(w: World, def: Workflow) returns (id: Option<string>)
      modifies db
      ensures
        var (e, made) := NewInstance(w, def, old(db.State()));
        db.State() == e && id == (if made.Some? then Some(made.value.0) else None)
    {
      hide Chain, InitialPosition, IsEndState, InitialEntry;
      var uuid := w.uuid(db.tick);
      db.tick := db.tick + 1;
      if def.states == [] {
        return None;
      }
      var at := InitialPosition(def.states[0]);
      if at.None? {
        return None;
      }
      var wf := new WorkflowInstance(Fresh(def, at.value));
      var ctxMap, _, ok := wf.RunAutomaticChain(w, db, uuid, map[], Begin(Fresh(def, at.value), db.State()));
      if !ok {
        return None;
      }
      wf.contextMap := ctxMap;
      wf.complete := IsEndState(def, wf.current);
      ok := w.insertOk(db.tick);
      db.tick := db.tick + 1;
      if uuid in db.rows || !ok {
        return None;
      }
      db.rows := db.rows[uuid := wf.Snapshot()];
      id := Some(uuid);
    }

    method WithdrawChild(parentId: string, childId: string)
      modifies db
      ensures db.State() == Withdraw(parentId, childId, old(db.State()))
    {
      if Live(db.rows, childId) && db.rows[childId].parentId == Some(parentId) {
        db.rows := db.rows[childId := db.rows[childId].(deleted := true)];
      }
    }
  }
}
