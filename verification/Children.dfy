/** The table of instances and the creation of child instances
    (engine/children.go). */
module Children {
  import opened Model
  import opened Persistence

  /** Which children one fork created; kept beside the table to state what a
      generation id stands for. */
  datatype Cohort = Cohort(parent: string, kids: set<string>)

  /** What outlives a rolled-back transaction: the rows of the table, how much of
      the outside world has been consumed, and the forks that have run. */
  datatype Env = Env(tick: nat, store: map<string, Row>, cohorts: map<string, Cohort>)

  predicate Live(store: map<string, Row>, id: string) {
    id in store && !store[id].deleted
  }

  function ChildRow(parentId: string, def: Workflow, gen: string, at: StateContainer): Row {
    Row(Some(parentId), def, at, "", map[], map[], [InitialEntry(at)], 0, IsEndState(def, at), gen, "", false)
  }

  /** The row of a child that has not processed any event. */
  ghost predicate IsNewChild(r: Row) {
    && r.parentId.Some? && r.def.states != []
    && InitialPosition(r.def.states[0]) == Some(r.current)
    && r == ChildRow(r.parentId.value, r.def, r.forkGeneration, r.current)
  }

  function Record(cohorts: map<string, Cohort>, gen: string, parent: string, id: string): map<string, Cohort> {
    if gen == "" then cohorts
    else
      var kids := if gen in cohorts then cohorts[gen].kids else {};
      cohorts[gen := Cohort(parent, kids + {id})]
  }

  /** createChildWorkflowInstance. It fails when the parent is not in the table,
      when the first state cannot be entered, or when the insert fails, as it
      does on a primary key that is taken. */
  function CreateChild(w: World, parentId: string, def: Workflow, gen: string, env: Env): (r: (Env, Option<string>))
    ensures r.1.Some? ==> r.1.value !in env.store && r.1.value in r.0.store
  {
    if !Live(env.store, parentId) || def.states == [] then (env, None)
    else
      match InitialPosition(def.states[0])
      case None => (env, None)
      case Some(at) =>
        var id := w.uuid(env.tick);
        var next := env.(tick := env.tick + 1);
        if id in env.store || !w.insertOk(env.tick) then (next, None)
        else
          (next.(store := env.store[id := ChildRow(parentId, def, gen, at)],
                 cohorts := Record(env.cohorts, gen, parentId, id)),
           Some(id))
  }

  /** What CreateChild comes to when it succeeds. */
  lemma CreateChildShape(w: World, parentId: string, def: Workflow, gen: string, e: Env)
    ensures
      var at := if def.states == [] then None else InitialPosition(def.states[0]);
      var id := w.uuid(e.tick);
      CreateChild(w, parentId, def, gen, e).1.Some? <==>
        Live(e.store, parentId) && at.Some? && id !in e.store && w.insertOk(e.tick)
    ensures CreateChild(w, parentId, def, gen, e).1.Some? ==>
      var id := w.uuid(e.tick);
      CreateChild(w, parentId, def, gen, e)
      == (Env(e.tick + 1, e.store[id := ChildRow(parentId, def, gen, InitialPosition(def.states[0]).value)],
              Record(e.cohorts, gen, parentId, id)), Some(id))
  {
    hide InitialPosition, ChildRow, Record;
  }

  datatype Batch = Batch(env: Env, ids: seq<string>, ok: bool)

  /** Every definition is attempted even when another one fails. */
  function CreateBatch(w: World, parentId: string, defs: seq<Workflow>, gen: string, env: Env): (b: Batch)
    ensures |b.ids| == |defs|
  {
    if defs == [] then Batch(env, [], true)
    else
      var n := |defs| - 1;
      var b := CreateBatch(w, parentId, defs[..n], gen, env);
      var (e, id) := CreateChild(w, parentId, defs[n], gen, b.env);
      Batch(e, b.ids + [if id.Some? then id.value else ""], b.ok && id.Some?)
  }

  /** allChildrenComplete: no live child in scope is incomplete. Without a
      generation every child of the parent is in scope. */
  predicate AllChildrenComplete(store: map<string, Row>, parentId: string, gen: string) {
    forall c :: c in store && InScope(store[c], parentId, gen) ==> store[c].complete
  }

  /** A live child of the parent, created by the given fork if there is one. */
  predicate InScope(r: Row, parentId: string, gen: string) {
    !r.deleted && r.parentId == Some(parentId) && (gen == "" || r.forkGeneration == gen)
  }

  /** Which children the gate looks at: those that have not been withdrawn, of this parent,
      and of the fork it waits for if it waits for one. With no generation pending, a
      child of an earlier fork counts like any other. */
  lemma GateScope(store: map<string, Row>, parentId: string, gen: string)
    ensures gen != "" ==>
      (AllChildrenComplete(store, parentId, gen) <==>
        forall c :: c in store && !store[c].deleted && store[c].parentId == Some(parentId) && store[c].forkGeneration == gen ==> store[c].complete)
    ensures gen == "" ==>
      (AllChildrenComplete(store, parentId, gen) <==>
        forall c :: c in store && !store[c].deleted && store[c].parentId == Some(parentId) ==> store[c].complete)
  {}

  /** Only new children of `parentId` are added. */
  ghost predicate Grows(parentId: string, env: Env, next: Env) {
    && env.tick <= next.tick
    && (forall k :: k in env.store ==> k in next.store && next.store[k] == env.store[k])
    && (forall k :: k in next.store && k !in env.store ==> IsNewChild(next.store[k]) && next.store[k].parentId == Some(parentId))
  }

  lemma GrowsSelf(parentId: string, env: Env)
    ensures Grows(parentId, env, env)
  {}

  lemma GrowsTrans(parentId: string, a: Env, b: Env, c: Env)
    requires Grows(parentId, a, b) && Grows(parentId, b, c)
    ensures Grows(parentId, a, c)
  {}

  /** No child created on the way belongs to a fork. */
  ghost predicate AdHoc(env: Env, next: Env) {
    next.cohorts == env.cohorts
    && forall k :: k in next.store && k !in env.store ==> next.store[k].forkGeneration == ""
  }

  lemma AdHocTrans(parentId: string, a: Env, b: Env, c: Env)
    requires AdHoc(a, b) && AdHoc(b, c) && Grows(parentId, b, c)
    ensures AdHoc(a, c)
  {}

  lemma AdHocSelf(env: Env)
    ensures AdHoc(env, env)
  {}

  lemma TickGrows(parentId: string, env: Env)
    ensures Grows(parentId, env, env.(tick := env.tick + 1)) && AdHoc(env, env.(tick := env.tick + 1))
  {}

  lemma AdHocChild(w: World, parentId: string, def: Workflow, env: Env)
    ensures AdHoc(env, CreateChild(w, parentId, def, "", env).0)
  {
    hide InitialPosition;
  }

  lemma {:induction false} AdHocBatch(w: World, parentId: string, defs: seq<Workflow>, env: Env)
    ensures AdHoc(env, CreateBatch(w, parentId, defs, "", env).env)
  {
    if defs != [] { AdHocBatch(w, parentId, defs[..|defs| - 1], env); }
  }

  lemma CreateChildGrows(w: World, parentId: string, def: Workflow, gen: string, env: Env)
    ensures Grows(parentId, env, CreateChild(w, parentId, def, gen, env).0)
  {}

  lemma {:induction false} CreateBatchGrows(w: World, parentId: string, defs: seq<Workflow>, gen: string, env: Env)
    ensures Grows(parentId, env, CreateBatch(w, parentId, defs, gen, env).env)
  {
    if defs != [] {
      var n := |defs| - 1;
      CreateBatchGrows(w, parentId, defs[..n], gen, env);
      var b := CreateBatch(w, parentId, defs[..n], gen, env);
      CreateChildGrows(w, parentId, defs[n], gen, b.env);
      GrowsTrans(parentId, env, b.env, CreateChild(w, parentId, defs[n], gen, b.env).0);
    }
  }

  predicate Inserted(env: Env, next: Env, id: string, parentId: string, def: Workflow, gen: string) {
    && id !in env.store && id in next.store
    && next.store[id].def == def
    && next.store[id].parentId == Some(parentId)
    && next.store[id].forkGeneration == gen
  }

  lemma LastInserted(w: World, parentId: string, def: Workflow, gen: string, env: Env, mid: Env)
    requires Grows(parentId, env, mid) && CreateChild(w, parentId, def, gen, mid).1.Some?
    ensures
      var (e, id) := CreateChild(w, parentId, def, gen, mid);
      Inserted(env, e, id.value, parentId, def, gen)
  {
    hide InitialPosition, IsNewChild, Record;
    CreateChildShape(w, parentId, def, gen, mid);
  }

  lemma EarlierInserted(w: World, parentId: string, def: Workflow, gen: string, env: Env, mid: Env, k: string, d: Workflow)
    requires Inserted(env, mid, k, parentId, d, gen) && CreateChild(w, parentId, def, gen, mid).1.Some?
    ensures
      var (e, id) := CreateChild(w, parentId, def, gen, mid);
      Inserted(env, e, k, parentId, d, gen) && id.value != k
  {
    hide InitialPosition, ChildRow, Record;
    CreateChildShape(w, parentId, def, gen, mid);
  }

  lemma BatchStep(w: World, parentId: string, defs: seq<Workflow>, gen: string, env: Env)
    requires defs != []
    ensures
      var b := CreateBatch(w, parentId, defs[..|defs| - 1], gen, env);
      var (e, id) := CreateChild(w, parentId, defs[|defs| - 1], gen, b.env);
      var c := CreateBatch(w, parentId, defs, gen, env);
      c.ok ==> b.ok && id.Some? && c.ids == b.ids + [id.value] && c.env == e
  {
    hide CreateChild;
  }

  /** A batch that reports success has inserted one row per definition, all
      distinct, in the order of the definitions. */
  lemma {:induction false} BatchInserts(w: World, parentId: string, defs: seq<Workflow>, gen: string, env: Env)
    requires CreateBatch(w, parentId, defs, gen, env).ok
    ensures
      var b := CreateBatch(w, parentId, defs, gen, env);
      && (forall i :: 0 <= i < |defs| ==> Inserted(env, b.env, b.ids[i], parentId, defs[i], gen))
      && (forall i, j :: 0 <= i < j < |defs| ==> b.ids[i] != b.ids[j])
  {
    hide CreateChild, Inserted, Grows, CreateBatch;
    if defs != [] {
      var n := |defs| - 1;
      var b := CreateBatch(w, parentId, defs[..n], gen, env);
      var (e, id) := CreateChild(w, parentId, defs[n], gen, b.env);
      var c := CreateBatch(w, parentId, defs, gen, env);
      BatchStep(w, parentId, defs, gen, env);
      BatchInserts(w, parentId, defs[..n], gen, env);
      CreateBatchGrows(w, parentId, defs[..n], gen, env);
      LastInserted(w, parentId, defs[n], gen, env, b.env);
      forall i | 0 <= i < n ensures Inserted(env, e, c.ids[i], parentId, defs[i], gen) && c.ids[i] != c.ids[n] {
        assert Inserted(env, b.env, b.ids[i], parentId, defs[..n][i], gen);
        EarlierInserted(w, parentId, defs[n], gen, env, b.env, b.ids[i], defs[i]);
      }
    }
  }

  /** The row of a new child: the definition's first position, an empty context and
      history, one journey entry for the start, and complete if that is an end state. */
  lemma ChildStarts(w: World, parentId: string, def: Workflow, gen: string, env: Env)
    requires CreateChild(w, parentId, def, gen, env).1.Some?
    ensures
      var (next, id) := CreateChild(w, parentId, def, gen, env);
      var row := next.store[id.value];
      var sub := if row.current.substate.Some? then row.current.substate.value.info.id else "";
      && Live(env.store, parentId) && id.value == w.uuid(env.tick) && id.value !in env.store && next.tick == env.tick + 1
      && next.store == env.store[id.value := row]
      && row.parentId == Some(parentId) && row.def == def && row.forkGeneration == gen && row.pendingForkGeneration == ""
      && row.current.state == def.states[0] && InitialPosition(def.states[0]) == Some(row.current)
      && row.lastTransition == "" && row.contextMap == map[] && row.compositeHistory == map[] && row.version == 0 && !row.deleted
      && row.complete == (row.current.state.info.id in def.endStates)
      && row.journey == [JourneyEntry("", TriggerUnset, KindUnset, "", "", row.current.state.info.id, sub)]
  {}

  /** The i-th id drawn from now on, and the first `n` of them. */
  function IdAt(w: World, env: Env, i: nat): string { w.uuid(env.tick + i) }

  ghost function IdsBelow(w: World, env: Env, n: nat): set<string> {
    set i: nat | i < n :: IdAt(w, env, i)
  }

  lemma IdsStep(w: World, env: Env, n: nat)
    ensures IdsBelow(w, env, n + 1) == IdsBelow(w, env, n) + {IdAt(w, env, n)}
  {
    forall x | x in IdsBelow(w, env, n) + {IdAt(w, env, n)} ensures x in IdsBelow(w, env, n + 1) {
      if x in IdsBelow(w, env, n) {
        var i: nat :| i < n && x == IdAt(w, env, i);
      }
    }
  }

  lemma ChildUses(w: World, parentId: string, def: Workflow, gen: string, env: Env)
    requires CreateChild(w, parentId, def, gen, env).1.Some?
    ensures
      var next := CreateChild(w, parentId, def, gen, env).0;
      next.tick == env.tick + 1 && next.store.Keys == env.store.Keys + {w.uuid(env.tick)}
  {
    hide InitialPosition, ChildRow, Record;
  }

  lemma NothingUsed(w: World, parentId: string, gen: string, env: Env)
    ensures CreateBatch(w, parentId, [], gen, env) == Batch(env, [], true) && IdsBelow(w, env, 0) == {}
  {}

  lemma {:induction false} BatchUses(w: World, parentId: string, defs: seq<Workflow>, gen: string, env: Env)
    requires CreateBatch(w, parentId, defs, gen, env).ok
    ensures
      var b := CreateBatch(w, parentId, defs, gen, env);
      b.env.tick == env.tick + |defs| && b.env.store.Keys == env.store.Keys + IdsBelow(w, env, |defs|)
  {
    hide CreateBatch, CreateChild, IdsBelow;
    if defs == [] {
      NothingUsed(w, parentId, gen, env);
    } else {
      var n := |defs| - 1;
      BatchStep(w, parentId, defs, gen, env);
      BatchUses(w, parentId, defs[..n], gen, env);
      IdsStep(w, env, n);
      ChildUses(w, parentId, defs[n], gen, CreateBatch(w, parentId, defs[..n], gen, env).env);
    }
  }

  /** The i-th child of a batch can be created: its first state can be entered, and its id
      is new and can be inserted. */
  ghost predicate CanStart(w: World, def: Workflow, env: Env, i: nat) {
    && def.states != [] && InitialPosition(def.states[0]).Some?
    && IdAt(w, env, i) !in env.store && w.insertOk(env.tick + i)
  }

  ghost predicate AllCanStart(w: World, parentId: string, defs: seq<Workflow>, env: Env) {
    && Live(env.store, parentId) && (forall i :: 0 <= i < |defs| ==> CanStart(w, defs[i], env, i))
    && (forall i, j :: 0 <= i < j < |defs| ==> IdAt(w, env, i) != IdAt(w, env, j))
  }

  lemma AllCanStartStep(w: World, parentId: string, defs: seq<Workflow>, env: Env)
    requires defs != []
    ensures
      var n := |defs| - 1;
      AllCanStart(w, parentId, defs, env) <==>
        Live(env.store, parentId) && AllCanStart(w, parentId, defs[..n], env)
        && CanStart(w, defs[n], env, n) && IdAt(w, env, n) !in IdsBelow(w, env, n)
  {
    hide CanStart, IdAt, Live;
    var n := |defs| - 1;
    assert forall i :: 0 <= i < n ==> defs[..n][i] == defs[i];
    assert forall i: nat :: i < n ==> IdAt(w, env, i) in IdsBelow(w, env, n);
  }

  lemma NoneCanStart(w: World, parentId: string, env: Env)
    ensures AllCanStart(w, parentId, [], env) == Live(env.store, parentId)
  {}

  lemma ChildNeedsParent(w: World, parentId: string, def: Workflow, gen: string, env: Env)
    ensures CreateChild(w, parentId, def, gen, env).1.Some? ==> Live(env.store, parentId)
  {}

  lemma AllNeedParent(w: World, parentId: string, defs: seq<Workflow>, env: Env)
    ensures AllCanStart(w, parentId, defs, env) ==> Live(env.store, parentId)
  {}

  lemma BatchLast(w: World, parentId: string, defs: seq<Workflow>, gen: string, env: Env)
    requires defs != []
    ensures
      var n := |defs| - 1;
      var front := CreateBatch(w, parentId, defs[..n], gen, env);
      && CreateBatch(w, parentId, defs, gen, env).ok == (front.ok && CreateChild(w, parentId, defs[n], gen, front.env).1.Some?)
      && (n == 0 ==> front == Batch(env, [], true))
  {
    hide CreateChild;
  }

  /** The last child of a batch whose others have been created. */
  lemma LastCanStart(w: World, parentId: string, defs: seq<Workflow>, gen: string, env: Env)
    requires defs != [] && Live(env.store, parentId) && CreateBatch(w, parentId, defs[..|defs| - 1], gen, env).ok
    ensures
      var n := |defs| - 1;
      var front := CreateBatch(w, parentId, defs[..n], gen, env);
      CreateChild(w, parentId, defs[n], gen, front.env).1.Some? <==>
        CanStart(w, defs[n], env, n) && IdAt(w, env, n) !in IdsBelow(w, env, n)
  {
    hide InitialPosition, CreateBatch, CreateChild, IdsBelow;
    var n := |defs| - 1;
    BatchUses(w, parentId, defs[..n], gen, env);
    CreateBatchGrows(w, parentId, defs[..n], gen, env);
    CreateChildShape(w, parentId, defs[n], gen, CreateBatch(w, parentId, defs[..n], gen, env).env);
  }

  /** A batch succeeds exactly when the parent is there and every child can be created
      under an id of its own. */
  lemma {:induction false} BatchSucceedsExactly(w: World, parentId: string, defs: seq<Workflow>, gen: string, env: Env)
    ensures CreateBatch(w, parentId, defs, gen, env).ok <==> defs == [] || AllCanStart(w, parentId, defs, env)
  {
    hide CreateChild, AllCanStart, CanStart, IdAt, IdsBelow;
    if defs != [] {
      hide CreateBatch;
      var n := |defs| - 1;
      BatchSucceedsExactly(w, parentId, defs[..n], gen, env);
      BatchLast(w, parentId, defs, gen, env);
      AllCanStartStep(w, parentId, defs, env);
      NoneCanStart(w, parentId, env);
      if Live(env.store, parentId) && CreateBatch(w, parentId, defs[..n], gen, env).ok {
        LastCanStart(w, parentId, defs, gen, env);
      } else if !Live(env.store, parentId) {
        ChildNeedsParent(w, parentId, defs[n], gen, env);
        AllNeedParent(w, parentId, defs[..n], env);
      }
    }
  }

  /** The database handle. */
  class Database {
    var tick: nat
    var rows: map<string, Row>
    var cohorts: map<string, Cohort>

    function State(): Env
      reads this
    {
      Env(tick, rows, cohorts)
    }

    constructor ()
      ensures State() == Env(0, map[], map[])
    {
      tick := 0;
      rows := map[];
      cohorts := map[];
    }

    method CreateChildWorkflowInstance(w: World, parentId: string, def: Workflow, gen: string) returns (id: Option<string>)
      modifies this
      ensures (State(), id) == CreateChild(w, parentId, def, gen, old(State()))
    {
      if !Live(rows, parentId) || def.states == [] {
        return None;
      }
      var at := InitialPosition(def.states[0]);
      if at.None? {
        return None;
      }
      var fresh_ := w.uuid(tick);
      var ok := w.insertOk(tick);
      tick := tick + 1;
      if fresh_ in rows || !ok {
        return None;
      }
      rows := rows[fresh_ := ChildRow(parentId, def, gen, at.value)];
      cohorts := Record(cohorts, gen, parentId, fresh_);
      id := Some(fresh_);
    }

    /** Fills `ids[i]` with the child of `defs[i]`. */
    method CreateChildWorkflowInstancesBatchWithGeneration(w: World, parentId: string, defs: seq<Workflow>, gen: string)
      returns (result: Option<seq<string>>)
      modifies this
      ensures
        var b := CreateBatch(w, parentId, defs, gen, old(State()));
        State() == b.env && result == (if b.ok then Some(b.ids) else None)
    {
      var ids := new string[|defs|](_ => "");
      var ok := true;
      for i := 0 to |defs|
        invariant
          var b := CreateBatch(w, parentId, defs[..i], gen, old(State()));
          State() == b.env && ids[..i] == b.ids && ok == b.ok
        invariant forall j :: i <= j < |defs| ==> ids[j] == ""
      {
        assert defs[..i + 1][..i] == defs[..i];
        var id := CreateChildWorkflowInstance(w, parentId, defs[i], gen);
        if id.Some? {
          ids[i] := id.value;
        } else {
          ok := false;
        }
        assert ids[..i + 1] == ids[..i] + [ids[i]];
      }
      assert defs[..|defs|] == defs && ids[..|defs|] == ids[..];
      result := if ok then Some(ids[..]) else None;
    }
  }
}
