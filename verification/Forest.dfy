/** Parents are older than their children (engine/children.go:38-64): a child row is
    only ever inserted under a parent that is already in the table, and no row changes
    its parent. So the ParentId links form a forest at every point of every run. */
module Forest {
  import opened Model
  import opened Persistence
  import opened Lookup
  import opened Children
  import opened Actions
  import opened Transitions
  import opened WorkflowOps
  import opened RunInvariants
  import Creation

  /** Every parent is in the table, strictly above its child. */
  ghost predicate Older(store: map<string, Row>, depth: map<string, nat>) {
    && depth.Keys == store.Keys
    && forall k :: k in store && store[k].parentId.Some? ==>
         store[k].parentId.value in store && depth[store[k].parentId.value] < depth[k]
  }

  /** Rows keep their parents. */
  ghost predicate KeepsParents(store: map<string, Row>, next: map<string, Row>) {
    forall k :: k in store ==> k in next && next[k].parentId == store[k].parentId
  }

  lemma GrowOlder(id: string, env: Env, next: Env, d: map<string, nat>) returns (e: map<string, nat>)
    requires Older(env.store, d) && Grows(id, env, next) && (id in env.store || next.store == env.store)
    ensures Older(next.store, e)
  {
    hide IsNewChild;
    if id in env.store {
      e := map k | k in next.store :: if k in d then d[k] else d[id] + 1;
    } else {
      e := d;
    }
  }

  lemma SaveOlder(store: map<string, Row>, d: map<string, nat>, id: string, row: Row)
    requires Older(store, d) && id in store && row.parentId == store[id].parentId
    ensures Older(store[id := row], d)
  {}

  /** One operation. */
  lemma PerformOlder(w: World, op: Op, s: Sys, d: map<string, nat>) returns (e: map<string, nat>)
    requires Older(s.env.store, d)
    ensures Older(Perform(w, op, s).env.store, e) && KeepsParents(s.env.store, Perform(w, op, s).env.store)
  {
    hide Older, KeepsParents, NewInstance, ProcessEvent, CreateChild, Withdraw;
    match op
    case New(def) => e := NewOlder(w, def, s, d);
    case Event(id, event) => e := EventOlder(w, id, event, s, d);
    case Child(parentId, def) => e := ChildOlder(w, parentId, def, s.env, d);
    case WithdrawChild(parentId, childId) =>
      WithdrawOlder(parentId, childId, s.env, d);
      e := d;
  }

  lemma ChildOlder(w: World, parentId: string, def: Workflow, env: Env, d: map<string, nat>) returns (e: map<string, nat>)
    requires Older(env.store, d)
    ensures
      var next := CreateChild(w, parentId, def, "", env).0;
      Older(next.store, e) && KeepsParents(env.store, next.store)
  {
    hide Older, InitialPosition, IsNewChild;
    CreateChildGrows(w, parentId, def, "", env);
    CreateChildShape(w, parentId, def, "", env);
    var next := CreateChild(w, parentId, def, "", env).0;
    e := GrowOlder(parentId, env, next, d);
  }

  lemma WithdrawOlder(parentId: string, childId: string, env: Env, d: map<string, nat>)
    requires Older(env.store, d)
    ensures
      var next := Withdraw(parentId, childId, env);
      Older(next.store, d) && KeepsParents(env.store, next.store)
  {}

  lemma EventOlder(w: World, id: string, event: string, s: Sys, d: map<string, nat>) returns (e: map<string, nat>)
    requires Older(s.env.store, d)
    ensures
      var next := ProcessEvent(w, id, event, s.env).env;
      Older(next.store, e) && KeepsParents(s.env.store, next.store)
  {
    hide Older, StepAndChain, FindCandidateTransition, AllChildrenComplete;
    e := d;
    if Live(s.env.store, id) {
      var row := s.env.store[id];
      var t := FindCandidateTransition(w, row.def, row.current, event, row.contextMap);
      if t.Some? && !(t.value.IsJoin() && !AllChildrenComplete(s.env.store, id, row.pendingForkGeneration)) {
        var r := Begin(row, s.env);
        StepAndChainGrows(w, id, t.value, r);
        var step := StepAndChain(w, id, t.value, r);
        e := GrowOlder(id, s.env, step.Env(), d);
        if step.Done? {
          StepKeepsIdentity(w, id, t.value, r);
          SaveOlder(step.run.env.store, e, id, Saved(step.run));
        }
      }
    }
  }

  lemma NewOlder(w: World, def: Workflow, s: Sys, d: map<string, nat>) returns (e: map<string, nat>)
    requires Older(s.env.store, d)
    ensures
      var next := NewInstance(w, def, s.env).0;
      Older(next.store, e) && KeepsParents(s.env.store, next.store)
  {
    hide Older, Chain, InitialPosition;
    e := d;
    if def.states != [] && InitialPosition(def.states[0]).Some? {
      var id := w.uuid(s.env.tick);
      var r := Begin(Fresh(def, InitialPosition(def.states[0]).value), s.env.(tick := s.env.tick + 1));
      var step := Chain(w, id, r, 0);
      ChainGrows(w, id, r, 0);
      if !Live(r.env.store, id) { Creation.NoChildChain(w, id, r, 0); }
      GrowsTrans(id, s.env, r.env, step.Env());
      e := GrowOlder(id, s.env, step.Env(), d);
      if step.Done? && id !in step.run.env.store && w.insertOk(step.run.env.tick) {
        ChainKeepsIdentity(w, id, r, 0);
        e := InsertOlder(step.run.env.store, e, id, step.run.row.(contextMap := step.run.ctx, complete := IsEndState(def, step.run.row.current)));
      }
    }
  }

  lemma InsertOlder(store: map<string, Row>, d: map<string, nat>, id: string, row: Row) returns (e: map<string, nat>)
    requires Older(store, d) && id !in store && row.parentId.None?
    ensures Older(store[id := row], e)
  {
    e := d[id := 0];
  }

  /** Main result: after any sequence of operations the parents form a forest, whose
      depths are given. */
  lemma {:induction false} ParentForest(w: World, ops: seq<Op>) returns (d: map<string, nat>)
    ensures Older(After(w, ops).env.store, d)
  {
    hide Older, Perform;
    if ops == [] {
      d := map[];
      EmptyOlder();
    } else {
      d := ParentForest(w, ops[..|ops| - 1]);
      d := PerformOlder(w, ops[|ops| - 1], After(w, ops[..|ops| - 1]), d);
    }
  }

  lemma EmptyOlder()
    ensures Older(EMPTY.env.store, map[])
  {}

  /** And later operations neither remove a row nor give it another parent. */
  lemma {:induction false} ParentsStay(w: World, ops: seq<Op>, more: seq<Op>)
    ensures KeepsParents(After(w, ops).env.store, After(w, ops + more).env.store)
  {
    hide Older, Perform;
    if more == [] {
      assert ops + more == ops;
    } else {
      var n := |more| - 1;
      var all := ops + more;
      assert all[..|all| - 1] == ops + more[..n] && all[|all| - 1] == more[n];
      ParentsStay(w, ops, more[..n]);
      var d := ParentForest(w, ops + more[..n]);
      d := PerformOlder(w, more[n], After(w, ops + more[..n]), d);
    }
  }
}
