/** Running an action list (model/statemachine.go, model/executions.go). */
module Actions {
  import opened Model
  import opened Persistence
  import opened Interpolation
  import opened Children

  /** The context, what outlives a rollback, and whether no action failed. */
  datatype Exec = Exec(ctx: Context, env: Env, ok: bool)

  function InnerOrder(w: World, tick: nat): (string, set<string>) -> seq<string> {
    (name: string, keys: set<string>) => w.keyOrder(tick, Some(name), keys)
  }

  /** The request an HTTP action sends; an absent verb means GET. */
  function RequestOf(w: World, token: string, a: Action, ctx: Context, tick: nat): HttpRequest {
    HttpRequest(
      if a.httpMethod == "" then "GET" else a.httpMethod,
      InterpolateIn(w.keyOrder(tick, None, ctx.Keys), ctx, a.url),
      map k | k in a.variables :: InterpolateIn(InnerOrder(w, tick)(k, ctx.Keys), ctx, a.variables[k]),
      if a.forwardToken then token else "")
  }

  /** executeCreateChildAction: one child, outside any batch. */
  function CreateOne(w: World, token: string, a: Action, ctx: Context, env: Env): Exec {
    match a.childWorkflow
    case None => Exec(ctx, env, false)
    case Some(def) =>
      match CreateChild(w, token, def, "", env)
      case (next, None) => Exec(ctx, next, false)
      case (next, Some(id)) => Exec(ctx["childWorkflowId" := id], next, true)
  }

  /** Action.Execute. Action lists batch their create-child actions and never come here
      with one. */
  function ExecuteOne(w: World, token: string, a: Action, ctx: Context, env: Env): Exec {
    match a.actionType
    case HttpRequestAction =>
      if !a.expectResponse then Exec(ctx, env, true)
      else
        var next := env.(tick := env.tick + 1);
        (match w.http(env.tick, RequestOf(w, token, a, ctx, env.tick))
         case HttpFailed => Exec(ctx, next, false)
         case HttpOk(members) => Exec(ctx + members, next, true))
    case SetContextMapAction =>
      Exec(SetVariables(w.keyOrder(env.tick, None, a.variables.Keys), a.variables, InnerOrder(w, env.tick), ctx),
           env.(tick := env.tick + 1), true)
    case CreateChildWorkflowAction => CreateOne(w, token, a, ctx, env)
    case ActionTypeUnset => Exec(ctx, env, true)
  }

  predicate CreatesChild(a: Action) {
    a.actionType == CreateChildWorkflowAction
  }

  /** How many actions at the front create children. */
  function RunLength(actions: seq<Action>): (n: nat)
    ensures n <= |actions|
    ensures forall i :: 0 <= i < n ==> CreatesChild(actions[i])
    ensures n < |actions| ==> !CreatesChild(actions[n])
  {
    if actions == [] || !CreatesChild(actions[0]) then 0 else 1 + RunLength(actions[1..])
  }

  /** The definitions a run of create-child actions names, if none is missing. */
  function Definitions(run: seq<Action>): (r: Option<seq<Workflow>>)
    ensures r.Some? ==> |r.value| == |run| && forall i :: 0 <= i < |run| ==> run[i].childWorkflow == Some(r.value[i])
  {
    if run == [] then Some([])
    else
      var n := |run| - 1;
      var front := Definitions(run[..n]);
      if front.None? || run[n].childWorkflow.None? then None else Some(front.value + [run[n].childWorkflow.value])
  }

  function Joined(ids: seq<string>): string {
    if ids == [] then ""
    else if |ids| == 1 then ids[0]
    else Joined(ids[..|ids| - 1]) + "," + ids[|ids| - 1]
  }

  function WithChildren(ctx: Context, ids: seq<string>): Context {
    if ids == [] then ctx
    else ctx["childWorkflowId" := ids[|ids| - 1]]["childWorkflowIds" := Joined(ids)]
  }

  /** One run of create-child actions, as a batch. */
  function CreateRun(w: World, token: string, run: seq<Action>, ctx: Context, env: Env): Exec {
    match Definitions(run)
    case None => Exec(ctx, env, false)
    case Some(defs) =>
      var b := CreateBatch(w, token, defs, "", env);
      if b.ok then Exec(WithChildren(ctx, b.ids), b.env, true) else Exec(ctx, b.env, false)
  }

  /** The first run of create-child actions, or the first action. */
  function ExecuteFront(w: World, token: string, actions: seq<Action>, ctx: Context, env: Env): Exec
    requires actions != []
  {
    var n := RunLength(actions);
    if n > 0 then CreateRun(w, token, actions[..n], ctx, env) else ExecuteOne(w, token, actions[0], ctx, env)
  }

  function AfterFront(actions: seq<Action>): (r: seq<Action>)
    requires actions != []
    ensures |r| < |actions|
  {
    actions[if RunLength(actions) > 0 then RunLength(actions) else 1..]
  }

  function ExecuteActions(w: World, token: string, actions: seq<Action>, ctx: Context, env: Env): Exec
    decreases |actions|
  {
    if actions == [] then Exec(ctx, env, true)
    else
      var e := ExecuteFront(w, token, actions, ctx, env);
      if e.ok then ExecuteActions(w, token, AfterFront(actions), e.ctx, e.env) else e
  }

  lemma OneGrows(w: World, token: string, a: Action, ctx: Context, env: Env)
    ensures
      var next := ExecuteOne(w, token, a, ctx, env).env;
      Grows(token, env, next) && AdHoc(env, next)
  {
    hide CreateChild, SetVariables, RequestOf, Grows, AdHoc;
    GrowsSelf(token, env);
    AdHocSelf(env);
    TickGrows(token, env);
    if a.childWorkflow.Some? {
      CreateChildGrows(w, token, a.childWorkflow.value, "", env);
      AdHocChild(w, token, a.childWorkflow.value, env);
    }
  }

  lemma RunGrows(w: World, token: string, run: seq<Action>, ctx: Context, env: Env)
    ensures
      var next := CreateRun(w, token, run, ctx, env).env;
      Grows(token, env, next) && AdHoc(env, next)
  {
    hide Definitions, CreateBatch;
    if Definitions(run).Some? {
      CreateBatchGrows(w, token, Definitions(run).value, "", env);
      AdHocBatch(w, token, Definitions(run).value, env);
    }
  }

  lemma ExecuteFrontGrows(w: World, token: string, actions: seq<Action>, ctx: Context, env: Env)
    requires actions != []
    ensures
      var next := ExecuteFront(w, token, actions, ctx, env).env;
      Grows(token, env, next) && AdHoc(env, next)
  {
    hide CreateRun, ExecuteOne, Grows, AdHoc, RunLength;
    RunGrows(w, token, actions[..RunLength(actions)], ctx, env);
    OneGrows(w, token, actions[0], ctx, env);
  }

  lemma {:induction false} ExecuteActionsGrows(w: World, token: string, actions: seq<Action>, ctx: Context, env: Env)
    ensures
      var next := ExecuteActions(w, token, actions, ctx, env).env;
      Grows(token, env, next) && AdHoc(env, next)
    decreases |actions|
  {
    if actions != [] {
      ExecuteFrontGrows(w, token, actions, ctx, env);
      var e := ExecuteFront(w, token, actions, ctx, env);
      if e.ok {
        ExecuteActionsGrows(w, token, AfterFront(actions), e.ctx, e.env);
        GrowsTrans(token, env, e.env, ExecuteActions(w, token, actions, ctx, env).env);
        AdHocTrans(token, env, e.env, ExecuteActions(w, token, actions, ctx, env).env);
      }
    }
  }

  lemma RunStarts(actions: seq<Action>, i: nat)
    requires i < |actions|
    ensures Definitions(actions[i..i]) == Some([])
  {}

  /** One more create-child action. */
  lemma RunStep(actions: seq<Action>, i: nat, j: nat)
    requires i <= j < |actions| && CreatesChild(actions[j])
    ensures RunLength(actions[j..]) == 1 + RunLength(actions[j + 1..])
    ensures Definitions(actions[i..j]).Some? && actions[j].childWorkflow.Some? ==>
      Definitions(actions[i..j + 1]) == Some(Definitions(actions[i..j]).value + [actions[j].childWorkflow.value])
  {
    assert actions[j..][1..] == actions[j + 1..] && actions[j..][0] == actions[j];
    var run := actions[i..j + 1];
    assert run[..|run| - 1] == actions[i..j] && run[|run| - 1] == actions[j];
  }

  method RunDefinitions(actions: seq<Action>, i: nat) returns (j: nat, defs: Option<seq<Workflow>>)
    requires i < |actions| && CreatesChild(actions[i])
    ensures j == i + RunLength(actions[i..])
    ensures defs == Definitions(actions[i..j])
  {
    j := i;
    var found: seq<Workflow> := [];
    hide RunLength, Definitions;
    RunStarts(actions, i);
    while j < |actions| && CreatesChild(actions[j])
      invariant i <= j <= |actions|
      invariant RunLength(actions[i..]) == j - i + RunLength(actions[j..])
      invariant Definitions(actions[i..j]) == Some(found)
    {
      RunStep(actions, i, j);
      if actions[j].childWorkflow.None? {
        j := i + RunLength(actions[i..]);
        MissingDefinition(actions[i..j], |found|);
        return j, None;
      }
      found := found + [actions[j].childWorkflow.value];
      j := j + 1;
    }
    defs := Some(found);
  }

  lemma {:induction false} MissingDefinition(run: seq<Action>, i: nat)
    requires i < |run| && run[i].childWorkflow.None?
    ensures Definitions(run).None?
  {
    if i < |run| - 1 { MissingDefinition(run[..|run| - 1], i); }
  }

  /** model.ExecuteActions: the index `i` walks the list, and `j` runs ahead over
      consecutive create-child actions so that they become one batch. */
  method Execute(w: World, db: Database, token: string, actions: seq<Action>, ctx: Context) returns (r: Context, ok: bool)
    modifies db
    ensures Exec(r, db.State(), ok) == ExecuteActions(w, token, actions, ctx, old(db.State()))
  {
    hide RunLength, Definitions, CreateBatch, ExecuteOne, WithChildren;
    r := ctx;
    var i := 0;
    while i < |actions|
      invariant i <= |actions|
      invariant ExecuteActions(w, token, actions[i..], r, db.State()) == ExecuteActions(w, token, actions, ctx, old(db.State()))
    {
      assert actions[i..][0] == actions[i];
      if CreatesChild(actions[i]) {
        var j, defs := RunDefinitions(actions, i);
        assert actions[i..][..j - i] == actions[i..j] && actions[i..][j - i..] == actions[j..];
        if defs.None? {
          return r, false;
        }
        var ids := db.CreateChildWorkflowInstancesBatchWithGeneration(w, token, defs.value, "");
        if ids.None? {
          return r, false;
        }
        r := WithChildren(r, ids.value);
        i := j;
      } else {
        assert actions[i..][1..] == actions[i + 1..];
        var done: bool;
        r, done := ExecuteAction(w, db, token, actions[i], r);
        if !done {
          return r, false;
        }
        i := i + 1;
      }
    }
    ok := true;
  }

  method ExecuteAction(w: World, db: Database, token: string, a: Action, ctx: Context) returns (r: Context, ok: bool)
    modifies db
    ensures Exec(r, db.State(), ok) == ExecuteOne(w, token, a, ctx, old(db.State()))
  {
    r, ok := ctx, true;
    if a.actionType == HttpRequestAction && a.expectResponse {
      var reply := w.http(db.tick, RequestOf(w, token, a, ctx, db.tick));
      db.tick := db.tick + 1;
      if reply.HttpFailed? {
        ok := false;
      } else {
        r := ctx + reply.members;
      }
    } else if a.actionType == SetContextMapAction {
      r := ExecuteSetContextMapAction(w.keyOrder(db.tick, None, a.variables.Keys), a.variables, InnerOrder(w, db.tick), ctx);
      db.tick := db.tick + 1;
    } else if a.actionType == CreateChildWorkflowAction {
      if a.childWorkflow.None? {
        return ctx, false;
      }
      var id := db.CreateChildWorkflowInstance(w, token, a.childWorkflow.value, "");
      if id.None? {
        return ctx, false;
      }
      r := ctx["childWorkflowId" := id.value];
    }
  }
}
