/** The dispatcher with the engine in it: what its actors run is processEvent, and
    the instances are those of the table. */
module EngineDispatch {
  import opened Model
  import opened Persistence
  import opened Lookup
  import opened Children
  import opened Actions
  import opened Transitions
  import opened WorkflowOps
  import opened RunInvariants
  import opened AutomaticChain
  import Forest
  import D = Dispatcher
  import O = DispatcherOrder
  import Drain = DispatcherDrain

  // ---- processEvent as the step of an actor -------------------------------

  /** Processing the event in some table that holds the row may leave the instance in
      `t`: the other rows and the outside world are not the actor's to choose. */
  ghost predicate EngineStep(w: World, id: string, r: Row, event: string, t: Row) {
    exists env: Env :: Leads(w, id, r, event, t, env)
  }

  ghost predicate Leads(w: World, id: string, r: Row, event: string, t: Row, env: Env) {
    && id in env.store && env.store[id] == r
    && id in ProcessEvent(w, id, event, env).env.store
    && ProcessEvent(w, id, event, env).env.store[id] == t
  }

  function ParentIn(store: map<string, Row>): string -> Option<string> {
    (id: string) => if id in store then store[id].parentId else None
  }

  /** A dispatcher whose commands are processed by the engine. */
  ghost predicate RunsEngine(w: World, p: D.Params<Row>) {
    && p.queue >= 1 && p.workers >= 1
    && (forall id, r, event, t :: p.step(id, r, event, t) <==> EngineStep(w, id, r, event, t))
    && (forall r :: p.complete(r) == r.complete)
  }

  /** Whatever an event does to its instance's row is a step, a refusal included, and
      a commit notifies whom the dispatcher notifies. */
  lemma EventIsStep(w: World, id: string, event: string, env: Env)
    requires id in env.store
    ensures
      var o := ProcessEvent(w, id, event, env);
      && id in o.env.store
      && EngineStep(w, id, env.store[id], event, o.env.store[id])
      && (o.Refused? ==> o.env.store[id] == env.store[id])
      && (o.Committed? ==>
            o.notify == if !env.store[id].complete && o.env.store[id].complete then env.store[id].parentId else None)
  {
    hide StepAndChain, FindCandidateTransition, AllChildrenComplete, IsNewChild;
    var o := ProcessEvent(w, id, event, env);
    if Live(env.store, id) {
      var row := env.store[id];
      var t := FindCandidateTransition(w, row.def, row.current, event, row.contextMap);
      if t.Some? {
        StepAndChainGrows(w, id, t.value, Begin(row, env));
        if StepAndChain(w, id, t.value, Begin(row, env)).Done? { StepKeepsIdentity(w, id, t.value, Begin(row, env)); }
      }
    }
    assert Leads(w, id, env.store[id], event, o.env.store[id], env);
  }

  lemma EngineWorks(w: World, p: D.Params<Row>)
    requires RunsEngine(w, p)
    ensures Drain.Works(p)
  {
    forall id, r, event ensures Drain.HasOutcome(p, id, r, event) {
      var env := Env(0, map[id := r], map[]);
      EventIsStep(w, id, event, env);
      assert p.step(id, r, event, ProcessEvent(w, id, event, env).env.store[id]);
    }
  }

  // ---- Draining the engine ------------------------------------------------

  /** The instances known to the dispatcher are those of the table after `ops`. */
  ghost predicate ServesTable<S>(w: World, ops: seq<Op>, p: D.Params<S>) {
    forall id :: p.parent(id) == ParentIn(After(w, ops).env.store)(id)
  }

  function DepthIn(d: map<string, nat>): string -> nat {
    (id: string) => if id in d then d[id] else 0
  }

  lemma TableIsForest<S(!new)>(w: World, ops: seq<Op>, p: D.Params<S>) returns (depth: string -> nat)
    requires ServesTable(w, ops, p)
    ensures Drain.IsForest(p, depth)
  {
    hide After;
    var d := Forest.ParentForest(w, ops);
    depth := DepthIn(d);
    forall id | p.parent(id).Some? ensures depth(p.parent(id).value) < depth(id) {
      assert p.parent(id) == ParentIn(After(w, ops).env.store)(id);
    }
  }

  /** Main result: the drain of a dispatcher that serves the instances of the table
      ends. From any point of any run there is a bound that no continuation without
      arrivals from outside can exceed. Nothing is assumed of the instances: the
      parents of any table the engine can build form a forest. */
  lemma DrainEnds<S(!new)>(w: World, ops: seq<Op>, p: D.Params<S>, ls: seq<D.Label<S>>, states: seq<D.State<S>>, k: nat) returns (bound: nat)
    requires ServesTable(w, ops, p)
    requires O.IsRun(p, ls, states) && states[0] == O.Empty() && k < |states|
    ensures forall more, then_ :: GoesOn(p, states[k], more, then_) ==> |more| <= bound
  {
    hide ServesTable, Drain.Measure, O.IsRun, O.Inv, Drain.IsForest;
    var depth := TableIsForest(w, ops, p);
    O.RunInv(p, ls, states, k);
    Drain.MeasureNonNegative(p, depth, states[k]);
    bound := Drain.Measure(p, depth, states[k]);
    forall more, then_ | GoesOn(p, states[k], more, then_) ensures |more| <= bound {
      Drain.DrainTerminates(p, depth, more, then_, |more|);
    }
  }

  /** A run from `s` to which nothing from outside contributes. */
  ghost predicate GoesOn<S>(p: D.Params<S>, s: D.State<S>, ls: seq<D.Label<S>>, states: seq<D.State<S>>) {
    && |states| == |ls| + 1 && states[0] == s && O.IsRun(p, ls, states)
    && forall i :: 0 <= i < |ls| ==> Drain.Internal(ls[i])
  }

  /** And where it ends, it has drained: all commands resolved, all jobs finished, all
      actors gone, the shutdown returned. */
  lemma DrainCompletes(w: World, p: D.Params<Row>, ls: seq<D.Label<Row>>, states: seq<D.State<Row>>, n: nat)
    requires RunsEngine(w, p) && O.IsRun(p, ls, states) && states[0] == O.Empty() && n < |states|
    requires !Drain.CanStep(p, states[n])
    ensures
      var s := states[n];
      && Drain.Quiet(s) && s.inflight == 0 && s.unfinished == 0 && s.phase.Stopped?
      && (forall a :: 0 <= a < |s.actors| ==> s.actors[a].pc.Gone?)
  {
    hide RunsEngine, O.IsRun, Drain.Quiet, Drain.CanStep;
    EngineWorks(w, p);
    Drain.MaximalRunStops(p, ls, states, n);
  }

  // ---- Rows under the dispatcher ------------------------------------------

  /** What one event keeps of a row. */
  ghost predicate StillSound(w: World, r: Row, t: Row) {
    && (PlaceFits(r) ==> PlaceFits(t))
    && t.def == r.def && t.parentId == r.parentId && t.forkGeneration == r.forkGeneration
    && (t == r || (Settled(w, t) && t.version == r.version + 1 && t.complete == IsEndState(t.def, t.current)))
  }

  lemma {:induction false} ChainKeepsPlace(w: World, id: string, r: Run, hop: nat)
    requires hop <= MAX_AUTOMATIC_HOPS && Chain(w, id, r, hop).Done?
    ensures
      var x := Chain(w, id, r, hop).run;
      (PlaceFits(r.row) ==> PlaceFits(x.row)) && FindAutomaticTransition(w, x.row.def, x.row.current, x.ctx).None?
    decreases MAX_AUTOMATIC_HOPS - hop
  {
    hide PlaceFits, Apply, FindAutomaticTransition;
    var t := FindAutomaticTransition(w, r.row.def, r.row.current, r.ctx);
    if t.Some? {
      var s := Apply(w, id, t.value, r);
      if PlaceFits(r.row) { ApplyPlace(w, id, t.value, r); }
      ChainKeepsPlace(w, id, s.run, hop + 1);
    }
  }

  lemma CommitSound(w: World, id: string, row: Row, t: Transition, env: Env)
    requires StepAndChain(w, id, t, Begin(row, env)).Done?
    ensures StillSound(w, row, Saved(StepAndChain(w, id, t, Begin(row, env)).run))
  {
    hide PlaceFits, Apply, Chain, FindAutomaticTransition, IsEndState;
    var r := Begin(row, env);
    var mid := Apply(w, id, t, r).run;
    StepKeepsIdentity(w, id, t, r);
    if PlaceFits(row) { ApplyPlace(w, id, t, r); }
    ChainKeepsPlace(w, id, mid, 0);
    SavedPlace(Chain(w, id, mid, 0).run);
  }

  lemma SavedPlace(r: Run)
    ensures PlaceFits(Saved(r)) == PlaceFits(r.row)
  {
    hide Positioned, HistoryFits;
  }

  lemma StepSound(w: World, id: string, r: Row, event: string, t: Row)
    requires EngineStep(w, id, r, event, t)
    ensures StillSound(w, r, t)
  {
    hide PlaceFits, StepAndChain, FindCandidateTransition, AllChildrenComplete, Settled, IsEndState;
    var env: Env :| Leads(w, id, r, event, t, env);
    EventIsStep(w, id, event, env);
    if ProcessEvent(w, id, event, env).Committed? {
      var tr := FindCandidateTransition(w, r.def, r.current, event, r.contextMap).value;
      CommitSound(w, id, r, tr, env);
    }
  }

  lemma {:induction false} OutcomesSound(w: World, p: D.Params<Row>, id: string, log: seq<D.Command>, outs: seq<Row>, n: nat)
    requires RunsEngine(w, p) && O.Follows(p, id, log, outs) && n <= |outs|
    ensures
      var first, last := p.init(id), O.Before(p, id, outs, n);
      && (PlaceFits(first) ==> PlaceFits(last)) && last.def == first.def && last.parentId == first.parentId
      && last.forkGeneration == first.forkGeneration
      && first.version <= last.version <= first.version + n
      && (last == first || (Settled(w, last) && last.complete == IsEndState(last.def, last.current)))
  {
    hide PlaceFits, EngineStep, Settled, IsEndState;
    if n > 0 {
      OutcomesSound(w, p, id, log, outs, n - 1);
      assert p.step(id, O.Before(p, id, outs, n - 1), log[n - 1].event, outs[n - 1]);
      StepSound(w, id, O.Before(p, id, outs, n - 1), log[n - 1].event, outs[n - 1]);
    }
  }

  /** Main result: whatever the interleaving, and however many actors have come and
      gone, the row of an instance is sound: its position is well formed, its
      definition, parent and generation are those it was created with, its version
      counts no more events than were served, and if any event has changed it, it is
      settled and `Complete` is right. */
  lemma ServedRowsSound(w: World, p: D.Params<Row>, ls: seq<D.Label<Row>>, states: seq<D.State<Row>>, n: nat, id: string)
    requires RunsEngine(w, p) && O.IsRun(p, ls, states) && states[0] == O.Empty() && n < |states|
    ensures
      var s := states[n];
      var first, row := p.init(id), D.RowOf(p, s, id);
      && (PlaceFits(first) ==> PlaceFits(row))
      && row.def == first.def && row.parentId == first.parentId && row.forkGeneration == first.forkGeneration
      && first.version <= row.version <= first.version + |D.Logged(s.served, id)|
      && (row == first || (Settled(w, row) && row.complete == IsEndState(row.def, row.current)))
  {
    hide RunsEngine, O.IsRun, PlaceFits, Settled, IsEndState, D.RowOf, D.Logged;
    O.NoLostUpdate(p, ls, states, n, id);
    var outs := D.Outcomes(states[n], id);
    OutcomesSound(w, p, id, D.Logged(states[n].served, id), outs, |outs|);
  }
}
