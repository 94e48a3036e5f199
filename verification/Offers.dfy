/** The promise of possibleEventsFor (engine/workflow_ops.go:236-275): that it lists
    every event that would succeed if sent now. What an offered event can meet, when
    it is sure to succeed, and which events succeed without being offered. */
module Offers {
  import opened Model
  import opened Persistence
  import opened Lookup
  import opened Children
  import opened Actions
  import opened Transitions
  import opened WorkflowOps
  import opened RunInvariants
  import opened AutomaticChain

  // ---- What an offered event can meet -------------------------------------

  ghost predicate IsOffered(w: World, row: Row, event: string) {
    event in PossibleEvents(w, row.def, row.current, row.contextMap)
  }

  function Chosen(w: World, row: Row, event: string): Option<Transition> {
    FindCandidateTransition(w, row.def, row.current, event, row.contextMap)
  }

  /** The join gate, for the transition the event would take. */
  ghost predicate GatePasses(w: World, id: string, event: string, env: Env)
    requires id in env.store
  {
    var row := env.store[id];
    Chosen(w, row, event).Some? && (Chosen(w, row, event).value.kind == JoinKind || Chosen(w, row, event).value.join) ==>
      AllChildrenComplete(env.store, id, row.pendingForkGeneration)
  }

  /** An offered event always finds a transition; it is turned away at the gate exactly
      when that transition is a join and some child in its scope is incomplete. */
  lemma OfferedOutcome(w: World, id: string, event: string, env: Env)
    requires Live(env.store, id) && IsOffered(w, env.store[id], event)
    ensures Chosen(w, env.store[id], event).Some?
    ensures
      var o := ProcessEvent(w, id, event, env);
      && (o.Refused? ==> o.why != NotFound && o.why != NoTransition)
      && (o.Refused? && o.why == ChildrenNotComplete <==> !GatePasses(w, id, event, env))
  {
    hide StepAndChain, FindCandidateTransition, AllChildrenComplete, PossibleEvents;
    var row := env.store[id];
    PossibleEventsExact(w, row.def, row.current, event, row.contextMap);
  }

  // ---- Definitions that cannot fail ---------------------------------------

  /** No child is created and no reply waited for. */
  predicate Harmless(actions: seq<Action>) {
    forall a :: a in actions ==> !CreatesChild(a) && !(a.actionType == HttpRequestAction && a.expectResponse)
  }

  predicate HarmlessState(s: State) {
    Harmless(s.OnEntry()) && Harmless(s.OnExit())
  }

  /** The target is a state of the definition, and a composite has its initial
      substate. */
  predicate Enterable(def: Workflow, target: string) {
    var s := FindState(def.states, target);
    s.Some? && (s.value.CompositeState? ==> s.value.FindSubstate(s.value.initialSubstate).Some?)
  }

  predicate SafeTransition(def: Workflow, t: Transition, inside: Option<State>) {
    && Harmless(t.entryActions) && t.kind != ForkKind
    && (t.kind == InternalKind || Enterable(def, t.target)
        || (inside.Some? && inside.value.CompositeState? && inside.value.FindSubstate(t.target).Some?))
  }

  /** Every target can be entered, nothing forks, creates a child or waits for a
      reply. */
  ghost predicate Safe(def: Workflow) {
    && (forall t :: t in def.transitions ==> SafeTransition(def, t, None))
    && (forall ct :: ct in def.commonTransitions ==> SafeTransition(def, Synthesize(ct, ""), None))
    && (forall s :: s in def.states ==> HarmlessState(s))
    && (forall s, x :: s in def.states && s.CompositeState? && x in s.substates ==> HarmlessState(x))
    && (forall s, t :: s in def.states && s.CompositeState? && t in s.subTransitions ==> SafeTransition(def, t, Some(s)))
  }

  lemma {:induction false} HarmlessRuns(w: World, id: string, actions: seq<Action>, ctx: Context, env: Env)
    requires Harmless(actions)
    ensures ExecuteActions(w, id, actions, ctx, env).ok
    decreases |actions|
  {
    if actions != [] {
      assert actions[0] in actions;
      var e := ExecuteFront(w, id, actions, ctx, env);
      HarmlessRuns(w, id, actions[1..], e.ctx, e.env);
    }
  }

  ghost predicate HarmlessPhases(phases: seq<Phase>) {
    forall p :: p in phases ==> Harmless(p.Actions())
  }

  lemma {:induction false} HarmlessPhasesRun(w: World, id: string, phases: seq<Phase>, ctx: Context, env: Env)
    requires HarmlessPhases(phases)
    ensures RunPhases(w, id, phases, ctx, env).ok
  {
    hide ExecuteActions, Harmless;
    if phases != [] {
      assert phases[0] in phases;
      HarmlessRuns(w, id, phases[0].Actions(), ctx, env);
      var e := ExecuteActions(w, id, phases[0].Actions(), ctx, env);
      HarmlessPhasesRun(w, id, phases[1..], e.ctx, e.env);
    }
  }

  lemma SafePosition(def: Workflow, at: StateContainer)
    requires Safe(def) && Positioned(def, at)
    ensures HarmlessState(at.state) && (at.substate.Some? ==> HarmlessState(at.substate.value))
  {
    hide SafeTransition, HarmlessState;
  }

  lemma PositionPhases(def: Workflow, at: StateContainer, t: Transition, local: bool)
    requires Safe(def) && Positioned(def, at)
    ensures HarmlessPhases(Leaving(at, t)) && HarmlessPhases(Arriving(local, at))
  {
    hide Safe, Positioned, Harmless, IsLocal;
    SafePosition(def, at);
  }

  /** The composite the instance is in. */
  function Around(at: StateContainer): Option<State> {
    if at.state.CompositeState? then Some(at.state) else None
  }

  lemma CandidateSafe(def: Workflow, at: StateContainer, t: Transition)
    requires Safe(def) && Positioned(def, at) && t in Candidates(def, at)
    ensures SafeTransition(def, t, Around(at))
  {
    hide Harmless, Enterable, HarmlessState;
    CandidateAuthored(def, at, t);
    if t in def.transitions {
    } else if InComposite(def, t, at.state.Id(), at.SubstateId()) {
      assert at.state in def.states;
    } else {
      var ct :| ct in def.commonTransitions && at.state.Id() in ct.sourceList && t == Synthesize(ct, at.state.Id());
      assert SafeTransition(def, Synthesize(ct, ""), None);
    }
  }

  lemma SafeDestination(def: Workflow, at: StateContainer, t: Transition, history: map<string, string>)
    requires Positioned(def, at) && HistoryFits(def, history) && SafeTransition(def, t, Around(at)) && t.kind != InternalKind
    ensures Destination(def, at, t, history).Some?
  {
    hide Harmless;
  }

  lemma SafeMove(w: World, id: string, t: Transition, r: Run)
    requires PlaceFits(r.row) && Safe(r.row.def) && SafeTransition(r.row.def, t, Around(r.row.current)) && t.kind != InternalKind
    ensures ApplyMove(w, id, t, r).Done?
  {
    hide Safe, RunPhases, ExecuteActions, Destination, Leaving, Arriving, IsLocal, Remember, Positioned, HistoryFits, Enterable, HarmlessPhases;
    var at := r.row.current;
    PositionPhases(r.row.def, at, t, false);
    HarmlessPhasesRun(w, id, Leaving(at, t), r.ctx, r.env);
    RememberFits(r.row.def, at, t, r.row.compositeHistory);
    SafeDestination(r.row.def, at, t, Remember(at, t, r.row.compositeHistory));
    var (env, h) := Depart(w, id, t, r);
    DestinationPositioned(r.row.def, at, t, Remember(at, t, r.row.compositeHistory));
    PositionPhases(r.row.def, h.value.dest, t, IsLocal(at, t));
    var phases := Arriving(IsLocal(at, t), h.value.dest);
    HarmlessPhasesRun(w, id, phases, h.value.ctx, env);
    var e := RunPhases(w, id, phases, h.value.ctx, env);
    HarmlessRuns(w, id, t.entryActions, e.ctx, e.env);
  }

  lemma SafeApply(w: World, id: string, t: Transition, r: Run)
    requires PlaceFits(r.row) && Safe(r.row.def) && t in Candidates(r.row.def, r.row.current)
    ensures Apply(w, id, t, r).Done?
  {
    hide Safe, ApplyMove, ExecuteActions, Candidates, Positioned, HistoryFits, Enterable;
    CandidateSafe(r.row.def, r.row.current, t);
    if t.kind == InternalKind {
      HarmlessRuns(w, id, t.entryActions, r.ctx, r.env);
    } else {
      SafeMove(w, id, t, r);
    }
  }

  lemma SafeHops(w: World, id: string, r: Run, n: nat)
    requires PlaceFits(r.row) && Safe(r.row.def)
    ensures !FailsAt(w, id, r, n)
  {
    hide Safe, PlaceFits, Apply, Hops, Candidates, FindAutomaticTransition;
    if Hops(w, id, r, n).Some? && NextHop(w, Hops(w, id, r, n).value).Some? {
      var x := Hops(w, id, r, n).value;
      HopsPlace(w, id, r, n);
      AutomaticIsCandidate(w, x.row.def, x.row.current, x.ctx);
      SafeApply(w, id, NextHop(w, x).value, x);
    }
  }

  // ---- When the promise holds ---------------------------------------------

  ghost predicate Saves(w: World) { forall n :: w.saveOk(n) }

  /** The row once the event's own transition has been applied. */
  function AfterStep(w: World, id: string, event: string, env: Env): Step
    requires id in env.store && Chosen(w, env.store[id], event).Some?
  {
    Apply(w, id, Chosen(w, env.store[id], event).value, Begin(env.store[id], env))
  }

  /** In a safe definition an offered event succeeds exactly when the gate lets it pass
      and the automatic hops after it settle within their limit. */
  lemma OfferedCommits(w: World, id: string, event: string, env: Env)
    requires Live(env.store, id) && PlaceFits(env.store[id]) && Safe(env.store[id].def) && Saves(w)
    requires IsOffered(w, env.store[id], event)
    ensures Chosen(w, env.store[id], event).Some? && AfterStep(w, id, event, env).Done?
    ensures ProcessEvent(w, id, event, env).Committed? <==>
      && GatePasses(w, id, event, env)
      && exists n :: 0 <= n < MAX_AUTOMATIC_HOPS && SettlesAt(w, id, AfterStep(w, id, event, env).run, n)
  {
    hide Safe, PlaceFits, Apply, Chain, FindCandidateTransition, AllChildrenComplete, PossibleEvents, SettlesAt, IsEndState;
    var row := env.store[id];
    OfferedOutcome(w, id, event, env);
    var t := Chosen(w, row, event).value;
    CandidateIsFirst(w, row.def, row.current, event, row.contextMap);
    SafeApply(w, id, t, Begin(row, env));
    ChainExact(w, id, Apply(w, id, t, Begin(row, env)).run);
  }

  /** Main result: in every run, the promise holds of a safe definition without
      automatic cycles, up to the gate: an offered event succeeds exactly when it is
      not a join, or its children are complete. */
  lemma PromiseUpToGate(w: World, ops: seq<Op>, id: string, event: string, rank: StateContainer -> nat)
    requires Live(After(w, ops).env.store, id) && Saves(w)
    requires
      var row := After(w, ops).env.store[id];
      && Safe(row.def) && Acyclic(row.def, rank) && |Positions(row.def)| <= MAX_AUTOMATIC_HOPS && IsOffered(w, row, event)
    ensures
      var env := After(w, ops).env;
      ProcessEvent(w, id, event, env).Committed? <==> GatePasses(w, id, event, env)
  {
    hide After, Safe, PlaceFits, Apply, Chain, Acyclic, Positions, FindCandidateTransition, SettlesAt, GatePasses, ProcessEvent, PossibleEvents,
      TraceFits, JourneyFits, JourneyAuthored;
    var env := After(w, ops).env;
    var row := env.store[id];
    RowAfter(w, ops, id);
    OfferedCommits(w, id, event, env);
    var t, r := Chosen(w, row, event).value, Begin(row, env);
    ApplyPlace(w, id, t, r);
    var x := AfterStep(w, id, event, env).run;
    AcyclicSettles(w, id, x, rank);
    forall n: nat ensures !FailsAt(w, id, x, n) { SafeHops(w, id, x, n); }
    ChainExact(w, id, x);
  }

  // ---- Events that succeed without being offered --------------------------

  /** Only the events of AUTOMATIC transitions can be taken without being offered; from
      a settled row, only those of delayed ones, which is how timers fire, and of
      AUTOMATIC common transitions, which never fire by themselves. */
  lemma UnofferedIsAutomatic(w: World, row: Row, event: string)
    requires Chosen(w, row, event).Some? && !IsOffered(w, row, event)
    ensures
      var t := Chosen(w, row, event).value;
      && t.trigger == AutomaticTrigger
      && (Settled(w, row) ==> t.after != "" || t !in ScopedCandidates(row.def, row.current))
  {
    hide FindCandidateTransition, PossibleEvents, Candidates, Enabled, FindAutomaticTransition, ScopedCandidates;
    PossibleEventsExact(w, row.def, row.current, event, row.contextMap);
    CandidateIsFirst(w, row.def, row.current, event, row.contextMap);
    var t := Chosen(w, row, event).value;
    assert Fires(w, event, row.contextMap)(t);
    AutomaticIsFirst(w, row.def, row.current, row.contextMap);
  }
}
