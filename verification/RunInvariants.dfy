/** What holds of every stored row after any sequence of operations: the
    position is well formed, the journey and the trace of entries and exits
    replay to it, the composite history is what the trace says, and a committed
    row is settled. */
module RunInvariants {
  import opened Model
  import opened Persistence
  import opened Lookup
  import opened Children
  import opened Actions
  import opened Transitions
  import opened WorkflowOps

  // ---- Position -----------------------------------------------------------

  /** The top-level state is the definition's state of that id, and there is a
      substate exactly inside a composite, which it belongs to. */
  ghost predicate Positioned(def: Workflow, at: StateContainer) {
    && FindState(def.states, at.state.Id()) == Some(at.state)
    && (at.substate.Some? <==> at.state.CompositeState?)
    && (at.substate.Some? ==> at.state.FindSubstate(at.substate.value.Id()) == at.substate)
  }

  /** Every remembered substate is a substate of its composite. */
  ghost predicate HistoryFits(def: Workflow, history: map<string, string>) {
    forall c :: c in history ==>
      var s := FindState(def.states, c);
      s.Some? && s.value.CompositeState? && s.value.FindSubstate(history[c]).Some?
  }

  lemma FirstIsFound(states: seq<State>)
    requires states != []
    ensures FindState(states, states[0].Id()) == Some(states[0])
  {}

  lemma InitialPositioned(def: Workflow)
    requires def.states != [] && InitialPosition(def.states[0]).Some?
    ensures Positioned(def, InitialPosition(def.states[0]).value)
  {
    FirstIsFound(def.states);
    var s := def.states[0];
    if s.CompositeState? { FoundAgain(s.substates, s.initialSubstate); }
  }

  /** What is found by an id is found by its own id. */
  lemma FoundAgain(states: seq<State>, id: string)
    ensures FindState(states, id).Some? ==> FindState(states, FindState(states, id).value.Id()) == FindState(states, id)
  {}

  lemma RememberFits(def: Workflow, at: StateContainer, t: Transition, history: map<string, string>)
    requires Positioned(def, at) && HistoryFits(def, history)
    ensures HistoryFits(def, Remember(at, t, history))
  {}

  lemma ResolvedPositioned(def: Workflow, t: Transition, history: map<string, string>)
    requires ResolveTarget(def, t, history).Some?
    ensures
      var dest := ResolveTarget(def, t, history).value;
      Positioned(def, dest) && dest.state.Id() == t.target
  {
    FoundAgain(def.states, t.target);
    var s := FindState(def.states, t.target).value;
    if s.CompositeState? { FoundAgain(s.substates, EntrySubstate(s, t.entersHistory, history)); }
  }

  /** Wherever a transition leads from a well-formed position, the new position
      is well formed too, and is the one the transition names. */
  lemma DestinationPositioned(def: Workflow, at: StateContainer, t: Transition, history: map<string, string>)
    requires Positioned(def, at)
    requires Destination(def, at, t, history).Some?
    ensures
      var dest := Destination(def, at, t, history).value;
      Positioned(def, dest) && (t.target == dest.state.Id() || t.target == dest.SubstateId())
    ensures IsLocal(at, t) ==> Destination(def, at, t, history).value.state == at.state
  {
    if IsLocal(at, t) { FoundAgain(at.state.substates, t.target); }
    else { ResolvedPositioned(def, t, history); }
  }

  // ---- The trace of entries and exits -------------------------------------

  /** What the instance is inside of. */
  datatype Config = Outside | Inside(top: State, sub: Option<State>)

  /** A composite is entered before and exited after its substates; anything
      else breaks the trace. */
  function ReplayStep(c: Option<Config>, p: Phase): Option<Config> {
    match c
    case None => None
    case Some(Outside) => if p.EnterTop? then Some(Inside(p.s, None)) else None
    case Some(Inside(top, sub)) =>
      match p
      case ExitSub(s) => if sub == Some(s) then Some(Inside(top, None)) else None
      case ExitTop(s) => if sub == None && top == s then Some(Outside) else None
      case EnterTop(_) => None
      case EnterSub(s) => if sub == None && top.CompositeState? && s in top.substates then Some(Inside(top, Some(s))) else None
  }

  function Replay(c: Option<Config>, trace: seq<Phase>): Option<Config> {
    if trace == [] then c
    else ReplayStep(Replay(c, trace[..|trace| - 1]), trace[|trace| - 1])
  }

  function ConfigOf(at: StateContainer): Option<Config> {
    Some(Inside(at.state, at.substate))
  }

  lemma {:induction false} ReplayAppend(c: Option<Config>, a: seq<Phase>, b: seq<Phase>)
    ensures Replay(c, a + b) == Replay(Replay(c, a), b)
  {
    if b == [] {
      assert a + b == a;
    } else {
      var n := |b| - 1;
      ReplayAppend(c, a, b[..n]);
      assert (a + b)[..|a + b| - 1] == a + b[..n];
    }
  }

  lemma ReplayLeaving(at: StateContainer, t: Transition)
    ensures Replay(ConfigOf(at), Leaving(at, t)) == Some(if IsLocal(at, t) then Inside(at.state, None) else Outside)
  {
    ReplayShort(ConfigOf(at), Leaving(at, t));
  }

  lemma ReplayArriving(def: Workflow, local: bool, dest: StateContainer)
    requires Positioned(def, dest) && (local ==> dest.substate.Some?)
    ensures Replay(Some(if local then Inside(dest.state, None) else Outside), Arriving(local, dest)) == ConfigOf(dest)
  {
    ReplayShort(Some(if local then Inside(dest.state, None) else Outside), Arriving(local, dest));
  }

  lemma ReplayMove(def: Workflow, start: Option<Config>, trace: seq<Phase>, at: StateContainer, t: Transition, dest: StateContainer)
    requires Replay(start, trace) == ConfigOf(at)
    requires Positioned(def, dest) && (IsLocal(at, t) ==> dest.state == at.state && dest.substate.Some?)
    ensures Replay(start, trace + Leaving(at, t) + Arriving(IsLocal(at, t), dest)) == ConfigOf(dest)
  {
    ReplayAppend(start, trace, Leaving(at, t));
    ReplayAppend(start, trace + Leaving(at, t), Arriving(IsLocal(at, t), dest));
    ReplayLeaving(at, t);
    ReplayArriving(def, IsLocal(at, t), dest);
  }

  lemma ReplayShort(c: Option<Config>, p: seq<Phase>)
    requires 1 <= |p| <= 2
    ensures Replay(c, p) == if |p| == 1 then ReplayStep(c, p[0]) else ReplayStep(ReplayStep(c, p[0]), p[1])
  {
    assert p[..0] == [];
    if |p| == 2 {
      assert p[..1][..0] == [] && p[..1][0] == p[0];
      assert Replay(c, p[..1]) == ReplayStep(c, p[0]);
    }
  }

  // ---- The composite history ----------------------------------------------

  /** Per composite, the substate that was active when it was last left. */
  function LastLeft(trace: seq<Phase>): map<string, string> {
    if trace == [] then map[]
    else
      var n := |trace| - 1;
      var h := LastLeft(trace[..n]);
      if n > 0 && trace[n].ExitTop? && trace[n - 1].ExitSub? then h[trace[n].s.Id() := trace[n - 1].s.Id()] else h
  }

  /** Between transitions a trace never ends in an exit. */
  ghost predicate EndsInside(trace: seq<Phase>) {
    trace == [] || trace[|trace| - 1].EnterTop? || trace[|trace| - 1].EnterSub?
  }

  lemma LastLeftSnoc(trace: seq<Phase>, p: Phase)
    ensures LastLeft(trace + [p])
         == if trace != [] && p.ExitTop? && trace[|trace| - 1].ExitSub?
            then LastLeft(trace)[p.s.Id() := trace[|trace| - 1].s.Id()] else LastLeft(trace)
  {
    assert (trace + [p])[..|trace|] == trace;
  }

  lemma LastLeftLeave(trace: seq<Phase>, at: StateContainer, t: Transition)
    requires EndsInside(trace)
    ensures LastLeft(trace + Leaving(at, t)) == Remember(at, t, LastLeft(trace))
  {
    if at.substate.Some? {
      var x, y := ExitSub(at.substate.value), ExitTop(at.state);
      LastLeftSnoc(trace, x);
      if IsLocal(at, t) {
        assert Leaving(at, t) == [x];
      } else {
        LastLeftSnoc(trace + [x], y);
        assert trace + Leaving(at, t) == trace + [x] + [y];
      }
    } else {
      assert Leaving(at, t) == [ExitTop(at.state)];
      LastLeftSnoc(trace, ExitTop(at.state));
    }
  }

  lemma LastLeftArrive(trace: seq<Phase>, local: bool, dest: StateContainer)
    requires local ==> dest.substate.Some?
    ensures LastLeft(trace + Arriving(local, dest)) == LastLeft(trace)
    ensures EndsInside(trace + Arriving(local, dest))
  {
    var a := Arriving(local, dest);
    LastLeftSnoc(trace, a[0]);
    if |a| == 1 {
      assert a == [a[0]];
    } else {
      LastLeftSnoc(trace + [a[0]], a[1]);
      assert trace + a == trace + [a[0]] + [a[1]];
    }
  }

  // ---- The journey --------------------------------------------------------

  /** The entry of `t` continues an entry that ended where it starts, and leads
      where `t` points unless `t` is internal. */
  ghost predicate Continues(prev: JourneyEntry, t: Transition, e: JourneyEntry) {
    && e.fromState == prev.toState && e.fromSubstate == prev.toSubstate
    && e.event == t.event && e.trigger == t.trigger && e.kind == t.kind
    && (t.source == e.fromState || t.source == e.fromSubstate)
    && (t.kind == InternalKind ==> e.toState == e.fromState && e.toSubstate == e.fromSubstate)
    && (t.kind != InternalKind ==> t.target == e.toState || t.target == e.toSubstate)
  }

  /** One entry for the start and one per applied transition, end to end, the
      last one at the current position. */
  ghost predicate JourneyFits(journey: seq<JourneyEntry>, start: StateContainer, at: StateContainer, applied: seq<Transition>) {
    && |journey| == 1 + |applied|
    && journey[0] == InitialEntry(start)
    && (forall i :: 0 <= i < |applied| ==> Continues(journey[i], applied[i], journey[i + 1]))
    && journey[|applied|].toState == at.state.Id()
    && journey[|applied|].toSubstate == at.SubstateId()
  }

  /** Written by the author for leaving a state and substate: at the top level or as a
      common transition from the state, or inside that very composite from the
      substate. */
  ghost predicate Authored(def: Workflow, t: Transition, state: string, substate: string) {
    || (t in def.transitions && t.source == state)
    || InComposite(def, t, state, substate)
    || (t.source == state && exists ct :: ct in def.commonTransitions && state in ct.sourceList && t == Synthesize(ct, state))
  }

  predicate InComposite(def: Workflow, t: Transition, state: string, substate: string) {
    var s := FindState(def.states, state);
    s.Some? && s.value.CompositeState? && t in s.value.subTransitions && t.source == substate
  }

  /** Every step of a journey was authored for leaving where it left. */
  ghost predicate JourneyAuthored(def: Workflow, journey: seq<JourneyEntry>, applied: seq<Transition>) {
    && |journey| == 1 + |applied|
    && forall i :: 0 <= i < |applied| ==> Authored(def, applied[i], journey[i + 1].fromState, journey[i + 1].fromSubstate)
  }

  lemma AuthoredMore(def: Workflow, journey: seq<JourneyEntry>, applied: seq<Transition>, at: StateContainer, t: Transition, to: StateContainer)
    requires JourneyAuthored(def, journey, applied) && Authored(def, t, at.state.Id(), at.SubstateId())
    ensures JourneyAuthored(def, journey + [Entry(t, at, to)], applied + [t])
  {
    hide Authored;
    var j, a := journey + [Entry(t, at, to)], applied + [t];
    forall i | 0 <= i < |a| ensures Authored(def, a[i], j[i + 1].fromState, j[i + 1].fromSubstate) {
      if i < |applied| { assert a[i] == applied[i] && j[i + 1] == journey[i + 1]; }
    }
  }

  lemma CandidateAuthored(def: Workflow, at: StateContainer, t: Transition)
    requires Positioned(def, at) && t in Candidates(def, at)
    ensures Authored(def, t, at.state.Id(), at.SubstateId())
    ensures t.source == at.state.Id() || t.source == at.SubstateId()
  {
    var id := at.state.Id();
    if t in ScopedCandidates(def, at) {
      if at.substate.Some? && t in Filter(at.state.subTransitions, SourceIs(at.substate.value.Id())) {
        assert InComposite(def, t, id, at.SubstateId());
      } else {
        assert t in Filter(def.transitions, SourceIs(id));
      }
    } else {
      var listed := Filter(def.commonTransitions, Listed(id));
      var i :| 0 <= i < |listed| && SynthesizeAll(listed, id)[i] == t;
      assert listed[i] in def.commonTransitions && Listed(id)(listed[i]);
    }
  }

  // ---- One transition -----------------------------------------------------

  ghost predicate Startable(def: Workflow) {
    def.states != [] && InitialPosition(def.states[0]).Some?
  }

  ghost function Start(def: Workflow): StateContainer
    requires Startable(def)
  {
    InitialPosition(def.states[0]).value
  }

  ghost predicate PlaceFits(row: Row) {
    Positioned(row.def, row.current) && HistoryFits(row.def, row.compositeHistory)
  }

  ghost predicate TraceFits(row: Row, trace: seq<Phase>)
    requires Startable(row.def)
  {
    && Replay(ConfigOf(Start(row.def)), trace) == ConfigOf(row.current)
    && row.compositeHistory == LastLeft(trace) && EndsInside(trace)
  }

  /** A row agrees with what has happened to it. */
  ghost predicate Consistent(row: Row, trace: seq<Phase>, applied: seq<Transition>) {
    && Startable(row.def)
    && PlaceFits(row)
    && TraceFits(row, trace)
    && JourneyFits(row.journey, Start(row.def), row.current, applied)
    && JourneyAuthored(row.def, row.journey, applied)
  }

  lemma JourneyExtends(journey: seq<JourneyEntry>, start: StateContainer, at: StateContainer, applied: seq<Transition>, t: Transition, to: StateContainer)
    requires JourneyFits(journey, start, at, applied)
    requires t.source == at.state.Id() || t.source == at.SubstateId()
    requires t.kind == InternalKind ==> to == at
    requires t.kind != InternalKind ==> t.target == to.state.Id() || t.target == to.SubstateId()
    ensures JourneyFits(journey + [Entry(t, at, to)], start, to, applied + [t])
  {
    var j, a := journey + [Entry(t, at, to)], applied + [t];
    forall i | 0 <= i < |a| ensures Continues(j[i], a[i], j[i + 1]) {
      if i < |applied| { assert Continues(journey[i], applied[i], journey[i + 1]); }
    }
  }

  lemma MoveKeepsPlace(row: Row, t: Transition, h: Halfway)
    requires PlaceFits(row)
    requires h.history == Remember(row.current, t, row.compositeHistory)
    requires Destination(row.def, row.current, t, h.history) == Some(h.dest)
    ensures PlaceFits(Moved(row, t, h))
  {
    RememberFits(row.def, row.current, t, row.compositeHistory);
    DestinationPositioned(row.def, row.current, t, h.history);
  }

  lemma MoveKeepsTrace(row: Row, trace: seq<Phase>, t: Transition, h: Halfway)
    requires Startable(row.def) && PlaceFits(row) && TraceFits(row, trace)
    requires h.history == Remember(row.current, t, row.compositeHistory)
    requires Destination(row.def, row.current, t, h.history) == Some(h.dest)
    ensures TraceFits(Moved(row, t, h), trace + Leaving(row.current, t) + Arriving(IsLocal(row.current, t), h.dest))
  {
    var at, local := row.current, IsLocal(row.current, t);
    DestinationPositioned(row.def, at, t, h.history);
    ReplayMove(row.def, ConfigOf(Start(row.def)), trace, at, t, h.dest);
    LastLeftLeave(trace, at, t);
    LastLeftArrive(trace + Leaving(at, t), local, h.dest);
  }

  lemma MoveKeepsJourney(row: Row, applied: seq<Transition>, t: Transition, h: Halfway)
    requires Startable(row.def) && PlaceFits(row) && t in Candidates(row.def, row.current) && t.kind != InternalKind
    requires JourneyFits(row.journey, Start(row.def), row.current, applied) && JourneyAuthored(row.def, row.journey, applied)
    requires Destination(row.def, row.current, t, h.history) == Some(h.dest)
    ensures JourneyFits(Moved(row, t, h).journey, Start(row.def), h.dest, applied + [t])
    ensures JourneyAuthored(row.def, Moved(row, t, h).journey, applied + [t])
  {
    hide Authored, JourneyAuthored;
    CandidateAuthored(row.def, row.current, t);
    AuthoredMore(row.def, row.journey, applied, row.current, t, h.dest);
    DestinationPositioned(row.def, row.current, t, h.history);
    JourneyExtends(row.journey, Start(row.def), row.current, applied, t, h.dest);
  }

  lemma MoveKeepsConsistent(row: Row, trace: seq<Phase>, applied: seq<Transition>, t: Transition, h: Halfway)
    requires Consistent(row, trace, applied) && t in Candidates(row.def, row.current)
    requires t.kind != InternalKind
    requires h.history == Remember(row.current, t, row.compositeHistory)
    requires Destination(row.def, row.current, t, h.history) == Some(h.dest)
    ensures Consistent(Moved(row, t, h),
                       trace + Leaving(row.current, t) + Arriving(IsLocal(row.current, t), h.dest), applied + [t])
  {
    MoveKeepsPlace(row, t, h);
    MoveKeepsTrace(row, trace, t, h);
    MoveKeepsJourney(row, applied, t, h);
  }

  lemma InternalKeepsConsistent(row: Row, trace: seq<Phase>, applied: seq<Transition>, t: Transition)
    requires Consistent(row, trace, applied) && t in Candidates(row.def, row.current)
    requires t.kind == InternalKind
    ensures Consistent(row.(journey := row.journey + [Entry(t, row.current, row.current)]), trace, applied + [t])
  {
    hide Authored, JourneyAuthored;
    CandidateAuthored(row.def, row.current, t);
    AuthoredMore(row.def, row.journey, applied, row.current, t, row.current);
    JourneyExtends(row.journey, Start(row.def), row.current, applied, t, row.current);
  }

  /** What a successful move has done to the row. */
  lemma ApplyMoveShape(w: World, id: string, t: Transition, r: Run) returns (h: Halfway)
    requires ApplyMove(w, id, t, r).Done?
    ensures
      var next, local := ApplyMove(w, id, t, r).run, IsLocal(r.row.current, t);
      && h.history == Remember(r.row.current, t, r.row.compositeHistory)
      && Destination(r.row.def, r.row.current, t, h.history) == Some(h.dest)
      && next.row == Moved(r.row, t, h)
      && next.trace == r.trace + Leaving(r.row.current, t) + Arriving(local, h.dest)
      && next.applied == r.applied + [t]
  {
    h := Depart(w, id, t, r).1.value;
  }

  lemma ApplyMoveKeepsConsistent(w: World, id: string, t: Transition, r: Run, trace: seq<Phase>, applied: seq<Transition>)
    requires Consistent(r.row, trace + r.trace, applied + r.applied) && t in Candidates(r.row.def, r.row.current)
    requires t.kind != InternalKind && ApplyMove(w, id, t, r).Done?
    ensures
      var next := ApplyMove(w, id, t, r).run;
      Consistent(next.row, trace + next.trace, applied + next.applied) && SameIdentity(r.row, next.row)
  {
    hide Consistent, ApplyMove, Leaving, Arriving, Candidates, Destination, IsLocal;
    var h := ApplyMoveShape(w, id, t, r);
    MoveKeepsConsistent(r.row, trace + r.trace, applied + r.applied, t, h);
    var l, a := Leaving(r.row.current, t), Arriving(IsLocal(r.row.current, t), h.dest);
    assert trace + (r.trace + l + a) == trace + r.trace + l + a;
    assert applied + (r.applied + [t]) == applied + r.applied + [t];
  }

  /** A successful transition keeps the row in agreement with its history, and
      leaves its identity alone. */
  lemma ApplyKeepsConsistent(w: World, id: string, t: Transition, r: Run, trace: seq<Phase>, applied: seq<Transition>)
    requires Consistent(r.row, trace + r.trace, applied + r.applied) && t in Candidates(r.row.def, r.row.current)
    ensures
      var s := Apply(w, id, t, r);
      s.Done? ==> Consistent(s.run.row, trace + s.run.trace, applied + s.run.applied) && SameIdentity(r.row, s.run.row)
  {
    hide Consistent;
    if t.kind == InternalKind {
      InternalKeepsConsistent(r.row, trace + r.trace, applied + r.applied, t);
      assert applied + (r.applied + [t]) == applied + r.applied + [t];
    } else if ApplyMove(w, id, t, r).Done? {
      ApplyMoveKeepsConsistent(w, id, t, r, trace, applied);
    }
  }

  /** The fields no transition touches. */
  ghost predicate SameIdentity(a: Row, b: Row) {
    && a.def == b.def && a.parentId == b.parentId && a.forkGeneration == b.forkGeneration
    && a.deleted == b.deleted && a.version == b.version && a.complete == b.complete && a.contextMap == b.contextMap
  }

  ghost predicate Settled(w: World, row: Row) {
    FindAutomaticTransition(w, row.def, row.current, row.contextMap).None?
  }

  lemma AutomaticIsCandidate(w: World, def: Workflow, at: StateContainer, ctx: Context)
    ensures
      var t := FindAutomaticTransition(w, def, at, ctx);
      t.Some? ==> t.value in Candidates(def, at)
  {
    AutomaticIsFirst(w, def, at, ctx);
  }

  lemma {:induction false} ChainKeepsConsistent(w: World, id: string, r: Run, hop: nat, trace: seq<Phase>, applied: seq<Transition>)
    requires hop <= MAX_AUTOMATIC_HOPS
    requires Consistent(r.row, trace + r.trace, applied + r.applied)
    ensures
      var s := Chain(w, id, r, hop);
      s.Done? ==>
        && Consistent(s.run.row, trace + s.run.trace, applied + s.run.applied)
        && SameIdentity(r.row, s.run.row)
        && FindAutomaticTransition(w, s.run.row.def, s.run.row.current, s.run.ctx).None?
    decreases MAX_AUTOMATIC_HOPS - hop
  {
    hide Consistent, Apply;
    if hop < MAX_AUTOMATIC_HOPS {
      var t := FindAutomaticTransition(w, r.row.def, r.row.current, r.ctx);
      if t.Some? {
        AutomaticIsCandidate(w, r.row.def, r.row.current, r.ctx);
        var s := Apply(w, id, t.value, r);
        if s.Done? {
          ApplyKeepsConsistent(w, id, t.value, r, trace, applied);
          ChainKeepsConsistent(w, id, s.run, hop + 1, trace, applied);
        }
      }
    }
  }

  // ---- What a step adds to the table --------------------------------------

  lemma {:induction false} RunPhasesGrows(w: World, id: string, phases: seq<Phase>, ctx: Context, env: Env)
    ensures
      var next := RunPhases(w, id, phases, ctx, env).env;
      Grows(id, env, next) && AdHoc(env, next)
  {
    if phases != [] {
      ExecuteActionsGrows(w, id, phases[0].Actions(), ctx, env);
      var e := ExecuteActions(w, id, phases[0].Actions(), ctx, env);
      if e.ok {
        RunPhasesGrows(w, id, phases[1..], e.ctx, e.env);
        GrowsTrans(id, env, e.env, RunPhases(w, id, phases, ctx, env).env);
        AdHocTrans(id, env, e.env, RunPhases(w, id, phases, ctx, env).env);
      }
    }
  }

  lemma BookkeepingGrows(w: World, id: string, t: Transition, pending: string, env: Env)
    ensures Grows(id, env, Bookkeeping(w, id, t, pending, env).0)
  {
    if t.kind == ForkKind && t.forkTargets != [] {
      var next := env.(tick := env.tick + 1);
      var defs := ForkDefinitions(t.forkTargets);
      if defs.Some? {
        CreateBatchGrows(w, id, defs.value, w.uuid(env.tick), next);
        GrowsTrans(id, env, next, CreateBatch(w, id, defs.value, w.uuid(env.tick), next).env);
      }
    }
  }

  lemma DepartGrows(w: World, id: string, t: Transition, r: Run)
    ensures Grows(id, r.env, Depart(w, id, t, r).0)
  {
    var at := r.row.current;
    RunPhasesGrows(w, id, Leaving(at, t), r.ctx, r.env);
    var e := RunPhases(w, id, Leaving(at, t), r.ctx, r.env);
    BookkeepingGrows(w, id, t, r.row.pendingForkGeneration, e.env);
    GrowsTrans(id, r.env, e.env, Bookkeeping(w, id, t, r.row.pendingForkGeneration, e.env).0);
  }

  lemma SettleGrows(w: World, id: string, t: Transition, local: bool, h: Halfway, env: Env)
    ensures
      var next := Settle(w, id, t, local, h, env).env;
      Grows(id, env, next) && AdHoc(env, next)
  {
    RunPhasesGrows(w, id, Arriving(local, h.dest), h.ctx, env);
    var e := RunPhases(w, id, Arriving(local, h.dest), h.ctx, env);
    ExecuteActionsGrows(w, id, t.entryActions, e.ctx, e.env);
    GrowsTrans(id, env, e.env, ExecuteActions(w, id, t.entryActions, e.ctx, e.env).env);
    AdHocTrans(id, env, e.env, ExecuteActions(w, id, t.entryActions, e.ctx, e.env).env);
  }

  /** Whether it succeeds or not, a transition only adds new children. */
  lemma ApplyGrows(w: World, id: string, t: Transition, r: Run)
    ensures Grows(id, r.env, Apply(w, id, t, r).Env())
  {
    if t.kind == InternalKind {
      ExecuteActionsGrows(w, id, t.entryActions, r.ctx, r.env);
    } else {
      DepartGrows(w, id, t, r);
      var (env, h) := Depart(w, id, t, r);
      if h.Some? {
        SettleGrows(w, id, t, IsLocal(r.row.current, t), h.value, env);
        GrowsTrans(id, r.env, env, Settle(w, id, t, IsLocal(r.row.current, t), h.value, env).env);
      }
    }
  }

  lemma {:induction false} ChainGrows(w: World, id: string, r: Run, hop: nat)
    requires hop <= MAX_AUTOMATIC_HOPS
    ensures Grows(id, r.env, Chain(w, id, r, hop).Env())
    decreases MAX_AUTOMATIC_HOPS - hop
  {
    hide Apply, FindAutomaticTransition, Grows;
    GrowsSelf(id, r.env);
    if hop < MAX_AUTOMATIC_HOPS {
      var t := FindAutomaticTransition(w, r.row.def, r.row.current, r.ctx);
      if t.Some? {
        ApplyGrows(w, id, t.value, r);
        var s := Apply(w, id, t.value, r);
        if s.Done? {
          ChainGrows(w, id, s.run, hop + 1);
          GrowsTrans(id, r.env, s.run.env, Chain(w, id, s.run, hop + 1).Env());
        }
      }
    }
  }

  lemma StepAndChainGrows(w: World, id: string, t: Transition, r: Run)
    ensures Grows(id, r.env, StepAndChain(w, id, t, r).Env())
  {
    hide Apply, Chain, Grows;
    ApplyGrows(w, id, t, r);
    var s := Apply(w, id, t, r);
    if s.Done? {
      ChainGrows(w, id, s.run, 0);
      GrowsTrans(id, r.env, s.run.env, Chain(w, id, s.run, 0).Env());
    }
  }

  lemma {:induction false} ChainKeepsIdentity(w: World, id: string, r: Run, hop: nat)
    requires hop <= MAX_AUTOMATIC_HOPS
    ensures Chain(w, id, r, hop).Done? ==> SameIdentity(r.row, Chain(w, id, r, hop).run.row)
    decreases MAX_AUTOMATIC_HOPS - hop
  {
    hide Apply, FindAutomaticTransition;
    if hop < MAX_AUTOMATIC_HOPS {
      var t := FindAutomaticTransition(w, r.row.def, r.row.current, r.ctx);
      if t.Some? && Apply(w, id, t.value, r).Done? {
        ApplyKeepsIdentity(w, id, t.value, r);
        ChainKeepsIdentity(w, id, Apply(w, id, t.value, r).run, hop + 1);
      }
    }
  }

  lemma ApplyKeepsIdentity(w: World, id: string, t: Transition, r: Run)
    requires Apply(w, id, t, r).Done?
    ensures SameIdentity(r.row, Apply(w, id, t, r).run.row)
  {
    hide ExecuteActions, Depart, Settle;
  }

  lemma StepKeepsIdentity(w: World, id: string, t: Transition, r: Run)
    requires StepAndChain(w, id, t, r).Done?
    ensures SameIdentity(r.row, StepAndChain(w, id, t, r).run.row)
  {
    hide Apply, Chain;
    ApplyKeepsIdentity(w, id, t, r);
    ChainKeepsIdentity(w, id, Apply(w, id, t, r).run, 0);
  }

  // ---- Whole runs ---------------------------------------------------------

  /** What has happened to an instance in committed steps. */
  datatype Log = Log(trace: seq<Phase>, applied: seq<Transition>, commits: nat)

  datatype Sys = Sys(env: Env, logs: map<string, Log>) {
    function LogOf(id: string): Log { if id in logs then logs[id] else Log([], [], 0) }
  }

  datatype Op =
    | New(def: Workflow)
    | Event(id: string, event: string)
    | Child(parentId: string, def: Workflow)
    | WithdrawChild(parentId: string, childId: string)

  const EMPTY := Sys(Env(0, map[], map[]), map[])

  function Perform(w: World, op: Op, s: Sys): Sys {
    match op
    case New(def) =>
      (match NewInstance(w, def, s.env)
       case (env, None) => Sys(env, s.logs)
       case (env, Some((id, r))) => Sys(env, s.logs[id := Log(r.trace, r.applied, 0)]))
    case Event(id, event) =>
      (match ProcessEvent(w, id, event, s.env)
       case Refused(env, _, _) => Sys(env, s.logs)
       case Committed(env, r, _) =>
         var log := s.LogOf(id);
         Sys(env, s.logs[id := Log(log.trace + r.trace, log.applied + r.applied, log.commits + 1)]))
    case Child(parentId, def) => Sys(CreateChild(w, parentId, def, "", s.env).0, s.logs)
    case WithdrawChild(parentId, childId) => Sys(Withdraw(parentId, childId, s.env), s.logs)
  }

  function PerformAll(w: World, ops: seq<Op>, s: Sys): Sys {
    if ops == [] then s
    else Perform(w, ops[|ops| - 1], PerformAll(w, ops[..|ops| - 1], s))
  }

  ghost predicate RowInv(w: World, row: Row, log: Log) {
    && Consistent(row, log.trace, log.applied)
    && row.version == log.commits
    && row.complete == IsEndState(row.def, row.current)
    && (Settled(w, row) || (row.parentId.Some? && log.commits == 0))
  }

  ghost predicate SysInv(w: World, s: Sys) {
    && s.logs.Keys <= s.env.store.Keys
    && forall id :: id in s.env.store ==> RowInv(w, s.env.store[id], s.LogOf(id))
  }

  lemma FreshConsistent(row: Row, at: StateContainer)
    requires Startable(row.def) && Start(row.def) == at
    requires row.current == at && row.journey == [InitialEntry(at)] && row.compositeHistory == map[]
    ensures Consistent(row, [], [])
  {
    InitialPositioned(row.def);
  }

  /** Growing the table by new children keeps the invariant. */
  lemma GrowsKeepsInv(w: World, id: string, s: Sys, env: Env)
    requires SysInv(w, s) && Grows(id, s.env, env)
    ensures SysInv(w, Sys(env, s.logs))
  {
    hide RowInv, IsNewChild;
    var next := Sys(env, s.logs);
    forall k | k in env.store ensures RowInv(w, env.store[k], next.LogOf(k)) {
      if k in s.env.store {
        assert RowInv(w, s.env.store[k], s.LogOf(k)) && next.LogOf(k) == s.LogOf(k);
      } else {
        NewChildInv(w, env.store[k]);
      }
    }
  }

  lemma NewChildInv(w: World, row: Row)
    requires IsNewChild(row)
    ensures RowInv(w, row, Log([], [], 0))
  {
    hide Consistent, Settled;
    FreshConsistent(row, row.current);
  }

  /** Saving a consistent row under `id` keeps the invariant. */
  lemma SaveKeepsInv(w: World, s: Sys, id: string, row: Row, log: Log, tick: nat)
    requires SysInv(w, s) && RowInv(w, row, log)
    ensures SysInv(w, Sys(Env(tick, s.env.store[id := row], s.env.cohorts), s.logs[id := log]))
  {
    var next := Sys(Env(tick, s.env.store[id := row], s.env.cohorts), s.logs[id := log]);
    forall k | k in next.env.store ensures RowInv(w, next.env.store[k], next.LogOf(k)) {
      if k != id { assert RowInv(w, s.env.store[k], s.LogOf(k)); }
    }
  }

  /** The first hops of a new instance. */
  lemma NewChain(w: World, def: Workflow, s: Sys)
    requires Startable(def)
    ensures
      var env1 := s.env.(tick := s.env.tick + 1);
      var step := Chain(w, w.uuid(s.env.tick), Begin(Fresh(def, Start(def)), env1), 0);
      && Grows(w.uuid(s.env.tick), s.env, step.Env())
      && (step.Done? ==>
            RowInv(w, step.run.row.(contextMap := step.run.ctx, complete := IsEndState(def, step.run.row.current)),
                   Log(step.run.trace, step.run.applied, 0)))
  {
    var id := w.uuid(s.env.tick);
    var env1 := s.env.(tick := s.env.tick + 1);
    var r0 := Begin(Fresh(def, Start(def)), env1);
    FreshConsistent(r0.row, Start(def));
    ChainKeepsConsistent(w, id, r0, 0, [], []);
    ChainGrows(w, id, r0, 0);
    var step := Chain(w, id, r0, 0);
    GrowsTrans(id, s.env, env1, step.Env());
    if step.Done? {
      assert [] + step.run.trace == step.run.trace && [] + step.run.applied == step.run.applied;
    }
  }

  lemma TickKeepsInv(w: World, s: Sys, tick: nat)
    requires SysInv(w, s)
    ensures SysInv(w, Sys(s.env.(tick := tick), s.logs))
  {
    var next := Sys(s.env.(tick := tick), s.logs);
    forall k | k in next.env.store ensures RowInv(w, next.env.store[k], next.LogOf(k)) {
      assert RowInv(w, s.env.store[k], s.LogOf(k));
    }
  }

  lemma NewKeepsInv(w: World, def: Workflow, s: Sys)
    requires SysInv(w, s)
    ensures SysInv(w, Perform(w, New(def), s))
  {
    hide SysInv, RowInv, Chain, IsEndState;
    var id := w.uuid(s.env.tick);
    var env1 := s.env.(tick := s.env.tick + 1);
    TickKeepsInv(w, s, env1.tick);
    if Startable(def) {
      NewChain(w, def, s);
      var step := Chain(w, id, Begin(Fresh(def, Start(def)), env1), 0);
      GrowsKeepsInv(w, id, s, step.Env());
      if step.Done? {
        var r := step.run;
        TickKeepsInv(w, Sys(r.env, s.logs), r.env.tick + 1);
        SaveKeepsInv(w, Sys(r.env, s.logs), id, r.row.(contextMap := r.ctx, complete := IsEndState(def, r.row.current)),
                     Log(r.trace, r.applied, 0), r.env.tick + 1);
      }
    }
  }

  lemma CommitKeepsInv(w: World, id: string, row: Row, r: Run, s: Sys, log: Log)
    requires SysInv(w, Sys(r.env, s.logs)) && RowInv(w, Saved(r), log)
    ensures
      match Commit(w, id, row, r)
      case Refused(e, _, _) => SysInv(w, Sys(e, s.logs))
      case Committed(e, _, _) => SysInv(w, Sys(e, s.logs[id := log]))
  {
    hide SysInv, RowInv;
    TickKeepsInv(w, Sys(r.env, s.logs), r.env.tick + 1);
    SaveKeepsInv(w, Sys(r.env, s.logs), id, Saved(r), log, r.env.tick + 1);
  }

  lemma EventKeepsInv(w: World, id: string, event: string, s: Sys)
    requires SysInv(w, s)
    ensures SysInv(w, Perform(w, Event(id, event), s))
  {
    hide RowInv, StepAndChain, Candidates, FindCandidateTransition, SysInv, AllChildrenComplete, Grows;
    assert s == Sys(s.env, s.logs);
    if Live(s.env.store, id) {
      var row, log := s.env.store[id], s.LogOf(id);
      RowOfSys(w, s, id);
      var t := FindCandidateTransition(w, row.def, row.current, event, row.contextMap);
      if t.Some? {
        CandidateIsFirst(w, row.def, row.current, event, row.contextMap);
        StepAndChainGrows(w, id, t.value, Begin(row, s.env));
        var step := StepAndChain(w, id, t.value, Begin(row, s.env));
        GrowsKeepsInv(w, id, s, step.Env());
        if step.Done? {
          var r := step.run;
          CommittedRowInv(w, id, t.value, row, log, s.env);
          CommitKeepsInv(w, id, row, r, s, Log(log.trace + r.trace, log.applied + r.applied, log.commits + 1));
        }
      }
    }
  }

  lemma RowOfSys(w: World, s: Sys, id: string)
    requires SysInv(w, s) && id in s.env.store
    ensures RowInv(w, s.env.store[id], s.LogOf(id))
  {}

  lemma CommittedRowInv(w: World, id: string, t: Transition, row: Row, log: Log, env: Env)
    requires RowInv(w, row, log) && t in Candidates(row.def, row.current)
    requires StepAndChain(w, id, t, Begin(row, env)).Done?
    ensures
      var r := StepAndChain(w, id, t, Begin(row, env)).run;
      RowInv(w, Saved(r), Log(log.trace + r.trace, log.applied + r.applied, log.commits + 1)) && Settled(w, Saved(r))
  {
    hide Positioned, HistoryFits, Replay, LastLeft, EndsInside, JourneyFits, JourneyAuthored, Apply, Chain, FindAutomaticTransition, Candidates, IsEndState;
    var r0 := Begin(row, env);
    assert log.trace + [] == log.trace && log.applied + [] == log.applied;
    ApplyKeepsConsistent(w, id, t, r0, log.trace, log.applied);
    ChainKeepsConsistent(w, id, Apply(w, id, t, r0).run, 0, log.trace, log.applied);
  }

  lemma DeletedRowInv(w: World, row: Row, log: Log)
    requires RowInv(w, row, log)
    ensures RowInv(w, row.(deleted := true), log)
  {}

  lemma WithdrawKeepsInv(w: World, parentId: string, childId: string, s: Sys)
    requires SysInv(w, s)
    ensures SysInv(w, Sys(Withdraw(parentId, childId, s.env), s.logs))
  {
    hide RowInv;
    if Live(s.env.store, childId) {
      DeletedRowInv(w, s.env.store[childId], s.LogOf(childId));
      var next := Sys(Withdraw(parentId, childId, s.env), s.logs);
      forall k | k in next.env.store ensures RowInv(w, next.env.store[k], next.LogOf(k)) {
        assert RowInv(w, s.env.store[k], s.LogOf(k));
      }
    }
  }

  lemma PerformKeepsInv(w: World, op: Op, s: Sys)
    requires SysInv(w, s)
    ensures SysInv(w, Perform(w, op, s))
  {
    hide SysInv, RowInv;
    match op
    case New(def) => NewKeepsInv(w, def, s);
    case Event(id, event) => EventKeepsInv(w, id, event, s);
    case Child(parentId, def) =>
      CreateChildGrows(w, parentId, def, "", s.env);
      GrowsKeepsInv(w, parentId, s, CreateChild(w, parentId, def, "", s.env).0);
    case WithdrawChild(parentId, childId) => WithdrawKeepsInv(w, parentId, childId, s);
  }

  /** Main result: the invariant holds after every sequence of operations. */
  lemma {:induction false} RunInvariant(w: World, ops: seq<Op>)
    ensures SysInv(w, PerformAll(w, ops, EMPTY))
  {
    hide Perform;
    if ops != [] {
      RunInvariant(w, ops[..|ops| - 1]);
      PerformKeepsInv(w, ops[|ops| - 1], PerformAll(w, ops[..|ops| - 1], EMPTY));
    }
  }

  // ---- What the invariant says, one promise at a time ----------------------

  ghost function After(w: World, ops: seq<Op>): Sys { PerformAll(w, ops, EMPTY) }

  lemma RowAfter(w: World, ops: seq<Op>, id: string)
    requires id in After(w, ops).env.store
    ensures RowInv(w, After(w, ops).env.store[id], After(w, ops).LogOf(id))
  {
    hide RowInv;
    RunInvariant(w, ops);
  }

  /** The stored journey is one entry for the start and one for every transition
      ever committed, end to end, the last one at the current position; and every
      transition that fired is one the author wrote. */
  lemma JourneyReplays(w: World, ops: seq<Op>, id: string)
    requires id in After(w, ops).env.store
    ensures
      var row, log := After(w, ops).env.store[id], After(w, ops).LogOf(id);
      && Startable(row.def)
      && |row.journey| == 1 + |log.applied|
      && row.journey[0] == InitialEntry(Start(row.def))
      && (forall i :: 0 <= i < |log.applied| ==> Continues(row.journey[i], log.applied[i], row.journey[i + 1]))
      && row.journey[|log.applied|].toState == row.current.state.Id()
      && row.journey[|log.applied|].toSubstate == row.current.SubstateId()
      && (forall i :: 0 <= i < |log.applied| ==>
            Authored(row.def, log.applied[i], row.journey[i + 1].fromState, row.journey[i + 1].fromSubstate))
  {
    hide After, Continues, Authored, TraceFits, PlaceFits;
    RowAfter(w, ops, id);
  }

  /** Replaying the entries and exits of all committed steps from the initial
      configuration ends inside exactly the current state and substate. */
  lemma TraceReplays(w: World, ops: seq<Op>, id: string)
    requires id in After(w, ops).env.store
    ensures
      var row, log := After(w, ops).env.store[id], After(w, ops).LogOf(id);
      Startable(row.def) && Replay(ConfigOf(Start(row.def)), log.trace) == Some(Inside(row.current.state, row.current.substate))
  {
    hide After, Replay, PlaceFits, JourneyFits;
    RowAfter(w, ops, id);
  }

  /** There is a substate exactly when the state is a composite, it is one of the
      composite's own, and whatever the history remembers exists. */
  lemma PositionHolds(w: World, ops: seq<Op>, id: string)
    requires id in After(w, ops).env.store
    ensures
      var row := After(w, ops).env.store[id];
      && row.current.state in row.def.states
      && (row.current.substate.Some? <==> row.current.state.CompositeState?)
      && (row.current.substate.Some? ==> row.current.substate.value in row.current.state.substates)
      && HistoryFits(row.def, row.compositeHistory)
  {
    hide After, HistoryFits, TraceFits, JourneyFits;
    RowAfter(w, ops, id);
  }

  /** Re-entering a composite through its history, a self-transition included:
      it succeeds and lands on the substate that was active when the composite
      was last left, if it was ever left and that substate has a non-empty id;
      otherwise it lands where plain entry does. */
  lemma HistoryReentry(w: World, ops: seq<Op>, id: string, t: Transition)
    requires id in After(w, ops).env.store
    requires
      var row := After(w, ops).env.store[id];
      var c := FindState(row.def.states, t.target);
      !IsLocal(row.current, t) && t.entersHistory && c.Some? && c.value.CompositeState? && c.value.history != NO_HISTORY
    ensures
      var row := After(w, ops).env.store[id];
      var c := FindState(row.def.states, t.target).value;
      var left := LastLeft(After(w, ops).LogOf(id).trace + Leaving(row.current, t));
      var dest := Destination(row.def, row.current, t, Remember(row.current, t, row.compositeHistory));
      if c.Id() in left && left[c.Id()] != ""
      then dest.Some? && dest.value.state == c && dest.value.SubstateId() == left[c.Id()]
      else dest == (match c.FindSubstate(c.initialSubstate) case None => None case Some(s) => Some(StateContainer(c, Some(s))))
  {
    hide After, Replay, JourneyFits;
    RowAfter(w, ops, id);
    var row, log := After(w, ops).env.store[id], After(w, ops).LogOf(id);
    LastLeftLeave(log.trace, row.current, t);
    RememberFits(row.def, row.current, t, row.compositeHistory);
  }

  /** `Complete` says whether the state is an end state, `Version` counts the
      committed events, and no automatic transition is waiting to fire, except
      that a child that has not processed an event is left as it was created. */
  lemma CommitInvariant(w: World, ops: seq<Op>, id: string)
    requires id in After(w, ops).env.store
    ensures
      var row, log := After(w, ops).env.store[id], After(w, ops).LogOf(id);
      && row.complete == (row.current.state.Id() in row.def.endStates)
      && row.version == log.commits
      && (row.parentId.None? || row.version > 0 ==>
            forall t :: t in ScopedCandidates(row.def, row.current) ==>
              !(t.trigger == AutomaticTrigger && t.after == "" && Enabled(w, t.guard, row.contextMap)))
  {
    hide After, Consistent, ScopedCandidates, Enabled;
    RowAfter(w, ops, id);
    var row := After(w, ops).env.store[id];
    AutomaticIsFirst(w, row.def, row.current, row.contextMap);
  }

  /** A refused event changes no row; at most it leaves children behind. */
  lemma RefusalKeepsRows(w: World, id: string, event: string, env: Env)
    requires ProcessEvent(w, id, event, env).Refused?
    ensures Grows(id, env, ProcessEvent(w, id, event, env).env)
  {
    if Live(env.store, id) {
      var row := env.store[id];
      var t := FindCandidateTransition(w, row.def, row.current, event, row.contextMap);
      if t.Some? { StepAndChainGrows(w, id, t.value, Begin(row, env)); }
    }
  }

  /** The exception is real: a child can be created with an automatic transition
      ready to fire. */
  lemma ChildIsNotChained(w: World, parentId: string, env: Env) returns (def: Workflow)
    requires Live(env.store, parentId) && w.uuid(env.tick) !in env.store && w.insertOk(env.tick)
    ensures
      var (next, id) := CreateChild(w, parentId, def, "", env);
      id.Some? && !Settled(w, next.store[id.value])
  {
    var s := SimpleState(Info("SimpleState", "a", false, "", "", "", "", None));
    var t := Transition(AutomaticTrigger, KindUnset, "a", "b", "go", None, [], false, [], "", false);
    def := Workflow("", "", "", false, "", "", "", [s], [t], [], []);
    var at := StateContainer(s, None);
    assert Filter([t], SourceIs("a")) == [t] by { assert [t][1..] == []; }
    AutomaticIsFirst(w, def, at, map[]);
    assert t in ScopedCandidates(def, at);
  }
}
