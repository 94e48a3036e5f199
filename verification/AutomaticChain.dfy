/** When the chain of automatic transitions settles, and when the hop limit cuts
    it off (engine/transitions.go:364-454). */
module AutomaticChain {
  import opened Model
  import opened Persistence
  import opened Lookup
  import opened Children
  import opened Actions
  import opened Transitions
  import opened RunInvariants

  function NextHop(w: World, r: Run): Option<Transition> {
    FindAutomaticTransition(w, r.row.def, r.row.current, r.ctx)
  }

  /** The run after `n` successful hops: the chain without its limit. */
  function Hops(w: World, id: string, r: Run, n: nat): Option<Run> {
    if n == 0 then Some(r)
    else
      match Hops(w, id, r, n - 1)
      case None => None
      case Some(x) =>
        match NextHop(w, x)
        case None => None
        case Some(t) =>
          match Apply(w, id, t, x)
          case Failed(_, _) => None
          case Done(y) => Some(y)
  }

  ghost predicate SettlesAt(w: World, id: string, r: Run, n: nat) {
    Hops(w, id, r, n).Some? && NextHop(w, Hops(w, id, r, n).value).None?
  }

  ghost predicate FailsAt(w: World, id: string, r: Run, n: nat) {
    && Hops(w, id, r, n).Some?
    && var x := Hops(w, id, r, n).value;
    && NextHop(w, x).Some? && Apply(w, id, NextHop(w, x).value, x).Failed?
  }

  lemma {:induction false} HopsShrink(w: World, id: string, r: Run, n: nat, m: nat)
    requires n <= m && Hops(w, id, r, m).Some?
    ensures Hops(w, id, r, n).Some?
    ensures n < m ==> NextHop(w, Hops(w, id, r, n).value).Some?
    decreases m
  {
    hide Apply, FindAutomaticTransition;
    if n < m { HopsShrink(w, id, r, n, m - 1); }
  }

  lemma LastHop(w: World, id: string, r: Run, n: nat) returns (x: Run, t: Transition)
    requires n > 0 && Hops(w, id, r, n).Some?
    ensures Hops(w, id, r, n - 1) == Some(x) && NextHop(w, x) == Some(t)
    ensures Apply(w, id, t, x) == Done(Hops(w, id, r, n).value)
  {
    hide Apply, FindAutomaticTransition;
    x := Hops(w, id, r, n - 1).value;
    t := NextHop(w, x).value;
  }

  /** From hop `n` on the chain behaves as from its start. */
  lemma {:induction false} ChainFrom(w: World, id: string, r: Run, n: nat)
    requires n <= MAX_AUTOMATIC_HOPS && Hops(w, id, r, n).Some?
    ensures Chain(w, id, Hops(w, id, r, n).value, n) == Chain(w, id, r, 0)
  {
    hide Apply, FindAutomaticTransition;
    if n > 0 { ChainFrom(w, id, r, n - 1); }
  }

  /** Where the unlimited chain stops, if it does so within `k` more hops. */
  lemma {:induction false} StopsOrGoesOn(w: World, id: string, r: Run, n: nat)
    ensures Hops(w, id, r, n).Some? || exists k :: 0 <= k < n && (SettlesAt(w, id, r, k) || FailsAt(w, id, r, k))
  {
    hide Apply;
    if n > 0 {
      StopsOrGoesOn(w, id, r, n - 1);
      if Hops(w, id, r, n - 1).Some? && Hops(w, id, r, n).None? {
        assert SettlesAt(w, id, r, n - 1) || FailsAt(w, id, r, n - 1);
      }
    }
  }

  /** Main result: the chain succeeds exactly when applying the first enabled
      automatic transition over and over settles in fewer than a hundred hops,
      and then its result is where that settles. */
  lemma ChainExact(w: World, id: string, r: Run)
    ensures Chain(w, id, r, 0).Done? <==> exists n :: 0 <= n < 100 && SettlesAt(w, id, r, n)
    ensures forall n :: 0 <= n < 100 && SettlesAt(w, id, r, n) ==>
      Chain(w, id, r, 0) == Done(Hops(w, id, r, n).value)
    ensures Chain(w, id, r, 0).Failed? <==>
      Hops(w, id, r, 100).Some? || exists n :: 0 <= n < 100 && FailsAt(w, id, r, n)
  {
    hide Apply;
    forall n: nat | n < MAX_AUTOMATIC_HOPS && (SettlesAt(w, id, r, n) || FailsAt(w, id, r, n))
      ensures SettlesAt(w, id, r, n) ==> Chain(w, id, r, 0) == Done(Hops(w, id, r, n).value)
      ensures FailsAt(w, id, r, n) ==> Chain(w, id, r, 0).Failed?
    {
      ChainFrom(w, id, r, n);
    }
    if Hops(w, id, r, MAX_AUTOMATIC_HOPS).Some? { ChainFrom(w, id, r, MAX_AUTOMATIC_HOPS); }
    StopsOrGoesOn(w, id, r, MAX_AUTOMATIC_HOPS);
  }

  // ---- Pigeonhole ---------------------------------------------------------

  ghost function Positions(def: Workflow): set<StateContainer> {
    (set s | s in def.states && !s.CompositeState? :: StateContainer(s, None))
    + (set s, sub | s in def.states && s.CompositeState? && sub in s.substates :: StateContainer(s, Some(sub)))
  }

  lemma PositionedIsPosition(def: Workflow, at: StateContainer)
    requires Positioned(def, at)
    ensures at in Positions(def)
  {
    if at.substate.Some? { assert at == StateContainer(at.state, Some(at.substate.value)); }
  }

  lemma {:induction false} HopsPlace(w: World, id: string, r: Run, n: nat)
    requires PlaceFits(r.row) && Hops(w, id, r, n).Some?
    ensures
      var x := Hops(w, id, r, n).value;
      PlaceFits(x.row) && x.row.def == r.row.def
  {
    hide PlaceFits, ApplyInternal, ApplyMove;
    if n > 0 {
      HopsPlace(w, id, r, n - 1);
      var x := Hops(w, id, r, n - 1).value;
      ApplyPlace(w, id, NextHop(w, x).value, x);
    }
  }

  lemma ApplyPlace(w: World, id: string, t: Transition, r: Run)
    requires PlaceFits(r.row) && Apply(w, id, t, r).Done?
    ensures
      var row := Apply(w, id, t, r).run.row;
      PlaceFits(row) && row.def == r.row.def
      && (t.kind == InternalKind ==> row.current == r.row.current)
      && (t.kind != InternalKind ==> Destination(row.def, r.row.current, t, row.compositeHistory) == Some(row.current))
  {
    hide PlaceFits, ApplyMove, Destination;
    if t.kind == InternalKind {
      PlaceFitsJourney(r.row, r.row.journey + [Entry(t, r.row.current, r.row.current)]);
    } else {
      var h := ApplyMoveShape(w, id, t, r);
      MoveKeepsPlace(r.row, t, h);
    }
  }

  lemma PlaceFitsJourney(row: Row, journey: seq<JourneyEntry>)
    requires PlaceFits(row)
    ensures PlaceFits(row.(journey := journey))
  {}

  lemma {:induction false} Pigeonhole<T(!new)>(s: seq<T>, holes: set<T>)
    requires forall i :: 0 <= i < |s| ==> s[i] in holes
    requires |holes| < |s|
    ensures exists i, j :: 0 <= i < j < |s| && s[i] == s[j]
  {
    var n := |s| - 1;
    if i :| 0 <= i < n && s[i] == s[n] {
    } else {
      Pigeonhole(s[..n], holes - {s[n]});
      var i, j :| 0 <= i < j < n && s[..n][i] == s[..n][j];
      assert s[i] == s[j];
    }
  }

  /** Where the chain is after `n` hops, if it gets that far. */
  ghost function PositionAt(w: World, id: string, r: Run, n: nat): StateContainer {
    match Hops(w, id, r, n)
    case Some(x) => x.row.current
    case None => r.row.current
  }

  ghost predicate Repeats(w: World, id: string, r: Run, i: nat, j: nat) {
    i < j && Hops(w, id, r, j).Some? && Hops(w, id, r, i).Some? && PositionAt(w, id, r, i) == PositionAt(w, id, r, j)
  }

  /** If the definition has at most a hundred positions, running into the limit
      means that some position was visited twice. */
  lemma LimitImpliesRepeat(w: World, id: string, r: Run)
    requires PlaceFits(r.row) && |Positions(r.row.def)| <= MAX_AUTOMATIC_HOPS
    requires Hops(w, id, r, MAX_AUTOMATIC_HOPS).Some?
    ensures exists i, j :: 0 <= i < j <= MAX_AUTOMATIC_HOPS && Repeats(w, id, r, i, j)
  {
    hide Hops, PlaceFits, Positions;
    forall n: nat | n <= MAX_AUTOMATIC_HOPS ensures Hops(w, id, r, n).Some? {
      HopsShrink(w, id, r, n, MAX_AUTOMATIC_HOPS);
    }
    var visited := seq(MAX_AUTOMATIC_HOPS + 1, n requires 0 <= n < MAX_AUTOMATIC_HOPS + 1 => PositionAt(w, id, r, n));
    forall n | 0 <= n < |visited| ensures visited[n] in Positions(r.row.def) {
      HopsPlace(w, id, r, n);
      PlaceIsPositioned(Hops(w, id, r, n).value.row);
      PositionedIsPosition(r.row.def, visited[n]);
    }
    Pigeonhole(visited, Positions(r.row.def));
    var i, j :| 0 <= i < j < |visited| && visited[i] == visited[j];
    assert Repeats(w, id, r, i, j);
  }

  lemma PlaceIsPositioned(row: Row)
    requires PlaceFits(row)
    ensures Positioned(row.def, row.current)
  {}

  // ---- Acyclic automatic graphs -------------------------------------------

  /** Some automatic transition may lead from `a` to `b`. */
  ghost predicate AutoEdge(def: Workflow, a: StateContainer, b: StateContainer) {
    exists t, history ::
      && t in ScopedCandidates(def, a) && t.trigger == AutomaticTrigger && t.after == ""
      && (if t.kind == InternalKind then b == a else Destination(def, a, t, history) == Some(b))
  }

  /** `rank` goes down along every automatic edge: there is no cycle. */
  ghost predicate Acyclic(def: Workflow, rank: StateContainer -> nat) {
    forall a, b :: AutoEdge(def, a, b) ==> rank(b) < rank(a)
  }

  lemma HopIsEdge(w: World, id: string, x: Run, t: Transition)
    requires PlaceFits(x.row) && NextHop(w, x) == Some(t) && Apply(w, id, t, x).Done?
    ensures AutoEdge(x.row.def, x.row.current, Apply(w, id, t, x).run.row.current)
  {
    hide PlaceFits, Apply, Destination, ScopedCandidates, AutoEdge, Enabled;
    AutomaticIsFirst(w, x.row.def, x.row.current, x.ctx);
    assert FiresNow(w, x.ctx)(t);
    ApplyPlace(w, id, t, x);
    var row := Apply(w, id, t, x).run.row;
    EdgeBy(x.row.def, x.row.current, row.current, t, row.compositeHistory);
  }

  lemma EdgeBy(def: Workflow, a: StateContainer, b: StateContainer, t: Transition, history: map<string, string>)
    requires t in ScopedCandidates(def, a) && t.trigger == AutomaticTrigger && t.after == ""
    requires if t.kind == InternalKind then b == a else Destination(def, a, t, history) == Some(b)
    ensures AutoEdge(def, a, b)
  {
    hide ScopedCandidates, Destination;
    var dest := Destination(def, a, t, history);
  }

  lemma EdgeDescends(def: Workflow, rank: StateContainer -> nat, a: StateContainer, b: StateContainer)
    requires Acyclic(def, rank) && AutoEdge(def, a, b)
    ensures rank(b) < rank(a)
  {
    hide AutoEdge;
  }

  lemma {:induction false} RankDescends(w: World, id: string, r: Run, rank: StateContainer -> nat, i: nat, j: nat)
    requires PlaceFits(r.row) && Acyclic(r.row.def, rank)
    requires i < j && Hops(w, id, r, j).Some? && Hops(w, id, r, i).Some?
    ensures rank(PositionAt(w, id, r, j)) < rank(PositionAt(w, id, r, i))
    decreases j
  {
    hide PlaceFits, Hops, AutoEdge, Acyclic, NextHop, Apply;
    var x, t := LastHop(w, id, r, j);
    if i < j - 1 { RankDescends(w, id, r, rank, i, j - 1); }
    HopsPlace(w, id, r, j - 1);
    HopIsEdge(w, id, x, t);
    EdgeDescends(r.row.def, rank, PositionAt(w, id, r, j - 1), PositionAt(w, id, r, j));
  }

  /** With at most a hundred positions and no automatic cycle the limit is never
      reached: the chain settles, or some hop fails on its own account. */
  lemma AcyclicSettles(w: World, id: string, r: Run, rank: StateContainer -> nat)
    requires PlaceFits(r.row) && |Positions(r.row.def)| <= MAX_AUTOMATIC_HOPS && Acyclic(r.row.def, rank)
    ensures Hops(w, id, r, MAX_AUTOMATIC_HOPS).None?
    ensures Chain(w, id, r, 0).Done? || exists n :: 0 <= n < MAX_AUTOMATIC_HOPS && FailsAt(w, id, r, n)
  {
    hide PlaceFits, Acyclic, Positions, Hops, Chain;
    if Hops(w, id, r, MAX_AUTOMATIC_HOPS).Some? {
      LimitImpliesRepeat(w, id, r);
      var i, j :| 0 <= i < j <= MAX_AUTOMATIC_HOPS && Repeats(w, id, r, i, j);
      RankDescends(w, id, r, rank, i, j);
      assert false;
    }
    ChainExact(w, id, r);
  }

  // ---- Chains that come round --------------------------------------------

  /** The hops so far have left the context alone, and the next one does not enter
      history. */
  ghost predicate KeptAt(w: World, r: Run, x: Run) {
    x.ctx == r.ctx && (NextHop(w, x).Some? ==> !NextHop(w, x).value.entersHistory)
  }

  /** The hops the chain takes change no context and enter no history. */
  ghost predicate Unchanging(w: World, id: string, r: Run) {
    forall n: nat :: n < MAX_AUTOMATIC_HOPS && Hops(w, id, r, n).Some? ==> KeptAt(w, r, Hops(w, id, r, n).value)
  }

  /** Without history entry, history does not say where a transition leads. */
  lemma NoHistory(def: Workflow, at: StateContainer, t: Transition, history: map<string, string>)
    requires !t.entersHistory
    ensures Destination(def, at, t, history) == Destination(def, at, t, map[])
  {}

  /** From equal positions, the same transition leads to equal positions. */
  lemma Twins(w: World, id: string, x: Run, y: Run)
    requires PlaceFits(x.row) && PlaceFits(y.row) && x.row.def == y.row.def && x.row.current == y.row.current
    requires NextHop(w, x).Some? && NextHop(w, x) == NextHop(w, y) && !NextHop(w, x).value.entersHistory
    requires Apply(w, id, NextHop(w, x).value, x).Done? && Apply(w, id, NextHop(w, y).value, y).Done?
    ensures Apply(w, id, NextHop(w, x).value, x).run.row.current == Apply(w, id, NextHop(w, y).value, y).run.row.current
  {
    hide PlaceFits, Apply, Destination, NextHop;
    var t := NextHop(w, x).value;
    ApplyPlace(w, id, t, x);
    ApplyPlace(w, id, t, y);
    NoHistory(x.row.def, x.row.current, t, Apply(w, id, t, x).run.row.compositeHistory);
    NoHistory(x.row.def, x.row.current, t, Apply(w, id, t, y).run.row.compositeHistory);
  }

  /** Equal positions have the same next transition. */
  lemma SameNext(w: World, id: string, r: Run, i: nat, j: nat)
    requires PlaceFits(r.row) && Unchanging(w, id, r) && i < MAX_AUTOMATIC_HOPS && j < MAX_AUTOMATIC_HOPS
    requires Hops(w, id, r, i).Some? && Hops(w, id, r, j).Some? && PositionAt(w, id, r, i) == PositionAt(w, id, r, j)
    ensures
      var x, y := Hops(w, id, r, i).value, Hops(w, id, r, j).value;
      && NextHop(w, x) == NextHop(w, y) && PlaceFits(x.row) && PlaceFits(y.row)
      && x.row.def == r.row.def && y.row.def == r.row.def && KeptAt(w, r, x)
  {
    hide PlaceFits, Hops, FindAutomaticTransition;
    HopsPlace(w, id, r, i);
    HopsPlace(w, id, r, j);
    assert KeptAt(w, r, Hops(w, id, r, i).value) && KeptAt(w, r, Hops(w, id, r, j).value);
  }

  /** From equal positions the same positions follow. */
  lemma {:induction false} SamePath(w: World, id: string, r: Run, i: nat, j: nat, k: nat)
    requires PlaceFits(r.row) && Unchanging(w, id, r) && Repeats(w, id, r, i, j) && j + k <= MAX_AUTOMATIC_HOPS
    requires Hops(w, id, r, i + k).Some? && Hops(w, id, r, j + k).Some?
    ensures PositionAt(w, id, r, i + k) == PositionAt(w, id, r, j + k)
  {
    hide PlaceFits, Unchanging, Apply, Hops, NextHop;
    if k > 0 {
      var x, _ := LastHop(w, id, r, i + k);
      var y, _ := LastHop(w, id, r, j + k);
      SamePath(w, id, r, i, j, k - 1);
      SameNext(w, id, r, i + k - 1, j + k - 1);
      Twins(w, id, x, y);
    }
  }

  /** Once a position repeats, every later one has a way on. */
  lemma {:induction false} NeverSettles(w: World, id: string, r: Run, i: nat, j: nat, n: nat)
    requires PlaceFits(r.row) && Unchanging(w, id, r) && Repeats(w, id, r, i, j)
    requires n < MAX_AUTOMATIC_HOPS && Hops(w, id, r, n).Some?
    ensures NextHop(w, Hops(w, id, r, n).value).Some?
    decreases n
  {
    hide PlaceFits, Unchanging, Hops, FindAutomaticTransition;
    if n < j {
      HopsShrink(w, id, r, n, j);
    } else {
      var k := n - j;
      HopsShrink(w, id, r, i + k, n);
      SamePath(w, id, r, i, j, k);
      NeverSettles(w, id, r, i, j, i + k);
      SameNext(w, id, r, i + k, n);
    }
  }

  /** Main result: where the hops of a chain change no context and enter no history, a
      position that repeats means the chain fails: it goes round until the limit, or
      until a hop fails. */
  lemma RepeatFails(w: World, id: string, r: Run, i: nat, j: nat)
    requires PlaceFits(r.row) && Unchanging(w, id, r) && Repeats(w, id, r, i, j)
    ensures Chain(w, id, r, 0).Failed?
    ensures (forall n :: 0 <= n < MAX_AUTOMATIC_HOPS ==> !FailsAt(w, id, r, n)) ==> Hops(w, id, r, MAX_AUTOMATIC_HOPS).Some?
  {
    hide PlaceFits, Unchanging, Repeats, Hops, Chain;
    forall n: nat | n < MAX_AUTOMATIC_HOPS ensures !SettlesAt(w, id, r, n) {
      if Hops(w, id, r, n).Some? { NeverSettles(w, id, r, i, j, n); }
    }
    ChainExact(w, id, r);
    StopsOrGoesOn(w, id, r, MAX_AUTOMATIC_HOPS);
  }

  // ---- Steady automatic graphs --------------------------------------------

  /** Actions that leave the context alone. */
  ghost predicate Neutral(actions: seq<Action>) {
    forall a :: a in actions ==>
      a.actionType == ActionTypeUnset || (a.actionType == HttpRequestAction && !a.expectResponse)
  }

  ghost predicate NeutralState(s: State) {
    Neutral(s.OnEntry()) && Neutral(s.OnExit())
  }

  ghost predicate SteadyTransition(t: Transition) {
    t.trigger == AutomaticTrigger ==> !t.entersHistory && Neutral(t.entryActions)
  }

  /** A definition none of whose automatic hops can change a context or enter history. */
  ghost predicate Steady(def: Workflow) {
    && (forall t :: t in def.transitions ==> SteadyTransition(t))
    && (forall s :: s in def.states ==> NeutralState(s))
    && (forall s :: s in def.states && s.CompositeState? ==>
          (forall t :: t in s.subTransitions ==> SteadyTransition(t))
          && (forall x :: x in s.substates ==> NeutralState(x)))
  }

  lemma {:induction false} NeutralKeepsContext(w: World, id: string, actions: seq<Action>, ctx: Context, env: Env)
    requires Neutral(actions)
    ensures ExecuteActions(w, id, actions, ctx, env).ctx == ctx
    decreases |actions|
  {
    if actions != [] {
      assert actions[0] in actions;
      NeutralKeepsContext(w, id, actions[1..], ctx, env);
    }
  }

  lemma {:induction false} NeutralPhases(w: World, id: string, phases: seq<Phase>, ctx: Context, env: Env)
    requires forall p :: p in phases ==> Neutral(p.Actions())
    ensures RunPhases(w, id, phases, ctx, env).ctx == ctx
  {
    hide Neutral, ExecuteActions;
    if phases != [] {
      assert phases[0] in phases;
      NeutralKeepsContext(w, id, phases[0].Actions(), ctx, env);
      var e := ExecuteActions(w, id, phases[0].Actions(), ctx, env);
      NeutralPhases(w, id, phases[1..], ctx, e.env);
    }
  }

  lemma SteadyCandidate(def: Workflow, at: StateContainer, t: Transition)
    requires Steady(def) && Positioned(def, at) && t in ScopedCandidates(def, at)
    ensures SteadyTransition(t)
  {
    hide SteadyTransition, NeutralState;
  }

  lemma SteadyPosition(def: Workflow, at: StateContainer)
    requires Steady(def) && Positioned(def, at)
    ensures NeutralState(at.state) && (at.substate.Some? ==> NeutralState(at.substate.value))
  {
    hide SteadyTransition, NeutralState;
  }

  lemma LeavingNeutral(def: Workflow, at: StateContainer, t: Transition)
    requires Steady(def) && Positioned(def, at)
    ensures forall p :: p in Leaving(at, t) ==> Neutral(p.Actions())
  {
    hide Steady, Positioned, Neutral;
    SteadyPosition(def, at);
  }

  lemma ArrivingNeutral(def: Workflow, local: bool, dest: StateContainer)
    requires Steady(def) && Positioned(def, dest)
    ensures forall p :: p in Arriving(local, dest) ==> Neutral(p.Actions())
  {
    hide Steady, Positioned, Neutral;
    SteadyPosition(def, dest);
  }

  lemma SteadyMove(w: World, id: string, t: Transition, r: Run)
    requires PlaceFits(r.row) && Steady(r.row.def) && Neutral(t.entryActions) && ApplyMove(w, id, t, r).Done?
    ensures ApplyMove(w, id, t, r).run.ctx == r.ctx
  {
    hide Neutral, Steady, Bookkeeping, Leaving, Arriving, RunPhases, ExecuteActions, IsLocal, Remember, Destination;
    var at := r.row.current;
    var (env, h) := Depart(w, id, t, r);
    PlaceIsPositioned(r.row);
    LeavingNeutral(r.row.def, at, t);
    NeutralPhases(w, id, Leaving(at, t), r.ctx, r.env);
    DestinationPositioned(r.row.def, at, t, h.value.history);
    ArrivingNeutral(r.row.def, IsLocal(at, t), h.value.dest);
    NeutralPhases(w, id, Arriving(IsLocal(at, t), h.value.dest), h.value.ctx, env);
    var e := RunPhases(w, id, Arriving(IsLocal(at, t), h.value.dest), h.value.ctx, env);
    NeutralKeepsContext(w, id, t.entryActions, e.ctx, e.env);
  }

  lemma SteadyApply(w: World, id: string, t: Transition, r: Run)
    requires PlaceFits(r.row) && Steady(r.row.def) && Neutral(t.entryActions) && Apply(w, id, t, r).Done?
    ensures Apply(w, id, t, r).run.ctx == r.ctx
  {
    hide Steady, PlaceFits, ApplyMove, Neutral, ExecuteActions;
    if t.kind == InternalKind {
      NeutralKeepsContext(w, id, t.entryActions, r.ctx, r.env);
    } else {
      SteadyMove(w, id, t, r);
    }
  }

  lemma {:induction false} SteadyHops(w: World, id: string, r: Run, n: nat)
    requires PlaceFits(r.row) && Steady(r.row.def) && Hops(w, id, r, n).Some?
    ensures KeptAt(w, r, Hops(w, id, r, n).value)
  {
    hide PlaceFits, Steady, Apply, FindAutomaticTransition;
    if n > 0 {
      SteadyHops(w, id, r, n - 1);
      HopsPlace(w, id, r, n - 1);
      SteadyNext(w, Hops(w, id, r, n - 1).value);
      var x, t := LastHop(w, id, r, n);
      SteadyApply(w, id, t, x);
    }
    HopsPlace(w, id, r, n);
    SteadyNext(w, Hops(w, id, r, n).value);
  }

  lemma SteadyNext(w: World, x: Run)
    requires PlaceFits(x.row) && Steady(x.row.def)
    ensures NextHop(w, x).Some? ==> !NextHop(w, x).value.entersHistory && Neutral(NextHop(w, x).value.entryActions)
  {
    hide PlaceFits, Steady, Neutral, Enabled, ScopedCandidates;
    AutomaticIsFirst(w, x.row.def, x.row.current, x.ctx);
    PlaceIsPositioned(x.row);
    if NextHop(w, x).Some? {
      assert FiresNow(w, x.ctx)(NextHop(w, x).value);
      SteadyCandidate(x.row.def, x.row.current, NextHop(w, x).value);
    }
  }

  /** So in a steady definition every repeated position is a failure. */
  lemma SteadyRepeatFails(w: World, id: string, r: Run, i: nat, j: nat)
    requires PlaceFits(r.row) && Steady(r.row.def) && Repeats(w, id, r, i, j)
    ensures Unchanging(w, id, r) && Chain(w, id, r, 0).Failed?
  {
    hide PlaceFits, Steady, Repeats, Chain, Hops, KeptAt;
    forall n: nat | n < MAX_AUTOMATIC_HOPS && Hops(w, id, r, n).Some? ensures KeptAt(w, r, Hops(w, id, r, n).value) {
      SteadyHops(w, id, r, n);
    }
    RepeatFails(w, id, r, i, j);
  }
}
