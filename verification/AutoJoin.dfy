/** Siblings that complete while their parent waits at a join
    (engine/autojoin.go, engine/workflow_ops.go:153-177).

    Every completion of a child starts an attempt on its parent: it reads the
    parent, then counts the incomplete children, then dispatches the join event.
    Those steps, the commits of the children, and whatever happens to rows out of
    the parent's scope interleave in any order. An attempt is counted from the commit
    it follows; until it first looks at the parent it may not even have started. */
module AutoJoin {
  import opened Model
  import opened Persistence
  import opened Lookup
  import opened Children
  import opened Actions
  import opened Transitions
  import opened WorkflowOps
  import opened RunInvariants
  import Creation

  // ---- End states that are never left -------------------------------------

  /** No transition leads out of an end state. */
  ghost predicate EndsAbsorb(def: Workflow) {
    && (forall t :: t in def.transitions && t.source in def.endStates ==> t.kind == InternalKind)
    && (forall ct, e :: ct in def.commonTransitions && e in ct.sourceList && e in def.endStates ==> ct.kind == InternalKind)
    && (forall s, t :: s in def.states && s.CompositeState? && s.Id() in def.endStates && t in s.subTransitions ==>
          t.kind == InternalKind || s.FindSubstate(t.target).Some?)
  }

  lemma EndCandidateStays(def: Workflow, at: StateContainer, t: Transition)
    requires EndsAbsorb(def) && Positioned(def, at) && IsEndState(def, at) && t in Candidates(def, at)
    ensures t.kind == InternalKind || IsLocal(at, t)
  {
    var id := at.state.Id();
    if t in ScopedCandidates(def, at) {
      if at.substate.Some? && t in Filter(at.state.subTransitions, SourceIs(at.substate.value.Id())) {
        assert at.state in def.states;
      }
    } else {
      var listed := Filter(def.commonTransitions, Listed(id));
      var i :| 0 <= i < |listed| && SynthesizeAll(listed, id)[i] == t;
      assert listed[i] in def.commonTransitions && Listed(id)(listed[i]);
    }
  }

  lemma EndApplyStays(w: World, id: string, t: Transition, r: Run)
    requires EndsAbsorb(r.row.def) && PlaceFits(r.row) && IsEndState(r.row.def, r.row.current)
    requires t in Candidates(r.row.def, r.row.current) && Apply(w, id, t, r).Done?
    ensures
      var row := Apply(w, id, t, r).run.row;
      row.def == r.row.def && PlaceFits(row) && IsEndState(row.def, row.current)
  {
    hide EndsAbsorb, Candidates, ApplyMove, ResolveTarget, HistoryFits;
    EndCandidateStays(r.row.def, r.row.current, t);
    if t.kind != InternalKind {
      var h := ApplyMoveShape(w, id, t, r);
      MoveKeepsPlace(r.row, t, h);
    }
  }

  lemma {:induction false} EndChainStays(w: World, id: string, r: Run, hop: nat)
    requires hop <= MAX_AUTOMATIC_HOPS
    requires EndsAbsorb(r.row.def) && PlaceFits(r.row) && IsEndState(r.row.def, r.row.current)
    ensures Chain(w, id, r, hop).Done? ==>
      IsEndState(r.row.def, Chain(w, id, r, hop).run.row.current) && Chain(w, id, r, hop).run.row.def == r.row.def
    decreases MAX_AUTOMATIC_HOPS - hop
  {
    hide EndsAbsorb, Apply, PlaceFits, IsEndState, FindAutomaticTransition;
    if hop < MAX_AUTOMATIC_HOPS {
      var t := FindAutomaticTransition(w, r.row.def, r.row.current, r.ctx);
      if t.Some? && Apply(w, id, t.value, r).Done? {
        AutomaticIsCandidate(w, r.row.def, r.row.current, r.ctx);
        EndApplyStays(w, id, t.value, r);
        EndChainStays(w, id, Apply(w, id, t.value, r).run, hop + 1);
      }
    }
  }

  /** `Complete` never goes back when no transition leads out of an end state. */
  lemma CompleteStays(w: World, id: string, event: string, env: Env)
    requires Live(env.store, id) && env.store[id].complete
    requires var row := env.store[id]; EndsAbsorb(row.def) && PlaceFits(row) && IsEndState(row.def, row.current)
    requires ProcessEvent(w, id, event, env).Committed?
    ensures ProcessEvent(w, id, event, env).env.store[id].complete
  {
    hide EndsAbsorb, PlaceFits, Apply, Chain, FindCandidateTransition, IsEndState, AllChildrenComplete;
    var row := env.store[id];
    var t := FindCandidateTransition(w, row.def, row.current, event, row.contextMap).value;
    FoundIsCandidate(w, row, event);
    EndApplyStays(w, id, t, Begin(row, env));
    EndChainStays(w, id, Apply(w, id, t, Begin(row, env)).run, 0);
  }

  lemma FoundIsCandidate(w: World, row: Row, event: string)
    ensures
      var t := FindCandidateTransition(w, row.def, row.current, event, row.contextMap);
      t.Some? ==> t.value in Candidates(row.def, row.current)
  {
    CandidateIsFirst(w, row.def, row.current, event, row.contextMap);
  }

  // ---- Attempts -----------------------------------------------------------

  /** An attempt that has yet to look, one that has read the parent and is about to
      count, one that has counted and is about to dispatch, one that is over. */
  datatype Stage = Spawned | Counting(event: string, gen: string) | Sending(event: string) | Finished

  datatype Attempt = Attempt(parent: string, stage: Stage)

  datatype Net = Net(store: map<string, Row>, attempts: seq<Attempt>, sent: seq<(string, string)>)

  /** What an attempt reads off the parent's row: the event of its pending join
      and the generation it waits for, if there is one to go for. */
  function ReadParent(w: World, store: map<string, Row>, parent: string): Option<(string, string)> {
    if !Live(store, parent) then None
    else
      var row := store[parent];
      match FindPendingJoinTransition(row.def, row.current)
      case None => None
      case Some(t) => if Enabled(w, t.guard, row.contextMap) then Some((t.event, row.pendingForkGeneration)) else None
  }

  function AfterRead(w: World, s: Net, i: nat): Net
    requires i < |s.attempts|
  {
    var a := s.attempts[i];
    var stage := match ReadParent(w, s.store, a.parent) case None => Finished case Some((e, g)) => Counting(e, g);
    s.(attempts := s.attempts[i := Attempt(a.parent, stage)])
  }

  function AfterCount(s: Net, i: nat): Net
    requires i < |s.attempts| && s.attempts[i].stage.Counting?
  {
    var a := s.attempts[i];
    var stage := if AllChildrenComplete(s.store, a.parent, a.stage.gen) then Sending(a.stage.event) else Finished;
    s.(attempts := s.attempts[i := Attempt(a.parent, stage)])
  }

  function AfterSend(s: Net, i: nat): Net
    requires i < |s.attempts| && s.attempts[i].stage.Sending?
  {
    var a := s.attempts[i];
    Net(s.store, s.attempts[i := Attempt(a.parent, Finished)], s.sent + [(a.parent, a.stage.event)])
  }

  /** One instance commits an event. It keeps its parent and generation and is
      not withdrawn, the rows it adds are its own children, and completing starts
      an attempt on its parent. */
  ghost predicate CommitOf(s: Net, next: Net, c: string) {
    && c in s.store && c in next.store
    && var old_, new_ := s.store[c], next.store[c];
    && new_.parentId == old_.parentId && new_.forkGeneration == old_.forkGeneration && new_.deleted == old_.deleted
    && (forall k :: k in s.store && k != c ==> k in next.store && next.store[k] == s.store[k])
    && (forall k :: k in next.store && k !in s.store ==> next.store[k].parentId == Some(c))
    && next.sent == s.sent
    && next.attempts == (if !old_.complete && new_.complete && new_.parentId.Some?
                         then s.attempts + [Attempt(new_.parentId.value, Spawned)] else s.attempts)
  }

  /** The state after a committed event is one `CommitOf` allows. */
  lemma EventIsCommit(w: World, id: string, event: string, env: Env, s: Net)
    requires s.store == env.store && ProcessEvent(w, id, event, env).Committed?
    ensures
      var o := ProcessEvent(w, id, event, env);
      CommitOf(s, Net(o.env.store, if o.notify.Some? then s.attempts + [Attempt(o.notify.value, Spawned)] else s.attempts, s.sent), id)
  {
    hide StepAndChain, FindCandidateTransition, AllChildrenComplete, IsNewChild;
    var row := env.store[id];
    var t := FindCandidateTransition(w, row.def, row.current, event, row.contextMap).value;
    StepAndChainGrows(w, id, t, Begin(row, env));
    StepKeepsIdentity(w, id, t, Begin(row, env));
  }

  // ---- Nothing is dispatched early ----------------------------------------

  /** The parent waits at a join with this event, whose guard passes, for this
      generation. */
  ghost predicate WaitsAt(w: World, store: map<string, Row>, parent: string, event: string, gen: string) {
    && parent in store && !store[parent].deleted
    && var join := FindPendingJoinTransition(store[parent].def, store[parent].current);
    && join.Some? && Enabled(w, join.value.guard, store[parent].contextMap)
    && event == join.value.event && gen == store[parent].pendingForkGeneration
  }

  /** At some point before `n` the parent was read to wait so. */
  ghost predicate WasRead(w: World, run: seq<Net>, n: nat, parent: string, event: string, gen: string) {
    exists i :: 0 <= i < n <= |run| && WaitsAt(w, run[i].store, parent, event, gen)
  }

  /** And after that, before `n`, all children in scope were complete. */
  ghost predicate WasCounted(w: World, run: seq<Net>, n: nat, parent: string, event: string) {
    exists j, gen :: 0 <= j < n <= |run| && WasRead(w, run, j, parent, event, gen) && AllChildrenComplete(run[j].store, parent, gen)
  }

  ghost predicate StageSound(w: World, run: seq<Net>, n: nat, a: Attempt) {
    match a.stage
    case Counting(e, g) => WasRead(w, run, n, a.parent, e, g)
    case Sending(e) => WasCounted(w, run, n, a.parent, e)
    case _ => true
  }

  ghost predicate NetSound(w: World, run: seq<Net>, n: nat)
    requires n < |run|
  {
    && (forall a :: a in run[n].attempts ==> StageSound(w, run, n, a))
    && (forall p :: p in run[n].sent ==> WasCounted(w, run, n, p.0, p.1))
  }

  lemma StageStaysSound(w: World, run: seq<Net>, n: nat, a: Attempt)
    requires n < |run| && StageSound(w, run, n, a)
    ensures StageSound(w, run, n + 1, a)
  {
    if a.stage.Sending? {
      var j, gen :| 0 <= j < n && WasRead(w, run, j, a.parent, a.stage.event, gen) && AllChildrenComplete(run[j].store, a.parent, gen);
      assert WasRead(w, run, j, a.parent, a.stage.event, gen);
    }
  }

  lemma SentStaysSound(w: World, run: seq<Net>, n: nat, p: (string, string))
    requires n < |run| && WasCounted(w, run, n, p.0, p.1)
    ensures WasCounted(w, run, n + 1, p.0, p.1)
  {
    var j, gen :| 0 <= j < n && WasRead(w, run, j, p.0, p.1, gen) && AllChildrenComplete(run[j].store, p.0, gen);
  }

  /** The attempt `i` takes its next step at point `n` of the run. */
  lemma StageSteps(w: World, run: seq<Net>, n: nat, i: nat)
    requires n < |run| && NetSound(w, run, n) && i < |run[n].attempts|
    ensures run[n].attempts[i].stage.Spawned? ==> StageSound(w, run, n + 1, AfterRead(w, run[n], i).attempts[i])
    ensures run[n].attempts[i].stage.Counting? ==> StageSound(w, run, n + 1, AfterCount(run[n], i).attempts[i])
    ensures run[n].attempts[i].stage.Sending? ==>
      WasCounted(w, run, n + 1, run[n].attempts[i].parent, run[n].attempts[i].stage.event)
      && StageSound(w, run, n + 1, AfterSend(run[n], i).attempts[i])
  {
    hide AllChildrenComplete;
    var a := run[n].attempts[i];
    assert StageSound(w, run, n, a);
    StageStaysSound(w, run, n, a);
    if a.stage.Spawned? && ReadParent(w, run[n].store, a.parent).Some? {
      var (e, g) := ReadParent(w, run[n].store, a.parent).value;
      assert WaitsAt(w, run[n].store, a.parent, e, g);
    }
  }

  /** Only attempt `i` changes. */
  lemma AttemptStaysSound(w: World, run: seq<Net>, n: nat, i: nat, x: Attempt)
    requires n + 1 < |run| && i < |run[n].attempts| && run[n + 1].attempts == run[n].attempts[i := x]
    requires StageSound(w, run, n + 1, x) && forall y :: y in run[n].attempts ==> StageSound(w, run, n + 1, y)
    requires forall p :: p in run[n + 1].sent ==> WasCounted(w, run, n + 1, p.0, p.1)
    ensures NetSound(w, run, n + 1)
  {
    hide StageSound, WasCounted;
    var was, now := run[n].attempts, run[n + 1].attempts;
    forall y | y in now ensures StageSound(w, run, n + 1, y) {
      var k :| 0 <= k < |now| && now[k] == y;
      if k != i {
        assert was[k] == y;
        assert y in was;
      }
    }
  }

  lemma NetStaysSound(w: World, a: Wait, run: seq<Net>, n: nat)
    requires n + 1 < |run| && NetSound(w, run, n) && NetStep(w, a, run[n], run[n + 1])
    ensures NetSound(w, run, n + 1)
  {
    hide WasRead, WasCounted, StageSound, Undisturbed, ReadParent, AllChildrenComplete;
    var s, next := run[n], run[n + 1];
    forall x | x in s.attempts ensures StageSound(w, run, n + 1, x) { StageStaysSound(w, run, n, x); }
    forall p | p in s.sent ensures WasCounted(w, run, n + 1, p.0, p.1) { SentStaysSound(w, run, n, p); }
    if i: nat :| i < |s.attempts| && s.attempts[i].stage.Spawned? && next == AfterRead(w, s, i) {
      StageSteps(w, run, n, i);
      AttemptStaysSound(w, run, n, i, next.attempts[i]);
    } else if i: nat :| i < |s.attempts| && s.attempts[i].stage.Counting? && next == AfterCount(s, i) {
      StageSteps(w, run, n, i);
      AttemptStaysSound(w, run, n, i, next.attempts[i]);
    } else if i: nat :| i < |s.attempts| && s.attempts[i].stage.Sending? && next == AfterSend(s, i) {
      StageSteps(w, run, n, i);
      AttemptStaysSound(w, run, n, i, next.attempts[i]);
    } else if Elsewhere(a, s, next) {
    } else {
      var c :| c != a.parent && CommitOf(s, next, c) && Undisturbed(a, s, next);
      CommitStaysSound(w, run, n, c);
    }
  }

  lemma CommitStaysSound(w: World, run: seq<Net>, n: nat, c: string)
    requires n + 1 < |run| && CommitOf(run[n], run[n + 1], c)
    requires forall y :: y in run[n].attempts ==> StageSound(w, run, n + 1, y)
    requires forall p :: p in run[n].sent ==> WasCounted(w, run, n + 1, p.0, p.1)
    ensures NetSound(w, run, n + 1)
  {
    hide WasCounted, WasRead;
  }

  /** Main result: in every interleaving, a join event that has been dispatched was
      dispatched for a parent that had been read to wait at that join, with its guard
      passing, and whose children in scope were all complete at a later look. */
  lemma {:induction false} NothingSentEarly(w: World, a: Wait, run: seq<Net>, n: nat)
    requires NetRun(w, a, run) && n < |run|
    requires run[0].sent == [] && forall x :: x in run[0].attempts ==> x.stage.Spawned? || x.stage.Finished?
    ensures NetSound(w, run, n)
    ensures forall p :: p in run[n].sent ==> WasCounted(w, run, n, p.0, p.1)
  {
    hide NetStep, WasCounted;
    if n > 0 {
      NothingSentEarly(w, a, run, n - 1);
      NetStaysSound(w, a, run, n - 1);
    }
  }

  // ---- A parent that waits ------------------------------------------------

  /** The parent's row, the event of its join and the generation it waits for. */
  datatype Wait = Wait(parent: string, row: Row, event: string, gen: string)

  ghost predicate Waiting(w: World, a: Wait, store: map<string, Row>) {
    a.parent in store && store[a.parent] == a.row && ReadParent(w, store, a.parent) == Some((a.event, a.gen))
  }

  /** The parent stays where it is, and children in scope stay complete once they
      are; new instances do not enter the scope. */
  ghost predicate Undisturbed(a: Wait, s: Net, next: Net) {
    && a.parent in next.store && next.store[a.parent] == a.row
    && (forall k :: k in s.store && k in next.store && InScope(s.store[k], a.parent, a.gen) && s.store[k].complete ==>
          next.store[k].complete)
  }

  /** Instances created, and children withdrawn, out of the parent's scope. */
  ghost predicate Elsewhere(a: Wait, s: Net, next: Net) {
    && next.attempts == s.attempts && next.sent == s.sent
    && a.parent in s.store && a.parent in next.store && next.store[a.parent] == s.store[a.parent]
    && (forall k :: k in s.store ==> k in next.store)
    && (forall k :: k in next.store ==>
          || (k in s.store && next.store[k] == s.store[k])
          || (k in s.store && !InScope(s.store[k], a.parent, a.gen) && next.store[k] == s.store[k].(deleted := true))
          || (k !in s.store && !InScope(next.store[k], a.parent, a.gen)))
  }

  /** Any step of the children, of the attempts, and of other instances. */
  ghost predicate NetStep(w: World, a: Wait, s: Net, next: Net) {
    || (exists c :: c != a.parent && CommitOf(s, next, c) && Undisturbed(a, s, next))
    || Elsewhere(a, s, next)
    || (exists i: nat :: i < |s.attempts| && s.attempts[i].stage.Spawned? && next == AfterRead(w, s, i))
    || (exists i: nat :: i < |s.attempts| && s.attempts[i].stage.Counting? && next == AfterCount(s, i))
    || (exists i: nat :: i < |s.attempts| && s.attempts[i].stage.Sending? && next == AfterSend(s, i))
  }

  ghost predicate NetRun(w: World, a: Wait, run: seq<Net>) {
    run != [] && forall i :: 0 <= i < |run| - 1 ==> NetStep(w, a, run[i], run[i + 1])
  }

  ghost predicate Incomplete(a: Wait, store: map<string, Row>, c: string) {
    c in store && InScope(store[c], a.parent, a.gen) && !store[c].complete
  }

  /** An attempt on the parent that is about to look, to count its scope, or to
      dispatch its join. */
  ghost predicate OnItsWay(a: Wait, s: Net, i: nat) {
    && i < |s.attempts| && s.attempts[i].parent == a.parent
    && (s.attempts[i].stage == Spawned || s.attempts[i].stage == Counting(a.event, a.gen) || s.attempts[i].stage == Sending(a.event))
  }

  /** Something will still dispatch the join. */
  ghost predicate Due(a: Wait, s: Net) {
    (exists c :: Incomplete(a, s.store, c)) || (exists i: nat :: OnItsWay(a, s, i))
  }

  ghost predicate Sent(a: Wait, s: Net, from_: nat) {
    exists k :: from_ <= k < |s.sent| && s.sent[k] == (a.parent, a.event)
  }

  ghost predicate AllFinished(a: Wait, s: Net) {
    forall i :: 0 <= i < |s.attempts| && s.attempts[i].parent == a.parent ==> s.attempts[i].stage == Finished
  }

  lemma CommitKeepsDue(a: Wait, s: Net, next: Net, c: string)
    requires Due(a, s) && c != a.parent && CommitOf(s, next, c) && Undisturbed(a, s, next)
    ensures Due(a, next)
  {
    hide Undisturbed;
    if i: nat :| OnItsWay(a, s, i) {
      assert OnItsWay(a, next, i);
    } else {
      var k :| Incomplete(a, s.store, k);
      if !Incomplete(a, next.store, k) {
        assert k == c;
        assert OnItsWay(a, next, |s.attempts|);
      }
    }
  }

  lemma ElsewhereKeepsDue(a: Wait, s: Net, next: Net)
    requires Due(a, s) && Elsewhere(a, s, next)
    ensures Due(a, next)
  {
    if i: nat :| OnItsWay(a, s, i) {
      assert OnItsWay(a, next, i);
    } else {
      var k :| Incomplete(a, s.store, k);
      assert Incomplete(a, next.store, k);
    }
  }

  lemma ReadKeepsDue(w: World, a: Wait, s: Net, i: nat)
    requires Due(a, s) && Waiting(w, a, s.store) && i < |s.attempts| && s.attempts[i].stage.Spawned?
    ensures Due(a, AfterRead(w, s, i))
  {
    hide ReadParent;
    var next := AfterRead(w, s, i);
    if j: nat :| OnItsWay(a, s, j) {
      assert OnItsWay(a, next, j);
    } else {
      var k :| Incomplete(a, s.store, k);
      assert Incomplete(a, next.store, k);
    }
  }

  lemma CountKeepsDue(a: Wait, s: Net, i: nat)
    requires Due(a, s) && i < |s.attempts| && s.attempts[i].stage.Counting?
    ensures Due(a, AfterCount(s, i))
  {
    var next := AfterCount(s, i);
    if OnItsWay(a, s, i) && AllChildrenComplete(s.store, a.parent, a.gen) {
      assert OnItsWay(a, next, i);
    } else if OnItsWay(a, s, i) {
      var k :| k in s.store && InScope(s.store[k], a.parent, a.gen) && !s.store[k].complete;
      assert Incomplete(a, next.store, k);
    } else if j: nat :| OnItsWay(a, s, j) {
      assert OnItsWay(a, next, j);
    } else {
      var k :| Incomplete(a, s.store, k);
      assert Incomplete(a, next.store, k);
    }
  }

  lemma SendKeepsDue(a: Wait, s: Net, i: nat, from_: nat)
    requires Due(a, s) && i < |s.attempts| && s.attempts[i].stage.Sending? && from_ <= |s.sent|
    ensures Due(a, AfterSend(s, i)) || Sent(a, AfterSend(s, i), from_)
  {
    var next := AfterSend(s, i);
    if OnItsWay(a, s, i) {
      assert next.sent[|s.sent|] == (a.parent, a.event);
    } else if j: nat :| OnItsWay(a, s, j) {
      assert OnItsWay(a, next, j);
    } else {
      var k :| Incomplete(a, s.store, k);
      assert Incomplete(a, next.store, k);
    }
  }

  lemma SentStays(a: Wait, s: Net, next: Net, from_: nat)
    requires Sent(a, s, from_) && |s.sent| <= |next.sent| && next.sent[..|s.sent|] == s.sent
    ensures Sent(a, next, from_)
  {
    var k :| from_ <= k < |s.sent| && s.sent[k] == (a.parent, a.event);
    assert next.sent[k] == s.sent[k];
  }

  /** Until the join has been dispatched, something will still dispatch it. */
  lemma StepKeepsDue(w: World, a: Wait, s: Net, next: Net, from_: nat)
    requires Waiting(w, a, s.store) && NetStep(w, a, s, next) && from_ <= |s.sent|
    requires Due(a, s) || Sent(a, s, from_)
    ensures Waiting(w, a, next.store) && |s.sent| <= |next.sent|
    ensures Due(a, next) || Sent(a, next, from_)
  {
    hide ReadParent, AllChildrenComplete;
    if c :| c != a.parent && CommitOf(s, next, c) && Undisturbed(a, s, next) {
      SameRead(w, s.store, next.store, a.parent);
      if Sent(a, s, from_) { SentStays(a, s, next, from_); } else { hide Due; CommitKeepsDue(a, s, next, c); }
    } else if Elsewhere(a, s, next) {
      SameRead(w, s.store, next.store, a.parent);
      if Sent(a, s, from_) { SentStays(a, s, next, from_); } else { hide Due; ElsewhereKeepsDue(a, s, next); }
    } else if i: nat :| i < |s.attempts| && s.attempts[i].stage.Spawned? && next == AfterRead(w, s, i) {
      if Sent(a, s, from_) { SentStays(a, s, next, from_); } else { hide Due; ReadKeepsDue(w, a, s, i); }
    } else if i: nat :| i < |s.attempts| && s.attempts[i].stage.Counting? && next == AfterCount(s, i) {
      if Sent(a, s, from_) { SentStays(a, s, next, from_); } else { hide Due; CountKeepsDue(a, s, i); }
    } else {
      var i: nat :| i < |s.attempts| && s.attempts[i].stage.Sending? && next == AfterSend(s, i);
      if Sent(a, s, from_) { SentStays(a, s, next, from_); } else { hide Due; SendKeepsDue(a, s, i, from_); }
    }
  }

  lemma SameRead(w: World, s: map<string, Row>, t: map<string, Row>, parent: string)
    requires parent in s && parent in t && s[parent] == t[parent]
    ensures ReadParent(w, s, parent) == ReadParent(w, t, parent)
  {}

  lemma {:induction false} RunKeepsDue(w: World, a: Wait, run: seq<Net>, n: nat)
    requires NetRun(w, a, run) && n < |run|
    requires Waiting(w, a, run[0].store) && Due(a, run[0])
    ensures Waiting(w, a, run[n].store) && |run[0].sent| <= |run[n].sent|
    ensures Due(a, run[n]) || Sent(a, run[n], |run[0].sent|)
  {
    hide Waiting, Due, Sent, NetStep;
    if n > 0 {
      RunKeepsDue(w, a, run, n - 1);
      StepKeepsDue(w, a, run[n - 1], run[n], |run[0].sent|);
    }
  }

  /** Main result: no wake-up is lost among siblings. If, when the parent comes
      to wait, some child it waits for is incomplete or some attempt has yet to
      look, then in every interleaving, once all those children are complete and
      every attempt on the parent is over, the join event has been dispatched;
      and the gate passes. */
  lemma NoLostWakeUp(w: World, a: Wait, run: seq<Net>)
    requires NetRun(w, a, run) && Waiting(w, a, run[0].store) && Due(a, run[0])
    requires
      var last := run[|run| - 1];
      AllFinished(a, last) && forall c :: !Incomplete(a, last.store, c)
    ensures
      var last := run[|run| - 1];
      Sent(a, last, |run[0].sent|) && AllChildrenComplete(last.store, a.parent, a.gen)
  {
    hide Waiting, NetStep, Sent;
    RunKeepsDue(w, a, run, |run| - 1);
    var last := run[|run| - 1];
    forall c | c in last.store && InScope(last.store[c], a.parent, a.gen) ensures last.store[c].complete {
      assert !Incomplete(a, last.store, c);
    }
  }

  /** The event dispatched is one the parent accepts: it resolves to its join or
      to an enabled transition that comes before it, and a join gets through the
      gate. */
  lemma DispatchedEventResolves(w: World, a: Wait, env: Env)
    requires Waiting(w, a, env.store) && AllChildrenComplete(env.store, a.parent, a.gen)
    ensures FindCandidateTransition(w, a.row.def, a.row.current, a.event, a.row.contextMap).Some?
    ensures
      var o := ProcessEvent(w, a.parent, a.event, env);
      o.Refused? ==> o.why == StepFailed || o.why == SaveFailed
  {
    hide AllChildrenComplete, StepAndChain, FindCandidateTransition, FindPendingJoinTransition, Enabled;
    AutoJoinResolves(w, a.row.def, a.row.current, a.row.contextMap);
  }

  // ---- When a wake-up is lost ---------------------------------------------

  /** Every child of the parent, of whatever generation, is complete. */
  ghost predicate NoneLeft(a: Wait, store: map<string, Row>) {
    forall k :: k in store && store[k].parentId == Some(a.parent) ==> store[k].complete
  }

  /** Complete children of the parent stay complete, and it gets no new ones. */
  ghost predicate StayComplete(a: Wait, s: Net, next: Net) {
    forall k :: k in next.store && next.store[k].parentId == Some(a.parent) ==>
      k in s.store && (s.store[k].complete ==> next.store[k].complete)
  }

  ghost predicate Silent(a: Wait, s: Net, from_: nat) {
    && NoneLeft(a, s.store) && AllFinished(a, s) && from_ <= |s.sent|
    && forall k :: from_ <= k < |s.sent| ==> s.sent[k].0 != a.parent
  }

  lemma CommitKeepsSilent(a: Wait, s: Net, next: Net, c: string, from_: nat)
    requires Silent(a, s, from_) && c != a.parent && CommitOf(s, next, c) && StayComplete(a, s, next)
    ensures Silent(a, next, from_)
  {}

  lemma StepKeepsSilent(w: World, a: Wait, s: Net, next: Net, from_: nat)
    requires Silent(a, s, from_) && NetStep(w, a, s, next) && StayComplete(a, s, next)
    ensures Silent(a, next, from_)
  {
    hide ReadParent, AllChildrenComplete, Undisturbed, InScope;
    if c :| c != a.parent && CommitOf(s, next, c) && Undisturbed(a, s, next) {
      CommitKeepsSilent(a, s, next, c, from_);
    } else if Elsewhere(a, s, next) {
    } else if i: nat :| i < |s.attempts| && s.attempts[i].stage.Spawned? && next == AfterRead(w, s, i) {
    } else if i: nat :| i < |s.attempts| && s.attempts[i].stage.Counting? && next == AfterCount(s, i) {
    } else {
      var i: nat :| i < |s.attempts| && s.attempts[i].stage.Sending? && next == AfterSend(s, i);
    }
  }

  lemma {:induction false} RunKeepsSilent(w: World, a: Wait, run: seq<Net>, n: nat)
    requires NetRun(w, a, run) && n < |run|
    requires NoneLeft(a, run[0].store) && AllFinished(a, run[0])
    requires forall i :: 0 <= i < |run| - 1 ==> StayComplete(a, run[i], run[i + 1])
    ensures Silent(a, run[n], |run[0].sent|)
  {
    hide NetStep, StayComplete, NoneLeft, AllFinished;
    if n > 0 {
      RunKeepsSilent(w, a, run, n - 1);
      StepKeepsSilent(w, a, run[n - 1], run[n], |run[0].sent|);
    }
  }

  /** The converse: if the parent comes to wait when all its children are complete
      and every attempt on it is over, then no attempt ever dispatches anything
      to it. This is what happens to a fork whose children finish before the
      parent's own transaction commits. */
  lemma LateParentIsNeverWoken(w: World, a: Wait, run: seq<Net>)
    requires NetRun(w, a, run)
    requires NoneLeft(a, run[0].store) && AllFinished(a, run[0])
    requires forall i :: 0 <= i < |run| - 1 ==> StayComplete(a, run[i], run[i + 1])
    ensures
      var last := run[|run| - 1];
      forall k :: |run[0].sent| <= k < |last.sent| ==> last.sent[k].0 != a.parent
  {
    hide NetStep, StayComplete, NoneLeft, AllFinished;
    RunKeepsSilent(w, a, run, |run| - 1);
  }

  // ---- What a fork leaves its parent with ---------------------------------

  /** Right after a fork, something is still due to wake its parent exactly when some
      target does not start in an end state: a child that is complete at once starts no
      attempt. */
  lemma ForkIsDue(w: World, id: string, defs: seq<Workflow>, gen: string, env: Env, a: Wait, s: Net)
    requires gen != "" && CreateBatch(w, id, defs, gen, env).ok && (forall k :: k in env.store ==> env.store[k].forkGeneration != gen)
    requires a.parent == id && a.gen == gen && s.store == CreateBatch(w, id, defs, gen, env).env.store && AllFinished(a, s)
    ensures Due(a, s) <==> exists i :: 0 <= i < |defs| && StartsIncomplete(defs[i])
  {
    hide CreateBatch, InitialPosition, IsEndState;
    var b := CreateBatch(w, id, defs, gen, env);
    BatchInserts(w, id, defs, gen, env);
    CreateBatchGrows(w, id, defs, gen, env);
    BatchOnly(w, id, defs, gen, env);
    forall i | 0 <= i < |defs| ensures Incomplete(a, s.store, b.ids[i]) <==> StartsIncomplete(defs[i]) {
      assert Inserted(env, b.env, b.ids[i], id, defs[i], gen);
    }
    if c :| Incomplete(a, s.store, c) {
      var i :| 0 <= i < |defs| && b.ids[i] == c;
      assert StartsIncomplete(defs[i]);
    }
  }

  ghost predicate StartsIncomplete(def: Workflow) {
    def.states != [] && InitialPosition(def.states[0]).Some? && !IsEndState(def, InitialPosition(def.states[0]).value)
  }

  /** A batch inserts nothing but its own children. */
  lemma {:induction false} BatchOnly(w: World, id: string, defs: seq<Workflow>, gen: string, env: Env)
    requires CreateBatch(w, id, defs, gen, env).ok
    ensures
      var b := CreateBatch(w, id, defs, gen, env);
      forall k :: k in b.env.store ==> k in env.store || k in b.ids
  {
    hide InitialPosition, ChildRow, Record;
    if defs != [] { BatchOnly(w, id, defs[..|defs| - 1], gen, env); }
  }

  // ---- Other operations happen elsewhere ----------------------------------

  /** Creating an instance. */
  lemma CreationIsElsewhere(w: World, def: Workflow, env: Env, a: Wait, s: Net)
    requires w.uuid(env.tick) !in env.store && s.store == env.store && a.parent in s.store
    ensures Elsewhere(a, s, s.(store := NewInstance(w, def, env).0.store))
  {
    hide Chain, InitialPosition;
    Creation.CreationAddsOneRow(w, def, env);
    if NewInstance(w, def, env).1.Some? {
      var at := InitialPosition(def.states[0]).value;
      ChainKeepsIdentity(w, w.uuid(env.tick), Begin(Fresh(def, at), env.(tick := env.tick + 1)), 0);
    }
  }

  /** Creating a child by hand: it joins no fork's cohort. */
  lemma ChildIsElsewhere(w: World, parentId: string, def: Workflow, env: Env, a: Wait, s: Net)
    requires s.store == env.store && a.parent in s.store && (a.gen != "" || parentId != a.parent)
    ensures Elsewhere(a, s, s.(store := CreateChild(w, parentId, def, "", env).0.store))
  {
    hide InitialPosition, Record;
    if CreateChild(w, parentId, def, "", env).1.Some? { CreateChildShape(w, parentId, def, "", env); }
  }

  /** Withdrawing a child the parent does not wait for. */
  lemma WithdrawalIsElsewhere(parentId: string, childId: string, env: Env, a: Wait, s: Net)
    requires s.store == env.store && a.parent in s.store && childId != a.parent
    requires childId in env.store ==> !InScope(env.store[childId], a.parent, a.gen)
    ensures Elsewhere(a, s, s.(store := Withdraw(parentId, childId, env).store))
  {}
}
