/** Do-activities and deferred-transition timers (engine/timers.go,
    engine/doactivity.go, engine/transitions.go:184-197).

    A task is started with a cancel function that is filed under its instance.
    Stopping takes the filed functions under a lock and calls them after the lock
    is released, so a task can be unfiled and not cancelled yet: it is then being
    stopped. An evicted actor stops its instance's tasks while a new actor may
    already be serving the same instance. */
module Activities {
  import opened Model
  import opened Persistence
  import opened Lookup
  import opened Children
  import opened Actions
  import opened Transitions
  import opened WorkflowOps

  datatype Work = Timer(t: Transition) | DoActivity(actions: seq<Action>)

  datatype Task = Task(id: string, work: Work, cancelled: bool, fired: bool)

  /** `stopping` holds tasks whose cancel function has been taken and not
      called yet. */
  datatype Registry = Registry(
    tasks: seq<Task>,
    timers: map<string, seq<nat>>,
    activities: map<string, nat>,
    stopping: set<nat>)

  function Filed(m: map<string, seq<nat>>, id: string): seq<nat> {
    if id in m then m[id] else []
  }

  // ---- The operations -----------------------------------------------------

  function TakeTimers(r: Registry, id: string): Registry {
    r.(timers := r.timers - {id}, stopping := r.stopping + set k | k in Filed(r.timers, id))
  }

  function TakeActivity(r: Registry, id: string): Registry {
    if id in r.activities then r.(activities := r.activities - {id}, stopping := r.stopping + {r.activities[id]}) else r
  }

  function Cancel(r: Registry, k: nat): Registry
    requires k < |r.tasks|
  {
    r.(tasks := r.tasks[k := r.tasks[k].(cancelled := true)], stopping := r.stopping - {k})
  }

  predicate Known(r: Registry, ks: seq<nat>) {
    forall i :: 0 <= i < |ks| ==> ks[i] < |r.tasks|
  }

  /** Cancels each task in `ks`, one after the other. */
  function CancelAll(r: Registry, ks: seq<nat>): (c: Registry)
    requires Known(r, ks)
    ensures |c.tasks| == |r.tasks|
  {
    if ks == [] then r else Cancel(CancelAll(r, ks[..|ks| - 1]), ks[|ks| - 1])
  }

  /** After stopping, exactly those tasks that were filed are cancelled, and none of
      them is left half stopped. */
  lemma {:induction false} CancelAllCancels(r: Registry, ks: seq<nat>)
    requires Known(r, ks)
    ensures
      var c := CancelAll(r, ks);
      && (forall i :: 0 <= i < |r.tasks| ==> c.tasks[i] == if i in ks then r.tasks[i].(cancelled := true) else r.tasks[i])
      && c.stopping == r.stopping - (set k | k in ks)
      && c.timers == r.timers && c.activities == r.activities
  {
    if ks != [] {
      CancelAllCancels(r, ks[..|ks| - 1]);
      assert ks == ks[..|ks| - 1] + [ks[|ks| - 1]];
    }
  }

  function StartActivity(r: Registry, id: string, actions: seq<Action>): Registry {
    if actions == [] then r
    else r.(tasks := r.tasks + [Task(id, DoActivity(actions), false, false)], activities := r.activities[id := |r.tasks|])
  }

  /** A transition whose delay does not parse is skipped. */
  function StartTimers(r: Registry, parses: string -> bool, id: string, ts: seq<Transition>): Registry {
    if ts == [] then r
    else
      var n := |ts| - 1;
      var s := StartTimers(r, parses, id, ts[..n]);
      if !parses(ts[n].after) then s
      else s.(tasks := s.tasks + [Task(id, Timer(ts[n]), false, false)],
              timers := s.timers[id := Filed(s.timers, id) + [|s.tasks|]])
  }

  class ActivityRegistry {
    var tasks: seq<Task>
    var timerStops: map<string, seq<nat>>
    var doActivityStops: map<string, nat>
    ghost var stopping: set<nat>

    ghost function State(): Registry
      reads this
    {
      Registry(tasks, timerStops, doActivityStops, stopping)
    }

    constructor ()
      ensures State() == Registry([], map[], map[], {})
    {
      tasks, timerStops, doActivityStops, stopping := [], map[], map[], {};
    }

    method StopTimers(instanceId: string)
      requires Known(State(), Filed(timerStops, instanceId))
      modifies this
      ensures State() == CancelAll(TakeTimers(old(State()), instanceId), Filed(old(timerStops), instanceId))
    {
      var cancels := Filed(timerStops, instanceId);
      timerStops := timerStops - {instanceId};
      stopping := stopping + set k | k in cancels;
      ghost var taken := State();
      for i := 0 to |cancels|
        invariant Known(taken, cancels) && Known(taken, cancels[..i])
        invariant State() == CancelAll(taken, cancels[..i])
      {
        assert cancels[..i + 1][..i] == cancels[..i];
        var k := cancels[i];
        tasks := tasks[k := tasks[k].(cancelled := true)];
        stopping := stopping - {k};
      }
      assert cancels[..|cancels|] == cancels;
    }

    method StopDoActivity(instanceId: string)
      requires instanceId in doActivityStops ==> doActivityStops[instanceId] < |tasks|
      modifies this
      ensures
        var r := TakeActivity(old(State()), instanceId);
        State() == if instanceId in old(doActivityStops) then Cancel(r, old(doActivityStops)[instanceId]) else r
    {
      if instanceId in doActivityStops {
        var k := doActivityStops[instanceId];
        doActivityStops := doActivityStops - {instanceId};
        stopping := stopping + {k};
        tasks := tasks[k := tasks[k].(cancelled := true)];
        stopping := stopping - {k};
      }
    }

    method StartDoActivity(instanceId: string, actions: seq<Action>)
      modifies this
      ensures State() == StartActivity(old(State()), instanceId, actions)
    {
      if actions != [] {
        doActivityStops := doActivityStops[instanceId := |tasks|];
        tasks := tasks + [Task(instanceId, DoActivity(actions), false, false)];
      }
    }

    method StartDeferred(parses: string -> bool, instanceId: string, transitions: seq<Transition>)
      modifies this
      ensures State() == StartTimers(old(State()), parses, instanceId, transitions)
    {
      for i := 0 to |transitions|
        invariant State() == StartTimers(old(State()), parses, instanceId, transitions[..i])
      {
        assert transitions[..i + 1][..i] == transitions[..i];
        if parses(transitions[i].after) {
          timerStops := timerStops[instanceId := Filed(timerStops, instanceId) + [|tasks|]];
          tasks := tasks + [Task(instanceId, Timer(transitions[i]), false, false)];
        }
      }
      assert transitions[..|transitions|] == transitions;
    }
  }

  // ---- What the engine does around them -----------------------------------

  lemma {:induction false} ChainUnmoved(w: World, id: string, r: Run, hop: nat)
    requires hop <= MAX_AUTOMATIC_HOPS
    ensures
      var s := Chain(w, id, r, hop);
      (r.moved ==> s.Moved()) && (s.Done? && !s.run.moved ==> s.run.row.current == r.row.current)
    decreases MAX_AUTOMATIC_HOPS - hop
  {
    hide ApplyMove, ExecuteActions, FindAutomaticTransition;
    if hop < MAX_AUTOMATIC_HOPS {
      var t := FindAutomaticTransition(w, r.row.def, r.row.current, r.ctx);
      if t.Some? {
        ApplyUnmoved(w, id, t.value, r);
        var s := Apply(w, id, t.value, r);
        if s.Done? { ChainUnmoved(w, id, s.run, hop + 1); }
      }
    }
  }

  lemma ApplyUnmoved(w: World, id: string, t: Transition, r: Run)
    ensures
      var s := Apply(w, id, t, r);
      && (r.moved || t.kind != InternalKind ==> s.Moved())
      && (s.Done? && !s.run.moved ==> s.run.row.current == r.row.current)
  {
    hide Depart, Settle, ExecuteActions;
  }

  /** An event that left no state, and so stopped nothing, commits the position it
      found: tasks armed for it still fit. */
  lemma UnmovedKeepsPosition(w: World, id: string, event: string, env: Env)
    requires ProcessEvent(w, id, event, env).Committed? && !ProcessEvent(w, id, event, env).run.moved
    ensures ProcessEvent(w, id, event, env).run.row.current == env.store[id].current
  {
    hide Apply, Chain, FindCandidateTransition, AllChildrenComplete;
    var row := env.store[id];
    var t := FindCandidateTransition(w, row.def, row.current, event, row.contextMap).value;
    ApplyUnmoved(w, id, t, Begin(row, env));
    ChainUnmoved(w, id, Apply(w, id, t, Begin(row, env)).run, 0);
  }

  // ---- The interleaved system ---------------------------------------------

  /** How far the actor serving an instance is: not in an event, in one with the
      do-activity stopped or not and the timers stopped or not, or past a commit
      with tasks still to be armed. */
  datatype Stage = Idle | InEvent(activityStopped: bool, timersStopped: bool) | ArmingActivity | ArmingTimers

  datatype Sys = Sys(rows: map<string, Row>, stages: map<string, Stage>, reg: Registry)

  datatype Label =
    | Create(id: string, row: Row)
    | Begin_(id: string)
    | OwnTakeActivity(id: string)
    | OwnTakeTimers(id: string)
    | Commit_(id: string, row: Row, moved: bool)
    | RollBack(id: string)
    | ArmActivity(id: string)
    | ArmTimers(id: string)
    | OtherTakeActivity(id: string)   // eviction or shutdown
    | OtherTakeTimers(id: string)
    | CallCancel(k: nat)
    | Fire(k: nat)

  /** Which step can happen. A move commits only after both stops; arming at
      creation precedes the first event. */
  ghost predicate Possible(s: Sys, l: Label) {
    match l
    case Create(id, _) => id !in s.rows
    case Begin_(id) => id in s.rows && id in s.stages && s.stages[id] == Idle
    case OwnTakeActivity(id) => id in s.stages && s.stages[id].InEvent?
    case OwnTakeTimers(id) => id in s.stages && s.stages[id].InEvent? && s.stages[id].activityStopped
    case Commit_(id, row, moved) =>
      && id in s.rows && id in s.stages && s.stages[id].InEvent?
      && (moved ==> s.stages[id].timersStopped && s.stages[id].activityStopped)
      && (!moved ==> row.current == s.rows[id].current)
    case RollBack(id) => id in s.stages && s.stages[id].InEvent?
    case ArmActivity(id) => id in s.rows && id in s.stages && s.stages[id] == ArmingActivity
    case ArmTimers(id) => id in s.rows && id in s.stages && s.stages[id] == ArmingTimers
    case OtherTakeActivity(_) => true
    case OtherTakeTimers(_) => true
    case CallCancel(k) => k in s.reg.stopping && k < |s.reg.tasks|
    case Fire(k) => k < |s.reg.tasks| && Waits(s.reg.tasks[k])
  }

  /** A timer that has neither fired nor been cancelled. */
  predicate Waits(t: Task) {
    t.work.Timer? && !t.cancelled && !t.fired
  }

  function Next(w: World, parses: string -> bool, s: Sys, l: Label): Sys
    requires Possible(s, l)
  {
    match l
    case Create(id, row) => s.(rows := s.rows[id := row], stages := s.stages[id := ArmingActivity])
    case Begin_(id) => s.(stages := s.stages[id := InEvent(false, false)])
    case OwnTakeActivity(id) =>
      s.(reg := TakeActivity(s.reg, id), stages := s.stages[id := s.stages[id].(activityStopped := true)])
    case OwnTakeTimers(id) =>
      s.(reg := TakeTimers(s.reg, id), stages := s.stages[id := s.stages[id].(timersStopped := true)])
    case Commit_(id, row, moved) =>
      s.(rows := s.rows[id := row], stages := s.stages[id := if moved then ArmingActivity else Idle])
    case RollBack(id) => s.(stages := s.stages[id := Idle])
    case ArmActivity(id) =>
      s.(reg := StartActivity(s.reg, id, s.rows[id].current.EffectiveState().DoActions()), stages := s.stages[id := ArmingTimers])
    case ArmTimers(id) =>
      var row := s.rows[id];
      s.(reg := StartTimers(s.reg, parses, id, FindDeferredTransitions(w, row.def, row.current, row.contextMap)),
         stages := s.stages[id := Idle])
    case OtherTakeActivity(id) => s.(reg := TakeActivity(s.reg, id))
    case OtherTakeTimers(id) => s.(reg := TakeTimers(s.reg, id))
    case CallCancel(k) => s.(reg := Cancel(s.reg, k))
    case Fire(k) => s.(reg := s.reg.(tasks := s.reg.tasks[k := s.reg.tasks[k].(fired := true)]))
  }

  ghost predicate LeavesFrom(t: Transition, at: StateContainer) {
    t.source == at.state.Id() || (at.substate.Some? && t.source == at.substate.value.Id())
  }

  /** A filed timer belongs to the instance and leaves from its committed
      position. */
  ghost predicate TimerFits(s: Sys, id: string, k: nat) {
    && k < |s.reg.tasks| && s.reg.tasks[k].id == id && s.reg.tasks[k].work.Timer?
    && id in s.rows && LeavesFrom(s.reg.tasks[k].work.t, s.rows[id].current)
  }

  /** A filed activity belongs to the instance and is that of its committed
      position. */
  ghost predicate ActivityFits(s: Sys, id: string, k: nat) {
    && k < |s.reg.tasks| && s.reg.tasks[k].id == id && id in s.rows
    && s.reg.tasks[k].work == DoActivity(s.rows[id].current.EffectiveState().DoActions())
  }

  ghost predicate IsFiled(r: Registry, k: nat)
    requires k < |r.tasks|
  {
    if r.tasks[k].work.Timer? then k in Filed(r.timers, r.tasks[k].id)
    else r.tasks[k].id in r.activities && r.activities[r.tasks[k].id] == k
  }

  /** What an actor has stopped is not filed, until it arms again. */
  ghost predicate StageFits(s: Sys, id: string)
    requires id in s.stages
  {
    match s.stages[id]
    case Idle => true
    case InEvent(a, t) => (a ==> id !in s.reg.activities) && (t ==> id !in s.reg.timers)
    case ArmingActivity => id !in s.reg.activities && id !in s.reg.timers
    case ArmingTimers => id !in s.reg.timers
  }

  ghost predicate Inv(s: Sys) {
    && (forall id, k :: id in s.reg.timers && k in s.reg.timers[id] ==> TimerFits(s, id, k))
    && (forall id :: id in s.reg.activities ==> ActivityFits(s, id, s.reg.activities[id]))
    && (forall k :: 0 <= k < |s.reg.tasks| ==> s.reg.tasks[k].cancelled || k in s.reg.stopping || IsFiled(s.reg, k))
    && (forall id :: id in s.stages ==> StageFits(s, id))
    && s.stages.Keys == s.rows.Keys && s.reg.timers.Keys <= s.rows.Keys
    && (forall k :: k in s.reg.stopping ==> k < |s.reg.tasks|)
  }

  lemma {:induction false} StartTimersFiles(r: Registry, parses: string -> bool, id: string, ts: seq<Transition>)
    ensures
      var s := StartTimers(r, parses, id, ts);
      && |r.tasks| <= |s.tasks| && s.tasks[..|r.tasks|] == r.tasks
      && s.activities == r.activities && s.stopping == r.stopping
      && (forall x :: x != id ==> (x in s.timers <==> x in r.timers) && Filed(s.timers, x) == Filed(r.timers, x))
      && (forall k :: k in Filed(s.timers, id) ==> k in Filed(r.timers, id) || |r.tasks| <= k < |s.tasks|)
      && (forall k :: k in Filed(r.timers, id) ==> k in Filed(s.timers, id))
      && (forall k :: |r.tasks| <= k < |s.tasks| ==>
            s.tasks[k].id == id && s.tasks[k].work.Timer? && s.tasks[k].work.t in ts && k in Filed(s.timers, id))
  {
    if ts != [] {
      var n := |ts| - 1;
      StartTimersFiles(r, parses, id, ts[..n]);
      assert ts[n] in ts && forall t :: t in ts[..n] ==> t in ts;
    }
  }

  /** Adding timers that leave from the committed position, to an instance that
      has none. */
  ghost predicate OnlyTimers(s: Sys, n: Sys, id: string) {
    && n.rows == s.rows && n.stages == s.stages[id := Idle] && id in s.rows
    && |s.reg.tasks| <= |n.reg.tasks|
    && (forall k :: 0 <= k < |s.reg.tasks| ==> n.reg.tasks[k] == s.reg.tasks[k])
    && n.reg.activities == s.reg.activities && n.reg.stopping == s.reg.stopping
    && (forall x :: x != id ==> (x in n.reg.timers <==> x in s.reg.timers) && Filed(n.reg.timers, x) == Filed(s.reg.timers, x))
    && (forall k :: k in Filed(n.reg.timers, id) ==> |s.reg.tasks| <= k < |n.reg.tasks|)
    && (forall k :: |s.reg.tasks| <= k < |n.reg.tasks| ==>
          n.reg.tasks[k].id == id && n.reg.tasks[k].work.Timer?
          && LeavesFrom(n.reg.tasks[k].work.t, s.rows[id].current) && k in Filed(n.reg.timers, id))
  }

  lemma TimersFitStill(s: Sys, n: Sys, id: string)
    requires Inv(s) && id in s.stages && s.stages[id] == ArmingTimers && OnlyTimers(s, n, id)
    ensures forall x, k :: x in n.reg.timers && k in n.reg.timers[x] ==> TimerFits(n, x, k)
  {
    hide IsFiled, StageFits, LeavesFrom;
    forall x, k | x in n.reg.timers && k in n.reg.timers[x] ensures TimerFits(n, x, k) {
      if x == id {
        assert k in Filed(n.reg.timers, id);
      } else {
        assert k in Filed(n.reg.timers, x) && k in s.reg.timers[x];
        assert TimerFits(s, x, k);
      }
    }
  }

  lemma TimersKeep(s: Sys, n: Sys, id: string)
    requires Inv(s) && id in s.stages && s.stages[id] == ArmingTimers && OnlyTimers(s, n, id)
    ensures Inv(n)
  {
    hide LeavesFrom, TimerFits;
    TimersFitStill(s, n, id);
    forall x | x in n.reg.activities ensures ActivityFits(n, x, n.reg.activities[x]) {
      assert ActivityFits(s, x, s.reg.activities[x]);
    }
    assert StageFits(s, id);
    forall k | 0 <= k < |n.reg.tasks| ensures n.reg.tasks[k].cancelled || k in n.reg.stopping || IsFiled(n.reg, k) {
      if k < |s.reg.tasks| { assert s.reg.tasks[k].cancelled || k in s.reg.stopping || IsFiled(s.reg, k); }
    }
    forall x | x in n.stages ensures StageFits(n, x) { assert StageFits(s, x); }
  }

  lemma ArmTimersKeeps(w: World, parses: string -> bool, s: Sys, id: string)
    requires Inv(s) && Possible(s, ArmTimers(id))
    ensures Inv(Next(w, parses, s, ArmTimers(id)))
  {
    hide FindDeferredTransitions, StartTimers, ScopedCandidates, ActivityFits, TimerFits;
    var row := s.rows[id];
    var ts := FindDeferredTransitions(w, row.def, row.current, row.contextMap);
    var n := Next(w, parses, s, ArmTimers(id));
    DeferredIsFilter(w, row.def, row.current, row.contextMap);
    StartTimersFiles(s.reg, parses, id, ts);
    assert OnlyTimers(s, n, id) by {
      assert StageFits(s, id);
      forall k | 0 <= k < |s.reg.tasks| ensures n.reg.tasks[k] == s.reg.tasks[k] {
        assert n.reg.tasks[..|s.reg.tasks|][k] == n.reg.tasks[k];
      }
    }
    TimersKeep(s, n, id);
  }

  lemma ArmActivityKeeps(w: World, parses: string -> bool, s: Sys, id: string)
    requires Inv(s) && Possible(s, ArmActivity(id))
    ensures Inv(Next(w, parses, s, ArmActivity(id)))
  {
    hide LeavesFrom, FindDeferredTransitions, StartTimers;
    var n := Next(w, parses, s, ArmActivity(id));
    assert StageFits(s, id);
    forall k | 0 <= k < |n.reg.tasks| ensures n.reg.tasks[k].cancelled || k in n.reg.stopping || IsFiled(n.reg, k) {
      if k < |s.reg.tasks| { assert s.reg.tasks[k].cancelled || k in s.reg.stopping || IsFiled(s.reg, k); }
    }
    forall x, k | x in n.reg.timers && k in n.reg.timers[x] ensures TimerFits(n, x, k) { assert TimerFits(s, x, k); }
    forall x | x in n.reg.activities ensures ActivityFits(n, x, n.reg.activities[x]) {
      if x != id { assert ActivityFits(s, x, s.reg.activities[x]); }
    }
    forall x | x in n.stages ensures StageFits(n, x) { assert StageFits(s, x); }
  }

  lemma CommitKeeps(w: World, parses: string -> bool, s: Sys, id: string, row: Row, moved: bool)
    requires Inv(s) && Possible(s, Commit_(id, row, moved))
    ensures Inv(Next(w, parses, s, Commit_(id, row, moved)))
  {
    var n := Next(w, parses, s, Commit_(id, row, moved));
    assert StageFits(s, id);
    forall x, k | x in n.reg.timers && k in n.reg.timers[x] ensures TimerFits(n, x, k) { assert TimerFits(s, x, k); }
    forall x | x in n.reg.activities ensures ActivityFits(n, x, n.reg.activities[x]) {
      assert ActivityFits(s, x, s.reg.activities[x]);
    }
    forall x | x in n.stages ensures StageFits(n, x) { assert StageFits(s, x); }
  }

  /** Steps of the registry alone: taking, cancelling, firing. They unfile tasks
      only into `stopping`, and change no task but to cancel or fire it. */
  ghost predicate OnlyLess(s: Sys, n: Sys) {
    && n.rows == s.rows && n.stages.Keys == s.stages.Keys
    && |n.reg.tasks| == |s.reg.tasks|
    && (forall k :: 0 <= k < |s.reg.tasks| ==>
          && n.reg.tasks[k].id == s.reg.tasks[k].id && n.reg.tasks[k].work == s.reg.tasks[k].work
          && (s.reg.tasks[k].cancelled ==> n.reg.tasks[k].cancelled)
          && (k in s.reg.stopping ==> k in n.reg.stopping || n.reg.tasks[k].cancelled)
          && (IsFiled(s.reg, k) ==> IsFiled(n.reg, k) || k in n.reg.stopping))
    && (forall id :: id in n.reg.timers ==> id in s.reg.timers && n.reg.timers[id] == s.reg.timers[id])
    && (forall id :: id in n.reg.activities ==> id in s.reg.activities && n.reg.activities[id] == s.reg.activities[id])
    && (forall k :: k in n.reg.stopping ==> k < |n.reg.tasks|)
    && (forall id :: id in n.stages ==> StageFits(n, id))
  }

  lemma LessKeeps(s: Sys, n: Sys)
    requires Inv(s) && OnlyLess(s, n)
    ensures Inv(n)
  {
    hide IsFiled, StageFits;
    forall x, k | x in n.reg.timers && k in n.reg.timers[x] ensures TimerFits(n, x, k) { assert TimerFits(s, x, k); }
    forall x | x in n.reg.activities ensures ActivityFits(n, x, n.reg.activities[x]) {
      assert ActivityFits(s, x, s.reg.activities[x]);
    }
    forall k | 0 <= k < |n.reg.tasks| ensures n.reg.tasks[k].cancelled || k in n.reg.stopping || IsFiled(n.reg, k) {
      assert s.reg.tasks[k].cancelled || k in s.reg.stopping || IsFiled(s.reg, k);
    }
  }

  lemma TakeTimersLess(s: Sys, id: string, stages: map<string, Stage>)
    requires Inv(s) && stages.Keys == s.stages.Keys
    requires forall x :: x in stages ==> stages[x] == s.stages[x] || (x == id && s.stages[x].InEvent? && stages[x] == s.stages[x].(timersStopped := true))
    ensures OnlyLess(s, Sys(s.rows, stages, TakeTimers(s.reg, id)))
  {
    var n := Sys(s.rows, stages, TakeTimers(s.reg, id));
    forall x | x in n.stages ensures StageFits(n, x) { assert StageFits(s, x); }
    forall k | k in n.reg.stopping ensures k < |n.reg.tasks| {
      if k !in s.reg.stopping { assert TimerFits(s, id, k); }
    }
  }

  lemma TakeActivityLess(s: Sys, id: string, stages: map<string, Stage>)
    requires Inv(s) && stages.Keys == s.stages.Keys
    requires forall x :: x in stages ==> stages[x] == s.stages[x] || (x == id && s.stages[x].InEvent? && stages[x] == s.stages[x].(activityStopped := true))
    ensures OnlyLess(s, Sys(s.rows, stages, TakeActivity(s.reg, id)))
  {
    var n := Sys(s.rows, stages, TakeActivity(s.reg, id));
    forall x | x in n.stages ensures StageFits(n, x) { assert StageFits(s, x); }
    if id in s.reg.activities { assert ActivityFits(s, id, s.reg.activities[id]); }
  }

  lemma MarkLess(s: Sys, k: nat, t: Task, stopping: set<nat>)
    requires Inv(s) && k < |s.reg.tasks| && t.id == s.reg.tasks[k].id && t.work == s.reg.tasks[k].work
    requires s.reg.tasks[k].cancelled ==> t.cancelled
    requires stopping == s.reg.stopping || (stopping == s.reg.stopping - {k} && t.cancelled)
    ensures OnlyLess(s, s.(reg := s.reg.(tasks := s.reg.tasks[k := t], stopping := stopping)))
  {
    var n := s.(reg := s.reg.(tasks := s.reg.tasks[k := t], stopping := stopping));
    forall x | x in n.stages ensures StageFits(n, x) { assert StageFits(s, x); }
  }

  lemma RegistryKeeps(w: World, parses: string -> bool, s: Sys, l: Label)
    requires Inv(s) && Possible(s, l)
    requires l.OwnTakeActivity? || l.OwnTakeTimers? || l.OtherTakeActivity? || l.OtherTakeTimers? || l.CallCancel? || l.Fire?
    ensures Inv(Next(w, parses, s, l))
  {
    hide Inv, OnlyLess, TakeTimers, TakeActivity;
    var n := Next(w, parses, s, l);
    KnownStages(s);
    match l {
      case OwnTakeActivity(id) => TakeActivityLess(s, id, n.stages);
      case OwnTakeTimers(id) => TakeTimersLess(s, id, n.stages);
      case OtherTakeActivity(id) => TakeActivityLess(s, id, n.stages);
      case OtherTakeTimers(id) => TakeTimersLess(s, id, n.stages);
      case CallCancel(k) => MarkLess(s, k, n.reg.tasks[k], n.reg.stopping);
      case Fire(k) => MarkLess(s, k, n.reg.tasks[k], n.reg.stopping);
    }
    LessKeeps(s, n);
  }

  lemma KnownStages(s: Sys)
    requires Inv(s)
    ensures s.stages.Keys == s.rows.Keys
  {}

  lemma StageKeeps(w: World, parses: string -> bool, s: Sys, l: Label)
    requires Inv(s) && Possible(s, l) && (l.Create? || l.Begin_? || l.RollBack?)
    ensures Inv(Next(w, parses, s, l))
  {
    var n := Next(w, parses, s, l);
    forall x, k | x in n.reg.timers && k in n.reg.timers[x] ensures TimerFits(n, x, k) { assert TimerFits(s, x, k); }
    forall x | x in n.reg.activities ensures ActivityFits(n, x, n.reg.activities[x]) {
      assert ActivityFits(s, x, s.reg.activities[x]);
    }
    forall x | x in n.stages ensures StageFits(n, x) { if x in s.stages { assert StageFits(s, x); } }
  }

  lemma StepKeeps(w: World, parses: string -> bool, s: Sys, l: Label)
    requires Inv(s) && Possible(s, l)
    ensures Inv(Next(w, parses, s, l))
  {
    hide Inv, Possible, Next;
    match l
    case ArmTimers(id) => ArmTimersKeeps(w, parses, s, id);
    case ArmActivity(id) => ArmActivityKeeps(w, parses, s, id);
    case Commit_(id, row, moved) => CommitKeeps(w, parses, s, id, row, moved);
    case Create(_, _) => StageKeeps(w, parses, s, l);
    case Begin_(_) => StageKeeps(w, parses, s, l);
    case RollBack(_) => StageKeeps(w, parses, s, l);
    case _ => RegistryKeeps(w, parses, s, l);
  }

  const START := Sys(map[], map[], Registry([], map[], map[], {}))

  /** The steps `ls` can be taken from `s` and lead to `t`. */
  ghost predicate Reaches(w: World, parses: string -> bool, s: Sys, ls: seq<Label>, t: Sys) {
    if ls == [] then t == s
    else
      var n := |ls| - 1;
      exists m :: Reaches(w, parses, s, ls[..n], m) && Possible(m, ls[n]) && t == Next(w, parses, m, ls[n])
  }

  lemma ReachesMore(w: World, parses: string -> bool, s: Sys, ls: seq<Label>, m: Sys, l: Label)
    requires Reaches(w, parses, s, ls, m) && Possible(m, l)
    ensures Reaches(w, parses, s, ls + [l], Next(w, parses, m, l))
  {
    hide Possible, Next;
    assert (ls + [l])[..|ls|] == ls;
  }

  lemma {:induction false} RunInv(w: World, parses: string -> bool, ls: seq<Label>, s: Sys)
    requires Reaches(w, parses, START, ls, s)
    ensures Inv(s)
  {
    hide Possible, Next;
    if ls != [] {
      hide Inv;
      var n := |ls| - 1;
      var m :| Reaches(w, parses, START, ls[..n], m) && Possible(m, ls[n]) && s == Next(w, parses, m, ls[n]);
      RunInv(w, parses, ls[..n], m);
      StepKeeps(w, parses, m, ls[n]);
    }
  }

  /** A task that is neither cancelled nor being stopped. */
  ghost predicate Running(r: Registry, k: nat) {
    k < |r.tasks| && !r.tasks[k].cancelled && k !in r.stopping
  }

  /** Main result: in every interleaving, rolled-back events and evictions
      included, a running task is filed where stopping will find it; a running
      timer leaves from the committed position; a running activity is that of the
      committed position, and there is at most one per instance. */
  lemma RunningTasksFit(w: World, parses: string -> bool, ls: seq<Label>, s: Sys, k: nat)
    requires Reaches(w, parses, START, ls, s) && Running(s.reg, k)
    ensures
      var t := s.reg.tasks[k];
      && IsFiled(s.reg, k) && t.id in s.rows
      && (t.work.Timer? ==> LeavesFrom(t.work.t, s.rows[t.id].current))
      && (t.work.DoActivity? ==> t.work.actions == s.rows[t.id].current.EffectiveState().DoActions())
      && (t.work.DoActivity? ==>
            forall j: nat :: Running(s.reg, j) && s.reg.tasks[j].work.DoActivity? && s.reg.tasks[j].id == t.id ==> j == k)
  {
    hide Reaches, StageFits, LeavesFrom;
    RunInv(w, parses, ls, s);
    var t := s.reg.tasks[k];
    if t.work.Timer? {
      assert k in s.reg.timers[t.id] && TimerFits(s, t.id, k);
    } else {
      assert ActivityFits(s, t.id, s.reg.activities[t.id]);
    }
    forall j: nat | Running(s.reg, j) && s.reg.tasks[j].work.DoActivity? && s.reg.tasks[j].id == t.id ensures IsFiled(s.reg, j) {}
  }

  // ---- Counting uncancelled activities ------------------------------------

  /** A do-activity of the instance that has not been cancelled. */
  predicate LiveActivity(r: Registry, k: nat, id: string) {
    k < |r.tasks| && r.tasks[k].id == id && r.tasks[k].work.DoActivity? && !r.tasks[k].cancelled
  }

  /** A filed activity is alive, and nobody is stopping it. */
  ghost predicate FiledAlive(s: Sys) {
    forall id :: id in s.reg.activities ==>
      s.reg.activities[id] !in s.reg.stopping && LiveActivity(s.reg, s.reg.activities[id], id)
  }

  lemma TakeKeepsAlive(s: Sys, id: string)
    requires Inv(s) && FiledAlive(s)
    ensures FiledAlive(s.(reg := TakeActivity(s.reg, id))) && FiledAlive(s.(reg := TakeTimers(s.reg, id)))
  {
    hide StageFits, IsFiled;
    assert forall k :: k in Filed(s.reg.timers, id) ==> TimerFits(s, id, k);
    forall x | x in s.reg.activities ensures s.reg.activities[x] !in Filed(s.reg.timers, id) {
      assert ActivityFits(s, x, s.reg.activities[x]);
    }
  }

  lemma ArmKeepsAlive(w: World, parses: string -> bool, s: Sys, l: Label)
    requires Inv(s) && FiledAlive(s) && Possible(s, l) && (l.ArmActivity? || l.ArmTimers?)
    ensures FiledAlive(Next(w, parses, s, l))
  {
    hide FindDeferredTransitions, StartTimers, StageFits, TimerFits, IsFiled;
    if l.ArmTimers? {
      var row := s.rows[l.id];
      StartTimersFiles(s.reg, parses, l.id, FindDeferredTransitions(w, row.def, row.current, row.contextMap));
      var n := Next(w, parses, s, l);
      forall k | 0 <= k < |s.reg.tasks| ensures n.reg.tasks[k] == s.reg.tasks[k] {
        assert n.reg.tasks[..|s.reg.tasks|][k] == n.reg.tasks[k];
      }
    }
  }

  lemma AliveStep(w: World, parses: string -> bool, s: Sys, l: Label)
    requires Inv(s) && FiledAlive(s) && Possible(s, l)
    ensures FiledAlive(Next(w, parses, s, l))
  {
    hide Inv;
    if l.ArmActivity? || l.ArmTimers? {
      ArmKeepsAlive(w, parses, s, l);
    } else {
      hide FindDeferredTransitions, StartTimers, StartActivity;
      match l {
        case OwnTakeActivity(id) => TakeKeepsAlive(s, id);
        case OwnTakeTimers(id) => TakeKeepsAlive(s, id);
        case OtherTakeActivity(id) => TakeKeepsAlive(s, id);
        case OtherTakeTimers(id) => TakeKeepsAlive(s, id);
        case _ =>
      }
    }
  }

  lemma {:induction false} RunAlive(w: World, parses: string -> bool, ls: seq<Label>, s: Sys)
    requires Reaches(w, parses, START, ls, s)
    ensures FiledAlive(s)
  {
    hide Possible, Next, Inv;
    if ls != [] {
      hide FiledAlive;
      var n := |ls| - 1;
      var m :| Reaches(w, parses, START, ls[..n], m) && Possible(m, ls[n]) && s == Next(w, parses, m, ls[n]);
      RunAlive(w, parses, ls[..n], m);
      RunInv(w, parses, ls[..n], m);
      AliveStep(w, parses, m, ls[n]);
    }
  }

  ghost predicate AtMostOneLive(r: Registry, id: string) {
    forall j: nat, k: nat :: LiveActivity(r, j, id) && LiveActivity(r, k, id) ==> j == k
  }

  /** Nobody is in the middle of stopping an activity of the instance, apart from one
      when none is filed. */
  ghost predicate StopsDone(r: Registry, id: string) {
    if id in r.activities then forall k :: k in r.stopping ==> !LiveActivity(r, k, id)
    else forall j, k :: j in r.stopping && k in r.stopping && LiveActivity(r, j, id) && LiveActivity(r, k, id) ==> j == k
  }

  /** Main result: at every point of every run, an instance has at most one
      uncancelled do-activity exactly when no earlier one is still being stopped: a
      cancel function has been taken, by an evicted actor say, and not called yet. */
  lemma OneLiveExactly(w: World, parses: string -> bool, ls: seq<Label>, s: Sys, id: string)
    requires Reaches(w, parses, START, ls, s)
    ensures AtMostOneLive(s.reg, id) <==> StopsDone(s.reg, id)
  {
    hide Reaches, StageFits, TimerFits, ActivityFits;
    RunInv(w, parses, ls, s);
    RunAlive(w, parses, ls, s);
    var r := s.reg;
    assert forall k: nat :: LiveActivity(r, k, id) ==> k in r.stopping || (id in r.activities && r.activities[id] == k);
  }

  lemma {:induction false} ReachesOn(w: World, parses: string -> bool, a: Sys, ls: seq<Label>, b: Sys, more: seq<Label>, c: Sys)
    requires Reaches(w, parses, a, ls, b) && Reaches(w, parses, b, more, c)
    ensures Reaches(w, parses, a, ls + more, c)
  {
    hide Possible, Next;
    if more == [] {
      assert ls + more == ls;
    } else {
      var n := |more| - 1;
      var m :| Reaches(w, parses, b, more[..n], m) && Possible(m, more[n]) && c == Next(w, parses, m, more[n]);
      ReachesOn(w, parses, a, ls, b, more[..n], m);
      ReachesMore(w, parses, a, ls + more[..n], m, more[n]);
      assert ls + more == ls + more[..n] + [more[n]];
    }
  }

  /** An instance created in a state with a do-activity, and idle. */
  lemma StartsUp(w: World, parses: string -> bool, id: string, row: Row) returns (s: Sys)
    requires row.current.EffectiveState().DoActions() != []
    ensures Reaches(w, parses, START, [Create(id, row), ArmActivity(id), ArmTimers(id)], s)
    ensures id in s.stages && s.stages[id] == Idle && id in s.reg.activities
  {
    hide FindDeferredTransitions, StartTimers;
    var a, b, c := Create(id, row), ArmActivity(id), ArmTimers(id);
    var s1 := Next(w, parses, START, a);
    var s2 := Next(w, parses, s1, b);
    s := Next(w, parses, s2, c);
    StartTimersFiles(s2.reg, parses, id, FindDeferredTransitions(w, row.def, row.current, row.contextMap));
    assert Reaches(w, parses, START, [], START);
    hide Reaches;
    ReachesMore(w, parses, START, [], START, a);
    ReachesMore(w, parses, START, [] + [a], s1, b);
    ReachesMore(w, parses, START, [] + [a] + [b], s2, c);
    assert [] + [a] + [b] + [c] == [a, b, c];
  }

  /** And the condition does fail, from a fresh start: an evicted actor that has taken
      the cancel function and not called it yet leaves the old activity alive while
      the next actor moves the instance on and arms the new one. */
  lemma TwoUncancelled(w: World, parses: string -> bool, id: string, first: Row, row: Row) returns (ls: seq<Label>, t: Sys)
    requires first.current.EffectiveState().DoActions() != [] && row.current.EffectiveState().DoActions() != []
    ensures Reaches(w, parses, START, ls, t) && !StopsDone(t.reg, id)
    ensures exists j, k :: 0 <= j < k < |t.reg.tasks| && LiveActivity(t.reg, j, id) && LiveActivity(t.reg, k, id)
  {
    hide Reaches, Next, Possible, StopsDone;
    var s := StartsUp(w, parses, id, first);
    var up := [Create(id, first), ArmActivity(id), ArmTimers(id)];
    RunInv(w, parses, up, s);
    RunAlive(w, parses, up, s);
    var more: seq<Label>;
    more, t := MovesOnBehind(w, parses, s, id, row);
    ReachesOn(w, parses, START, up, s, more, t);
    ls := up + more;
    OneLiveExactly(w, parses, ls, t, id);
  }

  lemma MovesOnBehind(w: World, parses: string -> bool, s: Sys, id: string, row: Row) returns (ls: seq<Label>, t: Sys)
    requires Inv(s) && FiledAlive(s) && id in s.stages && s.stages[id] == Idle && id in s.reg.activities
    requires row.current.EffectiveState().DoActions() != []
    ensures Reaches(w, parses, s, ls, t)
    ensures exists j, k :: 0 <= j < k < |t.reg.tasks| && LiveActivity(t.reg, j, id) && LiveActivity(t.reg, k, id)
  {
    var j := s.reg.activities[id];
    assert LiveActivity(s.reg, j, id);
    KnownStages(s);
    hide Inv, Reaches, Next, Possible;
    var stop := [OtherTakeActivity(id), Begin_(id), OwnTakeActivity(id), OwnTakeTimers(id)];
    var m := MovesOn(w, parses, s, id);
    var m1 := ArmsAgain(w, parses, m, id, row);
    ReachesMore(w, parses, s, stop, m, Commit_(id, row, true));
    ReachesMore(w, parses, s, stop + [Commit_(id, row, true)], m1, ArmActivity(id));
    ls, t := stop + [Commit_(id, row, true)] + [ArmActivity(id)], Next(w, parses, m1, ArmActivity(id));
    assert LiveActivity(t.reg, j, id) && LiveActivity(t.reg, |s.reg.tasks|, id);
  }

  /** The move commits and the new activity is armed. */
  lemma ArmsAgain(w: World, parses: string -> bool, m: Sys, id: string, row: Row) returns (m1: Sys)
    requires id in m.rows && id in m.stages && m.stages[id] == InEvent(true, true)
    requires row.current.EffectiveState().DoActions() != []
    ensures Possible(m, Commit_(id, row, true)) && m1 == Next(w, parses, m, Commit_(id, row, true))
    ensures Possible(m1, ArmActivity(id))
    ensures Next(w, parses, m1, ArmActivity(id)).reg.tasks
         == m.reg.tasks + [Task(id, DoActivity(row.current.EffectiveState().DoActions()), false, false)]
  {
    m1 := Next(w, parses, m, Commit_(id, row, true));
  }

  /** The old actor takes the cancel function; the next one starts an event and
      finds nothing to stop. */
  lemma MovesOn(w: World, parses: string -> bool, s: Sys, id: string) returns (m: Sys)
    requires id in s.rows && id in s.stages && s.stages[id] == Idle && id in s.reg.activities
    ensures Reaches(w, parses, s, [OtherTakeActivity(id), Begin_(id), OwnTakeActivity(id), OwnTakeTimers(id)], m)
    ensures m.rows == s.rows && m.reg.tasks == s.reg.tasks && id in m.stages && m.stages[id] == InEvent(true, true)
  {
    var a, b, c, d := OtherTakeActivity(id), Begin_(id), OwnTakeActivity(id), OwnTakeTimers(id);
    var s1 := Next(w, parses, s, a);
    var s2 := Next(w, parses, s1, b);
    var s3 := Next(w, parses, s2, c);
    m := Next(w, parses, s3, d);
    assert Reaches(w, parses, s, [], s);
    hide Reaches;
    ReachesMore(w, parses, s, [], s, a);
    ReachesMore(w, parses, s, [] + [a], s1, b);
    ReachesMore(w, parses, s, [] + [a] + [b], s2, c);
    ReachesMore(w, parses, s, [] + [a] + [b] + [c], s3, d);
    assert [] + [a] + [b] + [c] + [d] == [a, b, c, d];
  }

  // ---- What is armed ------------------------------------------------------

  /** The transitions whose delay parses, in order. */
  function Parsable(parses: string -> bool, ts: seq<Transition>): seq<Transition> {
    if ts == [] then [] else (if parses(ts[0].after) then [ts[0]] else []) + Parsable(parses, ts[1..])
  }

  lemma {:induction false} ParsableAppend(parses: string -> bool, a: seq<Transition>, b: seq<Transition>)
    ensures Parsable(parses, a + b) == Parsable(parses, a) + Parsable(parses, b)
  {
    if a == [] {
      assert a + b == b;
    } else {
      assert (a + b)[0] == a[0] && (a + b)[1..] == a[1..] + b;
      ParsableAppend(parses, a[1..], b);
    }
  }

  /** Fresh timers of an instance, one per transition. */
  function TimerTasks(id: string, ts: seq<Transition>): seq<Task> {
    seq(|ts|, i requires 0 <= i < |ts| => Task(id, Timer(ts[i]), false, false))
  }

  function Consecutive(from_: nat, n: nat): seq<nat> {
    seq(n, i requires 0 <= i < n => from_ + i)
  }

  /** Arming starts one timer for each transition whose delay parses, in order and under
      consecutive numbers, files exactly those with the instance, and changes nothing
      else. */
  lemma {:induction false} TimersArmed(r: Registry, parses: string -> bool, id: string, ts: seq<Transition>)
    ensures
      var s, armed := StartTimers(r, parses, id, ts), Parsable(parses, ts);
      && s.tasks == r.tasks + TimerTasks(id, armed)
      && Filed(s.timers, id) == Filed(r.timers, id) + Consecutive(|r.tasks|, |armed|)
      && s.activities == r.activities && s.stopping == r.stopping
      && (forall x :: x != id ==> (x in s.timers <==> x in r.timers) && Filed(s.timers, x) == Filed(r.timers, x))
  {
    if ts != [] {
      var n := |ts| - 1;
      TimersArmed(r, parses, id, ts[..n]);
      ParsableAppend(parses, ts[..n], [ts[n]]);
      assert ts == ts[..n] + [ts[n]];
      assert Parsable(parses, [ts[n]][1..]) == [];
      var front := Parsable(parses, ts[..n]);
      if parses(ts[n].after) {
        assert TimerTasks(id, front + [ts[n]]) == TimerTasks(id, front) + [Task(id, Timer(ts[n]), false, false)];
        assert Consecutive(|r.tasks|, |front| + 1) == Consecutive(|r.tasks|, |front|) + [|r.tasks| + |front|];
      }
    }
  }

  /** The delayed automatic transitions of one scope whose guard passes and whose delay
      parses. */
  function Due(w: World, parses: string -> bool, ts: seq<Transition>, source: string, ctx: Context): seq<Transition> {
    if ts == [] then []
    else
      (if ts[0].source == source && ts[0].trigger == AutomaticTrigger && ts[0].after != ""
          && Enabled(w, ts[0].guard, ctx) && parses(ts[0].after) then [ts[0]] else [])
      + Due(w, parses, ts[1..], source, ctx)
  }

  /** Those of a row: of the composite around the active substate, then of the top level. */
  function DueTimers(w: World, parses: string -> bool, row: Row): seq<Transition> {
    var at := row.current;
    (if at.state.CompositeState? && at.substate.Some?
     then Due(w, parses, at.state.subTransitions, at.substate.value.info.id, row.contextMap) else [])
    + Due(w, parses, row.def.transitions, at.state.info.id, row.contextMap)
  }

  lemma {:induction false} DueIsParsable(w: World, parses: string -> bool, ts: seq<Transition>, source: string, ctx: Context)
    ensures Parsable(parses, Filter(ts, Both(SourceIs(source), FiresLater(w, ctx)))) == Due(w, parses, ts, source, ctx)
  {
    hide Enabled;
    if ts != [] {
      DueIsParsable(w, parses, ts[1..], source, ctx);
      var rest := Filter(ts[1..], Both(SourceIs(source), FiresLater(w, ctx)));
      assert ([ts[0]] + rest)[1..] == rest;
    }
  }

  lemma DeferredAreDue(w: World, parses: string -> bool, row: Row)
    ensures Parsable(parses, FindDeferredTransitions(w, row.def, row.current, row.contextMap)) == DueTimers(w, parses, row)
  {
    hide Filter, Parsable, Due, Enabled;
    var at, ctx := row.current, row.contextMap;
    var p := FiresLater(w, ctx);
    var top := Filter(row.def.transitions, Both(SourceIs(at.state.Id()), p));
    var last := [Scope(row.def.transitions, at.state.Id())];
    DueIsParsable(w, parses, row.def.transitions, at.state.Id(), ctx);
    assert last[1..] == [] && DeferredIn(w, last, ctx) == top;
    if at.substate.Some? && at.state.CompositeState? {
      var sub := Filter(at.state.subTransitions, Both(SourceIs(at.substate.value.Id()), p));
      DueIsParsable(w, parses, at.state.subTransitions, at.substate.value.Id(), ctx);
      ParsableAppend(parses, sub, top);
      assert Scopes(row.def, at)[1..] == last;
      assert FindDeferredTransitions(w, row.def, at, ctx) == sub + top;
    } else {
      assert Scopes(row.def, at) == last;
    }
  }

  /** Main result: in every run, arming an instance files exactly one running timer for
      each delayed automatic transition of its committed position whose guard passes and
      whose delay parses, in the order they are written, and starts nothing else. */
  lemma ArmedTimers(w: World, parses: string -> bool, ls: seq<Label>, s: Sys, id: string)
    requires Reaches(w, parses, START, ls, s) && Possible(s, ArmTimers(id))
    ensures
      var n, due := Next(w, parses, s, ArmTimers(id)), DueTimers(w, parses, s.rows[id]);
      && n.rows == s.rows && n.reg.tasks == s.reg.tasks + TimerTasks(id, due)
      && Filed(n.reg.timers, id) == Consecutive(|s.reg.tasks|, |due|)
      && n.reg.activities == s.reg.activities && n.reg.stopping == s.reg.stopping
      && (forall k :: |s.reg.tasks| <= k < |n.reg.tasks| ==> Running(n.reg, k))
      && (forall x :: x != id ==> Filed(n.reg.timers, x) == Filed(s.reg.timers, x))
  {
    hide Reaches, FindDeferredTransitions, StartTimers, DueTimers, Parsable;
    var row := s.rows[id];
    RunInv(w, parses, ls, s);
    DeferredAreDue(w, parses, row);
    TimersArmed(s.reg, parses, id, FindDeferredTransitions(w, row.def, row.current, row.contextMap));
    assert StageFits(s, id);
  }

  /** Main result: in every run, arming an instance's activity starts one exactly when the
      state or substate it is in is an action state with do-actions, files it, and runs
      that list; otherwise none is filed. */
  lemma ArmedActivity(w: World, parses: string -> bool, ls: seq<Label>, s: Sys, id: string)
    requires Reaches(w, parses, START, ls, s) && Possible(s, ArmActivity(id))
    ensures
      var n, at := Next(w, parses, s, ArmActivity(id)), s.rows[id].current;
      var active := if at.substate.Some? then at.substate.value else at.state;
      var list := match active case ActionState(_, _, _, _, doActions) => doActions case _ => [];
      && n.rows == s.rows && n.reg.timers == s.reg.timers && n.reg.stopping == s.reg.stopping
      && (if list == [] then n.reg.tasks == s.reg.tasks && n.reg.activities == s.reg.activities && id !in s.reg.activities
          else (&& n.reg.tasks == s.reg.tasks + [Task(id, DoActivity(list), false, false)]
                && n.reg.activities == s.reg.activities[id := |s.reg.tasks|] && Running(n.reg, |s.reg.tasks|)))
  {
    hide Reaches;
    RunInv(w, parses, ls, s);
    assert StageFits(s, id);
  }
}
