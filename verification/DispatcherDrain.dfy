/** Shutdown (brokr.go:137-146): with no commands arriving from outside, every run
    of the dispatcher, the auto-join attempts and the job pool ends, and it ends
    with nothing in flight; when both drains have returned, everything accepted
    before the first one has been dealt with. */
module DispatcherDrain {
  import opened Sums
  import opened Dispatcher
  import opened DispatcherOrder

  // ---- A measure ----------------------------------------------------------

  /** Parents lie above their children. */
  ghost predicate IsForest<S>(p: Params<S>, depth: string -> nat) {
    forall id :: p.parent(id).Some? ==> depth(p.parent(id).value) < depth(id)
  }

  /** What one command can still cause: its own steps and its jobs, and, when it
      completes its instance, a command to the parent. */
  function Cost<S>(p: Params<S>, depth: string -> nat, id: string): int {
    (depth(id) + 1) * (12 + 4 * p.jobs)
  }

  lemma ParentCostsLess<S(!new)>(p: Params<S>, depth: string -> nat, id: string)
    requires IsForest(p, depth)
    ensures Cost(p, depth, id) >= 12 + 4 * p.jobs
    ensures p.parent(id).Some? ==> Cost(p, depth, p.parent(id).value) + 12 + 4 * p.jobs <= Cost(p, depth, id)
  {
    Times(depth(id) + 1, 1, 12 + 4 * p.jobs);
    if p.parent(id).Some? { Times(depth(id) + 1, depth(p.parent(id).value) + 2, 12 + 4 * p.jobs); }
  }

  lemma Times(a: nat, b: nat, c: nat)
    requires a >= b
    ensures a * c >= b * c
  {}

  function TicketCost<S>(p: Params<S>, depth: string -> nat): Ticket -> int {
    (t: Ticket) => if t.stage == Sending then Cost(p, depth, t.id) else if t.stage == GivingUp then 1 else 0
  }

  function PcCost<S>(p: Params<S>, depth: string -> nat, id: string, pc: Pc<S>): int {
    match pc
    case Idle => 2
    case Received(_) => Cost(p, depth, id)
    case Working(_, _, left) => Cost(p, depth, id) - 3 - 4 * p.jobs + 4 * left
    case Settled => 4
    case Releasing => 3
    case Evicting => 1
    case Gone => 0
  }

  function ActorCost<S>(p: Params<S>, depth: string -> nat): Actor<S> -> int {
    (a: Actor<S>) => |a.mailbox| * (Cost(p, depth, a.id) - 1) + PcCost(p, depth, a.id, a.pc)
  }

  function AttemptCost<S>(p: Params<S>, depth: string -> nat): Attempt -> int {
    (a: Attempt) => match a.stage case Checking => Cost(p, depth, a.parent) + 4 case Dispatching(_) => 1 case Over => 0
  }

  function JobCost(): Job -> int {
    (j: Job) => match j.stage case Waiting => 3 case Queued => 2 case Running => 1 case Finished => 0
  }

  function PhaseCost(phase: Phase): int {
    match phase case Serving => 3 case Draining(_) => 2 case DrainingPool(_) => 1 case Stopped(_) => 0
  }

  function Measure<S>(p: Params<S>, depth: string -> nat, s: State<S>): int {
    Sum(s.tickets, TicketCost(p, depth)) + Sum(s.actors, ActorCost(p, depth)) + Sum(s.attempts, AttemptCost(p, depth))
    + Sum(s.jobs, JobCost()) + PhaseCost(s.phase)
  }

  lemma MeasureNonNegative<S(!new)>(p: Params<S>, depth: string -> nat, s: State<S>)
    requires IsForest(p, depth)
    ensures Measure(p, depth, s) >= 0
  {
    hide Cost, Sum;
    forall id ensures Cost(p, depth, id) >= 12 + 4 * p.jobs { ParentCostsLess(p, depth, id); }
    SumNonNegative(s.tickets, TicketCost(p, depth));
    forall a | 0 <= a < |s.actors| ensures ActorCost(p, depth)(s.actors[a]) >= 0 {
      Times(|s.actors[a].mailbox|, 0, Cost(p, depth, s.actors[a].id) - 1);
    }
    SumNonNegative(s.actors, ActorCost(p, depth));
    SumNonNegative(s.attempts, AttemptCost(p, depth));
    SumNonNegative(s.jobs, JobCost());
  }

  predicate Internal<S>(l: Label<S>) { !l.Accept? }

  lemma EnqueueMeasure<S(!new)>(p: Params<S>, depth: string -> nat, s: State<S>, id: string, event: string, cancellable: bool)
    requires OneActor(s)
    ensures Measure(p, depth, Enqueue(s, id, event, cancellable)) <= Measure(p, depth, s) + Cost(p, depth, id) + 2
  {
    hide Cost, Sum;
    var n := Enqueue(s, id, event, cancellable);
    var a := n.registry[id];
    var new_ := Actor(id, [], 0, Idle);
    var actors := if id in s.registry then s.actors else s.actors + [new_];
    if id !in s.registry { SumAppend(s.actors, new_, ActorCost(p, depth)); }
    SumUpdate(actors, a, n.actors[a], ActorCost(p, depth));
    SumAppend(s.tickets, n.tickets[|s.tickets|], TicketCost(p, depth));
  }

  lemma ForwardMeasure<S(!new)>(p: Params<S>, depth: string -> nat, s: State<S>, i: nat, event: string)
    requires OneActor(s) && Possible(p, s, Forward(i, event))
    ensures Measure(p, depth, Next(p, s, Forward(i, event))) < Measure(p, depth, s)
  {
    hide Cost, Sum;
    var m := SetAttempt(s, i, Dispatching(|s.tickets|));
    SumUpdate(s.attempts, i, m.attempts[i], AttemptCost(p, depth));
    EnqueueMeasure(p, depth, m, s.attempts[i].parent, event, false);
  }

  lemma TicketMeasure<S(!new)>(p: Params<S>, depth: string -> nat, s: State<S>, l: Label<S>)
    requires IsForest(p, depth) && Base(s) && Possible(p, s, l) && (l.Send? || l.GiveUp? || l.ReportCancelled?)
    ensures Measure(p, depth, Next(p, s, l)) < Measure(p, depth, s)
  {
    hide Cost, Sum, PendingExact;
    var n := Next(p, s, l);
    ParentCostsLess(p, depth, s.tickets[l.t].id);
    SumUpdate(s.tickets, l.t, n.tickets[l.t], TicketCost(p, depth));
    if !l.ReportCancelled? {
      var a := s.tickets[l.t].owner;
      SumUpdate(s.actors, a, n.actors[a], ActorCost(p, depth));
      OneMore(|s.actors[a].mailbox|, Cost(p, depth, s.actors[a].id) - 1);
    }
  }

  lemma OneMore(n: nat, c: int)
    ensures (n + 1) * c == n * c + c
  {}

  lemma ActorMeasure<S(!new)>(p: Params<S>, depth: string -> nat, s: State<S>, l: Label<S>)
    requires IsForest(p, depth) && RegistryInRange(s) && Possible(p, s, l)
    requires l.Receive? || l.Read? || l.Submit? || l.Release? || l.Finish? || l.Evict? || l.Cleanup?
    ensures Measure(p, depth, Next(p, s, l)) < Measure(p, depth, s)
  {
    hide Cost, Sum;
    var n := Next(p, s, l);
    var x := s.actors[l.a];
    ParentCostsLess(p, depth, x.id);
    SumUpdate(s.actors, l.a, n.actors[l.a], ActorCost(p, depth));
    if l.Receive? { OneMore(|x.mailbox| - 1, Cost(p, depth, x.id) - 1); }
    if l.Submit? { SumAppend(s.jobs, n.jobs[|s.jobs|], JobCost()); }
  }

  lemma WriteMeasure<S(!new)>(p: Params<S>, depth: string -> nat, s: State<S>, a: nat, after: S)
    requires IsForest(p, depth) && RegistryInRange(s) && Possible(p, s, Write(a, after))
    ensures Measure(p, depth, Next(p, s, Write(a, after))) < Measure(p, depth, s)
  {
    hide Cost, Sum;
    var n := Next(p, s, Write(a, after));
    ParentCostsLess(p, depth, s.actors[a].id);
    SumUpdate(s.actors, a, n.actors[a], ActorCost(p, depth));
    if n.attempts != s.attempts { SumAppend(s.attempts, n.attempts[|s.attempts|], AttemptCost(p, depth)); }
  }

  lemma OtherMeasure<S(!new)>(p: Params<S>, depth: string -> nat, s: State<S>, l: Label<S>)
    requires IsForest(p, depth) && RegistryInRange(s) && Possible(p, s, l)
    requires l.Skip? || l.EndAttempt? || l.QueueJob? || l.StartJob? || l.FinishJob? || l.CallDrain? || l.DrainReturns? || l.PoolReturns?
    ensures Measure(p, depth, Next(p, s, l)) < Measure(p, depth, s)
  {
    hide Cost, Sum;
    var n := Next(p, s, l);
    if l.Skip? || l.EndAttempt? {
      ParentCostsLess(p, depth, s.attempts[l.i].parent);
      SumUpdate(s.attempts, l.i, n.attempts[l.i], AttemptCost(p, depth));
    }
    if l.QueueJob? || l.StartJob? || l.FinishJob? { SumUpdate(s.jobs, l.j, n.jobs[l.j], JobCost()); }
  }

  /** Every step that does not come from outside brings the system closer to rest. */
  lemma MeasureStep<S(!new)>(p: Params<S>, depth: string -> nat, s: State<S>, l: Label<S>)
    requires IsForest(p, depth) && Base(s) && Possible(p, s, l) && Internal(l)
    ensures Measure(p, depth, Next(p, s, l)) < Measure(p, depth, s)
  {
    hide Measure, Next, Possible;
    if l.Forward? { ForwardMeasure(p, depth, s, l.i, l.event); }
    else if l.Send? || l.GiveUp? || l.ReportCancelled? { TicketMeasure(p, depth, s, l); }
    else if l.Write? { WriteMeasure(p, depth, s, l.a, l.after); }
    else if l.Receive? || l.Read? || l.Submit? || l.Release? || l.Finish? || l.Evict? || l.Cleanup? { ActorMeasure(p, depth, s, l); }
    else { OtherMeasure(p, depth, s, l); }
  }

  /** From any point of any run, at most `Measure` further steps can be taken before
      something has to arrive from outside. */
  lemma {:induction false} DrainTerminates<S(!new)>(p: Params<S>, depth: string -> nat, ls: seq<Label<S>>, states: seq<State<S>>, n: nat)
    requires IsForest(p, depth) && IsRun(p, ls, states) && Inv(p, states[0]) && n <= |ls|
    requires forall i :: 0 <= i < n ==> Internal(ls[i])
    ensures Inv(p, states[n])
    ensures n <= Measure(p, depth, states[0]) - Measure(p, depth, states[n]) <= Measure(p, depth, states[0])
  {
    hide Measure, Next, Possible, Inv, RegistryInRange, IsForest;
    if n == 0 {
      MeasureNonNegative(p, depth, states[n]);
    } else {
      DrainTerminates(p, depth, ls, states, n - 1);
      InvBase(p, states[n - 1]);
      MeasureStep(p, depth, states[n - 1], ls[n - 1]);
      InvStep(p, states[n - 1], ls[n - 1]);
      MeasureNonNegative(p, depth, states[n]);
    }
  }

  lemma InvBase<S(!new)>(p: Params<S>, s: State<S>)
    requires Inv(p, s)
    ensures Base(s)
  {
    hide Base;
  }

  // ---- Nothing is stuck ---------------------------------------------------

  /** An attempt's command cannot be cancelled: it is on its way or placed. */
  ghost predicate AttemptsFit<S>(s: State<S>) {
    forall i :: 0 <= i < |s.attempts| && s.attempts[i].stage.Dispatching? ==> Underway(s, s.attempts[i].stage.ticket)
  }

  ghost predicate Underway<S>(s: State<S>, t: nat) {
    t < |s.tickets| && !s.tickets[t].cancellable && (s.tickets[t].stage == Sending || s.tickets[t].stage == Placed)
  }

  lemma UnderwayStep<S(!new)>(p: Params<S>, s: State<S>, l: Label<S>, t: nat)
    requires RegistryInRange(s) && Possible(p, s, l) && Underway(s, t)
    ensures Underway(Next(p, s, l), t)
  {
    if ByAttempt(l) || ByPool(l) || ByShutdown(l) {
      ActorsUntouched(p, s, l);
      hide Next;
    } else if AtWork(l) || AfterWork(l) {
      assert Next(p, s, l).tickets == s.tickets;
      hide Next;
    }
  }

  lemma NewAttempts<S(!new)>(p: Params<S>, s: State<S>, l: Label<S>, i: nat)
    requires RegistryInRange(s) && Possible(p, s, l) && i < |Next(p, s, l).attempts|
    requires Next(p, s, l).attempts[i].stage.Dispatching?
    ensures
      || (i < |s.attempts| && s.attempts[i] == Next(p, s, l).attempts[i])
      || Underway(Next(p, s, l), Next(p, s, l).attempts[i].stage.ticket)
  {}

  lemma AttemptsStep<S(!new)>(p: Params<S>, s: State<S>, l: Label<S>)
    requires RegistryInRange(s) && AttemptsFit(s) && Possible(p, s, l)
    ensures AttemptsFit(Next(p, s, l))
  {
    hide Next, Possible, Underway;
    var n := Next(p, s, l);
    forall i | 0 <= i < |n.attempts| && n.attempts[i].stage.Dispatching? ensures Underway(n, n.attempts[i].stage.ticket) {
      NewAttempts(p, s, l, i);
      if i < |s.attempts| && s.attempts[i] == n.attempts[i] { UnderwayStep(p, s, l, s.attempts[i].stage.ticket); }
    }
  }

  lemma {:induction false} RunAttempts<S(!new)>(p: Params<S>, ls: seq<Label<S>>, states: seq<State<S>>, n: nat)
    requires IsRun(p, ls, states) && states[0] == Empty() && n < |states|
    ensures AttemptsFit(states[n])
  {
    hide Next, Possible, RegistryInRange, Underway;
    if n > 0 {
      RunAttempts(p, ls, states, n - 1);
      AttemptsStep(p, states[n - 1], ls[n - 1]);
    }
  }

  /** The pool has at least one slot and one worker, and processing an event always
      has some outcome. */
  ghost predicate Works<S(!new)>(p: Params<S>) {
    && p.queue >= 1 && p.workers >= 1
    && forall id, s, event :: HasOutcome(p, id, s, event)
  }

  ghost predicate HasOutcome<S(!new)>(p: Params<S>, id: string, s: S, event: string) {
    exists t :: p.step(id, s, event, t)
  }

  ghost predicate CanStep<S(!new)>(p: Params<S>, s: State<S>) {
    exists l :: Internal(l) && Possible(p, s, l)
  }

  lemma JobsProceed<S(!new)>(p: Params<S>, s: State<S>)
    requires Works(p) && Sum(s.jobs, JobOpen()) > 0
    ensures CanStep(p, s)
  {
    hide Sum;
    if Sum(s.jobs, InStage(Running)) > 0 {
      var j := SumWitness(s.jobs, InStage(Running));
      assert Possible(p, s, FinishJob(j));
    } else if Sum(s.jobs, InStage(Queued)) > 0 {
      var j := SumWitness(s.jobs, InStage(Queued));
      assert Possible(p, s, StartJob(j));
    } else {
      var j := SumWitness(s.jobs, JobOpen());
      if s.jobs[j].stage == Running { SumAtLeast(s.jobs, InStage(Running), j); }
      if s.jobs[j].stage == Queued { SumAtLeast(s.jobs, InStage(Queued), j); }
      assert Possible(p, s, QueueJob(j));
    }
  }

  /** An actor with something to do can do it, or waits for the job pool. */
  lemma ActorProceeds<S(!new)>(p: Params<S>, s: State<S>, a: nat)
    requires Works(p) && Base(s) && a < |s.actors|
    requires s.actors[a].mailbox != [] || s.actors[a].Processing() || s.actors[a].pc.Releasing?
    ensures CanStep(p, s)
  {
    hide Sum, OneActor;
    var x := s.actors[a];
    assert x.pending == Load(s, a);
    SumNonNegative(s.tickets, SendingTo(a));
    assert x.Serves() || x.pending == 0;
    hide Works;
    if x.pc.Idle? { assert Possible(p, s, Receive(a)); }
    else if x.pc.Received? { assert Possible(p, s, Read(a)); }
    else if x.pc.Settled? { assert Possible(p, s, Release(a)); }
    else if x.pc.Releasing? { assert Possible(p, s, Finish(a)); }
    else if x.pc.Working? {
      WorkProceeds(p, s, a);
    }
  }

  lemma WorkProceeds<S(!new)>(p: Params<S>, s: State<S>, a: nat)
    requires Works(p) && a < |s.actors| && s.actors[a].pc.Working?
    ensures CanStep(p, s)
  {
    hide Sum;
    var x := s.actors[a];
    if j :| 0 <= j < |s.jobs| && s.jobs[j].actor == a && s.jobs[j].stage == Waiting {
      SumAtLeast(s.jobs, JobOpen(), j);
      hide Possible;
      JobsProceed(p, s);
    } else {
      assert HasOutcome(p, x.id, x.pc.read, x.pc.cmd.event);
      var after :| p.step(x.id, x.pc.read, x.pc.cmd.event, after);
      assert Possible(p, s, Write(a, after));
    }
  }

  lemma TicketProceeds<S(!new)>(p: Params<S>, s: State<S>, t: nat)
    requires Works(p) && Base(s) && t < |s.tickets| && (s.tickets[t].stage == Sending || s.tickets[t].stage == GivingUp)
    ensures CanStep(p, s)
  {
    hide OneActor, PendingExact;
    if s.tickets[t].stage == GivingUp {
      assert Possible(p, s, ReportCancelled(t));
    } else if |s.actors[s.tickets[t].owner].mailbox| < MAILBOX_BUFFER {
      assert Possible(p, s, Send(t));
    } else {
      ActorProceeds(p, s, s.tickets[t].owner);
    }
  }

  /** While anything is in flight or unfinished, some step of the system itself is
      possible: full mailboxes and a full job queue never block each other. */
  lemma NeverStuck<S(!new)>(p: Params<S>, s: State<S>)
    requires Works(p) && Inv(p, s) && AttemptsFit(s) && (s.inflight > 0 || s.unfinished > 0)
    ensures CanStep(p, s)
  {
    hide InOrder, PlacedOnce, RowsFit, Sum, OneActor, CanStep;
    if s.unfinished > 0 {
      JobsProceed(p, s);
    } else if Sum(s.tickets, HeldByTicket()) > 0 {
      var i := SumWitness(s.tickets, HeldByTicket());
      TicketProceeds(p, s, i);
    } else if Sum(s.attempts, HeldByAttempt()) > 0 {
      var i := SumWitness(s.attempts, HeldByAttempt());
      AttemptProceeds(p, s, i);
    } else {
      var a := SumWitness(s.actors, Held());
      assert s.actors[a].pending == Load(s, a);
      if Sum(s.tickets, SendingTo(a)) > 0 {
        var i := SumWitness(s.tickets, SendingTo(a));
        TicketProceeds(p, s, i);
      } else {
        ActorProceeds(p, s, a);
      }
    }
  }

  lemma AttemptProceeds<S(!new)>(p: Params<S>, s: State<S>, i: nat)
    requires Works(p) && Base(s) && AttemptsFit(s) && i < |s.attempts| && s.attempts[i].stage != Over
    ensures CanStep(p, s)
  {
    hide Base;
    if s.attempts[i].stage.Checking? {
      assert Possible(p, s, Skip(i));
    } else if s.tickets[s.attempts[i].stage.ticket].stage == Placed {
      assert Possible(p, s, EndAttempt(i));
    } else {
      hide Possible;
      TicketProceeds(p, s, s.attempts[i].stage.ticket);
    }
  }

  // ---- What a zero count means --------------------------------------------

  /** A command that has been reported as cancelled, or processed. */
  ghost predicate Resolved<S>(s: State<S>, t: nat)
    requires t < |s.tickets|
  {
    s.tickets[t].stage == Cancelled || Command(t, s.tickets[t].event) in Logged(s.served, s.tickets[t].id)
  }

  /** Every command is resolved, every auto-join attempt is over, and no actor is
      still on its way back to its mailbox. */
  ghost predicate Quiet<S>(s: State<S>) {
    && (forall t :: 0 <= t < |s.tickets| ==> Resolved(s, t))
    && (forall i :: 0 <= i < |s.attempts| ==> s.attempts[i].stage == Over)
    && (forall a :: 0 <= a < |s.actors| ==> !s.actors[a].pc.Settled? && !s.actors[a].pc.Releasing?)
  }

  /** A command in an actor's hands or mailbox is a placed one, not yet served. */
  lemma RestIsUnresolved<S(!new)>(p: Params<S>, s: State<S>, id: string, k: nat)
    requires Inv(p, s) && k < |Rest(s, id)|
    ensures
      var c := Rest(s, id)[k];
      c.ticket < |s.tickets| && s.tickets[c.ticket].id == id && s.tickets[c.ticket].event == c.event && !Resolved(s, c.ticket)
  {
    hide Base, InflightExact, RowsFit, Rest, Logged;
    var placed, served, c := Logged(s.placed, id), Logged(s.served, id), Rest(s, id)[k];
    assert placed[|served| + k] == c;
    assert LogsTicket(s, id, placed[|served| + k]);
    assert forall i :: 0 <= i < |served| ==> served[i] == placed[i] && placed[i].ticket != c.ticket;
  }

  lemma HeldNonNegative<S(!new)>(s: State<S>)
    requires PendingExact(s)
    ensures forall a :: 0 <= a < |s.actors| ==> Held()(s.actors[a]) >= 0
  {
    forall a | 0 <= a < |s.actors| ensures Held()(s.actors[a]) >= 0 { hide PendingExact; ZeroPendingIsEmpty(s, a); }
  }

  lemma ZeroHoldsNothing<S(!new)>(s: State<S>)
    requires PendingExact(s) && InflightExact(s) && s.inflight == 0
    ensures forall a :: 0 <= a < |s.actors| ==> s.actors[a].pending == 0 && !s.actors[a].pc.Releasing?
    ensures forall t :: 0 <= t < |s.tickets| ==> s.tickets[t].stage != GivingUp
    ensures forall i :: 0 <= i < |s.attempts| ==> s.attempts[i].stage == Over
  {
    hide PendingExact, Sum;
    HeldNonNegative(s);
    SumNonNegative(s.actors, Held());
    SumNonNegative(s.tickets, HeldByTicket());
    SumNonNegative(s.attempts, HeldByAttempt());
    forall a | 0 <= a < |s.actors| ensures s.actors[a].pending == 0 && !s.actors[a].pc.Releasing? {
      SumAtLeast(s.actors, Held(), a);
      ZeroPendingIsEmpty(s, a);
    }
    forall t | 0 <= t < |s.tickets| ensures s.tickets[t].stage != GivingUp { SumAtLeast(s.tickets, HeldByTicket(), t); }
    forall i | 0 <= i < |s.attempts| ensures s.attempts[i].stage == Over { SumAtLeast(s.attempts, HeldByAttempt(), i); }
  }

  lemma ZeroIsQuiet<S(!new)>(p: Params<S>, s: State<S>)
    requires Inv(p, s) && s.inflight == 0
    ensures Quiet(s)
  {
    hide RowsFit, Logged, PendingExact, InflightExact;
    ZeroHoldsNothing(s);
    forall a | 0 <= a < |s.actors| ensures s.actors[a].mailbox == [] && !s.actors[a].Processing() { ZeroPendingIsEmpty(s, a); }
    forall t | 0 <= t < |s.tickets| ensures Resolved(s, t) {
      ZeroPendingIsEmpty(s, s.tickets[t].owner);
      assert Rest(s, s.tickets[t].id) == [];
    }
  }

  lemma QuietMailboxes<S(!new)>(p: Params<S>, s: State<S>, a: nat)
    requires Inv(p, s) && Quiet(s) && a < |s.actors|
    ensures s.actors[a].mailbox == [] && !s.actors[a].Processing()
  {
    hide RowsFit, Logged, PendingExact, InflightExact, InOrder, PlacedOnce;
    var x := s.actors[a];
    ZeroPendingIsEmpty(s, a);
    if x.Serves() && Rest(s, x.id) != [] {
      RestIsUnresolved(p, s, x.id, 0);
    }
  }

  lemma QuietIsZero<S(!new)>(p: Params<S>, s: State<S>)
    requires Inv(p, s) && Quiet(s)
    ensures s.inflight == 0
  {
    hide RowsFit, Logged, Rest, InOrder;
    forall t | 0 <= t < |s.tickets| ensures s.tickets[t].stage != Sending && s.tickets[t].stage != GivingUp {
      ServedIsPlaced(p, s, t);
    }
    forall a | 0 <= a < |s.actors| ensures Held()(s.actors[a]) == 0 {
      QuietMailboxes(p, s, a);
      SumZero(s.tickets, SendingTo(a));
      assert s.actors[a].pending == Load(s, a);
    }
    SumZero(s.actors, Held());
    SumZero(s.tickets, HeldByTicket());
    SumZero(s.attempts, HeldByAttempt());
  }

  lemma ServedIsPlaced<S(!new)>(p: Params<S>, s: State<S>, t: nat)
    requires Inv(p, s) && t < |s.tickets| && Resolved(s, t)
    ensures s.tickets[t].stage == Cancelled || s.tickets[t].stage == Placed
  {
    hide Base, InflightExact, RowsFit, Rest, Logged;
    var k := s.tickets[t];
    var c := Command(t, k.event);
    if c in Logged(s.served, k.id) {
      var i :| 0 <= i < |Logged(s.served, k.id)| && Logged(s.served, k.id)[i] == c;
      assert Logged(s.placed, k.id)[i] == c && LogsTicket(s, k.id, Logged(s.placed, k.id)[i]);
    }
  }

  /** Main result: at every point of every run the wait group is at zero exactly
      when nothing is left to do. So it cannot touch zero between a child's
      completion and the end of the command that completion sends to the parent. */
  lemma ZeroExactlyWhenQuiet<S(!new)>(p: Params<S>, ls: seq<Label<S>>, states: seq<State<S>>, n: nat)
    requires IsRun(p, ls, states) && states[0] == Empty() && n < |states|
    ensures states[n].inflight >= 0
    ensures states[n].inflight == 0 <==> Quiet(states[n])
  {
    hide IsRun, Base, InOrder, PlacedOnce, RowsFit, Quiet;
    RunInv(p, ls, states, n);
    var s := states[n];
    if s.inflight == 0 { ZeroIsQuiet(p, s); }
    if Quiet(s) { QuietIsZero(p, s); }
    CountsNonNegative(s);
  }

  lemma CountsNonNegative<S(!new)>(s: State<S>)
    requires Base(s) && InflightExact(s)
    ensures s.inflight >= 0 && s.unfinished >= 0
  {
    hide PendingExact, OneActor, TicketsFit, Sum;
    HeldNonNegative(s);
    SumNonNegative(s.actors, Held());
    SumNonNegative(s.tickets, HeldByTicket());
    SumNonNegative(s.attempts, HeldByAttempt());
    SumNonNegative(s.jobs, JobOpen());
  }

  /** Main result: a run that cannot go on by itself has drained completely: the
      shutdown has returned, every command is resolved, every job is finished and
      every actor has gone. With DrainTerminates, every run gets there as soon as
      nothing more arrives from outside. */
  lemma MaximalRunStops<S(!new)>(p: Params<S>, ls: seq<Label<S>>, states: seq<State<S>>, n: nat)
    requires Works(p) && IsRun(p, ls, states) && states[0] == Empty() && n < |states| && !CanStep(p, states[n])
    ensures
      var s := states[n];
      && Quiet(s) && s.inflight == 0 && s.unfinished == 0 && s.phase.Stopped?
      && (forall a :: 0 <= a < |s.actors| ==> s.actors[a].pc.Gone?)
  {
    hide IsRun, InOrder, PlacedOnce, RowsFit, Quiet, InflightExact, CanStep, PendingExact, TicketsFit, OneActor, Works;
    var s := states[n];
    RunInv(p, ls, states, n);
    RunAttempts(p, ls, states, n);
    CountsNonNegative(s);
    if s.inflight > 0 || s.unfinished > 0 { NeverStuck(p, s); }
    ZeroIsQuiet(p, s);
    ZeroHoldsNothing(s);
    NoneLeftToStop(p, s);
  }

  lemma NoneLeftToStop<S(!new)>(p: Params<S>, s: State<S>)
    requires !CanStep(p, s) && PendingExact(s) && s.inflight == 0 && s.unfinished == 0
    requires forall a :: 0 <= a < |s.actors| ==> s.actors[a].pending == 0 && !s.actors[a].pc.Releasing?
    ensures s.phase.Stopped? && forall a :: 0 <= a < |s.actors| ==> s.actors[a].pc.Gone?
  {
    hide PendingExact;
    assert !Possible(p, s, CallDrain) && !Possible(p, s, DrainReturns) && !Possible(p, s, PoolReturns);
    forall a | 0 <= a < |s.actors| ensures s.actors[a].pc.Gone? {
      ZeroPendingIsEmpty(s, a);
      assert !Possible(p, s, Evict(a)) && !Possible(p, s, Cleanup(a));
    }
  }

  // ---- The two drains -----------------------------------------------------

  function Marked(phase: Phase): nat {
    if phase.Serving? then 0 else phase.mark
  }

  /** What each stage of a shutdown can count on. */
  ghost predicate PhaseFits<S>(s: State<S>) {
    && Marked(s.phase) <= |s.tickets|
    && (s.phase.DrainingPool? || s.phase.Stopped? ==> forall t :: 0 <= t < s.phase.mark ==> Resolved(s, t))
    && (s.phase.Stopped? ==> forall j :: 0 <= j < |s.jobs| && s.jobs[j].ticket < s.phase.mark ==> s.jobs[j].stage == Finished)
  }

  lemma ResolvedStays<S(!new)>(p: Params<S>, s: State<S>, l: Label<S>, t: nat)
    requires RegistryInRange(s) && Possible(p, s, l) && t < |s.tickets| && Resolved(s, t)
    requires s.tickets[t].stage == Cancelled || s.tickets[t].stage == Placed
    ensures t < |Next(p, s, l).tickets| && Resolved(Next(p, s, l), t)
  {
    var n := Next(p, s, l);
    var id := s.tickets[t].id;
    if l.Write? && s.actors[l.a].id == id {
      assert Logged(n.served, id) == Logged(s.served, id) + [s.actors[l.a].pc.cmd];
    }
  }

  /** Jobs only come from commands that are not resolved yet. */
  lemma NewJobs<S(!new)>(p: Params<S>, s: State<S>, l: Label<S>, j: nat)
    requires Inv(p, s) && Possible(p, s, l) && j < |Next(p, s, l).jobs|
    ensures
      var job := Next(p, s, l).jobs[j];
      if j < |s.jobs| then job.ticket == s.jobs[j].ticket && (s.jobs[j].stage == Finished ==> job.stage == Finished)
      else job.ticket < |s.tickets| && !Resolved(s, job.ticket)
  {
    hide Next, Possible, PendingExact, TicketsFit, InOrder, PlacedOnce, RowsFit, InflightExact, Logged, Resolved;
    if l.Submit? { SubmitUnresolved(p, s, l.a); } else { OldJobs(p, s, l, j); }
  }

  lemma SubmitUnresolved<S(!new)>(p: Params<S>, s: State<S>, a: nat)
    requires Inv(p, s) && Possible(p, s, Submit(a))
    ensures
      var c := s.actors[a].pc.cmd;
      && c.ticket < |s.tickets| && !Resolved(s, c.ticket)
      && RegistryInRange(s) && Next(p, s, Submit(a)).jobs == s.jobs + [Job(a, c.ticket, Waiting)]
  {
    hide PendingExact, TicketsFit, InOrder, PlacedOnce, RowsFit, InflightExact, Logged, Resolved;
    assert s.actors[a].Serves();
    RestIsUnresolved(p, s, s.actors[a].id, 0);
  }

  lemma OldJobs<S(!new)>(p: Params<S>, s: State<S>, l: Label<S>, j: nat)
    requires RegistryInRange(s) && Possible(p, s, l) && !l.Submit? && j < |Next(p, s, l).jobs|
    ensures
      var job := Next(p, s, l).jobs[j];
      j < |s.jobs| && job.ticket == s.jobs[j].ticket && (s.jobs[j].stage == Finished ==> job.stage == Finished)
  {}

  lemma AllJobsFinished<S(!new)>(s: State<S>, j: nat)
    requires InflightExact(s) && s.unfinished == 0 && j < |s.jobs|
    ensures s.jobs[j].stage == Finished
  {
    SumAtLeast(s.jobs, JobOpen(), j);
  }

  lemma PhaseStep<S(!new)>(p: Params<S>, s: State<S>, l: Label<S>)
    requires Inv(p, s) && PhaseFits(s) && Possible(p, s, l)
    ensures PhaseFits(Next(p, s, l))
    ensures !s.phase.Serving? ==> !Next(p, s, l).phase.Serving? && Next(p, s, l).phase.mark == s.phase.mark
  {
    hide Base, InOrder, PlacedOnce, RowsFit, InflightExact, Resolved;
    InRange(p, s);
    var n := Next(p, s, l);
    PhaseMoves(p, s, l);
    if l.DrainReturns? { ZeroIsQuiet(p, s); }
    hide Next, Possible, Inv;
    forall t | 0 <= t < Marked(n.phase) && (n.phase.DrainingPool? || n.phase.Stopped?) ensures Resolved(n, t) {
      ServedIsPlaced(p, s, t);
      ResolvedStays(p, s, l, t);
    }
    forall j | 0 <= j < |n.jobs| && n.phase.Stopped? && n.jobs[j].ticket < n.phase.mark ensures n.jobs[j].stage == Finished {
      NewJobs(p, s, l, j);
    }
  }

  lemma PhaseMoves<S(!new)>(p: Params<S>, s: State<S>, l: Label<S>)
    requires Inv(p, s) && RegistryInRange(s) && Possible(p, s, l)
    ensures
      var n := Next(p, s, l);
      && |s.tickets| <= |n.tickets|
      && (if l.CallDrain? then n.phase == Draining(|s.tickets|)
          else if l.DrainReturns? then n.phase == DrainingPool(Marked(s.phase)) && s.inflight == 0
          else if l.PoolReturns? then n.phase == Stopped(Marked(s.phase)) && s.phase.DrainingPool?
               && forall j :: 0 <= j < |s.jobs| ==> s.jobs[j].stage == Finished
          else n.phase == s.phase)
  {
    hide Base, InOrder, PlacedOnce, RowsFit, InflightExact;
    if l.PoolReturns? {
      forall j | 0 <= j < |s.jobs| ensures s.jobs[j].stage == Finished { AllJobsFinished(s, j); }
    }
  }

  lemma {:induction false} RunPhase<S(!new)>(p: Params<S>, ls: seq<Label<S>>, states: seq<State<S>>, k: nat, n: nat)
    requires IsRun(p, ls, states) && states[0] == Empty() && k < n < |states| && ls[k].CallDrain?
    ensures PhaseFits(states[n]) && !states[n].phase.Serving? && states[n].phase.mark == |states[k].tickets|
  {
    hide Next, Possible, RegistryInRange, PhaseFits, Inv;
    RunInv(p, ls, states, n - 1);
    if k < n - 1 {
      RunPhase(p, ls, states, k, n - 1);
    } else {
      ServingFits(p, ls, states, k);
      PhaseMovesHere(p, states[k]);
    }
    PhaseStep(p, states[n - 1], ls[n - 1]);
  }

  lemma PhaseMovesHere<S(!new)>(p: Params<S>, s: State<S>)
    requires Inv(p, s) && Possible(p, s, CallDrain)
    ensures RegistryInRange(s) && Next(p, s, CallDrain).phase == Draining(|s.tickets|)
  {
    hide PendingExact, TicketsFit, InOrder, PlacedOnce, RowsFit, InflightExact;
  }

  lemma {:induction false} ServingFits<S(!new)>(p: Params<S>, ls: seq<Label<S>>, states: seq<State<S>>, n: nat)
    requires IsRun(p, ls, states) && states[0] == Empty() && n < |states|
    ensures PhaseFits(states[n])
  {
    hide Next, Possible, RegistryInRange, Inv;
    if n > 0 {
      ServingFits(p, ls, states, n - 1);
      RunInv(p, ls, states, n - 1);
      hide PhaseFits;
      PhaseStep(p, states[n - 1], ls[n - 1]);
    }
  }

  /** Main result: when both drains of a shutdown have returned, every command
      accepted before the first was called is resolved, and every job those
      commands submitted is finished. */
  lemma ShutdownWaits<S(!new)>(p: Params<S>, ls: seq<Label<S>>, states: seq<State<S>>, k: nat, n: nat)
    requires IsRun(p, ls, states) && states[0] == Empty() && k < n < |states| && ls[k].CallDrain?
    requires states[n].phase.Stopped?
    ensures |states[k].tickets| <= |states[n].tickets|
    ensures forall t :: 0 <= t < |states[k].tickets| ==> Resolved(states[n], t)
    ensures forall j :: 0 <= j < |states[n].jobs| && states[n].jobs[j].ticket < |states[k].tickets| ==> states[n].jobs[j].stage == Finished
  {
    hide IsRun, Resolved;
    RunPhase(p, ls, states, k, n);
  }
}
