/** The actor-per-instance dispatcher (engine/dispatcher.go), with the auto-join
    goroutines (engine/autojoin.go:42-74), the asynchronous job pool
    (model/asyncpool.go) and the two drains of a shutdown (brokr.go:137-146).

    Each label of the step system is one critical section or one channel
    operation; the goroutines interleave between them in any order. What a
    command does to its instance is a parameter: it reads the instance's state,
    works on it, and writes it back in a later step. */
module Dispatcher {
  import opened Model
  import opened Sums

  const MAILBOX_BUFFER: nat := 64

  /** `step(id, s, event, t)` says that the event may take the instance from `s` to
      `t`, `complete` whether a state is an end state, `jobs` bounds how many
      asynchronous jobs processing one event submits, and `parent` is the forest of
      instances. */
  datatype Params<!S> = Params(
    init: string -> S,
    step: (string, S, string, S) -> bool,
    complete: S -> bool,
    jobs: nat,
    parent: string -> Option<string>,
    queue: nat,
    workers: nat)

  /** One call of enqueue: blocked on the mailbox, giving up (the counter is
      decremented, the wait group not yet), reported as cancelled, or placed. */
  datatype TicketStage = Sending | GivingUp | Cancelled | Placed

  datatype Ticket = Ticket(id: string, event: string, cancellable: bool, owner: nat, stage: TicketStage)

  /** What travels through a mailbox. */
  datatype Command = Command(ticket: nat, event: string)

  /** Where the loop of an actor is. `Settled` is past the processing function and
      before the lock; `Releasing` is past the decrement and before Done. */
  datatype Pc<S> =
    | Idle
    | Received(cmd: Command)
    | Working(cmd: Command, read: S, jobsLeft: nat)
    | Settled
    | Releasing
    | Evicting
    | Gone

  datatype Actor<S> = Actor(id: string, mailbox: seq<Command>, pending: int, pc: Pc<S>) {
    predicate Serves() { !pc.Evicting? && !pc.Gone? }

    /** The command received and not yet written back. */
    function InHand(): seq<Command> {
      match pc case Received(c) => [c] case Working(c, _, _) => [c] case _ => []
    }

    predicate Processing() { pc.Received? || pc.Working? || pc.Settled? }
  }

  datatype AttemptStage = Checking | Dispatching(ticket: nat) | Over

  datatype Attempt = Attempt(parent: string, stage: AttemptStage)

  datatype JobStage = Waiting | Queued | Running | Finished

  /** A job and the actor and command that submitted it. */
  datatype Job = Job(actor: nat, ticket: nat, stage: JobStage)

  /** How far a shutdown is; `mark` counts the commands accepted before Drain was
      called. */
  datatype Phase = Serving | Draining(mark: nat) | DrainingPool(mark: nat) | Stopped(mark: nat)

  datatype State<S> = State(
    actors: seq<Actor<S>>,
    registry: map<string, nat>,
    tickets: seq<Ticket>,
    attempts: seq<Attempt>,
    jobs: seq<Job>,
    inflight: int,
    unfinished: int,
    rows: map<string, S>,
    written: map<string, seq<S>>,
    placed: map<string, seq<Command>>,
    served: map<string, seq<Command>>,
    phase: Phase)

  function Logged(log: map<string, seq<Command>>, id: string): seq<Command> {
    if id in log then log[id] else []
  }

  /** The states written back for an instance, oldest first. */
  function Outcomes<S>(s: State<S>, id: string): seq<S> {
    if id in s.written then s.written[id] else []
  }

  function RowOf<S>(p: Params<S>, s: State<S>, id: string): S {
    if id in s.rows then s.rows[id] else p.init(id)
  }

  datatype Label<S> =
    | Accept(id: string, event: string, cancellable: bool)   // a client or a timer
    | Send(t: nat)
    | GiveUp(t: nat)
    | ReportCancelled(t: nat)
    | Receive(a: nat)
    | Read(a: nat)
    | Submit(a: nat)
    | Write(a: nat, after: S)            // the outcome of the event
    | Release(a: nat)
    | Finish(a: nat)
    | Evict(a: nat)
    | Cleanup(a: nat)
    | Skip(i: nat)
    | Forward(i: nat, event: string)
    | EndAttempt(i: nat)
    | QueueJob(j: nat)
    | StartJob(j: nat)
    | FinishJob(j: nat)
    | CallDrain
    | DrainReturns
    | PoolReturns

  // The labels by what they touch; proofs go through them group by group.

  predicate Enqueues<S>(l: Label<S>) { l.Accept? || l.Forward? }

  predicate BySender<S>(l: Label<S>) { l.Send? || l.GiveUp? || l.ReportCancelled? }

  predicate AtWork<S>(l: Label<S>) { l.Receive? || l.Read? || l.Submit? || l.Write? }

  predicate AfterWork<S>(l: Label<S>) { l.Release? || l.Finish? || l.Evict? || l.Cleanup? }

  predicate ByAttempt<S>(l: Label<S>) { l.Skip? || l.EndAttempt? }

  predicate ByPool<S>(l: Label<S>) { l.QueueJob? || l.StartJob? || l.FinishJob? }

  predicate ByShutdown<S>(l: Label<S>) { l.CallDrain? || l.DrainReturns? || l.PoolReturns? }

  function InStage(stage: JobStage): Job -> int {
    (j: Job) => if j.stage == stage then 1 else 0
  }

  ghost predicate Possible<S>(p: Params<S>, s: State<S>, l: Label<S>) {
    match l
    case Accept(_, _, _) => true
    case Send(t) =>
      && t < |s.tickets| && s.tickets[t].stage == Sending && s.tickets[t].owner < |s.actors|
      && |s.actors[s.tickets[t].owner].mailbox| < MAILBOX_BUFFER
    case GiveUp(t) =>
      t < |s.tickets| && s.tickets[t].stage == Sending && s.tickets[t].cancellable && s.tickets[t].owner < |s.actors|
    case ReportCancelled(t) => t < |s.tickets| && s.tickets[t].stage == GivingUp
    case Receive(a) => a < |s.actors| && s.actors[a].pc.Idle? && s.actors[a].mailbox != []
    case Read(a) => a < |s.actors| && s.actors[a].pc.Received?
    case Submit(a) =>
      && a < |s.actors| && s.actors[a].pc.Working? && s.actors[a].pc.jobsLeft > 0
      && (forall j :: 0 <= j < |s.jobs| && s.jobs[j].actor == a ==> s.jobs[j].stage != Waiting)
    case Write(a, after) =>
      && a < |s.actors| && s.actors[a].pc.Working?
      && p.step(s.actors[a].id, s.actors[a].pc.read, s.actors[a].pc.cmd.event, after)
      && (forall j :: 0 <= j < |s.jobs| && s.jobs[j].actor == a ==> s.jobs[j].stage != Waiting)
    case Release(a) => a < |s.actors| && s.actors[a].pc.Settled?
    case Finish(a) => a < |s.actors| && s.actors[a].pc.Releasing?
    case Evict(a) => a < |s.actors| && s.actors[a].pc.Idle? && s.actors[a].pending == 0
    case Cleanup(a) => a < |s.actors| && s.actors[a].pc.Evicting?
    case Skip(i) => i < |s.attempts| && s.attempts[i].stage == Checking
    case Forward(i, _) => i < |s.attempts| && s.attempts[i].stage == Checking
    case EndAttempt(i) =>
      && i < |s.attempts| && s.attempts[i].stage.Dispatching? && s.attempts[i].stage.ticket < |s.tickets|
      && s.tickets[s.attempts[i].stage.ticket].stage == Placed
    case QueueJob(j) => j < |s.jobs| && s.jobs[j].stage == Waiting && Sum(s.jobs, InStage(Queued)) < p.queue
    case StartJob(j) => j < |s.jobs| && s.jobs[j].stage == Queued && Sum(s.jobs, InStage(Running)) < p.workers
    case FinishJob(j) => j < |s.jobs| && s.jobs[j].stage == Running
    case CallDrain => s.phase.Serving?
    case DrainReturns => s.phase.Draining? && s.inflight == 0
    case PoolReturns => s.phase.DrainingPool? && s.unfinished == 0
  }

  /** The locked part of enqueue: find or spawn the actor, count the command. */
  function Enqueue<S>(s: State<S>, id: string, event: string, cancellable: bool): State<S>
    requires id in s.registry ==> s.registry[id] < |s.actors|
  {
    var a := if id in s.registry then s.registry[id] else |s.actors|;
    var actors := if id in s.registry then s.actors else s.actors + [Actor(id, [], 0, Idle)];
    s.(actors := actors[a := actors[a].(pending := actors[a].pending + 1)],
       registry := s.registry[id := a],
       tickets := s.tickets + [Ticket(id, event, cancellable, a, Sending)],
       inflight := s.inflight + 1)
  }

  ghost predicate RegistryInRange<S>(s: State<S>) {
    forall id :: id in s.registry ==> s.registry[id] < |s.actors|
  }

  function SetPc<S>(s: State<S>, a: nat, pc: Pc<S>): State<S>
    requires a < |s.actors|
  {
    s.(actors := s.actors[a := s.actors[a].(pc := pc)])
  }

  function SetTicket<S>(s: State<S>, t: nat, stage: TicketStage): State<S>
    requires t < |s.tickets|
  {
    s.(tickets := s.tickets[t := s.tickets[t].(stage := stage)])
  }

  function SetAttempt<S>(s: State<S>, i: nat, stage: AttemptStage): State<S>
    requires i < |s.attempts|
  {
    s.(attempts := s.attempts[i := s.attempts[i].(stage := stage)])
  }

  function SetJob<S>(s: State<S>, j: nat, stage: JobStage): State<S>
    requires j < |s.jobs|
  {
    s.(jobs := s.jobs[j := s.jobs[j].(stage := stage)])
  }

  /** Whom an outcome notifies: the parent, on a first completion. */
  function Notified<S>(p: Params<S>, id: string, before: S, after: S): Option<string> {
    if !p.complete(before) && p.complete(after) then p.parent(id) else None
  }

  /** The write-back of an outcome of the event on the state read. */
  function WriteBack<S>(p: Params<S>, s: State<S>, a: nat, after: S): State<S>
    requires a < |s.actors| && s.actors[a].pc.Working?
  {
    var Actor(id, _, _, pc) := s.actors[a];
    var notified := Notified(p, id, pc.read, after);
    SetPc(s, a, Settled).(
      rows := s.rows[id := after],
      written := s.written[id := Outcomes(s, id) + [after]],
      served := s.served[id := Logged(s.served, id) + [pc.cmd]],
      attempts := if notified.Some? then s.attempts + [Attempt(notified.value, Checking)] else s.attempts,
      inflight := if notified.Some? then s.inflight + 1 else s.inflight)
  }

  function Next<S>(p: Params<S>, s: State<S>, l: Label<S>): State<S>
    requires RegistryInRange(s) && Possible(p, s, l)
  {
    match l
    case Accept(id, event, cancellable) => Enqueue(s, id, event, cancellable)
    case Send(t) =>
      var k := s.tickets[t];
      var a := s.actors[k.owner];
      SetTicket(s, t, Placed).(
        actors := s.actors[k.owner := a.(mailbox := a.mailbox + [Command(t, k.event)])],
        placed := s.placed[k.id := Logged(s.placed, k.id) + [Command(t, k.event)]])
    case GiveUp(t) =>
      var k := s.tickets[t];
      SetTicket(s, t, GivingUp).(actors := s.actors[k.owner := s.actors[k.owner].(pending := s.actors[k.owner].pending - 1)])
    case ReportCancelled(t) => SetTicket(s, t, Cancelled).(inflight := s.inflight - 1)
    case Receive(a) =>
      s.(actors := s.actors[a := s.actors[a].(mailbox := s.actors[a].mailbox[1..], pc := Received(s.actors[a].mailbox[0]))])
    case Read(a) =>
      SetPc(s, a, Working(s.actors[a].pc.cmd, RowOf(p, s, s.actors[a].id), p.jobs))
    case Submit(a) =>
      var pc := s.actors[a].pc;
      SetPc(s, a, pc.(jobsLeft := pc.jobsLeft - 1)).(
        jobs := s.jobs + [Job(a, pc.cmd.ticket, Waiting)], unfinished := s.unfinished + 1)
    case Write(a, after) => WriteBack(p, s, a, after)
    case Release(a) => s.(actors := s.actors[a := s.actors[a].(pending := s.actors[a].pending - 1, pc := Releasing)])
    case Finish(a) => SetPc(s, a, Idle).(inflight := s.inflight - 1)
    case Evict(a) => SetPc(s, a, Evicting).(registry := s.registry - {s.actors[a].id})
    case Cleanup(a) => SetPc(s, a, Gone)
    case Skip(i) => SetAttempt(s, i, Over).(inflight := s.inflight - 1)
    case Forward(i, event) => Enqueue(SetAttempt(s, i, Dispatching(|s.tickets|)), s.attempts[i].parent, event, false)
    case EndAttempt(i) => SetAttempt(s, i, Over).(inflight := s.inflight - 1)
    case QueueJob(j) => SetJob(s, j, Queued)
    case StartJob(j) => SetJob(s, j, Running)
    case FinishJob(j) => SetJob(s, j, Finished).(unfinished := s.unfinished - 1)
    case CallDrain => s.(phase := Draining(|s.tickets|))
    case DrainReturns => s.(phase := DrainingPool(s.phase.mark))
    case PoolReturns => s.(phase := Stopped(s.phase.mark))
  }

  /** The steps of attempts, of the pool and of a shutdown leave actors, commands and
      rows alone. */
  lemma ActorsUntouched<S(!new)>(p: Params<S>, s: State<S>, l: Label<S>)
    requires RegistryInRange(s) && Possible(p, s, l) && (ByAttempt(l) || ByPool(l) || ByShutdown(l))
    ensures
      var n := Next(p, s, l);
      && n.actors == s.actors && n.registry == s.registry && n.tickets == s.tickets
      && n.rows == s.rows && n.written == s.written && n.placed == s.placed && n.served == s.served
  {
    hide Enqueue, WriteBack, SetPc, SetTicket, RowOf, Logged;
  }

  // ---- One actor per instance ---------------------------------------------

  /** The registry holds exactly the actors that still serve, each under its
      instance: so no instance has two. */
  ghost predicate OneActor<S>(s: State<S>) {
    && (forall id :: id in s.registry ==>
          s.registry[id] < |s.actors| && s.actors[s.registry[id]].id == id && s.actors[s.registry[id]].Serves())
    && (forall a :: 0 <= a < |s.actors| && s.actors[a].Serves() ==> s.actors[a].id in s.registry && s.registry[s.actors[a].id] == a)
  }

  ghost predicate SameServing<S>(s: State<S>, n: State<S>) {
    && n.registry == s.registry && |n.actors| == |s.actors|
    && forall a :: 0 <= a < |s.actors| ==> n.actors[a].id == s.actors[a].id && n.actors[a].Serves() == s.actors[a].Serves()
  }

  lemma SenderServes<S(!new)>(p: Params<S>, s: State<S>, l: Label<S>)
    requires RegistryInRange(s) && Possible(p, s, l) && BySender(l)
    ensures SameServing(s, Next(p, s, l))
  {}

  lemma WorkServes<S(!new)>(p: Params<S>, s: State<S>, l: Label<S>)
    requires RegistryInRange(s) && Possible(p, s, l) && AtWork(l)
    ensures SameServing(s, Next(p, s, l))
  {}

  lemma AfterWorkServes<S(!new)>(p: Params<S>, s: State<S>, l: Label<S>)
    requires RegistryInRange(s) && Possible(p, s, l) && AfterWork(l) && !l.Evict?
    ensures SameServing(s, Next(p, s, l))
  {}

  /** The steps that neither spawn nor evict an actor. */
  lemma StayingServes<S(!new)>(p: Params<S>, s: State<S>, l: Label<S>)
    requires RegistryInRange(s) && Possible(p, s, l) && !Enqueues(l) && !l.Evict?
    ensures SameServing(s, Next(p, s, l))
  {
    hide Next, Possible;
    if BySender(l) { SenderServes(p, s, l); }
    else if AtWork(l) { WorkServes(p, s, l); }
    else if AfterWork(l) { AfterWorkServes(p, s, l); }
    else { ActorsUntouched(p, s, l); }
  }

  lemma SameServingKeeps<S(!new)>(s: State<S>, n: State<S>)
    requires OneActor(s) && SameServing(s, n)
    ensures OneActor(n)
  {}

  lemma EvictOneActor<S(!new)>(p: Params<S>, s: State<S>, a: nat)
    requires OneActor(s) && Possible(p, s, Evict(a))
    ensures OneActor(Next(p, s, Evict(a)))
  {}

  lemma ForwardOneActor<S(!new)>(p: Params<S>, s: State<S>, i: nat, event: string)
    requires OneActor(s) && Possible(p, s, Forward(i, event))
    ensures OneActor(Next(p, s, Forward(i, event)))
  {
    hide Enqueue;
    EnqueueOneActor(SetAttempt(s, i, Dispatching(|s.tickets|)), s.attempts[i].parent, event, false);
  }

  lemma EnqueueOneActor<S(!new)>(s: State<S>, id: string, event: string, cancellable: bool)
    requires OneActor(s)
    ensures OneActor(Enqueue(s, id, event, cancellable))
  {}

  lemma OneActorStep<S(!new)>(p: Params<S>, s: State<S>, l: Label<S>)
    requires OneActor(s) && Possible(p, s, l)
    ensures OneActor(Next(p, s, l))
  {
    if l.Accept? {
      hide OneActor, Enqueue;
      EnqueueOneActor(s, l.id, l.event, l.cancellable);
    } else {
      hide Next, Possible, SameServing;
      if l.Forward? {
        ForwardOneActor(p, s, l.i, l.event);
      } else if l.Evict? {
        EvictOneActor(p, s, l.a);
      } else {
        StayingServes(p, s, l);
        SameServingKeeps(s, Next(p, s, l));
      }
    }
  }

  // ---- Pending counts -----------------------------------------------------

  function SendingTo(a: nat): Ticket -> int {
    (t: Ticket) => if t.owner == a && t.stage == Sending then 1 else 0
  }

  function One(b: bool): int { if b then 1 else 0 }

  /** What `pending` should be: the senders in mid-flight, the mailbox, and the
      command being processed. */
  function Load<S>(s: State<S>, a: nat): int
    requires a < |s.actors|
  {
    Sum(s.tickets, SendingTo(a)) + |s.actors[a].mailbox| + One(s.actors[a].Processing())
  }

  ghost predicate PendingExact<S>(s: State<S>) {
    && (forall a :: 0 <= a < |s.actors| ==> s.actors[a].pending == Load(s, a))
    && (forall t :: 0 <= t < |s.tickets| ==> s.tickets[t].owner < |s.actors|)
  }

  /** A step of actors alone that keeps `pending` in line with the mailbox and the
      command in hand. */
  ghost predicate SameLoad<S>(s: State<S>, n: State<S>) {
    && n.tickets == s.tickets && |n.actors| == |s.actors|
    && forall a :: 0 <= a < |s.actors| ==>
         n.actors[a].pending - |n.actors[a].mailbox| - One(n.actors[a].Processing())
         == s.actors[a].pending - |s.actors[a].mailbox| - One(s.actors[a].Processing())
  }

  lemma WorkLoad<S(!new)>(p: Params<S>, s: State<S>, l: Label<S>)
    requires RegistryInRange(s) && Possible(p, s, l) && AtWork(l)
    ensures SameLoad(s, Next(p, s, l))
  {}

  lemma AfterWorkLoad<S(!new)>(p: Params<S>, s: State<S>, l: Label<S>)
    requires RegistryInRange(s) && Possible(p, s, l) && AfterWork(l)
    ensures SameLoad(s, Next(p, s, l))
  {}

  lemma OthersLoad<S(!new)>(p: Params<S>, s: State<S>, l: Label<S>)
    requires RegistryInRange(s) && Possible(p, s, l) && (ByAttempt(l) || ByPool(l) || ByShutdown(l))
    ensures SameLoad(s, Next(p, s, l))
  {
    hide Next, Possible;
    ActorsUntouched(p, s, l);
  }

  lemma NoSenders(tickets: seq<Ticket>, a: nat)
    requires forall t :: 0 <= t < |tickets| ==> tickets[t].owner < a
    ensures Sum(tickets, SendingTo(a)) == 0
  {
    SumZero(tickets, SendingTo(a));
  }

  lemma EnqueuePending<S(!new)>(s: State<S>, id: string, event: string, cancellable: bool)
    requires OneActor(s) && PendingExact(s)
    ensures PendingExact(Enqueue(s, id, event, cancellable))
  {
    var n := Enqueue(s, id, event, cancellable);
    var ticket := n.tickets[|s.tickets|];
    forall a | 0 <= a < |n.actors| ensures n.actors[a].pending == Load(n, a) {
      SumAppend(s.tickets, ticket, SendingTo(a));
      if a == |s.actors| { NoSenders(s.tickets, a); } else { assert s.actors[a].pending == Load(s, a); }
    }
  }

  lemma TicketStepPending<S(!new)>(p: Params<S>, s: State<S>, l: Label<S>)
    requires RegistryInRange(s) && PendingExact(s) && Possible(p, s, l) && BySender(l)
    ensures PendingExact(Next(p, s, l))
  {
    var n := Next(p, s, l);
    forall a | 0 <= a < |n.actors| ensures n.actors[a].pending == Load(n, a) {
      SumUpdate(s.tickets, l.t, n.tickets[l.t], SendingTo(a));
      assert s.actors[a].pending == Load(s, a);
    }
  }

  lemma ForwardPending<S(!new)>(p: Params<S>, s: State<S>, i: nat, event: string)
    requires OneActor(s) && PendingExact(s) && Possible(p, s, Forward(i, event))
    ensures PendingExact(Next(p, s, Forward(i, event)))
  {
    var m := SetAttempt(s, i, Dispatching(|s.tickets|));
    forall a | 0 <= a < |m.actors| ensures m.actors[a].pending == Load(m, a) { assert s.actors[a].pending == Load(s, a); }
    EnqueuePending(m, s.attempts[i].parent, event, false);
  }

  lemma SameLoadPending<S(!new)>(s: State<S>, n: State<S>)
    requires PendingExact(s) && SameLoad(s, n)
    ensures PendingExact(n)
  {
    forall a | 0 <= a < |n.actors| ensures n.actors[a].pending == Load(n, a) {
      assert s.actors[a].pending == Load(s, a);
    }
  }

  lemma PendingStep<S(!new)>(p: Params<S>, s: State<S>, l: Label<S>)
    requires OneActor(s) && PendingExact(s) && Possible(p, s, l)
    ensures PendingExact(Next(p, s, l))
  {
    if l.Accept? {
      EnqueuePending(s, l.id, l.event, l.cancellable);
    } else {
      hide Next, Possible, PendingExact, SameLoad;
      if l.Forward? {
        ForwardPending(p, s, l.i, l.event);
      } else if BySender(l) {
        TicketStepPending(p, s, l);
      } else {
        if AtWork(l) { WorkLoad(p, s, l); } else if AfterWork(l) { AfterWorkLoad(p, s, l); } else { OthersLoad(p, s, l); }
        SameLoadPending(s, Next(p, s, l));
      }
    }
  }

  /** A pending count is never negative, and an actor that evicts itself, because
      its count is zero, has nobody sending to it and nothing in its mailbox. */
  lemma ZeroPendingIsEmpty<S(!new)>(s: State<S>, a: nat)
    requires PendingExact(s) && a < |s.actors|
    ensures s.actors[a].pending >= 0
    ensures s.actors[a].pending == 0 ==>
      && s.actors[a].mailbox == [] && !s.actors[a].Processing()
      && forall t :: 0 <= t < |s.tickets| && s.tickets[t].owner == a ==> s.tickets[t].stage != Sending
  {
    SumNonNegative(s.tickets, SendingTo(a));
    assert s.actors[a].pending == Load(s, a);
    if s.actors[a].pending == 0 {
      forall t | 0 <= t < |s.tickets| && s.tickets[t].owner == a ensures s.tickets[t].stage != Sending {
        SumAtLeast(s.tickets, SendingTo(a), t);
      }
    }
  }

  // ---- The in-flight count ------------------------------------------------

  /** What an actor holds of the in-flight count. */
  function Held<S>(): Actor<S> -> int {
    (a: Actor<S>) => a.pending + One(a.pc.Releasing?)
  }

  function HeldByTicket(): Ticket -> int {
    (t: Ticket) => One(t.stage == GivingUp)
  }

  function HeldByAttempt(): Attempt -> int {
    (a: Attempt) => One(a.stage != Over)
  }

  function JobOpen(): Job -> int {
    (j: Job) => One(j.stage != Finished)
  }

  /** `inflight` is all the pending commands, the actors and senders between their
      decrement and Done, and the auto-join attempts; `unfinished` is the jobs
      submitted and not done. */
  ghost predicate InflightExact<S>(s: State<S>) {
    && s.inflight == Sum(s.actors, Held()) + Sum(s.tickets, HeldByTicket()) + Sum(s.attempts, HeldByAttempt())
    && s.unfinished == Sum(s.jobs, JobOpen())
  }

  lemma EnqueueInflight<S(!new)>(s: State<S>, id: string, event: string, cancellable: bool)
    requires OneActor(s) && InflightExact(s)
    ensures InflightExact(Enqueue(s, id, event, cancellable))
  {
    var n := Enqueue(s, id, event, cancellable);
    var a := n.registry[id];
    var actors := if id in s.registry then s.actors else s.actors + [Actor(id, [], 0, Idle)];
    if id !in s.registry { SumAppend(s.actors, Actor(id, [], 0, Idle), Held()); }
    SumUpdate(actors, a, n.actors[a], Held());
    SumAppend(s.tickets, n.tickets[|s.tickets|], HeldByTicket());
  }

  lemma WorkInflight<S(!new)>(p: Params<S>, s: State<S>, l: Label<S>)
    requires RegistryInRange(s) && InflightExact(s) && Possible(p, s, l) && AtWork(l)
    ensures InflightExact(Next(p, s, l))
  {
    hide Sum;
    var n := Next(p, s, l);
    SumUpdate(s.actors, l.a, n.actors[l.a], Held());
    if l.Submit? { SumAppend(s.jobs, n.jobs[|s.jobs|], JobOpen()); }
    if l.Write? && n.attempts != s.attempts { SumAppend(s.attempts, n.attempts[|s.attempts|], HeldByAttempt()); }
  }

  lemma AfterWorkInflight<S(!new)>(p: Params<S>, s: State<S>, l: Label<S>)
    requires RegistryInRange(s) && InflightExact(s) && Possible(p, s, l) && AfterWork(l)
    ensures InflightExact(Next(p, s, l))
  {
    hide Sum;
    var n := Next(p, s, l);
    SumUpdate(s.actors, l.a, n.actors[l.a], Held());
  }

  lemma TicketInflight<S(!new)>(p: Params<S>, s: State<S>, l: Label<S>)
    requires RegistryInRange(s) && InflightExact(s) && Possible(p, s, l) && BySender(l)
    ensures InflightExact(Next(p, s, l))
  {
    hide Sum;
    var n := Next(p, s, l);
    SumUpdate(s.tickets, l.t, n.tickets[l.t], HeldByTicket());
    if !l.ReportCancelled? {
      var a := s.tickets[l.t].owner;
      SumUpdate(s.actors, a, n.actors[a], Held());
    }
  }

  lemma AttemptInflight<S(!new)>(p: Params<S>, s: State<S>, l: Label<S>)
    requires RegistryInRange(s) && InflightExact(s) && Possible(p, s, l) && ByAttempt(l)
    ensures InflightExact(Next(p, s, l))
  {
    hide Sum;
    SumUpdate(s.attempts, l.i, Next(p, s, l).attempts[l.i], HeldByAttempt());
  }

  lemma PoolInflight<S(!new)>(p: Params<S>, s: State<S>, l: Label<S>)
    requires RegistryInRange(s) && InflightExact(s) && Possible(p, s, l) && ByPool(l)
    ensures InflightExact(Next(p, s, l))
  {
    hide Sum;
    SumUpdate(s.jobs, l.j, Next(p, s, l).jobs[l.j], JobOpen());
  }

  lemma ShutdownInflight<S(!new)>(p: Params<S>, s: State<S>, l: Label<S>)
    requires RegistryInRange(s) && InflightExact(s) && Possible(p, s, l) && ByShutdown(l)
    ensures InflightExact(Next(p, s, l))
  {
    hide Sum;
  }

  lemma ForwardInflight<S(!new)>(p: Params<S>, s: State<S>, i: nat, event: string)
    requires OneActor(s) && InflightExact(s) && Possible(p, s, Forward(i, event))
    ensures InflightExact(Next(p, s, Forward(i, event)))
  {
    var m := SetAttempt(s, i, Dispatching(|s.tickets|));
    SumUpdate(s.attempts, i, m.attempts[i], HeldByAttempt());
    EnqueueInflight(m, s.attempts[i].parent, event, false);
  }

  lemma InflightStep<S(!new)>(p: Params<S>, s: State<S>, l: Label<S>)
    requires OneActor(s) && InflightExact(s) && Possible(p, s, l)
    ensures InflightExact(Next(p, s, l))
  {
    if l.Accept? {
      EnqueueInflight(s, l.id, l.event, l.cancellable);
    } else {
      hide Next, Possible, InflightExact;
      if l.Forward? { ForwardInflight(p, s, l.i, l.event); }
      else if BySender(l) { TicketInflight(p, s, l); }
      else if AtWork(l) { WorkInflight(p, s, l); }
      else if AfterWork(l) { AfterWorkInflight(p, s, l); }
      else if ByAttempt(l) { AttemptInflight(p, s, l); }
      else if ByPool(l) { PoolInflight(p, s, l); }
      else { ShutdownInflight(p, s, l); }
    }
  }
}
