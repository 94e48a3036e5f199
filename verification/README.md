# brokr in Dafny

brokr is a workflow engine for state machines in the style of OMG UML 2.5.1 (sections 14.2.3.4, 14.2.3.7,
14.2.3.8 and 14.2.3.9). A definition has simple, action and composite states, transitions with guards, triggers
and kinds, forks and joins over child instances, history, and delayed automatic transitions. Instances are rows
of a table; each is served by an actor that takes its events one at a time.

This project models that engine and proves what its documentation relies on. Everything the process takes from
outside (float parsing, the order of a Go map range, HTTP replies, UUIDs, whether an insert or a save succeeds)
is a parameter that may answer differently each time. Code that changes fields or tables in place is written as
classes and methods, each proved against a function on values; the laws are about those functions.

| file | what it holds |
|---|---|
| Model, Persistence, Lookup | data types, guards, and the lookups as one ordered list of candidates |
| Interpolation, Actions | placeholder substitution under any iteration order; action lists |
| Children, Transitions, WorkflowOps | child creation, one transition, the automatic chain, one event, creation |
| Effects | what a transition and an action list do, read off the definition |
| RunInvariants, AutomaticChain, Creation, Generations, Forest | what holds of every row after any sequence of operations |
| Offers | the promise of the possible events, and when it holds |
| AutoJoin | siblings that complete while their parent waits at a join, step by step |
| Activities | timers and do-activities beside events, rollbacks and evictions, step by step |
| Sums, Dispatcher, DispatcherOrder, DispatcherDrain, Mailboxes | the actors, their counters, order, refinement, drain and shutdown |
| EngineDispatch | the dispatcher with processEvent in it, serving the instances of the table |
| Witnesses | concrete runs of what the engine does not promise |
| Defaults, SameMeaning, DefaultsMeaning | the normal form of a definition and why it means the same |
| Json, AuthoredJson, Storage | definitions and positions as JSON trees, what an author may write, and what survives storage |
| DefaultsStored | which values are filled in, and that filled-in definitions survive storage |
| Graph | the drawing of a definition and its agreement with the engine |

`dafny verify dfyconfig.toml` checks all of it.

## Where the code may surprise

The proofs follow the code, also where its comments or documentation suggest something else.

- The automatic chain applies at most 99 hops before it gives up, not 100: the limit is checked before the next
  lookup (engine/transitions.go:438-445).
- The chain never asks the join gate, so a join that is AUTOMATIC fires ungated (as README.md:885 warns).
- `possibleEventsFor` is documented as listing every event that would succeed now. Both directions fail: the join
  gate can refuse an offered event, and so can an action, a target or the chain (Offers says when none of these
  does); and a delayed transition's event, which its timer sends, succeeds without being listed.
- A definition that forks, or creates a child, on its way to its first resting place cannot be instantiated,
  because its row does not exist yet when the child looks for its parent.
- At most one do-activity is *running* per instance, but two can be *uncancelled* while an evicted actor is
  between taking a cancel function and calling it, and only then.
- A fork's children are inserted before the parent commits, and stay if it rolls back. One that finishes before the
  commit is not noticed by auto-join, and neither are children that start in an end state.
- Only successful runs keep their meaning under defaults: a composite without an initial substate fails as
  authored and works once filled in.

## Model

| member | source | states |
|---|---|---|
| `Model.GuardOperators` | model/guard.go:58-94 | EQ/NEQ and EXISTS/NOT_EXISTS are exact opposites on every context, and the four ordering operators are complementary in pairs where both sides parse |
| `Model.PlainOperators` | model/guard.go:58-94 | an absent guard passes and one without an operator never does; EXISTS passes iff the key is present, EQ iff it is present with that value, NOT_EXISTS and NEQ iff not |
| `Model.OrderOperators` | model/guard.go:72-90 | GT, GTE, LT, LTE pass iff the key is present, both sides parse, and the context's number is above, above or the same, below, below or the same, with the infinities in order and NaN in none |
| `Model.FiniteOperators` | model/guard.go:72-90 | on two finite numbers that is the order of the reals |
| `Model.FindState` | engine/transitions.go:23-30 | the first state with the id, or none exactly when no state has it |
| `Model.FindStateIsFirst` | engine/transitions.go:23-30 | where several states share an id, it is the first |
| `Lookup.CandidateIsFirst` | engine/transitions.go:36-124 | for every event the lookup returns the first enabled entry of one list: sub-transitions of the active substate, then top-level, then common |
| `Lookup.Precedence` | engine/transitions.go:36-124 | which transition an event takes, by index: the first enabled sub-transition out of the active substate; failing that, the first top-level one; failing that, the first common one that lists the state; failing that, none |
| `Lookup.CommonKeeps` | engine/transitions.go:52-74 | a common transition that is a candidate keeps its target, event, trigger, kind, guard and actions |
| `Lookup.AutomaticIsFirst` | engine/transitions.go:374-399 | the automatic lookup returns the first enabled zero-delay AUTOMATIC scoped candidate, and finds none exactly when there is none; common transitions never chain |
| `Lookup.AutomaticPrecedence` | engine/transitions.go:374-399 | and by index: the first that can hop out of the active substate, else the first out of the state, else none |
| `Lookup.DeferredIsFilter` | engine/transitions.go:403-432 | the deferred transitions are all enabled delayed AUTOMATIC scoped candidates, in order, each leaving from the state or the substate |
| `Lookup.PossibleEventsExact` | engine/workflow_ops.go:243-275 | an event is offered exactly when some enabled non-AUTOMATIC candidate carries it, and then it is never refused for want of a transition |
| `Lookup.PossibleEventsFor` | engine/workflow_ops.go:243-275 | the loops collect exactly those events, in order of precedence |
| `Lookup.Collect` | engine/workflow_ops.go:246-257 | one scope's offered events are appended in order |
| `Lookup.PendingJoinIsFirst` | engine/autojoin.go:20-29 | the pending join is the first scoped candidate that is a join, by kind or by the older flag |
| `Lookup.AutoJoinResolves` | engine/autojoin.go:20-29 | the event of the join auto-join picks resolves to that join or to an earlier enabled candidate carrying the same event |
| `Offers.OfferedOutcome` | engine/workflow_ops.go:236-275 | an offered event finds a transition, and is turned away at the gate exactly when that is a join with an incomplete child in scope |
| `Offers.OfferedCommits` | engine/workflow_ops.go:179-229 | where every target can be entered and nothing forks, creates a child or waits for a reply, an offered event commits exactly when the gate passes and the automatic hops settle within their limit |
| `Offers.PromiseUpToGate` | engine/workflow_ops.go:236-242 | over every run: in such a definition without automatic cycles an offered event succeeds exactly when the gate passes |
| `Offers.UnofferedIsAutomatic` | engine/workflow_ops.go:243-275 | an event that finds a transition without being offered takes an AUTOMATIC one; from a settled row, a delayed or a common one |
| `Witnesses.OfferedAndRefused` | engine/workflow_ops.go:197-205 | a run after which an event is offered and refused for an incomplete child |
| `Witnesses.UnofferedAndTaken` | engine/workflow_ops.go:243-275 | a run after which a delayed transition's event is not offered and succeeds when sent |
| `Interpolation.Interpolate` | model/executions.go:87-92 | the map-range loop is one replacement per key in the order visited |
| `Interpolation.InterpolateConfluent` | model/executions.go:87-92 | on a clean template, with `$`-free values and `}`-free keys, every iteration order gives the one simultaneous left-to-right substitution |
| `Interpolation.InterpolateOrderMatters` | model/executions.go:87-92 | a value that holds a placeholder makes two orders give two results |
| `Interpolation.ExecuteSetContextMapAction` | model/executions.go:104-109 | the loop over the variables writes each interpolated value into the context later ones see |
| `Interpolation.SetVariablesOrderIndependent` | model/executions.go:104-109 | when no value mentions a key that is set, every order leaves the context with each value expanded under the context the action started from |
| `Actions.Execute` | model/statemachine.go:326-364 | the two-index loop computes ExecuteActions, about which Effects proves what each list leaves |
| `Actions.RunDefinitions` | model/statemachine.go:333-341 | the inner loop covers exactly the maximal run and fails if a definition in it is missing |
| `Actions.ExecuteAction` | model/statemachine.go:292-317 | one action computes ExecuteOne; Effects.SetOne, RequestRuns and ChildCreatedAlone say what that is for each type |
| `Actions.ExecuteActionsGrows` | model/statemachine.go:326-364 | running actions only adds new ad-hoc children of the instance to the table; no row changes and no fork cohort is touched, even on failure |
| `Effects.AppendLists` | model/statemachine.go:326-364 | a list runs its parts in order, each on the context and table the one before left, and nothing runs after a part that fails; only parts that meet in a run of create-child actions merge |
| `Effects.SetListRuns` | model/executions.go:104-109 | SetContextMap actions whose values mention no key they set leave the start plus each value with its placeholders filled in, later actions seeing earlier ones, in any map order, and never fail |
| `Effects.RequestRuns` | model/statemachine.go:292-317 | an unawaited request and an untyped action change nothing; an awaited reply overrides the keys it holds and keeps the others; a refusal fails the list with the context as it was |
| `Effects.RequestSent` | model/executions.go:28-56 | the request has GET or the author's verb, the address and every variable filled in, and the token only if forwarded |
| `Effects.ChildrenCreated` | model/statemachine.go:333-356 | a run of create-child actions inserts one child per action and leaves the last id and all ids, comma-joined in order; it fails, context untouched, exactly when a definition is missing or a child cannot be created |
| `Effects.ChildCreatedAlone` | model/executions.go:116-133 | executed by itself, a create-child action inserts one child and records its id, or fails with the context as it was |
| `Children.Database.CreateChildWorkflowInstance` | engine/children.go:35-67 | a child is inserted at the first state's initial position, under an existing parent and a free id, or nothing is |
| `Children.Database.CreateChildWorkflowInstancesBatchWithGeneration` | engine/children.go:90-111 | fills slot i with the id of definition i's child; every definition is attempted and one failure fails the batch |
| `Children.BatchInserts` | engine/children.go:90-111 | a successful batch has inserted one row per definition, all new and distinct, in order, each with its definition, parent and generation |
| `Children.CreateBatchGrows` | engine/children.go:90-111 | even a failed batch only adds new children of its parent and changes no row |
| `Children.BatchSucceedsExactly` | engine/children.go:90-111 | a batch succeeds exactly when the parent is live, every first state can be entered and every child can be inserted under a new id of its own |
| `Children.ChildStarts` | engine/children.go:35-67 | a new child's row, field by field: position, empty context and history, one journey entry, complete iff in an end state |
| `Children.GateScope` | engine/children.go:157-171 | the gate looks at the children not withdrawn, of this parent, and of the pending fork if there is one; without one, children of earlier forks count |
| `Transitions.WorkflowInstance.ApplyTransition` | engine/transitions.go:225-363 | the in-place step on the fields computes Apply in row, context, table and moved flag, failure included; MoveRuns, MoveRecords, MoveStops and InternalRuns say what that is |
| `Effects.MoveRuns` | engine/transitions.go:257-341 | every successful move runs the exit lists of substate and state, then the fork's inserts, then the entry lists of state and substate, then its own actions, each list read off the state by its constructor; inside a composite only the substates' lists; it lands where the target says, and the trace names the states in that order |
| `Effects.MoveRecords` | engine/transitions.go:274-358 | the row of a move: new position, remembered substate, generation, the text of the last transition, one journey entry with both positions; every other field as it was |
| `Effects.MoveStops` | engine/transitions.go:262-341 | a failed move stops at the exit list, the target, the fork or the entry list that failed, and leaves the table as it was then |
| `Effects.InternalRuns` | engine/transitions.go:243-258 | an internal transition runs only its own actions, leaves and enters nothing, adds one journey entry, and fails exactly when they do |
| `Transitions.WorkflowInstance.Leave` | engine/transitions.go:269-286 | computes the exit half of a move (Effects.MoveRuns says which lists), with the history recorded when a composite is left for good |
| `Transitions.WorkflowInstance.Relocate` | engine/transitions.go:287-323 | the state change with its fork or join bookkeeping, which a local move skips |
| `Transitions.WorkflowInstance.ForkOrJoin` | engine/transitions.go:298-322 | a fork stamps a fresh generation on its children and waits for it; a join clears the pending one |
| `Transitions.WorkflowInstance.Arrive` | engine/transitions.go:325-341 | entry actions of state then substate, only of the substate for a local move |
| `Transitions.WorkflowInstance.RunAutomaticChain` | engine/transitions.go:436-454 | the loop follows the chain specification hop by hop and gives up before the hundredth lookup |
| `WorkflowOps.Engine.Process` | engine/workflow_ops.go:147-233 | an event commits the whole step or leaves every stored row alone, and reports the state, the move and the parent to notify |
| `WorkflowOps.CommitStores` | engine/workflow_ops.go:206-226 | a committed event stores the row the transition and the chain left with their context, one version on, complete iff in an end state, touches no other row beyond their inserts, and notifies on a first completion only |
| `WorkflowOps.RefusalReasons` | engine/workflow_ops.go:163-226 | each outcome from its cause: unknown or withdrawn instance, no transition, closed gate, failed step or chain, failed save; the first three change nothing |
| `WorkflowOps.Engine.Save` | engine/workflow_ops.go:212-226 | the save recomputes Complete, counts the version, and notifies the parent exactly on a first completion |
| `WorkflowOps.Engine.New` | engine/workflow_ops.go:30-65 | creation starts at the first state, runs the chain, and inserts the settled row once |
| `WorkflowOps.InstanceStarts` | engine/workflow_ops.go:30-65 | the stored row of a new instance, field by field, after the chain from the first state's initial position |
| `WorkflowOps.Engine.WithdrawChild` | engine/children.go:135-150 | withdrawing soft-deletes a live child of the parent and nothing else |
| `WorkflowOps.WithdrawnIsOut` | engine/children.go:135-171 | a withdrawn child leaves every gate's scope and nothing else changes; only its own parent can withdraw it |
| `RunInvariants.RunInvariant` | engine/workflow_ops.go:147-233 | after any sequence of creations, events, child creations and withdrawals every row satisfies the combined invariant |
| `RunInvariants.DestinationPositioned` | engine/transitions.go:126-154 | from a well-formed position every target is well formed and is the one the transition names |
| `RunInvariants.JourneyReplays` | engine/transitions.go:343-358 | in every stored row the journey is one initial entry and one per transition ever committed, end to end, ending at the current position; all of them authored |
| `RunInvariants.TraceReplays` | engine/transitions.go:257-341 | replaying all committed entries and exits from the initial configuration gives exactly the current state and substate, composites bracketing their substates |
| `RunInvariants.PositionHolds` | engine/transitions.go:126-170 | the substate is present exactly inside a composite and belongs to it, and every remembered substate exists |
| `RunInvariants.HistoryReentry` | engine/transitions.go:274-297 | entering history, self-transitions included, lands on the substate active when the composite was last left, and never fails to find it |
| `RunInvariants.CommitInvariant` | engine/workflow_ops.go:212-226 | Complete holds exactly at end states, Version counts committed events, and no enabled zero-delay automatic transition is waiting, except in a child that has processed no event |
| `RunInvariants.ChildIsNotChained` | engine/children.go:48-63 | that exception is real: a child can be created with an automatic transition ready to fire |
| `RunInvariants.RefusalKeepsRows` | engine/transitions.go:207-224 | a refused event changes no row; at most it leaves new children behind |
| `RunInvariants.ApplyKeepsConsistent` | engine/transitions.go:225-363 | one transition keeps position, trace, history and journey in step with one another |
| `RunInvariants.ChainKeepsConsistent` | engine/transitions.go:436-454 | so does the whole chain, and a chain that succeeds leaves nothing enabled |
| `AutomaticChain.ChainExact` | engine/transitions.go:436-454 | the chain succeeds exactly when applying the first enabled automatic transition settles in fewer than 100 hops, with that result; it fails exactly when 100 hops are possible or a hop fails earlier |
| `AutomaticChain.LimitImpliesRepeat` | engine/transitions.go:366-454 | with at most 100 positions, reaching the limit means some position was visited twice |
| `AutomaticChain.AcyclicSettles` | engine/transitions.go:366-454 | with at most 100 positions and no automatic cycle the limit is never reached |
| `AutomaticChain.RepeatFails` | engine/transitions.go:366-454 | where the hops the chain takes change no context and enter no history, a repeated position means the chain fails, by the limit unless a hop fails first |
| `AutomaticChain.SteadyRepeatFails` | engine/transitions.go:366-454 | so it does for every chain of a definition none of whose automatic hops can change a context or enter history |
| `Creation.CreationAddsOneRow` | engine/workflow_ops.go:46-60 | creating an instance adds exactly its own row or nothing: the chain runs before the row exists, so it can create no child |
| `Creation.CreatingStartFails` | engine/children.go:38-41 | if the automatic hops of a start lead, after any number of them, to one that would fork or run a create-child action, the definition cannot be instantiated |
| `Generations.ForkStampsItsChildren` | engine/transitions.go:298-322 | a successful fork waits for exactly the children it just created, one per target, in a cohort no other fork shares; a join waits for none |
| `Generations.GenerationInvariant` | engine/children.go:157-171 | with fresh ids, every generation stays the children of exactly one fork over any run, rolled-back forks included |
| `Generations.GateIsCohort` | engine/children.go:157-171 | the gate under a pending generation passes exactly when every child of that one fork is complete or withdrawn |
| `Generations.JoinPassesOnlyComplete` | engine/workflow_ops.go:197-205 | a join that commits under a pending generation found every non-withdrawn child of it complete |
| `Generations.GateIgnoresOthers` | engine/children.go:157-171 | whatever happens to children of other forks, orphans included, neither blocks nor satisfies the gate |
| `Generations.CohortsStay` | engine/transitions.go:298-322 | no later operation adds to or takes from the cohort of an earlier fork |
| `Witnesses.OrphanStays` | engine/transitions.go:207-224 | a run in which a fork's event is refused and its row unchanged, while the child it created stays, under a generation nobody waits for |
| `Witnesses.UngatedJoin` | engine/transitions.go:436-454 | a run in which the chain hops over an AUTOMATIC join while a child in its scope is incomplete |
| `AutoJoin.CompleteStays` | engine/workflow_ops.go:221 | Complete never goes back when no transition leads out of an end state |
| `AutoJoin.EventIsCommit` | engine/workflow_ops.go:153-177 | a committed event is a step the interleaved protocol allows: it starts an attempt exactly on a first completion |
| `AutoJoin.NoLostWakeUp` | engine/autojoin.go:42-74 | in every interleaving of sibling commits, of the read, count and dispatch of attempts, and of creations and withdrawals out of scope, once all children are complete and all attempts over, the join event has been dispatched and the gate passes |
| `AutoJoin.NothingSentEarly` | engine/autojoin.go:42-74 | in every interleaving a dispatched join event was preceded by a read of the parent waiting at that join with its guard passing, and after it by a look at which all children in scope were complete |
| `AutoJoin.DispatchedEventResolves` | engine/workflow_ops.go:197-205 | the dispatched event finds a transition and is not refused by the gate |
| `AutoJoin.LateParentIsNeverWoken` | engine/autojoin.go:42-74 | conversely, a parent that comes to wait after its children and their attempts are done is never woken |
| `AutoJoin.ForkIsDue` | engine/children.go:48-67 | right after a fork something is due to wake the parent exactly when some target does not start in an end state |
| `AutoJoin.CreationIsElsewhere` | engine/workflow_ops.go:30-65 | creating an instance is a step out of every parent's scope |
| `AutoJoin.ChildIsElsewhere` | engine/children.go:76-78 | so is creating a child by hand, for a parent that waits for a generation |
| `AutoJoin.WithdrawalIsElsewhere` | engine/children.go:135-150 | and withdrawing a child the parent does not wait for |
| `Witnesses.EarlyChild` | engine/transitions.go:207-224 | a run: a fork inserts its child, the child completes and its attempt looks before the parent's commit, which leaves the parent waiting at a join whose gate would pass, with every attempt over |
| `Witnesses.EarlyChildIsMissed` | engine/autojoin.go:42-74 | and auto-join never dispatches that join, however the run goes on, unless the parent gets another child |
| `Activities.ActivityRegistry.StopTimers` | engine/timers.go:23-33 | takes the filed cancel functions and calls every one |
| `Activities.ActivityRegistry.StartDeferred` | engine/timers.go:39-64 | the loop computes StartTimers, about which TimersArmed and ArmedTimers say which timers there are |
| `Activities.TimersArmed` | engine/timers.go:39-64 | the new tasks are exactly one uncancelled, unfired timer per transition whose delay parses, in order, filed under exactly their numbers, and nothing else changes |
| `Activities.ArmedTimers` | engine/transitions.go:194-197 | in every run, arming files exactly the AUTOMATIC transitions of the committed position with a delay that parses and a passing guard, sub-transitions first, each running |
| `Activities.ArmedActivity` | engine/transitions.go:194-197 | in every run, arming starts and files an activity with the do-actions of the active action state, and none otherwise |
| `Activities.ActivityRegistry.StopDoActivity` | engine/doactivity.go:26-37 | takes and cancels the filed activity |
| `Activities.ActivityRegistry.StartDoActivity` | engine/doactivity.go:43-52 | files the activity of a state that has one |
| `Activities.CancelAllCancels` | engine/timers.go:23-33 | stopping cancels exactly what was filed and leaves nothing half stopped |
| `Activities.UnmovedKeepsPosition` | engine/workflow_ops.go:153-161 | an event that left no state commits the position it found, so what is armed still fits |
| `Activities.RunningTasksFit` | engine/transitions.go:194-197 | in every interleaving of events, rollbacks, evictions and firings, work that is running is filed, a running timer leaves from the committed position, a running activity is the committed position's, and there is at most one per instance |
| `Activities.OneLiveExactly` | engine/doactivity.go:26-52 | at every point of every run an instance has at most one uncancelled do-activity exactly when no earlier one has been taken to be stopped and not cancelled yet |
| `Activities.TwoUncancelled` | engine/dispatcher.go:151-157 | a run from the start in which it does not: between an eviction's taking and calling a cancel function, the next actor arms a second activity |
| `Dispatcher.OneActorStep` | engine/dispatcher.go:97-108 | every step keeps the registry holding exactly the serving actors, each under its own instance |
| `Dispatcher.PendingStep` | engine/dispatcher.go:97-148 | every step keeps each actor's pending equal to its mid-flight senders, its mailbox and the command in hand |
| `Dispatcher.InflightStep` | engine/dispatcher.go:97-155 | every step keeps the wait group equal to all pending counts, the steps between a decrement and its Done, and the live auto-join attempts |
| `Dispatcher.ZeroPendingIsEmpty` | engine/dispatcher.go:147-157 | an actor that may evict itself has nobody sending to it and an empty mailbox |
| `DispatcherOrder.OneAtATime` | engine/dispatcher.go:122-164 | at no point of any run do two actors process commands of one instance |
| `DispatcherOrder.CountersExact` | engine/dispatcher.go:97-155 | at every point of every run pending, inflight and the pool's counter are exactly what they count |
| `DispatcherOrder.ExactlyOnce` | engine/dispatcher.go:97-164 | every accepted command is with its sender, reported as cancelled, waiting with the registered actor or served; placed ones are served once, in mailbox order |
| `DispatcherOrder.NoLostUpdate` | engine/dispatcher.go:11-16 | an instance's state is the last of a sequence of outcomes, one per served command, each following from the one before, although reading and writing back are separate steps |
| `DispatcherOrder.RefinesOneMachine` | engine/dispatcher.go:87-164 | every step, seen from one instance, is an arrival at its queue's end, the processing of its head, or nothing: actors come and go unseen |
| `DispatcherOrder.SendingIsServed` | engine/dispatcher.go:97-108 | a command on its way is on its way to the actor in the registry, so eviction strands none |
| `DispatcherOrder.WithinBounds` | engine/dispatcher.go:22-26 | at every point of every run no mailbox holds more than 64 commands and the pool no more jobs than its queue and workers; a sender or a job waits exactly when there is no room |
| `DispatcherDrain.MeasureStep` | engine/autojoin.go:42-74 | every step that does not come from outside lowers a measure over command phases and depths in a forest of instances |
| `DispatcherDrain.DrainTerminates` | engine/dispatcher.go:194-196 | so over a forest the measure bounds every run without arrivals from outside |
| `DispatcherDrain.NeverStuck` | engine/dispatcher.go:110-119 | while anything is in flight or unfinished some step is possible: full mailboxes and a full job queue do not deadlock |
| `DispatcherDrain.ZeroExactlyWhenQuiet` | engine/autojoin.go:38-43 | the wait group is zero exactly when every command is resolved and every attempt over; so it is not zero between a child's completion and the parent's join command |
| `DispatcherDrain.MaximalRunStops` | brokr.go:137-146 | a run that cannot go on by itself has finished both drains, resolved every command, finished every job and retired every actor |
| `DispatcherDrain.ShutdownWaits` | brokr.go:137-146 | when both drains have returned, every command accepted before Drain was called is resolved and every job it submitted is finished |
| `DispatcherDrain.JobsProceed` | model/asyncpool.go:48-66 | while a job is unfinished the bounded pool can queue, start or finish one |
| `Forest.ParentForest` | engine/children.go:38-64 | after any sequence of operations every parent is in the table, strictly above its children: the ParentId links form a forest |
| `Forest.ParentsStay` | engine/children.go:35-67 | no operation removes a row or gives it another parent |
| `EngineDispatch.EventIsStep` | engine/dispatcher.go:69-73 | processEvent is a step an actor may take, a refusal included, and a commit notifies whom the dispatcher notifies |
| `EngineDispatch.DrainEnds` | engine/dispatcher.go:194-196 | for the instances of any table the engine can build, and with nothing assumed of them, from any point of any run a bound holds that no continuation without outside arrivals exceeds |
| `EngineDispatch.DrainCompletes` | brokr.go:137-146 | and where the engine's dispatcher cannot go on, everything is drained and the shutdown has returned |
| `EngineDispatch.ServedRowsSound` | engine/dispatcher.go:11-16 | under the dispatcher, in every interleaving, a row's position is well formed, its definition, parent and generation never change, its version counts no more than the served events, and any change leaves it settled with Complete right |
| `Mailboxes.Registry.Reserve` | engine/dispatcher.go:98-108 | the locked part of enqueue, on actor objects, is the step of the protocol |
| `Mailboxes.Registry.Place` | engine/dispatcher.go:110-112 | so is the send into the mailbox |
| `Mailboxes.Registry.Retract` | engine/dispatcher.go:113-116 | and the cancelled sender's decrement |
| `Mailboxes.Registry.Receive` | engine/dispatcher.go:126-133 | and taking the oldest command |
| `Mailboxes.Registry.Settle` | engine/dispatcher.go:142-145 | and the decrement after processing |
| `Mailboxes.Registry.IdleTimeout` | engine/dispatcher.go:147-163 | the idle actor unregisters itself exactly when eviction is a possible step, and otherwise nothing changes |
| `Defaults.DefaultsNormal` | model/defaults.go:14-147 | the outcome is in normal form through all nested workflows, and a definition is left unchanged exactly when it already was |
| `Defaults.Idempotent` | model/defaults.go:14-147 | applying defaults twice is applying them once, whatever the clock reads either time |
| `Defaults.FillWorkflow` | model/defaults.go:14-41 | the loops over states, transitions and common transitions compute the recursive normalisation |
| `Defaults.FillState` | model/defaults.go:43-109 | per variant computes DefaultState, composite's initial substate and nested actions included; DefaultsStored.WorkflowFilled says which values those are |
| `Defaults.FillTransition` | model/defaults.go:111-126 | trigger, kind, actions and the child workflow of every fork target |
| `DefaultsStored.WorkflowFilled` | model/defaults.go:14-147 | throughout the tree, nested workflows included: which literal value each field left out gets, per variant and type, and that every field the author set is kept |
| `DefaultsStored.FilledInSurvives` | model/defaults.go:43-109 | a filled-in definition comes back from storage exactly when its author gave no state the type of another variant; a type left out is supplied |
| `DefaultsStored.FilledInPositionSurvives` | persistence/state_container.go:46-115 | and so does every position of an instance of it |
| `SameMeaning.CandidateRel` | engine/transitions.go:112-124 | definitions that differ only in what defaults fill in offer related transitions for every event |
| `SameMeaning.ExecuteActionsRel` | model/statemachine.go:326-364 | their actions have the same effect on the context and create related children |
| `SameMeaning.ApplyRel` | engine/transitions.go:225-363 | a transition that succeeds on the one succeeds on the other with the same move, history, generation and journey up to labels |
| `SameMeaning.ChainRel` | engine/transitions.go:436-454 | the automatic chain takes the same hops |
| `DefaultsMeaning.DefaultsRel` | model/defaults.go:14-147 | the filled-in definition is so related exactly when every composite's entry is clear, here and in nested workflows |
| `DefaultsMeaning.ProcessEventRel` | engine/workflow_ops.go:147-233 | an event commits on the filled-in definition with the same effect, and is refused for the same reason unless the step itself failed |
| `DefaultsMeaning.NewInstanceRel` | engine/workflow_ops.go:30-65 | so does creation |
| `DefaultsMeaning.DefaultsPreserveRuns` | model/defaults.go:14-147 | any run of operations that all succeed takes the same transitions, positions, contexts, children and counts on the filled-in definitions |
| `DefaultsMeaning.NamedRunsPreserved` | model/defaults.go:14-147 | so the runs of definitions whose states all have ids are preserved |
| `DefaultsMeaning.EntryFilledIn` | model/defaults.go:93-95 | what filling in an initial substate changes: a composite that could not be entered becomes enterable, and one with a nameless substate is entered elsewhere |
| `DefaultsMeaning.NamedIsClear` | model/defaults.go:14-147 | a definition whose states all have ids, nested workflows included, has clear entries only |
| `Storage.StateRoundTrip` | model/statemachine.go:37-64 | decoding an encoded state gives it back exactly when every state in the tree carries the type of its variant |
| `Storage.WorkflowRoundTrip` | model/statemachine.go:72-92 | the same for whole definitions, through the mutually recursive tree |
| `Storage.CompositeRoundTrip` | model/composite_state.go:67-87 | the same for a composite and its polymorphic substates |
| `Storage.TransitionRoundTrip` | model/statemachine.go:195-231 | the same for a transition, members left out when empty included |
| `Storage.PositionRoundTrip` | persistence/state_container.go:46-115 | Scan of Value is the position exactly when its states are tagged, SQL NULL included |
| `Storage.LegacyNeverConfused` | persistence/state_container.go:88-99 | a bare state never equals an envelope and is scanned as itself without a substate |
| `Storage.UntaggedLosesActions` | model/statemachine.go:57-61 | an action state without a type comes back as a simple state, its actions gone |
| `Storage.EnvelopeWritten` | persistence/state_container.go:46-67 | the members of a written position |
| `Storage.EnvelopeRead` | persistence/state_container.go:69-115 | which envelopes read as which position, and which are refused |
| `AuthoredJson.TransitionRead` | model/statemachine.go:195-231 | an object reads as a transition exactly when each member reads as its field; every member may be left out |
| `AuthoredJson.StateRead` | model/statemachine.go:37-64 | an object reads as a state exactly when its type names the variant, or is left out of a simple one, and each member reads as its field |
| `AuthoredJson.ActionRead` | model/statemachine.go:253-279 | the same for an action |
| `AuthoredJson.WorkflowRead` | model/statemachine.go:72-92 | and for a whole definition |
| `AuthoredJson.TriggerRead` | model/statemachine.go:132-150 | exactly the words AUTOMATIC, USER and SYSTEM in any case, or nothing |
| `AuthoredJson.KindRead` | model/statemachine.go:180-193 | EXTERNAL, INTERNAL, FORK and JOIN in any case, or nothing |
| `AuthoredJson.GuardOpRead` | model/guard.go:30-46 | the eight operators in any case, or nothing |
| `Storage.Column.Write` | persistence/state_container.go:46-67 | Value writes the envelope with a substate only when there is one |
| `Storage.Column.Read` | persistence/state_container.go:69-115 | Scan fills the receiver, and says what a failure leaves in it |
| `Graph.BuildGraph` | dto/graph.go:195-239 | the nested loops draw every state and substate once and every authored transition once, a common one per source, each from its place in the definition |
| `Graph.CandidatesAreDrawn` | dto/graph.go:195-239 | at every well-formed position, what the engine can choose from is exactly what is drawn as leaving from it, scope included |
| `Graph.JourneysAreDrawn` | engine/transitions.go:343-358 | every step of every stored journey but the first went along an edge that leaves from where the step left, in the scope of that place, with its event, trigger, kind and endpoints and the guard of the transition that fired |
| `Graph.MarksAgree` | dto/graph.go:137-163 | end marks agree with the engine; the initial mark follows InitialState, not the first state instances start in |
| `Graph.NodesShow` | dto/graph.go:126-163 | a node shows the lists its state's author wrote, by variant, the composite it is inside, and the marks |
| `Graph.EdgesShow` | dto/graph.go:165-193 | an edge shows every field of its transition, joins in either spelling, and what each fork target is called |

## Left out

- HTTP handlers, server-sent events, the router, the visualizer page, logging, error texts, configuration and boot.
- GORM, Postgres, migrations and seeding: the database is a map of rows, and an event reads and saves its own row as one
  step, except in the dispatcher, where reading and writing back are separate steps.
- Wall-clock time, duration parsing and the idle timeout: a timer that fires and an actor that goes idle are steps
  that may happen at any moment. A shutdown that gives up at its deadline is not modelled.
- UUID generation: ids are given; where a result needs them to be fresh it says so.
- The HTTP request itself: an arbitrary reply that may add to the context or fail. Merged values are strings.
- Floating point: a guard's operands parse, or not, to an ordered value with infinities and NaN; rounding is not modelled.
- JSON text: encoding starts from trees. Key case folding, duplicate keys, non-ASCII upper-casing of enumerations, and the
  difference between an empty and an absent list or map are not modelled.
- The 256 shards of the registry: the model has one map, since an instance always hashes to the same shard.
- The order of concurrent inserts in one batch of children: they happen in list order here.
- An empty list of states makes the code panic; here the creation fails.
- Withdrawal of a child is one step that does not overlap the child's own event.
- Labels of the drawing: action summaries are the actions themselves, and an edge's textual id is its scope and index.
- Nodes and definitions are values: writing defaults through pointers, and aliasing between definitions, is not modelled.
- Timestamps of journey entries.
- Closing one instance's do-activity in the middle of its actions: an activity runs, or is cancelled, as a whole.
- Dispatcher.InflightStep: the number of jobs one command submits is bounded by a parameter.
- Jobs a do-activity submits to the pool: only those of commands are counted. The endless receive loop of an actor is the
  step system; Mailboxes has its critical sections as methods.
- EngineDispatch.ServedRowsSound: rows are taken as created; a withdrawal of the instance while it is served is not a step.
- DispatcherDrain.DrainTerminates: timers count as coming from outside, as they are stopped before the drain; a timer that
  has already fired and not enqueued yet is therefore an arrival.
- AutoJoin.NoLostWakeUp: the parent is taken to stay where it waits, complete children to stay complete, and no child it
  waits for to be withdrawn, until the attempts are over; CompleteStays says when the second holds.
- SameMeaning.ApplyRel: one direction only, for steps that succeed on the definition as authored, since filling in defaults
  can turn a failure into a success (DefaultsMeaning.EntryFilledIn).
- Liveness of deferred transitions: an evicted actor cancels its instance's timers, so none is claimed.
