/** The stored row of an instance (persistence/others.go, dto/journey.go). */
module Persistence {
  import opened Model

  /** The active top-level state and, inside a composite, its active substate. */
  datatype StateContainer = StateContainer(state: State, substate: Option<State>) {
    function EffectiveState(): State { if substate.Some? then substate.value else state }

    function EffectiveId(): string { EffectiveState().Id() }

    function SubstateId(): string { if substate.Some? then substate.value.Id() else "" }
  }

  /** One step of an instance's history; the initial entry has no event. */
  datatype JourneyEntry = JourneyEntry(
    event: string,
    trigger: Trigger,
    kind: Kind,
    fromState: string,
    fromSubstate: string,
    toState: string,
    toSubstate: string)

  datatype Row = Row(
    parentId: Option<string>,
    def: Workflow,
    current: StateContainer,
    lastTransition: string,
    contextMap: Context,
    compositeHistory: map<string, string>,
    journey: seq<JourneyEntry>,
    version: int,
    complete: bool,
    forkGeneration: string,
    pendingForkGeneration: string,
    deleted: bool)

  /** isEndState */
  predicate IsEndState(def: Workflow, at: StateContainer) {
    at.state.Id() in def.endStates
  }

  /** resolveInitialPosition: where an instance starting in `s` really is. */
  function InitialPosition(s: State): (r: Option<StateContainer>)
    ensures r.Some? ==> r.value.state == s
    ensures r.Some? ==> r.value.substate == if s.CompositeState? then s.FindSubstate(s.initialSubstate) else None
    ensures r.None? <==> s.CompositeState? && s.FindSubstate(s.initialSubstate).None?
  {
    if !s.CompositeState? then Some(StateContainer(s, None))
    else
      match s.FindSubstate(s.initialSubstate)
      case None => None
      case Some(sub) => Some(StateContainer(s, Some(sub)))
  }

  function InitialEntry(at: StateContainer): JourneyEntry {
    JourneyEntry("", TriggerUnset, KindUnset, "", "", at.state.Id(), at.SubstateId())
  }
}
