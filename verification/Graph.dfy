/** The flattened view of a definition that the visualizer draws (dto/graph.go),
    and its agreement with the engine. */
module Graph {
  import opened Model
  import opened Persistence
  import opened Lookup
  import opened RunInvariants

  datatype Node = Node(
    id: string,
    info: Info,
    parentId: string,
    isInitial: bool,
    isEnd: bool,
    isHappyFlow: bool,
    entryActions: seq<Action>,
    exitActions: seq<Action>,
    doActions: seq<Action>,
    substates: seq<string>,
    initialSubstate: string,
    history: string)

  datatype Edge = Edge(
    index: nat,
    scope: string,
    source: string,
    target: string,
    event: string,
    trigger: Trigger,
    kind: Kind,
    guard: Option<Guard>,
    entryActions: seq<Action>,
    join: bool,
    after: string,
    entersHistory: bool,
    forkTargets: seq<string>)

  datatype Drawing = Drawing(
    workflowId: string, version: string, initialState: string, endStates: seq<string>, nodes: seq<Node>, edges: seq<Edge>)

  // ---- One node, one edge -------------------------------------------------

  function Ids(states: seq<State>): seq<string> {
    seq(|states|, i requires 0 <= i < |states| => states[i].Id())
  }

  function NodeFor(s: State, parentId: string, ends: set<string>, initialId: string): Node {
    Node(s.Id(), s.info, parentId, s.Id() == initialId, s.Id() in ends,
         s.info.isHappyFlow.None? || s.info.isHappyFlow.value, s.OnEntry(), s.OnExit(), s.DoActions(),
         if s.CompositeState? then Ids(s.substates) else [],
         if s.CompositeState? then s.initialSubstate else "",
         if s.CompositeState? then s.history else "")
  }

  function Label(f: ForkTarget): string {
    if f.ref == "" && f.childWorkflow.Some? then f.childWorkflow.value.id else f.ref
  }

  function EdgeFor(index: nat, scope: string, t: Transition): Edge {
    Edge(index, scope, t.source, t.target, t.event, t.trigger, t.kind, t.guard, t.entryActions, t.IsJoin(), t.after, t.entersHistory,
         seq(|t.forkTargets|, i requires 0 <= i < |t.forkTargets| => Label(t.forkTargets[i])))
  }

  // ---- What there is to draw ----------------------------------------------

  /** A state, or a substate, by its place in the definition. */
  datatype Spot = TopSpot(s: nat) | SubSpot(s: nat, i: nat) {
    predicate In(wf: Workflow) {
      && s < |wf.states|
      && (SubSpot? ==> wf.states[s].CompositeState? && i < |wf.states[s].substates|)
    }

    function Get(wf: Workflow): State requires In(wf) {
      if TopSpot? then wf.states[s] else wf.states[s].substates[i]
    }

    function Parent(wf: Workflow): string requires In(wf) {
      if TopSpot? then "" else wf.states[s].Id()
    }
  }

  /** A transition as authored, by its place in the definition; a common one per
      source it lists. */
  datatype Ref = TopRef(i: nat) | SubRef(s: nat, i: nat) | CommonRef(i: nat, k: nat) {
    predicate In(wf: Workflow) {
      match this
      case TopRef(i) => i < |wf.transitions|
      case SubRef(s, i) => s < |wf.states| && wf.states[s].CompositeState? && i < |wf.states[s].subTransitions|
      case CommonRef(i, k) => i < |wf.commonTransitions| && k < |wf.commonTransitions[i].sourceList|
    }

    function Get(wf: Workflow): Transition requires In(wf) {
      match this
      case TopRef(i) => wf.transitions[i]
      case SubRef(s, i) => wf.states[s].subTransitions[i]
      case CommonRef(i, k) => Synthesize(wf.commonTransitions[i], wf.commonTransitions[i].sourceList[k])
    }

    function ScopeIn(wf: Workflow): string requires In(wf) {
      match this
      case TopRef(_) => "top"
      case SubRef(s, _) => "sub:" + wf.states[s].Id()
      case CommonRef(_, _) => "common"
    }
  }

  function NodeAt(wf: Workflow, x: Spot): Node
    requires x.In(wf)
  {
    NodeFor(x.Get(wf), x.Parent(wf), (set e | e in wf.endStates), wf.initialState)
  }

  function EdgeAt(wf: Workflow, r: Ref): Edge
    requires r.In(wf)
  {
    EdgeFor(r.i, r.ScopeIn(wf), r.Get(wf))
  }

  function Nodes(wf: Workflow, xs: seq<Spot>): seq<Node>
    requires forall x :: x in xs ==> x.In(wf)
  {
    seq(|xs|, k requires 0 <= k < |xs| => NodeAt(wf, xs[k]))
  }

  function Edges(wf: Workflow, rs: seq<Ref>): seq<Edge>
    requires forall r :: r in rs ==> r.In(wf)
  {
    seq(|rs|, k requires 0 <= k < |rs| => EdgeAt(wf, rs[k]))
  }

  // ---- Drawing ------------------------------------------------------------

  /** The states in order, each with its substates and sub-transitions. The ghost
      results record what each node and edge was drawn for. */
  method DrawStates(wf: Workflow, ends: set<string>) returns (nodes: seq<Node>, edges: seq<Edge>, ghost spots: seq<Spot>, ghost refs: seq<Ref>)
    requires ends == (set e | e in wf.endStates)
    ensures SpotsUpTo(wf, spots, |wf.states|, 0) && nodes == Nodes(wf, spots)
    ensures SubRefsUpTo(wf, refs, |wf.states|, 0) && edges == Edges(wf, refs)
  {
    nodes, edges, spots, refs := [], [], [], [];
    for s := 0 to |wf.states|
      invariant SpotsUpTo(wf, spots, s, 0) && nodes == Nodes(wf, spots)
      invariant SubRefsUpTo(wf, refs, s, 0) && edges == Edges(wf, refs)
    {
      nodes := nodes + [NodeFor(wf.states[s], "", ends, wf.initialState)];
      spots := spots + [TopSpot(s)];
      assert SpotsUpTo(wf, spots, s, 1);
      assert nodes == Nodes(wf, spots);
      if wf.states[s].CompositeState? {
        var comp := wf.states[s];
        for i := 0 to |comp.substates|
          invariant SpotsUpTo(wf, spots, s, i + 1) && nodes == Nodes(wf, spots)
        {
          nodes := nodes + [NodeFor(comp.substates[i], comp.Id(), ends, wf.initialState)];
          spots := spots + [SubSpot(s, i)];
          assert SpotsUpTo(wf, spots, s, i + 2);
          assert nodes == Nodes(wf, spots);
        }
        for i := 0 to |comp.subTransitions|
          invariant SubRefsUpTo(wf, refs, s, i) && edges == Edges(wf, refs)
        {
          edges := edges + [EdgeFor(i, "sub:" + comp.Id(), comp.subTransitions[i])];
          refs := refs + [SubRef(s, i)];
          assert SubRefsUpTo(wf, refs, s, i + 1);
          assert edges == Edges(wf, refs);
        }
      }
      assert SpotsUpTo(wf, spots, s + 1, 0);
      assert SubRefsUpTo(wf, refs, s + 1, 0);
    }
  }

  /** The top-level transitions, then the common ones per source. */
  method DrawTransitions(wf: Workflow, before: seq<Edge>, ghost old_: seq<Ref>) returns (edges: seq<Edge>, ghost refs: seq<Ref>)
    requires SubRefsUpTo(wf, old_, |wf.states|, 0) && before == Edges(wf, old_)
    ensures CommonRefsUpTo(wf, refs, |wf.commonTransitions|, 0) && edges == Edges(wf, refs)
  {
    edges, refs := before, old_;
    for i := 0 to |wf.transitions|
      invariant TopRefsUpTo(wf, refs, i) && edges == Edges(wf, refs)
    {
      edges := edges + [EdgeFor(i, "top", wf.transitions[i])];
      refs := refs + [TopRef(i)];
      assert TopRefsUpTo(wf, refs, i + 1);
      assert edges == Edges(wf, refs);
    }
    for i := 0 to |wf.commonTransitions|
      invariant CommonRefsUpTo(wf, refs, i, 0) && edges == Edges(wf, refs)
    {
      var ct := wf.commonTransitions[i];
      for k := 0 to |ct.sourceList|
        invariant CommonRefsUpTo(wf, refs, i, k) && edges == Edges(wf, refs)
      {
        edges := edges + [EdgeFor(i, "common", Synthesize(ct, ct.sourceList[k]))];
        refs := refs + [CommonRef(i, k)];
        assert CommonRefsUpTo(wf, refs, i, k + 1);
        assert edges == Edges(wf, refs);
      }
      assert CommonRefsUpTo(wf, refs, i + 1, 0);
    }
  }

  method BuildGraph(wf: Workflow) returns (g: Drawing, ghost spots: seq<Spot>, ghost refs: seq<Ref>)
    ensures g.workflowId == wf.id && g.version == wf.version && g.initialState == wf.initialState && g.endStates == wf.endStates
    ensures Draws(wf, spots, refs) && g.nodes == Nodes(wf, spots) && g.edges == Edges(wf, refs)
  {
    var ends: set<string> := {};
    for i := 0 to |wf.endStates|
      invariant ends == (set e | e in wf.endStates[..i])
    {
      assert wf.endStates[..i + 1] == wf.endStates[..i] + [wf.endStates[i]];
      ends := ends + {wf.endStates[i]};
    }
    assert wf.endStates[..|wf.endStates|] == wf.endStates;
    var nodes, edges;
    nodes, edges, spots, refs := DrawStates(wf, ends);
    edges, refs := DrawTransitions(wf, edges, refs);
    g := Drawing(wf.id, wf.version, wf.initialState, wf.endStates, nodes, edges);
  }

  predicate Distinct<T(==)>(xs: seq<T>) {
    forall i, j :: 0 <= i < j < |xs| ==> xs[i] != xs[j]
  }

  /** Everything there is to draw, once each. */
  ghost predicate Draws(wf: Workflow, spots: seq<Spot>, refs: seq<Ref>) {
    && Distinct(spots) && (forall x: Spot :: x in spots <==> x.In(wf))
    && Distinct(refs) && (forall r: Ref :: r in refs <==> r.In(wf))
  }

  /** Every spot of the first `s` states, and the first `n` of state `s`: the state
      itself, then its substates. */
  ghost predicate SpotsUpTo(wf: Workflow, spots: seq<Spot>, s: nat, n: nat) {
    && Distinct(spots)
    && forall x: Spot :: x in spots <==>
         x.In(wf) && (x.s < s || (x.s == s && (if x.TopSpot? then 0 < n else x.i + 1 < n)))
  }

  ghost predicate SubRefsUpTo(wf: Workflow, refs: seq<Ref>, s: nat, n: nat) {
    && Distinct(refs)
    && forall r: Ref :: r in refs <==> r.In(wf) && r.SubRef? && (r.s < s || (r.s == s && r.i < n))
  }

  ghost predicate TopRefsUpTo(wf: Workflow, refs: seq<Ref>, n: nat) {
    && Distinct(refs)
    && forall r: Ref :: r in refs <==> r.In(wf) && (r.SubRef? || (r.TopRef? && r.i < n))
  }

  ghost predicate CommonRefsUpTo(wf: Workflow, refs: seq<Ref>, i: nat, n: nat) {
    && Distinct(refs)
    && forall r: Ref :: r in refs <==> r.In(wf) && (!r.CommonRef? || r.i < i || (r.i == i && r.k < n))
  }

  // ---- Agreement with the engine ------------------------------------------

  /** Whether an edge leaves from a position: a sub-transition from the active
      substate of its own composite, any other one from the state. */
  predicate LeavesFrom(wf: Workflow, r: Ref, at: StateContainer)
    requires r.In(wf)
  {
    if r.SubRef? then wf.states[r.s] == at.state && at.substate.Some? && r.Get(wf).source == at.substate.value.Id()
    else r.Get(wf).source == at.state.Id()
  }

  lemma ScopedHasRef(wf: Workflow, at: StateContainer, t: Transition) returns (r: Ref)
    requires Positioned(wf, at) && t in ScopedCandidates(wf, at)
    ensures r.In(wf) && LeavesFrom(wf, r, at) && r.Get(wf) == t
  {
    if t in Filter(wf.transitions, SourceIs(at.state.Id())) {
      assert SourceIs(at.state.Id())(t);
      var i :| 0 <= i < |wf.transitions| && wf.transitions[i] == t;
      r := TopRef(i);
    } else {
      assert SourceIs(at.substate.value.Id())(t);
      var s :| 0 <= s < |wf.states| && wf.states[s] == at.state;
      var i :| 0 <= i < |at.state.subTransitions| && at.state.subTransitions[i] == t;
      r := SubRef(s, i);
    }
  }

  lemma CommonHasRef(wf: Workflow, at: StateContainer, t: Transition) returns (r: Ref)
    requires t in SynthesizeAll(Filter(wf.commonTransitions, Listed(at.state.Id())), at.state.Id())
    ensures r.In(wf) && LeavesFrom(wf, r, at) && r.Get(wf) == t
  {
    var id := at.state.Id();
    var listed := Filter(wf.commonTransitions, Listed(id));
    var n :| 0 <= n < |listed| && SynthesizeAll(listed, id)[n] == t;
    assert listed[n] in wf.commonTransitions && Listed(id)(listed[n]);
    var i :| 0 <= i < |wf.commonTransitions| && wf.commonTransitions[i] == listed[n];
    var k :| 0 <= k < |listed[n].sourceList| && listed[n].sourceList[k] == id;
    r := CommonRef(i, k);
  }

  lemma RefIsCandidate(wf: Workflow, at: StateContainer, r: Ref)
    requires r.In(wf) && LeavesFrom(wf, r, at)
    ensures r.Get(wf) in Candidates(wf, at)
  {
    var t := r.Get(wf);
    if r.TopRef? {
      assert t in wf.transitions && SourceIs(at.state.Id())(t);
    } else if r.SubRef? {
      assert t in at.state.subTransitions && SourceIs(at.substate.value.Id())(t);
    } else {
      var ct, id := wf.commonTransitions[r.i], at.state.Id();
      assert ct in wf.commonTransitions && Listed(id)(ct);
      var listed := Filter(wf.commonTransitions, Listed(id));
      var n :| 0 <= n < |listed| && listed[n] == ct;
      assert SynthesizeAll(listed, id)[n] == t;
    }
  }

  /** Main result: what the engine can choose from at a position is exactly what is
      drawn as leaving from it. */
  lemma CandidatesAreDrawn(wf: Workflow, at: StateContainer, t: Transition)
    requires Positioned(wf, at)
    ensures t in Candidates(wf, at) <==> exists r: Ref :: r.In(wf) && LeavesFrom(wf, r, at) && r.Get(wf) == t
  {
    if t in ScopedCandidates(wf, at) {
      var r := ScopedHasRef(wf, at, t);
    } else if t in Candidates(wf, at) {
      var r := CommonHasRef(wf, at, t);
    }
    forall r: Ref | r.In(wf) && LeavesFrom(wf, r, at) && r.Get(wf) == t ensures t in Candidates(wf, at) {
      RefIsCandidate(wf, at, r);
    }
  }

  /** A sub-transition leaves from the substate of its own composite, any other one
      from the state. */
  predicate LeavesPlace(wf: Workflow, r: Ref, state: string, substate: string)
    requires r.In(wf)
  {
    if r.SubRef? then FindState(wf.states, state) == Some(wf.states[r.s]) && r.Get(wf).source == substate
    else r.Get(wf).source == state
  }

  lemma AuthoredHasRef(wf: Workflow, t: Transition, state: string, substate: string) returns (r: Ref)
    requires Authored(wf, t, state, substate)
    ensures r.In(wf) && r.Get(wf) == t && LeavesPlace(wf, r, state, substate)
  {
    if t in wf.transitions && t.source == state {
      var i :| 0 <= i < |wf.transitions| && wf.transitions[i] == t;
      r := TopRef(i);
    } else if InComposite(wf, t, state, substate) {
      var st := FindState(wf.states, state).value;
      var s :| 0 <= s < |wf.states| && wf.states[s] == st;
      var i :| 0 <= i < |st.subTransitions| && st.subTransitions[i] == t;
      r := SubRef(s, i);
    } else {
      var ct :| ct in wf.commonTransitions && state in ct.sourceList && t == Synthesize(ct, state);
      var i :| 0 <= i < |wf.commonTransitions| && wf.commonTransitions[i] == ct;
      var k :| 0 <= k < |ct.sourceList| && ct.sourceList[k] == state;
      r := CommonRef(i, k);
    }
  }

  /** An edge a step of a journey went along. */
  ghost predicate Along(e: Edge, step: JourneyEntry) {
    && e.event == step.event && e.trigger == step.trigger && e.kind == step.kind
    && (e.scope == "top" || e.scope == "common" ==> e.source == step.fromState)
    && (e.scope != "top" && e.scope != "common" ==> e.scope == "sub:" + step.fromState && e.source == step.fromSubstate)
    && (e.kind != InternalKind ==> e.target == step.toState || e.target == step.toSubstate)
  }

  /** Main result: after any sequence of operations, every step of every stored
      journey but the first went along an edge of the drawing: one that leaves from
      where the step left, in the scope of that place, and carries the guard of the
      transition that fired. */
  lemma JourneysAreDrawn(w: World, ops: seq<Op>, id: string, n: nat) returns (r: Ref)
    requires id in After(w, ops).env.store && 0 < n < |After(w, ops).env.store[id].journey|
    ensures
      var row, log := After(w, ops).env.store[id], After(w, ops).LogOf(id);
      && r.In(row.def) && n <= |log.applied| && r.Get(row.def) == log.applied[n - 1]
      && EdgeAt(row.def, r).guard == log.applied[n - 1].guard
      && LeavesPlace(row.def, r, row.journey[n].fromState, row.journey[n].fromSubstate)
      && Along(EdgeAt(row.def, r), row.journey[n])
  {
    hide After, Authored;
    JourneyReplays(w, ops, id);
    var row, log := After(w, ops).env.store[id], After(w, ops).LogOf(id);
    assert Continues(row.journey[n - 1], log.applied[n - 1], row.journey[n]);
    r := AuthoredHasRef(row.def, log.applied[n - 1], row.journey[n].fromState, row.journey[n].fromSubstate);
    assert ("sub:" + row.journey[n].fromState)[0] == 's';
  }

  /** What a node shows of the state it stands for: the lists its author wrote, and the
      composite it is inside, if it is. */
  lemma NodesShow(wf: Workflow, x: Spot)
    requires x.In(wf)
    ensures
      var n := NodeAt(wf, x);
      var s := match x case TopSpot(s) => wf.states[s] case SubSpot(s, i) => wf.states[s].substates[i];
      && n.id == s.info.id && n.info == s.info
      && n.parentId == (match x case TopSpot(_) => "" case SubSpot(s, _) => wf.states[s].info.id)
      && (n.isInitial <==> s.info.id == wf.initialState) && (n.isEnd <==> s.info.id in wf.endStates)
      && (n.isHappyFlow <==> s.info.isHappyFlow != Some(false))
      && match s
         case SimpleState(_) => n.entryActions == [] && n.exitActions == [] && n.doActions == [] && n.substates == []
         case ActionState(_, _, entry, exit, doing) =>
           n.entryActions == entry && n.exitActions == exit && n.doActions == doing && n.substates == []
         case CompositeState(_, entry, exit, initial, subs, _, history) =>
           && n.entryActions == entry && n.exitActions == exit && n.doActions == []
           && n.initialSubstate == initial && n.history == history
           && |n.substates| == |subs| && forall k :: 0 <= k < |subs| ==> n.substates[k] == subs[k].info.id
  {}

  /** What an edge shows of the transition it stands for: everything its author wrote,
      whether it is a join in either spelling, and what each fork target is called. */
  lemma EdgesShow(wf: Workflow, r: Ref)
    requires r.In(wf)
    ensures
      var e, t := EdgeAt(wf, r), r.Get(wf);
      && e.index == r.i && e.source == t.source && e.target == t.target && e.event == t.event && e.trigger == t.trigger
      && e.kind == t.kind && e.guard == t.guard && e.entryActions == t.entryActions && e.after == t.after
      && e.entersHistory == t.entersHistory && (e.join <==> t.kind == JoinKind || t.join)
      && |e.forkTargets| == |t.forkTargets|
      && (forall k :: 0 <= k < |t.forkTargets| ==>
            var f := t.forkTargets[k];
            && (f.ref != "" ==> e.forkTargets[k] == f.ref)
            && (f.ref == "" ==> e.forkTargets[k] == if f.childWorkflow.Some? then f.childWorkflow.value.id else ""))
    ensures r.SubRef? ==> EdgeAt(wf, r).scope == "sub:" + wf.states[r.s].info.id
    ensures r.TopRef? ==> EdgeAt(wf, r).scope == "top"
    ensures r.CommonRef? ==> EdgeAt(wf, r).scope == "common"
  {}

  /** The drawing marks end states as the engine does, but marks as initial the
      state named by the definition, while an instance starts in the first one. */
  lemma MarksAgree(wf: Workflow, s: nat, at: StateContainer)
    requires s < |wf.states| && at.state == wf.states[s]
    ensures NodeAt(wf, TopSpot(s)).isEnd <==> IsEndState(wf, at)
    ensures NodeAt(wf, TopSpot(0)).isInitial <==> wf.initialState == wf.states[0].Id()
  {}
}
