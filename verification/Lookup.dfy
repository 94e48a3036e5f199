/** Which transition fires (engine/transitions.go, engine/autojoin.go,
    engine/workflow_ops.go). Every lookup walks the same scopes; the lemmas tie
    them all to one ordered list of candidates. */
module Lookup {
  import opened Model
  import opened Persistence

  datatype Scope = Scope(transitions: seq<Transition>, sourceId: string)

  /** Innermost scope first: a composite's sub-transitions against the active
      substate, then the top-level transitions against the state itself. */
  function Scopes(def: Workflow, at: StateContainer): seq<Scope> {
    (if at.substate.Some? && at.state.CompositeState?
     then [Scope(at.state.subTransitions, at.substate.value.Id())] else [])
    + [Scope(def.transitions, at.state.Id())]
  }

  // The tests a lookup applies, named so that equal tests are equal values.

  function SourceIs(id: string): Transition -> bool {
    (t: Transition) => t.source == id
  }

  function Fires(w: World, event: string, ctx: Context): Transition -> bool {
    (t: Transition) => t.event == event && Enabled(w, t.guard, ctx)
  }

  function FiresNow(w: World, ctx: Context): Transition -> bool {
    (t: Transition) => t.trigger == AutomaticTrigger && t.after == "" && Enabled(w, t.guard, ctx)
  }

  function FiresLater(w: World, ctx: Context): Transition -> bool {
    (t: Transition) => t.trigger == AutomaticTrigger && t.after != "" && Enabled(w, t.guard, ctx)
  }

  function Offered(w: World, ctx: Context): Transition -> bool {
    (t: Transition) => t.trigger != AutomaticTrigger && Enabled(w, t.guard, ctx)
  }

  function JoinPoint(): Transition -> bool {
    (t: Transition) => t.IsJoin()
  }

  function Both<T>(p: T -> bool, q: T -> bool): T -> bool {
    (x: T) => p(x) && q(x)
  }

  function SearchScopes(scopes: seq<Scope>, p: Transition -> bool): Option<Transition> {
    if scopes == [] then None
    else
      match First(scopes[0].transitions, Both(SourceIs(scopes[0].sourceId), p))
      case Some(t) => Some(t)
      case None => SearchScopes(scopes[1..], p)
  }

  // ---- Common transitions -------------------------------------------------

  /** A common transition as the plain transition it stands for at `source`. */
  function Synthesize(ct: CommonTransition, source: string): Transition {
    Transition(ct.trigger, ct.kind, source, ct.target, ct.event, ct.guard, ct.entryActions, false, [], "", false)
  }

  function Listed(id: string): CommonTransition -> bool {
    (ct: CommonTransition) => id in ct.sourceList
  }

  function CommonFires(w: World, id: string, event: string, ctx: Context): CommonTransition -> bool {
    (ct: CommonTransition) => ct.event == event && id in ct.sourceList && Enabled(w, ct.guard, ctx)
  }

  function MatchCommonTransition(w: World, common: seq<CommonTransition>, id: string, event: string, ctx: Context): Option<Transition> {
    match First(common, CommonFires(w, id, event, ctx))
    case None => None
    case Some(ct) => Some(Synthesize(ct, id))
  }

  // ---- The four lookups ---------------------------------------------------

  function FindCandidateTransition(w: World, def: Workflow, at: StateContainer, event: string, ctx: Context): Option<Transition> {
    match SearchScopes(Scopes(def, at), Fires(w, event, ctx))
    case Some(t) => Some(t)
    case None => MatchCommonTransition(w, def.commonTransitions, at.state.Id(), event, ctx)
  }

  function FindAutomaticTransition(w: World, def: Workflow, at: StateContainer, ctx: Context): Option<Transition> {
    SearchScopes(Scopes(def, at), FiresNow(w, ctx))
  }

  function FindPendingJoinTransition(def: Workflow, at: StateContainer): Option<Transition> {
    SearchScopes(Scopes(def, at), JoinPoint())
  }

  function DeferredIn(w: World, scopes: seq<Scope>, ctx: Context): seq<Transition> {
    if scopes == [] then []
    else Filter(scopes[0].transitions, Both(SourceIs(scopes[0].sourceId), FiresLater(w, ctx))) + DeferredIn(w, scopes[1..], ctx)
  }

  function FindDeferredTransitions(w: World, def: Workflow, at: StateContainer, ctx: Context): seq<Transition> {
    DeferredIn(w, Scopes(def, at), ctx)
  }

  // ---- The candidate list -------------------------------------------------

  function ScopedCandidates(def: Workflow, at: StateContainer): seq<Transition> {
    (if at.substate.Some? && at.state.CompositeState?
     then Filter(at.state.subTransitions, SourceIs(at.substate.value.Id())) else [])
    + Filter(def.transitions, SourceIs(at.state.Id()))
  }

  function SynthesizeAll(common: seq<CommonTransition>, source: string): seq<Transition> {
    seq(|common|, i requires 0 <= i < |common| => Synthesize(common[i], source))
  }

  /** Everything authored against the position, in order of precedence:
      sub-transitions, top-level transitions, common transitions. */
  function Candidates(def: Workflow, at: StateContainer): seq<Transition> {
    ScopedCandidates(def, at) + SynthesizeAll(Filter(def.commonTransitions, Listed(at.state.Id())), at.state.Id())
  }

  lemma {:induction false} FirstFilter<T(!new)>(s: seq<T>, p: T -> bool, q: T -> bool)
    ensures First(Filter(s, p), q) == First(s, Both(p, q))
  {
    if s != [] {
      FirstFilter(s[1..], p, q);
      if p(s[0]) { assert Filter(s, p)[1..] == Filter(s[1..], p); }
    }
  }

  lemma {:induction false} FilterFilter<T(!new)>(s: seq<T>, p: T -> bool, q: T -> bool)
    ensures Filter(Filter(s, p), q) == Filter(s, Both(p, q))
  {
    if s != [] {
      FilterFilter(s[1..], p, q);
      if p(s[0]) { assert Filter(s, p)[1..] == Filter(s[1..], p); }
    }
  }

  /** Searching the scopes is searching the scoped candidates. */
  lemma SearchIsFirst(def: Workflow, at: StateContainer, p: Transition -> bool)
    ensures SearchScopes(Scopes(def, at), p) == First(ScopedCandidates(def, at), p)
  {
    var ss := Scopes(def, at);
    var top := Filter(def.transitions, SourceIs(at.state.Id()));
    FirstFilter(def.transitions, SourceIs(at.state.Id()), p);
    var last := [Scope(def.transitions, at.state.Id())];
    assert last[1..] == [];
    assert SearchScopes(last, p) == First(top, p);
    if at.substate.Some? && at.state.CompositeState? {
      var sub := Filter(at.state.subTransitions, SourceIs(at.substate.value.Id()));
      FirstFilter(at.state.subTransitions, SourceIs(at.substate.value.Id()), p);
      FirstAppend(sub, top, p);
      assert ss[1..] == last;
    } else {
      assert ss == last && ScopedCandidates(def, at) == top;
    }
  }

  lemma FirstUnfolds<T(!new)>(s: seq<T>, p: T -> bool)
    requires s != []
    ensures First(s, p) == if p(s[0]) then Some(s[0]) else First(s[1..], p)
  {}

  lemma FilterUnfolds<T(!new)>(s: seq<T>, p: T -> bool)
    requires s != []
    ensures Filter(s, p) == if p(s[0]) then [s[0]] + Filter(s[1..], p) else Filter(s[1..], p)
  {}

  lemma {:induction false} CommonIsFirst(w: World, common: seq<CommonTransition>, id: string, event: string, ctx: Context)
    ensures MatchCommonTransition(w, common, id, event, ctx)
         == First(SynthesizeAll(Filter(common, Listed(id)), id), Fires(w, event, ctx))
  {
    hide Enabled;
    if common != [] {
      CommonIsFirst(w, common[1..], id, event, ctx);
      FirstUnfolds(common, CommonFires(w, id, event, ctx));
      FilterUnfolds(common, Listed(id));
      hide First, Filter;
      var rest := SynthesizeAll(Filter(common[1..], Listed(id)), id);
      if Listed(id)(common[0]) {
        var all := SynthesizeAll(Filter(common, Listed(id)), id);
        assert all[0] == Synthesize(common[0], id) && all[1..] == rest;
        FirstUnfolds(all, Fires(w, event, ctx));
      }
    }
  }

  /** Main result: the transition that fires for an event is the first enabled
      candidate carrying it. */
  lemma CandidateIsFirst(w: World, def: Workflow, at: StateContainer, event: string, ctx: Context)
    ensures FindCandidateTransition(w, def, at, event, ctx) == First(Candidates(def, at), Fires(w, event, ctx))
    ensures forall t: Transition :: Fires(w, event, ctx)(t) <==> t.event == event && Enabled(w, t.guard, ctx)
  {
    SearchIsFirst(def, at, Fires(w, event, ctx));
    CommonIsFirst(w, def.commonTransitions, at.state.Id(), event, ctx);
    FirstAppend(ScopedCandidates(def, at),
      SynthesizeAll(Filter(def.commonTransitions, Listed(at.state.Id())), at.state.Id()), Fires(w, event, ctx));
  }

  /** An automatic transition fires exactly when some scoped candidate is a
      zero-delay automatic one whose guard passes; common transitions never
      chain. */
  lemma AutomaticIsFirst(w: World, def: Workflow, at: StateContainer, ctx: Context)
    ensures FindAutomaticTransition(w, def, at, ctx) == First(ScopedCandidates(def, at), FiresNow(w, ctx))
    ensures FindAutomaticTransition(w, def, at, ctx).None? <==>
      forall t :: t in ScopedCandidates(def, at) ==>
        !(t.trigger == AutomaticTrigger && t.after == "" && Enabled(w, t.guard, ctx))
  {
    SearchIsFirst(def, at, FiresNow(w, ctx));
  }

  /** The deferred transitions are all the scoped candidates that are automatic,
      delayed and enabled, in order; so each one leaves from the effective
      position. */
  lemma DeferredIsFilter(w: World, def: Workflow, at: StateContainer, ctx: Context)
    ensures FindDeferredTransitions(w, def, at, ctx) == Filter(ScopedCandidates(def, at), FiresLater(w, ctx))
    ensures forall t :: t in FindDeferredTransitions(w, def, at, ctx) <==>
      t in ScopedCandidates(def, at) && t.trigger == AutomaticTrigger && t.after != "" && Enabled(w, t.guard, ctx)
    ensures forall t :: t in FindDeferredTransitions(w, def, at, ctx) ==>
      t.source == at.state.Id() || (at.substate.Some? && t.source == at.substate.value.Id())
  {
    var p := FiresLater(w, ctx);
    var ss := Scopes(def, at);
    var top := Filter(def.transitions, SourceIs(at.state.Id()));
    FilterFilter(def.transitions, SourceIs(at.state.Id()), p);
    var last := [Scope(def.transitions, at.state.Id())];
    assert last[1..] == [];
    assert DeferredIn(w, last, ctx) == Filter(top, p);
    if at.substate.Some? && at.state.CompositeState? {
      var sub := Filter(at.state.subTransitions, SourceIs(at.substate.value.Id()));
      FilterFilter(at.state.subTransitions, SourceIs(at.substate.value.Id()), p);
      FilterAppend(sub, top, p);
      assert ss[1..] == last;
    } else {
      assert ss == last && ScopedCandidates(def, at) == top;
    }
  }

  // ---- possibleEventsFor --------------------------------------------------

  function EventsOf(ts: seq<Transition>): (es: seq<string>)
    ensures forall e :: e in es <==> exists t :: t in ts && t.event == e
  {
    if ts == [] then []
    else
      assert ts == [ts[0]] + ts[1..];
      [ts[0].event] + EventsOf(ts[1..])
  }

  lemma {:induction false} EventsAppend(a: seq<Transition>, b: seq<Transition>)
    ensures EventsOf(a + b) == EventsOf(a) + EventsOf(b)
  {
    if a == [] {
      assert a + b == b;
    } else {
      EventsAppend(a[1..], b);
      assert (a + b)[1..] == a[1..] + b;
    }
  }

  function PossibleEvents(w: World, def: Workflow, at: StateContainer, ctx: Context): seq<string> {
    EventsOf(Filter(Candidates(def, at), Offered(w, ctx)))
  }

  lemma TakeOne<T(!new)>(s: seq<T>, i: nat, p: T -> bool)
    requires i < |s|
    ensures Filter(s[..i + 1], p) == (if p(s[i]) then Filter(s[..i], p) + [s[i]] else Filter(s[..i], p))
  {
    assert s[..i + 1] == s[..i] + [s[i]];
    FilterAppend(s[..i], [s[i]], p);
    assert [s[i]][1..] == [];
  }

  lemma EventsTakeOne(ts: seq<Transition>, i: nat, p: Transition -> bool)
    requires i < |ts|
    ensures EventsOf(Filter(ts[..i + 1], p))
         == (if p(ts[i]) then EventsOf(Filter(ts[..i], p)) + [ts[i].event] else EventsOf(Filter(ts[..i], p)))
  {
    TakeOne(ts, i, p);
    if p(ts[i]) {
      EventsAppend(Filter(ts[..i], p), [ts[i]]);
      assert [ts[i]][1..] == [];
    }
  }

  lemma StartCollecting(p: Transition -> bool)
    ensures EventsOf(Filter([], p)) == []
  {}

  /** The closure `collect` of possibleEventsFor. */
  method Collect(w: World, transitions: seq<Transition>, sourceId: string, ctx: Context, events: seq<string>) returns (r: seq<string>)
    ensures r == events + EventsOf(Filter(Filter(transitions, SourceIs(sourceId)), Offered(w, ctx)))
  {
    hide EventsOf, Filter;
    r := events;
    StartCollecting(Both(SourceIs(sourceId), Offered(w, ctx)));
    ghost var p := Both(SourceIs(sourceId), Offered(w, ctx));
    assert transitions[..0] == [];
    for i := 0 to |transitions|
      invariant r == events + EventsOf(Filter(transitions[..i], p))
    {
      var t := transitions[i];
      EventsTakeOne(transitions, i, p);
      if t.source == sourceId && t.trigger != AutomaticTrigger && Enabled(w, t.guard, ctx) {
        assert p(t);
        r := r + [t.event];
      } else {
        assert !p(t);
      }
    }
    assert transitions[..|transitions|] == transitions;
    FilterFilter(transitions, SourceIs(sourceId), Offered(w, ctx));
  }

  /** The common transitions listed at `id` that are offered. */
  function CommonOffered(w: World, common: seq<CommonTransition>, id: string, ctx: Context): seq<Transition> {
    Filter(SynthesizeAll(Filter(common, Listed(id)), id), Offered(w, ctx))
  }

  lemma CommonOfferedStep(w: World, common: seq<CommonTransition>, i: nat, id: string, ctx: Context)
    requires i < |common|
    ensures EventsOf(CommonOffered(w, common[..i + 1], id, ctx))
         == (if id in common[i].sourceList && Offered(w, ctx)(Synthesize(common[i], id))
             then EventsOf(CommonOffered(w, common[..i], id, ctx)) + [common[i].event]
             else EventsOf(CommonOffered(w, common[..i], id, ctx)))
  {
    hide EventsOf, Enabled, Filter;
    TakeOne(common, i, Listed(id));
    var prev := SynthesizeAll(Filter(common[..i], Listed(id)), id);
    if Listed(id)(common[i]) {
      var all := SynthesizeAll(Filter(common[..i + 1], Listed(id)), id);
      assert all == prev + [Synthesize(common[i], id)];
      assert all[..|prev|] == prev && all[..|prev| + 1] == all;
      EventsTakeOne(all, |prev|, Offered(w, ctx));
    }
  }

  method CollectCommon(w: World, common: seq<CommonTransition>, id: string, ctx: Context, events: seq<string>) returns (r: seq<string>)
    ensures r == events + EventsOf(CommonOffered(w, common, id, ctx))
  {
    r := events;
    for i := 0 to |common|
      invariant r == events + EventsOf(CommonOffered(w, common[..i], id, ctx))
    {
      CommonOfferedStep(w, common, i, id, ctx);
      var ct := common[i];
      if ct.trigger != AutomaticTrigger && Enabled(w, ct.guard, ctx) && id in ct.sourceList {
        r := r + [ct.event];
      }
    }
    assert common[..|common|] == common;
  }

  method PossibleEventsFor(w: World, def: Workflow, at: StateContainer, ctx: Context) returns (events: seq<string>)
    ensures events == PossibleEvents(w, def, at, ctx)
  {
    events := [];
    if at.substate.Some? && at.state.CompositeState? {
      events := Collect(w, at.state.subTransitions, at.substate.value.Id(), ctx, events);
    }
    events := Collect(w, def.transitions, at.state.Id(), ctx, events);
    events := CollectCommon(w, def.commonTransitions, at.state.Id(), ctx, events);
    PossibleEventsSplit(w, def, at, ctx);
  }

  lemma PossibleEventsSplit(w: World, def: Workflow, at: StateContainer, ctx: Context)
    ensures
      var sub := if at.substate.Some? && at.state.CompositeState?
        then EventsOf(Filter(Filter(at.state.subTransitions, SourceIs(at.substate.value.Id())), Offered(w, ctx))) else [];
      var top := EventsOf(Filter(Filter(def.transitions, SourceIs(at.state.Id())), Offered(w, ctx)));
      PossibleEvents(w, def, at, ctx) == sub + top + EventsOf(CommonOffered(w, def.commonTransitions, at.state.Id(), ctx))
  {
    hide Filter, EventsOf, SynthesizeAll, Enabled;
    ScopedSplit(w, def, at, ctx);
    OfferedAppend(ScopedCandidates(def, at),
      SynthesizeAll(Filter(def.commonTransitions, Listed(at.state.Id())), at.state.Id()), Offered(w, ctx));
  }

  lemma OfferedAppend(a: seq<Transition>, b: seq<Transition>, p: Transition -> bool)
    ensures EventsOf(Filter(a + b, p)) == EventsOf(Filter(a, p)) + EventsOf(Filter(b, p))
  {
    hide Filter, EventsOf;
    FilterAppend(a, b, p);
    EventsAppend(Filter(a, p), Filter(b, p));
  }

  lemma ScopedSplit(w: World, def: Workflow, at: StateContainer, ctx: Context)
    ensures
      var sub := if at.substate.Some? && at.state.CompositeState?
        then EventsOf(Filter(Filter(at.state.subTransitions, SourceIs(at.substate.value.Id())), Offered(w, ctx))) else [];
      var top := EventsOf(Filter(Filter(def.transitions, SourceIs(at.state.Id())), Offered(w, ctx)));
      EventsOf(Filter(ScopedCandidates(def, at), Offered(w, ctx))) == sub + top
  {
    hide Filter, EventsOf, Enabled;
    var top := Filter(def.transitions, SourceIs(at.state.Id()));
    if at.substate.Some? && at.state.CompositeState? {
      OfferedAppend(Filter(at.state.subTransitions, SourceIs(at.substate.value.Id())), top, Offered(w, ctx));
    } else {
      assert ScopedCandidates(def, at) == top;
    }
  }

  /** An event is offered exactly when some enabled candidate that is not
      automatic carries it, and then the lookup finds a transition for it. */
  lemma PossibleEventsExact(w: World, def: Workflow, at: StateContainer, event: string, ctx: Context)
    ensures event in PossibleEvents(w, def, at, ctx) <==>
      exists t :: t in Candidates(def, at) && t.trigger != AutomaticTrigger && Enabled(w, t.guard, ctx) && t.event == event
    ensures event in PossibleEvents(w, def, at, ctx) ==> FindCandidateTransition(w, def, at, event, ctx).Some?
  {
    var offered := Filter(Candidates(def, at), Offered(w, ctx));
    if event in PossibleEvents(w, def, at, ctx) {
      var t :| t in offered && t.event == event;
      assert t in Candidates(def, at) && Offered(w, ctx)(t);
      CandidateIsFirst(w, def, at, event, ctx);
      assert Fires(w, event, ctx)(t);
    }
    forall t | t in Candidates(def, at) && t.trigger != AutomaticTrigger && Enabled(w, t.guard, ctx) && t.event == event
      ensures event in PossibleEvents(w, def, at, ctx)
    {
      assert Offered(w, ctx)(t) && t in offered;
    }
  }

  /** The pending join is the first scoped candidate that is one, by its kind or by the
      older flag. */
  lemma PendingJoinIsFirst(def: Workflow, at: StateContainer)
    ensures FindPendingJoinTransition(def, at) == First(ScopedCandidates(def, at), JoinPoint())
    ensures forall t: Transition :: JoinPoint()(t) <==> t.kind == JoinKind || t.join
  {
    SearchIsFirst(def, at, JoinPoint());
  }

  /** `t` leaves from `source` with everything the author of `ct` wrote, and nothing that
      only a plain transition can have. */
  predicate Carries(t: Transition, ct: CommonTransition, source: string) {
    && t.source == source && t.target == ct.target && t.event == ct.event
    && t.trigger == ct.trigger && t.kind == ct.kind && t.guard == ct.guard && t.entryActions == ct.entryActions
    && !t.join && t.forkTargets == [] && t.after == "" && !t.entersHistory
  }

  /** A common transition that is a candidate keeps everything its author wrote. */
  lemma CommonKeeps(def: Workflow, at: StateContainer, ct: CommonTransition)
    requires ct in def.commonTransitions && at.state.Id() in ct.sourceList
    ensures exists t :: t in Candidates(def, at) && Carries(t, ct, at.state.Id())
  {
    var id := at.state.Id();
    var listed := Filter(def.commonTransitions, Listed(id));
    assert Listed(id)(ct);
    var n :| 0 <= n < |listed| && listed[n] == ct;
    var t := SynthesizeAll(listed, id)[n];
    assert t in SynthesizeAll(listed, id);
    assert t in Candidates(def, at);
  }

  /** The first transition of a list that leaves from `source`, carries the event and
      whose guard passes is the one at `k`. */
  ghost predicate FirstAt(w: World, ts: seq<Transition>, source: string, event: string, ctx: Context, k: nat) {
    && k < |ts| && ts[k].source == source && ts[k].event == event && Enabled(w, ts[k].guard, ctx)
    && forall j :: 0 <= j < k ==> !(ts[j].source == source && ts[j].event == event && Enabled(w, ts[j].guard, ctx))
  }

  ghost predicate NoneAt(w: World, ts: seq<Transition>, source: string, event: string, ctx: Context) {
    forall t :: t in ts ==> !(t.source == source && t.event == event && Enabled(w, t.guard, ctx))
  }

  ghost predicate CommonAt(w: World, cs: seq<CommonTransition>, source: string, event: string, ctx: Context, k: nat) {
    && k < |cs| && source in cs[k].sourceList && cs[k].event == event && Enabled(w, cs[k].guard, ctx)
    && forall j :: 0 <= j < k ==> !(source in cs[j].sourceList && cs[j].event == event && Enabled(w, cs[j].guard, ctx))
  }

  ghost predicate NoCommonAt(w: World, cs: seq<CommonTransition>, source: string, event: string, ctx: Context) {
    forall c :: c in cs ==> !(source in c.sourceList && c.event == event && Enabled(w, c.guard, ctx))
  }

  lemma FirstInScope(w: World, ts: seq<Transition>, source: string, event: string, ctx: Context, k: nat)
    requires FirstAt(w, ts, source, event, ctx, k)
    ensures First(ts, Both(SourceIs(source), Fires(w, event, ctx))) == Some(ts[k])
  {
    FirstIsFirst(ts, Both(SourceIs(source), Fires(w, event, ctx)), k);
  }

  lemma SearchesInward(def: Workflow, at: StateContainer, p: Transition -> bool)
    ensures
      var inner := if at.state.CompositeState? && at.substate.Some?
        then First(at.state.subTransitions, Both(SourceIs(at.substate.value.Id()), p)) else None;
      SearchScopes(Scopes(def, at), p)
      == if inner.Some? then inner else First(def.transitions, Both(SourceIs(at.state.Id()), p))
  {
    hide First;
    var last := [Scope(def.transitions, at.state.Id())];
    assert last[1..] == [] && SearchScopes(last, p) == First(def.transitions, Both(SourceIs(at.state.Id()), p));
    if at.substate.Some? && at.state.CompositeState? {
      assert Scopes(def, at)[1..] == last;
      assert Scopes(def, at)[0] == Scope(at.state.subTransitions, at.substate.value.Id());
    } else {
      assert Scopes(def, at) == last;
    }
  }

  /** Main result: which transition an event takes. Inside a composite it is the first of
      the sub-transitions that leaves from the active substate and is enabled; failing
      that, the first top-level transition out of the state; failing that, the first
      common transition that lists the state. */
  lemma Precedence(w: World, def: Workflow, at: StateContainer, event: string, ctx: Context, k: nat)
    ensures
      var found := FindCandidateTransition(w, def, at, event, ctx);
      var inside := at.state.CompositeState? && at.substate.Some?;
      var inner := inside && !NoneAt(w, at.state.subTransitions, at.substate.value.info.id, event, ctx);
      var outer := !NoneAt(w, def.transitions, at.state.info.id, event, ctx);
      && (inside && FirstAt(w, at.state.subTransitions, at.substate.value.info.id, event, ctx, k) ==>
            found == Some(at.state.subTransitions[k]))
      && (!inner && FirstAt(w, def.transitions, at.state.info.id, event, ctx, k) ==> found == Some(def.transitions[k]))
      && (!inner && !outer && CommonAt(w, def.commonTransitions, at.state.info.id, event, ctx, k) ==>
            found.Some? && Carries(found.value, def.commonTransitions[k], at.state.info.id))
      && (!inner && !outer && NoCommonAt(w, def.commonTransitions, at.state.info.id, event, ctx) ==> found.None?)
  {
    hide First, Enabled;
    SearchesInward(def, at, Fires(w, event, ctx));
    if at.state.CompositeState? && at.substate.Some? && FirstAt(w, at.state.subTransitions, at.substate.value.info.id, event, ctx, k) {
      FirstInScope(w, at.state.subTransitions, at.substate.value.info.id, event, ctx, k);
    }
    if FirstAt(w, def.transitions, at.state.info.id, event, ctx, k) {
      FirstInScope(w, def.transitions, at.state.info.id, event, ctx, k);
    }
    if CommonAt(w, def.commonTransitions, at.state.info.id, event, ctx, k) {
      FirstIsFirst(def.commonTransitions, CommonFires(w, at.state.Id(), event, ctx), k);
    }
  }

  /** Leaves from `source`, is automatic and without delay, and its guard passes. */
  predicate HopsFrom(w: World, t: Transition, source: string, ctx: Context) {
    t.source == source && t.trigger == AutomaticTrigger && t.after == "" && Enabled(w, t.guard, ctx)
  }

  ghost predicate HopAt(w: World, ts: seq<Transition>, source: string, ctx: Context, k: nat) {
    k < |ts| && HopsFrom(w, ts[k], source, ctx) && forall j :: 0 <= j < k ==> !HopsFrom(w, ts[j], source, ctx)
  }

  ghost predicate NoHop(w: World, ts: seq<Transition>, source: string, ctx: Context) {
    forall t :: t in ts ==> !HopsFrom(w, t, source, ctx)
  }

  /** And which transition an instance takes by itself: a sub-transition of its composite
      before one of the top level, each the first that can, and never a common one. */
  lemma AutomaticPrecedence(w: World, def: Workflow, at: StateContainer, ctx: Context, k: nat)
    ensures
      var found := FindAutomaticTransition(w, def, at, ctx);
      var inside := at.state.CompositeState? && at.substate.Some?;
      var inner := inside && !NoHop(w, at.state.subTransitions, at.substate.value.info.id, ctx);
      && (inside && HopAt(w, at.state.subTransitions, at.substate.value.info.id, ctx, k) ==> found == Some(at.state.subTransitions[k]))
      && (!inner && HopAt(w, def.transitions, at.state.info.id, ctx, k) ==> found == Some(def.transitions[k]))
      && (!inner && NoHop(w, def.transitions, at.state.info.id, ctx) ==> found.None?)
  {
    hide First, Enabled;
    SearchesInward(def, at, FiresNow(w, ctx));
    if at.state.CompositeState? && at.substate.Some? && HopAt(w, at.state.subTransitions, at.substate.value.info.id, ctx, k) {
      FirstIsFirst(at.state.subTransitions, Both(SourceIs(at.substate.value.info.id), FiresNow(w, ctx)), k);
    }
    if HopAt(w, def.transitions, at.state.info.id, ctx, k) {
      FirstIsFirst(def.transitions, Both(SourceIs(at.state.info.id), FiresNow(w, ctx)), k);
    }
  }

  /** The event auto-join dispatches always resolves: to the join it picked, or
      to an enabled candidate of higher precedence that carries the same event. */
  lemma AutoJoinResolves(w: World, def: Workflow, at: StateContainer, ctx: Context)
    requires FindPendingJoinTransition(def, at).Some?
    requires Enabled(w, FindPendingJoinTransition(def, at).value.guard, ctx)
    ensures
      var join := FindPendingJoinTransition(def, at).value;
      var cs := Candidates(def, at);
      exists i, k :: 0 <= i <= k < |cs| && cs[k] == join && join.IsJoin()
        && FindCandidateTransition(w, def, at, join.event, ctx) == Some(cs[i])
        && cs[i].event == join.event && Enabled(w, cs[i].guard, ctx)
  {
    var join := FindPendingJoinTransition(def, at).value;
    var cs := Candidates(def, at);
    SearchIsFirst(def, at, JoinPoint());
    var k :| 0 <= k < |ScopedCandidates(def, at)| && ScopedCandidates(def, at)[k] == join;
    assert cs[k] == join;
    var p := Fires(w, join.event, ctx);
    assert p(cs[k]);
    FirstIsFirst(cs, p, k);
    CandidateIsFirst(w, def, at, join.event, ctx);
    var i :| 0 <= i <= k && First(cs, p) == Some(cs[i]);
    assert p(cs[i]);
  }
}
