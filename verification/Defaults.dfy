/** The normal form of a definition (model/defaults.go). Filling in what an author
    left out recurses through states, transitions and actions into every nested
    child workflow; each nested workflow reads the clock for itself. */
module Defaults {
  import opened Model

  /** What the clock reads while the workflow at a given place of the tree is
      filled in. */
  type Clock = seq<nat> -> string

  /** A formatted time is never empty. */
  ghost predicate Reads(clock: Clock) { forall p :: clock(p) != "" }

  function Or(s: string, fallback: string): string { if s == "" then fallback else s }

  // ---- Filling in ---------------------------------------------------------

  function DefaultInfo(i: Info, tag: string): Info {
    i.(typeTag := Or(i.typeTag, tag), status := Or(i.status, "NEW"),
       productStatus := Or(i.productStatus, "IN_PROGRESS"), bulletName := Or(i.bulletName, i.id))
  }

  function DefaultAction(a: Action, clock: Clock, path: seq<nat>): Action
    decreases a
  {
    a.(httpMethod := if a.actionType == HttpRequestAction && a.httpMethod == "" then "GET" else a.httpMethod,
       childWorkflow := if a.childWorkflow.Some? then Some(ApplyDefaults(a.childWorkflow.value, clock, path)) else None)
  }

  function DefaultActions(actions: seq<Action>, clock: Clock, path: seq<nat>): seq<Action>
    decreases actions
  {
    seq(|actions|, i requires 0 <= i < |actions| => DefaultAction(actions[i], clock, path + [i]))
  }

  function DefaultForkTarget(f: ForkTarget, clock: Clock, path: seq<nat>): ForkTarget
    decreases f
  {
    f.(childWorkflow := if f.childWorkflow.Some? then Some(ApplyDefaults(f.childWorkflow.value, clock, path)) else None)
  }

  function DefaultTrigger(t: Trigger): Trigger { if t == TriggerUnset then UserTrigger else t }

  function DefaultKind(k: Kind): Kind { if k == KindUnset then ExternalKind else k }

  function DefaultTransition(t: Transition, clock: Clock, path: seq<nat>): Transition
    decreases t
  {
    t.(trigger := DefaultTrigger(t.trigger), kind := DefaultKind(t.kind),
       entryActions := DefaultActions(t.entryActions, clock, path + [0]),
       forkTargets := seq(|t.forkTargets|, i requires 0 <= i < |t.forkTargets| =>
         DefaultForkTarget(t.forkTargets[i], clock, path + [1, i])))
  }

  function DefaultTransitions(ts: seq<Transition>, clock: Clock, path: seq<nat>): seq<Transition>
    decreases ts
  {
    seq(|ts|, i requires 0 <= i < |ts| => DefaultTransition(ts[i], clock, path + [i]))
  }

  function DefaultCommon(ct: CommonTransition, clock: Clock, path: seq<nat>): CommonTransition
    decreases ct
  {
    ct.(trigger := DefaultTrigger(ct.trigger), kind := DefaultKind(ct.kind),
        entryActions := DefaultActions(ct.entryActions, clock, path))
  }

  function FirstId(states: seq<State>): string {
    if states == [] then "" else states[0].Id()
  }

  function DefaultState(s: State, clock: Clock, path: seq<nat>): State
    decreases s
  {
    match s
    case SimpleState(info) => SimpleState(DefaultInfo(info, "SimpleState"))
    case ActionState(info, expectResponse, entry, exit, doActions) =>
      ActionState(DefaultInfo(info, "ActionState"), expectResponse, DefaultActions(entry, clock, path + [0]),
                  DefaultActions(exit, clock, path + [1]), DefaultActions(doActions, clock, path + [2]))
    case CompositeState(info, entry, exit, initial, substates, subTransitions, history) =>
      CompositeState(DefaultInfo(info, "CompositeState"), DefaultActions(entry, clock, path + [0]),
                     DefaultActions(exit, clock, path + [1]), Or(initial, FirstId(substates)),
                     DefaultStates(substates, clock, path + [2]), DefaultTransitions(subTransitions, clock, path + [3]), history)
  }

  function DefaultStates(ss: seq<State>, clock: Clock, path: seq<nat>): seq<State>
    decreases ss
  {
    seq(|ss|, i requires 0 <= i < |ss| => DefaultState(ss[i], clock, path + [i]))
  }

  function ApplyDefaults(wf: Workflow, clock: Clock, path: seq<nat>): Workflow
    decreases wf
  {
    wf.(kind := "USER",
        version := Or(wf.version, "1.0.0"),
        creationDate := Or(wf.creationDate, clock(path)),
        updateDate := Or(wf.updateDate, clock(path)),
        initialState := Or(wf.initialState, FirstId(wf.states)),
        states := DefaultStates(wf.states, clock, path + [0]),
        transitions := DefaultTransitions(wf.transitions, clock, path + [1]),
        commonTransitions := seq(|wf.commonTransitions|, i requires 0 <= i < |wf.commonTransitions| =>
          DefaultCommon(wf.commonTransitions[i], clock, path + [2, i])))
  }

  // ---- The normal form ----------------------------------------------------

  predicate NormalInfo(i: Info) {
    i.typeTag != "" && i.status != "" && i.productStatus != "" && (i.bulletName != "" || i.id == "")
  }

  predicate NormalRef(w: Option<Workflow>)
    decreases w, 0
  {
    w.Some? ==> Normal(w.value)
  }

  predicate NormalAction(a: Action)
    decreases a
  {
    (a.actionType == HttpRequestAction ==> a.httpMethod != "") && NormalRef(a.childWorkflow)
  }

  predicate NormalActions(actions: seq<Action>)
    decreases actions
  {
    forall i :: 0 <= i < |actions| ==> NormalAction(actions[i])
  }

  predicate NormalTransition(t: Transition)
    decreases t
  {
    && t.trigger != TriggerUnset && t.kind != KindUnset && NormalActions(t.entryActions)
    && forall i :: 0 <= i < |t.forkTargets| ==> NormalRef(t.forkTargets[i].childWorkflow)
  }

  predicate NormalTransitions(ts: seq<Transition>)
    decreases ts
  {
    forall i :: 0 <= i < |ts| ==> NormalTransition(ts[i])
  }

  predicate NormalCommon(ct: CommonTransition)
    decreases ct
  {
    ct.trigger != TriggerUnset && ct.kind != KindUnset && NormalActions(ct.entryActions)
  }

  predicate NormalState(s: State)
    decreases s
  {
    && NormalInfo(s.info)
    && match s
       case SimpleState(_) => true
       case ActionState(_, _, entry, exit, doActions) => NormalActions(entry) && NormalActions(exit) && NormalActions(doActions)
       case CompositeState(_, entry, exit, initial, substates, subTransitions, _) =>
         && NormalActions(entry) && NormalActions(exit) && (initial != "" || FirstId(substates) == "")
         && NormalStates(substates) && NormalTransitions(subTransitions)
  }

  predicate NormalStates(ss: seq<State>)
    decreases ss
  {
    forall i :: 0 <= i < |ss| ==> NormalState(ss[i])
  }

  /** Nothing is left to fill in, here or in any nested workflow. */
  predicate Normal(wf: Workflow)
    decreases wf
  {
    && wf.kind == "USER" && wf.version != "" && wf.creationDate != "" && wf.updateDate != ""
    && (wf.initialState != "" || FirstId(wf.states) == "")
    && NormalStates(wf.states) && NormalTransitions(wf.transitions)
    && forall i :: 0 <= i < |wf.commonTransitions| ==> NormalCommon(wf.commonTransitions[i])
  }

  // ---- A definition is normal exactly when it is unchanged ----------------

  lemma {:induction false} RefNormal(w: Option<Workflow>, clock: Clock, path: seq<nat>)
    requires Reads(clock)
    ensures w.Some? ==> Normal(ApplyDefaults(w.value, clock, path)) && (ApplyDefaults(w.value, clock, path) == w.value <==> Normal(w.value))
    decreases w, 0
  {
    if w.Some? { DefaultsNormal(w.value, clock, path); }
  }

  lemma {:induction false} ActionNormal(a: Action, clock: Clock, path: seq<nat>)
    requires Reads(clock)
    ensures NormalAction(DefaultAction(a, clock, path)) && (DefaultAction(a, clock, path) == a <==> NormalAction(a))
    decreases a
  {
    hide Normal, ApplyDefaults;
    RefNormal(a.childWorkflow, clock, path);
  }

  lemma {:induction false} ActionsNormal(actions: seq<Action>, clock: Clock, path: seq<nat>)
    requires Reads(clock)
    ensures NormalActions(DefaultActions(actions, clock, path))
    ensures DefaultActions(actions, clock, path) == actions <==> NormalActions(actions)
    decreases actions
  {
    hide NormalAction, DefaultAction;
    forall i | 0 <= i < |actions|
      ensures NormalAction(DefaultAction(actions[i], clock, path + [i]))
      ensures DefaultAction(actions[i], clock, path + [i]) == actions[i] <==> NormalAction(actions[i])
    {
      ActionNormal(actions[i], clock, path + [i]);
    }
    var d := DefaultActions(actions, clock, path);
    assert forall i :: 0 <= i < |actions| ==> d[i] == DefaultAction(actions[i], clock, path + [i]);
  }

  lemma {:induction false} TransitionNormal(t: Transition, clock: Clock, path: seq<nat>)
    requires Reads(clock)
    ensures NormalTransition(DefaultTransition(t, clock, path)) && (DefaultTransition(t, clock, path) == t <==> NormalTransition(t))
    decreases t
  {
    hide Normal, ApplyDefaults, NormalActions, DefaultActions;
    ActionsNormal(t.entryActions, clock, path + [0]);
    var d := DefaultTransition(t, clock, path);
    forall i | 0 <= i < |t.forkTargets|
      ensures NormalRef(d.forkTargets[i].childWorkflow)
      ensures d.forkTargets[i] == t.forkTargets[i] <==> NormalRef(t.forkTargets[i].childWorkflow)
    {
      RefNormal(t.forkTargets[i].childWorkflow, clock, path + [1, i]);
      assert d.forkTargets[i] == DefaultForkTarget(t.forkTargets[i], clock, path + [1, i]);
    }
  }

  lemma {:induction false} TransitionsNormal(ts: seq<Transition>, clock: Clock, path: seq<nat>)
    requires Reads(clock)
    ensures NormalTransitions(DefaultTransitions(ts, clock, path))
    ensures DefaultTransitions(ts, clock, path) == ts <==> NormalTransitions(ts)
    decreases ts
  {
    hide NormalTransition, DefaultTransition;
    forall i | 0 <= i < |ts|
      ensures NormalTransition(DefaultTransition(ts[i], clock, path + [i]))
      ensures DefaultTransition(ts[i], clock, path + [i]) == ts[i] <==> NormalTransition(ts[i])
    {
      TransitionNormal(ts[i], clock, path + [i]);
    }
    var d := DefaultTransitions(ts, clock, path);
    assert forall i :: 0 <= i < |ts| ==> d[i] == DefaultTransition(ts[i], clock, path + [i]);
  }

  lemma {:induction false} StatesNormal(ss: seq<State>, clock: Clock, path: seq<nat>)
    requires Reads(clock)
    ensures NormalStates(DefaultStates(ss, clock, path))
    ensures DefaultStates(ss, clock, path) == ss <==> NormalStates(ss)
    ensures FirstId(DefaultStates(ss, clock, path)) == FirstId(ss)
    decreases ss
  {
    hide NormalState;
    forall i | 0 <= i < |ss|
      ensures NormalState(DefaultState(ss[i], clock, path + [i]))
      ensures DefaultState(ss[i], clock, path + [i]) == ss[i] <==> NormalState(ss[i])
    {
      StateNormal(ss[i], clock, path + [i]);
    }
    var d := DefaultStates(ss, clock, path);
    assert forall i :: 0 <= i < |ss| ==> d[i] == DefaultState(ss[i], clock, path + [i]);
  }

  lemma {:induction false} StateNormal(s: State, clock: Clock, path: seq<nat>)
    requires Reads(clock)
    ensures NormalState(DefaultState(s, clock, path)) && (DefaultState(s, clock, path) == s <==> NormalState(s))
    decreases s
  {
    hide NormalActions, DefaultActions, NormalStates, DefaultStates, NormalTransitions, DefaultTransitions, FirstId;
    if s.ActionState? {
      ActionsNormal(s.entryActions, clock, path + [0]);
      ActionsNormal(s.exitActions, clock, path + [1]);
      ActionsNormal(s.doActions, clock, path + [2]);
    } else if s.CompositeState? {
      ActionsNormal(s.entryActions, clock, path + [0]);
      ActionsNormal(s.exitActions, clock, path + [1]);
      StatesNormal(s.substates, clock, path + [2]);
      TransitionsNormal(s.subTransitions, clock, path + [3]);
    }
  }

  /** Main result: the outcome has nothing left to fill in, and a definition is left
      as it is exactly when it had nothing to fill in. */
  lemma {:induction false} DefaultsNormal(wf: Workflow, clock: Clock, path: seq<nat>)
    requires Reads(clock)
    ensures Normal(ApplyDefaults(wf, clock, path))
    ensures ApplyDefaults(wf, clock, path) == wf <==> Normal(wf)
    decreases wf
  {
    hide NormalActions, DefaultActions, NormalStates, DefaultStates, NormalTransitions, DefaultTransitions, FirstId;
    StatesNormal(wf.states, clock, path + [0]);
    TransitionsNormal(wf.transitions, clock, path + [1]);
    var d := ApplyDefaults(wf, clock, path);
    forall i | 0 <= i < |wf.commonTransitions|
      ensures NormalCommon(d.commonTransitions[i])
      ensures d.commonTransitions[i] == wf.commonTransitions[i] <==> NormalCommon(wf.commonTransitions[i])
    {
      ActionsNormal(wf.commonTransitions[i].entryActions, clock, path + [2, i]);
      assert d.commonTransitions[i] == DefaultCommon(wf.commonTransitions[i], clock, path + [2, i]);
    }
  }

  /** Filling in a second time changes nothing, whatever the clock reads then. */
  lemma Idempotent(wf: Workflow, first: Clock, second: Clock, path: seq<nat>, again: seq<nat>)
    requires Reads(first) && Reads(second)
    ensures ApplyDefaults(ApplyDefaults(wf, first, path), second, again) == ApplyDefaults(wf, first, path)
  {
    DefaultsNormal(wf, first, path);
    DefaultsNormal(ApplyDefaults(wf, first, path), second, again);
  }

  // ---- The loops ----------------------------------------------------------

  method FillAction(a: Action, clock: Clock, path: seq<nat>) returns (r: Action)
    ensures r == DefaultAction(a, clock, path)
    decreases a
  {
    r := a;
    if r.actionType == HttpRequestAction && r.httpMethod == "" {
      r := r.(httpMethod := "GET");
    }
    if r.childWorkflow.Some? {
      var child := FillWorkflow(a.childWorkflow.value, clock, path);
      r := r.(childWorkflow := Some(child));
    }
  }

  method FillActions(actions: seq<Action>, clock: Clock, path: seq<nat>) returns (r: seq<Action>)
    ensures r == DefaultActions(actions, clock, path)
    decreases actions
  {
    r := [];
    for i := 0 to |actions|
      invariant |r| == i && forall k :: 0 <= k < i ==> r[k] == DefaultAction(actions[k], clock, path + [k])
    {
      var x := FillAction(actions[i], clock, path + [i]);
      r := r + [x];
    }
  }

  method FillTransition(t: Transition, clock: Clock, path: seq<nat>) returns (r: Transition)
    ensures r == DefaultTransition(t, clock, path)
    decreases t
  {
    r := t;
    if r.trigger == TriggerUnset {
      r := r.(trigger := UserTrigger);
    }
    if r.kind == KindUnset {
      r := r.(kind := ExternalKind);
    }
    var entry := FillActions(t.entryActions, clock, path + [0]);
    var forks: seq<ForkTarget> := [];
    for i := 0 to |t.forkTargets|
      invariant |forks| == i && forall k :: 0 <= k < i ==> forks[k] == DefaultForkTarget(t.forkTargets[k], clock, path + [1, k])
    {
      var x := t.forkTargets[i];
      if x.childWorkflow.Some? {
        var child := FillWorkflow(t.forkTargets[i].childWorkflow.value, clock, path + [1, i]);
        x := x.(childWorkflow := Some(child));
      }
      forks := forks + [x];
    }
    r := r.(entryActions := entry, forkTargets := forks);
  }

  method FillTransitions(ts: seq<Transition>, clock: Clock, path: seq<nat>) returns (r: seq<Transition>)
    ensures r == DefaultTransitions(ts, clock, path)
    decreases ts
  {
    r := [];
    for i := 0 to |ts|
      invariant |r| == i && forall k :: 0 <= k < i ==> r[k] == DefaultTransition(ts[k], clock, path + [k])
    {
      var x := FillTransition(ts[i], clock, path + [i]);
      r := r + [x];
    }
  }

  method FillInfo(i: Info, tag: string) returns (r: Info)
    ensures r == DefaultInfo(i, tag)
  {
    r := i;
    if r.typeTag == "" {
      r := r.(typeTag := tag);
    }
    if r.status == "" {
      r := r.(status := "NEW");
    }
    if r.productStatus == "" {
      r := r.(productStatus := "IN_PROGRESS");
    }
    if r.bulletName == "" {
      r := r.(bulletName := r.id);
    }
  }

  method FillState(s: State, clock: Clock, path: seq<nat>) returns (r: State)
    ensures r == DefaultState(s, clock, path)
    decreases s
  {
    match s
    case SimpleState(info) =>
      var i := FillInfo(info, "SimpleState");
      r := SimpleState(i);
    case ActionState(info, expectResponse, entry, exit, doActions) =>
      var i := FillInfo(info, "ActionState");
      var en := FillActions(entry, clock, path + [0]);
      var ex := FillActions(exit, clock, path + [1]);
      var acts := FillActions(doActions, clock, path + [2]);
      r := ActionState(i, expectResponse, en, ex, acts);
    case CompositeState(info, entry, exit, initial, substates, subTransitions, history) =>
      var i := FillInfo(info, "CompositeState");
      var first := initial;
      if first == "" && |substates| > 0 {
        first := substates[0].Id();
      }
      var en := FillActions(entry, clock, path + [0]);
      var ex := FillActions(exit, clock, path + [1]);
      var subs := FillStates(substates, clock, path + [2]);
      var ts := FillTransitions(subTransitions, clock, path + [3]);
      r := CompositeState(i, en, ex, first, subs, ts, history);
  }

  method FillStates(ss: seq<State>, clock: Clock, path: seq<nat>) returns (r: seq<State>)
    ensures r == DefaultStates(ss, clock, path)
    decreases ss
  {
    r := [];
    for i := 0 to |ss|
      invariant |r| == i && forall k :: 0 <= k < i ==> r[k] == DefaultState(ss[k], clock, path + [k])
    {
      var x := FillState(ss[i], clock, path + [i]);
      r := r + [x];
    }
  }

  method FillCommons(cs: seq<CommonTransition>, clock: Clock, path: seq<nat>) returns (r: seq<CommonTransition>)
    ensures |r| == |cs| && forall k :: 0 <= k < |cs| ==> r[k] == DefaultCommon(cs[k], clock, path + [2, k])
    decreases cs
  {
    r := [];
    for i := 0 to |cs|
      invariant |r| == i && forall k :: 0 <= k < i ==> r[k] == DefaultCommon(cs[k], clock, path + [2, k])
    {
      var x := cs[i];
      if x.trigger == TriggerUnset {
        x := x.(trigger := UserTrigger);
      }
      if x.kind == KindUnset {
        x := x.(kind := ExternalKind);
      }
      var entry := FillActions(cs[i].entryActions, clock, path + [2, i]);
      r := r + [x.(entryActions := entry)];
    }
  }

  /** The fields of the workflow itself. */
  method FillHeader(wf: Workflow, now: string) returns (r: Workflow)
    ensures r == wf.(kind := "USER", version := Or(wf.version, "1.0.0"), creationDate := Or(wf.creationDate, now),
                     updateDate := Or(wf.updateDate, now), initialState := Or(wf.initialState, FirstId(wf.states)))
  {
    r := wf.(kind := "USER");
    if r.version == "" {
      r := r.(version := "1.0.0");
    }
    if r.creationDate == "" {
      r := r.(creationDate := now);
    }
    if r.updateDate == "" {
      r := r.(updateDate := now);
    }
    if r.initialState == "" && |r.states| > 0 {
      r := r.(initialState := r.states[0].Id());
    }
  }

  method FillWorkflow(wf: Workflow, clock: Clock, path: seq<nat>) returns (r: Workflow)
    ensures r == ApplyDefaults(wf, clock, path)
    decreases wf
  {
    hide DefaultStates, DefaultTransitions, DefaultCommon;
    r := FillHeader(wf, clock(path));
    var states := FillStates(wf.states, clock, path + [0]);
    var ts := FillTransitions(wf.transitions, clock, path + [1]);
    var commons := FillCommons(wf.commonTransitions, clock, path);
    assert commons == ApplyDefaults(wf, clock, path).commonTransitions;
    r := r.(states := states, transitions := ts, commonTransitions := commons);
  }
}
