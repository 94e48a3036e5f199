/** The data types of a workflow definition (model/statemachine.go,
    model/composite_state.go, model/guard.go) and the enabling predicate
    every lookup of the engine shares.

    Everything the engine takes from outside the process is gathered in `World`:
    float parsing, the order in which a Go map is ranged over, HTTP replies,
    UUIDs and the outcome of a database insert. Each of them may depend on a
    `tick` that the engine advances, so two calls never have to agree. */
module Model {

  datatype Option<+T> = None | Some(value: T) {
    predicate IsFailure() { None? }
    function PropagateFailure<U>(): Option<U> requires None? { None }
    function Extract(): T requires Some? { value }
  }

  type Context = map<string, string>

  // ---- Guards -------------------------------------------------------------

  /** `OpUnset` is the empty string, which the JSON decoder also accepts. */
  datatype GuardOp =
    | GuardEq | GuardNeq | GuardGt | GuardGte | GuardLt | GuardLte
    | GuardExists | GuardNotExists | OpUnset

  datatype Guard = Guard(key: string, op: GuardOp, value: string)

  /** A parsed float64, ordered like IEEE values: nothing compares with NaN. */
  datatype Float = NaN | NegInf | Finite(r: real) | PosInf

  predicate Less(a: Float, b: Float) {
    match (a, b)
    case (Finite(x), Finite(y)) => x < y
    case (NegInf, Finite(_)) => true
    case (NegInf, PosInf) => true
    case (Finite(_), PosInf) => true
    case _ => false
  }

  predicate LessOrEqual(a: Float, b: Float) {
    Less(a, b) || (a == b && a != NaN)
  }

  // ---- Definitions --------------------------------------------------------

  datatype Trigger = AutomaticTrigger | UserTrigger | SystemTrigger | TriggerUnset

  datatype Kind = ExternalKind | InternalKind | ForkKind | JoinKind | KindUnset

  datatype ActionType =
    | HttpRequestAction | SetContextMapAction | CreateChildWorkflowAction | ActionTypeUnset

  datatype Action = Action(
    actionType: ActionType,
    httpMethod: string,
    url: string,
    expectResponse: bool,
    forwardToken: bool,
    status: string,
    variables: map<string, string>,
    childWorkflow: Option<Workflow>)

  datatype ForkTarget = ForkTarget(ref: string, childWorkflow: Option<Workflow>)

  datatype Transition = Transition(
    trigger: Trigger,
    kind: Kind,
    source: string,
    target: string,
    event: string,
    guard: Option<Guard>,
    entryActions: seq<Action>,
    join: bool,
    forkTargets: seq<ForkTarget>,
    after: string,
    entersHistory: bool)
  {
    /** Both the explicit kind and the legacy flag mark a join. */
    predicate IsJoin() { kind == JoinKind || join }
  }

  datatype CommonTransition = CommonTransition(
    sourceList: seq<string>,
    target: string,
    event: string,
    trigger: Trigger,
    kind: Kind,
    guard: Option<Guard>,
    entryActions: seq<Action>)

  /** The fields every state variant carries. */
  datatype Info = Info(
    typeTag: string,
    id: string,
    frontendBullet: bool,
    bulletName: string,
    resumeEvent: string,
    productStatus: string,
    status: string,
    isHappyFlow: Option<bool>)

  const NO_HISTORY := ""

  datatype State =
    | SimpleState(info: Info)
    | ActionState(
        info: Info,
        expectResponse: bool,
        entryActions: seq<Action>,
        exitActions: seq<Action>,
        doActions: seq<Action>)
    | CompositeState(
        info: Info,
        entryActions: seq<Action>,
        exitActions: seq<Action>,
        initialSubstate: string,
        substates: seq<State>,
        subTransitions: seq<Transition>,
        history: string)
  {
    function Id(): string { info.id }

    function OnEntry(): seq<Action> { if SimpleState? then [] else entryActions }

    function OnExit(): seq<Action> { if SimpleState? then [] else exitActions }

    /** Only an action state has a do-activity. */
    function DoActions(): seq<Action> { if ActionState? then doActions else [] }

    function FindSubstate(id: string): (s: Option<State>)
      requires CompositeState?
    {
      FindState(substates, id)
    }
  }

  datatype Workflow = Workflow(
    id: string,
    kind: string,
    version: string,
    deprecated: bool,
    creationDate: string,
    updateDate: string,
    initialState: string,
    states: seq<State>,
    transitions: seq<Transition>,
    commonTransitions: seq<CommonTransition>,
    endStates: seq<string>)

  // ---- First match and filter ---------------------------------------------

  function First<T(!new)>(s: seq<T>, p: T -> bool): (r: Option<T>)
    ensures r.Some? ==> r.value in s && p(r.value)
    ensures r.None? <==> forall x :: x in s ==> !p(x)
  {
    if s == [] then None
    else if p(s[0]) then Some(s[0])
    else First(s[1..], p)
  }

  function Filter<T(!new)>(s: seq<T>, p: T -> bool): (r: seq<T>)
    ensures forall x :: x in r <==> x in s && p(x)
  {
    if s == [] then []
    else if p(s[0]) then [s[0]] + Filter(s[1..], p)
    else Filter(s[1..], p)
  }

  lemma {:induction false} FirstAppend<T(!new)>(a: seq<T>, b: seq<T>, p: T -> bool)
    ensures First(a + b, p) == if First(a, p).Some? then First(a, p) else First(b, p)
  {
    if a == [] {
      assert a + b == b;
    } else {
      assert (a + b)[0] == a[0] && (a + b)[1..] == a[1..] + b;
      FirstAppend(a[1..], b, p);
    }
  }

  lemma {:induction false} FilterAppend<T(!new)>(a: seq<T>, b: seq<T>, p: T -> bool)
    ensures Filter(a + b, p) == Filter(a, p) + Filter(b, p)
  {
    if a == [] {
      assert a + b == b;
    } else {
      assert (a + b)[0] == a[0] && (a + b)[1..] == a[1..] + b;
      FilterAppend(a[1..], b, p);
    }
  }

  /** The first match is preceded only by elements that do not match. */
  lemma {:induction false} FirstIsFirst<T(!new)>(s: seq<T>, p: T -> bool, k: nat)
    requires k < |s| && p(s[k])
    ensures exists i :: 0 <= i <= k && First(s, p) == Some(s[i]) && forall j :: 0 <= j < i ==> !p(s[j])
  {
    if p(s[0]) {
      assert First(s, p) == Some(s[0]);
    } else {
      FirstIsFirst(s[1..], p, k - 1);
      var i :| 0 <= i <= k - 1 && First(s[1..], p) == Some(s[1..][i]) && forall j :: 0 <= j < i ==> !p(s[1..][j]);
      assert First(s, p) == Some(s[i + 1]);
      forall j | 0 <= j < i + 1 ensures !p(s[j]) {
        if j > 0 { assert s[j] == s[1..][j - 1]; }
      }
    }
  }

  /** The first state with the given id: findStateById and FindSubstate. */
  function FindState(states: seq<State>, id: string): (s: Option<State>)
    ensures s.Some? ==> s.value in states && s.value.Id() == id
    ensures s.None? <==> forall x :: x in states ==> x.Id() != id
  {
    First(states, (x: State) => x.Id() == id)
  }

  // ---- The outside world --------------------------------------------------

  datatype HttpRequest = HttpRequest(verb: string, url: string, body: map<string, string>, token: string)

  /** A reply contributes the members of its body, or nothing when the body
      does not decode; any refusal is an error. */
  datatype HttpReply = HttpFailed | HttpOk(members: map<string, string>)

  datatype World = World(
    parseFloat: string -> Option<Float>,
    keyOrder: (nat, Option<string>, set<string>) -> seq<string>,
    http: (nat, HttpRequest) -> HttpReply,
    uuid: nat -> string,
    insertOk: nat -> bool,
    saveOk: nat -> bool)

  /** Guard.Evaluate; an absent guard always passes. */
  predicate Enabled(w: World, g: Option<Guard>, ctx: Context) {
    match g
    case None => true
    case Some(Guard(key, op, value)) =>
      match op
      case GuardExists => key in ctx
      case GuardNotExists => key !in ctx
      case GuardEq => key in ctx && ctx[key] == value
      case GuardNeq => key !in ctx || ctx[key] != value
      case OpUnset => false
      case _ => key in ctx && Compare(op, w.parseFloat(ctx[key]), w.parseFloat(value))
  }

  /** An operand that does not parse blocks the comparison. */
  predicate Compare(op: GuardOp, actual: Option<Float>, bound: Option<Float>) {
    if actual.None? || bound.None? then false
    else if op == GuardGt then Less(bound.value, actual.value)
    else if op == GuardGte then LessOrEqual(bound.value, actual.value)
    else if op == GuardLt then Less(actual.value, bound.value)
    else LessOrEqual(actual.value, bound.value)
  }

  /** The operators come in complementary pairs on a key that is present and
      parses to a number, and every ordering operator blocks otherwise: a
      malformed guard never fires. */
  lemma GuardOperators(w: World, key: string, value: string, ctx: Context)
    ensures Enabled(w, Some(Guard(key, GuardExists, value)), ctx) != Enabled(w, Some(Guard(key, GuardNotExists, value)), ctx)
    ensures Enabled(w, Some(Guard(key, GuardEq, value)), ctx) != Enabled(w, Some(Guard(key, GuardNeq, value)), ctx)
    ensures
      var lt := Enabled(w, Some(Guard(key, GuardLt, value)), ctx);
      var lte := Enabled(w, Some(Guard(key, GuardLte, value)), ctx);
      var gt := Enabled(w, Some(Guard(key, GuardGt, value)), ctx);
      var gte := Enabled(w, Some(Guard(key, GuardGte, value)), ctx);
      var comparable := key in ctx
        && w.parseFloat(ctx[key]).Some? && w.parseFloat(value).Some?
        && w.parseFloat(ctx[key]).value != NaN && w.parseFloat(value).value != NaN;
      if comparable then lt != gte && gt != lte && !(lt && gt) else !lt && !lte && !gt && !gte
  {
    if key in ctx && w.parseFloat(ctx[key]).Some? && w.parseFloat(value).Some? {
      var a, b := w.parseFloat(ctx[key]).value, w.parseFloat(value).value;
      match (a, b) {
        case (Finite(x), Finite(y)) => assert x < y || x == y || y < x;
        case _ =>
      }
    }
  }

  // ---- What each operator means -------------------------------------------

  /** The number strictly above another one; NaN is above and below nothing. */
  predicate Above(x: Float, y: Float) {
    || (x.Finite? && y.Finite? && x.r > y.r)
    || (x.Finite? && y.NegInf?)
    || (x.PosInf? && (y.Finite? || y.NegInf?))
  }

  predicate SameNumber(x: Float, y: Float) {
    || (x.Finite? && y.Finite? && x.r == y.r) || (x.PosInf? && y.PosInf?) || (x.NegInf? && y.NegInf?)
  }

  /** An absent guard passes, an operator left out never does; presence and equality
      speak of the context alone. */
  lemma PlainOperators(w: World, key: string, value: string, ctx: Context)
    ensures Enabled(w, None, ctx)
    ensures !Enabled(w, Some(Guard(key, OpUnset, value)), ctx)
    ensures Enabled(w, Some(Guard(key, GuardExists, value)), ctx) <==> key in ctx
    ensures Enabled(w, Some(Guard(key, GuardNotExists, value)), ctx) <==> key !in ctx
    ensures Enabled(w, Some(Guard(key, GuardEq, value)), ctx) <==> key in ctx && ctx[key] == value
    ensures Enabled(w, Some(Guard(key, GuardNeq, value)), ctx) <==> key !in ctx || ctx[key] != value
  {}

  /** The ordering operators pass exactly when the key is present, both sides parse, and
      the context's number stands in that order to the guard's. */
  lemma OrderOperators(w: World, key: string, value: string, ctx: Context)
    ensures
      var both := key in ctx && w.parseFloat(ctx[key]).Some? && w.parseFloat(value).Some?;
      var x, y := if both then w.parseFloat(ctx[key]).value else NaN, if both then w.parseFloat(value).value else NaN;
      && (Enabled(w, Some(Guard(key, GuardGt, value)), ctx) <==> both && Above(x, y))
      && (Enabled(w, Some(Guard(key, GuardGte, value)), ctx) <==> both && (Above(x, y) || SameNumber(x, y)))
      && (Enabled(w, Some(Guard(key, GuardLt, value)), ctx) <==> both && Above(y, x))
      && (Enabled(w, Some(Guard(key, GuardLte, value)), ctx) <==> both && (Above(y, x) || SameNumber(x, y)))
  {}

  /** On two finite numbers that is the order of the reals. */
  lemma FiniteOperators(w: World, key: string, value: string, ctx: Context, x: real, y: real)
    requires key in ctx && w.parseFloat(ctx[key]) == Some(Finite(x)) && w.parseFloat(value) == Some(Finite(y))
    ensures Enabled(w, Some(Guard(key, GuardGt, value)), ctx) <==> x > y
    ensures Enabled(w, Some(Guard(key, GuardGte, value)), ctx) <==> x >= y
    ensures Enabled(w, Some(Guard(key, GuardLt, value)), ctx) <==> x < y
    ensures Enabled(w, Some(Guard(key, GuardLte, value)), ctx) <==> x <= y
  {}

  /** The state found is the first one with the id. */
  lemma FindStateIsFirst(states: seq<State>, k: nat)
    requires k < |states| && forall j :: 0 <= j < k ==> states[j].Id() != states[k].Id()
    ensures FindState(states, states[k].Id()) == Some(states[k])
  {
    FirstIsFirst(states, (x: State) => x.Id() == states[k].Id(), k);
  }
}
