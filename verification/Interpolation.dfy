/** `${name}` substitution (model/executions.go). Go ranges over a map in an
    order it picks anew each time; `order` is that order, written out. */
module Interpolation {
  import opened Model

  /** strings.ReplaceAll for a non-empty pattern: non-overlapping, left to right. */
  function ReplaceAll(s: string, old_: string, new_: string): string
    requires old_ != ""
    decreases |s|
  {
    if |s| < |old_| then s
    else if s[..|old_|] == old_ then new_ + ReplaceAll(s[|old_|..], old_, new_)
    else [s[0]] + ReplaceAll(s[1..], old_, new_)
  }

  function Placeholder(name: string): (p: string)
    ensures |p| == |name| + 3
  {
    "${" + name + "}"
  }

  /** `order` visits exactly the keys in `keys`, each once. */
  ghost predicate IsOrder(order: seq<string>, keys: set<string>) {
    && (forall k :: k in order <==> k in keys)
    && (forall i, j :: 0 <= i < j < |order| ==> order[i] != order[j])
  }

  /** The string after replacing the placeholders of the keys in `order`, one
      key after the other. */
  function InterpolateIn(order: seq<string>, ctx: Context, s: string): string {
    if order == [] then s
    else
      var k := order[|order| - 1];
      var t := InterpolateIn(order[..|order| - 1], ctx, s);
      if k in ctx then ReplaceAll(t, Placeholder(k), ctx[k]) else t
  }

  method Interpolate(s: string, ctx: Context, order: seq<string>) returns (r: string)
    ensures r == InterpolateIn(order, ctx, s)
  {
    r := s;
    for i := 0 to |order|
      invariant r == InterpolateIn(order[..i], ctx, s)
    {
      assert order[..i + 1][..i] == order[..i];
      if order[i] in ctx {
        r := ReplaceAll(r, Placeholder(order[i]), ctx[order[i]]);
      }
    }
    assert order[..|order|] == order;
  }

  // ---- Templates ----------------------------------------------------------

  datatype Token = Lit(text: string) | Var(name: string)

  function RenderOne(t: Token): string {
    match t case Lit(text) => text case Var(n) => Placeholder(n)
  }

  function Render(ts: seq<Token>): string {
    if ts == [] then "" else RenderOne(ts[0]) + Render(ts[1..])
  }

  ghost predicate WellFormedToken(t: Token) {
    match t
    case Lit(text) => '$' !in text
    case Var(name) => '$' !in name && '}' !in name
  }

  ghost predicate WellFormed(ts: seq<Token>) {
    forall t :: t in ts ==> WellFormedToken(t)
  }

  /** Where the first `}` of `s` is. */
  function Close(s: string): (c: Option<nat>)
    ensures c.Some? ==> c.value < |s| && s[c.value] == '}' && '}' !in s[..c.value]
  {
    if s == "" then None
    else if s[0] == '}' then Some(0)
    else match Close(s[1..]) case None => None case Some(c) => assert s[..c + 1] == [s[0]] + s[1..][..c]; Some(c + 1)
  }

  /** `s` starts with a placeholder. */
  predicate Opens(s: string) {
    |s| > 1 && s[0] == '$' && s[1] == '{' && Close(s[2..]).Some?
  }

  function NameAt(s: string): (n: string)
    requires Opens(s)
    ensures '}' !in n
  {
    s[2..][..Close(s[2..]).value]
  }

  function After(s: string): (r: string)
    requires Opens(s)
    ensures |r| < |s| && s == Placeholder(NameAt(s)) + r
  {
    var c := Close(s[2..]).value;
    assert s[2..] == s[2..][..c] + "}" + s[2..][c + 1..];
    assert s == ['$', '{'] + s[2..];
    s[2..][c + 1..]
  }

  /** Every `$` of `s` opens a placeholder whose name holds no `$`. */
  predicate Clean(s: string)
    decreases |s|
  {
    if s == "" then true
    else if s[0] != '$' then Clean(s[1..])
    else Opens(s) && '$' !in NameAt(s) && Clean(After(s))
  }

  /** One simultaneous left-to-right substitution: each placeholder is replaced
      by the value its name has in `ctx`, or kept when it has none, and what a
      value contributes is never looked at again. */
  function Expand(s: string, ctx: Context): string
    decreases |s|
  {
    if s == "" then ""
    else if Opens(s) then (if NameAt(s) in ctx then ctx[NameAt(s)] else Placeholder(NameAt(s))) + Expand(After(s), ctx)
    else [s[0]] + Expand(s[1..], ctx)
  }

  /** The names a template mentions. */
  function Mentions(s: string): set<string>
    decreases |s|
  {
    if s == "" then {}
    else if Opens(s) then {NameAt(s)} + Mentions(After(s))
    else Mentions(s[1..])
  }

  function Tokenize(s: string): (ts: seq<Token>)
    requires Clean(s)
    ensures WellFormed(ts)
    decreases |s|
  {
    if s == "" then []
    else if s[0] != '$' then [Lit([s[0]])] + Tokenize(s[1..])
    else [Var(NameAt(s))] + Tokenize(After(s))
  }

  function Names(ts: seq<Token>): set<string> {
    if ts == [] then {}
    else (if ts[0].Var? then {ts[0].name} else {}) + Names(ts[1..])
  }

  function SubstToken(keys: set<string>, ctx: Context, t: Token): Token {
    match t
    case Lit(_) => t
    case Var(n) => if n in keys && n in ctx then Lit(ctx[n]) else t
  }

  function Subst(keys: set<string>, ctx: Context, ts: seq<Token>): seq<Token> {
    seq(|ts|, i requires 0 <= i < |ts| => SubstToken(keys, ctx, ts[i]))
  }

  lemma {:induction false} NameListed(ts: seq<Token>, i: nat)
    requires i < |ts| && ts[i].Var?
    ensures ts[i].name in Names(ts)
  {
    if i > 0 { NameListed(ts[1..], i - 1); }
  }

  function Rest(s: string): (r: string)
    requires s != "" && Clean(s)
    ensures |r| < |s| && Clean(r) && Tokenize(s)[1..] == Tokenize(r)
  {
    if s[0] != '$' then s[1..] else After(s)
  }

  /** The first token of a template and what follows it. */
  lemma TokenizeHead(s: string)
    requires s != "" && Clean(s)
    ensures
      var ts := Tokenize(s);
      && ts != [] && ts[1..] == Tokenize(Rest(s)) && s == RenderOne(ts[0]) + Rest(s)
      && (if s[0] == '$' then Opens(s) && ts[0] == Var(NameAt(s)) && Rest(s) == After(s)
          else !Opens(s) && ts[0] == Lit([s[0]]) && Rest(s) == s[1..])
  {
    hide Close;
  }

  lemma {:induction false} RenderTokenize(s: string)
    requires Clean(s)
    ensures Render(Tokenize(s)) == s
    decreases |s|
  {
    if s != "" {
      hide Tokenize, Clean, Rest, Opens;
      RenderTokenize(Rest(s));
      TokenizeHead(s);
    }
  }

  lemma {:induction false} NamesTokenize(s: string)
    requires Clean(s)
    ensures Names(Tokenize(s)) == Mentions(s)
    decreases |s|
  {
    if s != "" {
      hide Tokenize, Clean, Rest, Opens;
      NamesTokenize(Rest(s));
      TokenizeHead(s);
    }
  }

  lemma {:induction false} ExpandIsSubst(s: string, ctx: Context)
    requires Clean(s)
    ensures Expand(s, ctx) == Render(Subst(ctx.Keys, ctx, Tokenize(s)))
    decreases |s|
  {
    if s != "" {
      hide Tokenize, Clean, Rest, Opens;
      ExpandIsSubst(Rest(s), ctx);
      TokenizeHead(s);
      assert Subst(ctx.Keys, ctx, Tokenize(s))[1..] == Subst(ctx.Keys, ctx, Tokenize(Rest(s)));
    }
  }

  // ---- One key at a time --------------------------------------------------

  /** A stretch without `$` cannot meet a placeholder. */
  lemma {:induction false} SkipPlain(a: string, rest: string, k: string, v: string)
    requires '$' !in a
    ensures ReplaceAll(a + rest, Placeholder(k), v) == a + ReplaceAll(rest, Placeholder(k), v)
    decreases |a|
  {
    var p := Placeholder(k);
    if a == "" {
      assert a + rest == rest;
    } else {
      SkipPlain(a[1..], rest, k, v);
      assert (a + rest)[1..] == a[1..] + rest;
      if |a + rest| >= |p| {
        assert (a + rest)[..|p|][0] == a[0] && p[0] == '$';
        assert a[0] in a;
      }
      assert [a[0]] + a[1..] == a;
      assert [a[0]] + (a[1..] + ReplaceAll(rest, p, v)) == a + ReplaceAll(rest, p, v);
    }
  }

  /** Two placeholders whose names hold no `}` differ where their names do. */
  lemma PlaceholderDiffers(n: string, rest: string, k: string)
    requires '}' !in n && '}' !in k && n != k
    requires |Placeholder(k)| <= |Placeholder(n) + rest|
    ensures (Placeholder(n) + rest)[..|Placeholder(k)|] != Placeholder(k)
  {
    var s, p := Placeholder(n) + rest, Placeholder(k);
    var m := if |n| < |k| then |n| else |k|;
    if exists j :: 0 <= j < m && n[j] != k[j] {
      var j :| 0 <= j < m && n[j] != k[j];
      assert s[2 + j] != p[2 + j];
      assert s[..|p|][2 + j] == s[2 + j];
    } else {
      assert |n| == |k| ==> n == k;
      assert s[2 + m] != p[2 + m];
      assert s[..|p|][2 + m] == s[2 + m];
    }
  }

  lemma ReplaceAtPlaceholder(n: string, rest: string, k: string, v: string)
    requires '$' !in n && '}' !in n && '}' !in k
    ensures ReplaceAll(Placeholder(n) + rest, Placeholder(k), v)
         == (if n == k then v else Placeholder(n)) + ReplaceAll(rest, Placeholder(k), v)
  {
    var s, p := Placeholder(n) + rest, Placeholder(k);
    if n == k {
      assert s[..|p|] == p && s[|p|..] == rest;
    } else {
      var tail := "{" + n + "}";
      var r := ReplaceAll(rest, p, v);
      assert s[1..] == tail + rest;
      SkipPlain(tail, rest, k, v);
      if |s| < |p| {
        assert ReplaceAll(s, p, v) == s && r == rest;
      } else {
        PlaceholderDiffers(n, rest, k);
        assert ReplaceAll(s, p, v) == [s[0]] + (tail + r);
      }
      assert [s[0]] + (tail + r) == Placeholder(n) + r;
    }
  }

  lemma {:induction false} ReplaceRender(ts: seq<Token>, k: string, ctx: Context)
    requires WellFormed(ts) && '}' !in k && k in ctx
    ensures ReplaceAll(Render(ts), Placeholder(k), ctx[k]) == Render(Subst({k}, ctx, ts))
  {
    if ts != [] {
      var rest := Render(ts[1..]);
      ReplaceRender(ts[1..], k, ctx);
      assert Subst({k}, ctx, ts)[1..] == Subst({k}, ctx, ts[1..]);
      assert ts[0] in ts;
      match ts[0] {
        case Lit(t) => SkipPlain(t, rest, k, ctx[k]);
        case Var(n) => ReplaceAtPlaceholder(n, rest, k, ctx[k]);
      }
    }
  }

  /** Values that the template can pull in hold no `$`. */
  ghost predicate PlainValues(names: set<string>, ctx: Context) {
    forall k :: k in names && k in ctx ==> '$' !in ctx[k]
  }

  ghost predicate PlainKeys(keys: set<string>) {
    forall k :: k in keys ==> '}' !in k
  }

  lemma SubstStep(ts: seq<Token>, keys: set<string>, k: string, ctx: Context)
    requires WellFormed(ts) && PlainValues(Names(ts), ctx)
    ensures WellFormed(Subst(keys, ctx, ts))
    ensures Subst({k}, ctx, Subst(keys, ctx, ts)) == Subst(keys + {k}, ctx, ts)
  {
    forall i | 0 <= i < |ts| ensures WellFormedToken(SubstToken(keys, ctx, ts[i])) {
      assert ts[i] in ts;
      if ts[i].Var? { NameListed(ts, i); }
    }
  }

  lemma {:induction false} InterpolateTokens(order: seq<string>, ctx: Context, ts: seq<Token>)
    requires WellFormed(ts) && PlainValues(Names(ts), ctx) && PlainKeys(ctx.Keys)
    ensures InterpolateIn(order, ctx, Render(ts)) == Render(Subst((set k | k in order), ctx, ts))
  {
    if order == [] {
      assert Subst((set k | k in order), ctx, ts) == ts;
    } else {
      var n := |order| - 1;
      var k, keys := order[n], set k | k in order[..n];
      InterpolateTokens(order[..n], ctx, ts);
      SubstStep(ts, keys, k, ctx);
      assert (set k | k in order) == keys + {k} by {
        forall x | x in order ensures x in keys + {k} { assert order == order[..n] + [k]; }
      }
      if k in ctx {
        ReplaceRender(Subst(keys, ctx, ts), k, ctx);
      } else {
        assert Subst(keys + {k}, ctx, ts) == Subst(keys, ctx, ts);
      }
    }
  }

  /** Main result: on a clean template, with values that hold no `$` and keys
      that hold no `}`, every iteration order yields the simultaneous
      substitution. Only the values the template can pull in matter. */
  lemma InterpolateConfluent(order: seq<string>, ctx: Context, s: string)
    requires IsOrder(order, ctx.Keys)
    requires Clean(s) && PlainValues(Mentions(s), ctx) && PlainKeys(ctx.Keys)
    ensures InterpolateIn(order, ctx, s) == Expand(s, ctx)
  {
    RenderTokenize(s);
    NamesTokenize(s);
    InterpolateTokens(order, ctx, Tokenize(s));
    ExpandIsSubst(s, ctx);
    assert (set k | k in order) == ctx.Keys;
  }

  /** The values matter: one that holds a placeholder makes the result depend on the
      order. */
  lemma InterpolateOrderMatters()
    ensures
      var ctx := map["a" := "${b}", "b" := "x"];
      && IsOrder(["a", "b"], ctx.Keys) && IsOrder(["b", "a"], ctx.Keys) && Clean("${a}")
      && InterpolateIn(["a", "b"], ctx, "${a}") == "x"
      && InterpolateIn(["b", "a"], ctx, "${a}") == "${b}"
  {
    var ctx: Context := map["a" := "${b}", "b" := "x"];
    var a, b := Placeholder("a"), Placeholder("b");
    assert a == "${a}" && b == "${b}";
    assert Clean(a) by {
      assert a[2..] == "a}" && "a}"[1..] == "}";
      assert NameAt(a) == "a" && After(a) == "";
    }
    assert ReplaceAll(a, a, b) == b by { assert a[..4] == a && a[4..] == ""; }
    assert ReplaceAll(b, b, "x") == "x" by { assert b[..4] == b && b[4..] == ""; }
    assert ReplaceAll(a, b, "x") == a by {
      assert a[..4][2] == 'a' && b[2] == 'b';
      assert a[0] == '$' && [a[0]] + a[1..] == a;
    }
    var ab, ba := ["a", "b"], ["b", "a"];
    assert ab[..1] == ["a"] && ["a"][..0] == [] && ba[..1] == ["b"] && ["b"][..0] == [];
    assert InterpolateIn(["a"], ctx, a) == b;
    assert InterpolateIn(["b"], ctx, a) == a;
    assert "a" != "b" by { assert "a"[0] != "b"[0]; }
  }

  // ---- SetContextMapAction ------------------------------------------------

  /** One pass over the variables in `order`; `inner(k)` is the order in which
      the context is ranged over while the value of `k` is interpolated. */
  function SetVariables(order: seq<string>, vars: map<string, string>, inner: (string, set<string>) -> seq<string>, ctx: Context): Context {
    if order == [] then ctx
    else
      var k := order[|order| - 1];
      var c := SetVariables(order[..|order| - 1], vars, inner, ctx);
      if k in vars then c[k := InterpolateIn(inner(k, c.Keys), c, vars[k])] else c
  }

  method ExecuteSetContextMapAction(order: seq<string>, vars: map<string, string>, inner: (string, set<string>) -> seq<string>, ctx: Context)
    returns (r: Context)
    ensures r == SetVariables(order, vars, inner, ctx)
  {
    r := ctx;
    for i := 0 to |order|
      invariant r == SetVariables(order[..i], vars, inner, ctx)
    {
      assert order[..i + 1][..i] == order[..i];
      var k := order[i];
      if k in vars {
        var v := Interpolate(vars[k], r, inner(k, r.Keys));
        r := r[k := v];
      }
    }
    assert order[..|order|] == order;
  }

  lemma {:induction false} ExpandAgree(s: string, c: Context, d: Context)
    requires forall k :: k in Mentions(s) ==> (k in c <==> k in d) && (k in c ==> c[k] == d[k])
    ensures Expand(s, c) == Expand(s, d)
    decreases |s|
  {
    if s != "" { ExpandAgree(if Opens(s) then After(s) else s[1..], c, d); }
  }

  /** Values that mention none of the keys the action sets. */
  ghost predicate IndependentVariables(vars: map<string, string>, ctx: Context) {
    forall k :: k in vars ==>
      Clean(vars[k]) && PlainValues(Mentions(vars[k]), ctx) && Mentions(vars[k]) !! vars.Keys
  }

  /** Setting other keys first does not change what a value expands to. */
  lemma SetOneVariable(order: seq<string>, k: string, vars: map<string, string>, ctx: Context, c: Context)
    requires k in vars && IsOrder(order, c.Keys)
    requires PlainKeys(ctx.Keys + vars.Keys) && IndependentVariables(vars, ctx)
    requires c.Keys <= ctx.Keys + vars.Keys
    requires forall m :: m !in vars ==> (m in c <==> m in ctx) && (m in c ==> c[m] == ctx[m])
    ensures InterpolateIn(order, c, vars[k]) == Expand(vars[k], ctx)
  {
    forall m | m in Mentions(vars[k]) ensures (m in c <==> m in ctx) && (m in c ==> c[m] == ctx[m]) {
      assert m !in vars.Keys;
    }
    InterpolateConfluent(order, c, vars[k]);
    ExpandAgree(vars[k], c, ctx);
  }

  ghost predicate EveryOrder(inner: (string, set<string>) -> seq<string>) {
    forall k, keys :: IsOrder(inner(k, keys), keys)
  }

  /** The values of `keys`, each expanded under `ctx`. */
  function Expanded(keys: set<string>, vars: map<string, string>, ctx: Context): Context {
    map k | k in keys && k in vars :: Expand(vars[k], ctx)
  }

  lemma ExpandedStep(keys: set<string>, k: string, vars: map<string, string>, ctx: Context)
    requires k in vars
    ensures (ctx + Expanded(keys, vars, ctx))[k := Expand(vars[k], ctx)] == ctx + Expanded(keys + {k}, vars, ctx)
  {
    hide Expand;
    assert Expanded(keys + {k}, vars, ctx) == Expanded(keys, vars, ctx)[k := Expand(vars[k], ctx)];
  }

  lemma {:induction false} SetVariablesPrefix(order: seq<string>, vars: map<string, string>, inner: (string, set<string>) -> seq<string>, ctx: Context)
    requires forall k :: k in order ==> k in vars
    requires EveryOrder(inner)
    requires PlainKeys(ctx.Keys + vars.Keys) && IndependentVariables(vars, ctx)
    ensures SetVariables(order, vars, inner, ctx) == ctx + Expanded((set k | k in order), vars, ctx)
  {
    hide Expand, InterpolateIn, Clean, Mentions;
    if order == [] {
      assert Expanded((set k | k in order), vars, ctx) == map[];
    } else {
      var n := |order| - 1;
      var k, keys := order[n], set x | x in order[..n];
      SetVariablesPrefix(order[..n], vars, inner, ctx);
      var c := SetVariables(order[..n], vars, inner, ctx);
      assert order == order[..n] + [k];
      assert (set x | x in order) == keys + {k};
      SetOneVariable(inner(k, c.Keys), k, vars, ctx, c);
      ExpandedStep(keys, k, vars, ctx);
    }
  }

  /** A SetContextMap action whose values mention no key it sets leaves the same
      context whatever the orders are: every key gets its value expanded under
      the context the action started from. */
  lemma SetVariablesOrderIndependent(order: seq<string>, vars: map<string, string>, inner: (string, set<string>) -> seq<string>, ctx: Context)
    requires IsOrder(order, vars.Keys)
    requires EveryOrder(inner)
    requires PlainKeys(ctx.Keys + vars.Keys) && IndependentVariables(vars, ctx)
    ensures SetVariables(order, vars, inner, ctx) == ctx + Expanded(vars.Keys, vars, ctx)
  {
    SetVariablesPrefix(order, vars, inner, ctx);
    assert (set k | k in order) == vars.Keys;
  }
}
