/** Which procedure a variable is bound to, and in what environment it was made. */
module CpsScope {
  import opened Wrappers
  import opened CpsValues
  import opened CpsLang
  import opened CpsConst
  import opened CpsCollect
  import opened CpsReach

  /** Every record binds the procedure `code`. */
  predicate AllProc(rs: seq<Rec>, code: Label) {
    forall r :: r in rs ==> r.binding == Some(EProc(code))
  }

  /** One environment is part of another. */
  ghost predicate Part(e: GEnv, env: GEnv) {
    forall y :: y in e ==> y in env && env[y] == e[y]
  }

  /** All that is bound is on record, and a variable recorded with one procedure is bound
      to it, made in a part of the present environment. */
  ghost predicate EnvMade(t: Table, env: GEnv) {
    forall x :: x in env ==> Known(t, x) && forall code :: AllProc(t[x], code) ==> MadeHere(env, x, code)
  }

  ghost predicate MadeHere(env: GEnv, x: Name, code: Label)
    requires x in env
  {
    env[x].Closure? && env[x].code == code && Part(env[x].env, env)
  }

  /** What is bound on arriving at `k` was not bound before. */
  ghost predicate NewAt(g: Graph, rank: Rank, t: Table, k: Label)
    requires Ranked(g, rank)
    decreases rank(k)
  {
    k in g ==>
    match g[k]
    case Kargs(vars, _) => forall x :: x in vars ==> !Known(t, x)
    case Kreceive(_, _, next) => assert next in Succs(g[k]); NewAt(g, rank, t, next)
    case _ => true
  }

  ghost predicate NewIn(g: Graph, t: Table, code: Label) {
    code in g && g[code].Kproc? ==> forall x :: x in Names(g[code]) ==> !Known(t, x)
  }

  ghost predicate NewFrom(g: Graph, rank: Rank, s: VarInfo, k: Label)
    requires Ranked(g, rank) && k in s
  {
    k in g && g[k].Kargs? ==>
    match g[k].term
    case Branch(_, kt, kf) => NewAt(g, rank, s[k], kt) && NewAt(g, rank, s[k], kf)
    case Continue(next, e) => NewAt(g, rank, s[k], next) && (e.EProc? ==> NewIn(g, s[k], e.k))
  }

  /** Consistent information on a graph in which no run binds a variable again. */
  ghost predicate Scoped(g: Graph, rank: Rank, s: VarInfo) {
    && Ranked(g, rank) && Consistent(g, rank, s)
    && (forall k {:trigger Tame(g, k)} :: k in g ==> Tame(g, k))
    && (forall k {:trigger NewFrom(g, rank, s, k)} :: k in s ==> NewFrom(g, rank, s, k))
  }

  /** Closures were made in environments of this kind, where their parameters were new. */
  ghost predicate ValueMade(g: Graph, s: VarInfo, v: GValue) {
    match v
    case Closure(code, env) =>
      && (exists t :: EnvMade(t, env) && Enters(g, s, t, code) && NewIn(g, t, code))
      && forall x :: x in env ==> ValueMade(g, s, env[x])
    case Pair(a, d) => ValueMade(g, s, a) && ValueMade(g, s, d)
    case _ => true
  }

  ghost predicate AllMade(g: Graph, s: VarInfo, vs: seq<GValue>) {
    forall v :: v in vs ==> ValueMade(g, s, v)
  }

  ghost predicate ValuesMade(g: Graph, s: VarInfo, env: GEnv) {
    forall x :: x in env ==> ValueMade(g, s, env[x])
  }

  // ------------------------------------------------------------- environments

  /** New variables leave the old environment part of the new one. */
  lemma BindPart(e: GEnv, env: GEnv, vars: seq<Name>, vals: seq<GValue>)
    requires Part(e, env) && |vars| <= |vals| && forall x :: x in vars ==> x !in env
    ensures Part(e, Bind(env, vars, vals))
  {
    forall y | y in e
      ensures y in Bind(env, vars, vals) && Bind(env, vars, vals)[y] == e[y]
    {
      BindAt(env, vars, vals, y);
    }
  }

  lemma MadeOn(t: Table, env: GEnv, vars: seq<Name>, vals: seq<GValue>, u: Table, x: Name, code: Label)
    requires EnvMade(t, env) && |vars| <= |vals| && (forall y :: y in vars ==> !Known(t, y))
    requires x in env && Known(u, x) && Within(t[x], u[x]) && AllProc(u[x], code)
    ensures x in Bind(env, vars, vals) && MadeHere(Bind(env, vars, vals), x, code)
  {
    assert AllProc(t[x], code);
    BindAt(env, vars, vals, x);
    BindPart(env[x].env, env, vars, vals);
  }

  /** Binding the value of `e` where its arrival has been recorded. */
  lemma MadeArrives(t: Table, env: GEnv, vars: seq<Name>, vals: seq<GValue>, e: Expr, u: Table)
    requires EnvMade(t, env) && |vars| <= |vals| && Covers(t, vars, u) && Records(vars, Some(e), u)
    requires (e.EProc? ==> vals == [Closure(e.k, env)]) && forall y :: y in vars ==> !Known(t, y)
    ensures EnvMade(u, Bind(env, vars, vals))
  {
    var env' := Bind(env, vars, vals);
    forall x | x in env'
      ensures Known(u, x) && forall code :: AllProc(u[x], code) ==> MadeHere(env', x, code)
    {
      BindAt(env, vars, vals, x);
      forall code | x in env' && Known(u, x) && AllProc(u[x], code)
        ensures MadeHere(env', x, code)
      {
        if x in vars {
          var r :| r in u[x] && r.binding == Some(e);
          BindPart(env, env, vars, vals);
        } else {
          MadeOn(t, env, vars, vals, u, x, code);
        }
      }
    }
  }

  lemma MadeCovered(t: Table, env: GEnv, u: Table)
    requires EnvMade(t, env) && Covers(t, [], u)
    ensures EnvMade(u, env)
  {
    forall x | x in env
      ensures Known(u, x) && forall code :: AllProc(u[x], code) ==> MadeHere(env, x, code)
    {
      forall code | AllProc(u[x], code)
        ensures MadeHere(env, x, code)
      {
        assert AllProc(t[x], code);
      }
    }
  }

  /** Entering a procedure: nothing is known of what its parameters get. */
  lemma MadeEnters(t: Table, env: GEnv, names: seq<Name>, vars: seq<Name>, vals: seq<GValue>, u: Table)
    requires EnvMade(t, env) && |vars| <= |vals| && Covers(t, names, u) && Records(names, None, u)
    requires (forall x :: x in vars ==> x in names) && forall y :: y in names ==> !Known(t, y)
    ensures EnvMade(u, Bind(env, vars, vals))
  {
    var env' := Bind(env, vars, vals);
    forall x | x in env'
      ensures Known(u, x) && forall code :: AllProc(u[x], code) ==> MadeHere(env', x, code)
    {
      BindAt(env, vars, vals, x);
      if x in names {
        var r :| r in u[x] && r.binding == None;
        assert forall code :: !AllProc(u[x], code);
      } else {
        forall code | AllProc(u[x], code)
          ensures MadeHere(env', x, code)
        {
          MadeOn(t, env, vars, vals, u, x, code);
        }
      }
    }
  }

  lemma BoundMade(g: Graph, s: VarInfo, env: GEnv, vars: seq<Name>, vals: seq<GValue>)
    requires ValuesMade(g, s, env) && AllMade(g, s, vals) && |vars| <= |vals|
    ensures ValuesMade(g, s, Bind(env, vars, vals))
  {
    forall x | x in Bind(env, vars, vals)
      ensures ValueMade(g, s, Bind(env, vars, vals)[x])
    {
      BindAt(env, vars, vals, x);
    }
  }

  lemma {:induction false} LookedUpMade(g: Graph, s: VarInfo, env: GEnv, xs: seq<Name>)
    requires ValuesMade(g, s, env) && LookupAll(env, xs).Some?
    ensures AllMade(g, s, LookupAll(env, xs).value)
  {
    if xs != [] {
      LookedUpMade(g, s, env, xs[1..]);
    }
  }

  lemma {:induction false} ListMade(g: Graph, s: VarInfo, args: seq<GValue>)
    requires AllMade(g, s, args)
    ensures ValueMade(g, s, ListOf(args))
  {
    if args != [] {
      ListMade(g, s, args[1..]);
    }
  }

  lemma PrimMade(g: Graph, s: VarInfo, p: Prim, args: seq<GValue>)
    requires AllMade(g, s, args) && ApplyPrim(p, args).Some?
    ensures AllMade(g, s, [ApplyPrim(p, args).value])
  {
    if p == List {
      ListMade(g, s, args);
    } else if p == Prim.Cons || p == Car || p == Cdr {
      assert args[0] in args;
      assert p == Prim.Cons ==> args[1] in args;
    }
  }

  lemma ReceivedMade(g: Graph, s: VarInfo, req: nat, rest: bool, args: seq<GValue>)
    requires ArityOk(req, rest, |args|) && AllMade(g, s, args)
    ensures AllMade(g, s, Received(req, rest, args))
  {
    if rest {
      ListMade(g, s, args[req..]);
    }
  }

  lemma {:induction false} DataMade(g: Graph, s: VarInfo, v: GValue)
    requires IsData(v)
    ensures AllMade(g, s, [v])
  {
    if v.Pair? {
      DataMade(g, s, v.car);
      DataMade(g, s, v.cdr);
      assert v.car in [v.car] && v.cdr in [v.cdr];
    }
  }

  // --------------------------------------------------------------------- runs

  ghost predicate Here(g: Graph, s: VarInfo, k: Label, env: GEnv) {
    k in g && g[k].Kargs? && k in s && EnvMade(s[k], env) && ValuesMade(g, s, env)
  }

  /** Every visit is to a continuation there is information on, and it is right. */
  ghost predicate MadeAll(g: Graph, s: VarInfo, visits: set<Visit>, r: Outcome) {
    && (forall v :: v in visits ==> Here(g, s, v.0, v.1))
    && (r.Done? ==> AllMade(g, s, r.vs))
  }

  lemma {:induction false} MadeRun(fuel: nat, g: Graph, rank: Rank, s: VarInfo, k: Label, env: GEnv, vals: seq<GValue>,
                                   t: Table, e: Expr)
    requires Scoped(g, rank, s) && k in g && Arrives(g, rank, s, t, Some(e), k) && NewAt(g, rank, t, k) && EnvMade(t, env)
    requires (e.EProc? ==> vals == [Closure(e.k, env)]) && ValuesMade(g, s, env) && AllMade(g, s, vals)
    ensures MadeAll(g, s, Visits(fuel, g, rank, k, env, vals), Run(fuel, g, rank, k, env, vals))
    decreases fuel, rank(k), 3
  {
    hide EnvMade, ValuesMade, AllMade, ValueMade, Covers, Records, Consistent;
    match g[k]
    case Kreceive(req, rest, next) =>
      assert next in Succs(g[k]);
      if ArityOk(|req|, rest.Some?, |vals|) {
        assert Received(|req|, rest.Some?, vals) == vals;
        MadeRun(fuel, g, rank, s, next, env, vals, t, e);
      }
    case Kargs(vars, _) =>
      if |vars| <= |vals| {
        MadeArrives(t, env, vars, vals, e, s[k]);
        BoundMade(g, s, env, vars, vals);
        MadeTerm(fuel, g, rank, s, k, Bind(env, vars, vals));
      }
    case _ =>
  }

  lemma {:induction false} MadeTerm(fuel: nat, g: Graph, rank: Rank, s: VarInfo, k: Label, env: GEnv)
    requires Scoped(g, rank, s) && Here(g, s, k, env)
    ensures MadeAll(g, s, VisitsTerm(fuel, g, rank, k, env), RunTerm(fuel, g, rank, k, env))
    decreases fuel, rank(k), 2
  {
    assert Flows(g, rank, s, k) && Tame(g, k) && NewFrom(g, rank, s, k);
    hide EnvMade, ValuesMade, AllMade, ValueMade, Covers, Records, Consistent, ApplyPrim;
    match g[k].term
    case Branch(x, kt, kf) =>
      MadeBranch(fuel, g, rank, s, k, env);
    case Continue(next, e) =>
      assert next in Succs(g[k]) && rank(next) < rank(k);
      match e
      case EConst(v) =>
        DataMade(g, s, v);
        MadeRun(fuel, g, rank, s, next, env, [v], s[k], e);
      case EPrim(p) =>
        assert AllMade(g, s, [Primitive(p)]) by { PrimitiveMade(g, s, p); }
        MadeRun(fuel, g, rank, s, next, env, [Primitive(p)], s[k], e);
      case EProc(code) =>
        ClosureMade(g, s, s[k], env, code);
        MadeRun(fuel, g, rank, s, next, env, [Closure(code, env)], s[k], e);
      case EValues(args) =>
        if LookupAll(env, args).Some? {
          LookedUpMade(g, s, env, args);
          MadeRun(fuel, g, rank, s, next, env, LookupAll(env, args).value, s[k], e);
        }
      case EPrimcall(p, args) =>
        if LookupAll(env, args).Some? && ApplyPrim(p, LookupAll(env, args).value).Some? {
          LookedUpMade(g, s, env, args);
          PrimMade(g, s, p, LookupAll(env, args).value);
          MadeRun(fuel, g, rank, s, next, env, [ApplyPrim(p, LookupAll(env, args).value).value], s[k], e);
        }
      case ECall(proc, args) =>
        MadeCall(fuel, g, rank, s, k, env);
  }

  lemma PrimitiveMade(g: Graph, s: VarInfo, p: Prim)
    ensures AllMade(g, s, [Primitive(p)])
  {
  }

  lemma ClosureMade(g: Graph, s: VarInfo, t: Table, env: GEnv, code: Label)
    requires EnvMade(t, env) && ValuesMade(g, s, env) && Enters(g, s, t, code) && NewIn(g, t, code)
    ensures AllMade(g, s, [Closure(code, env)])
  {
  }

  lemma {:induction false} MadeBranch(fuel: nat, g: Graph, rank: Rank, s: VarInfo, k: Label, env: GEnv)
    requires Scoped(g, rank, s) && Here(g, s, k, env) && g[k].term.Branch?
    ensures MadeAll(g, s, VisitsTerm(fuel, g, rank, k, env), RunTerm(fuel, g, rank, k, env))
    decreases fuel, rank(k), 1
  {
    assert Flows(g, rank, s, k) && Tame(g, k);
    var kt, kf := g[k].term.kt, g[k].term.kf;
    assert kt in Succs(g[k]) && kf in Succs(g[k]);
    var v := Lookup(env, g[k].term.arg);
    if v.Some? {
      var arm := if v.value == Bool(false) then kf else kt;
      if g[arm].vars == [] {
        MadeCovered(s[k], env, s[arm]);
        hide EnvMade, Covers, Records, Consistent, ValueMade;
        MadeTerm(fuel, g, rank, s, arm, env);
      }
    }
  }

  lemma {:induction false} MadeCall(fuel: nat, g: Graph, rank: Rank, s: VarInfo, k: Label, env: GEnv)
    requires Scoped(g, rank, s) && Here(g, s, k, env) && g[k].term.Continue? && g[k].term.expr.ECall?
    ensures MadeAll(g, s, VisitsTerm(fuel, g, rank, k, env), RunTerm(fuel, g, rank, k, env))
    decreases fuel, rank(k), 1
  {
    var next, e := g[k].term.k, g[k].term.expr;
    assert Flows(g, rank, s, k) && NewFrom(g, rank, s, k) && next in Succs(g[k]) && rank(next) < rank(k);
    hide EnvMade, Covers, Records, Consistent;
    var f, vs := Lookup(env, e.proc), LookupAll(env, e.args);
    if f.Some? && vs.Some? {
      LookedUpMade(g, s, env, e.args);
      MadeApply(fuel, g, rank, s, f.value, vs.value);
      var r := Apply(fuel, g, rank, f.value, vs.value);
      if r.Done? {
        MadeRun(fuel, g, rank, s, next, env, r.vs, s[k], e);
      }
    }
  }

  lemma {:induction false} MadeApply(fuel: nat, g: Graph, rank: Rank, s: VarInfo, f: GValue, args: seq<GValue>)
    requires Scoped(g, rank, s) && ValueMade(g, s, f) && AllMade(g, s, args)
    ensures MadeAll(g, s, VisitsApply(fuel, g, rank, f, args), Apply(fuel, g, rank, f, args))
    decreases fuel, 0, 0
  {
    hide Consistent, Covers, Records, EnvMade, AllMade;
    match f
    case Primitive(p) =>
      if ApplyPrim(p, args).Some? {
        PrimMade(g, s, p, args);
      }
    case Closure(code, cenv) =>
      if code in g && g[code].Kproc? && g[code].body in g && fuel > 0
         && ArityOk(|g[code].params|, g[code].restParam.Some?, |args|) {
        hide ApplyPrim;
        assert Tame(g, code);
        var body := g[code].body;
        var got, vars := Received(|g[code].params|, g[code].restParam.Some?, args), g[body].vars;
        ReceivedMade(g, s, |g[code].params|, g[code].restParam.Some?, args);
        if |vars| <= |got| {
          var t :| EnvMade(t, cenv) && Enters(g, s, t, code) && NewIn(g, t, code);
          MadeEnters(t, cenv, Names(g[code]), vars, got, s[body]);
          BoundMade(g, s, cenv, vars, got);
          MadeTerm(fuel - 1, g, rank, s, body, Bind(cenv, vars, got));
        }
      }
    case _ =>
  }

  // ------------------------------------------------- what is bound further on

  /** Whatever `t` knows, `u` knows. */
  ghost predicate Under(t: Table, u: Table) {
    forall x :: Known(t, x) ==> Known(u, x)
  }

  ghost predicate NewThere(g: Graph, t: Table, l: Label) {
    l in g && g[l].Kargs? ==> forall x :: x in g[l].vars ==> !Known(t, x)
  }

  /** Nothing known on arriving somewhere is bound anywhere from there on. */
  lemma {:induction false} ArriveNew(g: Graph, rank: Rank, deep: Rank, s: VarInfo, t: Table, u: Table, e: Option<Expr>,
                                     k: Label, l: Label)
    requires Scoped(g, rank, s) && Acyclic(g, deep) && Under(t, u) && k in g && !g[k].Kproc? && l in Reach(g, deep, k)
    requires Arrives(g, rank, s, u, e, k) && NewAt(g, rank, u, k)
    ensures NewThere(g, t, l)
    decreases deep(k), 1
  {
    hide Consistent, Reach;
    match g[k]
    case Ktail => ReachTail(g, deep, k);
    case Kreceive(_, _, next) =>
      assert next in Succs(g[k]) && Tame(g, k) && Leads(g[k], next);
      if l != k {
        var m := NextOnWay(g, deep, k, l);
        ArriveNew(g, rank, deep, s, t, u, e, next, l);
      }
    case Kargs(vars, _) =>
      assert Under(t, s[k]);
      if l != k {
        StandNew(g, rank, deep, s, t, k, l);
      }
  }

  lemma ReachTail(g: Graph, deep: Rank, k: Label)
    requires Acyclic(g, deep) && k in g && g[k].Ktail?
    ensures Reach(g, deep, k) == {k}
  {
  }

  lemma {:induction false} StandNew(g: Graph, rank: Rank, deep: Rank, s: VarInfo, t: Table, k: Label, l: Label)
    requires Scoped(g, rank, s) && Acyclic(g, deep) && k in s && Under(t, s[k]) && k in g && g[k].Kargs?
    requires l in Reach(g, deep, k) && l != k
    ensures NewThere(g, t, l)
    decreases deep(k), 0
  {
    assert Flows(g, rank, s, k) && NewFrom(g, rank, s, k) && Tame(g, k);
    var next := NextOnWay(g, deep, k, l);
    hide Consistent, Reach;
    match g[k].term
    case Branch(_, _, _) => ArriveNew(g, rank, deep, s, t, s[k], None, next, l);
    case Continue(n, e) =>
      if next == n {
        ArriveNew(g, rank, deep, s, t, s[k], Some(e), next, l);
      } else {
        EnterNew(g, rank, deep, s, t, s[k], next, l);
      }
  }

  lemma {:induction false} EnterNew(g: Graph, rank: Rank, deep: Rank, s: VarInfo, t: Table, u: Table, code: Label, l: Label)
    requires Scoped(g, rank, s) && Acyclic(g, deep) && Under(t, u) && code in g && g[code].Kproc?
    requires l in Reach(g, deep, code) && Enters(g, s, u, code) && NewIn(g, u, code)
    ensures NewThere(g, t, l)
    decreases deep(code), 0
  {
    var body := g[code].body;
    assert Tame(g, code) && Leads(g[code], body);
    assert Under(t, s[body]);
    if l != code && l != body {
      StandNew(g, rank, deep, s, t, body, l);
    }
  }
}
