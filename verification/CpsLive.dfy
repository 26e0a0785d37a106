/** Which variables are read from a continuation on, and that they are bound when a run
    gets there. */
module CpsLive {
  import opened CpsValues
  import opened CpsLang
  import opened CpsConst
  import opened CpsCollect
  import opened CpsReach

  /** The variables an expression reads. */
  function ReadsOf(e: Expr): set<Name> {
    match e
    case EValues(args) => set x | x in args
    case EPrimcall(_, args) => set x | x in args
    case ECall(f, args) => {f} + set x | x in args
    case _ => {}
  }

  function Reads(t: Term): set<Name> {
    match t
    case Branch(x, _, _) => {x}
    case Continue(_, e) => ReadsOf(e)
  }

  /** The variables that have to be bound when control arrives at `k`. */
  ghost function Need(g: Graph, deep: Rank, k: Label): set<Name>
    requires Acyclic(g, deep) && k in g
    decreases deep(k), 1
  {
    match g[k]
    case Ktail => {}
    case Kreceive(_, _, next) => assert Leads(g[k], next); Need(g, deep, next)
    case Kproc(_, _, _, body) => assert Leads(g[k], body); Need(g, deep, body)
    case Kargs(vars, _) => NeedTerm(g, deep, k) - (set x | x in vars)
  }

  /** The same once the variables of `k` are bound. */
  ghost function NeedTerm(g: Graph, deep: Rank, k: Label): set<Name>
    requires Acyclic(g, deep) && k in g && g[k].Kargs?
    decreases deep(k), 0
  {
    Reads(g[k].term) +
    match g[k].term
    case Branch(_, kt, kf) => assert Leads(g[k], kt) && Leads(g[k], kf); Need(g, deep, kt) + Need(g, deep, kf)
    case Continue(next, e) =>
      assert Leads(g[k], next);
      Need(g, deep, next) + (if e.EProc? then assert Leads(g[k], e.k); Need(g, deep, e.k) else {})
  }

  /** All that is needed is bound, but for names that may be free. */
  ghost predicate Has(env: GEnv, need: set<Name>, free: Name -> bool) {
    forall x :: x in need ==> x in env || free(x)
  }

  ghost predicate ValueHas(g: Graph, deep: Rank, free: Name -> bool, v: GValue)
    requires Acyclic(g, deep)
    decreases v
  {
    match v
    case Closure(code, env) =>
      && (code in g ==> Has(env, Need(g, deep, code), free))
      && forall x :: x in env ==> ValueHas(g, deep, free, env[x])
    case Pair(a, d) => ValueHas(g, deep, free, a) && ValueHas(g, deep, free, d)
    case _ => true
  }

  ghost predicate AllHas(g: Graph, deep: Rank, free: Name -> bool, vs: seq<GValue>)
    requires Acyclic(g, deep)
  {
    forall v :: v in vs ==> ValueHas(g, deep, free, v)
  }

  ghost predicate EnvHas(g: Graph, deep: Rank, free: Name -> bool, env: GEnv)
    requires Acyclic(g, deep)
  {
    forall x :: x in env ==> ValueHas(g, deep, free, env[x])
  }

  // ------------------------------------------------------------------- values

  lemma BoundHas(g: Graph, deep: Rank, free: Name -> bool, env: GEnv, vars: seq<Name>, vals: seq<GValue>)
    requires Acyclic(g, deep) && EnvHas(g, deep, free, env) && AllHas(g, deep, free, vals) && |vars| <= |vals|
    ensures EnvHas(g, deep, free, Bind(env, vars, vals))
  {
    hide ValueHas;
    forall x | x in Bind(env, vars, vals)
      ensures ValueHas(g, deep, free, Bind(env, vars, vals)[x])
    {
      BindAt(env, vars, vals, x);
    }
  }

  lemma NeedBound(env: GEnv, vars: seq<Name>, vals: seq<GValue>, need: set<Name>, free: Name -> bool)
    requires |vars| <= |vals| && Has(env, need - (set x | x in vars), free)
    ensures Has(Bind(env, vars, vals), need, free)
  {
    forall x | x in need
      ensures x in Bind(env, vars, vals) || free(x)
    {
      BindAt(env, vars, vals, x);
    }
  }

  lemma {:induction false} LookedUpHas(g: Graph, deep: Rank, free: Name -> bool, env: GEnv, xs: seq<Name>)
    requires Acyclic(g, deep) && EnvHas(g, deep, free, env) && LookupAll(env, xs).Some?
    ensures AllHas(g, deep, free, LookupAll(env, xs).value)
  {
    if xs != [] {
      LookedUpHas(g, deep, free, env, xs[1..]);
    }
  }

  lemma {:induction false} ListHas(g: Graph, deep: Rank, free: Name -> bool, args: seq<GValue>)
    requires Acyclic(g, deep) && AllHas(g, deep, free, args)
    ensures ValueHas(g, deep, free, ListOf(args))
  {
    if args != [] {
      ListHas(g, deep, free, args[1..]);
    }
  }

  lemma PrimHas(g: Graph, deep: Rank, free: Name -> bool, p: Prim, args: seq<GValue>)
    requires Acyclic(g, deep) && AllHas(g, deep, free, args) && ApplyPrim(p, args).Some?
    ensures AllHas(g, deep, free, [ApplyPrim(p, args).value])
  {
    hide Acyclic;
    if p == List {
      ListHas(g, deep, free, args);
    } else if p == Prim.Cons || p == Car || p == Cdr {
      assert args[0] in args;
      assert p == Prim.Cons ==> args[1] in args;
    }
  }

  lemma ReceivedHas(g: Graph, deep: Rank, free: Name -> bool, req: nat, rest: bool, args: seq<GValue>)
    requires Acyclic(g, deep) && ArityOk(req, rest, |args|) && AllHas(g, deep, free, args)
    ensures AllHas(g, deep, free, Received(req, rest, args))
  {
    hide ValueHas;
    if rest {
      ListHas(g, deep, free, args[req..]);
    }
  }

  lemma {:induction false} DataHas(g: Graph, deep: Rank, free: Name -> bool, v: GValue)
    requires Acyclic(g, deep) && IsData(v)
    ensures AllHas(g, deep, free, [v])
  {
    if v.Pair? {
      DataHas(g, deep, free, v.car);
      DataHas(g, deep, free, v.cdr);
      assert v.car in [v.car] && v.cdr in [v.cdr];
    }
  }

  lemma AtomHas(g: Graph, deep: Rank, free: Name -> bool, p: Prim)
    requires Acyclic(g, deep)
    ensures AllHas(g, deep, free, [Primitive(p)])
  {
  }

  lemma ClosureHas(g: Graph, deep: Rank, free: Name -> bool, code: Label, env: GEnv)
    requires Acyclic(g, deep) && EnvHas(g, deep, free, env) && (code in g ==> Has(env, Need(g, deep, code), free))
    ensures AllHas(g, deep, free, [Closure(code, env)])
  {
  }

  // --------------------------------------------------------------------- runs

  ghost predicate HasAt(g: Graph, deep: Rank, free: Name -> bool, visit: Visit)
    requires Acyclic(g, deep)
  {
    visit.0 in g && g[visit.0].Kargs? && Has(visit.1, NeedTerm(g, deep, visit.0), free)
  }

  /** Wherever the run stands, what is needed from there on is bound. */
  ghost predicate HasAll(g: Graph, deep: Rank, free: Name -> bool, visits: set<Visit>, r: Outcome)
    requires Acyclic(g, deep)
  {
    && (forall v :: v in visits ==> HasAt(g, deep, free, v))
    && (r.Done? ==> AllHas(g, deep, free, r.vs))
  }

  ghost predicate Sane(g: Graph, rank: Rank, deep: Rank) {
    Ranked(g, rank) && Acyclic(g, deep) && forall k {:trigger Tame(g, k)} :: k in g ==> Tame(g, k)
  }

  lemma {:induction false} HasRun(fuel: nat, g: Graph, rank: Rank, deep: Rank, free: Name -> bool, k: Label, env: GEnv, vals: seq<GValue>)
    requires Sane(g, rank, deep) && k in g && Has(env, Need(g, deep, k), free)
    requires EnvHas(g, deep, free, env) && AllHas(g, deep, free, vals)
    ensures HasAll(g, deep, free, Visits(fuel, g, rank, k, env, vals), Run(fuel, g, rank, k, env, vals))
    decreases fuel, rank(k), 3
  {
    hide EnvHas, AllHas, Acyclic, Tame, Has, NeedTerm;
    match g[k]
    case Kreceive(req, rest, next) =>
      assert next in Succs(g[k]);
      if ArityOk(|req|, rest.Some?, |vals|) {
        ReceivedHas(g, deep, free, |req|, rest.Some?, vals);
        HasRun(fuel, g, rank, deep, free, next, env, Received(|req|, rest.Some?, vals));
      }
    case Kargs(vars, _) =>
      if |vars| <= |vals| {
        NeedBound(env, vars, vals, NeedTerm(g, deep, k), free);
        BoundHas(g, deep, free, env, vars, vals);
        HasTerm(fuel, g, rank, deep, free, k, Bind(env, vars, vals));
      }
    case _ =>
  }

  lemma {:induction false} HasTerm(fuel: nat, g: Graph, rank: Rank, deep: Rank, free: Name -> bool, k: Label, env: GEnv)
    requires Sane(g, rank, deep) && k in g && g[k].Kargs? && Has(env, NeedTerm(g, deep, k), free) && EnvHas(g, deep, free, env)
    ensures HasAll(g, deep, free, VisitsTerm(fuel, g, rank, k, env), RunTerm(fuel, g, rank, k, env))
    decreases fuel, rank(k), 2
  {
    assert Tame(g, k);
    hide EnvHas, AllHas, Acyclic, Tame, ApplyPrim, Need;
    match g[k].term
    case Branch(x, kt, kf) =>
      assert kt in Succs(g[k]) && kf in Succs(g[k]);
      NoneHas(g, deep, free);
      if Lookup(env, x).Some? {
        HasRun(fuel, g, rank, deep, free, if Lookup(env, x).value == Bool(false) then kf else kt, env, []);
      }
    case Continue(next, e) =>
      assert next in Succs(g[k]) && rank(next) < rank(k);
      match e
      case EConst(v) =>
        ConstHas(g, deep, free, k);
        HasRun(fuel, g, rank, deep, free, next, env, [v]);
      case EPrim(p) =>
        AtomHas(g, deep, free, p);
        HasRun(fuel, g, rank, deep, free, next, env, [Primitive(p)]);
      case EProc(code) =>
        ClosureHas(g, deep, free, code, env);
        HasRun(fuel, g, rank, deep, free, next, env, [Closure(code, env)]);
      case EValues(args) =>
        if LookupAll(env, args).Some? {
          LookedUpHas(g, deep, free, env, args);
          HasRun(fuel, g, rank, deep, free, next, env, LookupAll(env, args).value);
        }
      case EPrimcall(p, args) =>
        if LookupAll(env, args).Some? && ApplyPrim(p, LookupAll(env, args).value).Some? {
          LookedUpHas(g, deep, free, env, args);
          PrimHas(g, deep, free, p, LookupAll(env, args).value);
          HasRun(fuel, g, rank, deep, free, next, env, [ApplyPrim(p, LookupAll(env, args).value).value]);
        }
      case ECall(proc, args) =>
        HasCall(fuel, g, rank, deep, free, k, env);
  }

  lemma NoneHas(g: Graph, deep: Rank, free: Name -> bool)
    requires Acyclic(g, deep)
    ensures AllHas(g, deep, free, [])
  {
  }

  lemma ConstHas(g: Graph, deep: Rank, free: Name -> bool, k: Label)
    requires Acyclic(g, deep) && k in g && Tame(g, k) && g[k].Kargs? && g[k].term.Continue? && g[k].term.expr.EConst?
    ensures AllHas(g, deep, free, [g[k].term.expr.v])
  {
    DataHas(g, deep, free, g[k].term.expr.v);
  }

  lemma {:induction false} HasCall(fuel: nat, g: Graph, rank: Rank, deep: Rank, free: Name -> bool, k: Label, env: GEnv)
    requires Sane(g, rank, deep) && k in g && g[k].Kargs? && Has(env, NeedTerm(g, deep, k), free) && EnvHas(g, deep, free, env)
    requires g[k].term.Continue? && g[k].term.expr.ECall?
    ensures HasAll(g, deep, free, VisitsTerm(fuel, g, rank, k, env), RunTerm(fuel, g, rank, k, env))
    decreases fuel, rank(k), 1
  {
    var next, e := g[k].term.k, g[k].term.expr;
    assert next in Succs(g[k]) && rank(next) < rank(k);
    hide AllHas, Acyclic, Tame, Need, ValueHas;
    var f, vs := Lookup(env, e.proc), LookupAll(env, e.args);
    if f.Some? && vs.Some? {
      LookedUpHas(g, deep, free, env, e.args);
      PrimitiveHas(g, deep, free, f.value);
      HasApply(fuel, g, rank, deep, free, f.value, vs.value);
      var r := Apply(fuel, g, rank, f.value, vs.value);
      if r.Done? {
        HasRun(fuel, g, rank, deep, free, next, env, r.vs);
      }
    }
  }

  lemma PrimitiveHas(g: Graph, deep: Rank, free: Name -> bool, v: GValue)
    requires Acyclic(g, deep)
    ensures v.Primitive? ==> ValueHas(g, deep, free, v)
  {
  }

  lemma {:induction false} HasApply(fuel: nat, g: Graph, rank: Rank, deep: Rank, free: Name -> bool, f: GValue, args: seq<GValue>)
    requires Sane(g, rank, deep) && ValueHas(g, deep, free, f) && AllHas(g, deep, free, args)
    ensures HasAll(g, deep, free, VisitsApply(fuel, g, rank, f, args), Apply(fuel, g, rank, f, args))
    decreases fuel, 0, 0
  {
    hide AllHas, Acyclic, Tame;
    match f
    case Primitive(p) =>
      if ApplyPrim(p, args).Some? {
        PrimHas(g, deep, free, p, args);
      }
    case Closure(code, cenv) =>
      if code in g && g[code].Kproc? && g[code].body in g && fuel > 0
         && ArityOk(|g[code].params|, g[code].restParam.Some?, |args|) {
        hide ApplyPrim;
        ReceivedHas(g, deep, free, |g[code].params|, g[code].restParam.Some?, args);
        HasRun(fuel - 1, g, rank, deep, free, g[code].body, cenv, Received(|g[code].params|, g[code].restParam.Some?, args));
      }
    case _ =>
  }

  /** What a program's run reads wherever it gets is bound, if all that is free in the
      program may be free. */
  lemma ReadsBound(fuel: nat, g: Graph, rank: Rank, deep: Rank, free: Name -> bool, k: Label, env: GEnv, visit: Visit, x: Name)
    requires Sane(g, rank, deep) && k in g && g[k].Kargs? && Has(env, NeedTerm(g, deep, k), free) && EnvHas(g, deep, free, env)
    requires visit in VisitsTerm(fuel, g, rank, k, env)
    ensures visit.0 in g && g[visit.0].Kargs? && (x in Reads(g[visit.0].term) ==> x in visit.1 || free(x))
  {
    HasTerm(fuel, g, rank, deep, free, k, env);
    assert HasAt(g, deep, free, visit);
  }
}
