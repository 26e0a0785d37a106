/** Constant information holds wherever a run gets to. */
module CpsReach {
  import opened Wrappers
  import opened CpsValues
  import opened CpsLang
  import opened CpsConst

  type Visit = (Label, GEnv)

  /** The ordinary continuations a run stands at, with what is bound there. */
  ghost function Visits(fuel: nat, g: Graph, rank: Rank, k: Label, env: GEnv, vals: seq<GValue>): set<Visit>
    requires Ranked(g, rank) && k in g
    decreases fuel, rank(k), 1
  {
    match g[k]
    case Kreceive(req, rest, next) =>
      if ArityOk(|req|, rest.Some?, |vals|)
      then Visits(fuel, g, rank, next, env, Received(|req|, rest.Some?, vals))
      else {}
    case Kargs(vars, _) =>
      if |vars| <= |vals| then VisitsTerm(fuel, g, rank, k, Bind(env, vars, vals)) else {}
    case _ => {}
  }

  ghost function VisitsTerm(fuel: nat, g: Graph, rank: Rank, k: Label, env: GEnv): set<Visit>
    requires Ranked(g, rank) && k in g && g[k].Kargs?
    decreases fuel, rank(k), 0
  {
    {(k, env)} +
    match g[k].term
    case Branch(arg, kt, kf) =>
      var v := Lookup(env, arg);
      if v.None? then {} else Visits(fuel, g, rank, if v.value == Bool(false) then kf else kt, env, [])
    case Continue(next, expr) =>
      match expr
      case EConst(v) => Visits(fuel, g, rank, next, env, [v])
      case EPrim(p) => Visits(fuel, g, rank, next, env, [Primitive(p)])
      case EProc(code) => Visits(fuel, g, rank, next, env, [Closure(code, env)])
      case EValues(args) =>
        var vs := LookupAll(env, args);
        if vs.Some? then Visits(fuel, g, rank, next, env, vs.value) else {}
      case EPrimcall(p, args) =>
        var vs := LookupAll(env, args);
        if vs.None? || ApplyPrim(p, vs.value).None? then {}
        else Visits(fuel, g, rank, next, env, [ApplyPrim(p, vs.value).value])
      case ECall(proc, args) =>
        var f, vs := Lookup(env, proc), LookupAll(env, args);
        if f.None? || vs.None? then {}
        else
          VisitsApply(fuel, g, rank, f.value, vs.value) +
          match Apply(fuel, g, rank, f.value, vs.value)
          case Done(rs) => Visits(fuel, g, rank, next, env, rs)
          case _ => {}
  }

  ghost function VisitsApply(fuel: nat, g: Graph, rank: Rank, f: GValue, args: seq<GValue>): set<Visit>
    requires Ranked(g, rank)
    decreases fuel, 0, 0
  {
    if f.Closure? && f.code in g && g[f.code].Kproc? && g[f.code].body in g && fuel > 0
       && ArityOk(|g[f.code].params|, g[f.code].restParam.Some?, |args|)
    then
      Visits(fuel - 1, g, rank, g[f.code].body, f.env,
             Received(|g[f.code].params|, g[f.code].restParam.Some?, args))
    else {}
  }

  /** Consistent information on a graph whose constants need nothing of it. */
  ghost predicate Informed(g: Graph, rank: Rank, s: VarInfo) {
    && Ranked(g, rank) && Consistent(g, rank, s)
    && (forall k {:trigger Ordinary(g, s, k)} :: k in g ==> Ordinary(g, s, k))
  }

  ghost predicate Ordinary(g: Graph, s: VarInfo, k: Label)
    requires k in g
  {
    match g[k]
    case Kproc(_, _, _, body) => body in g && g[body].Kargs?
    case Kargs(_, Branch(_, kt, kf)) => kt in g && g[kt].Kargs? && kf in g && g[kf].Kargs?
    case Kargs(_, Continue(_, EConst(v))) => ValueOk(g, s, g.Keys, v)
    case _ => true
  }

  ghost predicate Stands(g: Graph, s: VarInfo, k: Label, env: GEnv) {
    k in g && g[k].Kargs? && k in s && EnvOk(s[k], env) && EnvValues(g, s, g.Keys, env)
  }

  /** Every visit is to a continuation there is information on, and it is right. */
  ghost predicate Sound(g: Graph, s: VarInfo, visits: set<Visit>, r: Outcome) {
    && (forall v :: v in visits ==> v.0 in s && EnvOk(s[v.0], v.1))
    && (r.Done? ==> AllOk(g, s, g.Keys, r.vs))
  }

  lemma {:induction false} SoundRun(fuel: nat, g: Graph, rank: Rank, s: VarInfo, k: Label, env: GEnv, vals: seq<GValue>,
                                    t: Table, e: Expr)
    requires Informed(g, rank, s) && k in g && Arrives(g, rank, s, t, Some(e), k) && EnvOk(t, env)
    requires (e.EConst? ==> vals == [e.v]) && EnvValues(g, s, g.Keys, env) && AllOk(g, s, g.Keys, vals)
    ensures Sound(g, s, Visits(fuel, g, rank, k, env, vals), Run(fuel, g, rank, k, env, vals))
    decreases fuel, rank(k), 3
  {
    hide EnvOk, EnvValues, AllOk, ValueOk, Covers, Records, Consistent;
    match g[k]
    case Kreceive(req, rest, next) =>
      assert next in Succs(g[k]);
      if ArityOk(|req|, rest.Some?, |vals|) {
        assert Received(|req|, rest.Some?, vals) == vals;
        SoundRun(fuel, g, rank, s, next, env, vals, t, e);
      }
    case Kargs(vars, _) =>
      if |vars| <= |vals| {
        EnvArrives(t, env, vars, vals, e, s[k]);
        BoundValues(g, s, g.Keys, env, vars, vals);
        SoundTerm(fuel, g, rank, s, k, Bind(env, vars, vals));
      }
    case _ =>
  }

  lemma {:induction false} SoundTerm(fuel: nat, g: Graph, rank: Rank, s: VarInfo, k: Label, env: GEnv)
    requires Informed(g, rank, s) && Stands(g, s, k, env)
    ensures Sound(g, s, VisitsTerm(fuel, g, rank, k, env), RunTerm(fuel, g, rank, k, env))
    decreases fuel, rank(k), 2
  {
    assert Flows(g, rank, s, k) && Ordinary(g, s, k);
    hide EnvOk, Covers, Records, Consistent, ApplyPrim;
    match g[k].term
    case Branch(x, kt, kf) =>
      SoundBranch(fuel, g, rank, s, k, env);
    case Continue(next, e) =>
      assert next in Succs(g[k]) && rank(next) < rank(k);
      match e
      case EConst(v) => SoundRun(fuel, g, rank, s, next, env, [v], s[k], e);
      case EPrim(p) => SoundRun(fuel, g, rank, s, next, env, [Primitive(p)], s[k], e);
      case EProc(code) =>
        assert ValueOk(g, s, g.Keys, Closure(code, env));
        SoundRun(fuel, g, rank, s, next, env, [Closure(code, env)], s[k], e);
      case EValues(args) =>
        if LookupAll(env, args).Some? {
          LookedUp(g, s, g.Keys, env, args);
          SoundRun(fuel, g, rank, s, next, env, LookupAll(env, args).value, s[k], e);
        }
      case EPrimcall(p, args) =>
        if LookupAll(env, args).Some? && ApplyPrim(p, LookupAll(env, args).value).Some? {
          LookedUp(g, s, g.Keys, env, args);
          PrimOk(g, s, g.Keys, p, LookupAll(env, args).value);
          SoundRun(fuel, g, rank, s, next, env, [ApplyPrim(p, LookupAll(env, args).value).value], s[k], e);
        }
      case ECall(proc, args) =>
        SoundCall(fuel, g, rank, s, k, env);
  }

  lemma {:induction false} SoundBranch(fuel: nat, g: Graph, rank: Rank, s: VarInfo, k: Label, env: GEnv)
    requires Informed(g, rank, s) && Stands(g, s, k, env) && g[k].term.Branch?
    ensures Sound(g, s, VisitsTerm(fuel, g, rank, k, env), RunTerm(fuel, g, rank, k, env))
    decreases fuel, rank(k), 1
  {
    assert Flows(g, rank, s, k) && Ordinary(g, s, k);
    var kt, kf := g[k].term.kt, g[k].term.kf;
    assert kt in Succs(g[k]) && kf in Succs(g[k]);
    var v := Lookup(env, g[k].term.arg);
    if v.Some? {
      var arm := if v.value == Bool(false) then kf else kt;
      if g[arm].vars == [] {
        EnvCovered(s[k], env, s[arm]);
        hide EnvOk, Covers, Records, Consistent, ValueOk;
        SoundTerm(fuel, g, rank, s, arm, env);
      }
    }
  }

  lemma {:induction false} SoundCall(fuel: nat, g: Graph, rank: Rank, s: VarInfo, k: Label, env: GEnv)
    requires Informed(g, rank, s) && Stands(g, s, k, env) && g[k].term.Continue? && g[k].term.expr.ECall?
    ensures Sound(g, s, VisitsTerm(fuel, g, rank, k, env), RunTerm(fuel, g, rank, k, env))
    decreases fuel, rank(k), 1
  {
    var next, e := g[k].term.k, g[k].term.expr;
    assert Flows(g, rank, s, k) && next in Succs(g[k]) && rank(next) < rank(k);
    hide EnvOk, Covers, Records, Consistent;
    var f, vs := Lookup(env, e.proc), LookupAll(env, e.args);
    if f.Some? && vs.Some? {
      LookedUp(g, s, g.Keys, env, e.args);
      SoundApply(fuel, g, rank, s, f.value, vs.value);
      var r := Apply(fuel, g, rank, f.value, vs.value);
      if r.Done? {
        SoundRun(fuel, g, rank, s, next, env, r.vs, s[k], e);
      }
    }
  }

  lemma {:induction false} SoundApply(fuel: nat, g: Graph, rank: Rank, s: VarInfo, f: GValue, args: seq<GValue>)
    requires Informed(g, rank, s) && ValueOk(g, s, g.Keys, f) && AllOk(g, s, g.Keys, args)
    ensures Sound(g, s, VisitsApply(fuel, g, rank, f, args), Apply(fuel, g, rank, f, args))
    decreases fuel, 0, 0
  {
    hide Consistent, Covers, Records, EnvOk, AllOk;
    match f
    case Primitive(p) =>
      if ApplyPrim(p, args).Some? {
        OneOk(g, s, g.Keys, p, args);
      }
    case Closure(code, cenv) =>
      if code in g && g[code].Kproc? && g[code].body in g && fuel > 0
         && ArityOk(|g[code].params|, g[code].restParam.Some?, |args|) {
        hide ApplyPrim;
        assert Ordinary(g, s, code);
        var body := g[code].body;
        var got, vars := Received(|g[code].params|, g[code].restParam.Some?, args), g[body].vars;
        ReceivedOk(g, s, g.Keys, |g[code].params|, g[code].restParam.Some?, args);
        if |vars| <= |got| {
          var t :| EnvOk(t, cenv) && Enters(g, s, t, code);
          var names := g[code].params + (if g[code].restParam.Some? then [g[code].restParam.value] else []);
          EnvEnters(t, cenv, names, vars, got, s[body]);
          BoundValues(g, s, g.Keys, cenv, vars, got);
          SoundTerm(fuel - 1, g, rank, s, body, Bind(cenv, vars, got));
        }
      }
    case _ =>
  }

  /** Whenever a run from nothing gets to a continuation and `cps_get_const` reports a
      constant for a variable bound there, that is the variable's value. */
  lemma ConstantsSound(fuel: nat, g: Graph, rank: Rank, s: VarInfo, k: Label, l: Label, env: GEnv, x: Name)
    requires Informed(g, rank, s) && k in g && g[k].Kargs? && k in s
    requires (l, env) in VisitsTerm(fuel, g, rank, k, map[]) && x in env
    ensures l in s && (GetConst(s[l], x).Some? ==> env[x] == GetConst(s[l], x).value)
  {
    SoundTerm(fuel, g, rank, s, k, map[]);
    assert (l, env).0 == l;
    if GetConst(s[l], x).Some? {
      ConstIsValue(s[l], env, x);
    }
  }

  // ------------------------------------------------------------- fatal visits

  /** Going on from here is an error, however deep calls may go. */
  ghost predicate Fatal(g: Graph, rank: Rank, visit: Visit)
    requires Ranked(g, rank)
  {
    visit.0 in g && g[visit.0].Kargs? && forall n: nat :: RunTerm(n, g, rank, visit.0, visit.1) == Stuck
  }

  ghost predicate SomeFatal(g: Graph, rank: Rank, visits: set<Visit>)
    requires Ranked(g, rank)
  {
    exists visit :: visit in visits && Fatal(g, rank, visit)
  }

  /** A run that comes by such a place is an error. */
  lemma {:induction false} FatalRun(fuel: nat, g: Graph, rank: Rank, k: Label, env: GEnv, vals: seq<GValue>)
    requires Ranked(g, rank) && k in g && SomeFatal(g, rank, Visits(fuel, g, rank, k, env, vals))
    ensures Run(fuel, g, rank, k, env, vals) == Stuck
    decreases fuel, rank(k), 1
  {
    match g[k]
    case Kreceive(req, rest, next) =>
      assert next in Succs(g[k]);
      FatalRun(fuel, g, rank, next, env, Received(|req|, rest.Some?, vals));
    case Kargs(vars, _) => FatalTerm(fuel, g, rank, k, Bind(env, vars, vals));
  }

  lemma {:induction false} FatalTerm(fuel: nat, g: Graph, rank: Rank, k: Label, env: GEnv)
    requires Ranked(g, rank) && k in g && g[k].Kargs? && SomeFatal(g, rank, VisitsTerm(fuel, g, rank, k, env))
    ensures RunTerm(fuel, g, rank, k, env) == Stuck
    decreases fuel, rank(k), 0
  {
    if !Fatal(g, rank, (k, env)) {
      hide Fatal, ApplyPrim;
      match g[k].term
      case Branch(x, kt, kf) =>
        assert kt in Succs(g[k]) && kf in Succs(g[k]);
        if Lookup(env, x).Some? {
          FatalRun(fuel, g, rank, if Lookup(env, x).value == Bool(false) then kf else kt, env, []);
        }
      case Continue(next, e) =>
        assert next in Succs(g[k]) && rank(next) < rank(k);
        match e
        case EConst(v) => FatalRun(fuel, g, rank, next, env, [v]);
        case EPrim(p) => FatalRun(fuel, g, rank, next, env, [Primitive(p)]);
        case EProc(code) => FatalRun(fuel, g, rank, next, env, [Closure(code, env)]);
        case EValues(args) =>
          if LookupAll(env, args).Some? {
            FatalRun(fuel, g, rank, next, env, LookupAll(env, args).value);
          }
        case EPrimcall(p, args) =>
          if LookupAll(env, args).Some? && ApplyPrim(p, LookupAll(env, args).value).Some? {
            FatalRun(fuel, g, rank, next, env, [ApplyPrim(p, LookupAll(env, args).value).value]);
          }
        case ECall(proc, args) =>
          var f, vs := Lookup(env, proc), LookupAll(env, args);
          if f.Some? && vs.Some? {
            if SomeFatal(g, rank, VisitsApply(fuel, g, rank, f.value, vs.value)) {
              FatalApply(fuel, g, rank, f.value, vs.value);
            } else {
              FatalRun(fuel, g, rank, next, env, Apply(fuel, g, rank, f.value, vs.value).vs);
            }
          }
    }
  }

  lemma {:induction false} FatalApply(fuel: nat, g: Graph, rank: Rank, f: GValue, args: seq<GValue>)
    requires Ranked(g, rank) && SomeFatal(g, rank, VisitsApply(fuel, g, rank, f, args))
    ensures Apply(fuel, g, rank, f, args) == Stuck
    decreases fuel, 0, 0
  {
    FatalRun(fuel - 1, g, rank, g[f.code].body, f.env, Received(|g[f.code].params|, g[f.code].restParam.Some?, args));
  }
}
