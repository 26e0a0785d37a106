/** The tail-call rewrite: a call whose receiver does nothing but pass its one
    value on to the procedure's tail is made to call straight to the tail. */
module CpsTailCall {
  import opened Wrappers
  import opened CpsValues
  import opened CpsLang

  /** The tail a call at `k` can be redirected to. */
  function TailTarget(g: Graph, k: Label): Option<Label> {
    if k in g && g[k].Kargs? && g[k].term.Continue? && g[k].term.expr.ECall? && g[k].term.k in g then
      var receive := g[g[k].term.k];
      if receive.Kreceive? && |receive.req| == 1 && receive.rest.None? && receive.k in g then
        var after := g[receive.k];
        if after.Kargs? && after.term.Continue? && after.term.expr.EValues? && after.term.k in g
           && g[after.term.k].Ktail? && after.vars == after.term.expr.args
        then Some(after.term.k)
        else None
      else None
    else None
  }

  /** The call at `k` is received by what takes one value and passes it on, unchanged, to a
      tail. */
  predicate PassedOn(g: Graph, k: Label) {
    && k in g && g[k].Kargs? && g[k].term.Continue? && g[k].term.expr.ECall?
    && g[k].term.k in g && g[g[k].term.k].Kreceive? && |g[g[k].term.k].req| == 1 && g[g[k].term.k].rest == None
    && var after := g[g[k].term.k].k;
       && after in g && g[after].Kargs? && g[after].term.Continue? && g[after].term.expr == EValues(g[after].vars)
       && g[after].term.k in g && g[g[after].term.k] == Ktail
  }

  /** Where it is passed on to. */
  function PassedTo(g: Graph, k: Label): Label
    requires PassedOn(g, k)
  {
    g[g[g[k].term.k].k].term.k
  }

  /** These calls, and no others, can be made to call straight to the tail. */
  lemma TargetMeans(g: Graph, k: Label)
    ensures TailTarget(g, k) == if PassedOn(g, k) then Some(PassedTo(g, k)) else None
  {
  }

  /** The variables through which the receiver's continuation passes the value. */
  function PassedVars(g: Graph, k: Label): seq<Name>
    requires TailTarget(g, k).Some?
  {
    g[g[g[k].term.k].k].vars
  }

  function Redirect(g: Graph, k: Label): Graph {
    match TailTarget(g, k)
    case None => g
    case Some(tail) => g[k := Kargs(g[k].vars, Continue(tail, g[k].term.expr))]
  }

  lemma RedirectRanked(g: Graph, rank: Rank, k: Label)
    requires Ranked(g, rank)
    ensures Ranked(Redirect(g, k), rank)
  {
    var h := Redirect(g, k);
    if TailTarget(g, k).Some? {
      var receive := g[k].term.k;
      var after := g[receive].k;
      assert receive in Succs(g[k]) && after in Succs(g[receive]) && g[after].term.k in Succs(g[after]);
      forall l, s | l in h && s in Succs(h[l])
        ensures s in h && rank(s) < rank(l)
      {
        assert l != k ==> s in Succs(g[l]);
      }
    }
  }

  /** The receiver and the continuation after it pass a call's value on to the
      tail exactly when they do so through one variable. */
  lemma PassOnExactly(fuel: nat, g: Graph, rank: Rank, k: Label, env: GEnv, v: GValue)
    requires Ranked(g, rank) && TailTarget(g, k).Some?
    ensures Run(fuel, g, rank, g[k].term.k, env, [v]) == Done([v]) <==> |PassedVars(g, k)| == 1
  {
    var receive := g[k].term.k;
    var after := g[receive].k;
    assert Received(1, false, [v]) == [v];
    if |PassedVars(g, k)| == 1 {
      PassOn(fuel, g, rank, k, env, v);
    } else if PassedVars(g, k) == [] {
      assert Bind(env, [], [v]) == env;
      assert Run(fuel, g, rank, g[after].term.k, env, []) == Done([]);
      assert RunTerm(fuel, g, rank, after, env) == Done([]);
      assert Run(fuel, g, rank, receive, env, [v]) == Run(fuel, g, rank, after, env, [v]);
    }
  }

  /** What the receiver and the continuation after it do with a call's values. */
  lemma PassOn(fuel: nat, g: Graph, rank: Rank, k: Label, env: GEnv, v: GValue)
    requires Ranked(g, rank) && TailTarget(g, k).Some? && |PassedVars(g, k)| == 1
    ensures Run(fuel, g, rank, g[k].term.k, env, [v]) == Done([v])
  {
    var receive := g[k].term.k;
    var after := g[receive].k;
    var x := g[after].vars[0];
    assert g[after].vars == [x];
    var env1 := env[x := v];
    assert Bind(env, [x], [v]) == env1 by {
      assert [x][1..] == [] && [v][1..] == [];
      assert Bind(env1, [x][1..], [v][1..]) == env1;
    }
    assert LookupAll(env1, [x]) == Some([v]) by {
      assert LookupAll(env1, [x][1..]) == Some([]);
      assert [v] + [] == [v];
    }
    var tail := g[after].term.k;
    assert Run(fuel, g, rank, tail, env1, [v]) == Done([v]);
    assert RunTerm(fuel, g, rank, after, env1) == Run(fuel, g, rank, tail, env1, [v]);
    assert Run(fuel, g, rank, after, env, [v]) == RunTerm(fuel, g, rank, after, env1);
    assert Received(1, false, [v]) == [v];
    assert Run(fuel, g, rank, receive, env, [v]) == Run(fuel, g, rank, after, env, [v]);
  }

  /** Every tail of the graph is reached with one value at a time. */
  ghost predicate OneValued(g: Graph) {
    && (forall k {:trigger ReturnsOne(g, k)} :: k in g ==> ReturnsOne(g, k))
  }

  ghost predicate ReturnsOne(g: Graph, k: Label)
    requires k in g
  {
    match g[k]
    case Kargs(_, Continue(next, EValues(args))) => next in g && g[next].Ktail? ==> |args| == 1
    case Kargs(_, Branch(_, kt, kf)) => (kt in g ==> !g[kt].Ktail?) && (kf in g ==> !g[kf].Ktail?)
    case Kreceive(req, rest, next) => next in g && g[next].Ktail? ==> |req| + (if rest.Some? then 1 else 0) == 1
    case Kproc(_, _, _, body) => body in g ==> !g[body].Ktail?
    case _ => true
  }

  /** Where every tail is reached with one value, every call that can be redirected has its
      value passed on through one variable. */
  lemma PassesOne(g: Graph, k: Label)
    requires OneValued(g) && TailTarget(g, k).Some?
    ensures |PassedVars(g, k)| == 1
  {
    assert ReturnsOne(g, g[g[k].term.k].k);
  }

  ghost predicate IsOne(o: Outcome) {
    o.Done? ==> |o.vs| == 1
  }

  lemma {:induction false} OneValue(fuel: nat, g: Graph, rank: Rank, k: Label, env: GEnv, vals: seq<GValue>)
    requires Ranked(g, rank) && OneValued(g) && k in g && (g[k].Ktail? ==> |vals| == 1)
    ensures IsOne(Run(fuel, g, rank, k, env, vals))
    decreases fuel, rank(k), 1
  {
    assert ReturnsOne(g, k);
    match g[k]
    case Kreceive(req, rest, next) =>
      assert next in Succs(g[k]);
      if ArityOk(|req|, rest.Some?, |vals|) {
        OneValue(fuel, g, rank, next, env, Received(|req|, rest.Some?, vals));
      }
    case Kargs(vars, _) =>
      if |vars| <= |vals| {
        OneValueTerm(fuel, g, rank, k, Bind(env, vars, vals));
      }
    case _ =>
  }

  lemma {:induction false} OneValueTerm(fuel: nat, g: Graph, rank: Rank, k: Label, env: GEnv)
    requires Ranked(g, rank) && OneValued(g) && k in g && g[k].Kargs?
    ensures IsOne(RunTerm(fuel, g, rank, k, env))
    decreases fuel, rank(k), 0
  {
    assert ReturnsOne(g, k);
    match g[k].term
    case Branch(arg, kt, kf) =>
      assert kt in Succs(g[k]) && kf in Succs(g[k]);
      OneValue(fuel, g, rank, kt, env, []);
      OneValue(fuel, g, rank, kf, env, []);
    case Continue(next, expr) =>
      assert next in Succs(g[k]) && rank(next) < rank(k);
      match expr
      case EConst(v) => OneValue(fuel, g, rank, next, env, [v]);
      case EPrim(p) => OneValue(fuel, g, rank, next, env, [Primitive(p)]);
      case EProc(code) => OneValue(fuel, g, rank, next, env, [Closure(code, env)]);
      case EValues(args) =>
        var vs := LookupAll(env, args);
        if vs.Some? {
          OneValue(fuel, g, rank, next, env, vs.value);
        }
      case EPrimcall(p, args) =>
        var vs := LookupAll(env, args);
        if vs.Some? && ApplyPrim(p, vs.value).Some? {
          OneValue(fuel, g, rank, next, env, [ApplyPrim(p, vs.value).value]);
        }
      case ECall(proc, args) =>
        var f, vs := Lookup(env, proc), LookupAll(env, args);
        if f.Some? && vs.Some? {
          OneValueApply(fuel, g, rank, f.value, vs.value);
          var r := Apply(fuel, g, rank, f.value, vs.value);
          if r.Done? {
            OneValue(fuel, g, rank, next, env, r.vs);
          }
        }
  }

  lemma {:induction false} OneValueApply(fuel: nat, g: Graph, rank: Rank, f: GValue, args: seq<GValue>)
    requires Ranked(g, rank) && OneValued(g)
    ensures IsOne(Apply(fuel, g, rank, f, args))
    decreases fuel, 0, 0
  {
    if f.Closure? && f.code in g && g[f.code].Kproc? && g[f.code].body in g && fuel > 0 {
      var kp := g[f.code];
      assert ReturnsOne(g, f.code);
      if ArityOk(|kp.params|, kp.restParam.Some?, |args|) {
        OneValue(fuel - 1, g, rank, kp.body, f.env, Received(|kp.params|, kp.restParam.Some?, args));
      }
    }
  }

  lemma RedirectOneValued(g: Graph, at: Label)
    requires OneValued(g)
    ensures OneValued(Redirect(g, at))
  {
    var h := Redirect(g, at);
    forall k | k in h
      ensures ReturnsOne(h, k)
    {
      assert ReturnsOne(g, k);
    }
  }

  /** The outcomes agree; only where procedures may deliver several values can
      the rewritten graph go on where the original is stuck. */
  ghost predicate SameRun(g: Graph, a: Outcome, b: Outcome) {
    a == b || (a == Stuck && !OneValued(g))
  }

  /** No run is changed by redirecting a call whose value is passed on through one variable. */
  lemma {:induction false} RedirectSame(fuel: nat, g: Graph, rank: Rank, at: Label, k: Label, env: GEnv, vals: seq<GValue>)
    requires Ranked(g, rank) && Ranked(Redirect(g, at), rank) && k in g
    requires TailTarget(g, at).Some? ==> |PassedVars(g, at)| == 1
    ensures SameRun(g, Run(fuel, g, rank, k, env, vals), Run(fuel, Redirect(g, at), rank, k, env, vals))
    decreases fuel, rank(k), 1
  {
    var h := Redirect(g, at);
    match g[k]
    case Kreceive(req, rest, next) =>
      assert next in Succs(g[k]);
      if ArityOk(|req|, rest.Some?, |vals|) {
        RedirectSame(fuel, g, rank, at, next, env, Received(|req|, rest.Some?, vals));
      }
    case Kargs(vars, _) =>
      if |vars| <= |vals| {
        RedirectSameTerm(fuel, g, rank, at, k, Bind(env, vars, vals));
      }
    case _ =>
  }

  lemma {:induction false} RedirectSameTerm(fuel: nat, g: Graph, rank: Rank, at: Label, k: Label, env: GEnv)
    requires Ranked(g, rank) && Ranked(Redirect(g, at), rank) && k in g && g[k].Kargs?
    requires TailTarget(g, at).Some? ==> |PassedVars(g, at)| == 1
    ensures SameRun(g, RunTerm(fuel, g, rank, k, env), RunTerm(fuel, Redirect(g, at), rank, k, env))
    decreases fuel, rank(k), 0
  {
    var h := Redirect(g, at);
    match g[k].term
    case Branch(arg, kt, kf) =>
      assert kt in Succs(g[k]) && kf in Succs(g[k]);
      RedirectSame(fuel, g, rank, at, kt, env, []);
      RedirectSame(fuel, g, rank, at, kf, env, []);
    case Continue(next, expr) =>
      assert next in Succs(g[k]) && rank(next) < rank(k);
      match expr
      case EConst(v) => RedirectSame(fuel, g, rank, at, next, env, [v]);
      case EPrim(p) => RedirectSame(fuel, g, rank, at, next, env, [Primitive(p)]);
      case EProc(code) => RedirectSame(fuel, g, rank, at, next, env, [Closure(code, env)]);
      case EValues(args) =>
        var vs := LookupAll(env, args);
        if vs.Some? {
          RedirectSame(fuel, g, rank, at, next, env, vs.value);
        }
      case EPrimcall(p, args) =>
        var vs := LookupAll(env, args);
        if vs.Some? && ApplyPrim(p, vs.value).Some? {
          RedirectSame(fuel, g, rank, at, next, env, [ApplyPrim(p, vs.value).value]);
        }
      case ECall(proc, args) =>
        var f, vs := Lookup(env, proc), LookupAll(env, args);
        if f.Some? && vs.Some? {
          RedirectSameApply(fuel, g, rank, at, f.value, vs.value);
          if OneValued(g) {
            OneValueApply(fuel, g, rank, f.value, vs.value);
          }
          var r := Apply(fuel, g, rank, f.value, vs.value);
          if r.Done? {
            RedirectSame(fuel, g, rank, at, next, env, r.vs);
            if k == at && TailTarget(g, at).Some? && |r.vs| == 1 {
              assert r.vs == [r.vs[0]];
              PassOn(fuel, g, rank, k, env, r.vs[0]);
            }
          }
        }
  }

  lemma {:induction false} RedirectSameApply(fuel: nat, g: Graph, rank: Rank, at: Label, f: GValue, args: seq<GValue>)
    requires Ranked(g, rank) && Ranked(Redirect(g, at), rank)
    requires TailTarget(g, at).Some? ==> |PassedVars(g, at)| == 1
    ensures SameRun(g, Apply(fuel, g, rank, f, args), Apply(fuel, Redirect(g, at), rank, f, args))
    decreases fuel, 0, 0
  {
    var h := Redirect(g, at);
    if f.Closure? && f.code in g && g[f.code].Kproc? && g[f.code].body in g && fuel > 0 {
      var kp := g[f.code];
      if ArityOk(|kp.params|, kp.restParam.Some?, |args|) {
        RedirectSame(fuel - 1, g, rank, at, kp.body, f.env, Received(|kp.params|, kp.restParam.Some?, args));
      }
    }
  }

  /** Redirecting any calls one after the other. */
  function RedirectAll(g: Graph, ks: seq<Label>): Graph {
    if ks == [] then g else RedirectAll(Redirect(g, ks[0]), ks[1..])
  }

  /** The whole pass leaves every run of a graph of one-valued procedures as it is. */
  lemma {:induction false} RedirectAllSame(fuel: nat, g: Graph, rank: Rank, ks: seq<Label>, k: Label, env: GEnv, vals: seq<GValue>)
    requires Ranked(g, rank) && OneValued(g) && k in g
    ensures var h := RedirectAll(g, ks);
      && Ranked(h, rank) && OneValued(h) && k in h
      && Run(fuel, h, rank, k, env, vals) == Run(fuel, g, rank, k, env, vals)
    decreases ks
  {
    if ks != [] {
      if TailTarget(g, ks[0]).Some? {
        PassesOne(g, ks[0]);
      }
      RedirectRanked(g, rank, ks[0]);
      RedirectOneValued(g, ks[0]);
      RedirectSame(fuel, g, rank, ks[0], k, env, vals);
      RedirectAllSame(fuel, Redirect(g, ks[0]), rank, ks[1..], k, env, vals);
    }
  }
}
