/** Constant folding: primitive calls on constants become constants, branches on
    constants are decided. */
module CpsFold {
  import opened Wrappers
  import opened CpsValues
  import opened CpsLang
  import opened CpsConst
  import opened CpsReach

  /** The constants of all the arguments, if each has one. */
  function GetConsts(t: Table, xs: seq<Name>): Option<seq<GValue>> {
    if xs == [] then Some([])
    else
      var v, vs := GetConst(t, xs[0]), GetConsts(t, xs[1..]);
      if v.Some? && vs.Some? then Some([v.value] + vs.value) else None
  }

  /** The primitives folding works on; `void` is folded whatever its arguments. */
  function FoldExpr(t: Table, e: Expr): Option<GValue> {
    if !e.EPrimcall? then None
    else if e.p == PVoid then Some(Void)
    else
      var vs := GetConsts(t, e.args);
      if vs.Some? then ApplyPrim(e.p, vs.value) else None
  }

  /** A continuation with its term folded. A folded call needs no receiver; a decided
      branch passes on its own variables, which the arm does not take. */
  function FoldKont(g: Graph, t: Table, k: Label): Kont
    requires k in g && g[k].Kargs?
  {
    match g[k].term
    case Continue(next, e) =>
      (match FoldExpr(t, e)
       case Some(v) =>
         Kargs(g[k].vars, Continue(if next in g && g[next].Kreceive? then g[next].k else next, EConst(v)))
       case None => g[k])
    case Branch(x, kt, kf) =>
      match GetConst(t, x)
      case Some(c) => Kargs(g[k].vars, Continue(if c == Bool(false) then kf else kt, EValues(g[k].vars)))
      case None => g[k]
  }

  function FoldAt(g: Graph, s: VarInfo, k: Label): Kont
    requires k in g
  {
    if g[k].Kargs? && k in s then FoldKont(g, s[k], k) else g[k]
  }

  /** `h` holds folded continuations of `g` and, for each, all it leads to. */
  ghost predicate Folded(g: Graph, s: VarInfo, h: Graph) {
    && (forall k :: k in h ==> k in g && h[k] == FoldAt(g, s, k))
    && (forall k, l {:trigger Leads(h[k], l)} :: k in h && Leads(h[k], l) ==> l in h)
  }

  /** Each argument is reported constant, and these are the constants. */
  predicate Reported(t: Table, args: seq<Name>, vs: seq<GValue>) {
    |vs| == |args| && forall i :: 0 <= i < |args| ==> GetConst(t, args[i]) == Some(vs[i])
  }

  lemma {:induction false} ReportedConsts(t: Table, args: seq<Name>, vs: seq<GValue>)
    ensures Reported(t, args, vs) <==> GetConsts(t, args) == Some(vs)
    decreases args
  {
    if args != [] && vs != [] {
      ReportedConsts(t, args[1..], vs[1..]);
      assert vs == [vs[0]] + vs[1..];
      if Reported(t, args, vs) {
        assert GetConst(t, args[0]) == Some(vs[0]);
        assert forall i :: 0 <= i < |args[1..]| ==> args[1..][i] == args[i + 1] && vs[1..][i] == vs[i + 1];
      }
      if GetConsts(t, args) == Some(vs) {
        assert Reported(t, args[1..], vs[1..]);
        forall i | 0 <= i < |args|
          ensures GetConst(t, args[i]) == Some(vs[i])
        {
          if i > 0 {
            assert args[i] == args[1..][i - 1] && vs[i] == vs[1..][i - 1];
          }
        }
      }
    }
  }

  /** A constant is reported where the one record there is binds it, void excepted. */
  lemma ConstantMeans(t: Table, x: Name, c: GValue)
    ensures GetConst(t, x) == Some(c) <==> x in t && c != Void && exists path :: t[x] == [Rec(path, Some(EConst(c)))]
  {
    if GetConst(t, x) == Some(c) {
      assert t[x] == [Rec(t[x][0].path, Some(EConst(c)))];
    }
  }

  /** Where a call's value goes: past what would receive it. */
  function Past(g: Graph, next: Label): Label {
    if next in g && g[next].Kreceive? then g[next].k else next
  }

  /** What the pass makes of the continuation `k`: a branch on a constant has become a jump
      to the arm chosen, a call of a primitive on constants its value, a call of `void`
      void; everything else is as it was. */
  ghost predicate FoldedInto(g: Graph, t: Table, k: Label, kont: Kont)
    requires k in g && g[k].Kargs?
  {
    match g[k].term
    case Branch(x, kt, kf) =>
      && (forall c :: GetConst(t, x) == Some(c) ==> kont == Kargs(g[k].vars, Continue(if c == Bool(false) then kf else kt, EValues(g[k].vars))))
      && (GetConst(t, x) == None ==> kont == g[k])
    case Continue(next, EPrimcall(p, args)) =>
      && (p == PVoid ==> kont == Kargs(g[k].vars, Continue(Past(g, next), EConst(Void))))
      && (forall vs {:trigger Reported(t, args, vs)} :: p != PVoid && Reported(t, args, vs) && ApplyPrim(p, vs).Some? ==>
            kont == Kargs(g[k].vars, Continue(Past(g, next), EConst(ApplyPrim(p, vs).value))))
      && (p != PVoid && (forall vs {:trigger Reported(t, args, vs)} :: Reported(t, args, vs) ==> ApplyPrim(p, vs) == None) ==> kont == g[k])
    case _ => kont == g[k]
  }

  lemma FoldsAll(g: Graph, s: VarInfo, k: Label)
    requires k in g && g[k].Kargs? && k in s
    ensures FoldedInto(g, s[k], k, FoldAt(g, s, k))
  {
    hide ApplyPrim, GetConst;
    if g[k].term.Continue? && g[k].term.expr.EPrimcall? {
      var t, args := s[k], g[k].term.expr.args;
      forall vs
        ensures Reported(t, args, vs) <==> GetConsts(t, args) == Some(vs)
      {
        ReportedConsts(t, args, vs);
      }
      if GetConsts(t, args).Some? {
        assert Reported(t, args, GetConsts(t, args).value);
      }
    }
  }

  /** Every continuation of `h` is what the pass makes of the one it had been. */
  ghost predicate AllFolded(g: Graph, s: VarInfo, h: Graph) {
    forall k :: k in h ==> k in g && if g[k].Kargs? then k in s && FoldedInto(g, s[k], k, h[k]) else h[k] == g[k]
  }

  lemma FoldedEverywhere(g: Graph, s: VarInfo, h: Graph)
    requires Folded(g, s, h) && forall l :: l in h && l in g && g[l].Kargs? ==> l in s
    ensures AllFolded(g, s, h)
  {
    hide FoldedInto, FoldKont;
    forall k | k in h
      ensures k in g && if g[k].Kargs? then k in s && FoldedInto(g, s[k], k, h[k]) else h[k] == g[k]
    {
      if g[k].Kargs? {
        FoldsAll(g, s, k);
      }
    }
  }

  lemma FoldedRanked(g: Graph, rank: Rank, s: VarInfo, h: Graph)
    requires Ranked(g, rank) && Folded(g, s, h)
    ensures Ranked(h, rank)
  {
    forall k, l | k in h && l in Succs(h[k])
      ensures l in h && rank(l) < rank(k)
    {
      assert Leads(h[k], l);
      if g[k].Kargs? && g[k].term.Continue? {
        assert g[k].term.k in Succs(g[k]);
        assert g[g[k].term.k].Kreceive? ==> g[g[k].term.k].k in Succs(g[g[k].term.k]);
      }
      if g[k].Kargs? && g[k].term.Branch? {
        assert g[k].term.kt in Succs(g[k]) && g[k].term.kf in Succs(g[k]);
      }
    }
  }

  /** No variable on record is spelled like a primitive. */
  ghost predicate NoPrims(t: Table) {
    forall x :: Known(t, x) ==> !PrimNamed(x)
  }

  /** Arguments found constant have those values. */
  lemma {:induction false} ConstsAreValues(t: Table, env: GEnv, xs: seq<Name>)
    requires EnvOk(t, env) && NoPrims(t) && GetConsts(t, xs).Some? && LookupAll(env, xs).Some?
    ensures LookupAll(env, xs) == GetConsts(t, xs)
  {
    if xs != [] {
      assert Known(t, xs[0]);
      ConstIsValue(t, env, xs[0]);
      ConstsAreValues(t, env, xs[1..]);
    }
  }

  /** A folded expression is the value evaluating it gives, if that gives one. */
  lemma FoldedValue(t: Table, env: GEnv, e: Expr)
    requires EnvOk(t, env) && NoPrims(t) && FoldExpr(t, e).Some?
    ensures LookupAll(env, e.args).Some? && ApplyPrim(e.p, LookupAll(env, e.args).value).Some? ==>
      ApplyPrim(e.p, LookupAll(env, e.args).value) == FoldExpr(t, e)
  {
    if e.p != PVoid && LookupAll(env, e.args).Some? {
      ConstsAreValues(t, env, e.args);
    }
  }

  lemma ConstLookedUp(t: Table, env: GEnv, x: Name)
    requires EnvOk(t, env) && NoPrims(t)
    ensures GetConst(t, x).Some? && Lookup(env, x).Some? ==> Lookup(env, x) == GetConst(t, x)
  {
    assert GetConst(t, x).Some? ==> Known(t, x);
    if x in env && GetConst(t, x).Some? {
      ConstIsValue(t, env, x);
    }
  }

  // ------------------------------------------------------------ same results

  /** What folding relies on: sound information, arms that are ordinary continuations,
      and constants without closures of their own. */
  ghost predicate Foldable(g: Graph, rank: Rank, s: VarInfo, h: Graph) {
    && Ranked(g, rank) && Consistent(g, rank, s) && Folded(g, s, h)
    && (forall k :: k in s ==> NoPrims(s[k]))
    && (forall k {:trigger Tidy(g, s, h, k)} :: k in g ==> Tidy(g, s, h, k))
  }

  /** Bodies and arms are ordinary continuations; constants need nothing of the graph. */
  ghost predicate Tidy(g: Graph, s: VarInfo, h: Graph, k: Label)
    requires k in g
  {
    match g[k]
    case Kproc(_, _, _, body) => body in g && g[body].Kargs?
    case Kargs(_, Branch(_, kt, kf)) => kt in g && g[kt].Kargs? && kf in g && g[kf].Kargs?
    case Kargs(_, Continue(_, EConst(v))) => ValueOk(g, s, h.Keys, v)
    case _ => true
  }

  /** Folding does not look at what follows: an arm that takes variables, or a receiver
      that does not take one value, would stop the original. */
  predicate Misfit(g: Graph, t: Table, k: Label)
    requires k in g && g[k].Kargs?
  {
    match g[k].term
    case Branch(x, kt, kf) =>
      GetConst(t, x).Some? &&
      var arm := if GetConst(t, x).value == Bool(false) then kf else kt;
      arm in g && g[arm].Kargs? && g[arm].vars != []
    case Continue(next, e) =>
      FoldExpr(t, e).Some? && next in g && g[next].Kreceive? && !ArityOk(|g[next].req|, g[next].rest.Some?, 1)
  }

  /** At this visit folding supplies what the original has not: the primitive rejects its
      arguments, a variable read is not bound, or what follows does not fit. */
  ghost predicate Loose(g: Graph, s: VarInfo, visit: Visit) {
    var (k, env) := visit;
    k in g && g[k].Kargs? && k in s &&
    (Misfit(g, s[k], k) ||
     match g[k].term
     case Branch(x, _, _) => GetConst(s[k], x).Some? && Lookup(env, x).None?
     case Continue(_, e) =>
       FoldExpr(s[k], e).Some? && (LookupAll(env, e.args).None? || ApplyPrim(e.p, LookupAll(env, e.args).value).None?))
  }

  ghost predicate Firm(g: Graph, s: VarInfo, visits: set<Visit>) {
    forall visit :: visit in visits ==> !Loose(g, s, visit)
  }

  /** The folded graph ends as the original does, errors included, unless the run comes
      by a place where folding supplies a value; the original then is stuck. */
  ghost predicate Keeps(g: Graph, s: VarInfo, h: Graph, visits: set<Visit>, a: Outcome, b: Outcome) {
    if Firm(g, s, visits) then b == a && (a.Done? ==> AllOk(g, s, h.Keys, a.vs)) else a == Stuck
  }

  /** A state in which control stands at `k` with its variables bound. */
  ghost predicate At(g: Graph, s: VarInfo, h: Graph, k: Label, env: GEnv) {
    k in h && k in g && g[k].Kargs? && k in s && EnvOk(s[k], env) && EnvValues(g, s, h.Keys, env)
    && (g[k].term.Branch? ==> forall x :: x in g[k].vars ==> x in env)
  }

  lemma {:induction false} FoldRun(fuel: nat, g: Graph, rank: Rank, s: VarInfo, h: Graph, k: Label, env: GEnv,
                                   vals: seq<GValue>, t: Table, e: Expr)
    requires Foldable(g, rank, s, h) && Ranked(h, rank) && k in h && k in g
    requires Arrives(g, rank, s, t, Some(e), k) && EnvOk(t, env) && (e.EConst? ==> vals == [e.v])
    requires EnvValues(g, s, h.Keys, env) && AllOk(g, s, h.Keys, vals)
    ensures Keeps(g, s, h, Visits(fuel, g, rank, k, env, vals), Run(fuel, g, rank, k, env, vals), Run(fuel, h, rank, k, env, vals))
    decreases fuel, rank(k), 3
  {
    hide EnvOk, EnvValues, AllOk, ValueOk, Covers, Records, Consistent;
    match g[k]
    case Kreceive(req, rest, next) =>
      assert next in Succs(g[k]) && Leads(h[k], next);
      if ArityOk(|req|, rest.Some?, |vals|) {
        assert Received(|req|, rest.Some?, vals) == vals;
        FoldRun(fuel, g, rank, s, h, next, env, vals, t, e);
      }
    case Kargs(vars, _) =>
      FoldedVars(g, s, k);
      if |vars| <= |vals| {
        var env' := Bind(env, vars, vals);
        EnvArrives(t, env, vars, vals, e, s[k]);
        BoundValues(g, s, h.Keys, env, vars, vals);
        VarsBound(env, vars, vals);
        FoldTerm(fuel, g, rank, s, h, k, env');
      }
    case _ =>
  }

  lemma FoldedVars(g: Graph, s: VarInfo, k: Label)
    requires k in g && g[k].Kargs?
    ensures FoldAt(g, s, k).Kargs? && FoldAt(g, s, k).vars == g[k].vars
  {
  }

  lemma VarsBound(env: GEnv, vars: seq<Name>, vals: seq<GValue>)
    requires |vars| <= |vals|
    ensures forall x :: x in vars ==> x in Bind(env, vars, vals)
  {
    forall x | x in vars
      ensures x in Bind(env, vars, vals)
    {
      BindAt(env, vars, vals, x);
    }
  }

  lemma {:induction false} FoldTerm(fuel: nat, g: Graph, rank: Rank, s: VarInfo, h: Graph, k: Label, env: GEnv)
    requires Foldable(g, rank, s, h) && Ranked(h, rank) && At(g, s, h, k, env)
    ensures h[k].Kargs? && Keeps(g, s, h, VisitsTerm(fuel, g, rank, k, env), RunTerm(fuel, g, rank, k, env), RunTerm(fuel, h, rank, k, env))
    decreases fuel, rank(k), 2
  {
    FoldedVars(g, s, k);
    assert Flows(g, rank, s, k);
    match g[k].term
    case Branch(x, kt, kf) =>
      FoldBranch(fuel, g, rank, s, h, k, env);
    case Continue(next, e) =>
      if FoldExpr(s[k], e).Some? {
        FoldPrimcall(fuel, g, rank, s, h, k, env);
      } else {
        FoldPlain(fuel, g, rank, s, h, k, env);
      }
  }

  /** An arm takes no variables; values passed to it are dropped. */
  lemma {:induction false} FoldArm(fuel: nat, g: Graph, rank: Rank, s: VarInfo, h: Graph, k: Label, arm: Label, env: GEnv,
                                   vals: seq<GValue>)
    requires Foldable(g, rank, s, h) && Ranked(h, rank) && At(g, s, h, k, env)
    requires arm in g && g[arm].Kargs? && arm in h && Arrives(g, rank, s, s[k], None, arm) && rank(arm) < rank(k)
    requires g[arm].vars == [] || vals == []
    ensures Keeps(g, s, h, Visits(fuel, g, rank, arm, env, []), Run(fuel, g, rank, arm, env, []), Run(fuel, h, rank, arm, env, vals))
    decreases fuel, rank(arm), 3
  {
    hide Consistent;
    FoldedVars(g, s, arm);
    if g[arm].vars == [] {
      EnvCovered(s[k], env, s[arm]);
      FoldTerm(fuel, g, rank, s, h, arm, env);
    }
  }

  lemma ArmsArrive(g: Graph, rank: Rank, s: VarInfo, h: Graph, k: Label, env: GEnv, arm: Label)
    requires Foldable(g, rank, s, h) && At(g, s, h, k, env) && g[k].term.Branch?
    requires arm == g[k].term.kt || arm == g[k].term.kf
    ensures arm in g && g[arm].Kargs? && Arrives(g, rank, s, s[k], None, arm) && rank(arm) < rank(k)
    ensures NoPrims(s[k]) && EnvOk(s[k], env) && (Leads(h[k], arm) ==> arm in h)
  {
    assert Flows(g, rank, s, k) && Tidy(g, s, h, k);
    assert arm in Succs(g[k]);
  }

  lemma FoldedBranch(g: Graph, s: VarInfo, h: Graph, k: Label, env: GEnv)
    requires At(g, s, h, k, env) && Folded(g, s, h) && g[k].term.Branch?
    ensures h[k].Kargs? && h[k].vars == g[k].vars
    ensures var x, kt, kf := g[k].term.arg, g[k].term.kt, g[k].term.kf;
      match GetConst(s[k], x)
      case Some(c) => h[k].term == Continue(if c == Bool(false) then kf else kt, EValues(g[k].vars))
      case None => h[k].term == g[k].term
  {
  }

  lemma {:induction false} FoldBranch(fuel: nat, g: Graph, rank: Rank, s: VarInfo, h: Graph, k: Label, env: GEnv)
    requires Foldable(g, rank, s, h) && Ranked(h, rank) && At(g, s, h, k, env) && g[k].term.Branch?
    ensures h[k].Kargs? && Keeps(g, s, h, VisitsTerm(fuel, g, rank, k, env), RunTerm(fuel, g, rank, k, env), RunTerm(fuel, h, rank, k, env))
    decreases fuel, rank(k), 1
  {
    hide Foldable, EnvOk, NoPrims, GetConst, Lookup, Arrives, Keeps;
    FoldableParts(g, rank, s, h);
    FoldedBranch(g, s, h, k, env);
    var x, kt, kf := g[k].term.arg, g[k].term.kt, g[k].term.kf;
    ArmsArrive(g, rank, s, h, k, env, kt);
    ConstLookedUp(s[k], env, x);
    var v := Lookup(env, x);
    if v.Some? {
      var arm := if v.value == Bool(false) then kf else kt;
      ArmsArrive(g, rank, s, h, k, env, arm);
      assert Leads(h[k], arm);
      if GetConst(s[k], x).Some? && g[arm].vars != [] {
        NoFit(fuel, g, rank, s, h, k, env);
      } else if GetConst(s[k], x).Some? {
        AllBound(env, g[k].vars);
        FoldArm(fuel, g, rank, s, h, k, arm, env, LookupAll(env, g[k].vars).value);
        KeepsFrom(g, s, h, (k, env), Visits(fuel, g, rank, arm, env, []), Run(fuel, g, rank, arm, env, []),
                  Run(fuel, h, rank, arm, env, LookupAll(env, g[k].vars).value));
      } else {
        FoldArm(fuel, g, rank, s, h, k, arm, env, []);
        KeepsFrom(g, s, h, (k, env), Visits(fuel, g, rank, arm, env, []), Run(fuel, g, rank, arm, env, []),
                  Run(fuel, h, rank, arm, env, []));
      }
    } else {
      NoValue(fuel, g, rank, s, h, k, env);
    }
  }

  /** Going on from a place where nothing is supplied. */
  lemma KeepsFrom(g: Graph, s: VarInfo, h: Graph, visit: Visit, visits: set<Visit>, a: Outcome, b: Outcome)
    requires Keeps(g, s, h, visits, a, b) && !Loose(g, s, visit)
    ensures Keeps(g, s, h, {visit} + visits, a, b)
  {
  }

  lemma NoFit(fuel: nat, g: Graph, rank: Rank, s: VarInfo, h: Graph, k: Label, env: GEnv)
    requires Foldable(g, rank, s, h) && Ranked(h, rank) && At(g, s, h, k, env) && h[k].Kargs?
    requires g[k].term.Branch? && Lookup(env, g[k].term.arg).Some? && GetConst(s[k], g[k].term.arg) == Lookup(env, g[k].term.arg)
    requires var arm := if Lookup(env, g[k].term.arg).value == Bool(false) then g[k].term.kf else g[k].term.kt;
      arm in g && g[arm].Kargs? && g[arm].vars != []
    ensures Keeps(g, s, h, VisitsTerm(fuel, g, rank, k, env), RunTerm(fuel, g, rank, k, env), RunTerm(fuel, h, rank, k, env))
  {
    assert Loose(g, s, (k, env));
  }

  lemma FoldableParts(g: Graph, rank: Rank, s: VarInfo, h: Graph)
    requires Foldable(g, rank, s, h)
    ensures Ranked(g, rank) && Folded(g, s, h)
  {
  }

  lemma NoValue(fuel: nat, g: Graph, rank: Rank, s: VarInfo, h: Graph, k: Label, env: GEnv)
    requires Foldable(g, rank, s, h) && Ranked(h, rank) && At(g, s, h, k, env) && h[k].Kargs?
    requires g[k].term.Branch? && Lookup(env, g[k].term.arg).None? && h[k] == FoldAt(g, s, k)
    ensures Keeps(g, s, h, VisitsTerm(fuel, g, rank, k, env), RunTerm(fuel, g, rank, k, env), RunTerm(fuel, h, rank, k, env))
  {
  }

  lemma {:induction false} AllBound(env: GEnv, xs: seq<Name>)
    requires forall x :: x in xs ==> x in env
    ensures LookupAll(env, xs).Some?
  {
    if xs != [] {
      AllBound(env, xs[1..]);
    }
  }

  lemma {:induction false} FoldPrimcall(fuel: nat, g: Graph, rank: Rank, s: VarInfo, h: Graph, k: Label, env: GEnv)
    requires Foldable(g, rank, s, h) && Ranked(h, rank) && At(g, s, h, k, env)
    requires g[k].term.Continue? && FoldExpr(s[k], g[k].term.expr).Some?
    ensures h[k].Kargs? && Keeps(g, s, h, VisitsTerm(fuel, g, rank, k, env), RunTerm(fuel, g, rank, k, env), RunTerm(fuel, h, rank, k, env))
    decreases fuel, rank(k), 1
  {
    var next, e := g[k].term.k, g[k].term.expr;
    assert Flows(g, rank, s, k) && next in Succs(g[k]);
    FoldedValue(s[k], env, e);
    hide EnvOk, Covers, Records, Consistent, ApplyPrim;
    var args := LookupAll(env, e.args);
    if args.Some? && ApplyPrim(e.p, args.value).Some? {
      var v := FoldExpr(s[k], e).value;
      LookedUp(g, s, h.Keys, env, e.args);
      PrimOk(g, s, h.Keys, e.p, args.value);
      hide EnvValues, ValueOk;
      var to := if g[next].Kreceive? then g[next].k else next;
      assert h[k] == Kargs(g[k].vars, Continue(to, EConst(v)));
      assert Leads(h[k], to);
      if g[next].Kreceive? {
        assert to in Succs(g[next]);
        if ArityOk(|g[next].req|, g[next].rest.Some?, 1) {
          assert Received(|g[next].req|, g[next].rest.Some?, [v]) == [v];
          FoldRun(fuel, g, rank, s, h, to, env, [v], s[k], e);
        }
      } else {
        FoldRun(fuel, g, rank, s, h, to, env, [v], s[k], e);
      }
    }
  }

  /** Terms that stay as they are. */
  lemma {:induction false} FoldPlain(fuel: nat, g: Graph, rank: Rank, s: VarInfo, h: Graph, k: Label, env: GEnv)
    requires Foldable(g, rank, s, h) && Ranked(h, rank) && At(g, s, h, k, env)
    requires g[k].term.Continue? && FoldExpr(s[k], g[k].term.expr).None?
    ensures h[k].Kargs? && Keeps(g, s, h, VisitsTerm(fuel, g, rank, k, env), RunTerm(fuel, g, rank, k, env), RunTerm(fuel, h, rank, k, env))
    decreases fuel, rank(k), 1
  {
    var next, e := g[k].term.k, g[k].term.expr;
    assert Flows(g, rank, s, k) && next in Succs(g[k]) && rank(next) < rank(k);
    assert h[k] == g[k] && Leads(h[k], next);
    hide EnvOk, Covers, Records, Consistent, ApplyPrim, GetConsts, Misfit, FoldExpr;
    assert Tidy(g, s, h, k);
    match e
    case EConst(v) => FoldRun(fuel, g, rank, s, h, next, env, [v], s[k], e);
    case EPrim(p) => FoldRun(fuel, g, rank, s, h, next, env, [Primitive(p)], s[k], e);
    case EProc(code) =>
      assert Leads(h[k], code);
      assert ValueOk(g, s, h.Keys, Closure(code, env));
      FoldRun(fuel, g, rank, s, h, next, env, [Closure(code, env)], s[k], e);
    case EValues(args) =>
      if LookupAll(env, args).Some? {
        LookedUp(g, s, h.Keys, env, args);
        FoldRun(fuel, g, rank, s, h, next, env, LookupAll(env, args).value, s[k], e);
      }
    case EPrimcall(p, args) =>
      if LookupAll(env, args).Some? && ApplyPrim(p, LookupAll(env, args).value).Some? {
        LookedUp(g, s, h.Keys, env, args);
        PrimOk(g, s, h.Keys, p, LookupAll(env, args).value);
        FoldRun(fuel, g, rank, s, h, next, env, [ApplyPrim(p, LookupAll(env, args).value).value], s[k], e);
      }
    case ECall(proc, args) =>
      FoldCall(fuel, g, rank, s, h, k, env);
  }

  lemma {:induction false} FoldCall(fuel: nat, g: Graph, rank: Rank, s: VarInfo, h: Graph, k: Label, env: GEnv)
    requires Foldable(g, rank, s, h) && Ranked(h, rank) && At(g, s, h, k, env)
    requires g[k].term.Continue? && g[k].term.expr.ECall?
    ensures h[k].Kargs? && Keeps(g, s, h, VisitsTerm(fuel, g, rank, k, env), RunTerm(fuel, g, rank, k, env), RunTerm(fuel, h, rank, k, env))
    decreases fuel, rank(k), 0
  {
    var next, e := g[k].term.k, g[k].term.expr;
    assert Flows(g, rank, s, k) && next in Succs(g[k]) && rank(next) < rank(k);
    assert h[k] == g[k] && Leads(h[k], next);
    hide EnvOk, Covers, Records, Consistent, ApplyPrim, GetConsts;
    var f, vs := Lookup(env, e.proc), LookupAll(env, e.args);
    if f.Some? && vs.Some? {
      LookedUp(g, s, h.Keys, env, e.args);
      FoldApply(fuel, g, rank, s, h, f.value, vs.value);
      var r := Apply(fuel, g, rank, f.value, vs.value);
      if r.Done? {
        FoldRun(fuel, g, rank, s, h, next, env, r.vs, s[k], e);
      }
    }
  }

  lemma {:induction false} FoldApply(fuel: nat, g: Graph, rank: Rank, s: VarInfo, h: Graph, f: GValue, args: seq<GValue>)
    requires Foldable(g, rank, s, h) && Ranked(h, rank) && ValueOk(g, s, h.Keys, f) && AllOk(g, s, h.Keys, args)
    ensures Keeps(g, s, h, VisitsApply(fuel, g, rank, f, args), Apply(fuel, g, rank, f, args), Apply(fuel, h, rank, f, args))
    decreases fuel, 0, 1
  {
    hide Consistent, Covers, Records, EnvOk, AllOk, NoPrims;
    assert f.Primitive? && ApplyPrim(f.op, args).Some? ==> AllOk(g, s, h.Keys, [ApplyPrim(f.op, args).value]) by {
      if f.Primitive? && ApplyPrim(f.op, args).Some? {
        OneOk(g, s, h.Keys, f.op, args);
      }
    }
    hide ApplyPrim, Received;
    match f
    case Closure(code, cenv) =>
      CodeIn(g, rank, s, h, code, cenv);
      if code in g && g[code].Kproc? && fuel > 0 && ArityOk(|g[code].params|, g[code].restParam.Some?, |args|) {
        FoldEnter(fuel, g, rank, s, h, code, cenv, args);
      }
    case _ =>
  }

  lemma CodeIn(g: Graph, rank: Rank, s: VarInfo, h: Graph, code: Label, cenv: GEnv)
    requires Foldable(g, rank, s, h) && ValueOk(g, s, h.Keys, Closure(code, cenv))
    ensures code in h ==> code in g
    ensures code in g ==> code in h && (h[code].Kproc? <==> g[code].Kproc?)
    ensures code in g && g[code].Kproc? ==> h[code] == g[code] && g[code].body in g && g[code].body in h
  {
    if code in g {
      assert Tidy(g, s, h, code);
      assert h[code] == FoldAt(g, s, code);
      if g[code].Kproc? {
        assert Leads(h[code], g[code].body);
      }
    }
  }

  lemma {:induction false} FoldEnter(fuel: nat, g: Graph, rank: Rank, s: VarInfo, h: Graph, code: Label, cenv: GEnv, args: seq<GValue>)
    requires Foldable(g, rank, s, h) && Ranked(h, rank) && ValueOk(g, s, h.Keys, Closure(code, cenv)) && AllOk(g, s, h.Keys, args)
    requires code in g && g[code].Kproc? && g[code].body in g && ArityOk(|g[code].params|, g[code].restParam.Some?, |args|) && fuel > 0
    ensures code in h && h[code] == g[code] && g[code].body in h
    ensures var got := Received(|g[code].params|, g[code].restParam.Some?, args);
      Keeps(g, s, h, Visits(fuel - 1, g, rank, g[code].body, cenv, got),
            Run(fuel - 1, g, rank, g[code].body, cenv, got), Run(fuel - 1, h, rank, g[code].body, cenv, got))
    decreases fuel, 0, 0
  {
    hide Consistent, Covers, Records, EnvOk, AllOk;
    var body := g[code].body;
    assert Tidy(g, s, h, code);
    assert h[code] == FoldAt(g, s, code) && Leads(h[code], body);
    FoldedVars(g, s, body);
    var got := Received(|g[code].params|, g[code].restParam.Some?, args);
    ReceivedOk(g, s, h.Keys, |g[code].params|, g[code].restParam.Some?, args);
    var vars := g[body].vars;
    if |vars| <= |got| {
      var t :| EnvOk(t, cenv) && Enters(g, s, t, code);
      var names := g[code].params + (if g[code].restParam.Some? then [g[code].restParam.value] else []);
      EnvEnters(t, cenv, names, vars, got, s[body]);
      BoundValues(g, s, h.Keys, cenv, vars, got);
      VarsBound(cenv, vars, got);
      FoldTerm(fuel - 1, g, rank, s, h, body, Bind(cenv, vars, got));
    }
  }
}
