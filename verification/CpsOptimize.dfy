/** The passes put together: what collecting, folding and tail calls make of a program. */
module CpsOptimize {
  import opened Wrappers
  import opened CpsValues
  import opened CpsLang
  import opened CpsTranslate
  import opened CpsCorrect
  import opened CpsTailCall
  import opened CpsTranslator
  import opened CpsConst
  import opened CpsCollect
  import opened CpsReach
  import opened CpsFold
  import opened CpsFolding
  import opened CpsProgram
  import opened CpsLive
  import opened CpsShape
  import opened CpsBinders
  import opened CpsImports

  // -------------------------------------------- where folding supplies a value

  /** Nothing but temporaries is recorded with an expression. */
  lemma {:induction false} LandsArrive(g: Graph, deep: Rank, k: Label, l: Label, e: Expr, ok: Records)
    requires Acyclic(g, deep) && k in g && Lands(g, k) && forall x: Name, o :: x.Temp? ==> ok(x, o)
    requires forall m :: m in Reach(g, deep, k) ==> m in g && ShapeAt(g, m, false)
    ensures ArrivalOk(g, deep, k, l, e, ok)
    decreases deep(k)
  {
    if g[k].Kreceive? {
      assert k in Reach(g, deep, k);
      OnwardReach(g, deep, k, g[k].k);
      LandsArrive(g, deep, g[k].k, l, e, ok);
    }
  }

  lemma RecordsTemps(g: Graph, f: Form, l: Label, x: Name, r: Rec)
    requires Program(g, f) && Acyclic(g, Deep(g)) && l in Info(g, Deep(g), map[], None, Entry(f, 1), [])
    requires var t := Info(g, Deep(g), map[], None, Entry(f, 1), [])[l]; x in t && r in t[x]
    ensures r.binding.Some? ==> x.Temp?
  {
    var deep, entry := Deep(g), Entry(f, 1);
    var ok: Records := (x: Name, o: Option<Expr>) => o.Some? ==> x.Temp?;
    forall m | m in Reach(g, deep, entry)
      ensures m in g && ShapeAt(g, m, false)
    {
      ProgramFormed(g, f, m);
    }
    forall b | b in Reach(g, deep, entry) && b in g && l in Reach(g, deep, b)
      ensures AllowedAt(g, deep, b, l, ok)
    {
      ReachOn(g, deep, entry, b);
      if g[b].Kargs? && g[b].term.Continue? {
        OnwardReach(g, deep, b, g[b].term.k);
        LandsArrive(g, deep, g[b].term.k, l, g[b].term.expr, ok);
        if g[b].term.expr.EProc? {
          assert Grounded(g, b);
        }
      }
    }
    InfoOk(g, deep, map[], None, entry, [], l, ok);
  }

  /** A program with what the walk has collected. */
  ghost predicate Walked(g: Graph, f: Form, s: VarInfo) {
    Program(g, f) && Acyclic(g, Deep(g)) && s == Info(g, Deep(g), map[], None, Entry(f, 1), [])
  }

  /** The program is started with variables bound from outside. */
  ghost predicate Begun(g: Graph, f: Form, s: VarInfo, env: GEnv) {
    Walked(g, f, s) && Ranked(g, BY_LABEL) && Foreign(g, Entry(f, 1), env)
  }

  lemma BegunUnknown(g: Graph, f: Form, s: VarInfo, env: GEnv)
    requires Begun(g, f, s, env)
    ensures forall l, y :: l in s && y in env.Keys ==> !Known(s[l], y)
  {
    hide Info;
    forall l, y | l in s && y in env.Keys
      ensures !Known(s[l], y)
    {
      ForeignUnknown(g, Entry(f, 1), env, l, y);
    }
  }

  /** With those variables on record as unknown the information is sound from the start. */
  lemma BegunInformed(g: Graph, f: Form, s: VarInfo, env: GEnv)
    requires Begun(g, f, s, env)
    ensures var sw := Widened(s, env.Keys);
      && Informed(g, BY_LABEL, sw) && Stands(g, sw, Entry(f, 1), env) && (forall l :: l in sw ==> NoPrims(sw[l]))
      && forall codes :: EnvValues(g, sw, codes, env)
  {
    var k, sw := Entry(f, 1), Widened(s, env.Keys);
    ProgramInformed(g, f, s);
    EntryEmpty(g, f, s);
    hide Informed, Info, Walked, Consistent, NoPrims, Acyclic, Ordinary, Widen;
    BegunFlows(g, f, s, env);
    forall l | l in s
      ensures NoPrims(Widen(s[l], env.Keys)) && (l == k ==> EnvOk(Widen(s[l], env.Keys), env))
    {
      WidenNoPrims(s[l], env);
    }
    forall v, codes | Closureless(v)
      ensures ValueOk(g, sw, codes, v)
    {
      PlainOk(g, sw, codes, v);
    }
  }

  lemma EntryEmpty(g: Graph, f: Form, s: VarInfo)
    requires Walked(g, f, s) && Entry(f, 1) in s
    ensures s[Entry(f, 1)] == map[] && Entry(f, 1) in g && g[Entry(f, 1)].Kargs?
  {
    var k, deep := Entry(f, 1), Deep(g);
    EntryContinues(g, f, 0, 1);
    InfoIs(g, deep, map[], None, k, []);
    var next, e := g[k].term.k, g[k].term.expr;
    assert Leads(g[k], next) && (e.EProc? ==> Leads(g[k], e.k));
    InfoAway(g, deep, map[], Some(e), next, [] + [k, 0], k);
    if e.EProc? {
      InfoAway(g, deep, map[], Some(e), e.k, [] + [k, 1], k);
    }
  }

  /** The walk does not come back to a label it has come from. */
  lemma InfoAway(g: Graph, deep: Rank, t: Table, e: Option<Expr>, next: Label, path: seq<nat>, k: Label)
    requires Acyclic(g, deep) && k in g && Leads(g[k], next)
    ensures next in g && k !in Info(g, deep, t, e, next, path)
  {
    OnwardReach(g, deep, k, next);
    if k in Info(g, deep, t, e, next, path) {
      InfoReach(g, deep, t, e, next, path, k);
      ReachBelow(g, deep, next, k);
      assert false;
    }
  }

  lemma BegunFlows(g: Graph, f: Form, s: VarInfo, env: GEnv)
    requires Begun(g, f, s, env)
    ensures Informed(g, BY_LABEL, Widened(s, env.Keys))
  {
    var k, sw := Entry(f, 1), Widened(s, env.Keys);
    ProgramInformed(g, f, s);
    hide Info, Flows, Acyclic, Widen, NoPrims, Untouched, Ordinary, Reach, Code, NamedAt;
    forall l | l in sw
      ensures Flows(g, BY_LABEL, sw, l)
    {
      InfoReach(g, Deep(g), map[], None, k, [], l);
      assert Flows(g, BY_LABEL, s, l);
      WidenFlows(g, BY_LABEL, s, k, l, env.Keys);
    }
    forall l | l in g
      ensures Ordinary(g, sw, l)
    {
      ClosedTidy(g, sw, g, l);
    }
  }

  lemma ConstTemp(g: Graph, f: Form, s: VarInfo, env: GEnv, l: Label, x: Name)
    requires Begun(g, f, s, env) && l in s && GetConst(Widen(s[l], env.Keys), x).Some?
    ensures x.Temp?
  {
    BegunUnknown(g, f, s, env);
    WidenConst(s[l], env.Keys, x);
    assert s[l][x][0] in s[l][x];
    RecordsTemps(g, f, l, x, s[l][x][0]);
  }

  lemma {:induction false} ConstsTemps(g: Graph, f: Form, s: VarInfo, env: GEnv, l: Label, xs: seq<Name>)
    requires Begun(g, f, s, env) && l in s && GetConsts(Widen(s[l], env.Keys), xs).Some?
    ensures AllTemps(xs)
    decreases xs
  {
    hide Begun, GetConst;
    if xs != [] {
      ConstTemp(g, f, s, env, l, xs[0]);
      ConstsTemps(g, f, s, env, l, xs[1..]);
    }
  }

  /** Wherever a program's run gets there is sound information. */
  lemma VisitSound(g: Graph, f: Form, s: VarInfo, env: GEnv, fuel: nat, visit: Visit)
    requires Begun(g, f, s, env) && visit in VisitsTerm(fuel, g, BY_LABEL, Entry(f, 1), env)
    ensures visit.0 in s && visit.0 in g && g[visit.0].Kargs? && ShapeAt(g, visit.0, false)
    ensures var sw := Widened(s, env.Keys); EnvOk(sw[visit.0], visit.1) && NoPrims(sw[visit.0]) && !Misfit(g, sw[visit.0], visit.0)
    ensures VoidFree(f) ==> !VoidArgs(g[visit.0])
  {
    var sw := Widened(s, env.Keys);
    BegunInformed(g, f, s, env);
    hide Informed, Walked, EnvOk, NoPrims, Widen, Foreign, Misfit;
    SoundTerm(fuel, g, BY_LABEL, sw, Entry(f, 1), env);
    RecordShaped(g, f, s, visit.0, sw[visit.0]);
  }

  /** Where there is information what follows fits. */
  lemma RecordShaped(g: Graph, f: Form, s: VarInfo, l: Label, t: Table)
    requires Walked(g, f, s) && l in s
    ensures l in g && g[l].Kargs? && ShapeAt(g, l, false) && !Misfit(g, t, l) && (VoidFree(f) ==> !VoidArgs(g[l]))
  {
    var entry, deep := Entry(f, 1), Deep(g);
    InfoReach(g, deep, map[], None, entry, [], l);
    InfoOrdinary(g, deep, map[], None, entry, [], l);
    ProgramFormed(g, f, l);
    hide Info, Program, GetConst, FoldExpr;
    if g[l].term.Continue? {
      ReachOn(g, deep, entry, l);
      OnwardReach(g, deep, l, g[l].term.k);
      assert g[l].term.k in Reach(g, deep, g[l].term.k);
      ProgramFormed(g, f, g[l].term.k);
    }
  }

  /** There is information on ordinary continuations only. */
  lemma {:induction false} InfoOrdinary(g: Graph, deep: Rank, t: Table, e: Option<Expr>, k: Label, path: seq<nat>, l: Label)
    requires Acyclic(g, deep) && k in g && l in Info(g, deep, t, e, k, path)
    ensures l in g && g[l].Kargs?
    decreases deep(k)
  {
    match g[k]
    case Ktail =>
    case Kreceive(_, _, next) =>
      OnwardReach(g, deep, k, next);
      InfoOrdinary(g, deep, t, e, next, path, l);
    case Kproc(_, _, _, body) =>
      OnwardReach(g, deep, k, body);
      InfoOrdinary(g, deep, Define(t, Names(g[k]), None, path + [k]), None, body, path + [k], l);
    case Kargs(vars, term) =>
      var u := Arrival(t, vars, e, path + [k]);
      if l != k {
        match term
        case Branch(_, kt, kf) =>
          OnwardReach(g, deep, k, kt);
          OnwardReach(g, deep, k, kf);
          if l in Info(g, deep, u, None, kt, path + [k, 1]) {
            InfoOrdinary(g, deep, u, None, kt, path + [k, 1], l);
          } else {
            InfoOrdinary(g, deep, u, None, kf, path + [k, 0], l);
          }
        case Continue(next, x) =>
          OnwardReach(g, deep, k, next);
          if l in Info(g, deep, u, Some(x), next, path + [k, 0]) {
            InfoOrdinary(g, deep, u, Some(x), next, path + [k, 0], l);
          } else {
            OnwardReach(g, deep, k, x.k);
            InfoOrdinary(g, deep, u, Some(x), x.k, path + [k, 1], l);
          }
      }
  }

  /** The temporaries it reads there are bound. */
  lemma VisitReads(g: Graph, f: Form, s: VarInfo, env: GEnv, fuel: nat, visit: Visit, x: Name)
    requires Begun(g, f, s, env) && visit in VisitsTerm(fuel, g, BY_LABEL, Entry(f, 1), env)
    ensures visit.0 in g && g[visit.0].Kargs? && (x in Reads(g[visit.0].term) && x.Temp? ==> x in visit.1)
  {
    var free := (y: Name) => y.User?;
    forall k | k in g
      ensures Tame(g, k)
    {
      assert Grounded(g, k);
    }
    hide Program, NeedTerm, Tame, Acyclic, Untouched;
    forall y | y in NeedTerm(g, Deep(g), Entry(f, 1))
      ensures free(y)
    {
      ProgramWants(g, f, y);
    }
    forall y | y in env
      ensures ValueHas(g, Deep(g), free, env[y])
    {
      PlainHas(g, Deep(g), free, env[y]);
    }
    ReadsBound(fuel, g, BY_LABEL, Deep(g), free, Entry(f, 1), env, visit, x);
  }

  lemma ReadsAll(g: Graph, f: Form, s: VarInfo, env: GEnv, fuel: nat, visit: Visit, xs: seq<Name>)
    requires Begun(g, f, s, env) && visit in VisitsTerm(fuel, g, BY_LABEL, Entry(f, 1), env) && visit.0 in g && g[visit.0].Kargs?
    requires AllTemps(xs) && forall x :: x in xs ==> x in Reads(g[visit.0].term)
    ensures LookupAll(visit.1, xs).Some?
  {
    hide Begun;
    BegunRanked(g, f, s, env);
    forall x | x in xs
      ensures x in visit.1
    {
      VisitReads(g, f, s, env, fuel, visit, x);
    }
    AllBound(visit.1, xs);
  }

  lemma BegunRanked(g: Graph, f: Form, s: VarInfo, env: GEnv)
    requires Begun(g, f, s, env)
    ensures Ranked(g, BY_LABEL) && Entry(f, 1) in g && g[Entry(f, 1)].Kargs?
  {
  }

  /** In a program folding supplies a value the original has not exactly where `void` is
      called with arguments. */
  lemma LooseIsVoid(g: Graph, f: Form, s: VarInfo, env: GEnv, fuel: nat, visit: Visit)
    requires Begun(g, f, s, env) && visit in VisitsTerm(fuel, g, BY_LABEL, Entry(f, 1), env)
    ensures visit.0 in g && (Loose(g, Widened(s, env.Keys), visit) <==> VoidArgs(g[visit.0]))
  {
    BegunRanked(g, f, s, env);
    hide Begun, EnvOk, NoPrims, GetConst, VisitsTerm, Misfit, Widen;
    VisitSound(g, f, s, env, fuel, visit);
    var l, t := visit.0, Widened(s, env.Keys)[visit.0];
    match g[l].term
    case Branch(x, _, _) =>
      if GetConst(t, x).Some? {
        ConstTemp(g, f, s, env, l, x);
        VisitReads(g, f, s, env, fuel, visit, x);
      }
    case Continue(_, e) =>
      if FoldExpr(t, e).Some? && e.p != PVoid {
        FoldedGiven(g, f, s, env, fuel, visit);
      }
  }

  /** A folded call of another primitive has its value unfolded too. */
  lemma FoldedGiven(g: Graph, f: Form, s: VarInfo, env: GEnv, fuel: nat, visit: Visit)
    requires Begun(g, f, s, env) && visit in VisitsTerm(fuel, g, BY_LABEL, Entry(f, 1), env)
    requires visit.0 in g && g[visit.0].Kargs? && g[visit.0].term.Continue? && visit.0 in s
    requires var e := g[visit.0].term.expr; FoldExpr(Widened(s, env.Keys)[visit.0], e).Some? && e.p != PVoid
    ensures var e := g[visit.0].term.expr;
      LookupAll(visit.1, e.args).Some? && ApplyPrim(e.p, LookupAll(visit.1, e.args).value).Some?
  {
    BegunRanked(g, f, s, env);
    hide Begun, EnvOk, NoPrims, GetConst, VisitsTerm, Misfit, Widen, ApplyPrim;
    VisitSound(g, f, s, env, fuel, visit);
    var l, args := visit.0, g[visit.0].term.expr.args;
    ConstsTemps(g, f, s, env, l, args);
    ReadsAll(g, f, s, env, fuel, visit, args);
    ConstsAreValues(Widened(s, env.Keys)[l], visit.1, args);
  }

  // ------------------------------------------------------------------- folding

  /** The run comes by a call of `void` with arguments, which is an error. */
  ghost predicate CallsVoid(fuel: nat, g: Graph, entry: Label, env: GEnv)
    requires Ranked(g, BY_LABEL) && entry in g && g[entry].Kargs?
  {
    exists visit :: visit in VisitsTerm(fuel, g, BY_LABEL, entry, env) && visit.0 in g && VoidArgs(g[visit.0])
  }

  /** `h` ends as `g` does, errors included, unless `g` stops at a call of `void`. */
  ghost predicate Exact(fuel: nat, g: Graph, h: Graph, entry: Label, env: GEnv)
    requires Ranked(g, BY_LABEL) && entry in g && g[entry].Kargs? && Ranked(h, BY_LABEL) && entry in h && h[entry].Kargs?
  {
    var a, b := RunTerm(fuel, g, BY_LABEL, entry, env), RunTerm(fuel, h, BY_LABEL, entry, env);
    && (CallsVoid(fuel, g, entry, env) ==> a == Stuck)
    && (b == a <==> !CallsVoid(fuel, g, entry, env) || b == Stuck)
  }

  /** Both end alike, errors included. */
  ghost predicate Alike(fuel: nat, g: Graph, h: Graph, entry: Label, env: GEnv)
    requires Ranked(g, BY_LABEL) && entry in g && g[entry].Kargs? && Ranked(h, BY_LABEL) && entry in h && h[entry].Kargs?
  {
    RunTerm(fuel, h, BY_LABEL, entry, env) == RunTerm(fuel, g, BY_LABEL, entry, env)
  }

  lemma ProgramFoldable(g: Graph, f: Form, s: VarInfo, env: GEnv, h: Graph)
    requires Begun(g, f, s, env) && Folded(g, s, h) && Entry(f, 1) in h
    ensures var sw := Widened(s, env.Keys); Foldable(g, BY_LABEL, sw, h) && CpsFold.At(g, sw, h, Entry(f, 1), env)
    ensures Ranked(h, BY_LABEL)
  {
    var sw := Widened(s, env.Keys);
    BegunInformed(g, f, s, env);
    BegunUnknown(g, f, s, env);
    EntryContinues(g, f, 0, 1);
    WidenFolded(g, s, h, env.Keys);
    FoldedRanked(g, BY_LABEL, s, h);
    hide Widen, NoPrims, Folded, Flows, EnvOk, Code, NamedAt, Info, Acyclic, Foreign;
    forall l | l in g
      ensures Tidy(g, sw, h, l)
    {
      ClosedTidy(g, sw, h, l);
    }
  }

  /** The folded program ends as the program does exactly when no call of `void` with
      arguments is come by, or what follows it is an error as well. */
  lemma ProgramFolded(fuel: nat, g: Graph, f: Form, s: VarInfo, env: GEnv, h: Graph)
    requires Begun(g, f, s, env) && Folded(g, s, h) && Entry(f, 1) in h
    ensures Ranked(g, BY_LABEL) && Ranked(h, BY_LABEL) && Entry(f, 1) in g && g[Entry(f, 1)].Kargs? && h[Entry(f, 1)].Kargs?
    ensures Exact(fuel, g, h, Entry(f, 1), env)
  {
    var k, sw := Entry(f, 1), Widened(s, env.Keys);
    hide Begun, Foldable, Folded;
    BegunRanked(g, f, s, env);
    ProgramFoldable(g, f, s, env, h);
    FoldTerm(fuel, g, BY_LABEL, sw, h, k, env);
    var visits := VisitsTerm(fuel, g, BY_LABEL, k, env);
    hide CpsFold.At, Loose, VoidArgs, RunTerm, VisitsTerm;
    forall visit | visit in visits
      ensures visit.0 in g && (Loose(g, sw, visit) <==> VoidArgs(g[visit.0]))
    {
      LooseIsVoid(g, f, s, env, fuel, visit);
    }
    assert Firm(g, sw, visits) <==> !CallsVoid(fuel, g, k, env);
  }

  /** A program that nowhere calls `void` with arguments does not come by such a call. */
  lemma NoVoidCalled(fuel: nat, g: Graph, f: Form, s: VarInfo, env: GEnv)
    requires Begun(g, f, s, env) && VoidFree(f)
    ensures Ranked(g, BY_LABEL) && Entry(f, 1) in g && g[Entry(f, 1)].Kargs? && !CallsVoid(fuel, g, Entry(f, 1), env)
  {
    BegunRanked(g, f, s, env);
    hide Begun;
    forall visit | visit in VisitsTerm(fuel, g, BY_LABEL, Entry(f, 1), env)
      ensures visit.0 in g && !VoidArgs(g[visit.0])
    {
      VisitSound(g, f, s, env, fuel, visit);
    }
  }

  /** From any environment of variables the program does not bind, `h` ends as `g` does up
      to calls of `void`, and exactly as `g` does if the program has no such call. */
  ghost predicate EndsKept(g: Graph, h: Graph, entry: Label, f: Form)
    requires Acyclic(g, Deep(g)) && Ranked(g, BY_LABEL) && entry in g && g[entry].Kargs?
    requires Ranked(h, BY_LABEL) && entry in h && h[entry].Kargs?
  {
    && (forall fuel: nat, env {:trigger Exact(fuel, g, h, entry, env)} :: Foreign(g, entry, env) ==> Exact(fuel, g, h, entry, env))
    && (VoidFree(f) ==>
          forall fuel: nat, env {:trigger Alike(fuel, g, h, entry, env)} :: Foreign(g, entry, env) ==> Alike(fuel, g, h, entry, env))
  }

  /** Collecting and folding a translated program. */
  method FoldProgram(g: Graph, entry: Label, ghost form: Form) returns (s: VarInfo, h: Graph)
    requires Program(g, form) && entry == Entry(form, 1)
    ensures Walked(g, form, s) && Folded(g, s, h) && entry in h && h[entry].Kargs? && Ranked(g, BY_LABEL) && Ranked(h, BY_LABEL)
    ensures AllFolded(g, s, h)
    ensures EndsKept(g, h, entry, form)
  {
    hide Program, Reach, Apart, Folded, Info, EndsKept, AllFolded, Acyclic, Ranked;
    ghost var deep := Deep(g);
    ProgramReady(g, form);
    s := CollectVarInfo(g, deep, map[], map[], None, entry, []);
    assert s == Info(g, deep, map[], None, entry, []);
    InfoEverywhere(g, deep, entry);
    h := ConstantFolding(g, deep, s, entry);
    FoldedExact(g, form, s, h);
  }

  lemma ProgramReady(g: Graph, f: Form)
    requires Program(g, f)
    ensures Entry(f, 1) in g && g[Entry(f, 1)].Kargs?
    ensures Ranked(g, BY_LABEL) && Acyclic(g, Deep(g)) && Apart(g, Deep(g), Reach(g, Deep(g), Entry(f, 1)))
  {
    ProgramWalkable(g, f);
    hide Code, Reach, Apart, Acyclic, Ranked, NamedAt;
  }

  lemma InfoEverywhere(g: Graph, deep: Rank, k: Label)
    requires Acyclic(g, deep) && k in g
    ensures forall l :: l in Reach(g, deep, k) && l in g && g[l].Kargs? ==> l in Info(g, deep, map[], None, k, [])
  {
    forall l | l in Reach(g, deep, k) && l in g && g[l].Kargs?
      ensures l in Info(g, deep, map[], None, k, [])
    {
      InfoHas(g, deep, map[], None, k, [], l);
    }
  }

  lemma FoldedExact(g: Graph, f: Form, s: VarInfo, h: Graph)
    requires Walked(g, f, s) && Folded(g, s, h) && Entry(f, 1) in h
    ensures Ranked(g, BY_LABEL) && Ranked(h, BY_LABEL) && h[Entry(f, 1)].Kargs? && g[Entry(f, 1)].Kargs?
    ensures EndsKept(g, h, Entry(f, 1), f)
  {
    assert Ranked(g, BY_LABEL) && Foreign(g, Entry(f, 1), map[]);
    ProgramFolded(0, g, f, s, map[], h);
    assert forall env :: Foreign(g, Entry(f, 1), env) ==> Begun(g, f, s, env);
    hide Walked, Folded, Ranked, Foreign, Begun, Acyclic;
    forall fuel: nat, env | Begun(g, f, s, env)
      ensures Exact(fuel, g, h, Entry(f, 1), env)
      ensures VoidFree(f) ==> Alike(fuel, g, h, Entry(f, 1), env)
    {
      ProgramFolded(fuel, g, f, s, env, h);
      if VoidFree(f) {
        NoVoidCalled(fuel, g, f, s, env);
      }
    }
  }

  /** `(void d)`. */
  function VoidCall(d: Datum): Form {
    Call(More(Var(PrimName(PVoid)), Last(Const(d))))
  }

  lemma VoidCallNumbers(g: Graph, d: Datum)
    requires Code(g, VoidCall(d), 0, 1)
    ensures Entry(VoidCall(d), 1) == 7
    ensures {3, 4, 6, 7} <= g.Keys && g[7].Kargs? && g[7].term == Continue(6, EConst(Embed(d)))
    ensures g[6] == Kargs([Temp(5)], Continue(4, EPrimcall(PVoid, [Temp(5)])))
    ensures g[4] == Kreceive([Temp(1)], None, 3) && g[3] == Kargs([Temp(1)], Continue(0, EValues([Temp(1)])))
  {
    var last := Last(Const(d));
    var elems := More(Var(PrimName(PVoid)), last);
    assert VoidCall(d) == Call(elems);
    assert EntryElems(elems, 6, 7) == EntryElems(last, 6, 7) == 7;
    assert CodeElems(g, elems, 6, 5, 7) && CodeElems(g, last, 6, 5, 7) && Code(g, Const(d), 6, 7);
    var names := ElemNames(elems, 5, 7);
    assert ElemNames(last, 5, 7) == [Temp(5)];
    assert names == [User(PrimName(PVoid)), Temp(5)];
    assert CallExpr(names) == EPrimcall(PVoid, [Temp(5)]) by {
      assert names[1..] == [Temp(5)];
    }
  }

  lemma VoidCallCode(g: Graph, d: Datum, s: VarInfo)
    requires Walked(g, VoidCall(d), s)
    ensures Entry(VoidCall(d), 1) == 7
    ensures {3, 4, 6, 7} <= g.Keys && g[7].Kargs? && g[7].term == Continue(6, EConst(Embed(d)))
    ensures g[6] == Kargs([Temp(5)], Continue(4, EPrimcall(PVoid, [Temp(5)]))) && 6 in s
    ensures g[4] == Kreceive([Temp(1)], None, 3) && g[3] == Kargs([Temp(1)], Continue(0, EValues([Temp(1)])))
  {
    VoidCallNumbers(g, d);
    hide Code, CpsTranslator.Closed;
    VoidKnown(g, s);
  }

  lemma VoidKnown(g: Graph, s: VarInfo)
    requires Acyclic(g, Deep(g)) && 7 in g && g[7].Kargs? && g[7].term.Continue? && g[7].term.k == 6 && 6 in g && g[6].Kargs?
    requires s == Info(g, Deep(g), map[], None, 7, [])
    ensures 6 in s
  {
    assert Leads(g[7], 6);
    OnwardReach(g, Deep(g), 7, 6);
    assert 6 in Reach(g, Deep(g), 6);
    InfoHas(g, Deep(g), map[], None, 7, [], 6);
  }

  /** A graph that goes on with a constant, and one that calls `void`. */
  lemma VoidRun(fuel: nat, g: Graph, h: Graph, v: GValue)
    requires Ranked(g, BY_LABEL) && Ranked(h, BY_LABEL) && {6, 7} <= g.Keys && {0, 3, 6, 7} <= h.Keys
    requires g[7].Kargs? && g[7].term == Continue(6, EConst(v)) && h[7] == g[7]
    requires g[6].Kargs? && g[6].vars == [Temp(5)] && g[6].term.Continue? && g[6].term.expr == EPrimcall(PVoid, [Temp(5)])
    requires h[6] == Kargs([Temp(5)], Continue(3, EConst(Void)))
    requires h[3] == Kargs([Temp(1)], Continue(0, EValues([Temp(1)]))) && h[0] == Ktail
    ensures RunTerm(fuel, g, BY_LABEL, 7, map[]) == Stuck && RunTerm(fuel, h, BY_LABEL, 7, map[]) == Done([Void])
  {
    var env: GEnv := map[Temp(5) := v];
    BindOne(map[], Temp(5), v);
    LookupOne(env, Temp(5));
    assert Run(fuel, g, BY_LABEL, 6, map[], [v]) == RunTerm(fuel, g, BY_LABEL, 6, env) == Stuck;
    BindOne(env, Temp(1), Void);
    var env1 := env[Temp(1) := Void];
    LookupOne(env1, Temp(1));
    assert RunTerm(fuel, h, BY_LABEL, 3, env1) == Run(fuel, h, BY_LABEL, 0, env1, [Void]) == Done([Void]);
    assert RunTerm(fuel, h, BY_LABEL, 6, env) == Run(fuel, h, BY_LABEL, 3, env, [Void]) == RunTerm(fuel, h, BY_LABEL, 3, env1);
  }

  lemma VoidFolding(g: Graph, s: VarInfo, h: Graph)
    requires Folded(g, s, h) && 7 in h && 6 in s && {0, 3, 4, 6, 7} <= g.Keys && g[0] == Ktail
    requires g[7].Kargs? && g[7].term.Continue? && g[7].term.k == 6 && g[7].term.expr.EConst?
    requires g[6] == Kargs([Temp(5)], Continue(4, EPrimcall(PVoid, [Temp(5)])))
    requires g[4] == Kreceive([Temp(1)], None, 3) && g[3] == Kargs([Temp(1)], Continue(0, EValues([Temp(1)])))
    ensures {0, 3, 6} <= h.Keys && h[7] == g[7] && h[6] == Kargs([Temp(5)], Continue(3, EConst(Void))) && h[3] == g[3] && h[0] == g[0]
  {
    assert Leads(h[7], 6);
    assert Leads(h[6], 3);
    assert Leads(h[3], 0);
  }

  /** Folding repairs `(void d)`: the program is an error as written, and delivers void
      once folded. */
  lemma VoidRepaired(fuel: nat, g: Graph, d: Datum, s: VarInfo, h: Graph)
    requires Walked(g, VoidCall(d), s) && Folded(g, s, h) && Entry(VoidCall(d), 1) in h
    ensures Ranked(g, BY_LABEL) && RunTerm(fuel, g, BY_LABEL, Entry(VoidCall(d), 1), map[]) == Stuck
    ensures Ranked(h, BY_LABEL) && h[Entry(VoidCall(d), 1)].Kargs?
    ensures RunTerm(fuel, h, BY_LABEL, Entry(VoidCall(d), 1), map[]) == Done([Void])
  {
    VoidCallCode(g, d, s);
    hide Code, Info, Acyclic, FoldAt, Entry;
    FoldedRanked(g, BY_LABEL, s, h);
    hide Grounded;
    VoidFolding(g, s, h);
    VoidRun(fuel, g, h, Embed(d));
  }

  /** `(p d e)`. */
  function PrimCall(p: Prim, d: Datum, e: Datum): Form {
    Call(More(Var(PrimName(p)), More(Const(d), Last(Const(e)))))
  }

  lemma PrimCallNumbers(g: Graph, p: Prim, d: Datum, e: Datum)
    requires Code(g, PrimCall(p, d, e), 0, 1)
    ensures Entry(PrimCall(p, d, e), 1) == 9
    ensures {3, 4, 6, 7, 9} <= g.Keys && g[9].Kargs? && g[9].term == Continue(7, EConst(Embed(e)))
    ensures g[7] == Kargs([Temp(8)], Continue(6, EConst(Embed(d)))) && g[4] == Kreceive([Temp(1)], None, 3)
    ensures g[6] == Kargs([Temp(5)], Continue(4, EPrimcall(p, [Temp(5), Temp(8)])))
  {
    var last := Last(Const(e));
    var rest := More(Const(d), last);
    var elems := More(Var(PrimName(p)), rest);
    assert PrimCall(p, d, e) == Call(elems);
    assert Entry(Const(d), 7) == 7 && EntryTemp(Const(d), 7) == 8 && Next(Const(d), 7) == 9;
    assert EntryElems(elems, 6, 7) == EntryElems(rest, 6, 7) == EntryElems(last, 7, 9) == 9;
    assert CodeElems(g, elems, 6, 5, 7) && CodeElems(g, rest, 6, 5, 7) && CodeElems(g, last, 7, 8, 9);
    assert Code(g, Const(d), 6, 7) && Code(g, Const(e), 7, 9);
    var names := ElemNames(elems, 5, 7);
    assert ElemNames(last, 8, 9) == [Temp(8)] && ElemNames(rest, 5, 7) == [Temp(5), Temp(8)];
    assert names == [User(PrimName(p)), Temp(5), Temp(8)];
    assert CallExpr(names) == EPrimcall(p, [Temp(5), Temp(8)]) by {
      assert names[1..] == [Temp(5), Temp(8)];
    }
  }

  /** All that one walk has found the other has found too. */
  ghost predicate Contains(outer: VarInfo, inner: VarInfo) {
    forall l :: l in inner ==> l in outer && outer[l] == inner[l]
  }

  /** What is on record where the walk has just come to, and further on. */
  lemma RecordHere(g: Graph, deep: Rank, t: Table, e: Option<Expr>, k: Label, path: seq<nat>, u: Table)
    requires Acyclic(g, deep) && k in g && g[k].Kargs? && g[k].term.Continue? && !g[k].term.expr.EProc?
    requires u == Arrival(t, g[k].vars, e, path + [k])
    ensures k in Info(g, deep, t, e, k, path) && Info(g, deep, t, e, k, path)[k] == u && g[k].term.k in g
    ensures Contains(Info(g, deep, t, e, k, path), Info(g, deep, u, Some(g[k].term.expr), g[k].term.k, path + [k, 0]))
  {
    InfoIs(g, deep, t, e, k, path);
    var next, x := g[k].term.k, g[k].term.expr;
    assert Leads(g[k], next);
    InfoAway(g, deep, u, Some(x), next, path + [k, 0], k);
  }

  /** Both operands are on record with their constants where the call is made. */
  lemma OperandsReported(g: Graph, p: Prim, a: GValue, b: GValue)
    requires Acyclic(g, Deep(g)) && {6, 7, 9} <= g.Keys && g[9].Kargs? && g[9].term == Continue(7, EConst(b))
    requires g[7] == Kargs([Temp(8)], Continue(6, EConst(a)))
    requires g[6] == Kargs([Temp(5)], Continue(4, EPrimcall(p, [Temp(5), Temp(8)]))) && a != Void && b != Void
    ensures var s := Info(g, Deep(g), map[], None, 9, []);
      6 in s && GetConst(s[6], Temp(5)) == Some(a) && GetConst(s[6], Temp(8)) == Some(b)
  {
    var deep := Deep(g);
    hide Info, Acyclic, Define, Deep, GetConst;
    var path9, path7, path6 := [] + [9, 0], [] + [9, 0] + [7, 0], [] + [9, 0] + [7, 0] + [6];
    var u := Define(map[], [Temp(8)], Some(EConst(b)), path9 + [7]);
    var v := Define(u, [Temp(5)], Some(EConst(a)), path6);
    RecordHere(g, deep, map[], None, 9, [], map[]);
    RecordHere(g, deep, map[], Some(EConst(b)), 7, path9, u);
    RecordHere(g, deep, u, Some(EConst(a)), 6, path7, v);
    OperandsDefined(a, b, path9 + [7], path6);
  }

  lemma OperandsDefined(a: GValue, b: GValue, path: seq<nat>, path': seq<nat>)
    requires a != Void && b != Void
    ensures var v := Define(Define(map[], [Temp(8)], Some(EConst(b)), path), [Temp(5)], Some(EConst(a)), path');
      GetConst(v, Temp(5)) == Some(a) && GetConst(v, Temp(8)) == Some(b)
  {
  }

  /** A primitive call on two constants, void excepted, is folded to its value. */
  lemma PrimCallFolded(g: Graph, p: Prim, d: Datum, e: Datum, s: VarInfo, h: Graph)
    requires Walked(g, PrimCall(p, d, e), s) && Folded(g, s, h) && AllFolded(g, s, h) && 9 in h
    requires p != PVoid && !d.DVoid? && !e.DVoid? && ApplyPrim<Name, Label>(p, [Embed(d), Embed(e)]).Some?
    ensures 6 in h && h[6] == Kargs([Temp(5)], Continue(3, EConst(ApplyPrim(p, [Embed(d), Embed(e)]).value)))
  {
    hide Code, ApplyPrim, CpsTranslator.Closed, NamedAt, Info, Acyclic, Folded, AllFolded, GetConst;
    PrimCallNumbers(g, p, d, e);
    OperandsReported(g, p, Embed(d), Embed(e));
    FoldedOn(g, s, h, 9, 7);
    FoldedOn(g, s, h, 7, 6);
    CallFolded(g, s, h, p, Embed(d), Embed(e));
  }

  lemma CallFolded(g: Graph, s: VarInfo, h: Graph, p: Prim, a: GValue, b: GValue)
    requires AllFolded(g, s, h) && 6 in h && 6 in g && g[6] == Kargs([Temp(5)], Continue(4, EPrimcall(p, [Temp(5), Temp(8)])))
    requires 4 in g && g[4] == Kreceive([Temp(1)], None, 3) && p != PVoid && ApplyPrim(p, [a, b]).Some?
    requires 6 in s && GetConst(s[6], Temp(5)) == Some(a) && GetConst(s[6], Temp(8)) == Some(b)
    ensures h[6] == Kargs([Temp(5)], Continue(3, EConst(ApplyPrim(p, [a, b]).value)))
  {
    hide ApplyPrim, GetConst;
    assert FoldedInto(g, s[6], 6, h[6]);
    assert Reported(s[6], [Temp(5), Temp(8)], [a, b]);
  }

  lemma FoldedOn(g: Graph, s: VarInfo, h: Graph, k: Label, next: Label)
    requires Folded(g, s, h) && AllFolded(g, s, h) && k in h && k in g && g[k].Kargs? && g[k].term.Continue?
    requires g[k].term.k == next && g[k].term.expr.EConst?
    ensures next in h
  {
    assert FoldedInto(g, s[k], k, h[k]);
    assert Leads(h[k], next);
  }

  // ---------------------------------------------------------------- tail calls

  /** Folding adds no tail that several values can get to. */
  lemma FoldedOneValued(g: Graph, s: VarInfo, h: Graph)
    requires OneValued(g) && Folded(g, s, h)
    ensures OneValued(h)
  {
    hide GetConst, FoldExpr;
    forall k | k in h
      ensures ReturnsOne(h, k)
    {
      assert ReturnsOne(g, k);
      if g[k].Kargs? {
        assert FoldAt(g, s, k) == g[k] || FoldAt(g, s, k) == FoldKont(g, s[k], k);
      }
    }
  }

  /** Redirecting one call leaves the others as they are. */
  lemma TargetElsewhere(g: Graph, k: Label, other: Label)
    requires TailTarget(Redirect(g, k), other).Some?
    ensures TailTarget(g, other).Some? && other != k
  {
  }

  lemma RedirectKeys(g: Graph, k: Label)
    ensures Redirect(g, k).Keys == g.Keys
  {
  }

  lemma RedirectAlike(fuel: nat, g: Graph, k: Label, entry: Label, env: GEnv)
    requires Ranked(g, BY_LABEL) && OneValued(g) && entry in g && g[entry].Kargs?
    ensures var h := Redirect(g, k); Ranked(h, BY_LABEL) && OneValued(h) && entry in h && h[entry].Kargs? && Alike(fuel, g, h, entry, env)
  {
    if TailTarget(g, k).Some? {
      PassesOne(g, k);
    }
    RedirectRanked(g, BY_LABEL, k);
    RedirectOneValued(g, k);
    RedirectSameTerm(fuel, g, BY_LABEL, k, entry, env);
  }

  /** Redirecting calls in any order, until none is left that can be. */
  method RedirectCalls(g: Graph, entry: Label) returns (h: Graph)
    requires Ranked(g, BY_LABEL) && OneValued(g) && entry in g && g[entry].Kargs?
    ensures Ranked(h, BY_LABEL) && h.Keys == g.Keys && h[entry].Kargs?
    ensures forall fuel: nat, env :: Alike(fuel, g, h, entry, env)
    ensures forall k :: k in h ==> TailTarget(h, k).None? && !PassedOn(h, k)
    ensures forall k :: k in g ==> h[k] == Straight(g, k)
  {
    hide Ranked, OneValued, RunTerm, TailTarget, PassedOn, Straight, Redirect;
    h := g;
    var todo := g.Keys;
    while todo != {}
      invariant Ranked(h, BY_LABEL) && OneValued(h) && h.Keys == g.Keys && h[entry].Kargs? && todo <= g.Keys
      invariant forall fuel: nat, env :: Alike(fuel, g, h, entry, env)
      invariant forall k :: k in h && TailTarget(h, k).Some? ==> k in todo
      invariant forall k :: k in g ==> h[k] == if k in todo then g[k] else Straight(g, k)
      invariant forall k :: k in todo ==> TailTarget(h, k) == TailTarget(g, k)
    {
      var k :| k in todo;
      todo := todo - {k};
      var i := Redirect(h, k);
      RedirectKeys(h, k);
      RedirectAlike(0, h, k, entry, map[]);
      forall fuel: nat, env
        ensures Alike(fuel, g, i, entry, env)
      {
        RedirectAlike(fuel, h, k, entry, env);
        assert Alike(fuel, g, h, entry, env);
      }
      forall l | l in i && TailTarget(i, l).Some?
        ensures l in todo
      {
        TargetElsewhere(h, k, l);
      }
      forall l | l in g
        ensures i[l] == if l in todo then g[l] else Straight(g, l)
        ensures l in todo ==> TailTarget(i, l) == TailTarget(g, l)
      {
        RedirectedAt(g, h, k, l);
      }
      h := i;
    }
    forall k | k in h
      ensures !PassedOn(h, k)
    {
      TargetMeans(h, k);
    }
  }

  /** A continuation after the pass: a call whose value would only be passed on to a tail
      goes there itself. */
  function Straight(g: Graph, k: Label): Kont
    requires k in g
  {
    if PassedOn(g, k) then Kargs(g[k].vars, Continue(PassedTo(g, k), g[k].term.expr)) else g[k]
  }

  lemma RedirectedAt(g: Graph, h: Graph, k: Label, l: Label)
    requires k in g && k in h && l in g && l in h && h[k] == g[k] && TailTarget(h, k) == TailTarget(g, k)
    ensures l in Redirect(h, k) && Redirect(h, k)[l] == if l == k then Straight(g, k) else h[l]
    ensures l != k ==> TailTarget(Redirect(h, k), l) == TailTarget(h, l)
  {
    TargetMeans(g, k);
  }

  // ------------------------------------------------------------------ programs

  /** The graph ends as the form does: with the same datum, or the same failure. */
  ghost predicate Delivers(fuel: nat, f: Form, m: Imports, h: Graph, entry: Label)
    requires Ranked(h, BY_LABEL) && entry in h && h[entry].Kargs?
  {
    var o, r := Eval(fuel, SourceEnv(m), f), RunTerm(fuel, h, BY_LABEL, entry, GraphEnv(m));
    && (o.SStuck? <==> r.Stuck?) && (o.STimeout? <==> r.Timeout?)
    && forall d: Datum :: o == SDone(Embed(d)) <==> r == Done([Embed<Name, Label>(d)])
  }

  /** The same for what the form computes, its failures aside. */
  ghost predicate DeliversData(fuel: nat, f: Form, m: Imports, h: Graph, entry: Label)
    requires Ranked(h, BY_LABEL) && entry in h && h[entry].Kargs?
  {
    forall d: Datum :: Eval(fuel, SourceEnv(m), f) == SDone(Embed(d)) ==>
      RunTerm(fuel, h, BY_LABEL, entry, GraphEnv(m)) == Done([Embed<Name, Label>(d)])
  }

  lemma TranslationDelivers(fuel: nat, g: Graph, f: Form, m: Imports)
    requires Program(g, f) && MayImport(f, m)
    ensures Ranked(g, BY_LABEL) && Delivers(fuel, f, m, g, Entry(f, 1))
  {
    ImportsRelated(g, f, m);
    var senv, env := SourceEnv(m), GraphEnv(m);
    hide Code, SourceEnv, GraphEnv, EnvRelated, NamedAt;
    var gv := TranslationCorrect(fuel, g, f, 0, 1, senv, env);
    forall d: Datum
      ensures Eval(fuel, senv, f) == SDone(Embed(d)) <==>
              RunTerm(fuel, g, BY_LABEL, Entry(f, 1), env) == Done([Embed<Name, Label>(d)])
    {
      SameDatum(fuel, g, f, 0, 1, senv, env, d);
    }
  }

  lemma FoldingDelivers(fuel: nat, g: Graph, f: Form, m: Imports, h: Graph, i: Graph, entry: Label)
    requires Program(g, f) && entry == Entry(f, 1) && MayImport(f, m)
    requires Ranked(h, BY_LABEL) && entry in h && h[entry].Kargs? && Ranked(i, BY_LABEL) && entry in i && i[entry].Kargs?
    requires Ranked(g, BY_LABEL) && Exact(fuel, g, h, entry, GraphEnv(m)) && Alike(fuel, h, i, entry, GraphEnv(m))
    requires VoidFree(f) ==> Alike(fuel, g, h, entry, GraphEnv(m))
    ensures DeliversData(fuel, f, m, i, entry) && (VoidFree(f) ==> Delivers(fuel, f, m, i, entry))
  {
    TranslationDelivers(fuel, g, f, m);
    hide Program, Ranked, CallsVoid, MayImport, SourceEnv, GraphEnv;
  }

  /** From source to optimised graph: what the program computes is delivered, and unless it
      calls `void` with arguments its errors are kept as well; whatever is bound from
      outside. */
  method OptimizeProgram(form: Form) returns (h: Graph, entry: Label, ghost g: Graph, ghost s: VarInfo, ghost folded: Graph)
    requires NoPrimBound(form)
    ensures Program(g, form) && Walked(g, form, s) && AllFolded(g, s, folded)
    ensures h.Keys == folded.Keys && forall k :: k in h ==> h[k] == Straight(folded, k)
    ensures Ranked(h, BY_LABEL) && entry in h && h[entry].Kargs?
    ensures forall fuel: nat, m: Imports :: MayImport(form, m) ==> DeliversData(fuel, form, m, h, entry)
    ensures VoidFree(form) ==> forall fuel: nat, m: Imports :: MayImport(form, m) ==> Delivers(fuel, form, m, h, entry)
    ensures forall k :: k in h ==> TailTarget(h, k).None?
  {
    var t := new Translator();
    entry := t.Translate(0, form);
    var graph := t.graph;
    g := graph;
    assert Program(g, form) by { OneTempNamed(g, entry, EntryTemp(form, 1)); }
    TempUsers(g, entry, EntryTemp(form, 1));
    ClosedOneValued(g);
    hide Folded, CpsTranslator.Closed, Code, Exact, Alike, Delivers, DeliversData, Foreign, MayImport, GraphEnv, OneValued, Users;
    hide AllFolded, Straight, PassedOn, Info;
    var info, small := FoldProgram(graph, entry, form);
    s, folded := info, small;
    FoldedOneValued(g, s, folded);
    h := RedirectCalls(small, entry);
    forall fuel: nat, m: Imports | MayImport(form, m)
      ensures DeliversData(fuel, form, m, h, entry) && (VoidFree(form) ==> Delivers(fuel, form, m, h, entry))
    {
      ImportsForeign(g, form, m);
      FoldingDelivers(fuel, g, form, m, folded, h, entry);
    }
  }
}
