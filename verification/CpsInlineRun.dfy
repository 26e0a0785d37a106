/** Runs of a graph and of the graph with one call inlined. */
module CpsInlineRun {
  import opened Wrappers
  import opened CpsValues
  import opened CpsLang
  import opened CpsReach
  import opened CpsTailCall
  import opened CpsInline

  /** Binding one argument after the other is binding them all at once, when the
      arguments are not among the variables bound. */
  lemma {:induction false} ChainBinds(m: nat, h: Graph, rank: Rank, k: Label, xs: seq<Name>, args: seq<Name>, last: Label,
                                      f: GEnv, ws: seq<GValue>)
    requires Ranked(h, rank) && OneByOne(h, k, xs, args, last) && |xs| == |args|
    requires LookupAll(f, args) == Some(ws) && forall x :: x in xs ==> x !in args
    ensures last in h && h[last].Kargs?
    ensures RunTerm(m, h, rank, k, f) == RunTerm(m, h, rank, last, Bind(f, xs, ws))
    decreases xs
  {
    if xs != [] {
      var next, f1 := h[k].term.k, f[xs[0] := ws[0]];
      assert next in Succs(h[k]);
      LookupFirst(f, args);
      assert Bind(f, [xs[0]], [ws[0]]) == f1 by {
        assert [xs[0]][1..] == [] && [ws[0]][1..] == [];
        assert Bind(f1, [xs[0]][1..], [ws[0]][1..]) == f1;
      }
      assert xs[0] in xs && forall x :: x in args[1..] ==> x in args;
      assert forall x :: x in xs[1..] ==> x in xs;
      LookupOthers(f, xs[0], ws[0], args[1..]);
      ChainBinds(m, h, rank, next, xs[1..], args[1..], last, f1, ws[1..]);
    }
  }

  lemma LookupFirst(f: GEnv, args: seq<Name>)
    requires args != [] && LookupAll(f, args).Some?
    ensures LookupAll(f, [args[0]]) == Some([LookupAll(f, args).value[0]])
    ensures LookupAll(f, args[1..]) == Some(LookupAll(f, args).value[1..])
  {
    assert [args[0]][1..] == [] && LookupAll(f, []) == Some([]);
    var v, vs := Lookup(f, args[0]), LookupAll(f, args[1..]);
    assert ([v.value] + vs.value)[1..] == vs.value;
    assert [v.value] + [] == [v.value];
  }

  lemma {:induction false} LookupOthers(f: GEnv, x: Name, w: GValue, args: seq<Name>)
    requires x !in args
    ensures LookupAll(f[x := w], args) == LookupAll(f, args)
    decreases args
  {
    if args != [] {
      LookupOthers(f, x, w, args[1..]);
    }
  }

  lemma NoValues(i: Site)
    ensures AllSame(i, [], [])
  {
  }

  lemma SameLength(i: Site, vs: seq<GValue>, ws: seq<GValue>)
    requires AllSame(i, vs, ws)
    ensures |vs| == |ws|
  {
  }

  lemma NoPrims(i: Site, v: View, e: GEnv, f: GEnv)
    requires EnvSame(i, v, e, f)
    ensures forall y :: y in f ==> !PrimNamed(y)
  {
  }

  lemma VisitOld(i: Site, strict: bool, visits: set<Visit>, l: Label, e: GEnv)
    requires AllExpected(i, strict, visits) && (l, e) in visits
    ensures OldNames(i, e)
  {
    assert Expected(i, (l, e));
  }

  lemma {:induction false} SimRun(i: Site, mode: Mode, v: View, n: nat, m: nat, l: Label, l': Label,
                                  e: GEnv, f: GEnv, vs: seq<GValue>, ws: seq<GValue>)
    returns (f': GEnv, rs: seq<GValue>)
    requires Inlined(i) && l in i.g && Edge(i, v, l, l') && l' in i.h && EnvSame(i, v, e, f) && AllSame(i, vs, ws)
    requires Depths(mode.up, v, n, m) && AllExpected(i, mode.strict, Visits(n, i.g, i.gr, l, e, vs))
    ensures Meets(i, mode, v, m, Run(n, i.g, i.gr, l, e, vs), Run(m, i.h, i.hr, l', f, ws), f, f', rs)
    decreases n, i.gr(l), 3
  {
    hide Copied, EnvSame, AllSame, Same, Edge, Renames, OldNames, AllExpected, TermCopy;
    f', rs := f, ws;
    match i.g[l]
    case Ktail => SimTail(i, mode, v, n, m, l, l', e, f, vs, ws);
    case Kproc(_, _, _, _) => StopsAlike(i, v, m, l, l', f, vs, ws);
    case Kreceive(req, rest, next) =>
      if ArityOk(|req|, rest.Some?, |vs|) {
        f', rs := SimReceive(i, mode, v, n, m, l, l', e, f, vs, ws);
      } else {
        StopsAlike(i, v, m, l, l', f, vs, ws);
      }
    case Kargs(vars, _) =>
      if |vars| <= |vs| {
        f', rs := SimArgs(i, mode, v, n, m, l, l', e, f, vs, ws);
      } else {
        StopsAlike(i, v, m, l, l', f, vs, ws);
      }
  }

  /** What does not take the values given does not take them in the copy either. */
  lemma StopsAlike(i: Site, v: View, m: nat, l: Label, l': Label, f: GEnv, vs: seq<GValue>, ws: seq<GValue>)
    requires Inlined(i) && l in i.g && Edge(i, v, l, l') && l' in i.h && AllSame(i, vs, ws)
    requires match i.g[l]
             case Kproc(_, _, _, _) => true
             case Kreceive(req, rest, _) => !ArityOk(|req|, rest.Some?, |vs|)
             case Kargs(vars, _) => |vars| > |vs|
             case Ktail => false
    ensures Run(m, i.h, i.hr, l', f, ws) == Stuck
  {
    hide AllSame, Renames, TermCopy, Onto;
    SameLength(i, vs, ws);
    match i.g[l]
    case Kproc(_, _, _, _) =>
      if v.Copy? {
        CopiedAt(i, v, l, l');
      }
    case Kreceive(_, _, _) => ReceiveAt(i, v, l, l');
    case Kargs(_, _) => ArgsAt(i, v, l, l');
  }

  lemma SimTail(i: Site, mode: Mode, v: View, n: nat, m: nat, l: Label, l': Label,
                e: GEnv, f: GEnv, vs: seq<GValue>, ws: seq<GValue>)
    requires Inlined(i) && Edge(i, v, l, l') && l' in i.h && EnvSame(i, v, e, f) && AllSame(i, vs, ws) && i.g[l].Ktail?
    ensures Meets(i, mode, v, m, Run(n, i.g, i.gr, l, e, vs), Run(m, i.h, i.hr, l', f, ws), f, f, ws)
  {
    hide AllSame, Same;
    assert l != i.at;
  }

  lemma {:induction false} SimReceive(i: Site, mode: Mode, v: View, n: nat, m: nat, l: Label, l': Label,
                                      e: GEnv, f: GEnv, vs: seq<GValue>, ws: seq<GValue>)
    returns (f': GEnv, rs: seq<GValue>)
    requires Inlined(i) && l in i.g && Edge(i, v, l, l') && l' in i.h && EnvSame(i, v, e, f) && AllSame(i, vs, ws)
    requires Depths(mode.up, v, n, m) && AllExpected(i, mode.strict, Visits(n, i.g, i.gr, l, e, vs))
    requires i.g[l].Kreceive? && ArityOk(|i.g[l].req|, i.g[l].rest.Some?, |vs|)
    ensures Meets(i, mode, v, m, Run(n, i.g, i.gr, l, e, vs), Run(m, i.h, i.hr, l', f, ws), f, f', rs)
    decreases n, i.gr(l), 2
  {
    hide Copied, EnvSame, AllSame, Same, Edge, Renames, OldNames, TermCopy, Meets;
    ReceiveAt(i, v, l, l');
    var w := Onto(i, v, l');
    var req, rest, next := |i.g[l].req|, i.g[l].rest.Some?, i.g[l].k;
    assert next in Succs(i.g[l]) && i.h[l'].k in Succs(i.h[l']);
    EnvOn(i, v, l', e, f);
    SameLength(i, vs, ws);
    ReceivedSame(i, req, rest, vs, ws);
    f', rs := SimRun(i, mode, w, n, m, next, i.h[l'].k, e, f, Received(req, rest, vs), Received(req, rest, ws));
    SameKind(i, mode, w, v, m, Run(n, i.g, i.gr, l, e, vs), Run(m, i.h, i.hr, l', f, ws), f, f', rs);
  }

  lemma {:induction false} SimArgs(i: Site, mode: Mode, v: View, n: nat, m: nat, l: Label, l': Label,
                                   e: GEnv, f: GEnv, vs: seq<GValue>, ws: seq<GValue>)
    returns (f': GEnv, rs: seq<GValue>)
    requires Inlined(i) && l in i.g && Edge(i, v, l, l') && l' in i.h && EnvSame(i, v, e, f) && AllSame(i, vs, ws)
    requires Depths(mode.up, v, n, m) && AllExpected(i, mode.strict, Visits(n, i.g, i.gr, l, e, vs))
    requires i.g[l].Kargs? && |i.g[l].vars| <= |vs|
    ensures Meets(i, mode, v, m, Run(n, i.g, i.gr, l, e, vs), Run(m, i.h, i.hr, l', f, ws), f, f', rs)
    decreases n, i.gr(l), 2
  {
    hide Copied, EnvSame, AllSame, Same, Edge, Renames, OldNames, TermCopy, Meets;
    ArgsAt(i, v, l, l');
    var w, vars := Onto(i, v, l'), i.g[l].vars;
    EnvOn(i, v, l', e, f);
    SameLength(i, vs, ws);
    VisitOld(i, mode.strict, Visits(n, i.g, i.gr, l, e, vs), l, Bind(e, vars, vs));
    BindSame(i, w, e, f, vars, vs, ws);
    var f1 := Bind(f, Images(i, w, vars), ws);
    if w.Copy? && w.own {
      NoPrims(i, v, e, f);
      BindKeeps(i, w.met, f, vars, ws);
    }
    f', rs := SimTerm(i, mode, w, n, m, l, l', Bind(e, vars, vs), f1);
    KeepsOn(i, mode, w, v, m, Run(n, i.g, i.gr, l, e, vs), Run(m, i.h, i.hr, l', f, ws), f, f1, f', rs);
  }

  lemma StuckMeets(i: Site, mode: Mode, v: View, m: nat, b: Outcome, f: GEnv, f': GEnv, rs: seq<GValue>)
    requires Calls(i) && Ranked(i.h, i.hr) && (mode.strict ==> b.Stuck?)
    ensures Meets(i, mode, v, m, Stuck, b, f, f', rs)
  {
  }

  /** Where errors are compared all that is read is bound. */
  lemma AllRead(i: Site, n: nat, l: Label, e: GEnv)
    requires Ranked(i.g, i.gr) && l in i.g && i.g[l].Kargs? && AllExpected(i, true, VisitsTerm(n, i.g, i.gr, l, e))
    ensures match i.g[l].term
            case Branch(x, _, _) => Lookup(e, x).Some?
            case Continue(_, EValues(args)) => LookupAll(e, args).Some?
            case Continue(_, EPrimcall(_, args)) => LookupAll(e, args).Some?
            case Continue(_, ECall(x, args)) => Lookup(e, x).Some? && LookupAll(e, args).Some?
            case _ => true
  {
    assert (l, e) in VisitsTerm(n, i.g, i.gr, l, e);
    assert Fits(i, (l, e));
    match i.g[l].term
    case Continue(_, EValues(args)) => AllLookedUp(e, args);
    case Continue(_, EPrimcall(_, args)) => AllLookedUp(e, args);
    case Continue(_, ECall(_, args)) => AllLookedUp(e, args);
    case _ =>
  }

  lemma {:induction false} AllLookedUp(e: GEnv, xs: seq<Name>)
    requires forall x :: x in xs ==> Lookup(e, x).Some?
    ensures LookupAll(e, xs).Some?
  {
    if xs != [] {
      AllLookedUp(e, xs[1..]);
    }
  }

  /** Running a call: the procedure, then what follows. */
  lemma RunCall(n: nat, g: Graph, rank: Rank, l: Label, e: GEnv, fn: GValue, vs: seq<GValue>)
    requires Ranked(g, rank) && l in g && g[l].Kargs? && g[l].term.Continue? && g[l].term.expr.ECall?
    requires Lookup(e, g[l].term.expr.proc) == Some(fn) && LookupAll(e, g[l].term.expr.args) == Some(vs)
    ensures g[l].term.k in g && rank(g[l].term.k) < rank(l)
    ensures var a := Apply(n, g, rank, fn, vs);
      RunTerm(n, g, rank, l, e) == if a.Done? then Run(n, g, rank, g[l].term.k, e, a.vs) else a
    ensures VisitsApply(n, g, rank, fn, vs) <= VisitsTerm(n, g, rank, l, e)
    ensures var a := Apply(n, g, rank, fn, vs);
      a.Done? ==> Visits(n, g, rank, g[l].term.k, e, a.vs) <= VisitsTerm(n, g, rank, l, e)
  {
    assert g[l].term.k in Succs(g[l]);
  }

  lemma CallDone(i: Site, mode: Mode, m: nat, a: Outcome, b: Outcome, rs: seq<GValue>)
    requires Calls(i) && Ranked(i.h, i.hr) && Meets(i, mode, Plain, m, a, b, map[], map[], rs)
    ensures a.Done? && b == Done(rs) ==> AllSame(i, a.vs, rs)
  {
  }

  /** A call after which not both sides go on. */
  lemma CallEnds(i: Site, mode: Mode, v: View, m: nat, a: Outcome, b: Outcome, a': Outcome, b': Outcome,
                 f: GEnv, f': GEnv, ps: seq<GValue>, rs: seq<GValue>)
    requires Calls(i) && Ranked(i.h, i.hr) && Meets(i, mode, Plain, m, a, b, map[], map[], ps)
    requires !(a.Done? && b == Done(ps)) && (!a.Done? ==> a' == a) && (!b.Done? ==> b' == b)
    ensures Meets(i, mode, v, m, a', b', f, f', rs)
  {
  }

  lemma SameKind(i: Site, mode: Mode, w: View, v: View, m: nat, a: Outcome, b: Outcome, f: GEnv, f': GEnv, rs: seq<GValue>)
    requires Calls(i) && Ranked(i.h, i.hr) && Meets(i, mode, w, m, a, b, f, f', rs)
    requires (v.Copy? && v.own) == (w.Copy? && w.own)
    ensures Meets(i, mode, v, m, a, b, f, f', rs)
  {
  }

  /** What was kept from further on was kept from here. */
  lemma KeepsOn(i: Site, mode: Mode, w: View, v: View, m: nat, a: Outcome, b: Outcome, f: GEnv, f1: GEnv, f': GEnv, rs: seq<GValue>)
    requires Calls(i) && Ranked(i.h, i.hr) && Meets(i, mode, w, m, a, b, f1, f', rs)
    requires (v.Copy? && v.own) == (w.Copy? && w.own) && (w.Copy? && w.own ==> Keeps(i, f, f1))
    ensures Meets(i, mode, v, m, a, b, f, f', rs)
  {
  }

  lemma {:induction false} SimTerm(i: Site, mode: Mode, v: View, n: nat, m: nat, l: Label, l': Label, e: GEnv, f: GEnv)
    returns (f': GEnv, rs: seq<GValue>)
    requires Inlined(i) && l in i.g && i.g[l].Kargs? && l' in i.h && i.h[l'].Kargs?
    requires if v.Plain? && l == i.at then l' == i.at else TermCopy(i, v, i.g[l].term, i.h[l'].term)
    requires EnvSame(i, v, e, f) && Depths(mode.up, v, n, m) && AllExpected(i, mode.strict, VisitsTerm(n, i.g, i.gr, l, e))
    ensures Meets(i, mode, v, m, RunTerm(n, i.g, i.gr, l, e), RunTerm(m, i.h, i.hr, l', f), f, f', rs)
    decreases n, i.gr(l), 1
  {
    hide Copied, EnvSame, AllSame, Same, Edge, Renames, OldNames, TermCopy, Meets;
    if v.Plain? && l == i.at {
      f', rs := SimSite(i, mode, n, m, e, f);
    } else {
      match i.g[l].term
      case Branch(_, _, _) => f', rs := SimBranch(i, mode, v, n, m, l, l', e, f);
      case Continue(_, ECall(_, _)) => f', rs := SimCall(i, mode, v, n, m, l, l', e, f);
      case Continue(_, _) => f', rs := SimContinue(i, mode, v, n, m, l, l', e, f);
    }
  }

  lemma {:induction false} SimBranch(i: Site, mode: Mode, v: View, n: nat, m: nat, l: Label, l': Label, e: GEnv, f: GEnv)
    returns (f': GEnv, rs: seq<GValue>)
    requires Inlined(i) && l in i.g && i.g[l].Kargs? && l' in i.h && i.h[l'].Kargs? && i.g[l].term.Branch?
    requires TermCopy(i, v, i.g[l].term, i.h[l'].term)
    requires EnvSame(i, v, e, f) && Depths(mode.up, v, n, m) && AllExpected(i, mode.strict, VisitsTerm(n, i.g, i.gr, l, e))
    ensures Meets(i, mode, v, m, RunTerm(n, i.g, i.gr, l, e), RunTerm(m, i.h, i.hr, l', f), f, f', rs)
    decreases n, i.gr(l), 0
  {
    hide Copied, EnvSame, AllSame, Edge, Renames, OldNames;
    f', rs := f, [];
    var x, kt, kf := i.g[l].term.arg, i.g[l].term.kt, i.g[l].term.kf;
    var kt', kf' := i.h[l'].term.kt, i.h[l'].term.kf;
    assert kt in Succs(i.g[l]) && kf in Succs(i.g[l]) && kt' in Succs(i.h[l']) && kf' in Succs(i.h[l']);
    NoValues(i);
    if Lookup(e, x).Some? {
      LookupSame(i, v, e, f, x);
      if Lookup(e, x).value == Bool(false) {
        f', rs := SimRun(i, mode, v, n, m, kf, kf', e, f, [], []);
      } else {
        f', rs := SimRun(i, mode, v, n, m, kt, kt', e, f, [], []);
      }
    } else if mode.strict {
      AllRead(i, n, l, e);
    }
  }

  /** The values an expression other than a call delivers, if it delivers any. */
  function Delivers(expr: Expr, e: GEnv): Option<seq<GValue>> {
    match expr
    case EConst(v) => Some([v])
    case EPrim(p) => Some([Primitive(p)])
    case EProc(c) => Some([Closure(c, e)])
    case EValues(args) => LookupAll(e, args)
    case EPrimcall(p, args) =>
      var vs := LookupAll(e, args);
      if vs.None? || ApplyPrim(p, vs.value).None? then None else Some([ApplyPrim(p, vs.value).value])
    case ECall(_, _) => None
  }

  lemma DeliversSame(i: Site, v: View, l: Label, l': Label, e: GEnv, f: GEnv)
    requires Inlined(i) && l in i.g && i.g[l].Kargs? && l' in i.h && i.h[l'].Kargs? && i.g[l].term.Continue?
    requires TermCopy(i, v, i.g[l].term, i.h[l'].term) && EnvSame(i, v, e, f)
    requires Delivers(i.g[l].term.expr, e).Some?
    ensures Delivers(i.h[l'].term.expr, f).Some?
    ensures AllSame(i, Delivers(i.g[l].term.expr, e).value, Delivers(i.h[l'].term.expr, f).value)
  {
    hide Copied, EnvSame, AllSame, Same, Edge, Renames, OldNames, ApplyPrim;
    match i.g[l].term.expr
    case EConst(c) => ConstSame(i, l);
    case EPrim(p) => OneSame(i, Primitive(p), Primitive(p));
    case EProc(c) =>
      ProcThere(i, l);
      ClosureSame(i, v, c, i.h[l'].term.expr.k, e, f);
      OneSame(i, Closure(c, e), Closure(i.h[l'].term.expr.k, f));
    case EValues(args) => LookupAllSame(i, v, e, f, args);
    case EPrimcall(p, args) =>
      LookupAllSame(i, v, e, f, args);
      PrimSame(i, p, LookupAll(e, args).value, LookupAll(f, Images(i, v, args)).value);
  }

  /** An expression that gives nothing though all it reads is bound gives nothing in the copy. */
  lemma NothingDelivered(i: Site, v: View, n: nat, l: Label, l': Label, e: GEnv, f: GEnv)
    requires Inlined(i) && l in i.g && i.g[l].Kargs? && l' in i.h && i.h[l'].Kargs? && i.g[l].term.Continue?
    requires TermCopy(i, v, i.g[l].term, i.h[l'].term) && EnvSame(i, v, e, f) && !i.g[l].term.expr.ECall?
    requires Delivers(i.g[l].term.expr, e).None? && AllExpected(i, true, VisitsTerm(n, i.g, i.gr, l, e))
    ensures Delivers(i.h[l'].term.expr, f).None?
  {
    AllRead(i, n, l, e);
    hide Copied, EnvSame, AllSame, Same, Edge, Renames, OldNames, ApplyPrim, VisitsTerm, AllExpected;
    if i.g[l].term.expr.EPrimcall? {
      var args := i.g[l].term.expr.args;
      LookupAllSame(i, v, e, f, args);
      PrimSame(i, i.g[l].term.expr.p, LookupAll(e, args).value, LookupAll(f, Images(i, v, args)).value);
    }
  }

  lemma OneSame(i: Site, v: GValue, w: GValue)
    requires Same(i, v, w) || (v == w && v.Primitive?)
    ensures AllSame(i, [v], [w])
  {
  }

  lemma ConstSame(i: Site, l: Label)
    requires Inlined(i) && l in i.g && i.g[l].Kargs? && i.g[l].term.Continue? && i.g[l].term.expr.EConst?
    ensures AllSame(i, [i.g[l].term.expr.v], [i.g[l].term.expr.v])
  {
    assert Tame(i.g, l);
    DataSame(i, i.g[l].term.expr.v);
  }

  lemma ProcThere(i: Site, l: Label)
    requires Inlined(i) && l in i.g && i.g[l].Kargs? && i.g[l].term.Continue? && i.g[l].term.expr.EProc?
    ensures i.g[l].term.expr.k in i.g && i.g[i.g[l].term.expr.k].Kproc?
  {
    assert Tame(i.g, l);
  }

  lemma EnvOwn(i: Site, own: bool, met: set<Name>, e: GEnv, f: GEnv)
    requires EnvSame(i, Copy(own, met), e, f)
    ensures EnvSame(i, Copy(false, met), e, f)
  {
    hide Same;
    forall x | x in e
      ensures Image(i, Copy(false, met), x) == Image(i, Copy(own, met), x)
    {
    }
  }

  lemma ClosureSame(i: Site, v: View, c: Label, c': Label, e: GEnv, f: GEnv)
    requires Inlined(i) && EnvSame(i, v, e, f) && c in i.g && i.g[c].Kproc?
    requires Edge(i, if v.Plain? then v else Copy(false, v.met), c, c')
    ensures Same(i, Closure(c, e), Closure(c', f))
  {
    hide Renames, OldNames;
    if v.Copy? {
      CopiedAt(i, Copy(false, v.met), c, c');
      EnvOnto(i, v, i.seen[c'], e, f);
      EnvOwn(i, v.own, i.seen[c'], e, f);
    }
    assert EnvSame(i, CodeView(i, c'), e, f) && StandsFor(i, c, c');
  }

  lemma {:induction false} SimContinue(i: Site, mode: Mode, v: View, n: nat, m: nat, l: Label, l': Label, e: GEnv, f: GEnv)
    returns (f': GEnv, rs: seq<GValue>)
    requires Inlined(i) && l in i.g && i.g[l].Kargs? && l' in i.h && i.h[l'].Kargs?
    requires i.g[l].term.Continue? && !i.g[l].term.expr.ECall?
    requires TermCopy(i, v, i.g[l].term, i.h[l'].term)
    requires EnvSame(i, v, e, f) && Depths(mode.up, v, n, m) && AllExpected(i, mode.strict, VisitsTerm(n, i.g, i.gr, l, e))
    ensures Meets(i, mode, v, m, RunTerm(n, i.g, i.gr, l, e), RunTerm(m, i.h, i.hr, l', f), f, f', rs)
    decreases n, i.gr(l), 0
  {
    hide Copied, EnvSame, AllSame, Same, Edge, Renames, OldNames, ApplyPrim, Meets;
    f', rs := f, [];
    var next, next' := i.g[l].term.k, i.h[l'].term.k;
    assert next in Succs(i.g[l]) && next' in Succs(i.h[l']);
    var vs := Delivers(i.g[l].term.expr, e);
    if vs.Some? {
      DeliversSame(i, v, l, l', e, f);
      var ws := Delivers(i.h[l'].term.expr, f);
      f', rs := SimRun(i, mode, v, n, m, next, next', e, f, vs.value, ws.value);
    } else if mode.strict {
      NothingDelivered(i, v, n, l, l', e, f);
      StuckMeets(i, mode, v, m, RunTerm(m, i.h, i.hr, l', f), f, f', rs);
    } else {
      StuckMeets(i, mode, v, m, RunTerm(m, i.h, i.hr, l', f), f, f', rs);
    }
  }

  lemma {:induction false} SimCall(i: Site, mode: Mode, v: View, n: nat, m: nat, l: Label, l': Label, e: GEnv, f: GEnv)
    returns (f': GEnv, rs: seq<GValue>)
    requires Inlined(i) && l in i.g && i.g[l].Kargs? && l' in i.h && i.h[l'].Kargs?
    requires i.g[l].term.Continue? && i.g[l].term.expr.ECall?
    requires TermCopy(i, v, i.g[l].term, i.h[l'].term)
    requires EnvSame(i, v, e, f) && Depths(mode.up, v, n, m) && AllExpected(i, mode.strict, VisitsTerm(n, i.g, i.gr, l, e))
    ensures Meets(i, mode, v, m, RunTerm(n, i.g, i.gr, l, e), RunTerm(m, i.h, i.hr, l', f), f, f', rs)
    decreases n, i.gr(l), 0
  {
    hide Copied, EnvSame, AllSame, Same, Edge, Renames, OldNames, Meets, Run, Apply, Visits, VisitsApply;
    f', rs := f, [];
    var next, next' := i.g[l].term.k, i.h[l'].term.k;
    var x, args := i.g[l].term.expr.proc, i.g[l].term.expr.args;
    var fn, vs := Lookup(e, x), LookupAll(e, args);
    if fn.Some? && vs.Some? {
      LookupSame(i, v, e, f, x);
      LookupAllSame(i, v, e, f, args);
      var gn, ws := Lookup(f, Image(i, v, x)).value, LookupAll(f, Images(i, v, args)).value;
      RunCall(n, i.g, i.gr, l, e, fn.value, vs.value);
      RunCall(m, i.h, i.hr, l', f, gn, ws);
      hide RunTerm, VisitsTerm;
      var ps := SimApply(i, mode, n, m, fn.value, gn, vs.value, ws);
      var a, b := Apply(n, i.g, i.gr, fn.value, vs.value), Apply(m, i.h, i.hr, gn, ws);
      CallDone(i, mode, m, a, b, ps);
      if a.Done? && b == Done(ps) {
        f', rs := SimRun(i, mode, v, n, m, next, next', e, f, a.vs, ps);
      } else {
        CallEnds(i, mode, v, m, a, b, RunTerm(n, i.g, i.gr, l, e), RunTerm(m, i.h, i.hr, l', f), f, f', ps, rs);
      }
    } else if mode.strict {
      AllRead(i, n, l, e);
    } else {
      StuckMeets(i, mode, v, m, RunTerm(m, i.h, i.hr, l', f), f, f', rs);
    }
  }

  lemma {:induction false} SimApply(i: Site, mode: Mode, n: nat, m: nat, fn: GValue, gn: GValue, vs: seq<GValue>, ws: seq<GValue>)
    returns (rs: seq<GValue>)
    requires Inlined(i) && Same(i, fn, gn) && AllSame(i, vs, ws) && (if mode.up then n <= m else n >= 2 * m)
    requires AllExpected(i, mode.strict, VisitsApply(n, i.g, i.gr, fn, vs))
    ensures Meets(i, mode, Plain, m, Apply(n, i.g, i.gr, fn, vs), Apply(m, i.h, i.hr, gn, ws), map[], map[], rs)
    decreases n, 0, 0
  {
    hide Copied, EnvSame, AllSame, Edge, Renames, OldNames, ApplyPrim;
    rs := [];
    match fn
    case Primitive(p) =>
      PrimSame(i, p, vs, ws);
      if ApplyPrim(p, ws).Some? {
        rs := [ApplyPrim(p, ws).value];
      }
    case Closure(c, e) =>
      ProcBody(i, c);
      SameLength(i, vs, ws);
      CodeAt(i, c, gn.code);
      if ArityOk(|i.g[c].params|, i.g[c].restParam.Some?, |vs|) && n > 0 && m > 0 {
        rs := SimBody(i, mode, n, m, c, gn.code, e, gn.env, vs, ws);
      }
    case _ =>
  }

  lemma ProcBody(i: Site, c: Label)
    requires Inlined(i) && c in i.g && i.g[c].Kproc?
    ensures i.g[c].body in i.g
  {
    assert Tame(i.g, c);
  }

  lemma {:induction false} SimBody(i: Site, mode: Mode, n: nat, m: nat, c: Label, c': Label, e: GEnv, f: GEnv,
                                   vs: seq<GValue>, ws: seq<GValue>)
    returns (rs: seq<GValue>)
    requires Inlined(i) && n > 0 && m > 0 && Same(i, Closure(c, e), Closure(c', f)) && AllSame(i, vs, ws)
    requires if mode.up then n <= m else n >= 2 * m
    requires c in i.g && i.g[c].Kproc? && i.g[c].body in i.g && ArityOk(|i.g[c].params|, i.g[c].restParam.Some?, |vs|)
    requires AllExpected(i, mode.strict, VisitsApply(n, i.g, i.gr, Closure(c, e), vs))
    ensures Meets(i, mode, Plain, m, Apply(n, i.g, i.gr, Closure(c, e), vs), Apply(m, i.h, i.hr, Closure(c', f), ws), map[], map[], rs)
    decreases n - 1, i.gr(i.g[c].body), 4
  {
    hide Copied, EnvSame, AllSame, Same, Edge, Renames, OldNames, Meets;
    ClosureParts(i, c, c', e, f);
    CodeAt(i, c, c');
    var body, body', w := i.g[c].body, i.h[c'].body, CodeView(i, c');
    var req, rest := |i.g[c].params|, i.g[c].restParam.Some?;
    SameLength(i, vs, ws);
    ReceivedSame(i, req, rest, vs, ws);
    var f';
    f', rs := SimRun(i, mode, w, n - 1, m - 1, body, body', e, f, Received(req, rest, vs), Received(req, rest, ws));
    Returned(i, mode, w, m - 1, m, Apply(n, i.g, i.gr, Closure(c, e), vs), Apply(m, i.h, i.hr, Closure(c', f), ws), f, f', rs);
  }

  lemma ClosureParts(i: Site, c: Label, c': Label, e: GEnv, f: GEnv)
    requires Same(i, Closure(c, e), Closure(c', f))
    ensures StandsFor(i, c, c') && EnvSame(i, CodeView(i, c'), e, f)
  {
  }

  lemma Returned(i: Site, mode: Mode, w: View, m: nat, m1: nat, a: Outcome, b: Outcome, f: GEnv, f': GEnv, rs: seq<GValue>)
    requires Calls(i) && Ranked(i.h, i.hr) && Meets(i, mode, w, m, a, b, f, f', rs) && !(w.Copy? && w.own)
    ensures Meets(i, mode, Plain, m1, a, b, map[], map[], rs)
  {
  }

  /** What is known of the procedure where it is called. */
  ghost predicate Made(i: Site, e: GEnv, cenv: GEnv)
    requires Calls(i)
  {
    && OldNames(i, e) && Lookup(e, i.g[i.at].term.expr.proc) == Some(Closure(i.code, cenv))
    && forall y :: y in cenv ==> y in e && e[y] == cenv[y] && y !in i.ren
  }

  lemma MadeAt(i: Site, strict: bool, n: nat, e: GEnv) returns (cenv: GEnv)
    requires Inlined(i) && AllExpected(i, strict, VisitsTerm(n, i.g, i.gr, i.at, e))
    ensures Lookup(e, i.g[i.at].term.expr.proc).Some? ==> Made(i, e, cenv)
  {
    assert (i.at, e) in VisitsTerm(n, i.g, i.gr, i.at, e);
    assert Expected(i, (i.at, e));
    var x := i.g[i.at].term.expr.proc;
    cenv := if x in e then e[x].env else map[];
  }

  /** The call that was inlined: the arguments are bound one by one, the body runs and
      goes on where the call would have gone on. */
  lemma {:induction false} SimSite(i: Site, mode: Mode, n: nat, m: nat, e: GEnv, f: GEnv)
    returns (f': GEnv, rs: seq<GValue>)
    requires Inlined(i) && EnvSame(i, Plain, e, f) && Depths(mode.up, Plain, n, m)
    requires AllExpected(i, mode.strict, VisitsTerm(n, i.g, i.gr, i.at, e))
    ensures Meets(i, mode, Plain, m, RunTerm(n, i.g, i.gr, i.at, e), RunTerm(m, i.h, i.hr, i.at, f), f, f', rs)
    decreases n, i.gr(i.at), 0
  {
    hide Copied, EnvSame, AllSame, Same, Edge, Renames, OldNames, Made, Keeps;
    f', rs := f, [];
    var cenv := MadeAt(i, mode.strict, n, e);
    var args, next := i.g[i.at].term.expr.args, i.g[i.at].term.k;
    assert next in Succs(i.g[i.at]);
    var vs := LookupAll(e, args);
    if Lookup(e, i.g[i.at].term.expr.proc).None? {
      if mode.strict {
        AllRead(i, n, i.at, e);
      } else {
        StuckMeets(i, mode, Plain, m, RunTerm(m, i.h, i.hr, i.at, f), f, f', rs);
      }
      return;
    }
    MadeIs(i, e, cenv);
    if mode.strict {
      SiteFits(i, n, e, cenv);
    }
    if vs.Some? && |args| == |i.g[i.code].params| && n > 0 {
      var fn := Closure(i.code, cenv);
      var f1, ps := SiteBody(i, mode, n, m, e, f, cenv, vs.value);
      var a := Apply(n, i.g, i.gr, fn, vs.value);
      var b := RunTerm(m, i.h, i.hr, i.at, f);
      if Matches(i, Copy(true, i.met), m, a, b, f, f1, ps) {
        f', rs := SiteReturns(i, mode, n, m, e, f, f1, a.vs, ps);
      }
    }
  }

  /** Where errors are compared the call has its arguments, and its one value is received. */
  lemma SiteFits(i: Site, n: nat, e: GEnv, cenv: GEnv)
    requires Inlined(i) && AllExpected(i, true, VisitsTerm(n, i.g, i.gr, i.at, e))
    ensures LookupAll(e, i.g[i.at].term.expr.args).Some? && |i.g[i.at].term.expr.args| == |i.g[i.code].params|
    ensures i.g[i.g[i.at].term.k].Kreceive? ==> |i.g[i.g[i.at].term.k].req| == 1
    ensures forall vs :: IsOne(Apply(n, i.g, i.gr, Closure(i.code, cenv), vs))
  {
    assert (i.at, e) in VisitsTerm(n, i.g, i.gr, i.at, e);
    AllRead(i, n, i.at, e);
    assert Fits(i, (i.at, e));
    forall vs
      ensures IsOne(Apply(n, i.g, i.gr, Closure(i.code, cenv), vs))
    {
      OneValueApply(n, i.g, i.gr, Closure(i.code, cenv), vs);
    }
  }

  lemma MadeIs(i: Site, e: GEnv, cenv: GEnv)
    requires Calls(i) && Made(i, e, cenv)
    ensures Lookup(e, i.g[i.at].term.expr.proc) == Some(Closure(i.code, cenv)) && OldNames(i, e)
  {
  }

  lemma SiteEnv(i: Site, e: GEnv, f: GEnv, cenv: GEnv)
    requires Calls(i) && EnvSame(i, Plain, e, f) && Made(i, e, cenv)
    ensures EnvSame(i, Copy(true, i.met), cenv, f)
  {
    hide Same;
  }

  lemma SiteVars(i: Site)
    requires Inlined(i)
    ensures var vars := i.g[i.g[i.code].body].vars;
      && Met(i, Copy(true, i.met), vars)
      && OneByOne(i.h, i.at, Images(i, Copy(true, i.met), vars), i.g[i.at].term.expr.args, i.last)
    ensures TermCopy(i, Copy(true, i.met), i.g[i.g[i.code].body].term, i.h[i.last].term)
  {
  }

  lemma NewNames(i: Site, e: GEnv, vars: seq<Name>, args: seq<Name>)
    requires Renames(i) && Met(i, Copy(true, i.met), vars) && OldNames(i, e) && LookupAll(e, args).Some?
    ensures forall x :: x in Images(i, Copy(true, i.met), vars) ==> x !in args
  {
    var xs := Images(i, Copy(true, i.met), vars);
    ArgsOld(i, e, args);
    forall x | x in xs
      ensures x !in args
    {
      var j :| 0 <= j < |xs| && xs[j] == x;
      assert vars[j] in vars && x == i.ren[vars[j]];
    }
  }

  /** Arguments are bound to names that are not among them. */
  lemma SiteBinds(i: Site, m: nat, e: GEnv, f: GEnv, cenv: GEnv, vs: seq<GValue>) returns (f1: GEnv)
    requires Inlined(i) && EnvSame(i, Plain, e, f) && Made(i, e, cenv)
    requires LookupAll(e, i.g[i.at].term.expr.args) == Some(vs) && |vs| == |i.g[i.code].params|
    requires OldNames(i, Bind(cenv, i.g[i.g[i.code].body].vars, vs))
    ensures RunTerm(m, i.h, i.hr, i.at, f) == RunTerm(m, i.h, i.hr, i.last, f1)
    ensures EnvSame(i, Copy(true, i.met), Bind(cenv, i.g[i.g[i.code].body].vars, vs), f1) && Keeps(i, f, f1)
  {
    hide Copied, EnvSame, AllSame, Same, Edge, Renames, OldNames, Keeps;
    var args, vars, v := i.g[i.at].term.expr.args, i.g[i.g[i.code].body].vars, Copy(true, i.met);
    LookupAllSame(i, Plain, e, f, args);
    var ws := LookupAll(f, args).value;
    var xs := Images(i, v, vars);
    SiteEnv(i, e, f, cenv);
    SiteVars(i);
    BindSame(i, v, cenv, f, vars, vs, ws);
    NoPrims(i, Plain, e, f);
    SameLength(i, vs, ws);
    BindKeeps(i, i.met, f, vars, ws);
    NewNames(i, e, vars, args);
    f1 := Bind(f, xs, ws);
    ChainBinds(m, i.h, i.hr, i.at, xs, args, i.last, f, ws);
  }

  lemma {:induction false} ArgsOld(i: Site, e: GEnv, args: seq<Name>)
    requires OldNames(i, e) && LookupAll(e, args).Some?
    ensures forall x :: x in args ==> Old(x, i.mark)
    decreases args
  {
    if args != [] {
      ArgsOld(i, e, args[1..]);
    }
  }

  lemma {:induction false} SiteBody(i: Site, mode: Mode, n: nat, m: nat, e: GEnv, f: GEnv, cenv: GEnv, vs: seq<GValue>)
    returns (f': GEnv, rs: seq<GValue>)
    requires Inlined(i) && EnvSame(i, Plain, e, f) && Depths(mode.up, Plain, n, m) && Made(i, e, cenv) && n > 0
    requires LookupAll(e, i.g[i.at].term.expr.args) == Some(vs) && |vs| == |i.g[i.code].params|
    requires AllExpected(i, mode.strict, VisitsApply(n, i.g, i.gr, Closure(i.code, cenv), vs))
    ensures Meets(i, mode, Copy(true, i.met), m, Apply(n, i.g, i.gr, Closure(i.code, cenv), vs),
                  RunTerm(m, i.h, i.hr, i.at, f), f, f', rs)
    decreases n - 1, i.gr(i.g[i.code].body), 4
  {
    hide Copied, EnvSame, AllSame, Same, Edge, Renames, OldNames, Keeps, Made, Meets;
    var body, v := i.g[i.code].body, Copy(true, i.met);
    var e1 := Bind(cenv, i.g[body].vars, vs);
    assert Received(|i.g[i.code].params|, false, vs) == vs;
    assert VisitsTerm(n - 1, i.g, i.gr, body, e1) == VisitsApply(n, i.g, i.gr, Closure(i.code, cenv), vs);
    assert (body, e1) in VisitsTerm(n - 1, i.g, i.gr, body, e1);
    VisitOld(i, mode.strict, VisitsApply(n, i.g, i.gr, Closure(i.code, cenv), vs), body, e1);
    var f1 := SiteBinds(i, m, e, f, cenv, vs);
    SiteVars(i);
    f', rs := SimTerm(i, mode, v, n - 1, m, body, i.last, e1, f1);
    KeepsOn(i, mode, v, v, m, RunTerm(n - 1, i.g, i.gr, body, e1), RunTerm(m, i.h, i.hr, i.at, f), f, f1, f', rs);
  }

  lemma {:induction false} SiteReturns(i: Site, mode: Mode, n: nat, m: nat, e: GEnv, f: GEnv, f1: GEnv, vs: seq<GValue>, ws: seq<GValue>)
    returns (f': GEnv, rs: seq<GValue>)
    requires Inlined(i) && EnvSame(i, Plain, e, f) && Keeps(i, f, f1) && OldNames(i, e) && AllSame(i, vs, ws)
    requires Depths(mode.up, Plain, n, m) && Return(i) in i.h
    requires AllExpected(i, mode.strict, Visits(n, i.g, i.gr, i.g[i.at].term.k, e, vs))
    requires mode.strict ==> |vs| == 1 && (i.g[i.g[i.at].term.k].Kreceive? ==> |i.g[i.g[i.at].term.k].req| == 1)
    ensures Meets(i, mode, Plain, m, Run(n, i.g, i.gr, i.g[i.at].term.k, e, vs), Run(m, i.h, i.hr, Return(i), f1, ws), f, f', rs)
    decreases n, i.gr(i.g[i.at].term.k), 4
  {
    hide Copied, EnvSame, AllSame, Same, Renames, OldNames, Keeps;
    f', rs := f, [];
    var k := i.g[i.at].term.k;
    KeepsSame(i, e, f, f1);
    if i.g[k].Kreceive? {
      assert Return(i) in Succs(i.g[k]);
      if |i.g[k].req| == |vs| {
        f', rs := SimRun(i, mode, Plain, n, m, Return(i), Return(i), e, f1, vs, ws);
      }
    } else {
      f', rs := SimRun(i, mode, Plain, n, m, k, k, e, f1, vs, ws);
    }
  }
}
