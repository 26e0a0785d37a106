/** The information an inlined call is chosen by is enough for the run to be kept. */
module CpsInlineInfo {
  import opened CpsValues
  import opened CpsLang
  import opened CpsConst
  import opened CpsCollect
  import opened CpsReach
  import opened CpsScope
  import opened CpsInline
  import opened CpsInlineRun
  import opened CpsCopies

  /** The condition the pass inlines under: where the call is made its operator is on
      record with this procedure and nothing else. */
  ghost predicate Chosen(i: Site, s: VarInfo)
    requires Calls(i)
  {
    var x := i.g[i.at].term.expr.proc;
    i.at in s && Known(s[i.at], x) && AllProc(s[i.at][x], i.code)
  }

  /** Variables on record are older than the names made up for the copy. */
  ghost predicate OldRecords(i: Site, s: VarInfo) {
    forall l, x :: l in s && Known(s[l], x) ==> Old(x, i.mark) && !PrimNamed(x)
  }

  ghost predicate Informed(i: Site, s: VarInfo, deep: Rank) {
    && Inlined(i) && Scoped(i.g, i.gr, s) && Acyclic(i.g, deep)
    && Chosen(i, s) && OldRecords(i, s) && RenamesBody(i, deep)
  }

  lemma VisitExpected(i: Site, s: VarInfo, deep: Rank, visit: Visit)
    requires Informed(i, s, deep) && Here(i.g, s, visit.0, visit.1)
    ensures Expected(i, visit)
  {
    hide Inlined, Scoped, RenamesBody;
    var (l, env) := visit;
    assert OldNames(i, env);
    if l == i.at && Calls(i) {
      var x := i.g[i.at].term.expr.proc;
      if x in env {
        assert MadeHere(env, x, i.code) && ValueMade(i.g, s, env[x]);
        forall y | y in env[x].env
          ensures y !in i.ren
        {
          ClosureApart(i, s, deep, env[x].env, y);
        }
      }
    }
  }

  /** What the procedure's environment binds is bound nowhere in the procedure. */
  lemma ClosureApart(i: Site, s: VarInfo, deep: Rank, cenv: GEnv, y: Name)
    requires Informed(i, s, deep) && ValueMade(i.g, s, Closure(i.code, cenv)) && y in cenv
    ensures y !in i.ren
  {
    assert Calls(i);
    var t :| EnvMade(t, cenv) && Enters(i.g, s, t, i.code) && NewIn(i.g, t, i.code);
    assert Known(t, y);
    var body := i.g[i.code].body;
    assert Leads(i.g[i.code], body);
    forall l | l in Reach(i.g, deep, body)
      ensures NewThere(i.g, t, l)
    {
      EnterNew(i.g, i.gr, deep, s, t, t, i.code, l);
    }
  }

  ghost predicate AllFit(i: Site, visits: set<Visit>) {
    forall visit :: visit in visits ==> Fits(i, visit)
  }

  lemma AllVisitsExpected(i: Site, s: VarInfo, deep: Rank, n: nat, k: Label, strict: bool)
    requires Informed(i, s, deep) && k in i.g && i.g[k].Kargs? && k in s
    requires strict ==> AllFit(i, VisitsTerm(n, i.g, i.gr, k, map[]))
    ensures AllExpected(i, strict, VisitsTerm(n, i.g, i.gr, k, map[]))
  {
    MadeTerm(n, i.g, i.gr, s, k, map[]);
    hide Fits, Expected;
    forall visit | visit in VisitsTerm(n, i.g, i.gr, k, map[])
      ensures Expected(i, visit)
    {
      VisitExpected(i, s, deep, visit);
    }
  }

  lemma EntryPlain(i: Site, s: VarInfo, deep: Rank, k: Label)
    requires Informed(i, s, deep) && k in i.g && i.g[k].Kargs? && k in i.h && i.h[k].Kargs?
    ensures Inlined(i) && Calls(i) && Ranked(i.g, i.gr) && Ranked(i.h, i.hr)
    ensures k == i.at || TermCopy(i, Plain, i.g[k].term, i.h[k].term)
    ensures EnvSame(i, Plain, map[], map[])
  {
    if k != i.at {
      PlainTerm(i, k);
    }
  }

  /** From the start of a program: a run of the original that ends is matched by the
      rewritten graph at the same depth, and a run of the rewritten graph that ends is
      matched by the original at twice the depth, unless that is stuck. */
  lemma InlineKeeps(i: Site, s: VarInfo, deep: Rank, n: nat, k: Label)
    requires Informed(i, s, deep) && k in i.g && i.g[k].Kargs? && k in s && k in i.h && i.h[k].Kargs?
    ensures var a, b := RunTerm(n, i.g, i.gr, k, map[]), RunTerm(n, i.h, i.hr, k, map[]);
      a.Done? ==> b.Done? && AllSame(i, a.vs, b.vs)
    ensures var a, b := RunTerm(2 * n + 1, i.g, i.gr, k, map[]), RunTerm(n, i.h, i.hr, k, map[]);
      b.Timeout? || a.Stuck? || (a.Done? && b.Done? && AllSame(i, a.vs, b.vs))
  {
    EntryPlain(i, s, deep, k);
    hide Informed, VisitsTerm, RunTerm, Copied, Renames, TermCopy, EnvSame, AllSame;
    AllVisitsExpected(i, s, deep, n, k, false);
    AllVisitsExpected(i, s, deep, 2 * n + 1, k, false);
    var f1, rs1 := SimTerm(i, Mode(true, false), Plain, n, n, k, k, map[], map[]);
    var f2, rs2 := SimTerm(i, Mode(false, false), Plain, 2 * n + 1, n, k, k, map[], map[]);
  }

  /** Errors are kept as well, both ways, if what is read is bound and wherever the call is
      made it has one argument for every parameter. */
  lemma InlineFails(i: Site, s: VarInfo, deep: Rank, n: nat, k: Label)
    requires Informed(i, s, deep) && k in i.g && i.g[k].Kargs? && k in s && k in i.h && i.h[k].Kargs?
    ensures AllFit(i, VisitsTerm(n, i.g, i.gr, k, map[])) && RunTerm(n, i.g, i.gr, k, map[]).Stuck? ==>
      RunTerm(n, i.h, i.hr, k, map[]).Stuck?
    ensures AllFit(i, VisitsTerm(2 * n + 1, i.g, i.gr, k, map[])) && !RunTerm(n, i.h, i.hr, k, map[]).Timeout? ==>
      (RunTerm(2 * n + 1, i.g, i.gr, k, map[]).Stuck? <==> RunTerm(n, i.h, i.hr, k, map[]).Stuck?)
  {
    EntryPlain(i, s, deep, k);
    hide Informed, AllFit, VisitsTerm, RunTerm, Copied, Renames, TermCopy, EnvSame, AllSame;
    if AllFit(i, VisitsTerm(n, i.g, i.gr, k, map[])) {
      AllVisitsExpected(i, s, deep, n, k, true);
      var f1, rs1 := SimTerm(i, Mode(true, true), Plain, n, n, k, k, map[], map[]);
    }
    if AllFit(i, VisitsTerm(2 * n + 1, i.g, i.gr, k, map[])) {
      AllVisitsExpected(i, s, deep, 2 * n + 1, k, true);
      var f2, rs2 := SimTerm(i, Mode(false, true), Plain, 2 * n + 1, n, k, k, map[], map[]);
    }
  }

  ghost predicate Delivers(g: Graph, rank: Rank, k: Label, v: GValue)
    requires Ranked(g, rank) && k in g && g[k].Kargs?
  {
    exists n: nat :: RunTerm(n, g, rank, k, map[]) == Done([v])
  }

  ghost predicate NeverStuck(g: Graph, rank: Rank, k: Label)
    requires Ranked(g, rank) && k in g && g[k].Kargs?
  {
    forall n: nat :: RunTerm(n, g, rank, k, map[]) != Stuck
  }

  ghost predicate Fails(g: Graph, rank: Rank, k: Label)
    requires Ranked(g, rank) && k in g && g[k].Kargs?
  {
    exists n: nat :: RunTerm(n, g, rank, k, map[]) == Stuck
  }

  /** No run reads what is not bound or makes the call with too many arguments. */
  ghost predicate AlwaysFits(i: Site, k: Label)
    requires Ranked(i.g, i.gr) && k in i.g && i.g[k].Kargs?
  {
    forall n: nat :: AllFit(i, VisitsTerm(n, i.g, i.gr, k, map[]))
  }

  /** A program that makes no error delivers a datum exactly if it does so inlined; one
      whose calls fit does, and is an error exactly if it is inlined. */
  lemma InlineSame(i: Site, s: VarInfo, deep: Rank, k: Label, v: GValue)
    requires Informed(i, s, deep) && k in i.g && i.g[k].Kargs? && k in s && k in i.h && i.h[k].Kargs? && IsData(v)
    ensures Delivers(i.g, i.gr, k, v) ==> Delivers(i.h, i.hr, k, v)
    ensures NeverStuck(i.g, i.gr, k) || AlwaysFits(i, k) ==> (Delivers(i.g, i.gr, k, v) <==> Delivers(i.h, i.hr, k, v))
    ensures AlwaysFits(i, k) ==> (Fails(i.g, i.gr, k) <==> Fails(i.h, i.hr, k))
  {
    hide Copied, Renames, Scoped, RenamesBody, OldRecords, Chosen, RunTerm, Same, AllFit;
    if Delivers(i.g, i.gr, k, v) {
      var n: nat :| RunTerm(n, i.g, i.gr, k, map[]) == Done([v]);
      InlineKeeps(i, s, deep, n, k);
      var b := RunTerm(n, i.h, i.hr, k, map[]);
      SameData(i, v, b.vs[0]);
      assert b.vs == [v];
    }
    if (NeverStuck(i.g, i.gr, k) || AlwaysFits(i, k)) && Delivers(i.h, i.hr, k, v) {
      var n: nat :| RunTerm(n, i.h, i.hr, k, map[]) == Done([v]);
      InlineKeeps(i, s, deep, n, k);
      InlineFails(i, s, deep, n, k);
      var a := RunTerm(2 * n + 1, i.g, i.gr, k, map[]);
      DataAgain(i, a.vs[0], v);
      assert a.vs == [v];
    }
    if AlwaysFits(i, k) && Fails(i.g, i.gr, k) {
      var n: nat :| RunTerm(n, i.g, i.gr, k, map[]) == Stuck;
      InlineFails(i, s, deep, n, k);
    }
    if AlwaysFits(i, k) && Fails(i.h, i.hr, k) {
      var n: nat :| RunTerm(n, i.h, i.hr, k, map[]) == Stuck;
      InlineFails(i, s, deep, n, k);
    }
  }

  lemma {:induction false} DataAgain(i: Site, v: GValue, w: GValue)
    requires Same(i, v, w) && IsData(w)
    ensures v == w
  {
    if v.Pair? {
      DataAgain(i, v.car, w.car);
      DataAgain(i, v.cdr, w.cdr);
    }
  }
}
