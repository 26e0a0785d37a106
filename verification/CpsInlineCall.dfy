/** Inlining the one call of a procedure in a program: what it keeps, and the errors it
    can hide. */
module CpsInlineCall {
  import opened Wrappers
  import opened CpsValues
  import opened CpsLang
  import opened CpsTranslate
  import opened CpsCorrect
  import opened CpsTailCall
  import opened CpsTranslator
  import opened CpsConst
  import opened CpsCollect
  import opened CpsReach
  import opened CpsFolding
  import opened CpsProgram
  import opened CpsScope
  import opened CpsUsage
  import opened CpsLive
  import opened CpsShape
  import opened CpsInlineProgram
  import CpsInline
  import CpsInlineInfo
  import CpsInliner

  /** The call at `at` is one the pass inlines: the operator is called once and bound to
      the procedure `code`, which has an argument for every parameter. Surplus arguments
      are not looked at. */
  ghost predicate Guarded(g: Graph, form: Form, n: nat, s: VarInfo, at: Label, code: Label) {
    && Collected(g, form, n, s) && CalledOnce(g, Deep(g), Entry(form, 1), s, at, code)
    && code in g && g[code].Kproc? && g[code].restParam.None? && |g[code].params| <= |g[at].term.expr.args|
  }

  lemma GuardedCandidate(g: Graph, form: Form, n: nat, s: VarInfo, at: Label, code: Label)
    requires Guarded(g, form, n, s, at, code)
    ensures Candidate(g, s, at, code)
  {
    OnceOnly(g, Deep(g), Entry(form, 1), s, at, code);
  }

  // -------------------------------------------------------- surplus arguments

  predicate Surplus(g: Graph, at: Label, code: Label) {
    && at in g && g[at].Kargs? && g[at].term.Continue? && g[at].term.expr.ECall? && code in g && g[code].Kproc?
    && |g[code].params| < |g[at].term.expr.args|
  }

  /** The program comes by the call, and the call has surplus arguments. */
  ghost predicate Mistaken(fuel: nat, g: Graph, form: Form, at: Label, code: Label)
    requires Program(g, form)
  {
    Surplus(g, at, code) && exists visit :: visit in VisitsTerm(fuel, g, BY_LABEL, Entry(form, 1), map[]) && visit.0 == at
  }

  /** A call with surplus arguments is an error as it stands. */
  lemma SurplusFatal(g: Graph, form: Form, n: nat, s: VarInfo, at: Label, code: Label, env: GEnv)
    requires Collected(g, form, n, s) && Candidate(g, s, at, code) && Surplus(g, at, code) && Here(g, s, at, env)
    ensures Ranked(g, BY_LABEL) && Fatal(g, BY_LABEL, (at, env))
  {
    CollectedAcyclic(g, form, n, s);
    var x, args := g[at].term.expr.proc, g[at].term.expr.args;
    ProgramOld(g, form, n, s, at, x);
    assert x in env ==> MadeHere(env, x, code);
    hide Collected, Program, Ranked, EnvMade, ValuesMade, AllProc;
    forall m: nat
      ensures RunTerm(m, g, BY_LABEL, at, env) == Stuck
    {
      if x in env && LookupAll(env, args).Some? {
        assert Apply(m, g, BY_LABEL, env[x], LookupAll(env, args).value) == Stuck;
      }
    }
  }

  lemma MistakenStuck(fuel: nat, g: Graph, form: Form, n: nat, s: VarInfo, at: Label, code: Label)
    requires Collected(g, form, n, s) && Candidate(g, s, at, code) && Mistaken(fuel, g, form, at, code)
    ensures Ranked(g, BY_LABEL) && RunTerm(fuel, g, BY_LABEL, Entry(form, 1), map[]) == Stuck
  {
    CollectedAcyclic(g, form, n, s);
    ProgramScoped(g, form, n, s);
    EntryInformed(g, form, n, s);
    var entry := Entry(form, 1);
    var visits := VisitsTerm(fuel, g, BY_LABEL, entry, map[]);
    hide Collected, Candidate, Fatal, Scoped, VisitsTerm, RunTerm;
    MadeTerm(fuel, g, BY_LABEL, s, entry, map[]);
    var visit :| visit in visits && visit.0 == at;
    SurplusFatal(g, form, n, s, at, code, visit.1);
    assert visit == (at, visit.1);
    FatalTerm(fuel, g, BY_LABEL, entry, map[]);
  }

  // ------------------------------------------------------------------- errors

  /** Nothing but primitives is free. */
  predicate ClosedForm(f: Form) {
    forall x :: x in FreeIds(f) ==> IsPrim(x)
  }

  /** The program's run, at this depth of calls, reads nothing that is not bound. */
  ghost predicate ReadsOnlyBound(fuel: nat, g: Graph, form: Form)
    requires Program(g, form)
  {
    forall visit {:trigger visit in VisitsTerm(fuel, g, BY_LABEL, Entry(form, 1), map[])} ::
      visit in VisitsTerm(fuel, g, BY_LABEL, Entry(form, 1), map[]) && visit.0 in g && g[visit.0].Kargs? ==>
        forall x :: x in Reads(g[visit.0].term) ==> Lookup(visit.1, x).Some?
  }

  lemma ClosedReadsBound(fuel: nat, g: Graph, form: Form, n: nat, s: VarInfo)
    requires Collected(g, form, n, s) && ClosedForm(form) && Program(g, form)
    ensures ReadsOnlyBound(fuel, g, form)
  {
    CollectedAcyclic(g, form, n, s);
    hide Collected, ClosedForm, VisitsTerm;
    forall visit | visit in VisitsTerm(fuel, g, BY_LABEL, Entry(form, 1), map[])
      ensures visit.0 in g && g[visit.0].Kargs? && forall x :: x in Reads(g[visit.0].term) ==> Lookup(visit.1, x).Some?
    {
      ClosedReads(fuel, g, form, n, s, visit);
    }
  }

  /** What a closed program reads is bound. */
  lemma ClosedReads(fuel: nat, g: Graph, form: Form, n: nat, s: VarInfo, visit: Visit)
    requires Collected(g, form, n, s) && ClosedForm(form) && Ranked(g, BY_LABEL)
    requires visit in VisitsTerm(fuel, g, BY_LABEL, Entry(form, 1), map[])
    ensures visit.0 in g && g[visit.0].Kargs? && forall x :: x in Reads(g[visit.0].term) ==> Lookup(visit.1, x).Some?
  {
    CollectedAcyclic(g, form, n, s);
    var free := (y: Name) => PrimNamed(y);
    forall k | k in g
      ensures Tame(g, k)
    {
      ProgramTame(g, k);
    }
    forall y | y in NeedTerm(g, Deep(g), Entry(form, 1))
      ensures free(y)
    {
      ProgramWants(g, form, y);
    }
    hide Collected, Program, NeedTerm, Tame, Acyclic, VisitsTerm, FreeIds;
    forall x | visit.0 in g && g[visit.0].Kargs? && x in Reads(g[visit.0].term)
      ensures Lookup(visit.1, x).Some?
    {
      ReadsBound(fuel, g, BY_LABEL, Deep(g), free, Entry(form, 1), map[], visit, x);
    }
    ReadsBound(fuel, g, BY_LABEL, Deep(g), free, Entry(form, 1), map[], visit, Temp(0));
  }

  /** What follows a call takes its one value. */
  lemma CallReceived(g: Graph, form: Form, n: nat, s: VarInfo, at: Label)
    requires Collected(g, form, n, s) && at in s && at in g && g[at].Kargs? && g[at].term.Continue?
    ensures OneValued(g) && g[at].term.k in g && (g[g[at].term.k].Kreceive? ==> |g[g[at].term.k].req| == 1)
  {
    CollectedAcyclic(g, form, n, s);
    ProgramReached(g, form, n, s, at);
    ReachNext(g, at, g[at].term.k);
    ReachOn(g, Deep(g), Entry(form, 1), at);
    ProgramFormed(g, form, g[at].term.k);
    ClosedOneValued(g);
  }

  lemma ProgramFits(fuel: nat, g: Graph, form: Form, n: nat, s: VarInfo, at: Label, code: Label, i: CpsInline.Site)
    requires Collected(g, form, n, s) && Candidate(g, s, at, code) && Program(g, form) && ReadsOnlyBound(fuel, g, form)
    requires !Mistaken(fuel, g, form, at, code) && i.g == g && i.at == at && i.code == code && Ranked(g, BY_LABEL)
    ensures CpsInlineInfo.AllFit(i, VisitsTerm(fuel, g, BY_LABEL, Entry(form, 1), map[]))
  {
    CallReceived(g, form, n, s, at);
    hide Collected, OneValued, VisitsTerm, Ranked;
    forall visit | visit in VisitsTerm(fuel, g, BY_LABEL, Entry(form, 1), map[])
      ensures CpsInline.Fits(i, visit)
    {
    }
  }

  /** Errors of the source and of the graph with the call inlined: the source makes one
      where it comes by a call with surplus arguments; otherwise both do or neither, where
      nothing is read that is not bound. */
  ghost predicate FailsAlike(g: Graph, h: Graph, hr: Rank, form: Form, at: Label, code: Label, fuel: nat)
    requires Program(g, form) && Ranked(h, hr) && Entry(form, 1) in h && h[Entry(form, 1)].Kargs?
  {
    var b := RunTerm(fuel, h, hr, Entry(form, 1), map[]);
    && (Mistaken(fuel, g, form, at, code) ==> Eval(fuel, map[], form) == SStuck)
    && (!Mistaken(fuel, g, form, at, code) && ReadsOnlyBound(fuel, g, form) && Eval(fuel, map[], form) == SStuck ==> b == Stuck)
    && (!Mistaken(2 * fuel + 1, g, form, at, code) && ReadsOnlyBound(2 * fuel + 1, g, form) && b != Timeout ==>
          (Eval(2 * fuel + 1, map[], form) == SStuck <==> b == Stuck))
  }

  lemma SourceStuck(g: Graph, form: Form, fuel: nat)
    requires Program(g, form) && Ranked(g, BY_LABEL)
    ensures Eval(fuel, map[], form) == SStuck <==> RunTerm(fuel, g, BY_LABEL, Entry(form, 1), map[]) == Stuck
  {
    var gv := TranslationCorrect(fuel, g, form, 0, 1, map[], map[]);
  }

  /** The same of the two graphs, at any two depths. */
  ghost predicate ErrorsAlike(i: CpsInline.Site, form: Form, fuel: nat, more: nat)
    requires Program(i.g, form) && Ranked(i.g, i.gr) && i.gr == BY_LABEL && Ranked(i.h, i.hr)
    requires Entry(form, 1) in i.h && i.h[Entry(form, 1)].Kargs?
  {
    var k := Entry(form, 1);
    var a, c, b := RunTerm(fuel, i.g, BY_LABEL, k, map[]), RunTerm(more, i.g, BY_LABEL, k, map[]), RunTerm(fuel, i.h, i.hr, k, map[]);
    && (Mistaken(fuel, i.g, form, i.at, i.code) ==> a == Stuck)
    && (!Mistaken(fuel, i.g, form, i.at, i.code) && ReadsOnlyBound(fuel, i.g, form) && a == Stuck ==> b == Stuck)
    && (!Mistaken(more, i.g, form, i.at, i.code) && ReadsOnlyBound(more, i.g, form) && b != Timeout ==> (c == Stuck <==> b == Stuck))
  }

  lemma InlinedErrors(g: Graph, form: Form, n: nat, s: VarInfo, at: Label, code: Label, i: CpsInline.Site, fuel: nat)
    requires Collected(g, form, n, s) && Candidate(g, s, at, code)
    requires CpsInlineInfo.Informed(i, s, Deep(g)) && i.g == g && i.gr == BY_LABEL && i.at == at && i.code == code
    requires Program(g, form) && Ranked(g, BY_LABEL) && Ranked(i.h, i.hr) && Entry(form, 1) in i.h && i.h[Entry(form, 1)].Kargs?
    ensures ErrorsAlike(i, form, fuel, 2 * fuel + 1)
  {
    hide Collected, Candidate, RunTerm, VisitsTerm, Program, Ranked, CpsInlineInfo.Informed, Mistaken, ReadsOnlyBound, CpsInlineInfo.AllFit;
    EntryInformed(g, form, n, s);
    if Mistaken(fuel, g, form, at, code) {
      MistakenStuck(fuel, g, form, n, s, at, code);
    } else if ReadsOnlyBound(fuel, g, form) {
      ProgramFits(fuel, g, form, n, s, at, code, i);
    }
    if !Mistaken(2 * fuel + 1, g, form, at, code) && ReadsOnlyBound(2 * fuel + 1, g, form) {
      ProgramFits(2 * fuel + 1, g, form, n, s, at, code, i);
    }
    CpsInlineInfo.InlineFails(i, s, Deep(g), fuel, Entry(form, 1));
  }

  lemma InlinedFails(g: Graph, form: Form, n: nat, s: VarInfo, at: Label, code: Label, i: CpsInline.Site, fuel: nat)
    requires Collected(g, form, n, s) && Candidate(g, s, at, code)
    requires CpsInliner.InlinedFrom(i, g, BY_LABEL, Deep(g), at, code, n)
    requires Ranked(i.h, i.hr) && Entry(form, 1) in i.h && i.h[Entry(form, 1)].Kargs? && Program(g, form)
    ensures FailsAlike(g, i.h, i.hr, form, at, code, fuel)
  {
    CollectedAcyclic(g, form, n, s);
    ProgramInformedSite(g, form, n, s, at, code, i);
    hide Collected, Candidate, Eval, RunTerm, Program, Ranked, CpsInlineInfo.Informed, Mistaken, ReadsOnlyBound;
    InlinedErrors(g, form, n, s, at, code, i, fuel);
    SourceStuck(g, form, fuel);
    SourceStuck(g, form, 2 * fuel + 1);
  }

  // ------------------------------------------------------------------ the pass

  /** Inlining a procedure that is called once keeps what the program computes. Errors are
      kept too, but for those of surplus arguments, on runs that read nothing unbound; in a
      closed program those are all. */
  method InlineCall(g: Graph, n: nat, s: VarInfo, at: Label, code: Label, ghost form: Form)
    returns (h: Graph, ghost hr: Rank, ghost i: CpsInline.Site)
    requires Guarded(g, form, n, s, at, code)
    ensures CpsInliner.InlinedFrom(i, g, BY_LABEL, Deep(g), at, code, n) && i.h == h && i.hr == hr
    ensures Ranked(h, hr) && Entry(form, 1) in h && h[Entry(form, 1)].Kargs?
    ensures forall fuel: nat, d: Datum :: Computes(h, hr, form, fuel, d)
    ensures forall fuel: nat :: FailsAlike(g, h, hr, form, at, code, fuel)
    ensures ClosedForm(form) ==> forall fuel: nat :: ReadsOnlyBound(fuel, g, form)
  {
    hide ReadsOnlyBound, Guarded, Collected, Candidate, CpsInliner.Inlinable, CpsInliner.InlinedFrom, Computes, FailsAlike, ClosedForm, Program;
    GuardedParts(g, form, n, s, at, code);
    var inliner := new CpsInliner.Inliner(g, n);
    ProgramInlinable(g, form, n, s, at, code);
    i := inliner.InlineKproc(at, code, BY_LABEL, Deep(g));
    h := inliner.graph;
    hr := i.hr;
    InlinedComputes(g, form, n, s, at, code, i);
  }

  lemma GuardedParts(g: Graph, form: Form, n: nat, s: VarInfo, at: Label, code: Label)
    requires Guarded(g, form, n, s, at, code)
    ensures Collected(g, form, n, s) && Candidate(g, s, at, code) && Program(g, form)
  {
    GuardedCandidate(g, form, n, s, at, code);
  }

  lemma InlinedComputes(g: Graph, form: Form, n: nat, s: VarInfo, at: Label, code: Label, i: CpsInline.Site)
    requires Collected(g, form, n, s) && Candidate(g, s, at, code) && Program(g, form)
    requires CpsInliner.InlinedFrom(i, g, BY_LABEL, Deep(g), at, code, n)
    ensures Ranked(i.h, i.hr) && Entry(form, 1) in i.h && i.h[Entry(form, 1)].Kargs?
    ensures forall fuel: nat, d: Datum :: Computes(i.h, i.hr, form, fuel, d)
    ensures forall fuel: nat :: FailsAlike(g, i.h, i.hr, form, at, code, fuel)
    ensures ClosedForm(form) ==> forall fuel: nat :: ReadsOnlyBound(fuel, g, form)
  {
    EntryKept(i, g, form, n, s, at, code);
    ProgramInformedSite(g, form, n, s, at, code, i);
    hide Collected, Candidate, CpsInlineInfo.Informed, Computes, FailsAlike, ClosedForm, Program, ReadsOnlyBound;
    forall fuel: nat, d: Datum
      ensures Computes(i.h, i.hr, form, fuel, d)
    {
      ProgramInlined(g, form, n, s, i, fuel, d);
    }
    forall fuel: nat
      ensures FailsAlike(g, i.h, i.hr, form, at, code, fuel)
      ensures ClosedForm(form) ==> ReadsOnlyBound(fuel, g, form)
    {
      InlinedFails(g, form, n, s, at, code, i, fuel);
      if ClosedForm(form) {
        ClosedReadsBound(fuel, g, form, n, s);
      }
    }
  }

  // ------------------------------------------------------- an error that is lost

  /** `((lambda () d) e)`. */
  function SurplusCall(d: Datum, e: Datum): Form {
    Call(More(Lambda(Lam([], None, Last(Const(d)))), Last(Const(e))))
  }

  /** The graph of that call. */
  predicate SurplusGraph(g: Graph, d: Datum, e: Datum) {
    && {0, 3, 4, 6, 7, 8, 9, 11, 13} <= g.Keys
    && g[13].Kargs? && g[13].term == Continue(11, EConst(Embed(e)))
    && g[11] == Kargs([Temp(12)], Continue(6, EProc(8)))
    && g[8] == Kproc([], None, 7, 9) && g[9] == Kargs([], Continue(7, EConst(Embed(d)))) && g[7] == Ktail
    && g[6] == Kargs([Temp(5)], Continue(4, ECall(Temp(5), [Temp(12)])))
    && g[4] == Kreceive([Temp(1)], None, 3) && g[3] == Kargs([Temp(1)], Continue(0, EValues([Temp(1)]))) && g[0] == Ktail
  }

  lemma SurplusNumbers(g: Graph, d: Datum, e: Datum)
    requires Code(g, SurplusCall(d, e), 0, 1) && 0 in g && g[0] == Ktail
    ensures Entry(SurplusCall(d, e), 1) == 13 && SurplusGraph(g, d, e)
  {
    var lam := Lam([], None, Last(Const(d)));
    var last := Last(Const(e));
    var elems := More(Lambda(lam), last);
    assert SurplusCall(d, e) == Call(elems);
    assert NextBody(lam.body, 9) == 11 && EntryBody(lam.body, 9) == 9;
    assert Entry(Lambda(lam), 7) == 11 && EntryTemp(Lambda(lam), 7) == 12 && Next(Lambda(lam), 7) == 13;
    assert EntryElems(elems, 6, 7) == EntryElems(last, 11, 13) == 13;
    assert CodeElems(g, elems, 6, 5, 7) && Code(g, Lambda(lam), 6, 7) && CodeElems(g, last, 11, 12, 13) && Code(g, Const(e), 11, 13);
    assert CodeProc(g, lam, 7) && CodeBody(g, lam.body, 7, 9) && Code(g, Const(d), 7, 9);
    assert UserNames([]) == [] && UserNames(ParamNames([], None)) == [];
    var names := ElemNames(elems, 5, 7);
    assert ElemNames(last, 12, 13) == [Temp(12)];
    assert names == [Temp(5), Temp(12)];
    assert CallExpr(names) == ECall(Temp(5), [Temp(12)]) by {
      assert names[1..] == [Temp(12)];
    }
  }

  lemma SurplusUsage(g: Graph, d: Datum, e: Datum)
    requires SurplusGraph(g, d, e) && Acyclic(g, Deep(g))
    ensures Usage(g, Deep(g), 13, Temp(5)) == Tally(1, 0)
  {
    var deep, x := Deep(g), Temp(5);
    hide Usage, Acyclic, Deep;
    UsageEnds(g, deep, 0, x);
    UsageContinue(g, deep, 3, x);
    UsageOn(g, deep, 4, 3, x);
    UsageContinue(g, deep, 6, x);
    UsageEnds(g, deep, 7, x);
    UsageContinue(g, deep, 9, x);
    UsageOn(g, deep, 8, 9, x);
    UsageContinue(g, deep, 11, x);
    UsageContinue(g, deep, 13, x);
    assert Occurs([Temp(1)], x) == 0 && Occurs([Temp(12)], x) == 0;
  }

  lemma UsageEnds(g: Graph, deep: Rank, k: Label, x: Name)
    requires Acyclic(g, deep) && k in g && g[k] == Ktail
    ensures Usage(g, deep, k, x) == Tally(0, 0)
  {
  }

  /** What is on record where the walk has just arrived. */
  lemma RecordHere(g: Graph, deep: Rank, t: Table, e: Expr, k: Label, path: seq<nat>, x: Name)
    requires Acyclic(g, deep) && k in g && g[k].Kargs? && g[k].vars == [x] && g[k].term.Continue? && !g[k].term.expr.EProc?
    ensures var s := Info(g, deep, t, Some(e), k, path);
      k in s && Known(s[k], x) && s[k][x][0].binding == Some(e)
  {
    InfoIs(g, deep, t, Some(e), k, path);
    var u, next := Arrival(t, [x], Some(e), path + [k]), g[k].term.k;
    assert Leads(g[k], next);
    var after := Info(g, deep, u, Some(g[k].term.expr), next, path + [k, 0]);
    hide Info, Reach, Acyclic;
    if k in after {
      InfoReach(g, deep, u, Some(g[k].term.expr), next, path + [k, 0], k);
      OnwardReach(g, deep, k, next);
      ReachBelow(g, deep, next, k);
      assert false;
    }
  }

  lemma SurplusInfo(g: Graph, d: Datum, e: Datum)
    requires SurplusGraph(g, d, e) && Acyclic(g, Deep(g))
    ensures var s := Info(g, Deep(g), map[], None, 13, []);
      6 in s && Known(s[6], Temp(5)) && s[6][Temp(5)][0].binding == Some(EProc(8))
  {
    var deep := Deep(g);
    hide Info, InfoProc, Acyclic, Deep;
    InfoIs(g, deep, map[], None, 13, []);
    var u := Arrival(map[], g[13].vars, None, [] + [13]);
    InfoIs(g, deep, u, Some(g[13].term.expr), 11, [] + [13, 0]);
    var v := Arrival(u, [Temp(12)], Some(g[13].term.expr), [] + [13, 0] + [11]);
    RecordHere(g, deep, v, EProc(8), 6, [] + [13, 0] + [11, 0], Temp(5));
  }

  /** That call is one the pass inlines. */
  lemma SurplusGuarded(g: Graph, d: Datum, e: Datum, n: nat, s: VarInfo)
    requires Collected(g, SurplusCall(d, e), n, s)
    ensures Guarded(g, SurplusCall(d, e), n, s, 6, 8) && SurplusGraph(g, d, e) && Entry(SurplusCall(d, e), 1) == 13
  {
    CollectedAcyclic(g, SurplusCall(d, e), n, s);
    SurplusNumbers(g, d, e);
    SurplusUsage(g, d, e);
    SurplusInfo(g, d, e);
  }

  lemma SurplusRun(fuel: nat, h: Graph, hr: Rank, d: Datum, e: Datum)
    requires Ranked(h, hr) && {0, 3, 6, 11, 13} <= h.Keys && h[6].Kargs?
    requires h[13].Kargs? && h[13].term == Continue(11, EConst(Embed(e))) && h[11] == Kargs([Temp(12)], Continue(6, EProc(8)))
    requires h[6] == Kargs([Temp(5)], Continue(3, EConst(Embed(d))))
    requires h[3] == Kargs([Temp(1)], Continue(0, EValues([Temp(1)]))) && h[0] == Ktail
    ensures RunTerm(fuel, h, hr, 13, map[]) == Done([Embed<Name, Label>(d)])
  {
    var v: GValue, w: GValue := Embed(d), Embed(e);
    var env: GEnv := map[Temp(12) := w];
    BindOne(map[], Temp(12), w);
    assert RunTerm(fuel, h, hr, 13, map[]) == Run(fuel, h, hr, 11, map[], [w]) == RunTerm(fuel, h, hr, 11, env);
    var env1 := env[Temp(5) := Closure(8, env)];
    BindOne(env, Temp(5), Closure(8, env));
    assert RunTerm(fuel, h, hr, 11, env) == Run(fuel, h, hr, 6, env, [Closure(8, env)]) == RunTerm(fuel, h, hr, 6, env1);
    var env2 := env1[Temp(1) := v];
    BindOne(env1, Temp(1), v);
    LookupOne(env2, Temp(1));
    assert RunTerm(fuel, h, hr, 6, env1) == Run(fuel, h, hr, 3, env1, [v]) == RunTerm(fuel, h, hr, 3, env2);
    assert RunTerm(fuel, h, hr, 3, env2) == Run(fuel, h, hr, 0, env2, [v]);
  }

  lemma SurplusInlined(g: Graph, d: Datum, e: Datum, n: nat, i: CpsInline.Site)
    requires SurplusGraph(g, d, e) && CpsInliner.InlinedFrom(i, g, BY_LABEL, Deep(g), 6, 8, n)
    ensures {0, 3, 6, 11, 13} <= i.h.Keys && i.h[13] == g[13] && i.h[11] == g[11] && i.h[3] == g[3] && i.h[0] == g[0]
    ensures i.h[6] == Kargs([Temp(5)], Continue(3, EConst(Embed(d)))) && Ranked(i.h, i.hr)
  {
    hide Ranked, CpsInline.Renames, CpsInline.KontCopy, Tame, Acyclic;
    assert CpsInline.Binds(i);
    var v := CpsInline.Copy(true, i.met);
    assert CpsInline.Images(i, v, []) == [];
    assert i.last == 6;
    assert CpsInline.Edge(i, v, 7, i.h[6].term.k);
  }

  /** Inlining repairs `((lambda () d) e)`: the source is an error, the graph delivers `d`. */
  lemma SurplusRepaired(fuel: nat, g: Graph, d: Datum, e: Datum, n: nat, s: VarInfo, i: CpsInline.Site)
    requires Collected(g, SurplusCall(d, e), n, s) && CpsInliner.InlinedFrom(i, g, BY_LABEL, Deep(g), 6, 8, n)
    ensures Guarded(g, SurplusCall(d, e), n, s, 6, 8)
    ensures Eval(fuel, map[], SurplusCall(d, e)) == SStuck
    ensures Ranked(i.h, i.hr) && 13 in i.h && i.h[13].Kargs?
    ensures RunTerm(fuel, i.h, i.hr, Entry(SurplusCall(d, e), 1), map[]) == Done([Embed<Name, Label>(d)])
  {
    SurplusGuarded(g, d, e, n, s);
    SurplusInlined(g, d, e, n, i);
    hide Collected, Guarded, CpsInliner.InlinedFrom;
    SurplusRun(fuel, i.h, i.hr, d, e);
    SurplusSource(fuel, d, e);
  }

  lemma SurplusSource(fuel: nat, d: Datum, e: Datum)
    ensures Eval(fuel, map[], SurplusCall(d, e)) == SStuck
  {
    var lam := Lam([], None, Last(Const(d)));
    var elems := More(Lambda(lam), Last(Const(e)));
    assert EvalOperands(fuel, map[], elems.rest) == Operands([Some(Embed(e))]);
    assert EvalOperands(fuel, map[], elems) == Operands([Some(Closure(lam, map[])), Some(Embed(e))]);
    assert ReadVars(map[], elems.rest, [Some(Embed(e))]) == Some([Embed(e)]);
    var vals: seq<Option<SValue>> := [Some(Closure(lam, map[])), Some(Embed(e))];
    assert vals[1..] == [Some(Embed(e))];
    assert ReadVars(map[], elems, vals) == Some([Closure(lam, map[])] + [Embed(e)]);
  }
}
