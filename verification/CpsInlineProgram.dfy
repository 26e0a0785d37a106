/** Inlining in translated programs whose lambdas bind different identifiers. */
module CpsInlineProgram {
  import opened Wrappers
  import opened CpsValues
  import opened CpsLang
  import opened CpsTranslate
  import opened CpsCorrect
  import opened CpsTranslator
  import opened CpsConst
  import opened CpsCollect
  import opened CpsFolding
  import opened CpsProgram
  import opened CpsBinders
  import opened CpsScope
  import CpsInline
  import CpsInlineInfo
  import CpsCopies
  import CpsInliner

  /** A translated program numbered up to `n`, with the information collected from its
      entry. */
  ghost predicate Collected(g: Graph, form: Form, n: nat, s: VarInfo) {
    && Program(g, form) && TempsDistinct(g) && Below(g, n) && Unique(form) && Users(g, Entry(form, 1)) == {}
    && Acyclic(g, Deep(g)) && s == Info(g, Deep(g), map[], None, Entry(form, 1), [])
  }

  /** The operator of the call at `at` is on record with the procedure `code` only, and
      there is an argument for every parameter. */
  predicate Candidate(g: Graph, s: VarInfo, at: Label, code: Label) {
    && at in g && g[at].Kargs? && g[at].term.Continue? && g[at].term.expr.ECall? && at in s
    && Known(s[at], g[at].term.expr.proc) && AllProc(s[at][g[at].term.expr.proc], code)
    && code in g && g[code].Kproc? && g[code].restParam.None? && |g[code].params| <= |g[at].term.expr.args|
  }

  lemma ProgramTame(g: Graph, k: Label)
    requires CpsTranslator.Closed(g) && k in g
    ensures Tame(g, k)
  {
    assert Grounded(g, k);
  }

  // ------------------------------------------------------- what is on record

  /** A variable on record somewhere was bound on the way there. */
  lemma RecordBound(g: Graph, k: Label, l: Label, x: Name) returns (b: Label)
    requires Acyclic(g, Deep(g)) && k in g && l in Info(g, Deep(g), map[], None, k, [])
    requires Known(Info(g, Deep(g), map[], None, k, [])[l], x)
    ensures b in Reach(g, Deep(g), k) && b in g && l in Reach(g, Deep(g), b) && BindsHere(g[b], x)
  {
    var deep, t := Deep(g), Info(g, Deep(g), map[], None, k, [])[l];
    assert t[x][0] in t[x];
    if b' :| b' in Reach(g, deep, k) && b' in g && l in Reach(g, deep, b') && BindsHere(g[b'], x) {
      b := b';
    } else {
      b := k;
      var ok: Records := (y: Name, o: Option<Expr>) => y != x;
      NamesAllowed(g, deep, k, l, ok);
      InfoOk(g, deep, map[], None, k, [], l, ok);
      assert false;
    }
  }

  /** A procedure on record is made somewhere in the program. */
  lemma RecordMade(g: Graph, k: Label, l: Label, x: Name, code: Label) returns (b: Label)
    requires Acyclic(g, Deep(g)) && k in g && l in Info(g, Deep(g), map[], None, k, [])
    requires Known(Info(g, Deep(g), map[], None, k, [])[l], x) && AllProc(Info(g, Deep(g), map[], None, k, [])[l][x], code)
    ensures b in Reach(g, Deep(g), k) && b in g && g[b].Kargs? && g[b].term.Continue? && g[b].term.expr == EProc(code)
  {
    var deep, t := Deep(g), Info(g, Deep(g), map[], None, k, [])[l];
    assert t[x][0] in t[x];
    if b' :| b' in Reach(g, deep, k) && b' in g && g[b'].Kargs? && g[b'].term.Continue? && g[b'].term.expr == EProc(code) {
      b := b';
    } else {
      b := k;
      var ok: Records := (y: Name, o: Option<Expr>) => o != Some(EProc(code));
      forall c | c in Reach(g, deep, k) && c in g && l in Reach(g, deep, c)
        ensures AllowedAt(g, deep, c, l, ok)
      {
        if g[c].Kargs? && g[c].term.Continue? {
          OnwardReach(g, deep, c, g[c].term.k);
          AnyArrives(g, deep, g[c].term.k, l, g[c].term.expr, ok);
          if g[c].term.expr.EProc? {
            OnwardReach(g, deep, c, g[c].term.expr.k);
            AnyArrives(g, deep, g[c].term.expr.k, l, g[c].term.expr, ok);
          }
        }
      }
      InfoOk(g, deep, map[], None, k, [], l, ok);
      assert false;
    }
  }

  /** What may be recorded with any variable may be recorded on arriving anywhere. */
  lemma {:induction false} AnyArrives(g: Graph, deep: Rank, k: Label, l: Label, e: Expr, ok: Records)
    requires Acyclic(g, deep) && k in g && forall x: Name :: ok(x, Some(e))
    ensures ArrivalOk(g, deep, k, l, e, ok)
    decreases deep(k)
  {
    if g[k].Kreceive? {
      OnwardReach(g, deep, k, g[k].k);
      AnyArrives(g, deep, g[k].k, l, e, ok);
    }
  }

  /** What a procedure's parameters are bound by is its body. */
  lemma BinderIs(g: Graph, form: Form, b: Label, x: Name) returns (l: Label)
    requires Program(g, form) && Acyclic(g, Deep(g)) && b in Reach(g, Deep(g), Entry(form, 1)) && b in g && BindsHere(g[b], x)
    ensures l in Reach(g, Deep(g), Entry(form, 1)) && BindsAt(g, l, x) && (l == b || (g[b].Kproc? && l == g[b].body))
  {
    ProgramWalkable(g, form);
    l := if g[b].Kproc? then g[b].body else b;
    if g[b].Kproc? {
      assert BodyAt(g, b) && Leads(g[b], l);
      LeadsReach(g, Deep(g), b, l);
      ReachOn(g, Deep(g), Entry(form, 1), b);
      assert l in Reach(g, Deep(g), l);
    }
  }

  /** What is bound further on is not on record yet. */
  lemma NotYetBound(g: Graph, form: Form, n: nat, s: VarInfo, l: Label, next: Label, x: Name)
    requires Collected(g, form, n, s) && l in s && l in g && g[l].Kargs?
    requires next in Reach(g, Deep(g), l) && BindsAt(g, next, x) && next != l
    ensures !Known(s[l], x)
  {
    var entry, deep := Entry(form, 1), Deep(g);
    InfoReach(g, deep, map[], None, entry, [], l);
    ReachOn(g, deep, entry, l);
    ReachBelow(g, deep, l, next);
    if Known(s[l], x) {
      var b := RecordBound(g, entry, l, x);
      var m := BinderIs(g, form, b, x);
      ProgramBoundOnce(g, form);
      assert m == next;
      ReachBelow(g, deep, b, l);
      if b != m {
        BodyHolds(g, b, l);
        ReachBelow(g, deep, m, l);
      }
      assert false;
    }
  }

  lemma BodyHolds(g: Graph, b: Label, l: Label)
    requires Acyclic(g, Deep(g)) && b in g && g[b].Kproc? && l in Reach(g, Deep(g), b) && l in g && g[l].Kargs?
    ensures g[b].body in g && l in Reach(g, Deep(g), g[b].body)
  {
    assert Leads(g[b], g[b].body);
  }

  lemma {:induction false} ProgramNewAt(g: Graph, form: Form, n: nat, s: VarInfo, l: Label, m: Label)
    requires Collected(g, form, n, s) && l in s && l in g && g[l].Kargs? && m in g && m in Reach(g, Deep(g), l) && m != l
    requires Ranked(g, BY_LABEL)
    ensures NewAt(g, BY_LABEL, s[l], m)
    decreases m
  {
    hide Collected;
    match g[m]
    case Kargs(vars, _) =>
      forall x | x in vars
        ensures !Known(s[l], x)
      {
        assert BindsAt(g, m, x);
        NotYetBound(g, form, n, s, l, m, x);
      }
    case Kreceive(_, _, next) =>
      CollectedAcyclic(g, form, n, s);
      assert next in Succs(g[m]);
      ReachFurther(g, l, m, next);
      hide Reach, Acyclic, Program;
      ProgramNewAt(g, form, n, s, l, next);
    case _ =>
  }

  lemma ReachFurther(g: Graph, l: Label, m: Label, next: Label)
    requires Acyclic(g, Deep(g)) && l in g && m in g && m in Reach(g, Deep(g), l) && Leads(g[m], next)
    ensures next in g && next in Reach(g, Deep(g), l) && next != l
  {
    LeadsReach(g, Deep(g), m, next);
    ReachOn(g, Deep(g), l, m);
    assert next in Reach(g, Deep(g), next);
    ReachBelow(g, Deep(g), l, m);
  }

  lemma CollectedAcyclic(g: Graph, form: Form, n: nat, s: VarInfo)
    requires Collected(g, form, n, s)
    ensures Acyclic(g, Deep(g)) && Ranked(g, BY_LABEL) && Program(g, form)
  {
  }

  lemma ProgramNewFrom(g: Graph, form: Form, n: nat, s: VarInfo, l: Label)
    requires Collected(g, form, n, s) && l in s && Ranked(g, BY_LABEL)
    ensures NewFrom(g, BY_LABEL, s, l)
  {
    CollectedAcyclic(g, form, n, s);
    if l in g && g[l].Kargs? {
      hide Collected, Acyclic, Info;
      match g[l].term
      case Branch(_, kt, kf) =>
        ReachNext(g, l, kt);
        ReachNext(g, l, kf);
        ProgramNewAt(g, form, n, s, l, kt);
        ProgramNewAt(g, form, n, s, l, kf);
      case Continue(next, e) =>
        ReachNext(g, l, next);
        ProgramNewAt(g, form, n, s, l, next);
        if e.EProc? {
          ProgramNewIn(g, form, n, s, l, e.k);
        }
    }
  }

  lemma ReachNext(g: Graph, l: Label, next: Label)
    requires Acyclic(g, Deep(g)) && l in g && Leads(g[l], next)
    ensures next in g && next in Reach(g, Deep(g), l) && next != l
  {
    LeadsReach(g, Deep(g), l, next);
    assert next in Reach(g, Deep(g), next);
  }

  lemma ProgramNewIn(g: Graph, form: Form, n: nat, s: VarInfo, l: Label, code: Label)
    requires Collected(g, form, n, s) && l in s && l in g && g[l].Kargs? && Leads(g[l], code)
    ensures NewIn(g, s[l], code)
  {
    CollectedAcyclic(g, form, n, s);
    ReachNext(g, l, code);
    if code in g && g[code].Kproc? {
      ProgramReached(g, form, n, s, l);
      ReachOn(g, Deep(g), Entry(form, 1), l);
      ReachNext(g, code, g[code].body);
      ReachOn(g, Deep(g), l, code);
      ReachBelow(g, Deep(g), l, code);
      hide Collected, Info;
      forall x | x in Names(g[code])
        ensures !Known(s[l], x)
      {
        var m := BinderIs(g, form, code, x);
        NotYetBound(g, form, n, s, l, m, x);
      }
    }
  }

  lemma ProgramReached(g: Graph, form: Form, n: nat, s: VarInfo, l: Label)
    requires Collected(g, form, n, s) && l in s
    ensures l in Reach(g, Deep(g), Entry(form, 1)) && Entry(form, 1) in g && Acyclic(g, Deep(g))
  {
    InfoReach(g, Deep(g), map[], None, Entry(form, 1), [], l);
  }

  /** No run of the program binds a variable that is bound already. */
  lemma ProgramScoped(g: Graph, form: Form, n: nat, s: VarInfo)
    requires Collected(g, form, n, s)
    ensures Scoped(g, BY_LABEL, s)
  {
    CollectedAcyclic(g, form, n, s);
    ProgramInformed(g, form, s);
    hide Info, Acyclic, Consistent, NewFrom, Tame, Collected;
    forall k | k in g
      ensures Tame(g, k)
    {
      ProgramTame(g, k);
    }
    forall l | l in s
      ensures NewFrom(g, BY_LABEL, s, l)
    {
      ProgramNewFrom(g, form, n, s, l);
    }
  }

  /** Everything on record was bound by the translated program. */
  lemma ProgramOld(g: Graph, form: Form, n: nat, s: VarInfo, l: Label, x: Name)
    requires Collected(g, form, n, s) && l in s && Known(s[l], x)
    ensures CpsInline.Old(x, n) && !PrimNamed(x)
  {
    ProgramInformed(g, form, s);
    var b := RecordBound(g, Entry(form, 1), l, x);
    var m := BinderIs(g, form, b, x);
    if x.Temp? {
      assert BindsTemp(g, m, x.id);
    }
  }

  // ------------------------------------------------------------------ inlining

  /** The procedure of such a call can be copied. */
  lemma ProgramInlinable(g: Graph, form: Form, n: nat, s: VarInfo, at: Label, code: Label)
    requires Collected(g, form, n, s) && Candidate(g, s, at, code)
    ensures CpsInliner.Inlinable(g, BY_LABEL, Deep(g), at, code, n)
  {
    CollectedAcyclic(g, form, n, s);
    ProgramWalkable(g, form);
    var entry, deep := Entry(form, 1), Deep(g);
    var b := RecordMade(g, entry, at, g[at].term.expr.proc, code);
    ReachNext(g, b, code);
    ReachOn(g, deep, entry, b);
    ReachOn(g, deep, entry, code);
    assert BodyAt(g, code);
    var body := g[code].body;
    assert Leads(g[code], body);
    LeadsReach(g, deep, code, body);
    ProgramReached(g, form, n, s, at);
    forall k | k in g
      ensures Tame(g, k)
    {
      ProgramTame(g, k);
    }
    forall l | l in Reach(g, deep, body)
      ensures CpsInliner.ClearAt(g, l)
    {
      assert NamedAt(g, l);
    }
    ReceiversPlain(g, form, at);
  }

  lemma ReceiversPlain(g: Graph, form: Form, at: Label)
    requires Program(g, form) && Acyclic(g, Deep(g)) && at in Reach(g, Deep(g), Entry(form, 1)) && at in g
    requires g[at].Kargs? && g[at].term.Continue?
    ensures g[at].term.k in g && (g[g[at].term.k].Kreceive? ==> g[g[at].term.k].rest.None?)
  {
    ProgramWalkable(g, form);
    ReachNext(g, at, g[at].term.k);
    ReachOn(g, Deep(g), Entry(form, 1), at);
    assert PlainAt(g, g[at].term.k);
  }

  /** All the pass knows of the inlined call. */
  lemma ProgramInformedSite(g: Graph, form: Form, n: nat, s: VarInfo, at: Label, code: Label, i: CpsInline.Site)
    requires Collected(g, form, n, s) && Candidate(g, s, at, code)
    requires CpsInliner.InlinedFrom(i, g, BY_LABEL, Deep(g), at, code, n)
    ensures CpsInlineInfo.Informed(i, s, Deep(g))
  {
    hide Collected, Scoped, CpsInline.Inlined, CpsCopies.RenamesBody, Acyclic, Program;
    ProgramScoped(g, form, n, s);
    forall l, x | l in s && Known(s[l], x)
      ensures CpsInline.Old(x, n) && !PrimNamed(x)
    {
      ProgramOld(g, form, n, s, l, x);
    }
    InlinedShape(i);
  }

  lemma InlinedShape(i: CpsInline.Site)
    requires CpsInline.Inlined(i)
    ensures CpsInline.Calls(i)
  {
  }

  /** The translated program makes an error or delivers a datum when the source does. */
  lemma SourceOutcome(g: Graph, form: Form, fuel: nat, d: Datum)
    requires Program(g, form) && Ranked(g, BY_LABEL)
    ensures var a := RunTerm(fuel, g, BY_LABEL, Entry(form, 1), map[]);
      && (Eval(fuel, map[], form) == SDone(Embed(d)) <==> a == Done([Embed<Name, Label>(d)]))
      && (a.Stuck? ==> Eval(fuel, map[], form).SStuck?)
  {
    SameDatum(fuel, g, form, 0, 1, map[], map[], d);
    var gv := TranslationCorrect(fuel, g, form, 0, 1, map[], map[]);
  }

  /** Inlining keeps the data a program delivers, and adds none unless it is stuck. */
  lemma InlinedOutcome(i: CpsInline.Site, s: VarInfo, deep: Rank, k: Label, fuel: nat, v: GValue)
    requires CpsInlineInfo.Informed(i, s, deep) && CpsInline.Shape(i) && IsData(v)
    requires k in i.g && i.g[k].Kargs? && k in s && k in i.h && i.h[k].Kargs?
    ensures var out := RunTerm(fuel, i.h, i.hr, k, map[]) == Done([v]);
      && (RunTerm(fuel, i.g, i.gr, k, map[]) == Done([v]) ==> out)
      && (out ==> RunTerm(2 * fuel + 1, i.g, i.gr, k, map[]) in {Stuck, Done([v])})
  {
    CpsInlineInfo.InlineKeeps(i, s, deep, fuel, k);
    hide CpsInlineInfo.Informed, CpsInline.Same, RunTerm;
    var a, a', b := RunTerm(fuel, i.g, i.gr, k, map[]), RunTerm(2 * fuel + 1, i.g, i.gr, k, map[]), RunTerm(fuel, i.h, i.hr, k, map[]);
    if a == Done([v]) {
      CpsInline.SameData(i, v, b.vs[0]);
      assert b.vs == [v];
    }
    if b == Done([v]) && a'.Done? {
      CpsInlineInfo.DataAgain(i, a'.vs[0], v);
      assert a'.vs == [v];
    }
  }

  /** What a graph computes is what the source computes, at no greater depth of calls;
      it computes nothing else unless the source makes an error. */
  ghost predicate Computes(h: Graph, rank: Rank, form: Form, fuel: nat, d: Datum)
    requires Ranked(h, rank) && Entry(form, 1) in h && h[Entry(form, 1)].Kargs?
  {
    && (Eval(fuel, map[], form) == SDone(Embed(d)) ==> RunTerm(fuel, h, rank, Entry(form, 1), map[]) == Done([Embed<Name, Label>(d)]))
    && (RunTerm(fuel, h, rank, Entry(form, 1), map[]) == Done([Embed<Name, Label>(d)]) ==>
          Eval(2 * fuel + 1, map[], form) in {SStuck, SDone(Embed(d))})
  }

  lemma ProgramInlined(g: Graph, form: Form, n: nat, s: VarInfo, i: CpsInline.Site, fuel: nat, d: Datum)
    requires Collected(g, form, n, s) && CpsInlineInfo.Informed(i, s, Deep(g)) && i.g == g && i.gr == BY_LABEL
    requires CpsInline.Shape(i) && Entry(form, 1) in i.h && i.h[Entry(form, 1)].Kargs?
    ensures Computes(i.h, i.hr, form, fuel, d)
  {
    CollectedAcyclic(g, form, n, s);
    EntryInformed(g, form, n, s);
    EmbedData(d);
    hide Collected, CpsInlineInfo.Informed, Eval, RunTerm, Program, CpsInline.Shape;
    SourceOutcome(g, form, fuel, d);
    SourceOutcome(g, form, 2 * fuel + 1, d);
    InlinedOutcome(i, s, Deep(g), Entry(form, 1), fuel, Embed<Name, Label>(d));
  }

  lemma EntryInformed(g: Graph, form: Form, n: nat, s: VarInfo)
    requires Collected(g, form, n, s)
    ensures Entry(form, 1) in s && Entry(form, 1) in g && g[Entry(form, 1)].Kargs?
  {
    ProgramInformed(g, form, s);
  }

  /** Translating a program and collecting from its entry. */
  method CollectProgram(form: Form) returns (g: Graph, n: nat, s: VarInfo)
    requires NoPrimBound(form) && Unique(form)
    ensures Collected(g, form, n, s)
  {
    var t := new Translator();
    var entry := t.Translate(0, form);
    g, n := t.graph, t.counter;
    assert Program(g, form) by { OneTempNamed(g, entry, EntryTemp(form, 1)); }
    TempUsers(g, entry, EntryTemp(form, 1));
    ClosedAcyclic(g);
    ghost var deep := Deep(g);
    assert TempsDistinct(g) && Below(g, n);
    hide CpsTranslator.Closed, Code, Reach, Info, TempsDistinct, Below, Program;
    ProgramWalkable(g, form) by { ProgramParts(g, form); }
    s := CollectVarInfo(g, deep, map[], map[], None, entry, []);
  }

  lemma ProgramParts(g: Graph, form: Form)
    requires Program(g, form)
    ensures CpsTranslator.Closed(g) && Code(g, form, 0, 1) && 0 in g && g[0].Ktail? && NoPrimBound(form)
    ensures Entry(form, 1) in g && g[Entry(form, 1)].Kargs? && NamedAt(g, Entry(form, 1))
  {
  }

  lemma EntryKept(i: CpsInline.Site, g: Graph, form: Form, n: nat, s: VarInfo, at: Label, code: Label)
    requires Collected(g, form, n, s) && CpsInliner.InlinedFrom(i, g, BY_LABEL, Deep(g), at, code, n)
    ensures Ranked(i.h, i.hr) && Entry(form, 1) in i.h && i.h[Entry(form, 1)].Kargs? && CpsInline.Shape(i)
  {
    CollectedAcyclic(g, form, n, s);
    if Entry(form, 1) != at {
      CpsInline.PlainTerm(i, Entry(form, 1));
    }
  }
}
