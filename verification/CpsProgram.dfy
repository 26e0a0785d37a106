/** Translated programs meet what collecting, folding and inlining rely on. */
module CpsProgram {
  import opened Wrappers
  import opened CpsLang
  import opened CpsTranslate
  import opened CpsCorrect
  import opened CpsTranslator
  import opened CpsConst
  import opened CpsCollect
  import opened CpsReach
  import opened CpsFold
  import opened CpsFolding

  /** A procedure ranks just above its body, all else by label. */
  function Deep(g: Graph): Rank {
    (k: Label) => if k in g && g[k].Kproc? then 2 * g[k].body + 1 else 2 * k
  }

  /** Translated graphs are acyclic along continuation and lambda-body edges together. */
  lemma ClosedAcyclic(g: Graph)
    requires CpsTranslator.Closed(g)
    ensures Acyclic(g, Deep(g))
  {
    var deep := Deep(g);
    forall k, l | k in g && Leads(g[k], l)
      ensures l in g && deep(l) < deep(k)
    {
      assert Grounded(g, k);
      if l in Succs(g[k]) {
        assert BY_LABEL(l) < BY_LABEL(k);
      }
    }
  }

  // ------------------------------------------------- what a form's code is like

  /** No variable of the continuation is spelled like a primitive. */
  predicate NamedAt(g: Graph, k: Label)
    requires k in g
  {
    match g[k]
    case Kargs(vars, _) => forall x :: x in vars ==> !PrimNamed(x)
    case Kproc(_, _, _, _) => forall x :: x in Names(g[k]) ==> !PrimNamed(x)
    case _ => true
  }

  /** A procedure's body binds its parameters and leaves by its own tail. */
  ghost predicate BodyAt(g: Graph, k: Label)
    requires Acyclic(g, Deep(g)) && k in g
  {
    g[k].Kproc? ==> g[k].body in g && g[g[k].body].Kargs? && g[g[k].body].vars == Names(g[k]) && OwnTail(g, Deep(g), g[k].body, g[k].tail)
  }

  ghost predicate Nice(g: Graph, k: Label)
    requires Acyclic(g, Deep(g)) && k in g
  {
    ApartAt(g, Deep(g), k) && PlainAt(g, k) && NamedAt(g, k) && BodyAt(g, k)
  }

  /** From `k` on, the walk comes by well-behaved labels from `n` up to `m` and by
      what `cc` leads to. */
  ghost predicate Spans(g: Graph, k: Label, cc: Label, n: nat, m: nat)
    requires Acyclic(g, Deep(g))
  {
    k in g && cc in g &&
    forall l {:trigger l in Reach(g, Deep(g), k)} :: l in Reach(g, Deep(g), k) ==>
      l in Reach(g, Deep(g), cc) || (n <= l < m && l in g && Nice(g, l))
  }

  /** All that `cc` leads to was there before the counter came to `n`. */
  ghost predicate Before(g: Graph, cc: Label, n: nat)
    requires Acyclic(g, Deep(g))
  {
    cc in g && forall l {:trigger l in Reach(g, Deep(g), cc)} :: l in Reach(g, Deep(g), cc) ==> l < n
  }

  lemma SpansBefore(g: Graph, k: Label, cc: Label, n: nat, m: nat)
    requires Acyclic(g, Deep(g)) && Spans(g, k, cc, n, m) && Before(g, cc, n) && n <= m
    ensures Before(g, k, m)
  {
  }

  lemma SpansOn(g: Graph, k: Label, mid: Label, cc: Label, n: nat, i: nat, m: nat)
    requires Acyclic(g, Deep(g)) && Spans(g, k, mid, i, m) && Spans(g, mid, cc, n, i) && n <= i <= m
    ensures Spans(g, k, cc, n, m)
  {
  }

  lemma SpansWider(g: Graph, k: Label, cc: Label, n: nat, m: nat, i: nat, j: nat)
    requires Acyclic(g, Deep(g)) && Spans(g, k, cc, n, m) && i <= n && m <= j
    ensures Spans(g, k, cc, i, j)
  {
  }

  /** A continuation that makes no procedure and goes on to `next`. */
  lemma SpansStep(g: Graph, k: Label, next: Label, cc: Label, n: nat, m: nat)
    requires Acyclic(g, Deep(g)) && k in g && n <= k < m && NamedAt(g, k) && PlainAt(g, k)
    requires (g[k].Kargs? && g[k].term.Continue? && !g[k].term.expr.EProc? && g[k].term.k == next)
          || (g[k].Kreceive? && g[k].k == next)
    requires next in g && (next == cc || Spans(g, next, cc, n, m))
    ensures Spans(g, k, cc, n, m)
  {
    hide Acyclic, PlainAt, NamedAt;
    SpansSelf(g, cc, n, m);
    assert Leads(g[k], next);
    forall l | l in Reach(g, Deep(g), k)
      ensures l in Reach(g, Deep(g), cc) || (n <= l < m && l in g && Nice(g, l))
    {
      assert l == k || l in Reach(g, Deep(g), next);
    }
  }

  lemma SpansSelf(g: Graph, cc: Label, n: nat, m: nat)
    requires Acyclic(g, Deep(g))
    ensures cc in g ==> Spans(g, cc, cc, n, m)
  {
  }

  lemma SpansBranch(g: Graph, k: Label, kt: Label, kf: Label, cc: Label, n: nat, m: nat)
    requires Acyclic(g, Deep(g)) && k in g && n <= k < m && g[k].Kargs? && NamedAt(g, k)
    requires g[k].term.Branch? && g[k].term.kt == kt && g[k].term.kf == kf
    requires Spans(g, kt, cc, n, m) && Spans(g, kf, cc, n, m)
    ensures Spans(g, k, cc, n, m)
  {
    hide Acyclic, NamedAt;
    assert Leads(g[k], kt) && Leads(g[k], kf);
    forall l | l in Reach(g, Deep(g), k)
      ensures l in Reach(g, Deep(g), cc) || (n <= l < m && l in g && Nice(g, l))
    {
      assert l == k || l in Reach(g, Deep(g), kt) || l in Reach(g, Deep(g), kf);
    }
  }

  /** All that is reached from `code` was numbered from `n` up to `m`. */
  ghost predicate Numbered(g: Graph, code: Label, n: nat, m: nat)
    requires Acyclic(g, Deep(g)) && code in g
  {
    forall l {:trigger l in Reach(g, Deep(g), code)} :: l in Reach(g, Deep(g), code) ==> n <= l < m && l in g && Nice(g, l)
  }

  /** Where a procedure is made: its labels lie above all that follows. */
  lemma SpansProc(g: Graph, k: Label, code: Label, cc: Label, n: nat, i: nat, m: nat)
    requires Acyclic(g, Deep(g)) && k in g && n <= k < m && g[k].Kargs? && NamedAt(g, k) && Before(g, cc, n)
    requires g[k].term == Continue(cc, EProc(code)) && code in g
    requires Numbered(g, code, n, i) && i <= m
    ensures Spans(g, k, cc, n, m)
  {
    hide Acyclic, NamedAt;
    assert Leads(g[k], code) && Leads(g[k], cc);
    assert ApartAt(g, Deep(g), k);
    forall l | l in Reach(g, Deep(g), k)
      ensures l in Reach(g, Deep(g), cc) || (n <= l < m && l in g && Nice(g, l))
    {
      assert l == k || l in Reach(g, Deep(g), cc) || l in Reach(g, Deep(g), code);
    }
  }

  lemma KargsPlain(g: Graph, k: Label)
    requires k in g && g[k].Kargs?
    ensures PlainAt(g, k)
  {
  }

  lemma OneTempNamed(g: Graph, k: Label, t: nat)
    requires HasVars(g, k, [Temp(t)])
    ensures NamedAt(g, k)
  {
  }

  /** The entry of a form's code, its variables aside, and what it goes on to. */
  lemma {:induction false} SpansCode(g: Graph, f: Form, cc: Label, n: nat)
    requires Acyclic(g, Deep(g)) && Code(g, f, cc, n) && Before(g, cc, n) && NoPrimBound(f)
    requires Entry(f, n) in g && g[Entry(f, n)].Kargs? && NamedAt(g, Entry(f, n))
    ensures Spans(g, Entry(f, n), cc, n, Next(f, n))
    decreases f, 1
  {
    hide Acyclic, Before, NamedAt, Spans;
    var k := Entry(f, n);
    KargsPlain(g, k);
    match f
    case Const(_) => CcIn(g, cc, n); SpansStep(g, k, cc, cc, n, n + 2);
    case Quote(_) => CcIn(g, cc, n); SpansStep(g, k, cc, cc, n, n + 2);
    case Var(_) => CcIn(g, cc, n); SpansStep(g, k, cc, cc, n, n + 2);
    case Begin(body) => SpansCodeBody(g, body, cc, n);
    case If(c, t, e) => SpansCodeIf(g, c, t, e, cc, n);
    case Lambda(lam) =>
      var m := NextBody(lam.body, n + 2);
      SpansLambda(g, lam, n);
      SpansProc(g, m, n + 1, cc, n, m, m + 2);
    case Call(elems) => SpansCodeCall(g, elems, cc, n);
  }

  lemma CcIn(g: Graph, cc: Label, n: nat)
    requires Acyclic(g, Deep(g)) && Before(g, cc, n)
    ensures cc in g && Spans(g, cc, cc, n, n + 2)
  {
  }

  /** What the code of a conditional is made of. */
  lemma IfCode(g: Graph, c: Form, t: Form, e: Form, cc: Label, n: nat)
    requires Code(g, If(c, t, e), cc, n)
    ensures var n1 := Next(t, n); var n2 := Next(e, n1); var kt, kf := Entry(t, n), Entry(e, n1);
      && Code(g, t, cc, n) && HasVars(g, kt, []) && Code(g, e, cc, n1) && HasVars(g, kf, [])
      && n2 in g && g[n2] == Kargs([Temp(n2 + 1)], Branch(Temp(n2 + 1), kt, kf)) && Code(g, c, n2, n2 + 2)
  {
    hide Next, Entry, EntryTemp, NextBody, NextElems, EntryBody, EntryElems, HasVars, HasTerm, CodeBody, CodeElems, CodeProc;
  }

  lemma IfParts(g: Graph, c: Form, t: Form, e: Form, cc: Label, n: nat)
    requires Code(g, If(c, t, e), cc, n)
    ensures var n1 := Next(t, n); var n2 := Next(e, n1); var kt, kf := Entry(t, n), Entry(e, n1);
      && Code(g, t, cc, n) && Code(g, e, cc, n1) && Code(g, c, n2, n2 + 2)
      && kt in g && g[kt].Kargs? && NamedAt(g, kt) && kf in g && g[kf].Kargs? && NamedAt(g, kf)
      && n2 in g && g[n2].Kargs? && NamedAt(g, n2) && g[n2].term == Branch(Temp(n2 + 1), kt, kf)
  {
    hide Next, Entry, EntryTemp, NextBody, NextElems, EntryBody, EntryElems, Code;
    IfCode(g, c, t, e, cc, n);
  }

  lemma {:induction false} SpansCodeIf(g: Graph, c: Form, t: Form, e: Form, cc: Label, n: nat)
    requires Acyclic(g, Deep(g)) && Code(g, If(c, t, e), cc, n) && Before(g, cc, n) && NoPrimBound(If(c, t, e))
    requires Entry(If(c, t, e), n) in g && g[Entry(If(c, t, e), n)].Kargs? && NamedAt(g, Entry(If(c, t, e), n))
    ensures Spans(g, Entry(If(c, t, e), n), cc, n, Next(If(c, t, e), n))
    decreases If(c, t, e), 0
  {
    hide Acyclic, Before, NamedAt, Spans, Next, Entry, Code, EntryTemp, Reach, Deep;
    EntryOfIf(c, t, e, n);
    IfParts(g, c, t, e, cc, n);
    var n1 := Next(t, n);
    var n2 := Next(e, n1);
    var kt, kf := Entry(t, n), Entry(e, n1);
    SpansCode(g, t, cc, n);
    Earlier(g, cc, n, n1);
    SpansCode(g, e, cc, n1);
    SpansWider(g, kt, cc, n, n1, n, n2 + 2);
    SpansWider(g, kf, cc, n1, n2, n, n2 + 2);
    SpansBranch(g, n2, kt, kf, cc, n, n2 + 2);
    SpansBefore(g, n2, cc, n, n2 + 2);
    SpansCode(g, c, n2, n2 + 2);
    SpansOn(g, Entry(c, n2 + 2), n2, cc, n, n2 + 2, Next(c, n2 + 2));
  }

  lemma Earlier(g: Graph, cc: Label, n: nat, m: nat)
    requires Acyclic(g, Deep(g)) && Before(g, cc, n) && n <= m
    ensures Before(g, cc, m)
  {
  }

  lemma {:induction false} SpansCodeBody(g: Graph, fs: Forms, cc: Label, n: nat)
    requires Acyclic(g, Deep(g)) && CodeBody(g, fs, cc, n) && Before(g, cc, n) && NoPrimBoundIn(fs)
    requires EntryBody(fs, n) in g && g[EntryBody(fs, n)].Kargs? && NamedAt(g, EntryBody(fs, n))
    ensures Spans(g, EntryBody(fs, n), cc, n, NextBody(fs, n))
    decreases fs, 0
  {
    hide Acyclic, Before, NamedAt, Spans;
    match fs
    case Last(e) => SpansCode(g, e, cc, n);
    case More(e, rest) =>
      var next, m := EntryBody(rest, n), NextBody(rest, n);
      OneTempNamed(g, next, EntryTempBody(rest, n));
      SpansCodeBody(g, rest, cc, n);
      SpansBefore(g, next, cc, n, m);
      SpansCode(g, e, next, m);
      SpansOn(g, Entry(e, m), next, cc, n, m, Next(e, m));
  }

  /** All that a procedure leads to was numbered while it was translated. */
  lemma {:induction false} SpansLambda(g: Graph, lam: Lam, n: nat)
    requires Acyclic(g, Deep(g)) && CodeProc(g, lam, n) && NoPrimParams(lam) && NoPrimBoundIn(lam.body)
    ensures n + 1 in g
    ensures Numbered(g, n + 1, n, NextBody(lam.body, n + 2))
    decreases lam
  {
    var deep, body, m := Deep(g), EntryBody(lam.body, n + 2), NextBody(lam.body, n + 2);
    ParamsNamed(lam);
    assert NamedAt(g, body) && NamedAt(g, n + 1) && PlainAt(g, n + 1);
    assert Reach(g, deep, n) == {n};
    assert Before(g, n, n + 2);
    SpansCodeBody(g, lam.body, n, n + 2);
    OwnTailBody(g, lam.body, n, n + 2, n);
    assert Nice(g, n) && Nice(g, n + 1);
    NumberedFrom(g, n, body, m);
  }

  /** Code leaves where its continuation leaves. */
  lemma {:induction false} OwnTailCode(g: Graph, f: Form, cc: Label, n: nat, tail: Label)
    requires Acyclic(g, Deep(g)) && Code(g, f, cc, n) && OwnTail(g, Deep(g), cc, tail)
    ensures OwnTail(g, Deep(g), Entry(f, n), tail)
    decreases f, 1
  {
    hide Acyclic, Deep;
    match f
    case Begin(body) => OwnTailBody(g, body, cc, n, tail);
    case If(c, t, e) => OwnTailIf(g, c, t, e, cc, n, tail);
    case Call(elems) => OwnTailCall(g, elems, cc, n, tail);
    case _ =>
  }

  lemma {:induction false} OwnTailBody(g: Graph, fs: Forms, cc: Label, n: nat, tail: Label)
    requires Acyclic(g, Deep(g)) && CodeBody(g, fs, cc, n) && OwnTail(g, Deep(g), cc, tail)
    ensures OwnTail(g, Deep(g), EntryBody(fs, n), tail)
    decreases fs, 0
  {
    hide Acyclic, Deep, OwnTail;
    match fs
    case Last(e) => OwnTailCode(g, e, cc, n, tail);
    case More(e, rest) =>
      OwnTailBody(g, rest, cc, n, tail);
      OwnTailCode(g, e, EntryBody(rest, n), NextBody(rest, n), tail);
  }

  lemma {:induction false} OwnTailIf(g: Graph, c: Form, t: Form, e: Form, cc: Label, n: nat, tail: Label)
    requires Acyclic(g, Deep(g)) && Code(g, If(c, t, e), cc, n) && OwnTail(g, Deep(g), cc, tail)
    ensures OwnTail(g, Deep(g), Entry(If(c, t, e), n), tail)
    decreases If(c, t, e), 0
  {
    hide Acyclic, Deep, Code, Next, Entry, EntryTemp;
    EntryOfIf(c, t, e, n);
    IfCode(g, c, t, e, cc, n);
    var n1 := Next(t, n);
    var n2 := Next(e, n1);
    OwnTailCode(g, t, cc, n, tail);
    OwnTailCode(g, e, cc, n1, tail);
    assert OwnTail(g, Deep(g), n2, tail);
    OwnTailCode(g, c, n2, n2 + 2, tail);
  }

  lemma {:induction false} OwnTailCall(g: Graph, elems: Forms, cc: Label, n: nat, tail: Label)
    requires Acyclic(g, Deep(g)) && Code(g, Call(elems), cc, n) && OwnTail(g, Deep(g), cc, tail)
    ensures OwnTail(g, Deep(g), Entry(Call(elems), n), tail)
    decreases elems, 1
  {
    EntryOfCall(elems, n);
    hide Acyclic, Deep, CodeElems, EntryElems;
    assert OwnTail(g, Deep(g), n + 2, tail);
    assert OwnTail(g, Deep(g), n + 3, tail);
    assert OwnTail(g, Deep(g), n + 5, tail);
    OwnTailElems(g, elems, n + 5, n + 4, n + 6, tail);
  }

  lemma {:induction false} OwnTailElems(g: Graph, es: Forms, cc: Label, tmp: nat, n: nat, tail: Label)
    requires Acyclic(g, Deep(g)) && CodeElems(g, es, cc, tmp, n) && OwnTail(g, Deep(g), cc, tail)
    ensures OwnTail(g, Deep(g), EntryElems(es, cc, n), tail)
    decreases es, 0
  {
    hide Acyclic, Deep, OwnTail;
    if es.e.Var? {
      if es.More? {
        OwnTailElems(g, es.rest, cc, tmp, n, tail);
      }
    } else {
      OwnTailCode(g, es.e, cc, n, tail);
      if es.More? {
        OwnTailElems(g, es.rest, Entry(es.e, n), EntryTemp(es.e, n), Next(es.e, n), tail);
      }
    }
  }

  /** A procedure entered at `n + 1` whose body spans what was numbered from `n + 2`. */
  lemma NumberedFrom(g: Graph, n: nat, body: Label, m: nat)
    requires Acyclic(g, Deep(g)) && n in g && n + 1 in g && n + 2 <= m && Nice(g, n) && Nice(g, n + 1)
    requires g[n].Ktail? && g[n + 1].Kproc? && g[n + 1].body == body
    requires Spans(g, body, n, n + 2, m)
    ensures Numbered(g, n + 1, n, m)
  {
    hide Nice, Acyclic, Reach, Deep;
    ReachProc(g, n);
  }

  lemma ReachProc(g: Graph, n: nat)
    requires Acyclic(g, Deep(g)) && n in g && n + 1 in g && g[n].Ktail? && g[n + 1].Kproc?
    ensures g[n + 1].body in g
    ensures Reach(g, Deep(g), n) == {n}
    ensures Reach(g, Deep(g), n + 1) == {n + 1} + Reach(g, Deep(g), g[n + 1].body)
  {
    assert Leads(g[n + 1], g[n + 1].body);
  }

  lemma ParamsNamed(lam: Lam)
    requires NoPrimParams(lam)
    ensures forall x :: x in UserNames(ParamNames(lam.params, lam.rest)) ==> !PrimNamed(x)
    ensures UserNames(ParamNames(lam.params, lam.rest)) ==
      UserNames(lam.params) + (if lam.rest.Some? then [User(lam.rest.value)] else [])
  {
  }

  lemma {:induction false} SpansCodeCall(g: Graph, elems: Forms, cc: Label, n: nat)
    requires Acyclic(g, Deep(g)) && Code(g, Call(elems), cc, n) && Before(g, cc, n) && NoPrimBoundIn(elems)
    requires Entry(Call(elems), n) in g && g[Entry(Call(elems), n)].Kargs? && NamedAt(g, Entry(Call(elems), n))
    ensures Spans(g, Entry(Call(elems), n), cc, n, Next(Call(elems), n))
    decreases elems, 1
  {
    EntryOfCall(elems, n);
    OneTempNamed(g, n + 2, n);
    CcIn(g, cc, n);
    assert NamedAt(g, n + 3);
    KargsPlain(g, n + 2);
    KargsPlain(g, n + 5);
    assert PlainAt(g, n + 3);
    hide Acyclic, Before, NamedAt, Spans, PlainAt;
    SpansStep(g, n + 2, cc, cc, n, n + 6);
    SpansStep(g, n + 3, n + 2, cc, n, n + 6);
    var k := EntryElems(elems, n + 5, n + 6);
    EntryOrCc(g, elems, n + 5, n + 4, n + 6);
    SpansStep(g, n + 5, n + 3, cc, n, n + 6);
    SpansBefore(g, n + 5, cc, n, n + 6);
    SpansCodeElems(g, elems, n + 5, n + 4, n + 6);
    SpansOn(g, k, n + 5, cc, n, n + 6, NextElems(elems, n + 6));
  }

  /** Either there was nothing to evaluate first, or the call takes one temporary. */
  lemma {:induction false} EntryOrCc(g: Graph, es: Forms, cc: Label, tmp: nat, n: nat)
    requires CodeElems(g, es, cc, tmp, n)
    ensures EntryElems(es, cc, n) == cc || (cc in g && g[cc].Kargs? && NamedAt(g, cc))
    decreases es
  {
    if !es.e.Var? {
      OneTempNamed(g, cc, tmp);
    } else if es.More? {
      EntryOrCc(g, es.rest, cc, tmp, n);
    }
  }

  lemma {:induction false} SpansCodeElems(g: Graph, es: Forms, cc: Label, tmp: nat, n: nat)
    requires Acyclic(g, Deep(g)) && CodeElems(g, es, cc, tmp, n) && Before(g, cc, n) && NoPrimBoundIn(es)
    requires EntryElems(es, cc, n) in g && g[EntryElems(es, cc, n)].Kargs? && NamedAt(g, EntryElems(es, cc, n))
    ensures Spans(g, EntryElems(es, cc, n), cc, n, NextElems(es, n))
    decreases es, 0
  {
    hide Acyclic, Before, NamedAt, Spans;
    CcIn(g, cc, n);
    SpansSelf(g, cc, n, NextElems(es, n));
    if es.e.Var? {
      if es.More? {
        SpansCodeElems(g, es.rest, cc, tmp, n);
      }
    } else {
      var e, m := es.e, Next(es.e, n);
      var k := Entry(e, n);
      if es.More? {
        EntryOrCc(g, es.rest, k, EntryTemp(e, n), m);
      }
      SpansCode(g, e, cc, n);
      if es.More? {
        SpansBefore(g, k, cc, n, m);
        SpansCodeElems(g, es.rest, k, EntryTemp(e, n), m);
        SpansOn(g, EntryElems(es, cc, n), k, cc, n, m, NextElems(es, n));
      }
    }
  }

  // ---------------------------------------------------------- whole programs

  /** A translated program can be walked from its entry, and binds no primitive's name. */
  lemma ProgramWalkable(g: Graph, f: Form)
    requires CpsTranslator.Closed(g) && Code(g, f, 0, 1) && 0 in g && g[0].Ktail? && NoPrimBound(f)
    requires Entry(f, 1) in g && g[Entry(f, 1)].Kargs? && NamedAt(g, Entry(f, 1))
    ensures Acyclic(g, Deep(g)) && Walkable(g, BY_LABEL, Deep(g), Entry(f, 1))
    ensures forall l :: l in Reach(g, Deep(g), Entry(f, 1)) ==> l in g && NamedAt(g, l) && BodyAt(g, l)
  {
    ClosedAcyclic(g);
    var deep, k := Deep(g), Entry(f, 1);
    assert Reach(g, deep, 0) == {0};
    SpansCode(g, f, 0, 1);
    assert Nice(g, 0);
    forall l | l in Reach(g, deep, k)
      ensures l in g && Nice(g, l)
    {
    }
  }

  type Records = (Name, Option<Expr>) -> bool

  /** Every record is of a variable with something it may be recorded with. */
  ghost predicate TableOk(t: Table, ok: Records) {
    forall x, r: Rec {:trigger r in t[x]} :: x in t && r in t[x] ==> ok(x, r.binding)
  }

  predicate BindsHere(k: Kont, x: Name) {
    match k
    case Kargs(vars, _) => x in vars
    case Kproc(_, _, _, _) => x in Names(k)
    case _ => false
  }

  /** What is bound to the value of `e` on arriving at `k` may be recorded with it, if
      `l` comes after. */
  ghost predicate ArrivalOk(g: Graph, deep: Rank, k: Label, l: Label, e: Expr, ok: Records)
    requires Acyclic(g, deep) && k in g
    decreases deep(k)
  {
    match g[k]
    case Kargs(vars, _) => l in Reach(g, deep, k) ==> forall x :: x in vars ==> ok(x, Some(e))
    case Kreceive(_, _, next) => assert Leads(g[k], next); ArrivalOk(g, deep, next, l, e, ok)
    case _ => true
  }

  ghost predicate AllowedAt(g: Graph, deep: Rank, b: Label, l: Label, ok: Records)
    requires Acyclic(g, deep) && b in g
  {
    match g[b]
    case Kproc(_, _, _, _) => forall x :: x in Names(g[b]) ==> ok(x, None)
    case Kargs(_, Continue(next, e)) =>
      assert Leads(g[b], next) && (e.EProc? ==> Leads(g[b], e.k));
      ArrivalOk(g, deep, next, l, e, ok) && (e.EProc? ==> ArrivalOk(g, deep, e.k, l, e, ok))
    case _ => true
  }

  /** On the way from `k` to `l` only such records are made. */
  ghost predicate Allowed(g: Graph, deep: Rank, k: Label, l: Label, ok: Records)
    requires Acyclic(g, deep) && k in g
  {
    forall b {:trigger b in Reach(g, deep, k)} :: b in Reach(g, deep, k) && b in g && l in Reach(g, deep, b) ==> AllowedAt(g, deep, b, l, ok)
  }

  /** What the walk records is what the graph binds and evaluates on the way. */
  lemma {:induction false} InfoOk(g: Graph, deep: Rank, t: Table, e: Option<Expr>, k: Label, path: seq<nat>, l: Label, ok: Records)
    requires Acyclic(g, deep) && k in g && TableOk(t, ok) && l in Info(g, deep, t, e, k, path)
    requires (e.Some? ==> ArrivalOk(g, deep, k, l, e.value, ok)) && Allowed(g, deep, k, l, ok)
    ensures TableOk(Info(g, deep, t, e, k, path)[l], ok)
    decreases deep(k), 1
  {
    hide TableOk, Define, TableUnion, Allowed;
    InfoReach(g, deep, t, e, k, path, l);
    AllowedHere(g, deep, k, l, ok);
    match g[k]
    case Ktail =>
    case Kreceive(_, _, next) =>
      AllowedOn(g, deep, k, next, l, ok);
      InfoOk(g, deep, t, e, next, path, l, ok);
    case Kproc(_, _, _, body) =>
      AllowedOn(g, deep, k, body, l, ok);
      DefineOk(t, Names(g[k]), None, path + [k], ok);
      InfoOk(g, deep, Define(t, Names(g[k]), None, path + [k]), None, body, path + [k], l, ok);
    case Kargs(vars, term) =>
      if e.Some? {
        DefineOk(t, vars, e, path + [k], ok);
      }
      InfoOkAt(g, deep, Arrival(t, vars, e, path + [k]), t, e, k, path, l, ok);
  }

  lemma InfoIs(g: Graph, deep: Rank, t: Table, e: Option<Expr>, k: Label, path: seq<nat>)
    requires Acyclic(g, deep) && k in g && g[k].Kargs?
    ensures var u := Arrival(t, g[k].vars, e, path + [k]);
      match g[k].term
      case Branch(_, kt, kf) =>
        kt in g && kf in g && Info(g, deep, t, e, k, path) ==
          map[k := u] + InfoUnion(Info(g, deep, u, None, kt, path + [k, 1]), Info(g, deep, u, None, kf, path + [k, 0]))
      case Continue(next, x) =>
        next in g && Info(g, deep, t, e, k, path) ==
          map[k := u] + InfoProc(g, deep, u, k, path) + Info(g, deep, u, Some(x), next, path + [k, 0])
  {
    match g[k].term
    case Branch(_, kt, kf) => assert Leads(g[k], kt) && Leads(g[k], kf);
    case Continue(next, _) => assert Leads(g[k], next);
  }

  lemma {:induction false} InfoOkAt(g: Graph, deep: Rank, u: Table, t: Table, e: Option<Expr>, k: Label, path: seq<nat>, l: Label,
                                    ok: Records)
    requires Acyclic(g, deep) && k in g && g[k].Kargs? && TableOk(u, ok) && l in Info(g, deep, t, e, k, path)
    requires u == Arrival(t, g[k].vars, e, path + [k]) && Allowed(g, deep, k, l, ok) && AllowedAt(g, deep, k, l, ok)
    ensures TableOk(Info(g, deep, t, e, k, path)[l], ok)
    decreases deep(k), 0
  {
    InfoIs(g, deep, t, e, k, path);
    hide TableOk, Define, TableUnion, Allowed, Info, Reach, ArrivalOk;
    match g[k].term
    case Branch(_, kt, kf) =>
      AllowedOn(g, deep, k, kt, l, ok);
      AllowedOn(g, deep, k, kf, l, ok);
      var a, b := Info(g, deep, u, None, kt, path + [k, 1]), Info(g, deep, u, None, kf, path + [k, 0]);
      if l in a {
        InfoOk(g, deep, u, None, kt, path + [k, 1], l, ok);
      }
      if l in b {
        InfoOk(g, deep, u, None, kf, path + [k, 0], l, ok);
      }
      if l in a && l in b {
        UnionOk(a[l], b[l], ok);
      }
    case Continue(next, x) =>
      AllowedOn(g, deep, k, next, l, ok);
      var b := Info(g, deep, u, Some(x), next, path + [k, 0]);
      if l in b {
        InfoOk(g, deep, u, Some(x), next, path + [k, 0], l, ok);
      } else if l in InfoProc(g, deep, u, k, path) {
        AllowedOn(g, deep, k, x.k, l, ok);
        InfoOk(g, deep, u, Some(x), x.k, path + [k, 1], l, ok);
      }
  }

  lemma AllowedHere(g: Graph, deep: Rank, k: Label, l: Label, ok: Records)
    requires Acyclic(g, deep) && k in g && l in Reach(g, deep, k) && Allowed(g, deep, k, l, ok)
    ensures AllowedAt(g, deep, k, l, ok)
  {
    assert k in Reach(g, deep, k);
  }

  lemma AllowedOn(g: Graph, deep: Rank, k: Label, next: Label, l: Label, ok: Records)
    requires Acyclic(g, deep) && k in g && Leads(g[k], next) && Allowed(g, deep, k, l, ok)
    ensures next in g && deep(next) < deep(k) && Allowed(g, deep, next, l, ok)
  {
    OnwardReach(g, deep, k, next);
  }

  lemma DefineOk(t: Table, vars: seq<Name>, b: Option<Expr>, path: seq<nat>, ok: Records)
    requires TableOk(t, ok) && forall x :: x in vars ==> ok(x, b)
    ensures TableOk(Define(t, vars, b, path), ok)
  {
  }

  lemma UnionOk(t: Table, u: Table, ok: Records)
    requires TableOk(t, ok) && TableOk(u, ok)
    ensures TableOk(TableUnion(t, u), ok)
  {
    var v := TableUnion(t, u);
    forall x, r: Rec | x in v && r in v[x]
      ensures ok(x, r.binding)
    {
      UnionAt(t, u, x);
      assert Known(v, x);
      if x in t && r in t[x] {
      } else {
        assert x in u && r in u[x];
      }
    }
  }

  /** Records of variables that may be recorded with anything. */
  lemma {:induction false} NamesAllowed(g: Graph, deep: Rank, k: Label, l: Label, ok: Records)
    requires Acyclic(g, deep) && k in g
    requires forall b, x, o :: b in Reach(g, deep, k) && b in g && l in Reach(g, deep, b) && BindsHere(g[b], x) ==> ok(x, o)
    ensures Allowed(g, deep, k, l, ok)
  {
    forall b | b in Reach(g, deep, k) && b in g && l in Reach(g, deep, b)
      ensures AllowedAt(g, deep, b, l, ok)
    {
      if g[b].Kargs? && g[b].term.Continue? {
        var next, e := g[b].term.k, g[b].term.expr;
        ReachOn(g, deep, k, b);
        OnwardReach(g, deep, b, next);
        NamesArrive(g, deep, next, l, e, ok);
        if e.EProc? {
          OnwardReach(g, deep, b, e.k);
          NamesArrive(g, deep, e.k, l, e, ok);
        }
      }
    }
  }

  lemma {:induction false} NamesArrive(g: Graph, deep: Rank, k: Label, l: Label, e: Expr, ok: Records)
    requires Acyclic(g, deep) && k in g
    requires forall b, x, o :: b in Reach(g, deep, k) && b in g && l in Reach(g, deep, b) && BindsHere(g[b], x) ==> ok(x, o)
    ensures ArrivalOk(g, deep, k, l, e, ok)
    decreases deep(k)
  {
    match g[k]
    case Kargs(vars, _) =>
      assert k in Reach(g, deep, k);
      assert forall x :: x in vars ==> BindsHere(g[k], x);
    case Kreceive(_, _, next) =>
      OnwardReach(g, deep, k, next);
      NamesArrive(g, deep, next, l, e, ok);
    case _ =>
  }

  /** The walk leaves information on every ordinary continuation it comes by. */
  lemma {:induction false} InfoHas(g: Graph, deep: Rank, t: Table, e: Option<Expr>, k: Label, path: seq<nat>, l: Label)
    requires Acyclic(g, deep) && k in g && l in Reach(g, deep, k) && l in g && g[l].Kargs?
    ensures l in Info(g, deep, t, e, k, path)
    decreases deep(k)
  {
    match g[k]
    case Ktail =>
    case Kreceive(_, _, next) =>
      OnwardReach(g, deep, k, next);
      InfoHas(g, deep, t, e, next, path, l);
    case Kproc(_, _, _, body) =>
      OnwardReach(g, deep, k, body);
      InfoHas(g, deep, Define(t, Names(g[k]), None, path + [k]), None, body, path + [k], l);
    case Kargs(vars, term) =>
      var u := Arrival(t, vars, e, path + [k]);
      if l != k {
        match term
        case Branch(_, kt, kf) =>
          OnwardReach(g, deep, k, kt);
          OnwardReach(g, deep, k, kf);
          if l in Reach(g, deep, kt) {
            InfoHas(g, deep, u, None, kt, path + [k, 1], l);
          } else {
            InfoHas(g, deep, u, None, kf, path + [k, 0], l);
          }
        case Continue(next, x) =>
          OnwardReach(g, deep, k, next);
          if l in Reach(g, deep, next) {
            InfoHas(g, deep, u, Some(x), next, path + [k, 0], l);
          } else {
            OnwardReach(g, deep, k, x.k);
            InfoHas(g, deep, u, Some(x), x.k, path + [k, 1], l);
          }
      }
  }

  lemma {:induction false} DataOk(g: Graph, s: VarInfo, codes: set<Label>, v: GValue)
    requires IsData(v)
    ensures ValueOk(g, s, codes, v)
  {
    if v.Pair? {
      DataOk(g, s, codes, v.car);
      DataOk(g, s, codes, v.cdr);
    }
  }

  /** Continuations of a translated graph are of the kinds folding expects. */
  lemma ClosedTidy(g: Graph, s: VarInfo, h: Graph, k: Label)
    requires CpsTranslator.Closed(g) && k in g
    ensures Tidy(g, s, h, k) && Ordinary(g, s, k)
  {
    assert Grounded(g, k);
    if g[k].Kargs? && g[k].term.Continue? && g[k].term.expr.EConst? {
      DataOk(g, s, h.Keys, g[k].term.expr.v);
      DataOk(g, s, g.Keys, g[k].term.expr.v);
    }
  }

  /** A form's code starts with an expression, never with a branch. */
  lemma {:induction false} EntryContinues(g: Graph, f: Form, cc: Label, n: nat)
    requires Code(g, f, cc, n)
    ensures Entry(f, n) in g && g[Entry(f, n)].Kargs? && g[Entry(f, n)].term.Continue?
    decreases f, 1
  {
    hide NextBody, NextElems, EntryTemp, CodeBody, CodeElems, CodeProc;
    match f
    case If(c, t, e) => EntryContinuesIf(g, c, t, e, cc, n);
    case Begin(body) => EntryContinuesBody(g, body, cc, n);
    case Call(elems) =>
      EntryOfCall(elems, n);
      EntryContinuesElems(g, elems, n + 5, n + 4, n + 6);
    case _ =>
  }

  lemma {:induction false} EntryContinuesIf(g: Graph, c: Form, t: Form, e: Form, cc: Label, n: nat)
    requires Code(g, If(c, t, e), cc, n)
    ensures var k := Entry(If(c, t, e), n); k in g && g[k].Kargs? && g[k].term.Continue?
    decreases If(c, t, e), 0
  {
    hide Code, Next, Entry, EntryTemp;
    EntryOfIf(c, t, e, n);
    IfParts(g, c, t, e, cc, n);
    var n2 := Next(e, Next(t, n));
    EntryContinues(g, c, n2, n2 + 2);
  }

  lemma {:induction false} EntryContinuesBody(g: Graph, fs: Forms, cc: Label, n: nat)
    requires CodeBody(g, fs, cc, n)
    ensures EntryBody(fs, n) in g && g[EntryBody(fs, n)].Kargs? && g[EntryBody(fs, n)].term.Continue?
    decreases fs, 0
  {
    match fs
    case Last(e) => EntryContinues(g, e, cc, n);
    case More(e, rest) => EntryContinues(g, e, EntryBody(rest, n), NextBody(rest, n));
  }

  lemma {:induction false} EntryContinuesElems(g: Graph, es: Forms, cc: Label, tmp: nat, n: nat)
    requires CodeElems(g, es, cc, tmp, n)
    ensures var k := EntryElems(es, cc, n); k == cc || (k in g && g[k].Kargs? && g[k].term.Continue?)
    decreases es, 0
  {
    if !es.e.Var? {
      EntryContinues(g, es.e, cc, n);
      if es.More? {
        EntryContinuesElems(g, es.rest, Entry(es.e, n), EntryTemp(es.e, n), Next(es.e, n));
      }
    } else if es.More? {
      EntryContinuesElems(g, es.rest, cc, tmp, n);
    }
  }

  /** A translated program, its entry aside from the temporary it would bind. */
  ghost predicate Program(g: Graph, f: Form) {
    && CpsTranslator.Closed(g) && Code(g, f, 0, 1) && 0 in g && g[0].Ktail? && NoPrimBound(f)
    && Entry(f, 1) in g && g[Entry(f, 1)].Kargs? && NamedAt(g, Entry(f, 1))
  }

  /** Collecting from the entry gives sound information on the whole program. */
  lemma ProgramInformed(g: Graph, f: Form, s: VarInfo)
    requires Program(g, f) && Acyclic(g, Deep(g)) && s == Info(g, Deep(g), map[], None, Entry(f, 1), [])
    ensures Informed(g, BY_LABEL, s) && Entry(f, 1) in s && forall l :: l in s ==> NoPrims(s[l])
  {
    hide Consistent, Ordinary, Info, NoPrims, NamedAt, Arrives;
    ProgramWalkable(g, f);
    InfoConsistent(g, BY_LABEL, Deep(g), map[], None, Entry(f, 1), []);
    forall k | k in g
      ensures Ordinary(g, s, k)
    {
      ClosedTidy(g, s, g, k);
    }
    forall l | l in s
      ensures NoPrims(s[l])
    {
      InfoNoPrims(g, Entry(f, 1), l);
    }
    InfoHas(g, Deep(g), map[], None, Entry(f, 1), [], Entry(f, 1));
  }

  lemma InfoNoPrims(g: Graph, k: Label, l: Label)
    requires Acyclic(g, Deep(g)) && k in g && l in Info(g, Deep(g), map[], None, k, [])
    requires forall m :: m in Reach(g, Deep(g), k) ==> m in g && NamedAt(g, m)
    ensures NoPrims(Info(g, Deep(g), map[], None, k, [])[l])
  {
    var ok: Records := (x, o) => !PrimNamed(x);
    NamesAllowed(g, Deep(g), k, l, ok);
    InfoOk(g, Deep(g), map[], None, k, [], l, ok);
    var t := Info(g, Deep(g), map[], None, k, [])[l];
    forall x | Known(t, x)
      ensures !PrimNamed(x)
    {
      assert t[x][0] in t[x];
    }
  }
}
