/** The translator: it fills a graph in place while numbering labels and
    temporaries from one counter. */
module CpsTranslator {
  import opened Wrappers
  import opened CpsValues
  import opened CpsLang
  import opened CpsTranslate
  import opened CpsCorrect
  import opened CpsTailCall

  /** Every label a continuation mentions is bound, to a continuation of the right kind. */
  ghost predicate Closed(g: Graph) {
    && Ranked(g, BY_LABEL)
    && (forall k {:trigger Grounded(g, k)} :: k in g ==> Grounded(g, k))
  }

  ghost predicate Grounded(g: Graph, k: Label)
    requires k in g
  {
    KontClosed(g, g[k]) && CodeBefore(g, g[k], k)
  }

  /** The continuation passes on a constant that says what the datum says. */
  predicate Says(k: Kont, cc: Label, d: Datum) {
    k.Kargs? && k.term.Continue? && k.term.k == cc && k.term.expr.EConst? && Denotes(d, k.term.expr.v)
  }

  /** The body of a procedure has a smaller label than the place that makes it. */
  ghost predicate CodeBefore(g: Graph, kont: Kont, k: Label) {
    kont.Kargs? && kont.term.Continue? && kont.term.expr.EProc? ==>
      var code := kont.term.expr.k;
      code in g && g[code].Kproc? ==> g[code].body < k
  }

  ghost predicate KontClosed(g: Graph, k: Kont) {
    && (k.Kproc? ==> k.tail in g && g[k.tail].Ktail? && k.body in g && g[k.body].Kargs?)
    && (k.Kreceive? ==> k.k in g && g[k.k].Kargs?)
    && (k.Kargs? ==>
          match k.term
          case Branch(_, kt, kf) => kt in g && g[kt].Kargs? && kf in g && g[kf].Kargs?
          case Continue(next, e) =>
            && (next in g ==> !g[next].Kproc?)
            && (e.EProc? ==> e.k in g && g[e.k].Kproc?) && (e.EValues? ==> |e.args| == 1)
            && (e.EConst? ==> IsData(e.v)))
  }

  /** No temporary is bound by two continuations, nor twice by one. */
  ghost predicate TempsDistinct(g: Graph) {
    && (forall k, l, t: nat {:trigger BindsTemp(g, k, t), BindsTemp(g, l, t)} ::
          BindsTemp(g, k, t) && BindsTemp(g, l, t) ==> k == l)
    && (forall k, i, j {:trigger g[k].vars[i], g[k].vars[j]} ::
          k in g && g[k].Kargs? && 0 <= i < j < |g[k].vars| && g[k].vars[i].Temp? ==> g[k].vars[i] != g[k].vars[j])
  }

  predicate BindsTemp(g: Graph, k: Label, t: nat) {
    k in g && g[k].Kargs? && Temp(t) in g[k].vars
  }

  /** Labels and bound temporaries lie below `n`. */
  ghost predicate Below(g: Graph, n: nat) {
    && (forall k :: k in g ==> k < n)
    && (forall k, t: nat :: BindsTemp(g, k, t) ==> t < n)
  }

  ghost predicate WellFormed(g: Graph, n: nat) {
    Closed(g) && TempsDistinct(g) && Below(g, n)
  }

  /** `h` extends `g` by labels from `n` on. */
  ghost predicate Extends(g: Graph, h: Graph, n: nat) {
    && (forall k :: k in g ==> k in h && h[k] == g[k])
    && (forall k :: k in h && k !in g ==> n <= k)
  }

  /** The temporaries a list of variables names are numbered from `n`. */
  ghost predicate FreshVars(vars: seq<Name>, n: nat, m: nat) {
    (|vars| == 1 && vars[0].Temp? && n <= vars[0].id < m) || (forall i :: 0 <= i < |vars| ==> vars[i].User?)
  }

  lemma RankedAdd(g: Graph, k: Label, kont: Kont)
    requires Ranked(g, BY_LABEL) && k !in g
    requires forall s :: s in Succs(kont) ==> s in g && s < k
    ensures Ranked(g[k := kont], BY_LABEL)
  {
    var h := g[k := kont];
    forall l, s | l in h && s in Succs(h[l])
      ensures s in h && BY_LABEL(s) < BY_LABEL(l)
    {
      assert l != k ==> s in Succs(g[l]);
    }
  }

  lemma RankedSuccs(g: Graph, l: Label)
    requires Ranked(g, BY_LABEL) && l in g
    ensures forall s :: s in Succs(g[l]) ==> s in g
  {
  }

  lemma ClosedAdd(g: Graph, k: Label, kont: Kont)
    requires Closed(g) && k !in g && KontClosed(g, kont) && CodeBefore(g, kont, k)
    requires forall s :: s in Succs(kont) ==> s in g && s < k
    ensures Closed(g[k := kont])
  {
    hide KontClosed, CodeBefore, Succs, Ranked;
    RankedAdd(g, k, kont);
    var h := g[k := kont];
    forall l | l in h
      ensures Grounded(h, l)
    {
      if l == k {
        KontClosedAdd(g, k, kont, kont, k);
      } else {
        assert Grounded(g, l);
        RankedSuccs(g, l);
        KontClosedAdd(g, k, kont, g[l], l);
      }
    }
  }

  lemma KontClosedAdd(g: Graph, k: Label, kont: Kont, other: Kont, l: Label)
    requires k !in g && KontClosed(g, other) && (forall s :: s in Succs(other) ==> s in g) && CodeBefore(g, other, l)
    ensures KontClosed(g[k := kont], other) && CodeBefore(g[k := kont], other, l)
  {
  }

  lemma WellFormedAdd(g: Graph, n: nat, k: Label, kont: Kont, m: nat)
    requires WellFormed(g, n) && n <= m && k < m && k !in g
    requires forall s :: s in Succs(kont) ==> s in g && s < k
    requires KontClosed(g, kont) && CodeBefore(g, kont, k) && (kont.Kargs? ==> FreshVars(kont.vars, n, m))
    ensures WellFormed(g[k := kont], m)
  {
    hide Closed, KontClosed, CodeBefore;
    ClosedAdd(g, k, kont);
    var h := g[k := kont];
    forall l, t: nat | BindsTemp(h, l, t)
      ensures t < m && (l == k ==> n <= t) && (l != k ==> BindsTemp(g, l, t))
    {
      if l == k {
        var i :| 0 <= i < |kont.vars| && kont.vars[i] == Temp(t);
      } else {
        assert BindsTemp(g, l, t);
      }
    }
  }

  /** Rewriting the variables of a continuation to none or to identifiers. */
  lemma WellFormedPatch(g: Graph, n: nat, k: Label, vars: seq<Name>)
    requires WellFormed(g, n) && k in g && g[k].Kargs? && FreshVars(vars, 0, 0)
    ensures WellFormed(g[k := g[k].(vars := vars)], n)
  {
    var h := g[k := g[k].(vars := vars)];
    ClosedPatch(g, k, vars);
    hide Closed;
    forall l, t: nat | BindsTemp(h, l, t)
      ensures BindsTemp(g, l, t)
    {
    }
  }

  lemma ClosedPatch(g: Graph, k: Label, vars: seq<Name>)
    requires Closed(g) && k in g && g[k].Kargs?
    ensures Closed(g[k := g[k].(vars := vars)])
  {
    var h := g[k := g[k].(vars := vars)];
    RankedPatch(g, k, vars);
    hide Ranked;
    forall l | l in h
      ensures Grounded(h, l)
    {
      assert Grounded(g, l);
      hide Grounded;
      GroundedPatch(g, k, vars, l);
    }
  }

  lemma RankedPatch(g: Graph, k: Label, vars: seq<Name>)
    requires Ranked(g, BY_LABEL) && k in g && g[k].Kargs?
    ensures Ranked(g[k := g[k].(vars := vars)], BY_LABEL)
  {
    var h := g[k := g[k].(vars := vars)];
    forall l, s | l in h && s in Succs(h[l])
      ensures s in h && BY_LABEL(s) < BY_LABEL(l)
    {
      assert s in Succs(g[l]);
    }
  }

  lemma GroundedPatch(g: Graph, k: Label, vars: seq<Name>, l: Label)
    requires l in g && Grounded(g, l) && k in g && g[k].Kargs?
    ensures Grounded(g[k := g[k].(vars := vars)], l)
  {
  }

  lemma WellFormedLater(g: Graph, n: nat, m: nat)
    requires WellFormed(g, n) && n <= m
    ensures WellFormed(g, m)
  {
  }

  lemma WellFormedTerm(g: Graph, n: nat, k: Label, expr: Expr)
    requires WellFormed(g, n) && k in g && g[k].Kargs? && g[k].term.Continue? && (expr.ECall? || expr.EPrimcall?)
    ensures WellFormed(g[k := g[k].(term := Continue(g[k].term.k, expr))], n)
  {
    var h := g[k := g[k].(term := Continue(g[k].term.k, expr))];
    forall l | l in h
      ensures Grounded(h, l)
    {
      assert Grounded(g, l);
    }
    forall l, t: nat
      ensures BindsTemp(h, l, t) == BindsTemp(g, l, t)
    {
    }
  }

  lemma ExtendsSelf(g: Graph, n: nat)
    ensures Extends(g, g, n)
  {
  }

  lemma ExtendsAt(g: Graph, h: Graph, n: nat, k: Label)
    requires Extends(g, h, n)
    ensures k in g ==> k in h && h[k] == g[k]
    ensures k !in g && k < n ==> k !in h
  {
  }

  lemma ExtendsKeeps(g: Graph, h: Graph, n: nat, lo: nat, hi: nat, e: Label)
    requires Extends(g, h, n)
    ensures Keeps(g, h, lo, hi, e)
  {
  }

  lemma ExtendsPatched(g: Graph, h: Graph, n: nat, k: Label, vars: seq<Name>)
    requires Extends(g, h, n) && k in h && h[k].Kargs? && k !in g
    ensures Extends(g, h[k := h[k].(vars := vars)], n)
  {
  }

  lemma ExtendsAdded(g: Graph, h: Graph, n: nat, k: Label, kont: Kont)
    requires Extends(g, h, n) && k !in h && n <= k
    ensures Extends(g, h[k := kont], n)
  {
  }

  lemma ExtendsTransitive(g: Graph, h: Graph, i: Graph, n: nat, m: nat)
    requires n <= m && Extends(g, h, n) && Extends(h, i, m)
    ensures Extends(g, i, n)
  {
  }

  lemma BoundBelow(g: Graph, n: nat, k: Label)
    requires WellFormed(g, n) && k in g
    ensures k < n
  {
  }

  lemma BodyBelow(g: Graph, n: nat, k: Label)
    requires WellFormed(g, n) && k in g && g[k].Kproc?
    ensures g[k].body < n
  {
    assert Grounded(g, k);
  }

  lemma FreshLabel(g: Graph, n: nat, k: Label)
    requires WellFormed(g, n) && n <= k
    ensures k !in g
  {
  }

  /** A graph obtained after the loop over a call's elements has gone on: it
      keeps the elements' code so far, and the variables of the call itself. */
  ghost predicate Later(g: Graph, h: Graph, call: Label, n: nat, counter: nat, k: Label) {
    && Keeps(g, h, n, counter, k)
    && (k != call && call in g && g[call].Kargs? ==> HasVars(h, call, g[call].vars))
  }

  /** What remains of a call's elements once the loop has come to `rest`. */
  ghost predicate Remaining(elems: Forms, rest: Option<Forms>, call: Label, first: nat, n: nat,
                            k: Label, tmp: nat, counter: nat, names: seq<Name>) {
    match rest
    case None =>
      && EntryElems(elems, call, n) == k && NextElems(elems, n) == counter
      && EntryTempElems(elems, first, n) == tmp && ElemNames(elems, first, n) == names
    case Some(es) =>
      && EntryElems(elems, call, n) == EntryElems(es, k, counter)
      && NextElems(elems, n) == NextElems(es, counter)
      && EntryTempElems(elems, first, n) == EntryTempElems(es, tmp, counter)
      && ElemNames(elems, first, n) == names + ElemNames(es, tmp, counter)
  }

  /** Code for the remaining elements completes the code of them all. */
  ghost predicate Completes(g: Graph, elems: Forms, rest: Option<Forms>, call: Label, first: nat, n: nat,
                            k: Label, tmp: nat, counter: nat) {
    forall h {:trigger CodeElems(h, elems, call, first, n)} ::
      Later(g, h, call, n, counter, k) && (rest.Some? ==> CodeElems(h, rest.value, k, tmp, counter)) ==>
      CodeElems(h, elems, call, first, n)
  }

  function RestOf(es: Forms): Option<Forms> {
    match es
    case Last(_) => None
    case More(_, rest) => Some(rest)
  }

  lemma RemainingVar(elems: Forms, es: Forms, call: Label, first: nat, n: nat, k: Label, tmp: nat, counter: nat,
                     names: seq<Name>)
    requires es.e.Var? && Remaining(elems, Some(es), call, first, n, k, tmp, counter, names)
    ensures Remaining(elems, RestOf(es), call, first, n, k, tmp, counter, names + [User(es.e.x)])
  {
    assert NextElem(es.e, counter) == counter;
    if es.Last? {
      assert ElemNames(es, tmp, counter) == [User(es.e.x)] && NextElems(es, counter) == counter;
    } else {
      assert ElemNames(es, tmp, counter) == [User(es.e.x)] + ElemNames(es.rest, tmp, counter);
    }
  }

  lemma RemainingForm(elems: Forms, es: Forms, call: Label, first: nat, n: nat, k: Label, tmp: nat, counter: nat,
                      names: seq<Name>)
    requires !es.e.Var? && Remaining(elems, Some(es), call, first, n, k, tmp, counter, names)
    ensures Remaining(elems, RestOf(es), call, first, n, Entry(es.e, counter), EntryTemp(es.e, counter),
                      Next(es.e, counter), names + [Temp(tmp)])
  {
    assert NextElem(es.e, counter) == Next(es.e, counter);
    if es.Last? {
      assert ElemNames(es, tmp, counter) == [Temp(tmp)] && NextElems(es, counter) == Next(es.e, counter);
    } else {
      assert ElemNames(es, tmp, counter) ==
        [Temp(tmp)] + ElemNames(es.rest, EntryTemp(es.e, counter), NextElem(es.e, counter));
    }
  }

  lemma CompletesVar(g: Graph, elems: Forms, es: Forms, call: Label, first: nat, n: nat, k: Label, tmp: nat, counter: nat)
    requires es.e.Var? && Completes(g, elems, Some(es), call, first, n, k, tmp, counter)
    ensures Completes(g, elems, RestOf(es), call, first, n, k, tmp, counter)
  {
  }

  /** One more element that is not an identifier has been translated. */
  lemma CompletesForm(g: Graph, g1: Graph, elems: Forms, es: Forms, call: Label, first: nat, n: nat,
                      k: Label, tmp: nat, counter: nat)
    requires !es.e.Var? && Completes(g, elems, Some(es), call, first, n, k, tmp, counter)
    requires call < n <= counter && (k == call || n <= k < counter)
    requires HasVars(g, k, [Temp(tmp)]) && call in g && g[call].Kargs?
    requires Extends(g, g1, counter) && Code(g1, es.e, k, counter)
    ensures Completes(g1, elems, RestOf(es), call, first, n, Entry(es.e, counter), EntryTemp(es.e, counter), Next(es.e, counter))
  {
    var e := es.e;
    var k1, m := Entry(e, counter), Next(e, counter);
    forall h | Later(g1, h, call, n, m, k1) &&
               (RestOf(es).Some? ==> CodeElems(h, RestOf(es).value, k1, EntryTemp(e, counter), m))
      ensures CodeElems(h, elems, call, first, n)
    {
      assert Keeps(g1, h, counter, m, k1);
      KeepsCode(g1, h, e, k, counter);
      assert HasVars(h, k, [Temp(tmp)]);
      assert CodeElems(h, es, k, tmp, counter);
      assert Later(g, h, call, n, counter, k);
    }
  }

  // ------------------------------------------- what a translation step adds

  /** From graph `g0` and counter `n0` to graph `g` and counter `n`: the code of
      `f` with continuation `cc` was added and starts at `k`. */
  ghost predicate Translated(g0: Graph, n0: nat, g: Graph, n: nat, f: Form, cc: Label, k: Label) {
    && k == Entry(f, n0) && n == Next(f, n0)
    && WellFormed(g, n) && Extends(g0, g, n0)
    && Code(g, f, cc, n0) && HasVars(g, k, [Temp(EntryTemp(f, n0))])
  }

  ghost predicate TranslatedBody(g0: Graph, n0: nat, g: Graph, n: nat, fs: Forms, cc: Label, k: Label) {
    && k == EntryBody(fs, n0) && n == NextBody(fs, n0)
    && WellFormed(g, n) && Extends(g0, g, n0)
    && CodeBody(g, fs, cc, n0) && HasVars(g, k, [Temp(EntryTempBody(fs, n0))])
  }

  /** The arms of a conditional, their entry continuations taking no value. */
  ghost predicate ArmsCode(g: Graph, t: Form, e: Form, cc: Label, n: nat) {
    var n1 := Next(t, n);
    && Code(g, t, cc, n) && HasVars(g, Entry(t, n), [])
    && Code(g, e, cc, n1) && HasVars(g, Entry(e, n1), [])
  }

  lemma TranslatedBegin(g0: Graph, n0: nat, g: Graph, n: nat, fs: Forms, cc: Label, k: Label)
    requires TranslatedBody(g0, n0, g, n, fs, cc, k)
    ensures Translated(g0, n0, g, n, Begin(fs), cc, k)
  {
  }

  lemma TranslatedLast(g0: Graph, n0: nat, g: Graph, n: nat, e: Form, cc: Label, k: Label)
    requires Translated(g0, n0, g, n, e, cc, k)
    ensures TranslatedBody(g0, n0, g, n, Last(e), cc, k)
  {
  }

  lemma TranslatedMore(g0: Graph, n0: nat, g1: Graph, n1: nat, g: Graph, n: nat, e: Form, rest: Forms,
                       cc: Label, k1: Label, k: Label)
    requires TranslatedBody(g0, n0, g1, n1, rest, cc, k1) && Translated(g1, n1, g, n, e, k1, k)
    ensures TranslatedBody(g0, n0, g, n, More(e, rest), cc, k)
  {
    ExtendsTransitive(g0, g1, g, n0, n1);
    ExtendsKeeps(g1, g, n1, n0, n1, k1);
    KeepsCodeBody(g1, g, rest, cc, n0);
  }

  /** Taking the variables of one form's entry away leaves its code in place. */
  lemma PatchedCode(g: Graph, f: Form, cc: Label, n: nat, k: Label, vars: seq<Name>)
    requires Code(g, f, cc, n) && k in g && g[k].Kargs? && (k == Entry(f, n) || !(n <= k < Next(f, n)))
    ensures Code(g[k := g[k].(vars := vars)], f, cc, n)
  {
    var h := g[k := g[k].(vars := vars)];
    assert Keeps(g, h, n, Next(f, n), Entry(f, n));
    KeepsCode(g, h, f, cc, n);
  }

  lemma ArmsPatched(g1: Graph, g2: Graph, t: Form, e: Form, cc: Label, n: nat)
    returns (g: Graph)
    requires Code(g1, t, cc, n) && Extends(g1, g2, Next(t, n)) && Code(g2, e, cc, Next(t, n))
    requires Entry(t, n) in g2 && g2[Entry(t, n)].Kargs?
    requires Entry(e, Next(t, n)) in g2 && g2[Entry(e, Next(t, n))].Kargs?
    ensures var kt, kf := Entry(t, n), Entry(e, Next(t, n));
      g == g2[kt := g2[kt].(vars := [])][kf := g2[kf].(vars := [])]
    ensures ArmsCode(g, t, e, cc, n)
  {
    hide Keeps, Next, Entry;
    var n1 := Next(t, n);
    var kt, kf := Entry(t, n), Entry(e, n1);
    ExtendsKeeps(g1, g2, n1, n, n1, kt);
    KeepsCode(g1, g2, t, cc, n);
    var h := g2[kt := g2[kt].(vars := [])];
    PatchedCode(g2, t, cc, n, kt, []);
    PatchedCode(g2, e, cc, n1, kt, []);
    PatchedCode(h, t, cc, n, kf, []);
    PatchedCode(h, e, cc, n1, kf, []);
    g := h[kf := h[kf].(vars := [])];
  }

  lemma CodeOfIf(g2: Graph, g: Graph, c: Form, t: Form, e: Form, cc: Label, n: nat)
    requires ArmsCode(g2, t, e, cc, n)
    requires var n2 := Next(e, Next(t, n));
      && Extends(g2, g, n2)
      && n2 in g && g[n2] == Kargs([Temp(n2 + 1)], Branch(Temp(n2 + 1), Entry(t, n), Entry(e, Next(t, n))))
      && Code(g, c, n2, n2 + 2)
    ensures Code(g, If(c, t, e), cc, n)
  {
    hide Next, Entry, Extends;
    ArmsKept(g2, g, t, e, cc, n);
  }

  lemma ArmsKept(g2: Graph, g: Graph, t: Form, e: Form, cc: Label, n: nat)
    requires ArmsCode(g2, t, e, cc, n) && Extends(g2, g, Next(e, Next(t, n)))
    ensures ArmsCode(g, t, e, cc, n)
  {
    hide Code, Next, Entry, Keeps;
    var n1 := Next(t, n);
    ExtendsKeeps(g2, g, Next(e, n1), n, n1, Entry(t, n));
    ExtendsKeeps(g2, g, Next(e, n1), n1, Next(e, n1), Entry(e, n1));
    KeepsCode(g2, g, t, cc, n);
    KeepsCode(g2, g, e, cc, n1);
  }

  lemma TranslatedIf(g0: Graph, n: nat, g2: Graph, g3: Graph, g: Graph, m: nat, c: Form, t: Form, e: Form,
                     cc: Label, k: Label)
    requires ArmsCode(g2, t, e, cc, n) && Extends(g0, g2, n)
    requires var n2 := Next(e, Next(t, n));
      && Extends(g2, g3, n2) && n2 in g3
      && g3[n2] == Kargs([Temp(n2 + 1)], Branch(Temp(n2 + 1), Entry(t, n), Entry(e, Next(t, n))))
      && Translated(g3, n2 + 2, g, m, c, n2, k)
    ensures Translated(g0, n, g, m, If(c, t, e), cc, k)
  {
    var n2 := Next(e, Next(t, n));
    EntryOfIf(c, t, e, n);
    assert Extends(g0, g, n) by {
      ExtendsTransitive(g2, g3, g, n2, n2 + 2);
      ExtendsTransitive(g0, g2, g, n, n2);
    }
    assert Code(g, If(c, t, e), cc, n) by {
      ExtendsTransitive(g2, g3, g, n2, n2 + 2);
      CodeOfIf(g2, g, c, t, e, cc, n);
    }
  }

  /** The procedure continuation of a lambda, added around the code of its body. */
  lemma CodeOfProc(g: Graph, n: nat, lam: Lam, body: Label) returns (h: Graph)
    requires CodeBody(g, lam.body, n, n + 2) && body == EntryBody(lam.body, n + 2)
    requires n in g && g[n] == Ktail && n + 1 !in g && body in g && g[body].Kargs?
    ensures var vars := UserNames(ParamNames(lam.params, lam.rest));
      h == g[body := g[body].(vars := vars)][n + 1 := Kproc(UserNames(lam.params), UserRest(lam.rest), n, body)]
    ensures CodeProc(h, lam, n)
  {
    var vars := UserNames(ParamNames(lam.params, lam.rest));
    h := g[body := g[body].(vars := vars)][n + 1 := Kproc(UserNames(lam.params), UserRest(lam.rest), n, body)];
    assert Keeps(g, h, n + 2, NextBody(lam.body, n + 2), body);
    KeepsCodeBody(g, h, lam.body, n, n + 2);
  }

  lemma TranslatedLambda(g0: Graph, n0: nat, g1: Graph, n1: nat, g: Graph, lam: Lam, cc: Label)
    requires n1 == NextBody(lam.body, n0 + 2) && Extends(g0, g1, n0) && CodeProc(g1, lam, n0)
    requires Extends(g1, g, n1) && WellFormed(g, n1 + 2)
    requires HasTerm(g, n1, Continue(cc, EProc(n0 + 1))) && HasVars(g, n1, [Temp(n1 + 1)])
    ensures Translated(g0, n0, g, n1 + 2, Lambda(lam), cc, n1)
  {
    hide WellFormed, Keeps, CodeProc;
    ExtendsTransitive(g0, g1, g, n0, n1);
    ExtendsKeeps(g1, g, n1, n0, n1, n1);
    KeepsCodeProc(g1, g, lam, n0);
  }

  /** Where the loop over the elements of a call stands. */
  ghost predicate InCall(g0: Graph, g: Graph, elems: Forms, rest: Option<Forms>, n: nat,
                         k: Label, tmp: nat, m: nat, names: seq<Name>) {
    && WellFormed(g, m) && Extends(g0, g, n) && n <= m
    && (k == n - 1 || n <= k < m) && HasVars(g, k, [Temp(tmp)])
    && n >= 6 && n - 1 in g0 && g0[n - 1].Kargs?
    && Remaining(elems, rest, n - 1, n - 2, n, k, tmp, m, names)
    && Completes(g, elems, rest, n - 1, n - 2, n, k, tmp, m)
  }

  lemma InCallStart(g: Graph, elems: Forms, n: nat)
    requires n >= 6 && WellFormed(g, n) && HasVars(g, n - 1, [Temp(n - 2)])
    ensures InCall(g, g, elems, Some(elems), n, n - 1, n - 2, n, [])
  {
    assert [] + ElemNames(elems, n - 2, n) == ElemNames(elems, n - 2, n);
  }

  lemma InCallVar(g0: Graph, g: Graph, elems: Forms, es: Forms, n: nat, k: Label, tmp: nat, m: nat, names: seq<Name>)
    requires es.e.Var? && InCall(g0, g, elems, Some(es), n, k, tmp, m, names)
    ensures InCall(g0, g, elems, RestOf(es), n, k, tmp, m, names + [User(es.e.x)])
  {
    RemainingVar(elems, es, n - 1, n - 2, n, k, tmp, m, names);
    CompletesVar(g, elems, es, n - 1, n - 2, n, k, tmp, m);
  }

  lemma InCallForm(g0: Graph, g: Graph, g1: Graph, elems: Forms, es: Forms, n: nat, k: Label, tmp: nat, m: nat,
                   names: seq<Name>, k1: Label, m1: nat)
    requires !es.e.Var? && InCall(g0, g, elems, Some(es), n, k, tmp, m, names)
    requires Translated(g, m, g1, m1, es.e, k, k1)
    ensures InCall(g0, g1, elems, RestOf(es), n, k1, EntryTemp(es.e, m), m1, names + [Temp(tmp)])
  {
    hide WellFormed;
    assert Remaining(elems, RestOf(es), n - 1, n - 2, n, k1, EntryTemp(es.e, m), m1, names + [Temp(tmp)]) by {
      RemainingForm(elems, es, n - 1, n - 2, n, k, tmp, m, names);
    }
    assert Completes(g1, elems, RestOf(es), n - 1, n - 2, n, k1, EntryTemp(es.e, m), m1) by {
      CompletesCall(g0, g, elems, es, n, k, tmp, m, names);
      CompletesForm(g, g1, elems, es, n - 1, n - 2, n, k, tmp, m);
    }
    assert Extends(g0, g1, n) by {
      ExtendsTransitive(g0, g, g1, n, m);
    }
  }

  lemma CompletesCall(g0: Graph, g: Graph, elems: Forms, es: Forms, n: nat, k: Label, tmp: nat, m: nat, names: seq<Name>)
    requires InCall(g0, g, elems, Some(es), n, k, tmp, m, names)
    ensures n - 1 in g && g[n - 1].Kargs?
  {
  }

  /** What the loop needs to go on. */
  lemma InCallReady(g0: Graph, g: Graph, elems: Forms, rest: Option<Forms>, n: nat, k: Label, tmp: nat, m: nat,
                    names: seq<Name>)
    requires InCall(g0, g, elems, rest, n, k, tmp, m, names)
    ensures WellFormed(g, m) && k in g && g[k].Kargs? && n >= 6 && n - 1 in g && g[n - 1].Kargs?
    ensures n - 1 in g0 && g[n - 1] == g0[n - 1]
    ensures rest.None? ==> names == ElemNames(elems, n - 2, n)
  {
  }

  lemma TranslatedReady(g0: Graph, n0: nat, g: Graph, n: nat, f: Form, cc: Label, k: Label)
    requires Translated(g0, n0, g, n, f, cc, k)
    ensures WellFormed(g, n) && k in g && g[k].Kargs? && g[k].vars == [Temp(EntryTemp(f, n0))]
  {
  }

  /** The continuation after a call and the receiver of the call's value. */
  predicate CallKonts(g: Graph, cc: Label, n: nat) {
    && n + 2 in g && g[n + 2] == Kargs([Temp(n)], Continue(cc, EValues([Temp(n)])))
    && n + 3 in g && g[n + 3] == Kreceive([Temp(n)], None, n + 2)
  }

  lemma CodeOfCall(g0: Graph, g2: Graph, g: Graph, elems: Forms, cc: Label, n: nat, k: Label, names: seq<Name>)
    requires CallKonts(g0, cc, n) && Extends(g0, g2, n + 6) && n + 5 in g2 && g2[n + 5].Kargs?
    requires names == ElemNames(elems, n + 4, n + 6)
    requires g == g2[n + 5 := g2[n + 5].(term := Continue(n + 3, CallExpr(names)))]
    requires Completes(g2, elems, None, n + 5, n + 4, n + 6, k, EntryTempElems(elems, n + 4, n + 6), NextElems(elems, n + 6))
    ensures Code(g, Call(elems), cc, n)
  {
    assert Later(g2, g, n + 5, n + 6, NextElems(elems, n + 6), k);
    assert CodeElems(g, elems, n + 5, n + 4, n + 6);
    assert g0[n + 2] == g[n + 2] && g0[n + 3] == g[n + 3];
  }

  lemma EntryOfCall(elems: Forms, n: nat)
    ensures Entry(Call(elems), n) == EntryElems(elems, n + 5, n + 6)
    ensures Next(Call(elems), n) == NextElems(elems, n + 6)
    ensures EntryTemp(Call(elems), n) == EntryTempElems(elems, n + 4, n + 6)
  {
  }

  lemma TranslatedCall(g00: Graph, n: nat, g0: Graph, g2: Graph, g: Graph, m: nat, elems: Forms,
                       cc: Label, k: Label, tmp: nat, names: seq<Name>)
    requires CallKonts(g0, cc, n) && Extends(g00, g0, n) && n + 5 !in g00
    requires InCall(g0, g2, elems, None, n + 6, k, tmp, m, names)
    requires n + 5 in g2 && g2[n + 5].Kargs?
    requires g == g2[n + 5 := g2[n + 5].(term := Continue(n + 3, CallExpr(names)))] && WellFormed(g, m)
    ensures Translated(g00, n, g, m, Call(elems), cc, k)
  {
    EntryOfCall(elems, n);
    CodeOfCall(g0, g2, g, elems, cc, n, k, names);
    ExtendsTransitive(g00, g0, g2, n, n + 6);
  }

  class Translator {
    var graph: Graph
    var counter: nat

    /** An empty graph but for the tail the program delivers its value to. */
    constructor ()
      ensures graph == map[0 := Ktail] && counter == 1
      ensures WellFormed(graph, counter)
    {
      graph := map[0 := Ktail];
      counter := 1;
    }

    method Gensym() returns (n: nat)
      modifies this`counter
      ensures n == old(counter) && counter == n + 1
    {
      n := counter;
      counter := counter + 1;
    }

    /** Binds an unused label; temporaries numbered from `n` may be new in it. */
    method Add(k: Label, kont: Kont, ghost n: nat)
      requires WellFormed(graph, n) && n <= counter && k < counter && k !in graph
      requires forall s :: s in Succs(kont) ==> s in graph && s < k
      requires KontClosed(graph, kont) && CodeBefore(graph, kont, k) && (kont.Kargs? ==> FreshVars(kont.vars, n, counter))
      modifies this`graph
      ensures graph == old(graph)[k := kont] && WellFormed(graph, counter)
    {
      WellFormedAdd(graph, n, k, kont, counter);
      graph := graph[k := kont];
    }

    /** Overwrites the variables of a continuation already in the graph. */
    method SetVars(k: Label, vars: seq<Name>)
      requires WellFormed(graph, counter) && k in graph && graph[k].Kargs? && FreshVars(vars, 0, 0)
      modifies this`graph
      ensures graph == old(graph)[k := old(graph[k]).(vars := vars)]
      ensures WellFormed(graph, counter)
    {
      WellFormedPatch(graph, counter, k, vars);
      graph := graph[k := graph[k].(vars := vars)];
    }

    /** A new continuation that takes one value. */
    method AddKargs(t: Term) returns (k: Label)
      requires WellFormed(graph, counter)
      requires forall s :: s in Succs(Kargs([], t)) ==> s in graph
      requires KontClosed(graph, Kargs([], t)) && CodeBefore(graph, Kargs([], t), counter)
      modifies this
      ensures k == old(counter) && counter == k + 2
      ensures graph == old(graph)[k := Kargs([Temp(k + 1)], t)]
      ensures WellFormed(graph, counter) && Extends(old(graph), graph, k)
    {
      k := Gensym();
      var tmp := Gensym();
      FreshLabel(graph, k, k);
      forall s | s in Succs(Kargs([], t))
        ensures s < k
      {
        BoundBelow(graph, k, s);
      }
      Add(k, Kargs([Temp(tmp)], t), k);
    }

    method AddExpr(cc: Label, expr: Expr) returns (k: Label)
      requires WellFormed(graph, counter) && cc in graph && !graph[cc].Kproc?
      requires expr.EProc? ==> expr.k in graph && graph[expr.k].Kproc?
      requires (expr.EValues? ==> |expr.args| == 1) && (expr.EConst? ==> IsData(expr.v))
      modifies this
      ensures k == old(counter) && counter == k + 2
      ensures HasTerm(graph, k, Continue(cc, expr)) && HasVars(graph, k, [Temp(k + 1)])
      ensures WellFormed(graph, counter) && Extends(old(graph), graph, k)
    {
      if expr.EProc? {
        BodyBelow(graph, counter, expr.k);
      }
      k := AddKargs(Continue(cc, expr));
    }

    method AddBranch(kt: Label, kf: Label) returns (k: Label)
      requires WellFormed(graph, counter) && kt in graph && graph[kt].Kargs? && kf in graph && graph[kf].Kargs?
      modifies this
      ensures k == old(counter) && counter == k + 2
      ensures k in graph && graph[k] == Kargs([Temp(k + 1)], Branch(Temp(k + 1), kt, kf))
      ensures WellFormed(graph, counter) && Extends(old(graph), graph, k)
    {
      k := AddKargs(Branch(Temp(counter + 1), kt, kf));
    }

    /** Adds the code of `form`, which goes on to `cc`, and returns its entry. */
    method Translate(cc: Label, form: Form) returns (k: Label)
      requires WellFormed(graph, counter) && cc in graph && !graph[cc].Kproc?
      modifies this
      ensures Translated(old(graph), old(counter), graph, counter, form, cc, k)
      ensures form.Const? || form.Quote? ==> k in graph && Says(graph[k], cc, form.d)
      decreases form, 3
    {
      ghost var n, g := counter, graph;
      match form
      case Begin(body) =>
        k := TranslateBody(cc, body);
        TranslatedBegin(g, n, graph, counter, body, cc, k);
      case If(c, t, e) => k := TranslateIf(cc, c, t, e);
      case Lambda(lam) => k := TranslateLambda(cc, lam);
      case Call(elems) => k := TranslateCall(cc, elems);
      case Const(d) => EmbedData(d); EmbedDenotes<Name, Label>(d); k := AddExpr(cc, EConst(Embed(d)));
      case Quote(d) => EmbedData(d); EmbedDenotes<Name, Label>(d); k := AddExpr(cc, EConst(Embed(d)));
      case Var(x) => k := AddExpr(cc, VarExpr(x));
    }

    /** The forms after the first are translated first. */
    method TranslateBody(cc: Label, fs: Forms) returns (k: Label)
      requires WellFormed(graph, counter) && cc in graph && !graph[cc].Kproc?
      modifies this
      ensures TranslatedBody(old(graph), old(counter), graph, counter, fs, cc, k)
      decreases fs
    {
      ghost var n, g := counter, graph;
      match fs
      case Last(e) =>
        k := Translate(cc, e);
        TranslatedLast(g, n, graph, counter, e, cc, k);
      case More(e, rest) =>
        var next := TranslateBody(cc, rest);
        ghost var n1, g1 := counter, graph;
        k := Translate(next, e);
        TranslatedMore(g, n, g1, n1, graph, counter, e, rest, cc, next, k);
    }

    /** Both arms of a conditional. No value is passed to them, so their entry
        continuations lose their variables. */
    method TranslateArms(cc: Label, t: Form, e: Form, ghost f: Form) returns (kt: Label, kf: Label)
      requires WellFormed(graph, counter) && cc in graph && !graph[cc].Kproc? && t < f && e < f
      modifies this
      ensures ArmsCode(graph, t, e, cc, old(counter)) && counter == Next(e, Next(t, old(counter)))
      ensures WellFormed(graph, counter) && Extends(old(graph), graph, old(counter))
      ensures kt == Entry(t, old(counter)) && kf == Entry(e, Next(t, old(counter))) && kt in graph && graph[kt].Kargs?
      ensures kf in graph && graph[kf].Kargs?
      decreases f, 1
    {
      hide WellFormed, Extends, Code, Next, Entry, ArmsCode;
      ghost var n, g := counter, graph;
      kt := Translate(cc, t);
      ghost var n1, g1 := counter, graph;
      ExtendsAt(g, g1, n, cc);
      kf := Translate(cc, e);
      ghost var g2 := graph;
      ExtendsAt(g1, g2, n1, kt);
      FreshLabel(g, n, kt);
      FreshLabel(g, n, kf);
      ExtendsTransitive(g, g1, g2, n, n1);
      ghost var h := ArmsPatched(g1, g2, t, e, cc, n);
      SetVars(kt, []);
      ExtendsPatched(g, g2, n, kt, []);
      ExtendsPatched(g, graph, n, kf, []);
      SetVars(kf, []);
    }

    method TranslateIf(cc: Label, c: Form, t: Form, e: Form) returns (k: Label)
      requires WellFormed(graph, counter) && cc in graph && !graph[cc].Kproc?
      modifies this
      ensures Translated(old(graph), old(counter), graph, counter, If(c, t, e), cc, k)
      decreases If(c, t, e), 2
    {
      hide WellFormed, ArmsCode, Extends, Code, Next, Entry, EntryTemp;
      ghost var n, g := counter, graph;
      var kt, kf := TranslateArms(cc, t, e, If(c, t, e));
      ghost var n2, g2 := counter, graph;
      var test := AddBranch(kt, kf);
      ghost var g3 := graph;
      k := Translate(test, c);
      TranslatedIf(g, n, g2, g3, graph, counter, c, t, e, cc, k);
    }

    /** The tail, the body and the procedure continuation of a lambda. The body's
        entry continuation receives the parameters. */
    method TranslateProc(lam: Lam) returns (code: Label)
      requires WellFormed(graph, counter)
      modifies this
      ensures code == old(counter) + 1 && counter == NextBody(lam.body, old(counter) + 2)
      ensures WellFormed(graph, counter) && Extends(old(graph), graph, old(counter))
      ensures code in graph && CodeProc(graph, lam, old(counter))
      decreases lam, 0
    {
      hide WellFormed, Extends;
      ghost var n, g := counter, graph;
      FreshLabel(graph, n, n);
      FreshLabel(graph, n, n + 1);
      var tail := Gensym();
      Add(tail, Ktail, n);
      code := Gensym();
      ghost var g1 := graph;
      WellFormedLater(g1, n + 1, n + 2);
      ExtendsSelf(g, n);
      ExtendsAdded(g, g, n, n, Ktail);
      var body := TranslateBody(tail, lam.body);
      ExtendsTransitive(g, g1, graph, n, n + 2);
      ExtendsAt(g1, graph, n + 2, tail);
      ExtendsAt(g1, graph, n + 2, code);
      FreshLabel(g, n, body);
      FinishProc(lam, tail, code, body, g);
    }

    method FinishProc(lam: Lam, tail: Label, code: Label, body: Label, ghost g: Graph)
      requires WellFormed(graph, counter) && Extends(g, graph, tail)
      requires code == tail + 1 < counter && code !in graph && tail in graph && graph[tail] == Ktail
      requires CodeBody(graph, lam.body, tail, tail + 2) && body == EntryBody(lam.body, tail + 2)
      requires body in graph && graph[body].Kargs? && body !in g
      modifies this`graph
      ensures WellFormed(graph, counter) && Extends(g, graph, tail)
      ensures code in graph && CodeProc(graph, lam, tail)
    {
      var vars := UserNames(ParamNames(lam.params, lam.rest));
      ghost var h := CodeOfProc(graph, tail, lam, body);
      ExtendsPatched(g, graph, tail, body, vars);
      SetVars(body, vars);
      ExtendsAdded(g, graph, tail, code, Kproc(UserNames(lam.params), UserRest(lam.rest), tail, body));
      Add(code, Kproc(UserNames(lam.params), UserRest(lam.rest), tail, body), counter);
    }

    method TranslateLambda(cc: Label, lam: Lam) returns (k: Label)
      requires WellFormed(graph, counter) && cc in graph && !graph[cc].Kproc?
      modifies this
      ensures Translated(old(graph), old(counter), graph, counter, Lambda(lam), cc, k)
      decreases lam, 1
    {
      ghost var n, g := counter, graph;
      var code := TranslateProc(lam);
      ghost var g1 := graph;
      k := AddExpr(cc, EProc(code));
      TranslatedLambda(g, n, g1, k, graph, lam, cc);
    }

    /** The elements are translated from left to right, each one continuing to
        the code of the one before, so that the last is evaluated first. */
    method TranslateCall(cc: Label, elems: Forms) returns (k: Label)
      requires WellFormed(graph, counter) && cc in graph && !graph[cc].Kproc?
      modifies this
      ensures Translated(old(graph), old(counter), graph, counter, Call(elems), cc, k)
      decreases elems
    {
      hide InCall, Translated, WellFormed, Extends;
      ghost var n, g := counter, graph;
      var call := AddCall(cc);
      k := call;
      var receive, tmp := call - 2, call - 1;
      ghost var g0 := graph;
      var names: seq<Name> := [];
      var rest := Some(elems);
      InCallStart(graph, elems, counter);
      while rest.Some?
        invariant InCall(g0, graph, elems, rest, n + 6, k, tmp, counter, names)
        invariant rest.Some? ==> rest.value == elems || rest.value < elems
        decreases if rest.Some? then Count(rest.value) else 0
      {
        var es := rest.value;
        InCallReady(g0, graph, elems, rest, n + 6, k, tmp, counter, names);
        if es.e.Var? {
          InCallVar(g0, graph, elems, es, n + 6, k, tmp, counter, names);
          names := names + [User(es.e.x)];
        } else {
          ghost var g1, k1, m1 := graph, k, counter;
          k := Translate(k, es.e);
          InCallForm(g0, g1, graph, elems, es, n + 6, k1, tmp, m1, names, k, counter);
          TranslatedReady(g1, m1, graph, counter, es.e, k1, k);
          names := names + [Temp(tmp)];
          tmp := graph[k].vars[0].id;
        }
        rest := RestOf(es);
      }
      InCallReady(g0, graph, elems, rest, n + 6, k, tmp, counter, names);
      ghost var g2 := graph;
      SetCall(call, CallExpr(names));
      TranslatedCall(g, n, g0, g2, graph, counter, elems, cc, k, tmp, names);
    }

    /** Fills in the expression of a call. */
    method SetCall(call: Label, expr: Expr)
      requires WellFormed(graph, counter) && call in graph && graph[call].Kargs? && graph[call].term.Continue?
      requires expr.ECall? || expr.EPrimcall?
      modifies this`graph
      ensures graph == old(graph)[call := old(graph[call]).(term := Continue(old(graph[call].term.k), expr))]
      ensures WellFormed(graph, counter)
    {
      WellFormedTerm(graph, counter, call, expr);
      graph := graph[call := graph[call].(term := Continue(graph[call].term.k, expr))];
    }

    /** The continuation after a call, and the receiver of the call's value. */
    method AddReceiver(cc: Label) returns (receive: Label)
      requires WellFormed(graph, counter) && cc in graph && !graph[cc].Kproc?
      modifies this
      ensures receive == old(counter) + 3 && counter == receive + 1 && CallKonts(graph, cc, old(counter))
      ensures WellFormed(graph, counter) && Extends(old(graph), graph, old(counter))
    {
      hide WellFormed, Extends;
      ghost var n, g := counter, graph;
      FreshLabel(g, n, n + 2);
      FreshLabel(g, n, n + 3);
      BoundBelow(g, n, cc);
      var result := Gensym();
      var unused := Gensym();
      var after := Gensym();
      var kont := Kargs([Temp(result)], Continue(cc, EValues([Temp(result)])));
      ExtendsSelf(g, n);
      ExtendsAdded(g, g, n, after, kont);
      Add(after, kont, n);
      ghost var g1 := graph;
      receive := Gensym();
      ExtendsAdded(g, g1, n, receive, Kreceive([Temp(result)], None, after));
      Add(receive, Kreceive([Temp(result)], None, after), receive);
    }

    /** The call itself; its expression is filled in once the elements are translated. */
    method AddCall(cc: Label) returns (call: Label)
      requires WellFormed(graph, counter) && cc in graph && !graph[cc].Kproc?
      modifies this
      ensures call == old(counter) + 5 && counter == call + 1
      ensures CallKonts(graph, cc, old(counter))
      ensures HasVars(graph, call, [Temp(call - 1)]) && HasTerm(graph, call, Continue(call - 2, EConst(Void)))
      ensures WellFormed(graph, counter) && Extends(old(graph), graph, old(counter)) && call !in old(graph)
    {
      hide WellFormed, Extends;
      ghost var n, g := counter, graph;
      var receive := AddReceiver(cc);
      ghost var g1 := graph;
      var tmp := Gensym();
      call := Gensym();
      FreshLabel(g1, tmp, call);
      FreshLabel(g, n, call);
      ExtendsAdded(g, g1, n, call, Kargs([Temp(tmp)], Continue(receive, EConst(Void))));
      Add(call, Kargs([Temp(tmp)], Continue(receive, EConst(Void))), tmp);
    }
  }

  lemma ClosedOneValued(g: Graph)
    requires Closed(g)
    ensures OneValued(g)
  {
    forall k | k in g
      ensures ReturnsOne(g, k)
    {
      assert Grounded(g, k);
    }
  }

  /** In a translated graph a value on its way to a tail is always passed on through one
      variable, so the tail-call rewrite needs no further test. */
  lemma ClosedPassesOne(g: Graph, k: Label)
    requires Closed(g) && k in g && TailTarget(g, k).Some?
    ensures |PassedVars(g, k)| == 1
  {
    ClosedOneValued(g);
    PassesOne(g, k);
  }

  /** A whole program: the graph is closed, acyclic along continuation edges and
      free of rebound temporaries, and it delivers the data the program does. */
  method TranslateProgram(form: Form) returns (g: Graph, entry: Label)
    ensures Closed(g) && TempsDistinct(g) && OneValued(g)
    ensures entry in g && g[entry].Kargs?
    ensures NoPrimBound(form) ==> forall fuel: nat, senv: SEnv, env: GEnv, d: Datum ::
      EnvRelated(g, senv, env) ==>
        (Eval(fuel, senv, form) == SDone(Embed(d)) <==>
         RunTerm(fuel, g, BY_LABEL, entry, env) == Done([Embed<Name, Label>(d)]))
  {
    var t := new Translator();
    entry := t.Translate(0, form);
    g := t.graph;
    ClosedOneValued(g);
    if NoPrimBound(form) {
      forall fuel: nat, senv: SEnv, env: GEnv, d: Datum | EnvRelated(g, senv, env)
        ensures Eval(fuel, senv, form) == SDone(Embed(d)) <==>
                RunTerm(fuel, g, BY_LABEL, entry, env) == Done([Embed<Name, Label>(d)])
      {
        SameDatum(fuel, g, form, 0, 1, senv, env, d);
      }
    }
  }
}
