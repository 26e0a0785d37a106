/** What the continuations of a translated program look like, and which variables it
    leaves free. */
module CpsShape {
  import opened CpsValues
  import opened CpsLang
  import opened CpsTranslate
  import opened CpsTranslator
  import opened CpsConst
  import opened CpsCollect
  import opened CpsLive
  import opened CpsProgram

  // ----------------------------------------------------------- free variables

  /** The identifiers a form refers to without binding them; primitives are among them. */
  function FreeIds(f: Form): set<Sym> {
    match f
    case Var(x) => {x}
    case If(c, t, e) => FreeIds(c) + FreeIds(t) + FreeIds(e)
    case Begin(body) => FreeIdsIn(body)
    case Lambda(lam) => FreeIdsIn(lam.body) - Params(lam)
    case Call(elems) => FreeIdsIn(elems)
    case _ => {}
  }

  function FreeIdsIn(fs: Forms): set<Sym> {
    match fs
    case Last(e) => FreeIds(e)
    case More(e, rest) => FreeIds(e) + FreeIdsIn(rest)
  }

  /** What is needed at `k` is needed at `cc` too, or is one of these identifiers. */
  ghost predicate Wants(g: Graph, k: Label, cc: Label, ids: set<Sym>)
    requires Acyclic(g, Deep(g))
  {
    k in g && g[k].Kargs? && cc in g
    && forall x :: x in NeedTerm(g, Deep(g), k) ==> x in Need(g, Deep(g), cc) || (x.User? && x.s in ids)
  }

  /** The same of what is needed on arriving at `k`. */
  ghost predicate Leaves(g: Graph, k: Label, cc: Label, ids: set<Sym>)
    requires Acyclic(g, Deep(g))
  {
    k in g && cc in g && forall x :: x in Need(g, Deep(g), k) ==> x in Need(g, Deep(g), cc) || (x.User? && x.s in ids)
  }

  lemma WantsLeaves(g: Graph, k: Label, cc: Label, ids: set<Sym>)
    requires Acyclic(g, Deep(g)) && Wants(g, k, cc, ids)
    ensures Leaves(g, k, cc, ids)
  {
    NeedLess(g, k);
  }

  lemma WantsStep(g: Graph, k: Label, next: Label)
    requires Acyclic(g, Deep(g)) && k in g && g[k].Kargs? && g[k].term.Continue? && g[k].term.k == next && !g[k].term.expr.EProc?
    ensures next in g && NeedTerm(g, Deep(g), k) == ReadsOf(g[k].term.expr) + Need(g, Deep(g), next)
  {
    assert Leads(g[k], next);
  }

  lemma WantsOn(g: Graph, k: Label, mid: Label, cc: Label, ids: set<Sym>, js: set<Sym>)
    requires Acyclic(g, Deep(g)) && Wants(g, k, mid, ids) && Leaves(g, mid, cc, js)
    ensures Wants(g, k, cc, ids + js)
  {
    hide Acyclic, NeedTerm, Need;
  }

  lemma NeedLess(g: Graph, k: Label)
    requires Acyclic(g, Deep(g)) && k in g && g[k].Kargs?
    ensures Need(g, Deep(g), k) == NeedTerm(g, Deep(g), k) - (set x | x in g[k].vars)
  {
  }

  /** A form's code needs what its continuation needs and what is free in the form. */
  lemma {:induction false} WantsCode(g: Graph, f: Form, cc: Label, n: nat)
    requires Acyclic(g, Deep(g)) && Code(g, f, cc, n) && cc in g
    ensures Wants(g, Entry(f, n), cc, FreeIds(f))
    decreases f, 1
  {
    match f
    case Const(_) => WantsStep(g, Entry(f, n), cc);
    case Quote(_) => WantsStep(g, Entry(f, n), cc);
    case Var(_) => WantsStep(g, Entry(f, n), cc);
    case Begin(body) => WantsBody(g, body, cc, n);
    case If(c, t, e) => WantsIf(g, c, t, e, cc, n);
    case Lambda(lam) => WantsLambda(g, lam, cc, n);
    case Call(elems) => WantsCall(g, elems, cc, n);
  }

  lemma {:induction false} WantsBody(g: Graph, fs: Forms, cc: Label, n: nat)
    requires Acyclic(g, Deep(g)) && CodeBody(g, fs, cc, n) && cc in g
    ensures Wants(g, EntryBody(fs, n), cc, FreeIdsIn(fs))
    decreases fs, 0
  {
    hide Acyclic, Wants;
    match fs
    case Last(e) => WantsCode(g, e, cc, n);
    case More(e, rest) =>
      var next, m := EntryBody(rest, n), NextBody(rest, n);
      WantsBody(g, rest, cc, n);
      WantsLeaves(g, next, cc, FreeIdsIn(rest));
      WantsCode(g, e, next, m);
      WantsOn(g, Entry(e, m), next, cc, FreeIds(e), FreeIdsIn(rest));
  }

  lemma {:induction false} WantsIf(g: Graph, c: Form, t: Form, e: Form, cc: Label, n: nat)
    requires Acyclic(g, Deep(g)) && Code(g, If(c, t, e), cc, n) && cc in g
    ensures Wants(g, Entry(If(c, t, e), n), cc, FreeIds(If(c, t, e)))
    decreases If(c, t, e), 0
  {
    hide Acyclic, Code, Next, Entry, EntryTemp, Need, NeedTerm;
    EntryOfIf(c, t, e, n);
    IfCode(g, c, t, e, cc, n);
    var n1 := Next(t, n);
    var n2 := Next(e, n1);
    WantsCode(g, t, cc, n);
    WantsCode(g, e, cc, n1);
    WantsCode(g, c, n2, n2 + 2);
    WantsTest(g, n2, Entry(t, n), Entry(e, n1), cc, FreeIds(t), FreeIds(e));
    hide Wants;
    WantsOn(g, Entry(c, n2 + 2), n2, cc, FreeIds(c), FreeIds(t) + FreeIds(e));
    WantsWider(g, Entry(c, n2 + 2), cc, FreeIds(c) + (FreeIds(t) + FreeIds(e)), FreeIds(If(c, t, e)));
  }

  lemma WantsWider(g: Graph, k: Label, cc: Label, ids: set<Sym>, js: set<Sym>)
    requires Acyclic(g, Deep(g)) && Wants(g, k, cc, ids) && ids <= js
    ensures Wants(g, k, cc, js)
  {
  }

  /** The test's value is bound where it is branched on. */
  lemma WantsTest(g: Graph, k: Label, kt: Label, kf: Label, cc: Label, ids: set<Sym>, js: set<Sym>)
    requires Acyclic(g, Deep(g)) && k in g && g[k].Kargs? && g[k].term.Branch? && g[k].vars == [g[k].term.arg]
    requires g[k].term.kt == kt && g[k].term.kf == kf && Wants(g, kt, cc, ids) && Wants(g, kf, cc, js)
    ensures Leaves(g, k, cc, ids + js)
  {
    assert Leads(g[k], kt) && Leads(g[k], kf);
    NeedLess(g, k);
    NeedLess(g, kt);
    NeedLess(g, kf);
  }

  /** A procedure needs what is free in its lambda. */
  lemma {:induction false} WantsProc(g: Graph, lam: Lam, n: nat)
    requires Acyclic(g, Deep(g)) && CodeProc(g, lam, n)
    ensures forall x :: x in Need(g, Deep(g), n + 1) ==> x.User? && x.s in FreeIdsIn(lam.body) - Params(lam)
    decreases lam
  {
    var body := EntryBody(lam.body, n + 2);
    WantsBody(g, lam.body, n, n + 2);
    assert Need(g, Deep(g), n) == {};
    assert Leads(g[n + 1], body) && Need(g, Deep(g), n + 1) == Need(g, Deep(g), body);
    NeedLess(g, body);
    forall x: Sym | x in Params(lam)
      ensures User(x) in g[body].vars
    {
      ParamBound(lam, x);
    }
  }

  lemma ParamBound(lam: Lam, x: Sym)
    requires x in Params(lam)
    ensures User(x) in UserNames(ParamNames(lam.params, lam.rest))
  {
    var xs := ParamNames(lam.params, lam.rest);
    assert x in xs;
    var i :| 0 <= i < |xs| && xs[i] == x;
    assert UserNames(xs)[i] == User(x);
  }

  lemma {:induction false} WantsLambda(g: Graph, lam: Lam, cc: Label, n: nat)
    requires Acyclic(g, Deep(g)) && Code(g, Lambda(lam), cc, n) && cc in g
    ensures Wants(g, Entry(Lambda(lam), n), cc, FreeIds(Lambda(lam)))
    decreases Lambda(lam), 0
  {
    var k := NextBody(lam.body, n + 2);
    WantsProc(g, lam, n);
    assert Leads(g[k], cc) && Leads(g[k], n + 1);
    hide Acyclic, Need;
  }

  // ------------------------------------------------------------------ operands

  lemma {:induction false} WantsCall(g: Graph, elems: Forms, cc: Label, n: nat)
    requires Acyclic(g, Deep(g)) && Code(g, Call(elems), cc, n) && cc in g
    ensures Wants(g, Entry(Call(elems), n), cc, FreeIdsIn(elems))
    decreases elems, 1
  {
    EntryOfCall(elems, n);
    var names := ElemNames(elems, n + 4, n + 6);
    WantsStep(g, n + 2, cc);
    NeedLess(g, n + 2);
    assert Leads(g[n + 3], n + 2) && Need(g, Deep(g), n + 3) == Need(g, Deep(g), n + 2);
    WantsStep(g, n + 5, n + 3);
    WantsElems(g, elems, n + 5, n + 4, n + 6);
    ElemUsers(elems, n + 4, n + 6);
    assert forall x :: x in ReadsOf(CallExpr(names)) ==> x in names;
    hide Acyclic, NeedTerm, Need;
  }

  /** The identifiers a call reads are among its elements. */
  lemma {:induction false} ElemUsers(es: Forms, tmp: nat, n: nat)
    ensures forall x :: x in ElemNames(es, tmp, n) && x.User? ==> x.s in FreeIdsIn(es)
    decreases es
  {
    if es.More? {
      ElemUsers(es.rest, if es.e.Var? then tmp else EntryTemp(es.e, n), NextElem(es.e, n));
    }
  }

  /** The temporaries a call reads are bound by the time it is made. */
  lemma {:induction false} WantsElems(g: Graph, es: Forms, cc: Label, tmp: nat, n: nat)
    requires Acyclic(g, Deep(g)) && CodeElems(g, es, cc, tmp, n) && cc in g && g[cc].Kargs?
    ensures EntryElems(es, cc, n) in g && g[EntryElems(es, cc, n)].Kargs?
    ensures forall x :: x in NeedTerm(g, Deep(g), EntryElems(es, cc, n)) ==>
      (x in NeedTerm(g, Deep(g), cc) && (x.Temp? ==> x !in ElemNames(es, tmp, n))) || (x.User? && x.s in FreeIdsIn(es))
    decreases es, 0
  {
    hide Acyclic, Need, NeedTerm;
    if es.e.Var? {
      if es.More? {
        WantsElems(g, es.rest, cc, tmp, n);
      }
    } else {
      var k := Entry(es.e, n);
      WantsCode(g, es.e, cc, n);
      NeedLess(g, cc);
      if es.More? {
        WantsElems(g, es.rest, k, EntryTemp(es.e, n), Next(es.e, n));
      }
    }
  }

  // ------------------------------------------------------------ continuations

  /** No form calls `void` with arguments. */
  predicate VoidFree(f: Form) {
    match f
    case If(c, t, e) => VoidFree(c) && VoidFree(t) && VoidFree(e)
    case Begin(body) => VoidFreeIn(body)
    case Lambda(lam) => VoidFreeIn(lam.body)
    case Call(elems) => VoidFreeIn(elems) && !(elems.e == Var(PrimName(PVoid)) && elems.More?)
    case _ => true
  }

  predicate VoidFreeIn(fs: Forms) {
    match fs
    case Last(e) => VoidFree(e)
    case More(e, rest) => VoidFree(e) && VoidFreeIn(rest)
  }

  predicate AllTemps(xs: seq<Name>) {
    forall x :: x in xs ==> x.Temp?
  }

  /** Values are passed on to temporaries only. */
  predicate Lands(g: Graph, k: Label) {
    k in g && (g[k].Kargs? ==> AllTemps(g[k].vars))
  }

  /** The call of `void` with arguments. */
  predicate VoidArgs(k: Kont) {
    k.Kargs? && k.term.Continue? && k.term.expr.EPrimcall? && k.term.expr.p == PVoid && k.term.expr.args != []
  }

  /** Arms take nothing, receivers take one value, and what is bound to the value of an
      expression is a temporary. */
  predicate ShapeAt(g: Graph, k: Label, strict: bool)
    requires k in g
  {
    && (strict ==> !VoidArgs(g[k])) &&
    match g[k]
    case Kargs(_, Branch(_, kt, kf)) => kt in g && g[kt].Kargs? && g[kt].vars == [] && kf in g && g[kf].Kargs? && g[kf].vars == []
    case Kargs(_, Continue(next, _)) => Lands(g, next)
    case Kreceive(req, rest, next) => |req| == 1 && rest.None? && Lands(g, next)
    case _ => true
  }

  /** What `k` leads to and `cc` does not is of this shape. */
  ghost predicate Formed(g: Graph, k: Label, cc: Label, strict: bool)
    requires Acyclic(g, Deep(g))
  {
    k in g && cc in g && forall l :: l in Reach(g, Deep(g), k) ==> l in Reach(g, Deep(g), cc) || (l in g && ShapeAt(g, l, strict))
  }

  lemma FormedOn(g: Graph, k: Label, mid: Label, cc: Label, strict: bool)
    requires Acyclic(g, Deep(g)) && Formed(g, k, mid, strict) && Formed(g, mid, cc, strict)
    ensures Formed(g, k, cc, strict)
  {
    hide Acyclic, Reach, ShapeAt;
  }

  lemma FormedSelf(g: Graph, cc: Label, strict: bool)
    requires Acyclic(g, Deep(g)) && cc in g
    ensures Formed(g, cc, cc, strict)
  {
  }

  lemma FormedStep(g: Graph, k: Label, next: Label, cc: Label, strict: bool)
    requires Acyclic(g, Deep(g)) && k in g && ShapeAt(g, k, strict)
    requires (g[k].Kargs? && g[k].term.Continue? && !g[k].term.expr.EProc? && g[k].term.k == next)
          || (g[k].Kreceive? && g[k].k == next)
    requires Formed(g, next, cc, strict)
    ensures Formed(g, k, cc, strict)
  {
    assert Leads(g[k], next);
    assert Reach(g, Deep(g), k) == {k} + Reach(g, Deep(g), next);
    hide Reach, Acyclic, ShapeAt;
  }

  lemma FormedBranch(g: Graph, k: Label, cc: Label, strict: bool)
    requires Acyclic(g, Deep(g)) && k in g && ShapeAt(g, k, strict) && g[k].Kargs? && g[k].term.Branch?
    requires Formed(g, g[k].term.kt, cc, strict) && Formed(g, g[k].term.kf, cc, strict)
    ensures Formed(g, k, cc, strict)
  {
    assert Leads(g[k], g[k].term.kt) && Leads(g[k], g[k].term.kf);
    assert Reach(g, Deep(g), k) == {k} + Reach(g, Deep(g), g[k].term.kt) + Reach(g, Deep(g), g[k].term.kf);
    hide Reach, Acyclic, ShapeAt;
  }

  lemma FormedProc(g: Graph, k: Label, code: Label, tail: Label, cc: Label, strict: bool)
    requires Acyclic(g, Deep(g)) && k in g && ShapeAt(g, k, strict) && g[k].Kargs? && g[k].term == Continue(cc, EProc(code))
    requires code in g && g[code].Kproc? && g[code].body in g && Formed(g, g[code].body, tail, strict) && g[tail].Ktail? && cc in g
    ensures Formed(g, k, cc, strict)
  {
    var body := g[code].body;
    assert Leads(g[k], cc) && Leads(g[k], code) && Leads(g[code], body);
    assert Reach(g, Deep(g), k) == {k} + Reach(g, Deep(g), cc) + Reach(g, Deep(g), code);
    assert Reach(g, Deep(g), code) == {code} + Reach(g, Deep(g), body) && Reach(g, Deep(g), tail) == {tail};
    assert ShapeAt(g, code, strict) && ShapeAt(g, tail, strict);
    hide Reach, Acyclic, ShapeAt;
  }

  lemma {:induction false} FormedCode(g: Graph, f: Form, cc: Label, n: nat, strict: bool)
    requires Acyclic(g, Deep(g)) && Code(g, f, cc, n) && Lands(g, cc) && (strict ==> VoidFree(f))
    ensures Formed(g, Entry(f, n), cc, strict)
    decreases f, 1
  {
    hide Acyclic, Formed;
    var k := Entry(f, n);
    match f
    case Const(_) => FormedSelf(g, cc, strict); FormedStep(g, k, cc, cc, strict);
    case Quote(_) => FormedSelf(g, cc, strict); FormedStep(g, k, cc, cc, strict);
    case Var(_) => FormedSelf(g, cc, strict); FormedStep(g, k, cc, cc, strict);
    case Begin(body) => FormedBody(g, body, cc, n, strict);
    case If(c, t, e) => FormedIf(g, c, t, e, cc, n, strict);
    case Lambda(lam) =>
      FormedBody(g, lam.body, n, n + 2, strict);
      FormedProc(g, k, n + 1, n, cc, strict);
    case Call(elems) => FormedCall(g, elems, cc, n, strict);
  }

  lemma {:induction false} FormedBody(g: Graph, fs: Forms, cc: Label, n: nat, strict: bool)
    requires Acyclic(g, Deep(g)) && CodeBody(g, fs, cc, n) && Lands(g, cc) && (strict ==> VoidFreeIn(fs))
    ensures Formed(g, EntryBody(fs, n), cc, strict)
    decreases fs, 0
  {
    hide Acyclic, Formed;
    match fs
    case Last(e) => FormedCode(g, e, cc, n, strict);
    case More(e, rest) =>
      var next, m := EntryBody(rest, n), NextBody(rest, n);
      FormedBody(g, rest, cc, n, strict);
      FormedCode(g, e, next, m, strict);
      FormedOn(g, Entry(e, m), next, cc, strict);
  }

  lemma {:induction false} FormedIf(g: Graph, c: Form, t: Form, e: Form, cc: Label, n: nat, strict: bool)
    requires Acyclic(g, Deep(g)) && Code(g, If(c, t, e), cc, n) && Lands(g, cc) && (strict ==> VoidFree(If(c, t, e)))
    ensures Formed(g, Entry(If(c, t, e), n), cc, strict)
    decreases If(c, t, e), 0
  {
    hide Acyclic, Formed, Code, Next, Entry, EntryTemp;
    EntryOfIf(c, t, e, n);
    IfCode(g, c, t, e, cc, n);
    var n1 := Next(t, n);
    var n2 := Next(e, n1);
    FormedCode(g, t, cc, n, strict);
    FormedCode(g, e, cc, n1, strict);
    FormedBranch(g, n2, cc, strict);
    FormedCode(g, c, n2, n2 + 2, strict);
    FormedOn(g, Entry(c, n2 + 2), n2, cc, strict);
  }

  lemma {:induction false} FormedCall(g: Graph, elems: Forms, cc: Label, n: nat, strict: bool)
    requires Acyclic(g, Deep(g)) && Code(g, Call(elems), cc, n) && Lands(g, cc) && (strict ==> VoidFree(Call(elems)))
    ensures Formed(g, Entry(Call(elems), n), cc, strict)
    decreases elems, 1
  {
    EntryOfCall(elems, n);
    assert ShapeAt(g, n + 5, strict);
    hide Acyclic, Formed;
    FormedSelf(g, cc, strict);
    FormedStep(g, n + 2, cc, cc, strict);
    FormedStep(g, n + 3, n + 2, cc, strict);
    FormedStep(g, n + 5, n + 3, cc, strict);
    var k := EntryElems(elems, n + 5, n + 6);
    FormedElems(g, elems, n + 5, n + 4, n + 6, strict);
    FormedOn(g, k, n + 5, cc, strict);
  }

  lemma {:induction false} FormedElems(g: Graph, es: Forms, cc: Label, tmp: nat, n: nat, strict: bool)
    requires Acyclic(g, Deep(g)) && CodeElems(g, es, cc, tmp, n) && cc in g && (strict ==> VoidFreeIn(es))
    ensures Formed(g, EntryElems(es, cc, n), cc, strict)
    decreases es, 0
  {
    hide Acyclic, Formed;
    if es.e.Var? {
      FormedSelf(g, cc, strict);
      if es.More? {
        FormedElems(g, es.rest, cc, tmp, n, strict);
      }
    } else {
      var k := Entry(es.e, n);
      FormedCode(g, es.e, cc, n, strict);
      FormedIn(g, k, cc, strict);
      if es.More? {
        FormedElems(g, es.rest, k, EntryTemp(es.e, n), Next(es.e, n), strict);
        FormedOn(g, EntryElems(es, cc, n), k, cc, strict);
      }
    }
  }

  lemma FormedIn(g: Graph, k: Label, cc: Label, strict: bool)
    requires Acyclic(g, Deep(g)) && Formed(g, k, cc, strict)
    ensures k in g
  {
  }

  /** All continuations of a translated program are of this shape. */
  lemma ProgramFormed(g: Graph, f: Form, l: Label)
    requires Program(g, f) && Acyclic(g, Deep(g)) && l in Reach(g, Deep(g), Entry(f, 1))
    ensures l in g && ShapeAt(g, l, false) && (VoidFree(f) ==> !VoidArgs(g[l]))
  {
    FormedCode(g, f, 0, 1, false);
    if VoidFree(f) {
      FormedCode(g, f, 0, 1, true);
    }
    assert Reach(g, Deep(g), 0) == {0};
  }

  /** A program only needs what is free in it. */
  lemma ProgramWants(g: Graph, f: Form, x: Name)
    requires Program(g, f) && Acyclic(g, Deep(g)) && x in NeedTerm(g, Deep(g), Entry(f, 1))
    ensures x.User? && x.s in FreeIds(f)
  {
    WantsCode(g, f, 0, 1);
    assert Need(g, Deep(g), 0) == {};
  }
}
