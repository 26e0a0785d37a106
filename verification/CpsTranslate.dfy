/** Translation of source forms into a graph of named continuations.

    One counter numbers labels and temporaries alike, so the code of a form is
    fixed by the counter at which its translation starts. `Code` says that a
    graph holds that code; `Translator` produces it. */
module CpsTranslate {
  import opened Wrappers
  import opened CpsValues
  import opened CpsLang

  /** The counter after translating a form from the counter `n`. */
  function Next(f: Form, n: nat): (m: nat)
    ensures n < m
    decreases f, 0
  {
    match f
    case Const(_) => n + 2
    case Quote(_) => n + 2
    case Var(_) => n + 2
    case If(c, t, e) => Next(c, Next(e, Next(t, n)) + 2)
    case Begin(body) => NextBody(body, n)
    case Lambda(lam) => NextBody(lam.body, n + 2) + 2
    case Call(elems) => NextElems(elems, n + 6)
  }

  function NextBody(fs: Forms, n: nat): (m: nat)
    ensures n < m
    decreases fs, 0
  {
    match fs
    case Last(e) => Next(e, n)
    case More(e, rest) => Next(e, NextBody(rest, n))
  }

  function NextElem(e: Form, n: nat): (m: nat)
    ensures n <= m
    decreases e, 1
  {
    if e.Var? then n else Next(e, n)
  }

  function NextElems(es: Forms, n: nat): (m: nat)
    ensures n <= m
    decreases es, 0
  {
    match es
    case Last(e) => NextElem(e, n)
    case More(e, rest) => NextElems(rest, NextElem(e, n))
  }

  /** The label at which the code of a form starts. */
  function Entry(f: Form, n: nat): (k: Label)
    ensures n <= k < Next(f, n)
    decreases f
  {
    match f
    case Const(_) => n
    case Quote(_) => n
    case Var(_) => n
    case If(c, t, e) => Entry(c, Next(e, Next(t, n)) + 2)
    case Begin(body) => EntryBody(body, n)
    case Lambda(lam) => NextBody(lam.body, n + 2)
    case Call(elems) => EntryElems(elems, n + 5, n + 6)
  }

  function EntryBody(fs: Forms, n: nat): (k: Label)
    ensures n <= k < NextBody(fs, n)
    decreases fs
  {
    match fs
    case Last(e) => Entry(e, n)
    case More(e, rest) => Entry(e, NextBody(rest, n))
  }

  function EntryElems(es: Forms, cc: Label, n: nat): (k: Label)
    ensures k == cc || n <= k < NextElems(es, n)
    decreases es
  {
    var k := if es.e.Var? then cc else Entry(es.e, n);
    match es
    case Last(_) => k
    case More(e, rest) => EntryElems(rest, k, NextElem(e, n))
  }

  /** The temporary bound by the entry continuation of a form's code. */
  function EntryTemp(f: Form, n: nat): (t: nat)
    ensures n <= t < Next(f, n)
    decreases f
  {
    match f
    case Const(_) => n + 1
    case Quote(_) => n + 1
    case Var(_) => n + 1
    case If(c, t, e) => EntryTemp(c, Next(e, Next(t, n)) + 2)
    case Begin(body) => EntryTempBody(body, n)
    case Lambda(lam) => NextBody(lam.body, n + 2) + 1
    case Call(elems) => EntryTempElems(elems, n + 4, n + 6)
  }

  function EntryTempBody(fs: Forms, n: nat): (t: nat)
    ensures n <= t < NextBody(fs, n)
    decreases fs
  {
    match fs
    case Last(e) => EntryTemp(e, n)
    case More(e, rest) => EntryTemp(e, NextBody(rest, n))
  }

  function EntryTempElems(es: Forms, tmp: nat, n: nat): (t: nat)
    ensures t == tmp || n <= t < NextElems(es, n)
    decreases es
  {
    var t := if es.e.Var? then tmp else EntryTemp(es.e, n);
    match es
    case Last(_) => t
    case More(e, rest) => EntryTempElems(rest, t, NextElem(e, n))
  }

  /** The names a call reads its elements from: identifiers directly, every
      other element from the temporary its value was bound to. */
  function ElemNames(es: Forms, tmp: nat, n: nat): (names: seq<Name>)
    ensures |names| == Count(es)
    decreases es
  {
    var name, t := if es.e.Var? then User(es.e.x) else Temp(tmp),
                   if es.e.Var? then tmp else EntryTemp(es.e, n);
    match es
    case Last(_) => [name]
    case More(e, rest) => [name] + ElemNames(rest, t, NextElem(e, n))
  }

  function CallExpr(names: seq<Name>): Expr
    requires names != []
  {
    if names[0].User? && IsPrim(names[0].s)
    then EPrimcall(names[0].s.op, names[1..])
    else ECall(names[0], names[1..])
  }

  predicate HasTerm(g: Graph, k: Label, t: Term) {
    k in g && g[k].Kargs? && g[k].term == t
  }

  predicate HasVars(g: Graph, k: Label, vars: seq<Name>) {
    k in g && g[k].Kargs? && g[k].vars == vars
  }

  function VarExpr(x: Sym): Expr {
    if IsPrim(x) then EPrim(x.op) else EValues([User(x)])
  }

  function UserNames(xs: seq<Sym>): (names: seq<Name>)
    ensures |names| == |xs|
    ensures forall i :: 0 <= i < |xs| ==> names[i] == User(xs[i])
  {
    seq(|xs|, i requires 0 <= i < |xs| => User(xs[i]))
  }

  function UserRest(rest: Option<Sym>): Option<Name> {
    if rest.Some? then Some(User(rest.value)) else None
  }

  /** The graph holds the code of `f`, translated from counter `n` with the
      continuation `cc`. The variables of the entry continuation are left open:
      a lambda or a conditional rewrites them afterwards. */
  predicate Code(g: Graph, f: Form, cc: Label, n: nat)
    decreases f
  {
    match f
    case Const(d) => HasTerm(g, n, Continue(cc, EConst(Embed(d))))
    case Quote(d) => HasTerm(g, n, Continue(cc, EConst(Embed(d))))
    case Var(x) => HasTerm(g, n, Continue(cc, VarExpr(x)))
    case Begin(body) => CodeBody(g, body, cc, n)
    case If(c, t, e) =>
      var n1 := Next(t, n);
      var n2 := Next(e, n1);
      && Code(g, t, cc, n) && HasVars(g, Entry(t, n), [])
      && Code(g, e, cc, n1) && HasVars(g, Entry(e, n1), [])
      && n2 in g
      && g[n2] == Kargs([Temp(n2 + 1)], Branch(Temp(n2 + 1), Entry(t, n), Entry(e, n1)))
      && Code(g, c, n2, n2 + 2)
    case Lambda(lam) =>
      && CodeProc(g, lam, n)
      && HasTerm(g, NextBody(lam.body, n + 2), Continue(cc, EProc(n + 1)))
    case Call(elems) =>
      && n + 2 in g && g[n + 2] == Kargs([Temp(n)], Continue(cc, EValues([Temp(n)])))
      && n + 3 in g && g[n + 3] == Kreceive([Temp(n)], None, n + 2)
      && HasTerm(g, n + 5, Continue(n + 3, CallExpr(ElemNames(elems, n + 4, n + 6))))
      && CodeElems(g, elems, n + 5, n + 4, n + 6)
  }

  /** Later forms of a sequence are translated first; each form's value goes to
      the entry of the next one, where nothing reads it. */
  predicate CodeBody(g: Graph, fs: Forms, cc: Label, n: nat)
    decreases fs
  {
    match fs
    case Last(e) => Code(g, e, cc, n)
    case More(e, rest) =>
      && CodeBody(g, rest, cc, n)
      && HasVars(g, EntryBody(rest, n), [Temp(EntryTempBody(rest, n))])
      && Code(g, e, EntryBody(rest, n), NextBody(rest, n))
  }

  /** Each element that is not an identifier delivers its value to the entry of
      the element translated before it. */
  predicate CodeElems(g: Graph, es: Forms, cc: Label, tmp: nat, n: nat)
    decreases es
  {
    && (es.e.Var? || (HasVars(g, cc, [Temp(tmp)]) && Code(g, es.e, cc, n)))
    && match es
       case Last(_) => true
       case More(e, rest) =>
         if e.Var? then CodeElems(g, rest, cc, tmp, n)
         else CodeElems(g, rest, Entry(e, n), EntryTemp(e, n), Next(e, n))
  }

  /** The procedure continuation `n + 1` and its tail `n` hold the code of a lambda. */
  predicate CodeProc(g: Graph, lam: Lam, n: nat)
    decreases lam
  {
    && n in g && g[n] == Ktail
    && n + 1 in g
    && g[n + 1] == Kproc(UserNames(lam.params), UserRest(lam.rest), n, EntryBody(lam.body, n + 2))
    && CodeBody(g, lam.body, n, n + 2)
    && HasVars(g, EntryBody(lam.body, n + 2), UserNames(ParamNames(lam.params, lam.rest)))
  }

  // ------------------------------------------------ code survives extension

  /** `h` keeps the continuations of `g` numbered from `lo` up to `hi`, except
      that the variables of the continuation `e` may differ. */
  predicate Keeps(g: Graph, h: Graph, lo: nat, hi: nat, e: Label) {
    forall l {:trigger l in g} :: lo <= l < hi && l in g ==>
      l in h && (h[l] == g[l] || (l == e && g[l].Kargs? && HasTerm(h, l, g[l].term)))
  }

  // where a conditional is entered: at the entry of its test, translated last
  lemma EntryOfIf(c: Form, t: Form, e: Form, n: nat)
    ensures var n2 := Next(e, Next(t, n));
      && Entry(If(c, t, e), n) == Entry(c, n2 + 2)
      && Next(If(c, t, e), n) == Next(c, n2 + 2)
      && EntryTemp(If(c, t, e), n) == EntryTemp(c, n2 + 2)
  {
    NextOfIf(c, t, e, n);
    hide Next, NextBody, NextElems, EntryBody, EntryElems, EntryTempBody, EntryTempElems;
  }

  lemma NextOfIf(c: Form, t: Form, e: Form, n: nat)
    ensures Next(If(c, t, e), n) == Next(c, Next(e, Next(t, n)) + 2)
  {
  }

  lemma {:induction false} KeepsCode(g: Graph, h: Graph, f: Form, cc: Label, n: nat)
    requires Code(g, f, cc, n) && Keeps(g, h, n, Next(f, n), Entry(f, n))
    ensures Code(h, f, cc, n)
    decreases f, 1
  {
    hide NextBody, EntryBody, EntryElems, NextElems, CodeBody, CodeElems;
    match f
    case Const(_) =>
    case Quote(_) =>
    case Var(_) =>
    case Begin(body) => KeepsCodeBody(g, h, body, cc, n);
    case If(c, t, e) => KeepsCodeIf(g, h, c, t, e, cc, n);
    case Lambda(lam) =>
      var m := NextBody(lam.body, n + 2);
      assert HasTerm(h, m, Continue(cc, EProc(n + 1)));
      KeepsCodeProc(g, h, lam, n);
    case Call(elems) => KeepsCodeCall(g, h, elems, cc, n);
  }

  lemma {:induction false} KeepsCodeCall(g: Graph, h: Graph, elems: Forms, cc: Label, n: nat)
    requires Code(g, Call(elems), cc, n) && Keeps(g, h, n, Next(Call(elems), n), Entry(Call(elems), n))
    ensures Code(h, Call(elems), cc, n)
    decreases Call(elems), 0
  {
    hide NextBody, EntryBody, EntryElems, NextElems, CodeBody, CodeElems;
    assert n + 2 in g && n + 3 in g && n + 5 in g;
    assert HasTerm(h, n + 5, g[n + 5].term);
    KeepsCodeElems(g, h, elems, n + 5, n + 4, n + 6);
  }

  /** Keeping a stretch of code keeps the stretches within it. */
  lemma KeepsPart(g: Graph, h: Graph, lo: nat, hi: nat, e: Label, lo2: nat, hi2: nat, e2: Label)
    requires Keeps(g, h, lo, hi, e) && lo <= lo2 && hi2 <= hi
    requires e == e2 || !(lo2 <= e < hi2)
    ensures Keeps(g, h, lo2, hi2, e2)
  {
  }

  lemma {:induction false} KeepsCodeIf(g: Graph, h: Graph, c: Form, t: Form, e: Form, cc: Label, n: nat)
    requires Code(g, If(c, t, e), cc, n)
    requires var n2 := Next(e, Next(t, n)); Keeps(g, h, n, Next(c, n2 + 2), Entry(c, n2 + 2))
    ensures Code(h, If(c, t, e), cc, n)
    decreases If(c, t, e), 0
  {
    hide Keeps, Next, Entry, NextBody, NextElems, EntryBody, EntryElems;
    var n1 := Next(t, n);
    var n2 := Next(e, n1);
    var hi, k := Next(c, n2 + 2), Entry(c, n2 + 2);
    KeepsAt(g, h, n, hi, k, Entry(t, n));
    KeepsAt(g, h, n, hi, k, Entry(e, n1));
    KeepsAt(g, h, n, hi, k, n2);
    assert Code(h, t, cc, n) by {
      KeepsPart(g, h, n, hi, k, n, n1, Entry(t, n));
      KeepsCode(g, h, t, cc, n);
    }
    assert Code(h, e, cc, n1) by {
      KeepsPart(g, h, n, hi, k, n1, n2, Entry(e, n1));
      KeepsCode(g, h, e, cc, n1);
    }
    assert Code(h, c, n2, n2 + 2) by {
      KeepsPart(g, h, n, hi, k, n2 + 2, hi, k);
      KeepsCode(g, h, c, n2, n2 + 2);
    }
  }

  lemma KeepsAt(g: Graph, h: Graph, lo: nat, hi: nat, e: Label, l: Label)
    requires Keeps(g, h, lo, hi, e) && lo <= l < hi && l in g && l != e
    ensures l in h && h[l] == g[l]
  {
  }

  lemma {:induction false} KeepsCodeProc(g: Graph, h: Graph, lam: Lam, n: nat)
    requires CodeProc(g, lam, n) && Keeps(g, h, n, NextBody(lam.body, n + 2), NextBody(lam.body, n + 2))
    ensures CodeProc(h, lam, n)
    decreases lam
  {
    assert n in g && n + 1 in g && EntryBody(lam.body, n + 2) in g;
    assert Keeps(g, h, n + 2, NextBody(lam.body, n + 2), EntryBody(lam.body, n + 2));
    KeepsCodeBody(g, h, lam.body, n, n + 2);
  }

  lemma {:induction false} KeepsCodeBody(g: Graph, h: Graph, fs: Forms, cc: Label, n: nat)
    requires CodeBody(g, fs, cc, n) && Keeps(g, h, n, NextBody(fs, n), EntryBody(fs, n))
    ensures CodeBody(h, fs, cc, n)
    decreases fs
  {
    match fs
    case Last(e) => KeepsCode(g, h, e, cc, n);
    case More(e, rest) =>
      var m := NextBody(rest, n);
      assert Keeps(g, h, n, m, EntryBody(rest, n)) && Keeps(g, h, m, Next(e, m), Entry(e, m));
      assert EntryBody(rest, n) in g;
      KeepsCodeBody(g, h, rest, cc, n);
      KeepsCode(g, h, e, EntryBody(rest, n), m);
  }

  lemma {:induction false} KeepsCodeElems(g: Graph, h: Graph, es: Forms, cc: Label, tmp: nat, n: nat)
    requires CodeElems(g, es, cc, tmp, n) && cc < n
    requires EntryElems(es, cc, n) != cc && HasVars(g, cc, [Temp(tmp)]) ==> HasVars(h, cc, [Temp(tmp)])
    requires Keeps(g, h, n, NextElems(es, n), EntryElems(es, cc, n))
    ensures CodeElems(h, es, cc, tmp, n)
    decreases es
  {
    var k := EntryElems(es, cc, n);
    if es.e.Var? {
      if es.More? {
        KeepsCodeElems(g, h, es.rest, cc, tmp, n);
      }
    } else {
      var e, m := es.e, Next(es.e, n);
      assert NextElem(e, n) == m && m <= NextElems(es, n);
      assert k == Entry(e, n) || m <= k;
      assert Keeps(g, h, n, m, Entry(e, n)) && k != cc;
      KeepsCode(g, h, e, cc, n);
      if es.More? {
        assert Keeps(g, h, m, NextElems(es.rest, m), k);
        KeepsCodeElems(g, h, es.rest, Entry(e, n), EntryTemp(e, n), m);
      }
    }
  }
}
