/** Inlining a call of a known procedure: what the rewritten graph looks like, and that
    it runs as the original does. */
module CpsInline {
  import opened CpsValues
  import opened CpsPrims
  import opened CpsLang
  import opened CpsReach
  import opened CpsTailCall
  import opened CpsLive

  /** A graph `g`, the graph `h` with the call at `at` of the procedure `code` inlined,
      and how the copy of the procedure came about: `from` takes copied labels to the
      originals, `own` are those of the procedure itself and not of procedures made in
      it, `ren` takes variables to their new names, and `seen` tells which of them had
      been met when a label was copied. The arguments are bound before `last`. */
  datatype Site = Site(g: Graph, gr: Rank, h: Graph, hr: Rank, at: Label, code: Label, mark: nat,
                       ren: map<Name, Name>, from: map<Label, Label>, own: set<Label>,
                       seen: map<Label, set<Name>>, last: Label, met: set<Name>)

  /** Code runs as it stands, or as a copy. */
  datatype View = Plain | Copy(own: bool, met: set<Name>)

  predicate Old(x: Name, mark: nat) {
    x.Temp? ==> x.id < mark
  }

  function Image(i: Site, v: View, x: Name): Name {
    if v.Copy? && x in v.met && x in i.ren then i.ren[x] else x
  }

  function Images(i: Site, v: View, xs: seq<Name>): (ys: seq<Name>)
    ensures |ys| == |xs|
  {
    if v.Plain? then xs else seq(|xs|, j requires 0 <= j < |xs| => Image(i, v, xs[j]))
  }

  /** Where the call is made. */
  predicate Calls(i: Site) {
    && i.at in i.g && i.g[i.at].Kargs? && i.g[i.at].term.Continue? && i.g[i.at].term.expr.ECall?
    && i.code in i.g && i.g[i.code].Kproc? && i.g[i.code].restParam.None?
    && i.g[i.code].body in i.g && i.g[i.g[i.code].body].Kargs?
    && |i.g[i.g[i.code].body].vars| == |i.g[i.code].params| <= |i.g[i.at].term.expr.args|
    && i.g[i.at].term.k in i.g
    && (i.g[i.g[i.at].term.k].Kreceive? ==> i.g[i.g[i.at].term.k].rest.None?)
  }

  /** Where the inlined body goes when the procedure would return. */
  function Return(i: Site): Label
    requires Calls(i)
  {
    var k := i.g[i.at].term.k;
    if i.g[k].Kreceive? then i.g[k].k else k
  }

  /** A label of the original and the one that stands for it. */
  ghost predicate Edge(i: Site, v: View, s: Label, s': Label)
    requires Calls(i)
  {
    s in i.g &&
    match v
    case Plain => s' == s
    case Copy(own, met) =>
      if i.g[s].Ktail? then s' == if own then Return(i) else s
      else s' in i.from && i.from[s'] == s && (s' in i.own <==> own) && s' in i.seen && met <= i.seen[s']
  }

  /** The view of the code at a copied label. */
  function Onto(i: Site, v: View, s': Label): View {
    if v.Copy? && s' in i.seen then Copy(v.own, i.seen[s']) else v
  }

  ghost predicate ExprCopy(i: Site, v: View, e: Expr, e': Expr)
    requires Calls(i)
  {
    match e
    case EProc(c) => e'.EProc? && c in i.g && !i.g[c].Ktail? && Edge(i, if v.Plain? then v else Copy(false, v.met), c, e'.k)
    case EValues(args) => e' == EValues(Images(i, v, args))
    case EPrimcall(p, args) => e' == EPrimcall(p, Images(i, v, args))
    case ECall(f, args) => e' == ECall(Image(i, v, f), Images(i, v, args))
    case _ => e' == e
  }

  ghost predicate TermCopy(i: Site, v: View, t: Term, t': Term)
    requires Calls(i)
  {
    match t
    case Branch(x, kt, kf) =>
      t'.Branch? && t'.arg == Image(i, v, x) && Edge(i, v, kt, t'.kt) && Edge(i, v, kf, t'.kf)
    case Continue(k, e) => t'.Continue? && Edge(i, v, k, t'.k) && ExprCopy(i, v, e, t'.expr)
  }

  /** Everything bound at a copied label has a new name. */
  ghost predicate KontCopy(i: Site, c: Label)
    requires Calls(i)
  {
    && c in i.from && c in i.h && c in i.seen && i.from[c] in i.g &&
    var v := Copy(c in i.own, i.seen[c]);
    match i.g[i.from[c]]
    case Kargs(vars, t) =>
      && i.h[c].Kargs? && i.h[c].vars == Images(i, v, vars) && TermCopy(i, v, t, i.h[c].term)
      && forall x :: x in vars ==> x in i.ren && x in v.met
    case Kreceive(req, rest, k) =>
      i.h[c].Kreceive? && i.h[c].req == req && i.h[c].rest == rest && Edge(i, v, k, i.h[c].k)
    case Kproc(params, rest, tail, body) =>
      && i.h[c].Kproc? && i.h[c].params == params && i.h[c].restParam == rest && c !in i.own
      && Edge(i, v, body, i.h[c].body)
    case Ktail => false
  }

  /** From `k` on, one argument after the other is bound, up to `last`. */
  ghost predicate OneByOne(h: Graph, k: Label, xs: seq<Name>, args: seq<Name>, last: Label)
    decreases xs
  {
    k in h && h[k].Kargs? &&
    if xs == [] || args == [] then k == last && xs == []
    else
      h[k].term.Continue? && h[k].term.expr == EValues([args[0]]) &&
      var next := h[k].term.k;
      k < next && next in h && h[next].Kargs? && h[next].vars == [xs[0]] && OneByOne(h, next, xs[1..], args[1..], last)
  }

  /** New names are new, and different for different variables. */
  ghost predicate Renames(i: Site) {
    && (forall x :: x in i.ren ==> !PrimNamed(x) && i.ren[x].Temp? && i.ren[x].id >= i.mark)
    && (forall x, y :: x in i.ren && y in i.ren && i.ren[x] == i.ren[y] ==> x == y)
  }

  ghost predicate Shape(i: Site) {
    && Calls(i) && Ranked(i.g, i.gr) && Ranked(i.h, i.hr)
    && i.at in i.h && i.h[i.at].Kargs? && i.last in i.h && i.h[i.last].Kargs? && Return(i) in i.h
  }

  /** Only the continuation of the call has changed, and what was added is a copy. */
  ghost predicate Copied(i: Site)
    requires Calls(i)
  {
    && (forall l {:trigger l in i.g} {:trigger i.h[l]} :: l in i.g && l != i.at ==> l in i.h && i.h[l] == i.g[l])
    && (forall c {:trigger c in i.from} :: c in i.from ==> c !in i.g)
    && (forall c {:trigger KontCopy(i, c)} :: c in i.from ==> KontCopy(i, c))
    && (forall c :: c in i.seen ==> c in i.from)
    && (forall l {:trigger Tame(i.g, l)} :: l in i.g ==> Tame(i.g, l))
    && i.at in i.h && i.h[i.at].Kargs? && i.h[i.at].vars == i.g[i.at].vars && Binds(i)
  }

  ghost predicate Inlined(i: Site) {
    Shape(i) && Renames(i) && Copied(i)
  }

  /** The arguments are bound, then the body runs. */
  ghost predicate Binds(i: Site)
    requires Calls(i)
  {
    var body := i.g[i.g[i.code].body];
    var v := Copy(true, i.met);
    && (forall x :: x in body.vars ==> x in i.ren && x in i.met)
    && OneByOne(i.h, i.at, Images(i, v, body.vars), i.g[i.at].term.expr.args, i.last)
    && i.last in i.h && i.h[i.last].Kargs? && TermCopy(i, v, body.term, i.h[i.last].term)
  }

  // -------------------------------------------------------------- related values

  /** Procedures may be copies, in environments with the new names. */
  ghost predicate Same(i: Site, v: GValue, w: GValue)
    decreases v
  {
    match v
    case Pair(a, d) => w.Pair? && Same(i, a, w.car) && Same(i, d, w.cdr)
    case Closure(c, e) =>
      w.Closure? && StandsFor(i, c, w.code) &&
      var view := CodeView(i, w.code);
      && (forall x :: x in e ==>
            && Image(i, view, x) in w.env && Same(i, e[x], w.env[Image(i, view, x)])
            && (view.Copy? && x in i.ren ==> x in view.met))
      && (forall y :: y in w.env ==> !PrimNamed(y))
    case _ => w == v
  }

  ghost predicate StandsFor(i: Site, c: Label, c': Label) {
    c in i.g && i.g[c].Kproc? && if c' in i.seen then c' in i.from && i.from[c'] == c && c' !in i.own else c' == c
  }

  function CodeView(i: Site, c': Label): View {
    if c' in i.seen then Copy(false, i.seen[c']) else Plain
  }

  ghost predicate EnvSame(i: Site, v: View, e: GEnv, f: GEnv) {
    && (forall x :: x in e ==>
          && Image(i, v, x) in f && Same(i, e[x], f[Image(i, v, x)])
          && (v.Copy? && x in i.ren ==> x in v.met))
    && (forall y :: y in f ==> !PrimNamed(y))
  }

  ghost predicate AllSame(i: Site, vs: seq<GValue>, ws: seq<GValue>) {
    |vs| == |ws| && forall j :: 0 <= j < |vs| ==> Same(i, vs[j], ws[j])
  }

  ghost function Relation(i: Site): (GValue, GValue) -> bool {
    (v, w) => Same(i, v, w)
  }

  lemma SameByParts(i: Site)
    ensures ByParts(Relation(i))
  {
  }

  lemma {:induction false} DataSame(i: Site, v: GValue)
    requires IsData(v)
    ensures Same(i, v, v)
  {
    if v.Pair? {
      DataSame(i, v.car);
      DataSame(i, v.cdr);
    }
  }

  lemma {:induction false} SameData(i: Site, v: GValue, w: GValue)
    requires Same(i, v, w) && IsData(v)
    ensures w == v
  {
    if v.Pair? {
      SameData(i, v.car, w.car);
      SameData(i, v.cdr, w.cdr);
    }
  }

  lemma PrimSame(i: Site, p: Prim, vs: seq<GValue>, ws: seq<GValue>)
    requires AllSame(i, vs, ws)
    ensures ApplyPrim(p, vs).Some? == ApplyPrim(p, ws).Some?
    ensures ApplyPrim(p, vs).Some? ==> AllSame(i, [ApplyPrim(p, vs).value], [ApplyPrim(p, ws).value])
  {
    hide Same, ApplyPrim, ByParts;
    SameByParts(i);
    ApplySame(Relation(i), p, vs, ws);
  }

  lemma ReceivedSame(i: Site, req: nat, rest: bool, vs: seq<GValue>, ws: seq<GValue>)
    requires AllSame(i, vs, ws) && ArityOk(req, rest, |vs|)
    ensures AllSame(i, Received(req, rest, vs), Received(req, rest, ws))
  {
    hide Same, ListOf, ByParts;
    if rest {
      SameByParts(i);
      SameList(Relation(i), vs[req..], ws[req..]);
    }
  }

  // ------------------------------------------------------------------- binding

  ghost predicate OldNames(i: Site, e: GEnv) {
    forall x :: x in e ==> Old(x, i.mark) && !PrimNamed(x)
  }

  /** Every variable of `vars` gets a new name in this view, if any does. */
  ghost predicate Met(i: Site, v: View, vars: seq<Name>) {
    v.Copy? ==> forall x :: x in vars ==> x in i.ren && x in v.met
  }

  lemma ImageApart(i: Site, v: View, x: Name, y: Name)
    requires Renames(i) && x != y && Old(y, i.mark) && (v.Copy? ==> x in i.ren && x in v.met)
    requires v.Copy? && y in i.ren ==> y in v.met
    ensures Image(i, v, y) != Image(i, v, x)
  {
  }

  lemma BindOneSame(i: Site, v: View, e: GEnv, f: GEnv, x: Name, a: GValue, b: GValue)
    requires Renames(i) && EnvSame(i, v, e, f) && Same(i, a, b) && OldNames(i, e[x := a]) && Met(i, v, [x])
    ensures EnvSame(i, v, e[x := a], f[Image(i, v, x) := b])
  {
    var e1, f1 := e[x := a], f[Image(i, v, x) := b];
    assert x in [x] && x in e1;
    forall y | y in e1
      ensures Image(i, v, y) in f1 && Same(i, e1[y], f1[Image(i, v, y)])
      ensures v.Copy? && y in i.ren ==> y in v.met
    {
      if y != x {
        ImageApart(i, v, x, y);
      }
    }
  }

  lemma {:induction false} BindSame(i: Site, v: View, e: GEnv, f: GEnv, vars: seq<Name>, vs: seq<GValue>, ws: seq<GValue>)
    requires Renames(i) && EnvSame(i, v, e, f) && AllSame(i, vs, ws) && |vars| <= |vs|
    requires OldNames(i, Bind(e, vars, vs)) && Met(i, v, vars)
    ensures EnvSame(i, v, Bind(e, vars, vs), Bind(f, Images(i, v, vars), ws))
    decreases vars
  {
    hide Same, EnvSame, Renames;
    if vars != [] {
      var e1, f1 := e[vars[0] := vs[0]], f[Image(i, v, vars[0]) := ws[0]];
      BindHas(e1, vars[1..], vs[1..]);
      assert Met(i, v, [vars[0]]) && Met(i, v, vars[1..]);
      BindOneSame(i, v, e, f, vars[0], vs[0], ws[0]);
      assert Images(i, v, vars)[0] == Image(i, v, vars[0]) && Images(i, v, vars)[1..] == Images(i, v, vars[1..]);
      BindSame(i, v, e1, f1, vars[1..], vs[1..], ws[1..]);
    }
  }

  lemma {:induction false} BindHas(e: GEnv, vars: seq<Name>, vs: seq<GValue>)
    requires |vars| <= |vs|
    ensures forall x :: x in e ==> x in Bind(e, vars, vs)
    decreases vars
  {
    if vars != [] {
      BindHas(e[vars[0] := vs[0]], vars[1..], vs[1..]);
    }
  }

  lemma LookupSame(i: Site, v: View, e: GEnv, f: GEnv, x: Name)
    requires Renames(i) && EnvSame(i, v, e, f) && Lookup(e, x).Some?
    ensures Lookup(f, Image(i, v, x)).Some? && Same(i, Lookup(e, x).value, Lookup(f, Image(i, v, x)).value)
  {
  }

  lemma {:induction false} LookupAllSame(i: Site, v: View, e: GEnv, f: GEnv, xs: seq<Name>)
    requires Renames(i) && EnvSame(i, v, e, f) && LookupAll(e, xs).Some?
    ensures LookupAll(f, Images(i, v, xs)).Some?
    ensures AllSame(i, LookupAll(e, xs).value, LookupAll(f, Images(i, v, xs)).value)
    decreases xs
  {
    hide Same, EnvSame, Renames;
    if xs != [] {
      LookupSame(i, v, e, f, xs[0]);
      LookupAllSame(i, v, e, f, xs[1..]);
      assert Images(i, v, xs)[0] == Image(i, v, xs[0]) && Images(i, v, xs)[1..] == Images(i, v, xs[1..]);
    }
  }

  /** More names have been met further on. */
  lemma EnvOnto(i: Site, v: View, met: set<Name>, e: GEnv, f: GEnv)
    requires EnvSame(i, v, e, f) && v.Copy? && v.met <= met
    ensures EnvSame(i, Copy(v.own, met), e, f)
  {
    hide Same;
    var w := Copy(v.own, met);
    forall x | x in e
      ensures Image(i, w, x) == Image(i, v, x)
    {
    }
  }

  /** Nothing that the call's environment holds has been changed. */
  ghost predicate Keeps(i: Site, f: GEnv, f': GEnv) {
    && (forall x :: x in f && Old(x, i.mark) ==> x in f' && f'[x] == f[x])
    && (forall y :: y in f' ==> !PrimNamed(y))
  }

  lemma {:induction false} BindKeeps(i: Site, met: set<Name>, f: GEnv, vars: seq<Name>, ws: seq<GValue>)
    requires Renames(i) && |vars| <= |ws| && Met(i, Copy(true, met), vars) && forall y :: y in f ==> !PrimNamed(y)
    ensures Keeps(i, f, Bind(f, Images(i, Copy(true, met), vars), ws))
    decreases vars
  {
    var v := Copy(true, met);
    if vars != [] {
      var f1 := f[Image(i, v, vars[0]) := ws[0]];
      assert vars[0] in vars;
      assert Met(i, v, vars[1..]);
      assert Images(i, v, vars)[0] == Image(i, v, vars[0]) && Images(i, v, vars)[1..] == Images(i, v, vars[1..]);
      BindKeeps(i, met, f1, vars[1..], ws[1..]);
    }
  }

  /** The call's environment after the inlined body still is the call's environment. */
  lemma KeepsSame(i: Site, e: GEnv, f: GEnv, f': GEnv)
    requires EnvSame(i, Plain, e, f) && Keeps(i, f, f') && OldNames(i, e)
    ensures EnvSame(i, Plain, e, f')
  {
    hide Same;
  }

  // ---------------------------------------------------------------- simulation

  /** At the call the procedure, if it is bound, is the known one, made in an environment that is part
      of the present one and binds nothing its body binds. */
  ghost predicate Expected(i: Site, visit: Visit) {
    && OldNames(i, visit.1)
    && (visit.0 == i.at && Calls(i) ==>
          var x := i.g[i.at].term.expr.proc;
          !PrimNamed(x) && (x in visit.1 ==>
            && visit.1[x].Closure? && visit.1[x].code == i.code
            && forall y :: y in visit.1[x].env ==> y in visit.1 && visit.1[y] == visit.1[x].env[y] && y !in i.ren))
  }

  /** What a run reads is bound, and the call has one argument for every parameter and
      is followed by what takes the one value it gives. */
  ghost predicate Fits(i: Site, visit: Visit) {
    visit.0 in i.g && i.g[visit.0].Kargs? ==>
      && (forall x :: x in Reads(i.g[visit.0].term) ==> Lookup(visit.1, x).Some?)
      && (visit.0 == i.at && Calls(i) ==>
            && |i.g[i.at].term.expr.args| == |i.g[i.code].params| && OneValued(i.g)
            && (i.g[i.g[i.at].term.k].Kreceive? ==> |i.g[i.g[i.at].term.k].req| == 1))
  }

  ghost predicate AllExpected(i: Site, strict: bool, visits: set<Visit>) {
    forall visit :: visit in visits ==> Expected(i, visit) && (strict ==> Fits(i, visit))
  }

  /** Which way runs are compared, and whether errors are. */
  datatype Mode = Mode(up: bool, strict: bool)

  /** How deep the two runs may go: the original at most as deep as the rewritten, or
      so deep that it has room for the calls that were inlined. */
  predicate Depths(up: bool, v: View, n: nat, m: nat) {
    if up then n <= m else n >= 2 * m + (if v.Copy? && v.own then 0 else 1)
  }

  /** The rewritten run `b` matches the original run `a`. The inlined body, where the
      procedure would have returned, goes on from there. */
  ghost predicate Matches(i: Site, v: View, m: nat, a: Outcome, b: Outcome, f: GEnv, f': GEnv, rs: seq<GValue>)
    requires Calls(i) && Ranked(i.h, i.hr)
  {
    a.Done? && AllSame(i, a.vs, rs) &&
    if v.Copy? && v.own then Keeps(i, f, f') && Return(i) in i.h && b == Run(m, i.h, i.hr, Return(i), f', rs)
    else b == Done(rs)
  }

  ghost predicate Meets(i: Site, mode: Mode, v: View, m: nat, a: Outcome, b: Outcome, f: GEnv, f': GEnv, rs: seq<GValue>)
    requires Calls(i) && Ranked(i.h, i.hr)
  {
    && (if mode.up then a.Done? ==> Matches(i, v, m, a, b, f, f', rs)
        else b.Timeout? || a.Stuck? || Matches(i, v, m, a, b, f, f', rs))
    && (mode.strict && a.Stuck? ==> b.Stuck? || (b.Timeout? && !mode.up))
  }

  // -------------------------------------------------------- from label to label

  lemma PlainTerm(i: Site, l: Label)
    requires Inlined(i) && l in i.g && i.g[l].Kargs? && l != i.at
    ensures l in i.h && i.h[l] == i.g[l] && TermCopy(i, Plain, i.g[l].term, i.h[l].term)
  {
    assert Tame(i.g, l);
    forall s | s in Succs(i.g[l])
      ensures s in i.g
    {
    }
    match i.g[l].term
    case Branch(_, kt, kf) => assert kt in Succs(i.g[l]) && kf in Succs(i.g[l]);
    case Continue(k, _) => assert k in Succs(i.g[l]);
  }

  lemma CopiedAt(i: Site, v: View, l: Label, l': Label)
    requires Inlined(i) && Edge(i, v, l, l') && v.Copy? && !i.g[l].Ktail?
    ensures KontCopy(i, l') && i.from[l'] == l && Onto(i, v, l') == Copy(l' in i.own, i.seen[l'])
    ensures v.own == (l' in i.own) && v.met <= i.seen[l']
  {
  }

  /** What stands for an ordinary continuation binds the same in new names. */
  lemma ArgsAt(i: Site, v: View, l: Label, l': Label)
    requires Inlined(i) && Edge(i, v, l, l') && i.g[l].Kargs?
    ensures var w := Onto(i, v, l');
      && l' in i.h && i.h[l'].Kargs? && i.h[l'].vars == Images(i, w, i.g[l].vars) && Met(i, w, i.g[l].vars)
      && (v.Plain? ==> w.Plain? && l' == l) && (v.Copy? ==> w.Copy? && w.own == v.own && v.met <= w.met)
      && ((v.Plain? && l == i.at) || TermCopy(i, w, i.g[l].term, i.h[l'].term))
  {
    if v.Plain? {
      if l != i.at {
        PlainTerm(i, l);
      }
    } else {
      CopiedAt(i, v, l, l');
    }
  }

  lemma ReceiveAt(i: Site, v: View, l: Label, l': Label)
    requires Inlined(i) && Edge(i, v, l, l') && i.g[l].Kreceive?
    ensures var w := Onto(i, v, l');
      && l' in i.h && i.h[l'].Kreceive? && i.h[l'].req == i.g[l].req && i.h[l'].rest == i.g[l].rest
      && (v.Plain? ==> w.Plain?) && (v.Copy? ==> w.Copy? && w.own == v.own && v.met <= w.met)
      && Edge(i, w, i.g[l].k, i.h[l'].k)
  {
    assert i.g[l].k in Succs(i.g[l]);
    if v.Copy? {
      CopiedAt(i, v, l, l');
    }
  }

  lemma CodeAt(i: Site, c: Label, c': Label)
    requires Inlined(i) && StandsFor(i, c, c') && c in i.g && i.g[c].Kproc? && i.g[c].body in i.g
    ensures c' in i.h && i.h[c'].Kproc? && i.h[c'].params == i.g[c].params && i.h[c'].restParam == i.g[c].restParam
    ensures Edge(i, CodeView(i, c'), i.g[c].body, i.h[c'].body) && i.h[c'].body in i.h
  {
    if c' in i.seen {
      assert KontCopy(i, c');
    }
    EdgeIn(i, CodeView(i, c'), i.g[c].body, i.h[c'].body);
  }

  lemma EdgeIn(i: Site, v: View, s: Label, s': Label)
    requires Inlined(i) && Edge(i, v, s, s')
    ensures s' in i.h
  {
    var k := i.g[i.at].term.k;
    assert k in Succs(i.g[i.at]);
    if i.g[k].Kreceive? {
      assert i.g[k].k in Succs(i.g[k]);
    }
    if v.Copy? && !i.g[s].Ktail? {
      CopiedAt(i, v, s, s');
    }
  }

  lemma EnvOn(i: Site, v: View, l': Label, e: GEnv, f: GEnv)
    requires EnvSame(i, v, e, f) && (v.Copy? && l' in i.seen ==> v.met <= i.seen[l'])
    ensures EnvSame(i, Onto(i, v, l'), e, f)
  {
    if v.Copy? && l' in i.seen {
      EnvOnto(i, v, i.seen[l'], e, f);
    }
  }
}
