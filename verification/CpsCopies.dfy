/** The copy of a procedure's body while it is being made. */
module CpsCopies {
  import opened CpsLang
  import opened CpsCollect
  import opened CpsInline

  /** The work so far: the graph and the copies in it (`i`), the counter `n`; each copied
      label was made, with all it leads to, while the counter went from it to `upto`;
      `top` are the copies of the procedure's own code, whose way out is `tail`. */
  datatype Work = Work(i: Site, n: nat, upto: map<Label, nat>, top: set<Label>, tail: Label, deep: Rank)

  predicate Within(w: Work, l: Label, lo: nat, hi: nat) {
    l in w.upto ==> lo <= l && w.upto[l] <= hi
  }

  /** Where a copy can go: to a copy of the same level made later, or out. */
  predicate Onward(w: Work, c: Label, l: Label)
    requires c in w.upto
  {
    && Within(w, l, c + 1, w.upto[c])
    && (l in w.upto ==> (l in w.top <==> c in w.top))
    && (l !in w.upto && c in w.top ==> l == w.tail)
  }

  predicate Nested(w: Work, c: Label) {
    c in w.i.h && c in w.upto && c < w.upto[c] <= w.n &&
    match w.i.h[c]
    case Kargs(_, Branch(_, kt, kf)) =>
      Onward(w, c, kt) && Onward(w, c, kf) && (kt in w.upto && kf in w.upto ==> w.upto[kt] <= kf)
    case Kargs(_, Continue(next, e)) => Onward(w, c, next) && (e.EProc? ==> e.k !in w.top)
    case Kreceive(_, _, next) => Onward(w, c, next)
    case Kproc(_, _, _, body) => c !in w.top && Onward(w, c, body)
    case Ktail => false
  }

  ghost predicate CopyAt(w: Work, c: Label)
    requires Calls(w.i)
  {
    KontCopy(w.i, c) && Nested(w, c) && c in w.i.seen && w.i.seen[c] <= w.i.ren.Keys
  }

  /** Names made up are numbered by the counter too. */
  ghost predicate NamesMade(w: Work)
    requires Calls(w.i) && Acyclic(w.i.g, w.deep)
  {
    && Renames(w.i)
    && (forall x :: x in w.i.ren ==> w.i.ren[x].id < w.n && BoundIn(w, x))
  }

  ghost predicate BoundIn(w: Work, x: Name)
    requires Calls(w.i) && Acyclic(w.i.g, w.deep)
  {
    BoundFrom(w.i.g, w.deep, w.i.g[w.i.code].body, x)
  }

  ghost predicate BoundFrom(g: Graph, deep: Rank, k: Label, x: Name)
    requires Acyclic(g, deep) && k in g
  {
    exists l :: l in Reach(g, deep, k) && l in g && g[l].Kargs? && x in g[l].vars
  }

  /** New names are given to variables bound in the procedure only. */
  ghost predicate RenamesBody(i: Site, deep: Rank)
    requires Calls(i) && Acyclic(i.g, deep)
  {
    forall x :: x in i.ren ==> BoundFrom(i.g, deep, i.g[i.code].body, x)
  }

  /** The graph as it was, with labels added from the mark on. */
  ghost predicate Added(w: Work) {
    && w.i.mark <= w.n
    && (forall l :: l in w.i.g ==> l < w.i.mark && l in w.i.h && w.i.h[l] == w.i.g[l])
    && (forall l :: l in w.i.h ==> l < w.n)
    && (forall c :: c in w.i.from ==> w.i.mark <= c && c in w.i.h)
  }

  /** The graph to be rewritten. */
  ghost predicate Base(w: Work) {
    && Calls(w.i) && Ranked(w.i.g, w.i.gr) && Acyclic(w.i.g, w.deep)
    && (forall k {:trigger Tame(w.i.g, k)} :: k in w.i.g ==> Tame(w.i.g, k))
  }

  predicate Keyed(w: Work) {
    w.i.own == {} && w.i.seen.Keys == w.i.from.Keys && w.upto.Keys == w.i.from.Keys && w.top <= w.i.from.Keys
  }

  ghost predicate AllCopied(w: Work)
    requires Calls(w.i)
  {
    forall c {:trigger CopyAt(w, c)} :: c in w.i.from ==> CopyAt(w, c)
  }

  ghost predicate Working(w: Work) {
    Base(w) && Keyed(w) && Added(w) && NamesMade(w) && AllCopied(w)
  }

  /** Work only adds to what has been copied. */
  ghost predicate Grown(w: Work, v: Work) {
    && v.i.g == w.i.g && v.i.gr == w.i.gr && v.i.at == w.i.at && v.i.code == w.i.code && v.i.mark == w.i.mark
    && v.i.own == w.i.own && v.tail == w.tail && v.deep == w.deep && w.n <= v.n
    && (forall c {:trigger c in w.i.from} :: c in w.i.from ==>
          c in v.i.from && v.i.from[c] == w.i.from[c] && c in w.i.h && c in v.i.h && v.i.h[c] == w.i.h[c])
    && (forall c :: c in w.i.seen ==> c in v.i.seen && v.i.seen[c] == w.i.seen[c])
    && (forall c :: c in w.upto ==> c in v.upto && v.upto[c] == w.upto[c] && (c in w.top <==> c in v.top))
    && (forall c :: c in v.i.from && c !in w.i.from ==> w.i.mark <= c)
    && (forall x :: x in w.i.ren ==> x in v.i.ren && v.i.ren[x] == w.i.ren[x])
  }

  /** The graph is only added to as well. */
  ghost predicate Stays(w: Work, v: Work) {
    && Grown(w, v) && (forall c :: c in v.i.from && c !in w.i.from ==> w.n <= c)
    && forall l {:trigger l in w.i.h} {:trigger v.i.h[l]} :: l in w.i.h ==> l in v.i.h && v.i.h[l] == w.i.h[l]
  }

  /** And all that has been added are finished copies. */
  ghost predicate Kept(w: Work, v: Work) {
    Stays(w, v) && forall l {:trigger l in v.i.h} :: l in v.i.h ==> l in w.i.h || l in v.i.from
  }

  lemma StaysOn(u: Work, w: Work, v: Work)
    requires Stays(u, w) && Stays(w, v)
    ensures Stays(u, v)
  {
  }

  lemma KeptOn(u: Work, w: Work, v: Work)
    requires Kept(u, w) && Kept(w, v)
    ensures Kept(u, v)
  {
  }

  lemma GrownOn(u: Work, w: Work, v: Work)
    requires Grown(u, w) && Grown(w, v)
    ensures Grown(u, v)
  {
  }

  // ------------------------------------------------------------- what stays true

  lemma ImagesGrown(w: Work, v: Work, view: View, xs: seq<Name>)
    requires Grown(w, v) && view.Copy? && view.met <= w.i.ren.Keys
    ensures Images(v.i, view, xs) == Images(w.i, view, xs)
    ensures forall x :: Image(v.i, view, x) == Image(w.i, view, x)
  {
  }

  lemma EdgeGrown(w: Work, v: Work, view: View, s: Label, s': Label)
    requires Calls(w.i) && Calls(v.i) && Grown(w, v) && w.i.own == {} && view.Copy? && !view.own && Edge(w.i, view, s, s')
    ensures Edge(v.i, view, s, s')
  {
  }

  lemma CopyGrown(w: Work, v: Work, c: Label)
    requires Working(w) && Calls(v.i) && Grown(w, v) && c in w.i.from && v.upto.Keys == v.i.from.Keys
    ensures CopyAt(v, c)
  {
    assert CopyAt(w, c);
    KontGrown(w, v, c);
    NestedGrown(w, v, c);
  }

  lemma KontGrown(w: Work, v: Work, c: Label)
    requires Working(w) && Calls(v.i) && Grown(w, v) && c in w.i.from && CopyAt(w, c)
    ensures KontCopy(v.i, c)
  {
    var view := Copy(false, w.i.seen[c]);
    match w.i.g[w.i.from[c]]
    case Kargs(vars, t) =>
      ImagesGrown(w, v, view, vars);
      TermGrown(w, v, view, t, w.i.h[c].term);
    case Kreceive(_, _, k) => EdgeGrown(w, v, view, k, w.i.h[c].k);
    case Kproc(_, _, _, body) => EdgeGrown(w, v, view, body, w.i.h[c].body);
  }

  lemma TermGrown(w: Work, v: Work, view: View, t: Term, t': Term)
    requires Calls(w.i) && Calls(v.i) && Grown(w, v) && w.i.own == {} && view.Copy? && !view.own
    requires view.met <= w.i.ren.Keys && TermCopy(w.i, view, t, t')
    ensures TermCopy(v.i, view, t, t')
  {
    ImagesGrown(w, v, view, []);
    match t
    case Branch(_, kt, kf) => EdgeGrown(w, v, view, kt, t'.kt); EdgeGrown(w, v, view, kf, t'.kf);
    case Continue(k, e) =>
      EdgeGrown(w, v, view, k, t'.k);
      match e
      case EProc(code) => EdgeGrown(w, v, view, code, t'.expr.k);
      case EValues(args) => ImagesGrown(w, v, view, args);
      case EPrimcall(_, args) => ImagesGrown(w, v, view, args);
      case ECall(_, args) => ImagesGrown(w, v, view, args);
      case _ =>
  }

  /** Targets of a copy that are no copies are old labels, and stay so. */
  lemma OnwardGrown(w: Work, v: Work, c: Label, l: Label)
    requires Grown(w, v) && Added(w) && c in w.upto && Onward(w, c, l) && v.upto.Keys == v.i.from.Keys && w.upto.Keys == w.i.from.Keys
    requires l in w.i.from || l in w.i.g
    ensures Onward(v, c, l)
  {
  }

  lemma NestedGrown(w: Work, v: Work, c: Label)
    requires Working(w) && Calls(v.i) && Grown(w, v) && c in w.i.from && CopyAt(w, c) && v.upto.Keys == v.i.from.Keys
    ensures Nested(v, c)
  {
    match w.i.h[c]
    case Kargs(_, Branch(_, kt, kf)) => OnwardGrown(w, v, c, kt); OnwardGrown(w, v, c, kf);
    case Kargs(_, Continue(next, e)) => OnwardGrown(w, v, c, next);
    case Kreceive(_, _, next) => OnwardGrown(w, v, c, next);
    case Kproc(_, _, _, body) => OnwardGrown(w, v, c, body);
  }

  // ------------------------------------------------------------------- steps

  function WithLabel(w: Work, kont: Kont): Work {
    w.(i := w.i.(h := w.i.h[w.n := kont]), n := w.n + 1)
  }

  function WithKont(w: Work, l: Label, kont: Kont): Work {
    w.(i := w.i.(h := w.i.h[l := kont]))
  }

  function WithName(w: Work, x: Name): Work {
    w.(i := w.i.(ren := w.i.ren[x := Temp(w.n)]), n := w.n + 1)
  }

  /** The label `c` is the finished copy of `k`. */
  function WithCopy(w: Work, c: Label, k: Label, met: set<Name>, top: bool): Work {
    w.(i := w.i.(from := w.i.from[c := k], seen := w.i.seen[c := met]), upto := w.upto[c := w.n],
       top := if top then w.top + {c} else w.top)
  }

  lemma AllCopiesGrown(w: Work, v: Work)
    requires Working(w) && Calls(v.i) && Grown(w, v) && v.upto.Keys == v.i.from.Keys
    ensures forall c :: c in w.i.from ==> CopyAt(v, c)
  {
    forall c | c in w.i.from
      ensures CopyAt(v, c)
    {
      CopyGrown(w, v, c);
    }
  }

  /** What is known of the graph and the names is all that a step has to keep. */
  lemma StillWorking(w: Work, v: Work)
    requires Working(w) && Grown(w, v) && Base(v) && Added(v) && NamesMade(v)
    requires v.i.from == w.i.from && v.i.seen == w.i.seen && v.upto == w.upto && v.top == w.top
    ensures Working(v)
  {
    hide CopyAt, NamesMade, Added, Grown, Ranked, Acyclic, Tame;
    GrownRen(w, v);
    AllCopiesGrown(w, v);
  }

  lemma BaseSame(w: Work, v: Work)
    requires Base(w) && v.i.g == w.i.g && v.i.gr == w.i.gr && v.i.at == w.i.at && v.i.code == w.i.code && v.deep == w.deep
    ensures Base(v)
  {
    hide Ranked, Acyclic, Tame;
  }

  lemma NamesSame(w: Work, v: Work)
    requires Base(w) && Base(v) && NamesMade(w) && v.i.ren == w.i.ren && v.i.mark == w.i.mark && v.n >= w.n
    requires v.i.g == w.i.g && v.i.code == w.i.code && v.deep == w.deep
    ensures NamesMade(v)
  {
    hide Base, Ranked, Acyclic, Tame;
    BoundInSame(w, v);
  }

  lemma LabelAdded(w: Work, kont: Kont)
    requires Working(w)
    ensures Working(WithLabel(w, kont)) && Stays(w, WithLabel(w, kont))
  {
    hide Base, Ranked, Acyclic, Tame, AllCopied, NamesMade, CopyAt;
    var v := WithLabel(w, kont);
    assert w.n !in w.i.h;
    BaseSame(w, v);
    NamesSame(w, v);
    StillWorking(w, v);
  }

  lemma KontSet(w: Work, l: Label, kont: Kont)
    requires Working(w) && l in w.i.h && l !in w.i.from && l !in w.i.g
    ensures Working(WithKont(w, l, kont))
  {
    hide Base, Ranked, Acyclic, Tame, AllCopied, NamesMade, CopyAt;
    var v := WithKont(w, l, kont);
    BaseSame(w, v);
    NamesSame(w, v);
    StillWorking(w, v);
  }

  lemma SetKept(u: Work, w: Work, l: Label, kont: Kont)
    requires Stays(u, w) && l !in u.i.h
    ensures Stays(u, WithKont(w, l, kont))
  {
  }

  lemma NewName(w: Work, x: Name)
    requires Base(w) && NamesMade(w) && w.i.mark <= w.n && x !in w.i.ren && !PrimNamed(x) && BoundIn(w, x) && Base(WithName(w, x))
    ensures NamesMade(WithName(w, x))
  {
    hide Base, Ranked, Acyclic, Tame;
    BoundInSame(w, WithName(w, x));
  }

  lemma NameMade(w: Work, x: Name)
    requires Working(w) && x !in w.i.ren && !PrimNamed(x) && BoundIn(w, x)
    ensures Working(WithName(w, x)) && Kept(w, WithName(w, x))
  {
    hide Base, Ranked, Acyclic, Tame, AllCopied, NamesMade, CopyAt, BoundIn;
    var v := WithName(w, x);
    BaseSame(w, v);
    NewName(w, x);
    StillWorking(w, v);
  }

  lemma BoundInSame(w: Work, v: Work)
    requires Base(w) && Base(v) && v.i.g == w.i.g && v.i.code == w.i.code && v.deep == w.deep
    ensures forall x :: BoundIn(v, x) <==> BoundIn(w, x)
  {
  }

  lemma DoneParts(w: Work, c: Label, k: Label, met: set<Name>, top: bool)
    requires Keyed(w) && Added(w) && c in w.i.h && c !in w.i.from && w.i.mark <= c
    ensures Keyed(WithCopy(w, c, k, met, top)) && Added(WithCopy(w, c, k, met, top))
  {
  }

  lemma DoneGrown(w: Work, c: Label, k: Label, met: set<Name>, top: bool)
    requires Working(w) && c in w.i.h && c !in w.i.from && w.i.mark <= c
    ensures var v := WithCopy(w, c, k, met, top);
      Grown(w, v) && Base(v) && Keyed(v) && Added(v)
  {
    hide Working, Base, Grown;
    WorkParts(w);
    DoneParts(w, c, k, met, top);
    BaseSame(w, WithCopy(w, c, k, met, top));
    DoneGrows(w, c, k, met, top);
  }

  lemma WorkParts(w: Work)
    requires Working(w)
    ensures Base(w) && Keyed(w) && Added(w)
  {
  }

  lemma DoneGrows(w: Work, c: Label, k: Label, met: set<Name>, top: bool)
    requires Keyed(w) && Added(w) && c in w.i.h && c !in w.i.from && w.i.mark <= c
    ensures Grown(w, WithCopy(w, c, k, met, top))
  {
  }

  lemma DoneKept(u: Work, w: Work, c: Label, k: Label, met: set<Name>, top: bool)
    requires Stays(u, w) && c !in w.i.from && c !in w.i.seen && c !in w.upto && u.n <= c && w.i.mark <= c
    requires forall l {:trigger l in w.i.h} :: l in w.i.h ==> l in u.i.h || l in w.i.from || l == c
    ensures Kept(u, WithCopy(w, c, k, met, top))
  {
  }

  lemma CopyDone(w: Work, c: Label, k: Label, met: set<Name>, top: bool)
    requires Working(w) && c in w.i.h && c !in w.i.from && w.i.mark <= c
    requires Calls(WithCopy(w, c, k, met, top).i) && CopyAt(WithCopy(w, c, k, met, top), c)
    ensures Working(WithCopy(w, c, k, met, top))
  {
    hide Ranked, Acyclic, Tame, NamesMade, CopyAt, Grown, Added;
    var v := WithCopy(w, c, k, met, top);
    DoneGrown(w, c, k, met, top);
    AllCopiesGrown(w, v);
    NamesSame(w, v);
    assert v.i.from.Keys == w.i.from.Keys + {c};
  }

  // --------------------------------------------------------- one label at a time

  /** `name` is what the walk made of `k`. */
  ghost predicate Placed(u: Work, w: Work, k: Label, name: Label, top: bool) {
    k in u.i.g &&
    if u.i.g[k].Ktail? then name == k && (top ==> k == u.tail)
    else
      && name == u.n && name in w.i.from && w.i.from[name] == k && name in w.i.seen && u.i.ren.Keys <= w.i.seen[name]
      && name in w.upto && name < w.upto[name] <= w.n && (name in w.top <==> top)
  }

  /** Where a copy leads when it is finished as `v`, if the walk from there was made
      after it was begun. */
  lemma PlacedEdge(a: Work, b: Work, v: Work, c: Label, met: set<Name>, s: Label, s': Label, top: bool)
    requires Placed(a, b, s, s', top) && Grown(b, v) && b.i.g == a.i.g && b.tail == a.tail && Calls(v.i) && v.i.own == {}
    requires Added(v) && met <= a.i.ren.Keys && v.upto.Keys == v.i.from.Keys && b.upto.Keys == b.i.from.Keys
    ensures Edge(v.i, Copy(false, met), s, s')
    ensures c in v.upto && c < a.n && b.n <= v.upto[c] && (c in v.top <==> top) ==> Onward(v, c, s')
    ensures top ==> s' in v.top || s' == v.tail
    ensures !a.i.g[s].Ktail? && !top ==> s' in v.upto && s' !in v.top
    ensures s' in v.upto ==> s' == a.n && v.upto[s'] <= b.n
  {
  }

  /** `cps_alpha_rename_get_replacement` and `cps_alpha_rename_map`. */
  function Renamed(x: Name, ren: map<Name, Name>): Name {
    if x in ren then ren[x] else x
  }

  function RenameAll(xs: seq<Name>, ren: map<Name, Name>): (ys: seq<Name>)
    ensures |ys| == |xs|
  {
    if xs == [] then [] else [Renamed(xs[0], ren)] + RenameAll(xs[1..], ren)
  }

  lemma {:induction false} RenamedIs(w: Work, v: Work, xs: seq<Name>)
    requires Grown(w, v)
    ensures RenameAll(xs, w.i.ren) == Images(v.i, Copy(false, w.i.ren.Keys), xs)
    decreases xs
  {
    if xs != [] {
      RenamedIs(w, v, xs[1..]);
      var view := Copy(false, w.i.ren.Keys);
      assert Images(v.i, view, xs) == [Image(v.i, view, xs[0])] + Images(v.i, view, xs[1..]);
    }
  }

  /** An expression with its names replaced; a procedure's code is copied instead. */
  function RenameExpr(e: Expr, ren: map<Name, Name>): Expr {
    match e
    case EValues(args) => EValues(RenameAll(args, ren))
    case EPrimcall(p, args) => EPrimcall(p, RenameAll(args, ren))
    case ECall(f, args) => ECall(Renamed(f, ren), RenameAll(args, ren))
    case _ => e
  }

  ghost predicate ExprPlaced(u: Work, w: Work, e: Expr, e': Expr) {
    if e.EProc? then e'.EProc? && Placed(u, w, e.k, e'.k, false) else e' == RenameExpr(e, u.i.ren)
  }

  lemma ExprIsCopy(a: Work, b: Work, v: Work, e: Expr, e': Expr)
    requires ExprPlaced(a, b, e, e') && Grown(a, b) && Grown(b, v) && Calls(v.i) && v.i.own == {} && Added(v)
    requires v.upto.Keys == v.i.from.Keys && b.upto.Keys == b.i.from.Keys && (e.EProc? ==> e.k in a.i.g && a.i.g[e.k].Kproc?)
    ensures ExprCopy(v.i, Copy(false, a.i.ren.Keys), e, e') && (e'.EProc? ==> e'.k !in v.top)
  {
    GrownOn(a, b, v);
    match e
    case EProc(code) => PlacedEdge(a, b, v, 0, a.i.ren.Keys, code, e'.k, false);
    case EValues(args) => RenamedIs(a, v, args);
    case EPrimcall(_, args) => RenamedIs(a, v, args);
    case ECall(_, args) => RenamedIs(a, v, args);
    case _ =>
  }

  /** The copy of a continuation that goes on to one place: `a` when its variables had
      been renamed, `b` after its expression, `d` after what follows. */
  lemma ContinueCopied(a: Work, b: Work, d: Work, c: Label, k: Label, e': Expr, next': Label, top: bool)
    requires Working(d) && Grown(a, b) && Grown(b, d) && a.upto.Keys == a.i.from.Keys && b.upto.Keys == b.i.from.Keys
    requires a.i.mark <= c < a.n && c !in d.i.from && k in a.i.g
    requires a.i.g[k].Kargs? && a.i.g[k].term.Continue? && Tame(a.i.g, k)
    requires d.i.own == {} && forall x :: x in a.i.g[k].vars ==> x in a.i.ren
    requires c in d.i.h && d.i.h[c] == Kargs(RenameAll(a.i.g[k].vars, a.i.ren), Continue(next', e'))
    requires ExprPlaced(a, b, a.i.g[k].term.expr, e') && Placed(b, d, a.i.g[k].term.k, next', top)
    ensures var v := WithCopy(d, c, k, a.i.ren.Keys, top); Calls(v.i) && CopyAt(v, c)
  {
    hide Ranked, Acyclic, AllCopied, NamesMade, Grown, Added, Placed, ExprPlaced, Edge, ExprCopy, Within, RenameAll, Images;
    var met, v := a.i.ren.Keys, WithCopy(d, c, k, a.i.ren.Keys, top);
    GrownRen(a, b);
    GrownRen(b, d);
    DoneGrown(d, c, k, met, top);
    GrownOn(b, d, v);
    GrownOn(a, b, v);
    RenamedIs(a, v, a.i.g[k].vars);
    ExprIsCopy(a, b, v, a.i.g[k].term.expr, e');
    PlacedEdge(b, d, v, c, met, a.i.g[k].term.k, next', top);
    GrownRen(a, v);
  }

  /** The same for a branch: `b` after one arm, `d` after the other. */
  lemma BranchCopied(a: Work, b: Work, d: Work, c: Label, k: Label, kt': Label, kf': Label, top: bool)
    requires Working(d) && Grown(a, b) && Grown(b, d) && a.upto.Keys == a.i.from.Keys && b.upto.Keys == b.i.from.Keys
    requires a.i.mark <= c < a.n && c !in d.i.from && k in a.i.g && a.i.g[k].Kargs? && a.i.g[k].term.Branch?
    requires d.i.own == {} && forall x :: x in a.i.g[k].vars ==> x in a.i.ren
    requires c in d.i.h && d.i.h[c] == Kargs(RenameAll(a.i.g[k].vars, a.i.ren), Branch(Renamed(a.i.g[k].term.arg, a.i.ren), kt', kf'))
    requires Placed(a, b, a.i.g[k].term.kt, kt', top) && Placed(b, d, a.i.g[k].term.kf, kf', top)
    ensures var v := WithCopy(d, c, k, a.i.ren.Keys, top); Calls(v.i) && CopyAt(v, c)
  {
    hide Ranked, Acyclic, AllCopied, NamesMade, Grown, Added, Placed, Edge, Within, RenameAll, Images;
    var met, v := a.i.ren.Keys, WithCopy(d, c, k, a.i.ren.Keys, top);
    GrownRen(a, b);
    GrownRen(b, d);
    DoneGrown(d, c, k, met, top);
    GrownOn(b, d, v);
    GrownOn(a, b, v);
    GrownRen(a, v);
    RenamedIs(a, v, a.i.g[k].vars);
    ImageIs(a, v, a.i.g[k].term.arg);
    PlacedEdge(a, b, v, c, met, a.i.g[k].term.kt, kt', top);
    PlacedEdge(b, d, v, c, met, a.i.g[k].term.kf, kf', top);
  }

  lemma ImageIs(w: Work, v: Work, x: Name)
    requires Grown(w, v)
    ensures Image(v.i, Copy(false, w.i.ren.Keys), x) == Renamed(x, w.i.ren)
  {
  }

  /** The same for a continuation that only receives values or enters a procedure. */
  lemma OnlyCopied(a: Work, d: Work, c: Label, k: Label, next': Label, top: bool)
    requires Working(d) && Grown(a, d) && a.upto.Keys == a.i.from.Keys && a.i.mark <= c < a.n && c !in d.i.from && k in a.i.g
    requires d.i.own == {} && c in d.i.h
    requires match a.i.g[k]
      case Kreceive(req, rest, next) => d.i.h[c] == Kreceive(req, rest, next') && Placed(a, d, next, next', top)
      case Kproc(params, rest, tail, body) => d.i.h[c] == Kproc(params, rest, tail, next') && Placed(a, d, body, next', top) && !top
      case _ => false
    ensures var v := WithCopy(d, c, k, a.i.ren.Keys, top); Calls(v.i) && CopyAt(v, c)
  {
    hide Ranked, Acyclic, AllCopied, NamesMade, Grown, Added, Placed, Edge, Within;
    var met, v := a.i.ren.Keys, WithCopy(d, c, k, a.i.ren.Keys, top);
    GrownRen(a, d);
    DoneGrown(d, c, k, met, top);
    GrownOn(a, d, v);
    GrownRen(a, v);
    match a.i.g[k]
    case Kreceive(_, _, next) => PlacedEdge(a, d, v, c, met, next, next', top);
    case Kproc(_, _, _, body) => PlacedEdge(a, d, v, c, met, body, next', top);
  }

  lemma GrownRen(w: Work, v: Work)
    requires Grown(w, v)
    ensures w.i.ren.Keys <= v.i.ren.Keys && w.n <= v.n && v.i.g == w.i.g && v.i.gr == w.i.gr && v.i.own == w.i.own
    ensures v.i.at == w.i.at && v.i.code == w.i.code && v.i.mark == w.i.mark && v.tail == w.tail && v.deep == w.deep
  {
  }

  // --------------------------------------------------------- a copy being made

  /** Since `w` the label `c` has been added, and its copy is not finished. */
  ghost predicate Open(w: Work, v: Work, c: Label) {
    && Working(v) && Stays(w, v) && (forall l {:trigger l in v.i.h} :: l in v.i.h ==> l in w.i.h || l in v.i.from || l == c)
    && w.i.mark <= w.n == c && c < v.n && c in v.i.h && c !in v.i.from && c !in v.i.g && c !in w.i.h
  }

  lemma OpenStart(w: Work, kont: Kont)
    requires Working(w)
    ensures Open(w, WithLabel(w, kont), w.n)
  {
    LabelAdded(w, kont);
    hide Base, Ranked, Acyclic, Tame, AllCopied, NamesMade, CopyAt;
  }

  lemma OpenOn(w: Work, v: Work, v': Work, c: Label)
    requires Open(w, v, c) && Kept(v, v') && Working(v')
    ensures Open(w, v', c)
  {
    hide Working;
    StaysOn(w, v, v');
  }

  lemma OpenSet(w: Work, v: Work, c: Label, kont: Kont)
    requires Open(w, v, c)
    ensures Open(w, WithKont(v, c, kont), c) && Grown(v, WithKont(v, c, kont))
  {
    hide Working, Stays, Grown;
    KontSet(v, c, kont);
    SetKept(w, v, c, kont);
    SetGrown(v, c, kont);
  }

  lemma SetGrown(w: Work, l: Label, kont: Kont)
    requires Working(w) && l in w.i.h && l !in w.i.from
    ensures Grown(w, WithKont(w, l, kont))
  {
    WorkParts(w);
    hide Working, Base;
  }

  lemma OpenDone(w: Work, d: Work, c: Label, k: Label, met: set<Name>, top: bool)
    requires Open(w, d, c) && k in w.i.g && !w.i.g[k].Ktail? && w.i.ren.Keys <= met
    requires Calls(WithCopy(d, c, k, met, top).i) && CopyAt(WithCopy(d, c, k, met, top), c)
    ensures var v := WithCopy(d, c, k, met, top); Working(v) && Kept(w, v) && Placed(w, v, k, c, top)
  {
    hide Base, Ranked, Acyclic, Tame, AllCopied, NamesMade, CopyAt;
    OpenMark(w, d, c);
    CopyDone(d, c, k, met, top);
    DoneKept(w, d, c, k, met, top);
  }

  lemma OpenMark(w: Work, d: Work, c: Label)
    requires Open(w, d, c)
    ensures d.i.mark <= c && c !in d.i.seen && c !in d.upto && c !in d.top && w.n == c
    ensures d.upto.Keys == d.i.from.Keys && d.i.own == {} && d.i.g == w.i.g && d.i.mark == w.i.mark
  {
    hide Base, Ranked, Acyclic, Tame, AllCopied, NamesMade, CopyAt;
  }

  lemma PlacedSet(a: Work, b: Work, s: Label, s': Label, top: bool, c: Label, kont: Kont)
    requires Placed(a, b, s, s', top)
    ensures Placed(a, WithKont(b, c, kont), s, s', top)
  {
  }
}
