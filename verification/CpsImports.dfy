/** Variables bound from outside a program: data and primitives under names the program
    does not bind. They are on record nowhere, and putting them on record as variables of
    unknown value changes nothing of what is folded. */
module CpsImports {
  import opened Wrappers
  import opened CpsValues
  import opened CpsLang
  import opened CpsTranslate
  import opened CpsCorrect
  import opened CpsConst
  import opened CpsCollect
  import opened CpsFold
  import opened CpsFolding
  import opened CpsProgram
  import opened CpsLive
  import opened CpsBinders

  datatype Import = Given(d: Datum) | Builtin(p: Prim)

  type Imports = map<Sym, Import>

  function Brought<N(==), C>(i: Import): Value<N, C> {
    match i
    case Given(d) => Embed(d)
    case Builtin(p) => Primitive(p)
  }

  function SourceEnv(m: Imports): SEnv {
    map x | x in m :: Brought(m[x])
  }

  function GraphEnv(m: Imports): GEnv {
    map y | y in (set x | x in m :: User(x)) :: Brought(m[y.s])
  }

  /** The program is given what was meant, under the same names on both sides. */
  lemma BroughtMeans(m: Imports, x: Sym)
    ensures (x in m <==> x in SourceEnv(m)) && (x in m <==> User(x) in GraphEnv(m))
    ensures x in m && m[x].Given? ==> Denotes(m[x].d, SourceEnv(m)[x]) && Denotes(m[x].d, GraphEnv(m)[User(x)])
    ensures x in m && m[x].Builtin? ==> SourceEnv(m)[x] == Primitive(m[x].p) && GraphEnv(m)[User(x)] == Primitive(m[x].p)
  {
    assert User(x) in (set z | z in m :: User(z)) <==> x in m;
    if x in m && m[x].Given? {
      EmbedDenotes<Sym, Lam>(m[x].d);
      EmbedDenotes<Name, Label>(m[x].d);
    }
  }

  /** The program binds none of the names, and none is a primitive's. */
  predicate MayImport(f: Form, m: Imports) {
    forall x :: x in m ==> !IsPrim(x) && x !in Binders(f)
  }

  lemma ImportsRelated(g: Graph, f: Form, m: Imports)
    requires MayImport(f, m)
    ensures EnvRelated(g, SourceEnv(m), GraphEnv(m))
  {
    forall x: Sym | x in m
      ensures User(x) in GraphEnv(m) && Related(g, SourceEnv(m)[x], GraphEnv(m)[User(x)])
    {
      assert User(x) in (set z | z in m :: User(z));
      assert GraphEnv(m)[User(x)] == Brought<Name, Label>(m[x]);
      if m[x].Given? {
        EmbedRelated(g, m[x].d);
      }
    }
  }

  /** Values without closures in them. */
  predicate Closureless(v: GValue) {
    match v
    case Closure(_, _) => false
    case Pair(a, d) => Closureless(a) && Closureless(d)
    case _ => true
  }

  lemma {:induction false} DataPlain(v: GValue)
    requires IsData(v)
    ensures Closureless(v)
  {
    if v.Pair? {
      DataPlain(v.car);
      DataPlain(v.cdr);
    }
  }

  lemma BroughtPlain(i: Import)
    ensures Closureless(Brought<Name, Label>(i))
  {
    if i.Given? {
      EmbedData(i.d);
      DataPlain(Embed<Name, Label>(i.d));
    }
  }

  lemma {:induction false} PlainOk(g: Graph, s: VarInfo, codes: set<Label>, v: GValue)
    requires Closureless(v)
    ensures ValueOk(g, s, codes, v)
  {
    if v.Pair? {
      PlainOk(g, s, codes, v.car);
      PlainOk(g, s, codes, v.cdr);
    }
  }

  lemma {:induction false} PlainHas(g: Graph, deep: Rank, free: Name -> bool, v: GValue)
    requires Acyclic(g, deep) && Closureless(v)
    ensures ValueHas(g, deep, free, v)
  {
    if v.Pair? {
      PlainHas(g, deep, free, v.car);
      PlainHas(g, deep, free, v.cdr);
    }
  }

  // ---------------------------------------------------------- on no record

  /** Nothing from `k` on binds any of these names. */
  ghost predicate Untouched(g: Graph, k: Label, xs: set<Name>)
    requires Acyclic(g, Deep(g)) && k in g
  {
    forall l, x {:trigger BindsHere(g[l], x)} :: l in Reach(g, Deep(g), k) && l in g && x in xs ==> !BindsHere(g[l], x)
  }

  /** Variables bound from outside: no closures, no names of primitives, none of the
      program's own variables. */
  ghost predicate Foreign(g: Graph, k: Label, env: GEnv)
    requires Acyclic(g, Deep(g)) && k in g
  {
    Untouched(g, k, env.Keys) && forall x :: x in env ==> !PrimNamed(x) && Closureless(env[x])
  }

  lemma ImportsForeign(g: Graph, f: Form, m: Imports)
    requires Program(g, f) && Acyclic(g, Deep(g)) && Users(g, Entry(f, 1)) == {} && MayImport(f, m)
    ensures Foreign(g, Entry(f, 1), GraphEnv(m))
  {
    var k, env := Entry(f, 1), GraphEnv(m);
    hide Program, Acyclic, Users, Binders;
    forall l, x | l in Reach(g, Deep(g), k) && l in g && x in env
      ensures !BindsHere(g[l], x)
    {
      if BindsHere(g[l], x) {
        ProgramBinders(g, f, l, x);
      }
    }
    forall x | x in env
      ensures Closureless(env[x])
    {
      BroughtPlain(m[x.s]);
    }
  }

  lemma ForeignUnknown(g: Graph, k: Label, env: GEnv, l: Label, x: Name)
    requires Acyclic(g, Deep(g)) && k in g && Untouched(g, k, env.Keys) && x in env && l in Info(g, Deep(g), map[], None, k, [])
    ensures !Known(Info(g, Deep(g), map[], None, k, [])[l], x)
  {
    var deep, t := Deep(g), Info(g, Deep(g), map[], None, k, [])[l];
    var ok: Records := (y: Name, o: Option<Expr>) => y != x;
    NamesAllowed(g, deep, k, l, ok);
    assert Known(t, x) ==> t[x][0] in t[x];
    InfoOk(g, deep, map[], None, k, [], l, ok);
  }

  // ------------------------------------------------- on record as unknown

  /** These names on record without an expression. */
  function Widen(t: Table, xs: set<Name>): Table {
    map x | x in t.Keys + xs :: if x in xs then [Rec([], None)] else t[x]
  }

  function Widened(s: VarInfo, xs: set<Name>): VarInfo {
    map l | l in s :: Widen(s[l], xs)
  }

  lemma WidenCovers(t: Table, vars: seq<Name>, u: Table, xs: set<Name>)
    requires Covers(t, vars, u)
    ensures Covers(Widen(t, xs), vars, Widen(u, xs))
  {
  }

  lemma WidenRecords(vars: seq<Name>, b: Option<Expr>, u: Table, xs: set<Name>)
    requires CpsConst.Records(vars, b, u) && forall x :: x in vars ==> x !in xs
    ensures CpsConst.Records(vars, b, Widen(u, xs))
  {
    forall x | x in vars
      ensures Known(Widen(u, xs), x) && Bound(Widen(u, xs)[x], b)
    {
      assert Widen(u, xs)[x] == u[x];
    }
  }

  lemma {:induction false} WidenArrives(g: Graph, rank: Rank, s: VarInfo, t: Table, e: Option<Expr>, k: Label, xs: set<Name>)
    requires Ranked(g, rank) && Acyclic(g, Deep(g)) && Arrives(g, rank, s, t, e, k) && Untouched(g, k, xs)
    ensures Arrives(g, rank, Widened(s, xs), Widen(t, xs), e, k)
    decreases rank(k)
  {
    assert k in Reach(g, Deep(g), k);
    match g[k]
    case Kargs(vars, _) =>
      assert forall x :: x in vars ==> BindsHere(g[k], x);
      WidenCovers(t, if e.Some? then vars else [], s[k], xs);
      if e.Some? {
        WidenRecords(vars, e, s[k], xs);
      }
    case Kreceive(_, _, next) =>
      assert next in Succs(g[k]);
      OnwardReach(g, Deep(g), k, next);
      WidenArrives(g, rank, s, t, e, next, xs);
    case _ =>
  }

  lemma WidenEnters(g: Graph, s: VarInfo, t: Table, code: Label, xs: set<Name>)
    requires Acyclic(g, Deep(g)) && code in g && Enters(g, s, t, code) && Untouched(g, code, xs)
    ensures Enters(g, Widened(s, xs), Widen(t, xs), code)
  {
    if g[code].Kproc? && g[code].body in g && g[g[code].body].Kargs? {
      assert code in Reach(g, Deep(g), code);
      var names := Names(g[code]);
      assert forall x :: x in names ==> BindsHere(g[code], x);
      WidenCovers(t, names, s[g[code].body], xs);
      WidenRecords(names, None, s[g[code].body], xs);
    }
  }

  lemma UntouchedOn(g: Graph, k: Label, l: Label, xs: set<Name>)
    requires Acyclic(g, Deep(g)) && k in g && l in g && l in Reach(g, Deep(g), k) && Untouched(g, k, xs)
    ensures Untouched(g, l, xs)
  {
    ReachOn(g, Deep(g), k, l);
  }

  lemma WidenFlows(g: Graph, rank: Rank, s: VarInfo, k: Label, l: Label, xs: set<Name>)
    requires Ranked(g, rank) && Acyclic(g, Deep(g)) && k in g && l in s && Flows(g, rank, s, l)
    requires l in Reach(g, Deep(g), k) && Untouched(g, k, xs)
    ensures Flows(g, rank, Widened(s, xs), l)
  {
    hide Reach, Untouched, Arrives, Enters, Acyclic, Widen;
    UntouchedOn(g, k, l, xs);
    match g[l].term
    case Branch(_, kt, kf) =>
      UntouchedNext(g, l, kt, xs);
      UntouchedNext(g, l, kf, xs);
      WidenArrives(g, rank, s, s[l], None, kt, xs);
      WidenArrives(g, rank, s, s[l], None, kf, xs);
    case Continue(next, e) =>
      UntouchedNext(g, l, next, xs);
      WidenArrives(g, rank, s, s[l], Some(e), next, xs);
      if e.EProc? {
        UntouchedNext(g, l, e.k, xs);
        WidenEnters(g, s, s[l], e.k, xs);
      }
  }

  lemma UntouchedNext(g: Graph, k: Label, next: Label, xs: set<Name>)
    requires Acyclic(g, Deep(g)) && k in g && Leads(g[k], next) && Untouched(g, k, xs)
    ensures next in g && Untouched(g, next, xs)
  {
    OnwardReach(g, Deep(g), k, next);
  }

  lemma WidenConst(t: Table, xs: set<Name>, x: Name)
    requires forall y :: y in xs ==> !Known(t, y)
    ensures GetConst(Widen(t, xs), x) == GetConst(t, x)
  {
  }

  lemma {:induction false} WidenConsts(t: Table, xs: set<Name>, args: seq<Name>)
    requires forall y :: y in xs ==> !Known(t, y)
    ensures GetConsts(Widen(t, xs), args) == GetConsts(t, args)
    decreases args
  {
    if args != [] {
      WidenConst(t, xs, args[0]);
      WidenConsts(t, xs, args[1..]);
    }
  }

  /** Nothing else is folded. */
  lemma WidenFolds(t: Table, xs: set<Name>, e: Expr)
    requires forall y :: y in xs ==> !Known(t, y)
    ensures FoldExpr(Widen(t, xs), e) == FoldExpr(t, e)
  {
    if e.EPrimcall? {
      WidenConsts(t, xs, e.args);
    }
  }

  lemma WidenFoldAt(g: Graph, s: VarInfo, xs: set<Name>, k: Label)
    requires k in g && (k in s ==> forall y :: y in xs ==> !Known(s[k], y))
    ensures FoldAt(g, Widened(s, xs), k) == FoldAt(g, s, k)
  {
    if g[k].Kargs? && k in s {
      match g[k].term
      case Branch(x, _, _) => WidenConst(s[k], xs, x);
      case Continue(_, e) => WidenFolds(s[k], xs, e);
    }
  }

  lemma WidenFolded(g: Graph, s: VarInfo, h: Graph, xs: set<Name>)
    requires Folded(g, s, h) && forall l, y :: l in s && y in xs ==> !Known(s[l], y)
    ensures Folded(g, Widened(s, xs), h)
  {
    forall k | k in h
      ensures h[k] == FoldAt(g, Widened(s, xs), k)
    {
      WidenFoldAt(g, s, xs, k);
    }
  }

  lemma WidenNoPrims(t: Table, env: GEnv)
    requires NoPrims(t) && forall x :: x in env ==> !PrimNamed(x)
    ensures NoPrims(Widen(t, env.Keys)) && (forall c :: !AllConst([Rec([], None)], c)) && (t == map[] ==> EnvOk(Widen(t, env.Keys), env))
  {
    forall c
      ensures !AllConst([Rec([], None)], c)
    {
      assert Rec([], None) in [Rec([], None)];
    }
  }
}
