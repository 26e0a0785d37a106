/** Collecting the information: a walk over the graph that visits the arms of a branch
    separately and joins what it has found. */
module CpsCollect {
  import opened Wrappers
  import opened CpsLang
  import opened CpsConst

  /** Control and code only lead to labels of smaller rank. */
  ghost predicate Acyclic(g: Graph, deep: Rank) {
    forall k, l {:trigger Leads(g[k], l)} :: k in g && Leads(g[k], l) ==> l in g && deep(l) < deep(k)
  }

  // ------------------------------------------------------------------ tables

  /** Records not there already are added behind. */
  function Cat(rs: seq<Rec>, ss: seq<Rec>): seq<Rec>
    decreases ss
  {
    if ss == [] then rs
    else if ss[0] in rs then Cat(rs, ss[1..])
    else Cat(rs + [ss[0]], ss[1..])
  }

  function At(t: Table, x: Name): seq<Rec> {
    if x in t then t[x] else []
  }

  function TableUnion(t: Table, u: Table): Table {
    map x | x in t.Keys + u.Keys :: Cat(At(t, x), At(u, x))
  }

  function InfoUnion(a: VarInfo, b: VarInfo): VarInfo {
    map l | l in a.Keys + b.Keys :: if l !in a then b[l] else if l !in b then a[l] else TableUnion(a[l], b[l])
  }

  function Define(t: Table, vars: seq<Name>, b: Option<Expr>, path: seq<nat>): Table {
    map x | x in t.Keys + (set y | y in vars) :: if x in vars then [Rec(path, b)] else t[x]
  }

  function Names(k: Kont): seq<Name>
    requires k.Kproc?
  {
    k.params + (if k.restParam.Some? then [k.restParam.value] else [])
  }

  function Arrival(t: Table, vars: seq<Name>, e: Option<Expr>, path: seq<nat>): Table {
    if e.Some? then Define(t, vars, e, path) else t
  }

  /** What the walk finds out from `k` on. */
  ghost function Info(g: Graph, deep: Rank, t: Table, e: Option<Expr>, k: Label, path: seq<nat>): VarInfo
    requires Acyclic(g, deep) && k in g
    decreases deep(k)
  {
    match g[k]
    case Ktail => map[]
    case Kreceive(_, _, next) =>
      assert Leads(g[k], next);
      Info(g, deep, t, e, next, path)
    case Kproc(_, _, _, body) =>
      assert Leads(g[k], body);
      Info(g, deep, Define(t, Names(g[k]), None, path + [k]), None, body, path + [k])
    case Kargs(vars, term) =>
      var u := Arrival(t, vars, e, path + [k]);
      match term
      case Branch(_, kt, kf) =>
        assert Leads(g[k], kt) && Leads(g[k], kf);
        map[k := u] + InfoUnion(Info(g, deep, u, None, kt, path + [k, 1]), Info(g, deep, u, None, kf, path + [k, 0]))
      case Continue(next, x) =>
        assert Leads(g[k], next);
        map[k := u] + InfoProc(g, deep, u, k, path) + Info(g, deep, u, Some(x), next, path + [k, 0])
  }

  /** The part found out in the body of a procedure made at `k`. */
  ghost function InfoProc(g: Graph, deep: Rank, u: Table, k: Label, path: seq<nat>): VarInfo
    requires Acyclic(g, deep) && k in g && g[k].Kargs? && g[k].term.Continue?
    decreases deep(k), 0
  {
    if g[k].term.expr.EProc? then
      assert Leads(g[k], g[k].term.expr.k);
      Info(g, deep, u, Some(g[k].term.expr), g[k].term.expr.k, path + [k, 1])
    else map[]
  }

  /** All the walk comes by. */
  ghost function Reach(g: Graph, deep: Rank, k: Label): set<Label>
    requires Acyclic(g, deep) && k in g
    decreases deep(k)
  {
    {k} +
    match g[k]
    case Ktail => {}
    case Kreceive(_, _, next) =>
      assert Leads(g[k], next);
      Reach(g, deep, next)
    case Kproc(_, _, _, body) =>
      assert Leads(g[k], body);
      Reach(g, deep, body)
    case Kargs(_, Branch(_, kt, kf)) =>
      assert Leads(g[k], kt) && Leads(g[k], kf);
      Reach(g, deep, kt) + Reach(g, deep, kf)
    case Kargs(_, Continue(next, x)) =>
      assert Leads(g[k], next);
      Reach(g, deep, next) + (if x.EProc? then assert Leads(g[k], x.k); Reach(g, deep, x.k) else {})
  }

  /** The body of a procedure shares nothing with what follows where it is made. */
  ghost predicate Apart(g: Graph, deep: Rank, within: set<Label>)
    requires Acyclic(g, deep)
  {
    forall k {:trigger ApartAt(g, deep, k)} :: k in within ==> ApartAt(g, deep, k)
  }

  ghost predicate ApartAt(g: Graph, deep: Rank, k: Label)
    requires Acyclic(g, deep)
  {
    k in g && g[k].Kargs? && g[k].term.Continue? && g[k].term.expr.EProc? ==>
      Leads(g[k], g[k].term.k) && Leads(g[k], g[k].term.expr.k) &&
      Reach(g, deep, g[k].term.expr.k) !! Reach(g, deep, g[k].term.k)
  }

  /** What is reached beyond `k` is reached from somewhere `k` leads. */
  lemma NextOnWay(g: Graph, deep: Rank, k: Label, l: Label) returns (next: Label)
    requires Acyclic(g, deep) && k in g && l in Reach(g, deep, k) && l != k
    ensures Leads(g[k], next) && next in g && l in Reach(g, deep, next)
  {
    match g[k]
    case Kreceive(_, _, n) =>
      assert Leads(g[k], n);
      next := n;
    case Kproc(_, _, _, body) =>
      assert Leads(g[k], body);
      next := body;
    case Kargs(_, Branch(_, kt, kf)) =>
      assert Leads(g[k], kt) && Leads(g[k], kf);
      next := if l in Reach(g, deep, kt) then kt else kf;
    case Kargs(_, Continue(n, x)) =>
      assert Leads(g[k], n) && (x.EProc? ==> Leads(g[k], x.k));
      next := if l in Reach(g, deep, n) then n else x.k;
  }

  lemma {:induction false} ReachBelow(g: Graph, deep: Rank, k: Label, l: Label)
    requires Acyclic(g, deep) && k in g && l in Reach(g, deep, k)
    ensures l in g && deep(l) <= deep(k) && (l != k ==> deep(l) < deep(k))
    decreases deep(k)
  {
    if l != k {
      var next := NextOnWay(g, deep, k, l);
      ReachBelow(g, deep, next, l);
    }
  }

  lemma {:induction false} ReachOn(g: Graph, deep: Rank, k: Label, l: Label)
    requires Acyclic(g, deep) && k in g && l in Reach(g, deep, k)
    ensures l in g && Reach(g, deep, l) <= Reach(g, deep, k)
    decreases deep(k)
  {
    if l != k {
      var next := NextOnWay(g, deep, k, l);
      ReachOn(g, deep, next, l);
      LeadsReach(g, deep, k, next);
    }
  }

  lemma LeadsReach(g: Graph, deep: Rank, k: Label, next: Label)
    requires Acyclic(g, deep) && k in g && Leads(g[k], next)
    ensures next in g && Reach(g, deep, next) <= Reach(g, deep, k)
  {
  }

  lemma {:induction false} InfoReach(g: Graph, deep: Rank, t: Table, e: Option<Expr>, k: Label, path: seq<nat>, l: Label)
    requires Acyclic(g, deep) && k in g && l in Info(g, deep, t, e, k, path)
    ensures l in Reach(g, deep, k)
    decreases deep(k)
  {
    match g[k]
    case Ktail =>
    case Kreceive(_, _, next) =>
      assert Leads(g[k], next);
      InfoReach(g, deep, t, e, next, path, l);
    case Kproc(_, _, _, body) =>
      assert Leads(g[k], body);
      InfoReach(g, deep, Define(t, Names(g[k]), None, path + [k]), None, body, path + [k], l);
    case Kargs(vars, term) =>
      var u := Arrival(t, vars, e, path + [k]);
      match term
      case Branch(_, kt, kf) =>
        assert Leads(g[k], kt) && Leads(g[k], kf);
        if l in Info(g, deep, u, None, kt, path + [k, 1]) {
          InfoReach(g, deep, u, None, kt, path + [k, 1], l);
        } else if l in Info(g, deep, u, None, kf, path + [k, 0]) {
          InfoReach(g, deep, u, None, kf, path + [k, 0], l);
        }
      case Continue(next, x) =>
        assert Leads(g[k], next);
        if l in Info(g, deep, u, Some(x), next, path + [k, 0]) {
          InfoReach(g, deep, u, Some(x), next, path + [k, 0], l);
        } else if l in InfoProc(g, deep, u, k, path) {
          assert Leads(g[k], x.k);
          InfoReach(g, deep, u, Some(x), x.k, path + [k, 1], l);
        }
  }

  // ------------------------------------------------------------ joining tables

  lemma {:induction false} CatHas(rs: seq<Rec>, ss: seq<Rec>)
    ensures forall r :: r in Cat(rs, ss) <==> r in rs || r in ss
    decreases ss
  {
    if ss != [] {
      CatHas(rs, ss[1..]);
      CatHas(rs + [ss[0]], ss[1..]);
      assert ss == [ss[0]] + ss[1..];
    }
  }

  predicate NoRepeats(rs: seq<Rec>) {
    forall i, j :: 0 <= i < j < |rs| ==> rs[i] != rs[j]
  }

  /** What there was stays in front, and nothing comes twice. */
  lemma {:induction false} CatOnce(rs: seq<Rec>, ss: seq<Rec>)
    ensures rs <= Cat(rs, ss)
    ensures NoRepeats(rs) ==> NoRepeats(Cat(rs, ss))
    ensures (forall r :: r in ss ==> r in rs) ==> Cat(rs, ss) == rs
    decreases ss
  {
    if ss != [] {
      CatOnce(rs, ss[1..]);
      CatOnce(rs + [ss[0]], ss[1..]);
    }
  }

  /** Joined tables hold the records of both, each once, the first table's in front; what
      both say of a variable alike stays as it is. */
  lemma UnionMeans(a: VarInfo, b: VarInfo, l: Label, x: Name)
    ensures l in InfoUnion(a, b) <==> l in a || l in b
    ensures l in a && l !in b ==> InfoUnion(a, b)[l] == a[l]
    ensures l in b && l !in a ==> InfoUnion(a, b)[l] == b[l]
    ensures l in a && l in b ==>
      var t, u, v := a[l], b[l], InfoUnion(a, b)[l];
      && (x in v <==> x in t || x in u)
      && (forall r :: r in At(v, x) <==> r in At(t, x) || r in At(u, x))
      && At(t, x) <= At(v, x) && (NoRepeats(At(t, x)) ==> NoRepeats(At(v, x)))
      && (At(t, x) == At(u, x) ==> At(v, x) == At(t, x))
  {
    if l in a && l in b {
      CatHas(At(a[l], x), At(b[l], x));
      CatOnce(At(a[l], x), At(b[l], x));
    }
  }

  /** What the walk enters where it stands: a variable that gets a value has one record, of
      that value and this visit, and the others keep theirs. */
  lemma StartMeans(g: Graph, deep: Rank, t: Table, e: Option<Expr>, k: Label, path: seq<nat>, x: Name)
    requires Acyclic(g, deep) && k in g && g[k].Kargs?
    ensures var s := Info(g, deep, t, e, k, path);
      k in s && At(s[k], x) == if e.Some? && x in g[k].vars then [Rec(path + [k], e)] else At(t, x)
  {
    var u := Arrival(t, g[k].vars, e, path + [k]);
    forall l | l in g && Leads(g[k], l)
      ensures k !in Reach(g, deep, l)
    {
      if k in Reach(g, deep, l) {
        ReachBelow(g, deep, l, k);
      }
    }
    match g[k].term
    case Branch(_, kt, kf) =>
      assert Leads(g[k], kt) && Leads(g[k], kf);
      NotFound(g, deep, u, None, kt, path + [k, 1], k);
      NotFound(g, deep, u, None, kf, path + [k, 0], k);
    case Continue(next, y) =>
      assert Leads(g[k], next);
      NotFound(g, deep, u, Some(y), next, path + [k, 0], k);
      if y.EProc? {
        assert Leads(g[k], y.k);
        NotFound(g, deep, u, Some(y), y.k, path + [k, 1], k);
      }
  }

  lemma CatNonempty(rs: seq<Rec>, ss: seq<Rec>)
    ensures Cat(rs, ss) == [] <==> rs == [] && ss == []
  {
    CatHas(rs, ss);
    if rs != [] {
      assert rs[0] in rs;
    }
    if ss != [] {
      assert ss[0] in ss;
    }
    if Cat(rs, ss) != [] {
      assert Cat(rs, ss)[0] in Cat(rs, ss);
    }
  }

  lemma UnionAt(t: Table, u: Table, x: Name)
    ensures Known(TableUnion(t, u), x) <==> Known(t, x) || Known(u, x)
    ensures Known(t, x) ==> Within(t[x], TableUnion(t, u)[x])
    ensures Known(u, x) ==> Within(u[x], TableUnion(t, u)[x])
    ensures Known(TableUnion(t, u), x) ==> forall r :: r in TableUnion(t, u)[x] ==> r in At(t, x) || r in At(u, x)
  {
    CatNonempty(At(t, x), At(u, x));
    CatHas(At(t, x), At(u, x));
  }

  lemma CoversUnion(t: Table, u: Table)
    ensures Covers(t, [], TableUnion(t, u)) && Covers(u, [], TableUnion(t, u))
  {
    forall x | Known(t, x) || Known(u, x)
      ensures Known(TableUnion(t, u), x)
      ensures Known(t, x) ==> Within(t[x], TableUnion(t, u)[x])
      ensures Known(u, x) ==> Within(u[x], TableUnion(t, u)[x])
    {
      UnionAt(t, u, x);
    }
  }

  lemma UnionCovered(t: Table, u: Table, vars: seq<Name>, w: Table)
    requires Covers(t, vars, w) && Covers(u, vars, w)
    ensures Covers(TableUnion(t, u), vars, w)
  {
    var v := TableUnion(t, u);
    forall x | Known(v, x) && x !in vars
      ensures Known(w, x) && Within(v[x], w[x])
    {
      UnionAt(t, u, x);
      if Known(t, x) {
        assert Within(t[x], w[x]);
      }
      if Known(u, x) {
        assert Within(u[x], w[x]);
      }
    }
  }

  lemma CoversOn(t: Table, vars: seq<Name>, u: Table, w: Table)
    requires Covers(t, vars, u) && Covers(u, [], w)
    ensures Covers(t, vars, w)
  {
  }

  lemma RecordsOn(vars: seq<Name>, b: Option<Expr>, u: Table, w: Table)
    requires Records(vars, b, u) && Covers(u, [], w)
    ensures Records(vars, b, w)
  {
    forall x | x in vars
      ensures Known(w, x) && Bound(w[x], b)
    {
      var r :| r in u[x] && r.binding == b;
    }
  }

  // --------------------------------------------------------------- consistency

  /** `b` knows all `a` knows, wherever `a` knows anything. */
  ghost predicate Refines(a: VarInfo, b: VarInfo) {
    forall l :: l in a ==> l in b && Covers(a[l], [], b[l])
  }

  lemma {:induction false} ArrivesOn(g: Graph, rank: Rank, a: VarInfo, b: VarInfo, t: Table, e: Option<Expr>, k: Label)
    requires Ranked(g, rank) && Arrives(g, rank, a, t, e, k) && Refines(a, b)
    ensures Arrives(g, rank, b, t, e, k)
    decreases rank(k)
  {
    hide Covers, Records;
    match g[k]
    case Kreceive(_, _, next) =>
      assert next in Succs(g[k]);
      ArrivesOn(g, rank, a, b, t, e, next);
    case Kargs(vars, _) =>
      CoversOn(t, if e.Some? then vars else [], a[k], b[k]);
      if e.Some? {
        RecordsOn(vars, e, a[k], b[k]);
      }
    case _ =>
  }

  lemma EntersOn(g: Graph, a: VarInfo, b: VarInfo, t: Table, code: Label)
    requires Enters(g, a, t, code) && Refines(a, b)
    ensures Enters(g, b, t, code)
  {
    hide Covers, Records;
    if code in g && g[code].Kproc? && g[code].body in g && g[g[code].body].Kargs? {
      var body := g[code].body;
      CoversOn(t, Names(g[code]), a[body], b[body]);
      RecordsOn(Names(g[code]), None, a[body], b[body]);
    }
  }

  lemma {:induction false} ArrivesJoin(g: Graph, rank: Rank, s: VarInfo, t: Table, u: Table, e: Option<Expr>, k: Label)
    requires Ranked(g, rank) && Arrives(g, rank, s, t, e, k) && Arrives(g, rank, s, u, e, k)
    ensures Arrives(g, rank, s, TableUnion(t, u), e, k)
    decreases rank(k)
  {
    hide Covers, Records, TableUnion;
    match g[k]
    case Kreceive(_, _, next) =>
      assert next in Succs(g[k]);
      ArrivesJoin(g, rank, s, t, u, e, next);
    case Kargs(vars, _) =>
      UnionCovered(t, u, if e.Some? then vars else [], s[k]);
    case _ =>
  }

  lemma EntersJoin(g: Graph, s: VarInfo, t: Table, u: Table, code: Label)
    requires Enters(g, s, t, code) && Enters(g, s, u, code)
    ensures Enters(g, s, TableUnion(t, u), code)
  {
    hide Covers, Records, TableUnion;
    if code in g && g[code].Kproc? && g[code].body in g && g[g[code].body].Kargs? {
      UnionCovered(t, u, Names(g[code]), s[g[code].body]);
    }
  }

  ghost predicate FlowsFrom(g: Graph, rank: Rank, s: VarInfo, t: Table, k: Label)
    requires Ranked(g, rank)
  {
    k in g && g[k].Kargs? &&
    match g[k].term
    case Branch(_, kt, kf) => Arrives(g, rank, s, t, None, kt) && Arrives(g, rank, s, t, None, kf)
    case Continue(next, e) => Arrives(g, rank, s, t, Some(e), next) && (e.EProc? ==> Enters(g, s, t, e.k))
  }

  lemma FlowsOn(g: Graph, rank: Rank, a: VarInfo, b: VarInfo, t: Table, k: Label)
    requires Ranked(g, rank) && FlowsFrom(g, rank, a, t, k) && Refines(a, b)
    ensures FlowsFrom(g, rank, b, t, k)
  {
    hide Arrives, Enters, Refines;
    match g[k].term
    case Branch(_, kt, kf) =>
      ArrivesOn(g, rank, a, b, t, None, kt);
      ArrivesOn(g, rank, a, b, t, None, kf);
    case Continue(next, e) =>
      ArrivesOn(g, rank, a, b, t, Some(e), next);
      if e.EProc? {
        EntersOn(g, a, b, t, e.k);
      }
  }

  lemma FlowsJoin(g: Graph, rank: Rank, s: VarInfo, t: Table, u: Table, k: Label)
    requires Ranked(g, rank) && FlowsFrom(g, rank, s, t, k) && FlowsFrom(g, rank, s, u, k)
    ensures FlowsFrom(g, rank, s, TableUnion(t, u), k)
  {
    hide Arrives, Enters, TableUnion;
    match g[k].term
    case Branch(_, kt, kf) =>
      ArrivesJoin(g, rank, s, t, u, None, kt);
      ArrivesJoin(g, rank, s, t, u, None, kf);
    case Continue(next, e) =>
      ArrivesJoin(g, rank, s, t, u, Some(e), next);
      if e.EProc? {
        EntersJoin(g, s, t, u, e.k);
      }
  }

  lemma CoversSelf(t: Table)
    ensures Covers(t, [], t)
  {
  }

  lemma UnionRefines(a: VarInfo, b: VarInfo)
    ensures Refines(a, InfoUnion(a, b)) && Refines(b, InfoUnion(a, b))
  {
    hide Covers, TableUnion;
    forall l | l in a || l in b
      ensures l in InfoUnion(a, b)
      ensures l in a ==> Covers(a[l], [], InfoUnion(a, b)[l])
      ensures l in b ==> Covers(b[l], [], InfoUnion(a, b)[l])
    {
      if l in a && l in b {
        CoversUnion(a[l], b[l]);
      } else if l in a {
        CoversSelf(a[l]);
      } else {
        CoversSelf(b[l]);
      }
    }
  }

  /** Joining what two arms found out keeps it consistent. */
  lemma UnionConsistent(g: Graph, rank: Rank, a: VarInfo, b: VarInfo)
    requires Ranked(g, rank) && Consistent(g, rank, a) && Consistent(g, rank, b)
    ensures Consistent(g, rank, InfoUnion(a, b))
  {
    hide FlowsFrom, Refines, TableUnion;
    var s := InfoUnion(a, b);
    UnionRefines(a, b);
    forall l | l in s
      ensures Flows(g, rank, s, l)
    {
      if l in a {
        FlowsIs(g, rank, a, l);
        FlowsOn(g, rank, a, s, a[l], l);
      }
      if l in b {
        FlowsIs(g, rank, b, l);
        FlowsOn(g, rank, b, s, b[l], l);
      }
      if l in a && l in b {
        FlowsJoin(g, rank, s, a[l], b[l], l);
      }
      FlowsIs(g, rank, s, l);
    }
  }

  lemma FlowsIs(g: Graph, rank: Rank, s: VarInfo, l: Label)
    requires Ranked(g, rank) && l in s
    ensures Flows(g, rank, s, l) <==> FlowsFrom(g, rank, s, s[l], l)
    ensures Consistent(g, rank, s) ==> Flows(g, rank, s, l)
  {
  }

  /** Information on labels found one after the other, without a label in common. */
  lemma MergeConsistent(g: Graph, rank: Rank, k: Label, u: Table, a: VarInfo, b: VarInfo)
    requires Ranked(g, rank) && Consistent(g, rank, a) && Consistent(g, rank, b)
    requires k !in a && k !in b && a.Keys !! b.Keys
    ensures Refines(a, map[k := u] + a + b) && Refines(b, map[k := u] + a + b)
    ensures FlowsFrom(g, rank, map[k := u] + a + b, u, k) ==> Consistent(g, rank, map[k := u] + a + b)
  {
    hide FlowsFrom, Covers;
    var s := map[k := u] + a + b;
    forall l | l in a || l in b
      ensures l in s && s[l] == if l in a then a[l] else b[l]
      ensures Covers(s[l], [], s[l])
    {
      CoversSelf(s[l]);
    }
    assert Refines(a, s) && Refines(b, s);
    if FlowsFrom(g, rank, s, u, k) {
      hide Refines;
      forall l | l in s
        ensures Flows(g, rank, s, l)
      {
        if l in a {
          FlowsIs(g, rank, a, l);
          FlowsOn(g, rank, a, s, a[l], l);
        } else if l in b {
          FlowsIs(g, rank, b, l);
          FlowsOn(g, rank, b, s, b[l], l);
        }
        FlowsIs(g, rank, s, l);
      }
    }
  }

  // ------------------------------------------------------- the walk is right

  /** Receivers take no rest; a procedure's body binds its parameters. */
  ghost predicate Plain(g: Graph, within: set<Label>) {
    forall k {:trigger PlainAt(g, k)} :: k in within && k in g ==> PlainAt(g, k)
  }

  ghost predicate PlainAt(g: Graph, k: Label)
    requires k in g
  {
    match g[k]
    case Kreceive(_, rest, _) => rest.None?
    case Kproc(_, _, _, body) =>
      body in g && g[body].Kargs? && forall x :: x in g[body].vars ==> x in Names(g[k])
    case _ => true
  }

  /** By every way on from `k` control comes to the tail `tail`, and to no other. */
  ghost predicate OwnTail(g: Graph, deep: Rank, k: Label, tail: Label)
    requires Acyclic(g, deep)
    decreases deep(k)
  {
    k in g &&
    match g[k]
    case Ktail => k == tail
    case Kproc(_, _, _, _) => false
    case Kreceive(_, _, next) => assert Leads(g[k], next); OwnTail(g, deep, next, tail)
    case Kargs(_, Branch(_, kt, kf)) =>
      assert Leads(g[k], kt) && Leads(g[k], kf);
      OwnTail(g, deep, kt, tail) && OwnTail(g, deep, kf, tail)
    case Kargs(_, Continue(next, _)) => assert Leads(g[k], next); OwnTail(g, deep, next, tail)
  }

  /** What the walk needs of the graph. */
  ghost predicate Walkable(g: Graph, rank: Rank, deep: Rank, k: Label) {
    Ranked(g, rank) && Acyclic(g, deep) && k in g && Plain(g, Reach(g, deep, k)) && Apart(g, deep, Reach(g, deep, k))
  }

  lemma WalkableOn(g: Graph, rank: Rank, deep: Rank, k: Label, next: Label)
    requires Walkable(g, rank, deep, k) && Leads(g[k], next)
    ensures Walkable(g, rank, deep, next) && deep(next) < deep(k) && k !in Reach(g, deep, next)
  {
    LeadsReach(g, deep, k, next);
    if k in Reach(g, deep, next) {
      ReachBelow(g, deep, next, k);
    }
  }

  lemma ArrivalArrives(t: Table, vars: seq<Name>, e: Option<Expr>, path: seq<nat>)
    ensures var u := Arrival(t, vars, e, path);
      if e.Some? then Covers(t, vars, u) && Records(vars, e, u) else Covers(t, [], u)
  {
    var u := Arrival(t, vars, e, path);
    if e.Some? {
      forall x | x in vars
        ensures Known(u, x) && Bound(u[x], e)
      {
        assert u[x] == [Rec(path, e)];
        assert Rec(path, e) in u[x];
      }
    }
  }

  lemma DefineEnters(t: Table, names: seq<Name>, path: seq<nat>, w: Table)
    requires Covers(Define(t, names, None, path), [], w)
    ensures Covers(t, names, w) && Records(names, None, w)
  {
    var u := Define(t, names, None, path);
    forall x | Known(t, x) && x !in names
      ensures Known(w, x) && Within(t[x], w[x])
    {
      assert u[x] == t[x];
    }
    forall x | x in names
      ensures Known(w, x) && Bound(w[x], None)
    {
      assert u[x] == [Rec(path, None)];
      assert Rec(path, None) in u[x];
    }
  }

  /** What the walk finds out is consistent, and holds on arriving where it starts. */
  lemma {:induction false} InfoConsistent(g: Graph, rank: Rank, deep: Rank, t: Table, e: Option<Expr>, k: Label, path: seq<nat>)
    requires Walkable(g, rank, deep, k)
    ensures var s := Info(g, deep, t, e, k, path);
      Consistent(g, rank, s) && Arrives(g, rank, s, t, e, k) && (g[k].Kproc? ==> Enters(g, s, t, k))
    decreases deep(k), 1
  {
    hide Covers, Records, Consistent, Apart, Define, Plain;
    assert PlainAt(g, k) by { WalkPlain(g, rank, deep, k); }
    match g[k]
    case Ktail =>
      EmptyConsistent(g, rank);
    case Kreceive(_, _, next) =>
      assert Leads(g[k], next);
      WalkableOn(g, rank, deep, k, next);
      InfoConsistent(g, rank, deep, t, e, next, path);
    case Kproc(_, _, _, body) =>
      assert Leads(g[k], body);
      WalkableOn(g, rank, deep, k, body);
      var u := Define(t, Names(g[k]), None, path + [k]);
      InfoConsistent(g, rank, deep, u, None, body, path + [k]);
      DefineEnters(t, Names(g[k]), path + [k], Info(g, deep, u, None, body, path + [k])[body]);
    case Kargs(vars, term) =>
      if term.Branch? {
        InfoBranch(g, rank, deep, t, e, k, path);
      } else {
        InfoContinue(g, rank, deep, t, e, k, path);
      }
  }

  lemma WalkPlain(g: Graph, rank: Rank, deep: Rank, k: Label)
    requires Walkable(g, rank, deep, k)
    ensures PlainAt(g, k)
  {
  }

  lemma EmptyConsistent(g: Graph, rank: Rank)
    requires Ranked(g, rank)
    ensures Consistent(g, rank, map[])
  {
  }

  lemma {:induction false} InfoBranch(g: Graph, rank: Rank, deep: Rank, t: Table, e: Option<Expr>, k: Label, path: seq<nat>)
    requires Walkable(g, rank, deep, k) && g[k].Kargs? && g[k].term.Branch?
    ensures var s := Info(g, deep, t, e, k, path); Consistent(g, rank, s) && Arrives(g, rank, s, t, e, k)
    decreases deep(k), 0
  {
    hide Covers, Records, Consistent, Apart, Define, Plain, Refines, Arrives, InfoUnion, Reach;
    var u, kt, kf := Arrival(t, g[k].vars, e, path + [k]), g[k].term.kt, g[k].term.kf;
    assert Leads(g[k], kt) && Leads(g[k], kf);
    WalkableOn(g, rank, deep, k, kt);
    WalkableOn(g, rank, deep, k, kf);
    InfoConsistent(g, rank, deep, u, None, kt, path + [k, 1]);
    InfoConsistent(g, rank, deep, u, None, kf, path + [k, 0]);
    var a, b := Info(g, deep, u, None, kt, path + [k, 1]), Info(g, deep, u, None, kf, path + [k, 0]);
    var joined := InfoUnion(a, b);
    UnionConsistent(g, rank, a, b);
    UnionRefines(a, b);
    ArrivesOn(g, rank, a, joined, u, None, kt);
    ArrivesOn(g, rank, b, joined, u, None, kf);
    NotFound(g, deep, u, None, kt, path + [k, 1], k);
    NotFound(g, deep, u, None, kf, path + [k, 0], k);
    UnionKeys(a, b);
    EmptyConsistent(g, rank);
    var s := map[k := u] + joined;
    assert s == map[k := u] + map[] + joined;
    MergeConsistent(g, rank, k, u, map[], joined);
    ArrivesOn(g, rank, joined, s, u, None, kt);
    ArrivesOn(g, rank, joined, s, u, None, kf);
    StartArrives(g, rank, s, t, e, k, path);
  }

  lemma UnionKeys(a: VarInfo, b: VarInfo)
    ensures InfoUnion(a, b).Keys == a.Keys + b.Keys
  {
  }

  lemma NotFound(g: Graph, deep: Rank, t: Table, e: Option<Expr>, k: Label, path: seq<nat>, l: Label)
    requires Acyclic(g, deep) && k in g && l !in Reach(g, deep, k)
    ensures l !in Info(g, deep, t, e, k, path)
  {
    if l in Info(g, deep, t, e, k, path) {
      InfoReach(g, deep, t, e, k, path, l);
    }
  }

  lemma StartArrives(g: Graph, rank: Rank, s: VarInfo, t: Table, e: Option<Expr>, k: Label, path: seq<nat>)
    requires Ranked(g, rank) && k in g && g[k].Kargs? && k in s && s[k] == Arrival(t, g[k].vars, e, path + [k])
    ensures Arrives(g, rank, s, t, e, k)
  {
    hide Covers, Records;
    ArrivalArrives(t, g[k].vars, e, path + [k]);
  }

  lemma {:induction false} InfoContinue(g: Graph, rank: Rank, deep: Rank, t: Table, e: Option<Expr>, k: Label, path: seq<nat>)
    requires Walkable(g, rank, deep, k) && g[k].Kargs? && g[k].term.Continue?
    ensures var s := Info(g, deep, t, e, k, path); Consistent(g, rank, s) && Arrives(g, rank, s, t, e, k)
    decreases deep(k), 0
  {
    hide Covers, Records, Consistent, Apart, Define, Plain, Refines, Arrives, Enters, Reach;
    var u, next, x := Arrival(t, g[k].vars, e, path + [k]), g[k].term.k, g[k].term.expr;
    assert Leads(g[k], next);
    WalkableOn(g, rank, deep, k, next);
    InfoConsistent(g, rank, deep, u, Some(x), next, path + [k, 0]);
    NotFound(g, deep, u, Some(x), next, path + [k, 0], k);
    var a, b := InfoProc(g, deep, u, k, path), Info(g, deep, u, Some(x), next, path + [k, 0]);
    var s := map[k := u] + a + b;
    if x.EProc? {
      assert Leads(g[k], x.k);
      WalkableOn(g, rank, deep, k, x.k);
      InfoConsistent(g, rank, deep, u, Some(x), x.k, path + [k, 1]);
      NotFound(g, deep, u, Some(x), x.k, path + [k, 1], k);
      KeysApart(g, rank, deep, u, k, path);
    } else {
      EmptyConsistent(g, rank);
    }
    MergeConsistent(g, rank, k, u, a, b);
    ArrivesOn(g, rank, b, s, u, Some(x), next);
    if x.EProc? {
      ProcEnters(g, a, s, u, x.k);
    }
    StartArrives(g, rank, s, t, e, k, path);
  }

  lemma ProcEnters(g: Graph, a: VarInfo, b: VarInfo, t: Table, code: Label)
    requires Refines(a, b) && (code in g && g[code].Kproc? ==> Enters(g, a, t, code))
    ensures Enters(g, b, t, code)
  {
    if code in g && g[code].Kproc? {
      EntersOn(g, a, b, t, code);
    }
  }

  lemma KeysApart(g: Graph, rank: Rank, deep: Rank, u: Table, k: Label, path: seq<nat>)
    requires Walkable(g, rank, deep, k) && g[k].Kargs? && g[k].term.Continue? && g[k].term.expr.EProc?
    requires g[k].term.k in g
    ensures InfoProc(g, deep, u, k, path).Keys !! Info(g, deep, u, Some(g[k].term.expr), g[k].term.k, path + [k, 0]).Keys
  {
    var next, x := g[k].term.k, g[k].term.expr;
    assert ApartAt(g, deep, k);
    forall l | l in InfoProc(g, deep, u, k, path)
      ensures l !in Info(g, deep, u, Some(x), next, path + [k, 0])
    {
      InfoReach(g, deep, u, Some(x), x.k, path + [k, 1], l);
      if l in Info(g, deep, u, Some(x), next, path + [k, 0]) {
        InfoReach(g, deep, u, Some(x), next, path + [k, 0], l);
      }
    }
  }
}
