/** The two passes as they run: collecting into a table of continuations, and building
    the folded graph from it. */
module CpsFolding {
  import opened Wrappers
  import opened CpsValues
  import opened CpsLang
  import opened CpsConst
  import opened CpsCollect
  import opened CpsFold

  // -------------------------------------------------------------- collecting

  lemma UnionSame(t: Table)
    ensures TableUnion(t, t) == t
  {
    forall x | x in t
      ensures Cat(t[x], t[x]) == t[x]
    {
      CatOnce(t[x], t[x]);
    }
  }

  /** Two arms that started from the same information are joined over what they added. */
  lemma JoinAdded(s: VarInfo, a: VarInfo, b: VarInfo)
    requires s.Keys !! a.Keys && s.Keys !! b.Keys
    ensures InfoUnion(s + a, s + b) == s + InfoUnion(a, b)
    ensures InfoUnion(s, s + InfoUnion(a, b)) == s + InfoUnion(a, b)
  {
    forall l | l in s
      ensures TableUnion(s[l], s[l]) == s[l]
    {
      UnionSame(s[l]);
    }
    hide TableUnion;
    JoinedArms(s, a, b);
    JoinedAgain(s, InfoUnion(a, b));
  }

  lemma JoinedArms(s: VarInfo, a: VarInfo, b: VarInfo)
    requires s.Keys !! a.Keys && s.Keys !! b.Keys && forall l :: l in s ==> TableUnion(s[l], s[l]) == s[l]
    ensures InfoUnion(s + a, s + b) == s + InfoUnion(a, b)
  {
    hide TableUnion;
  }

  lemma JoinedAgain(s: VarInfo, a: VarInfo)
    requires s.Keys !! a.Keys && forall l :: l in s ==> TableUnion(s[l], s[l]) == s[l]
    ensures InfoUnion(s, s + a) == s + a
  {
    hide TableUnion;
  }

  /** `cps_var_info_propagate`: the tables of `out` are joined to those of `state`. */
  method Propagate(state: VarInfo, out: VarInfo) returns (next: VarInfo)
    ensures next == InfoUnion(state, out)
  {
    hide TableUnion;
    next := state;
    var left := out.Keys;
    while left != {}
      invariant left <= out.Keys && next.Keys == state.Keys + (out.Keys - left)
      invariant forall l :: l in next ==> next[l] == if l in left || l !in out then state[l] else InfoUnion(state, out)[l]
      decreases left
    {
      var l :| l in left;
      next := next[l := if l in next then TableUnion(next[l], out[l]) else out[l]];
      left := left - {l};
    }
  }

  /** The variables of a continuation, entered one after the other. */
  method DefineVars(t: Table, vars: seq<Name>, b: Option<Expr>, path: seq<nat>) returns (u: Table)
    ensures u == Define(t, vars, b, path)
  {
    hide Define;
    u := t;
    DefineNone(t, b, path);
    for i := 0 to |vars|
      invariant u == Define(t, vars[..i], b, path)
    {
      DefineNext(t, vars, b, path, i);
      u := u[vars[i] := [Rec(path, b)]];
    }
    assert vars[..|vars|] == vars;
  }

  lemma DefineNone(t: Table, b: Option<Expr>, path: seq<nat>)
    ensures Define(t, [], b, path) == t
  {
  }

  lemma DefineNext(t: Table, vars: seq<Name>, b: Option<Expr>, path: seq<nat>, i: nat)
    requires i < |vars|
    ensures Define(t, vars[..i + 1], b, path) == Define(t, vars[..i], b, path)[vars[i] := [Rec(path, b)]]
  {
    assert vars[..i + 1] == vars[..i] + [vars[i]];
    var u, v := Define(t, vars[..i + 1], b, path), Define(t, vars[..i], b, path)[vars[i] := [Rec(path, b)]];
    assert u.Keys == v.Keys;
    forall x | x in u
      ensures u[x] == v[x]
    {
    }
  }

  /** `cps_collect_var_info`. */
  method CollectVarInfo(g: Graph, ghost deep: Rank, state: VarInfo, prev: Table, e: Option<Expr>, k: Label, path: seq<nat>)
    returns (out: VarInfo)
    requires Acyclic(g, deep) && k in g && Apart(g, deep, Reach(g, deep, k)) && state.Keys !! Reach(g, deep, k)
    ensures out == state + Info(g, deep, prev, e, k, path)
    decreases deep(k), 1
  {
    hide Apart, Define, InfoUnion, Reach;
    match g[k]
    case Ktail =>
      out := state;
    case Kreceive(_, _, next) =>
      ReachParts(g, deep, k, next);
      out := CollectVarInfo(g, deep, state, prev, e, next, path);
    case Kproc(params, rest, _, body) =>
      ReachParts(g, deep, k, body);
      var t := DefineVars(prev, params + (if rest.Some? then [rest.value] else []), None, path + [k]);
      out := CollectVarInfo(g, deep, state, t, None, body, path + [k]);
    case Kargs(vars, term) =>
      var u := prev;
      if e.Some? {
        u := DefineVars(prev, vars, e, path + [k]);
      }
      if term.Branch? {
        out := CollectBranch(g, deep, state, u, k, path);
      } else {
        out := CollectContinue(g, deep, state, u, k, path);
      }
  }

  /** Both arms start from copies of the same state. */
  method CollectBranch(g: Graph, ghost deep: Rank, state: VarInfo, u: Table, k: Label, path: seq<nat>) returns (out: VarInfo)
    requires Acyclic(g, deep) && k in g && Apart(g, deep, Reach(g, deep, k)) && state.Keys !! Reach(g, deep, k)
    requires g[k].Kargs? && g[k].term.Branch? && Leads(g[k], g[k].term.kt) && Leads(g[k], g[k].term.kf)
    ensures out == state + (map[k := u] + InfoUnion(Info(g, deep, u, None, g[k].term.kt, path + [k, 1]),
                                                    Info(g, deep, u, None, g[k].term.kf, path + [k, 0])))
    decreases deep(k), 0
  {
    hide Apart, Define, InfoUnion, Reach, Info;
    var kt, kf := g[k].term.kt, g[k].term.kf;
    ReachParts(g, deep, k, kt);
    ReachParts(g, deep, k, kf);
    ghost var a := Info(g, deep, u, None, kt, path + [k, 1]);
    ghost var b := Info(g, deep, u, None, kf, path + [k, 0]);
    InfoKeys(g, deep, u, None, kt, path + [k, 1]);
    InfoKeys(g, deep, u, None, kf, path + [k, 0]);
    var s := state[k := u];
    var b1 := CollectVarInfo(g, deep, s, u, None, kt, path + [k, 1]);
    var b2 := CollectVarInfo(g, deep, s, u, None, kf, path + [k, 0]);
    var joined := Propagate(b1, b2);
    out := Propagate(s, joined);
    JoinAdded(s, a, b);
    UnionKeys(a, b);
    FirstAdded(state, k, u, InfoUnion(a, b));
  }

  lemma FirstAdded(state: VarInfo, k: Label, u: Table, ab: VarInfo)
    requires k !in ab
    ensures state[k := u] + ab == state + (map[k := u] + ab)
  {
  }

  /** A procedure's body first, then what follows. */
  method CollectContinue(g: Graph, ghost deep: Rank, state: VarInfo, u: Table, k: Label, path: seq<nat>) returns (out: VarInfo)
    requires Acyclic(g, deep) && k in g && Apart(g, deep, Reach(g, deep, k)) && state.Keys !! Reach(g, deep, k)
    requires g[k].Kargs? && g[k].term.Continue? && Leads(g[k], g[k].term.k)
    ensures out == state + (map[k := u] + InfoProc(g, deep, u, k, path)
                            + Info(g, deep, u, Some(g[k].term.expr), g[k].term.k, path + [k, 0]))
    decreases deep(k), 0
  {
    hide Apart, Define, InfoUnion, Reach, Info, Leads;
    var next, x := g[k].term.k, g[k].term.expr;
    ReachParts(g, deep, k, next);
    out := state[k := u];
    if x.EProc? {
      CodeApart(g, deep, k);
      ReachParts(g, deep, k, x.k);
      InfoKeys(g, deep, u, Some(x), x.k, path + [k, 1]);
      out := CollectVarInfo(g, deep, out, u, Some(x), x.k, path + [k, 1]);
    }
    ghost var a := InfoProc(g, deep, u, k, path);
    AddedMaps(state, k, u, a, Info(g, deep, u, Some(x), next, path + [k, 0]));
    assert out == state[k := u] + a;
    out := CollectVarInfo(g, deep, out, u, Some(x), next, path + [k, 0]);
  }

  lemma AddedMaps(state: VarInfo, k: Label, u: Table, a: VarInfo, b: VarInfo)
    ensures state[k := u] + a + b == state + (map[k := u] + a + b)
    ensures a == map[] ==> state[k := u] + a == state[k := u]
  {
  }

  lemma ReachParts(g: Graph, deep: Rank, k: Label, next: Label)
    requires Acyclic(g, deep) && k in g && Leads(g[k], next) && Apart(g, deep, Reach(g, deep, k))
    ensures next in g && deep(next) < deep(k) && Reach(g, deep, next) <= Reach(g, deep, k) && k !in Reach(g, deep, next)
    ensures Apart(g, deep, Reach(g, deep, next)) && k in Reach(g, deep, k)
  {
    LeadsReach(g, deep, k, next);
    if k in Reach(g, deep, next) {
      ReachBelow(g, deep, next, k);
    }
  }

  lemma CodeApart(g: Graph, deep: Rank, k: Label)
    requires Acyclic(g, deep) && k in g && Apart(g, deep, Reach(g, deep, k))
    requires g[k].Kargs? && g[k].term.Continue? && g[k].term.expr.EProc?
    ensures Leads(g[k], g[k].term.k) && Leads(g[k], g[k].term.expr.k)
    ensures Reach(g, deep, g[k].term.expr.k) !! Reach(g, deep, g[k].term.k)
  {
    assert ApartAt(g, deep, k);
  }

  lemma InfoKeys(g: Graph, deep: Rank, t: Table, e: Option<Expr>, k: Label, path: seq<nat>)
    requires Acyclic(g, deep) && k in g
    ensures Info(g, deep, t, e, k, path).Keys <= Reach(g, deep, k)
  {
    forall l | l in Info(g, deep, t, e, k, path)
      ensures l in Reach(g, deep, k)
    {
      InfoReach(g, deep, t, e, k, path, l);
    }
  }

  // ----------------------------------------------------------------- folding

  lemma FoldedBoth(g: Graph, s: VarInfo, a: Graph, b: Graph)
    requires Folded(g, s, a) && Folded(g, s, b)
    ensures Folded(g, s, a + b)
  {
    hide FoldAt;
    var h := a + b;
    forall k, l | k in h && Leads(h[k], l)
      ensures l in h
    {
      assert k in b ==> Leads(b[k], l);
      assert k !in b ==> Leads(a[k], l);
    }
  }

  lemma FoldedAdd(g: Graph, s: VarInfo, k: Label, h: Graph)
    requires Folded(g, s, h) && k in g && forall l :: Leads(FoldAt(g, s, k), l) ==> l in h || l == k
    ensures Folded(g, s, map[k := FoldAt(g, s, k)] + h)
  {
    hide FoldAt;
    var j := map[k := FoldAt(g, s, k)] + h;
    forall m, l | m in j && Leads(j[m], l)
      ensures l in j
    {
      assert m in h ==> Leads(h[m], l);
    }
  }

  /** `cps_opt_constant_folding`: the folded continuations that can still be reached. */
  method ConstantFolding(g: Graph, ghost deep: Rank, s: VarInfo, k: Label) returns (h: Graph)
    requires Acyclic(g, deep) && k in g && forall l :: l in Reach(g, deep, k) && l in g && g[l].Kargs? ==> l in s
    ensures Folded(g, s, h) && k in h && forall l :: l in h && l in g && g[l].Kargs? ==> l in s
    ensures AllFolded(g, s, h)
    decreases deep(k), 1
  {
    hide Acyclic, Reach, Folded, FoldKont, AllFolded;
    match g[k] {
    case Ktail =>
      h := map[k := Ktail];
      FoldedOne(g, s, k);
    case Kreceive(_, _, next) =>
      OnwardReach(g, deep, k, next);
      var rest := ConstantFolding(g, deep, s, next);
      FoldedAdd(g, s, k, rest);
      h := map[k := g[k]] + rest;
    case Kproc(_, _, _, body) =>
      OnwardReach(g, deep, k, body);
      var rest := ConstantFolding(g, deep, s, body);
      FoldedAdd(g, s, k, rest);
      h := map[k := g[k]] + rest;
    case Kargs(_, Continue(next, e)) =>
      StartReach(g, deep, k);
      h := FoldContinue(g, deep, s, k);
    case Kargs(_, Branch(x, kt, kf)) =>
      StartReach(g, deep, k);
      h := FoldBranches(g, deep, s, k);
    }
    FoldedEverywhere(g, s, h);
  }

  method FoldContinue(g: Graph, ghost deep: Rank, s: VarInfo, k: Label) returns (h: Graph)
    requires Acyclic(g, deep) && k in g && g[k].Kargs? && g[k].term.Continue? && k in s
    requires forall l :: l in Reach(g, deep, k) && l in g && g[l].Kargs? ==> l in s
    ensures Folded(g, s, h) && k in h && forall l :: l in h && l in g && g[l].Kargs? ==> l in s
    decreases deep(k), 0
  {
    hide Acyclic, Reach, Folded;
    var next, e := g[k].term.k, g[k].term.expr;
    var kont := FoldKont(g, s[k], k);
    OnwardReach(g, deep, k, next);
    var v := FoldExpr(s[k], e);
    if v.Some? {
      var to := if g[next].Kreceive? then g[next].k else next;
      if g[next].Kreceive? {
        OnwardReach(g, deep, next, to);
      }
      var rest := ConstantFolding(g, deep, s, to);
      FoldedAdd(g, s, k, rest);
      h := map[k := kont] + rest;
      return;
    }
    var rest := ConstantFolding(g, deep, s, next);
    if e.EProc? {
      OnwardReach(g, deep, k, e.k);
      var code := ConstantFolding(g, deep, s, e.k);
      FoldedBoth(g, s, code, rest);
      rest := code + rest;
    }
    FoldedAdd(g, s, k, rest);
    h := map[k := kont] + rest;
  }

  method FoldBranches(g: Graph, ghost deep: Rank, s: VarInfo, k: Label) returns (h: Graph)
    requires Acyclic(g, deep) && k in g && g[k].Kargs? && g[k].term.Branch? && k in s
    requires forall l :: l in Reach(g, deep, k) && l in g && g[l].Kargs? ==> l in s
    ensures Folded(g, s, h) && k in h && forall l :: l in h && l in g && g[l].Kargs? ==> l in s
    decreases deep(k), 0
  {
    hide Acyclic, Reach, Folded;
    var x, kt, kf := g[k].term.arg, g[k].term.kt, g[k].term.kf;
    var kont := FoldKont(g, s[k], k);
    OnwardReach(g, deep, k, kt);
    OnwardReach(g, deep, k, kf);
    var arg := GetConst(s[k], x);
    var rest: Graph;
    if arg.Some? {
      rest := ConstantFolding(g, deep, s, if arg.value == Bool(false) then kf else kt);
    } else {
      var yes := ConstantFolding(g, deep, s, kt);
      var no := ConstantFolding(g, deep, s, kf);
      FoldedBoth(g, s, yes, no);
      rest := yes + no;
    }
    FoldedAdd(g, s, k, rest);
    h := map[k := kont] + rest;
  }

  lemma FoldedOne(g: Graph, s: VarInfo, k: Label)
    requires k in g && g[k].Ktail?
    ensures Folded(g, s, map[k := Ktail])
  {
  }

  lemma StartReach(g: Graph, deep: Rank, k: Label)
    requires Acyclic(g, deep) && k in g
    ensures k in Reach(g, deep, k)
  {
  }

  lemma OnwardReach(g: Graph, deep: Rank, k: Label, next: Label)
    requires Acyclic(g, deep) && k in g && Leads(g[k], next)
    ensures next in g && deep(next) < deep(k) && Reach(g, deep, next) <= Reach(g, deep, k)
  {
    LeadsReach(g, deep, k, next);
  }
}
