/** What is known to be constant where, and folding with it. */
module CpsConst {
  import opened Wrappers
  import opened CpsValues
  import opened CpsLang

  /** What a variable was bound to at one visit of the walk: the expression whose value
      it gets, or nothing for a parameter. Records are told apart by `path`. */
  datatype Rec = Rec(path: seq<nat>, binding: Option<Expr>)

  /** Each variable with the records that may apply, the first and its alternatives. */
  type Table = map<Name, seq<Rec>>

  type VarInfo = map<Label, Table>

  /** `cps_get_const`: the one constant a variable is bound to; void counts as none. */
  function GetConst(t: Table, x: Name): Option<GValue> {
    if x in t && |t[x]| == 1 && t[x][0].binding.Some? && t[x][0].binding.value.EConst? && t[x][0].binding.value.v != Void
    then Some(t[x][0].binding.value.v)
    else None
  }

  // ------------------------------------------------------------------- flow

  /** Where control and the code of procedures can go from a continuation. */
  predicate Leads(k: Kont, l: Label) {
    l in Succs(k)
    || (k.Kproc? && l == k.body)
    || (k.Kargs? && k.term.Continue? && k.term.expr.EProc? && l == k.term.expr.k)
  }

  predicate Known(t: Table, x: Name) {
    x in t && t[x] != []
  }

  predicate Within(rs: seq<Rec>, ss: seq<Rec>) {
    forall r :: r in rs ==> r in ss
  }

  predicate Bound(rs: seq<Rec>, b: Option<Expr>) {
    exists r :: r in rs && r.binding == b
  }

  /** `u` takes in all `t` knows, apart from the variables bound on the way. */
  ghost predicate Covers(t: Table, vars: seq<Name>, u: Table) {
    forall x :: Known(t, x) && x !in vars ==> Known(u, x) && Within(t[x], u[x])
  }

  /** Variables that get the value of `e` are on record with it. */
  ghost predicate Records(vars: seq<Name>, b: Option<Expr>, u: Table) {
    forall x :: x in vars ==> Known(u, x) && Bound(u[x], b)
  }

  /** What is known where `e` was evaluated holds on arriving at `k` with its value. */
  ghost predicate Arrives(g: Graph, rank: Rank, s: VarInfo, t: Table, e: Option<Expr>, k: Label)
    requires Ranked(g, rank)
    decreases rank(k)
  {
    k in g &&
    match g[k]
    case Kargs(vars, _) =>
      k in s && (if e.Some? then Covers(t, vars, s[k]) && Records(vars, e, s[k]) else Covers(t, [], s[k]))
    case Kreceive(_, rest, next) => rest.None? && (assert next in Succs(g[k]); Arrives(g, rank, s, t, e, next))
    case _ => true
  }

  /** The parameters of a procedure are known and never constant. */
  ghost predicate Enters(g: Graph, s: VarInfo, t: Table, code: Label) {
    code in g && g[code].Kproc? && g[code].body in g && g[g[code].body].Kargs? ==>
      var names := g[code].params + (if g[code].restParam.Some? then [g[code].restParam.value] else []);
      && g[code].body in s && Covers(t, names, s[g[code].body]) && Records(names, None, s[g[code].body])
      && forall x :: x in g[g[code].body].vars ==> x in names
  }

  ghost predicate Flows(g: Graph, rank: Rank, s: VarInfo, k: Label)
    requires Ranked(g, rank) && k in s
  {
    k in g && g[k].Kargs? &&
    match g[k].term
    case Branch(_, kt, kf) => Arrives(g, rank, s, s[k], None, kt) && Arrives(g, rank, s, s[k], None, kf)
    case Continue(next, e) => Arrives(g, rank, s, s[k], Some(e), next) && (e.EProc? ==> Enters(g, s, s[k], e.k))
  }

  ghost predicate Consistent(g: Graph, rank: Rank, s: VarInfo)
    requires Ranked(g, rank)
  {
    forall k {:trigger Flows(g, rank, s, k)} :: k in s ==> Flows(g, rank, s, k)
  }

  // ---------------------------------------------------------------- soundness

  /** Every record binds the constant `c`. */
  predicate AllConst(rs: seq<Rec>, c: GValue) {
    forall r :: r in rs ==> r.binding == Some(EConst(c))
  }

  /** All that is bound is on record, and what is said to be constant is. */
  ghost predicate EnvOk(t: Table, env: GEnv) {
    forall x :: x in env ==> Known(t, x) && forall c :: AllConst(t[x], c) ==> env[x] == c
  }

  /** The same for the environments inside closures, whose code is among `codes`. */
  ghost predicate ValueOk(g: Graph, s: VarInfo, codes: set<Label>, v: GValue) {
    match v
    case Closure(code, env) =>
      && (code in g ==> code in codes) && (exists t :: EnvOk(t, env) && Enters(g, s, t, code))
      && forall x :: x in env ==> ValueOk(g, s, codes, env[x])
    case Pair(a, d) => ValueOk(g, s, codes, a) && ValueOk(g, s, codes, d)
    case _ => true
  }

  ghost predicate AllOk(g: Graph, s: VarInfo, codes: set<Label>, vs: seq<GValue>) {
    forall v :: v in vs ==> ValueOk(g, s, codes, v)
  }

  ghost predicate EnvValues(g: Graph, s: VarInfo, codes: set<Label>, env: GEnv) {
    forall x :: x in env ==> ValueOk(g, s, codes, env[x])
  }

  /** What `cps_get_const` reports for a bound variable is its value. */
  lemma ConstIsValue(t: Table, env: GEnv, x: Name)
    requires EnvOk(t, env) && x in env && GetConst(t, x).Some?
    ensures env[x] == GetConst(t, x).value
  {
    assert AllConst(t[x], GetConst(t, x).value);
  }

  // ------------------------------------------------------------- environments

  lemma {:induction false} BindAt(env: GEnv, vars: seq<Name>, vals: seq<GValue>, x: Name)
    requires |vars| <= |vals|
    ensures x in Bind(env, vars, vals) <==> x in env || x in vars
    ensures x !in vars && x in env ==> Bind(env, vars, vals)[x] == env[x]
    ensures x in vars ==> exists i :: 0 <= i < |vars| && vars[i] == x && Bind(env, vars, vals)[x] == vals[i]
    decreases vars
  {
    if vars != [] {
      var env1 := env[vars[0] := vals[0]];
      BindAt(env1, vars[1..], vals[1..], x);
      if x in vars[1..] {
        var i :| 0 <= i < |vars[1..]| && vars[1..][i] == x && Bind(env1, vars[1..], vals[1..])[x] == vals[1..][i];
        assert vars[i + 1] == x && vals[i + 1] == vals[1..][i];
      } else if x in vars {
        assert vars[0] == x;
      }
    }
  }

  /** Binding the value of `e` where its arrival has been recorded. */
  lemma EnvArrives(t: Table, env: GEnv, vars: seq<Name>, vals: seq<GValue>, e: Expr, u: Table)
    requires EnvOk(t, env) && |vars| <= |vals| && Covers(t, vars, u) && Records(vars, Some(e), u)
    requires e.EConst? ==> vals == [e.v]
    ensures EnvOk(u, Bind(env, vars, vals))
  {
    var env' := Bind(env, vars, vals);
    forall x | x in env'
      ensures Known(u, x) && forall c :: AllConst(u[x], c) ==> env'[x] == c
    {
      BindAt(env, vars, vals, x);
      if x in vars {
        var r :| r in u[x] && r.binding == Some(e);
      } else {
        assert Within(t[x], u[x]);
        forall c | AllConst(u[x], c)
          ensures env'[x] == c
        {
          assert AllConst(t[x], c);
        }
      }
    }
  }

  /** Arriving without a value, as at the arms of a branch. */
  lemma EnvCovered(t: Table, env: GEnv, u: Table)
    requires EnvOk(t, env) && Covers(t, [], u)
    ensures EnvOk(u, env)
  {
    forall x | x in env
      ensures Known(u, x) && forall c :: AllConst(u[x], c) ==> env[x] == c
    {
      forall c | AllConst(u[x], c)
        ensures env[x] == c
      {
        assert AllConst(t[x], c);
      }
    }
  }

  /** Entering a procedure: its parameters are not constant whatever they get. */
  lemma EnvEnters(t: Table, env: GEnv, names: seq<Name>, vars: seq<Name>, vals: seq<GValue>, u: Table)
    requires EnvOk(t, env) && |vars| <= |vals| && Covers(t, names, u) && Records(names, None, u)
    requires forall x :: x in vars ==> x in names
    ensures EnvOk(u, Bind(env, vars, vals))
  {
    var env' := Bind(env, vars, vals);
    forall x | x in env'
      ensures Known(u, x) && forall c :: AllConst(u[x], c) ==> env'[x] == c
    {
      BindAt(env, vars, vals, x);
      if x in names {
        var r :| r in u[x] && r.binding == None;
      } else {
        forall c | AllConst(u[x], c)
          ensures env'[x] == c
        {
          assert AllConst(t[x], c);
        }
      }
    }
  }

  lemma BoundValues(g: Graph, s: VarInfo, codes: set<Label>, env: GEnv, vars: seq<Name>, vals: seq<GValue>)
    requires EnvValues(g, s, codes, env) && AllOk(g, s, codes, vals) && |vars| <= |vals|
    ensures EnvValues(g, s, codes, Bind(env, vars, vals))
  {
    var env' := Bind(env, vars, vals);
    forall x | x in env'
      ensures ValueOk(g, s, codes, env'[x])
    {
      BindAt(env, vars, vals, x);
      if x in vars {
        var i :| 0 <= i < |vars| && vars[i] == x && env'[x] == vals[i];
      }
    }
  }

  lemma {:induction false} LookedUp(g: Graph, s: VarInfo, codes: set<Label>, env: GEnv, xs: seq<Name>)
    requires EnvValues(g, s, codes, env) && LookupAll(env, xs).Some?
    ensures AllOk(g, s, codes, LookupAll(env, xs).value)
  {
    if xs != [] {
      LookedUp(g, s, codes, env, xs[1..]);
    }
  }

  lemma {:induction false} ListOk(g: Graph, s: VarInfo, codes: set<Label>, args: seq<GValue>)
    requires AllOk(g, s, codes, args)
    ensures ValueOk(g, s, codes, ListOf(args))
  {
    if args != [] {
      ListOk(g, s, codes, args[1..]);
    }
  }

  lemma PrimOk(g: Graph, s: VarInfo, codes: set<Label>, p: Prim, args: seq<GValue>)
    requires AllOk(g, s, codes, args) && ApplyPrim(p, args).Some?
    ensures ValueOk(g, s, codes, ApplyPrim(p, args).value)
  {
    if p == List {
      ListOk(g, s, codes, args);
    } else if p == Prim.Cons || p == Car || p == Cdr {
      assert args[0] in args;
      assert p == Prim.Cons ==> args[1] in args;
    }
  }

  lemma OneOk(g: Graph, s: VarInfo, codes: set<Label>, p: Prim, args: seq<GValue>)
    requires AllOk(g, s, codes, args) && ApplyPrim(p, args).Some?
    ensures AllOk(g, s, codes, [ApplyPrim(p, args).value])
  {
    PrimOk(g, s, codes, p, args);
  }

  lemma ReceivedOk(g: Graph, s: VarInfo, codes: set<Label>, req: nat, rest: bool, args: seq<GValue>)
    requires ArityOk(req, rest, |args|) && AllOk(g, s, codes, args)
    ensures AllOk(g, s, codes, Received(req, rest, args))
  {
    if rest {
      ListOk(g, s, codes, args[req..]);
    }
  }
}
