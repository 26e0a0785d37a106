/** What programs mean, read off their text: the parts that direct evaluation and the runs
    of graphs have in common, pinned down by what they give. */
module CpsMeaning {
  import opened Wrappers
  import opened CpsValues
  import opened CpsLang
  import opened CpsTranslate
  import opened CpsCorrect

  // ---------------------------------------------------------------- constants

  /** A constant evaluates to what it says, quoted or not: atoms to themselves, a pair to
      the pair of what its parts evaluate to, in order. */
  lemma ConstantsMean(fuel: nat, env: SEnv, d: Datum)
    ensures Eval(fuel, env, Const(d)) == Eval(fuel, env, Quote(d)) && Eval(fuel, env, Const(d)).SDone?
    ensures Denotes(d, Eval(fuel, env, Const(d)).v)
    ensures d.DInt? ==> Eval(fuel, env, Const(d)) == SDone(Int(d.i))
    ensures d.DBool? ==> Eval(fuel, env, Const(d)) == SDone(Bool(d.b))
    ensures d.DNull? ==> Eval(fuel, env, Const(d)) == SDone(Null)
    ensures d.DVoid? ==> Eval(fuel, env, Const(d)) == SDone(Void)
    ensures d.DSymbol? ==> Eval(fuel, env, Const(d)) == SDone(Symbol(d.name))
    ensures d.DPair? ==> Eval(fuel, env, Const(d)) == SDone(Pair(Eval(fuel, env, Const(d.car)).v, Eval(fuel, env, Const(d.cdr)).v))
  {
    EmbedDenotes<Sym, Lam>(d);
  }

  /** False is the one constant a test fails on. */
  lemma TestsMean(fuel: nat, env: SEnv, d: Datum, t: Form, e: Form)
    ensures Eval(fuel, env, If(Const(DBool(false)), t, e)) == Eval(fuel, env, e)
    ensures d != DBool(false) ==> Eval(fuel, env, If(Const(d), t, e)) == Eval(fuel, env, t)
  {
    ConstantsMean(fuel, env, d);
  }

  /** The code of a constant passes on what the constant says. */
  lemma ConstantCode(g: Graph, d: Datum, cc: Label, n: nat)
    requires Code(g, Const(d), cc, n) || Code(g, Quote(d), cc, n)
    ensures n in g && g[n].Kargs? && g[n].term.Continue? && g[n].term.k == cc
    ensures g[n].term.expr.EConst? && Denotes(d, g[n].term.expr.v)
  {
    EmbedDenotes<Name, Label>(d);
  }

  /** The graph of a conditional on a constant delivers what the arm chosen computes. */
  lemma TestDelivers(fuel: nat, g: Graph, d: Datum, t: Form, e: Form, senv: SEnv, env: GEnv, r: Datum)
    requires Ranked(g, BY_LABEL) && 0 in g && g[0] == Ktail && EnvRelated(g, senv, env)
    requires Code(g, If(Const(d), t, e), 0, 1) && NoPrimBound(If(Const(d), t, e))
    ensures Entry(If(Const(d), t, e), 1) in g && g[Entry(If(Const(d), t, e), 1)].Kargs?
    ensures RunTerm(fuel, g, BY_LABEL, Entry(If(Const(d), t, e), 1), env) == Done([Embed<Name, Label>(r)]) <==>
            Eval(fuel, senv, if d == DBool(false) then e else t) == SDone(Embed(r))
  {
    SameDatum(fuel, g, If(Const(d), t, e), 0, 1, senv, env, r);
    TestsMean(fuel, senv, d, t, e);
  }

  // -------------------------------------------------------------- primitives

  /** The elements of a list, and what it ends in. */
  function Elements<N(==), C>(v: Value<N, C>): seq<Value<N, C>> {
    if v.Pair? then [v.car] + Elements(v.cdr) else []
  }

  function Ending<N(==), C>(v: Value<N, C>): Value<N, C> {
    if v.Pair? then Ending(v.cdr) else v
  }

  lemma {:induction false} ListElements<N, C>(vs: seq<Value<N, C>>)
    ensures Elements(ListOf(vs)) == vs && Ending(ListOf(vs)) == Null
  {
    if vs != [] {
      ListElements(vs[1..]);
    }
  }

  /** Pairs and lists: constructed in order, taken apart again, and an error otherwise. */
  lemma PairsMean<N, C>(a: Value<N, C>, b: Value<N, C>, vs: seq<Value<N, C>>)
    ensures ApplyPrim(Prim.Cons, [a, b]) == Some(Pair(a, b))
    ensures ApplyPrim(Car, [Pair(a, b)]) == Some(a) && ApplyPrim(Cdr, [Pair(a, b)]) == Some(b)
    ensures !a.Pair? ==> ApplyPrim(Car, [a]) == None && ApplyPrim(Cdr, [a]) == None
    ensures |vs| != 2 ==> ApplyPrim(Prim.Cons, vs) == None
    ensures |vs| != 1 ==> ApplyPrim(Car, vs) == None && ApplyPrim(Cdr, vs) == None
    ensures ApplyPrim(List, vs).Some? && Elements(ApplyPrim(List, vs).value) == vs && Ending(ApplyPrim(List, vs).value) == Null
    ensures ApplyPrim(PVoid, vs) == if vs == [] then Some(Void) else None
  {
    hide Sum, Product, Chain;
    ListElements(vs);
  }

  /** One more operand is one more summand or factor. */
  lemma {:induction false} SumSnoc<N, C>(vs: seq<Value<N, C>>, i: int)
    requires AllInts(vs)
    ensures AllInts(vs + [Int(i)]) && Sum(vs + [Int(i)]) == Sum(vs) + i
  {
    if vs != [] {
      SumSnoc(vs[1..], i);
      assert (vs + [Int(i)])[1..] == vs[1..] + [Int(i)];
    } else {
      assert vs + [Int(i)] == [Int(i)] && [Value<N, C>.Int(i)][1..] == [];
    }
  }

  lemma {:induction false} ProductSnoc<N, C>(vs: seq<Value<N, C>>, i: int)
    requires AllInts(vs)
    ensures AllInts(vs + [Int(i)]) && Product(vs + [Int(i)]) == Product(vs) * i
  {
    if vs != [] {
      ProductSnoc(vs[1..], i);
      assert (vs + [Int(i)])[1..] == vs[1..] + [Int(i)];
      Associative(vs[0].i, Product(vs[1..]), i);
    } else {
      assert vs + [Int(i)] == [Int(i)] && [Value<N, C>.Int(i)][1..] == [];
    }
  }

  lemma Associative(a: int, b: int, c: int)
    ensures a * (b * c) == a * b * c
  {
  }

  /** Sums, differences and products of any number of integers; anything else is an error. */
  lemma ArithmeticMeans<N, C>(vs: seq<Value<N, C>>, i: int)
    ensures ApplyPrim<N, C>(Add, []) == Some(Int(0)) && ApplyPrim<N, C>(Mul, []) == Some(Int(1)) && ApplyPrim<N, C>(Sub, []) == None
    ensures ApplyPrim<N, C>(Sub, [Int(i)]) == Some(Int(-i))
    ensures AllInts(vs) ==>
      && ApplyPrim(Add, vs).Some? && ApplyPrim(Add, vs).value.Int? && ApplyPrim(Mul, vs).Some? && ApplyPrim(Mul, vs).value.Int?
      && ApplyPrim(Add, vs + [Int(i)]) == Some(Int(ApplyPrim(Add, vs).value.i + i))
      && ApplyPrim(Mul, vs + [Int(i)]) == Some(Int(ApplyPrim(Mul, vs).value.i * i))
      && (vs != [] ==> ApplyPrim(Sub, [Int(i)] + vs) == Some(Int(i - ApplyPrim(Add, vs).value.i)))
    ensures !AllInts(vs) ==> ApplyPrim(Add, vs) == None && ApplyPrim(Mul, vs) == None && ApplyPrim(Sub, vs) == None
  {
    if AllInts(vs) {
      SumSnoc(vs, i);
      ProductSnoc(vs, i);
      if vs != [] {
        assert ([Int(i)] + vs)[1..] == vs;
        assert forall j :: 0 <= j < |[Value<N, C>.Int(i)] + vs| ==> ([Int(i)] + vs)[j].Int?;
      }
    }
  }

  predicate InOrder<N(==), C>(o: Prim, v: Value<N, C>, w: Value<N, C>) {
    && v.Int? && w.Int?
    && (if o == NumEq then v.i == w.i else if o == Less then v.i < w.i else if o == Greater then v.i > w.i
        else if o == AtMost then v.i <= w.i else v.i >= w.i)
  }

  /** Two integers that are not in order, and only pairs in order before them. */
  predicate BreaksAt<N(==), C>(o: Prim, vs: seq<Value<N, C>>, j: int) {
    && 0 <= j < |vs| - 1 && vs[j].Int? && vs[j + 1].Int? && !InOrder(o, vs[j], vs[j + 1])
    && forall i :: 0 <= i < j ==> InOrder(o, vs[i], vs[i + 1])
  }

  lemma {:induction false} ChainTrue<N, C>(o: Prim, vs: seq<Value<N, C>>)
    requires o == NumEq || o == Less || o == Greater || o == AtMost || o == AtLeast
    ensures Chain(o, vs) == Some(true) <==> forall j :: 0 <= j < |vs| - 1 ==> InOrder(o, vs[j], vs[j + 1])
  {
    if |vs| >= 2 {
      var rest := vs[1..];
      ChainTrue(o, rest);
      ChainOn(o, vs);
      hide InOrder, Chain;
      if forall j :: 0 <= j < |rest| - 1 ==> InOrder(o, rest[j], rest[j + 1]) {
        forall j | 0 < j < |vs| - 1
          ensures InOrder(o, vs[j], vs[j + 1])
        {
          assert InOrder(o, rest[j - 1], rest[j - 1 + 1]);
        }
      }
      if forall j :: 0 <= j < |vs| - 1 ==> InOrder(o, vs[j], vs[j + 1]) {
        assert InOrder(o, vs[0], vs[0 + 1]);
        forall j | 0 <= j < |rest| - 1
          ensures InOrder(o, rest[j], rest[j + 1])
        {
          assert InOrder(o, vs[j + 1], vs[j + 1 + 1]);
        }
      }
    }
  }

  lemma {:induction false} ChainFalse<N, C>(o: Prim, vs: seq<Value<N, C>>)
    requires o == NumEq || o == Less || o == Greater || o == AtMost || o == AtLeast
    ensures Chain(o, vs) == Some(false) <==> exists j :: BreaksAt(o, vs, j)
  {
    if |vs| >= 2 {
      ChainFalse(o, vs[1..]);
      ChainOn(o, vs);
      if !InOrder(o, vs[0], vs[1]) {
        BreaksFirst(o, vs);
      }
      hide InOrder, Chain, BreaksAt;
      if InOrder(o, vs[0], vs[1]) {
        if j :| BreaksAt(o, vs[1..], j) {
          BreaksLater(o, vs, j + 1);
        }
        if j :| BreaksAt(o, vs, j) {
          BreaksLater(o, vs, j);
        }
      }
    }
  }

  lemma ChainOn<N, C>(o: Prim, vs: seq<Value<N, C>>)
    requires |vs| >= 2 && (o == NumEq || o == Less || o == Greater || o == AtMost || o == AtLeast)
    ensures Chain(o, vs) == if InOrder(o, vs[0], vs[1]) then Chain(o, vs[1..])
                            else if vs[0].Int? && vs[1].Int? then Some(false) else None
  {
  }

  /** A pair out of order at the front is the first. */
  lemma BreaksFirst<N, C>(o: Prim, vs: seq<Value<N, C>>)
    requires |vs| >= 2 && !InOrder(o, vs[0], vs[1])
    ensures vs[0].Int? && vs[1].Int? <==> BreaksAt(o, vs, 0)
    ensures forall j :: BreaksAt(o, vs, j) ==> j == 0
  {
    hide InOrder;
    assert !InOrder(o, vs[0], vs[0 + 1]);
  }

  lemma BreaksLater<N, C>(o: Prim, vs: seq<Value<N, C>>, j: int)
    requires |vs| >= 2 && InOrder(o, vs[0], vs[1])
    ensures BreaksAt(o, vs, j) <==> BreaksAt(o, vs[1..], j - 1)
  {
    hide InOrder;
    var rest := vs[1..];
    assert forall i :: 1 <= i < |vs| ==> vs[i] == rest[i - 1];
    if BreaksAt(o, rest, j - 1) {
      forall i | 0 <= i < j
        ensures InOrder(o, vs[i], vs[i + 1])
      {
        assert i > 0 ==> InOrder(o, rest[i - 1], rest[i - 1 + 1]);
      }
    }
    if BreaksAt(o, vs, j) {
      assert j != 0;
      forall i | 0 <= i < j - 1
        ensures InOrder(o, rest[i], rest[i + 1])
      {
        assert InOrder(o, vs[i + 1], vs[i + 1 + 1]);
      }
    }
  }

  lemma ChainApplied<N, C>(o: Prim, vs: seq<Value<N, C>>)
    requires o == NumEq || o == Less || o == Greater || o == AtMost || o == AtLeast
    ensures Chain(o, vs).Some? ==> ApplyPrim(o, vs) == Some(Bool(Chain(o, vs).value))
    ensures Chain(o, vs).None? ==> ApplyPrim(o, vs) == None
  {
    hide Chain, Sum, Product;
  }

  /** A comparison is true of integers in order from each to the next, and of fewer than two
      operands; false where the first pair that is not in order is of integers; and otherwise
      an error. */
  lemma ComparisonsMean<N, C>(o: Prim, vs: seq<Value<N, C>>)
    requires o == NumEq || o == Less || o == Greater || o == AtMost || o == AtLeast
    ensures ApplyPrim(o, vs) == Some(Bool(true)) <==> forall j :: 0 <= j < |vs| - 1 ==> InOrder(o, vs[j], vs[j + 1])
    ensures ApplyPrim(o, vs) == Some(Bool(false)) <==> exists j :: BreaksAt(o, vs, j)
    ensures ApplyPrim(o, vs) == None || ApplyPrim(o, vs) == Some(Bool(true)) || ApplyPrim(o, vs) == Some(Bool(false))
  {
    ChainApplied(o, vs);
    ChainTrue(o, vs);
    ChainFalse(o, vs);
    hide ApplyPrim, Chain;
  }

  // ---------------------------------------------------------------- procedures

  predicate Distinct<A(==)>(xs: seq<A>) {
    forall i, j :: 0 <= i < j < |xs| ==> xs[i] != xs[j]
  }

  lemma {:induction false} BindsEach<N, C>(env: map<N, Value<N, C>>, xs: seq<N>, vs: seq<Value<N, C>>, i: nat)
    requires |xs| <= |vs| && i < |xs| && Distinct(xs)
    ensures xs[i] in Bind(env, xs, vs) && Bind(env, xs, vs)[xs[i]] == vs[i]
    decreases xs
  {
    if i == 0 {
      BindsOthers(env[xs[0] := vs[0]], xs[1..], vs[1..], xs[0]);
    } else {
      BindsEach(env[xs[0] := vs[0]], xs[1..], vs[1..], i - 1);
    }
  }

  lemma {:induction false} BindsOthers<N, C>(env: map<N, Value<N, C>>, xs: seq<N>, vs: seq<Value<N, C>>, y: N)
    requires |xs| <= |vs| && y !in xs
    ensures (y in Bind(env, xs, vs) <==> y in env) && (y in env ==> Bind(env, xs, vs)[y] == env[y])
    decreases xs
  {
    if xs != [] {
      BindsOthers(env[xs[0] := vs[0]], xs[1..], vs[1..], y);
    }
  }

  /** Each parameter is bound to its argument, the rest parameter to a proper list of the
      others in order, and nothing else changes. */
  lemma ParametersMean<N, C>(env: map<N, Value<N, C>>, req: seq<N>, rest: Option<N>, args: seq<Value<N, C>>)
    requires Distinct(req + if rest.Some? then [rest.value] else [])
    ensures ArityOk(|req|, rest.Some?, |args|) <==> |args| == |req| || (rest.Some? && |args| > |req|)
    ensures ArityOk(|req|, rest.Some?, |args|) ==>
      var names := req + if rest.Some? then [rest.value] else [];
      var bound := Bind(env, names, Received(|req|, rest.Some?, args));
      && (forall i :: 0 <= i < |req| ==> req[i] in bound && bound[req[i]] == args[i])
      && (rest.Some? ==> rest.value in bound && Elements(bound[rest.value]) == args[|req|..] && Ending(bound[rest.value]) == Null)
      && (forall y :: y !in names ==> (y in bound <==> y in env) && (y in env ==> bound[y] == env[y]))
  {
    if ArityOk(|req|, rest.Some?, |args|) {
      var names := req + if rest.Some? then [rest.value] else [];
      var got := Received(|req|, rest.Some?, args);
      forall i | 0 <= i < |req|
        ensures req[i] in Bind(env, names, got) && Bind(env, names, got)[req[i]] == args[i]
      {
        BindsEach(env, names, got, i);
      }
      if rest.Some? {
        BindsEach(env, names, got, |req|);
        ListElements(args[|req|..]);
      }
      forall y | y !in names
        ensures (y in Bind(env, names, got) <==> y in env) && (y in env ==> Bind(env, names, got)[y] == env[y])
      {
        BindsOthers(env, names, got, y);
      }
    }
  }

  function Constants(ds: seq<Datum>): Forms
    requires ds != []
  {
    if |ds| == 1 then Last(Const(ds[0])) else More(Const(ds[0]), Constants(ds[1..]))
  }

  lemma {:induction false} ConstantsEvaluated(fuel: nat, env: SEnv, ds: seq<Datum>)
    requires ds != []
    ensures var es := Constants(ds); var o := EvalOperands(fuel, env, es);
      && Count(es) == |ds| && o.Operands? && |o.vals| == |ds| && ReadVars(env, es, o.vals).Some? && |ReadVars(env, es, o.vals).value| == |ds|
      && forall i :: 0 <= i < |ds| ==> Denotes(ds[i], ReadVars(env, es, o.vals).value[i])
    decreases |ds|
  {
    EmbedDenotes<Sym, Lam>(ds[0]);
    if |ds| > 1 {
      ConstantsEvaluated(fuel, env, ds[1..]);
      var vals := EvalOperands(fuel, env, Constants(ds[1..])).vals;
      assert EvalOperands(fuel, env, Constants(ds)) == Operands([Some(Embed(ds[0]))] + vals);
      assert ([Some(Embed<Sym, Lam>(ds[0]))] + vals)[1..] == vals;
    }
  }

  /** A call of what `head` evaluates to, on constants. */
  function CallOn(head: Form, ds: seq<Datum>): Form {
    Call(if ds == [] then Last(head) else More(head, Constants(ds)))
  }

  lemma CalledOn(fuel: nat, env: SEnv, head: Form, f: SValue, ds: seq<Datum>) returns (vs: seq<SValue>)
    requires Eval(fuel, env, head) == SDone(f)
    ensures |vs| == |ds| && forall i :: 0 <= i < |ds| ==> Denotes(ds[i], vs[i])
    ensures f.Primitive? ==>
      Eval(fuel, env, CallOn(head, ds)) == if ApplyPrim(f.op, vs).Some? then SDone(ApplyPrim(f.op, vs).value) else SStuck
    ensures f.Closure? && !ArityOk(|f.code.params|, f.code.rest.Some?, |ds|) ==> Eval(fuel, env, CallOn(head, ds)) == SStuck
    ensures f.Closure? && ArityOk(|f.code.params|, f.code.rest.Some?, |ds|) ==>
      var lam := f.code;
      var got := Received(|lam.params|, lam.rest.Some?, vs);
      Eval(fuel, env, CallOn(head, ds))
      == if fuel == 0 then STimeout else EvalBody(fuel - 1, Bind(f.env, ParamNames(lam.params, lam.rest), got), lam.body)
    ensures !f.Primitive? && !f.Closure? ==> Eval(fuel, env, CallOn(head, ds)) == SStuck
  {
    hide ApplyPrim, Bind, Received, Denotes;
    var first := if head.Var? then None else Some(f);
    if ds == [] {
      vs := [];
      assert EvalOperands(fuel, env, Last(head)) == Operands([first]);
      assert ReadVars(env, Last(head), [first]) == Some([f]);
      assert [f][1..] == vs;
    } else {
      var es := Constants(ds);
      ConstantsEvaluated(fuel, env, ds);
      var vals := EvalOperands(fuel, env, es).vals;
      vs := ReadVars(env, es, vals).value;
      assert EvalOperands(fuel, env, More(head, es)) == Operands([first] + vals);
      assert ([first] + vals)[1..] == vals;
      assert ReadVars(env, More(head, es), [first] + vals) == Some([f] + vs);
      assert ([f] + vs)[0] == f && ([f] + vs)[1..] == vs;
    }
  }

  /** A variable has the value it is bound to; free, the name of a primitive means the
      primitive, and any other is an error. */
  lemma VariablesMean(fuel: nat, env: SEnv, x: Sym)
    ensures forall v :: Eval(fuel, env, Var(x)) == SDone(v) <==>
      (x in env && env[x] == v) || (x !in env && x.PrimName? && v == Primitive(x.op))
    ensures Eval(fuel, env, Var(x)).SDone? || Eval(fuel, env, Var(x)) == SStuck
  {
  }

  /** What is no procedure cannot be called, and a primitive that is no variable gets the
      constants it is called on in order. */
  lemma PrimitivesMean(fuel: nat, env: SEnv, d: Datum, p: Prim, ds: seq<Datum>)
    requires PrimName(p) !in env
    ensures Eval(fuel, env, CallOn(Const(d), ds)) == SStuck
    ensures exists vs: seq<SValue> ::
      && |vs| == |ds| && (forall i :: 0 <= i < |ds| ==> Denotes(ds[i], vs[i]))
      && Eval(fuel, env, CallOn(Var(PrimName(p)), ds)) == if ApplyPrim(p, vs).Some? then SDone(ApplyPrim(p, vs).value) else SStuck
  {
    var c := Eval(fuel, env, Const(d)).v;
    ConstantsMean(fuel, env, d);
    var vs := CalledOn(fuel, env, Const(d), c, ds);
    var ws := CalledOn(fuel, env, Var(PrimName(p)), Primitive(p), ds);
  }

  /** `((lambda (x ... . r) x_i) d ...)` is the i-th constant, an error with another number of
      constants than the parameters take, and takes one level of calls. */
  lemma SelectionMeans(fuel: nat, env: SEnv, xs: seq<Sym>, rest: Option<Sym>, ds: seq<Datum>, i: nat)
    requires Distinct(xs + if rest.Some? then [rest.value] else []) && i < |xs|
    ensures var r := Eval(fuel, env, CallOn(Lambda(Lam(xs, rest, Last(Var(xs[i])))), ds));
      if |ds| < |xs| || (rest == None && |ds| != |xs|) then r == SStuck
      else if fuel == 0 then r == STimeout
      else r.SDone? && Denotes(ds[i], r.v)
  {
    var lam := Lam(xs, rest, Last(Var(xs[i])));
    var vs := CalledOn(fuel, env, Lambda(lam), Closure(lam, env), ds);
    ParametersMean(env, xs, rest, vs);
    if ArityOk(|xs|, rest.Some?, |ds|) && fuel > 0 {
      var bound := Bind(env, ParamNames(xs, rest), Received(|xs|, rest.Some?, vs));
      assert EvalBody(fuel - 1, bound, lam.body) == Eval(fuel - 1, bound, Var(xs[i])) == SDone(vs[i]);
    }
  }

  /** `((lambda (x ... . r) r) d ...)` is the list of the constants beyond the parameters. */
  lemma SurplusMeans(fuel: nat, env: SEnv, xs: seq<Sym>, rest: Sym, ds: seq<Datum>)
    requires Distinct(xs + [rest]) && |ds| >= |xs| && fuel > 0
    ensures var r := Eval(fuel, env, CallOn(Lambda(Lam(xs, Some(rest), Last(Var(rest)))), ds));
      && r.SDone? && |Elements(r.v)| == |ds| - |xs| && Ending(r.v) == Null
      && forall i :: |xs| <= i < |ds| ==> Denotes(ds[i], Elements(r.v)[i - |xs|])
  {
    var lam := Lam(xs, Some(rest), Last(Var(rest)));
    var vs := CalledOn(fuel, env, Lambda(lam), Closure(lam, env), ds);
    ParametersMean(env, xs, Some(rest), vs);
    var bound := Bind(env, ParamNames(xs, Some(rest)), Received(|xs|, true, vs));
    assert EvalBody(fuel - 1, bound, lam.body) == Eval(fuel - 1, bound, Var(rest)) == SDone(bound[rest]);
  }

  /** A procedure runs where it was made: who calls it does not matter. */
  lemma LexicalScope(fuel: nat, env: SEnv, other: SEnv, f: Sym, lam: Lam, made: SEnv, ds: seq<Datum>)
    requires f in env && f in other && env[f] == other[f] == Closure(lam, made)
    ensures Eval(fuel, env, CallOn(Var(f), ds)) == Eval(fuel, other, CallOn(Var(f), ds))
  {
    var vs := CalledOn(fuel, env, Var(f), Closure(lam, made), ds);
    var ws := CalledOn(fuel, other, Var(f), Closure(lam, made), ds);
    forall i | 0 <= i < |ds|
      ensures vs[i] == ws[i]
    {
      DenotesOne(ds[i], vs[i], ws[i]);
    }
    assert vs == ws;
  }

  lemma {:induction false} DenotesOne<N, C>(d: Datum, v: Value<N, C>, w: Value<N, C>)
    requires Denotes(d, v) && Denotes(d, w)
    ensures v == w
  {
    if d.DPair? {
      DenotesOne(d.car, v.car, w.car);
      DenotesOne(d.cdr, v.cdr, w.cdr);
    }
  }
}
