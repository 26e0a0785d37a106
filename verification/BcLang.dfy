/** The forms the bytecode compiler takes here, and what they mean when evaluated directly. */
module BcLang {
  import opened Wrappers

  type Sym = string

  datatype Value =
    | Int(i: int) | Bool(b: bool) | Null | Void | Symbol(name: Sym) | Pair(car: Value, cdr: Value)
    | Builtin(id: nat, nargs: nat, varg: bool)

  datatype Form =
    | Const(datum: Value)
    | Quote(datum: Value)
    | Var(name: Sym)
    | If(test: Form, yes: Form, no: Form)
    | Begin(front: Forms, last: Form)
    | Set(name: Sym, rhs: Form)
    | Call(head: Form, args: Forms)

  datatype Forms = Nil | Cons(first: Form, rest: Forms)

  /** What a builtin computes from its argument vector; `None` if it raises an error. */
  type Prims = (nat, seq<Value>) -> Option<Value>

  datatype Env = Env(locals: map<Sym, Value>, globals: map<Value, Value>)

  /** An assignment is made for its effect and has no value. */
  datatype Out = Val(v: Value) | NoVal

  /** `Fail`: an error is raised. `Unknown`: the form uses the value of an assignment,
      or calls the empty list, which the machine takes for the end of the run. */
  datatype Res = Ok(out: Out, env: Env) | Fail | Unknown
  datatype ResList = Oks(vs: seq<Value>, env: Env) | Fails | Unknowns

  function ListOf(vs: seq<Value>): Value {
    if vs == [] then Null else Pair(vs[0], ListOf(vs[1..]))
  }

  /** The argument vector of a builtin: what it takes beyond its fixed arguments is one list. */
  function ArgVector(f: Value, vs: seq<Value>): seq<Value>
    requires f.Builtin? && (if f.varg then |vs| >= f.nargs else |vs| == f.nargs)
  {
    if f.varg then vs[..f.nargs] + [ListOf(vs[f.nargs..])] else vs
  }

  function Arity(f: Value, n: nat): bool
    requires f.Builtin?
  {
    if f.varg then n >= f.nargs else n == f.nargs
  }

  function Apply(prims: Prims, f: Value, vs: seq<Value>): Option<Value> {
    if f.Builtin? && Arity(f, |vs|) then prims(f.id, ArgVector(f, vs)) else None
  }

  function Global(env: Env, x: Sym): Value {
    if Symbol(x) in env.globals then env.globals[Symbol(x)] else Void
  }

  function Assign(env: Env, x: Sym, v: Value): Env {
    if x in env.locals then env.(locals := env.locals[x := v])
    else env.(globals := env.globals[Symbol(x) := v])
  }

  function Eval(prims: Prims, e: Form, env: Env): Res {
    match e
    case Const(d) => Ok(Val(d), env)
    case Quote(d) => Ok(Val(d), env)
    case Var(x) => Ok(Val(if x in env.locals then env.locals[x] else Global(env, x)), env)
    case If(c, t, f) =>
      (match Eval(prims, c, env)
       case Ok(Val(v), env') => if v == Bool(false) then Eval(prims, f, env') else Eval(prims, t, env')
       case Ok(NoVal, _) => Unknown
       case r => r)
    case Begin(front, last) =>
      (match EvalFront(prims, front, env)
       case Ok(_, env') => Eval(prims, last, env')
       case r => r)
    case Set(x, rhs) =>
      (match Eval(prims, rhs, env)
       case Ok(Val(v), env') => Ok(NoVal, Assign(env', x, v))
       case Ok(NoVal, _) => Unknown
       case r => r)
    case Call(head, args) =>
      match Eval(prims, head, env)
      case Ok(Val(f), env') =>
        (match EvalList(prims, args, env')
         case Oks(vs, env'') => Applied(prims, f, vs, env'')
         case Fails => Fail
         case Unknowns => Unknown)
      case Ok(NoVal, _) => Unknown
      case r => r
  }

  function Applied(prims: Prims, f: Value, vs: seq<Value>, env: Env): Res {
    if f == Null then Unknown
    else
      match Apply(prims, f, vs)
      case Some(v) => Ok(Val(v), env)
      case None => Fail
  }

  /** Forms evaluated for their effects. */
  function EvalFront(prims: Prims, es: Forms, env: Env): Res {
    match es
    case Nil => Ok(NoVal, env)
    case Cons(e, rest) =>
      match Eval(prims, e, env)
      case Ok(_, env') => EvalFront(prims, rest, env')
      case r => r
  }

  /** Operands, left to right. */
  function EvalList(prims: Prims, es: Forms, env: Env): ResList {
    match es
    case Nil => Oks([], env)
    case Cons(e, rest) =>
      match Eval(prims, e, env)
      case Ok(Val(v), env') =>
        (match EvalList(prims, rest, env')
         case Oks(vs, env'') => Oks([v] + vs, env'')
         case r => r)
      case Ok(NoVal, _) => Unknowns
      case Fail => Fails
      case Unknown => Unknowns
  }

  // ------------------------------------------------------------ what this means

  /** The elements of a list, and what it ends in. */
  function Elements(v: Value): seq<Value> {
    if v.Pair? then [v.car] + Elements(v.cdr) else []
  }

  function Ending(v: Value): Value {
    if v.Pair? then Ending(v.cdr) else v
  }

  lemma {:induction false} ListElements(vs: seq<Value>)
    ensures Elements(ListOf(vs)) == vs && Ending(ListOf(vs)) == Null
  {
    if vs != [] {
      ListElements(vs[1..]);
    }
  }

  lemma {:induction false} ListsEqual(v: Value, w: Value)
    requires Elements(v) == Elements(w) && Ending(v) == Ending(w) == Null
    ensures v == w
  {
    if v.Pair? {
      assert Elements(v)[0] == v.car && Elements(w)[0] == w.car;
      assert Elements(v)[1..] == Elements(v.cdr) && Elements(w)[1..] == Elements(w.cdr);
      ListsEqual(v.cdr, w.cdr);
    } else {
      assert !w.Pair? by { assert w.Pair? ==> |Elements(w)| > 0; }
    }
  }

  /** `args` is what the builtin `f` gets when it is called on `vs`: its fixed arguments in
      order, and a proper list of the others if it takes any. */
  ghost predicate Passed(f: Value, vs: seq<Value>, args: seq<Value>) {
    && f.Builtin? && f.nargs <= |vs| && (f.varg || |vs| == f.nargs)
    && |args| == (if f.varg then f.nargs + 1 else f.nargs)
    && (forall i :: 0 <= i < f.nargs ==> args[i] == vs[i])
    && (f.varg ==> Elements(args[f.nargs]) == vs[f.nargs..] && Ending(args[f.nargs]) == Null)
  }

  lemma PassedOnce(f: Value, vs: seq<Value>, args: seq<Value>, others: seq<Value>)
    requires Passed(f, vs, args) && Passed(f, vs, others)
    ensures args == others
  {
    if f.varg {
      ListsEqual(args[f.nargs], others[f.nargs]);
    }
  }

  /** A builtin is called on exactly that vector. */
  lemma ApplyPasses(prims: Prims, f: Value, vs: seq<Value>, v: Value)
    ensures Apply(prims, f, vs) == Some(v) <==> exists args :: Passed(f, vs, args) && prims(f.id, args) == Some(v)
  {
    if f.Builtin? && Arity(f, |vs|) {
      ListElements(vs[f.nargs..]);
      assert Passed(f, vs, ArgVector(f, vs));
      forall args | Passed(f, vs, args)
        ensures args == ArgVector(f, vs)
      {
        PassedOnce(f, vs, args, ArgVector(f, vs));
      }
    }
  }

  lemma ApplyMeans(prims: Prims, f: Value, vs: seq<Value>)
    ensures Apply(prims, f, vs).Some? <==> exists args :: Passed(f, vs, args) && prims(f.id, args).Some?
    ensures Apply(prims, f, vs).Some? ==> exists args :: Passed(f, vs, args) && prims(f.id, args) == Apply(prims, f, vs)
  {
    var r := Apply(prims, f, vs);
    if r.Some? {
      ApplyPasses(prims, f, vs, r.value);
    }
    if args :| Passed(f, vs, args) && prims(f.id, args).Some? {
      ApplyPasses(prims, f, vs, prims(f.id, args).value);
    }
  }

  /** Constants are themselves, and only false is false. */
  lemma ConstantsMean(prims: Prims, d: Value, t: Form, e: Form, env: Env)
    ensures Eval(prims, Const(d), env) == Ok(Val(d), env) == Eval(prims, Quote(d), env)
    ensures Eval(prims, If(Const(d), t, e), env) == if d.Bool? && !d.b then Eval(prims, e, env) else Eval(prims, t, env)
  {
  }

  /** After an assignment the variable has the value, the others what they had. */
  lemma AssignmentMeans(prims: Prims, x: Sym, y: Sym, d: Value, env: Env)
    ensures var r := Eval(prims, Begin(Forms.Cons(Set(x, Const(d)), Forms.Nil), Var(y)), env);
      r.Ok? && r.out == if y == x then Val(d) else Eval(prims, Var(y), env).out
    ensures Eval(prims, Var(x), Env(map[], map[])) == Ok(Val(Void), Env(map[], map[]))
  {
    var es := Forms.Cons(Set(x, Const(d)), Forms.Nil);
    assert Eval(prims, Set(x, Const(d)), env) == Ok(NoVal, Assign(env, x, d));
    assert EvalFront(prims, Forms.Nil, Assign(env, x, d)) == Ok(NoVal, Assign(env, x, d));
    assert EvalFront(prims, es, env) == Ok(NoVal, Assign(env, x, d));
  }

  /** Calling a builtin on constants. */
  lemma CallMeans(prims: Prims, f: Value, ds: seq<Value>, env: Env, v: Value)
    requires f != Null
    ensures Eval(prims, Call(Const(f), Constants(ds)), env) == Ok(Val(v), env) <==>
      exists args :: Passed(f, ds, args) && prims(f.id, args) == Some(v)
  {
    ConstantsListed(prims, ds, env);
    ApplyPasses(prims, f, ds, v);
  }

  function Constants(ds: seq<Value>): Forms {
    if ds == [] then Forms.Nil else Forms.Cons(Const(ds[0]), Constants(ds[1..]))
  }

  lemma {:induction false} ConstantsListed(prims: Prims, ds: seq<Value>, env: Env)
    ensures EvalList(prims, Constants(ds), env) == Oks(ds, env)
  {
    if ds != [] {
      ConstantsListed(prims, ds[1..], env);
    }
  }
}
