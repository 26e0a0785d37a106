/** Source forms with a direct evaluator, and CPS graphs with their evaluator. */
module CpsLang {
  import opened Wrappers
  import opened CpsValues

  // ---------------------------------------------------------------- source

  /** Expanded source forms. `Forms` is a non-empty sequence of forms. */
  datatype Form =
    | Const(d: Datum)
    | Quote(d: Datum)
    | Var(x: Sym)
    | If(c: Form, t: Form, e: Form)
    | Begin(body: Forms)
    | Lambda(lam: Lam)
    | Call(elems: Forms)

  datatype Forms = Last(e: Form) | More(e: Form, rest: Forms)

  datatype Lam = Lam(params: seq<Sym>, rest: Option<Sym>, body: Forms)

  type SValue = Value<Sym, Lam>
  type SEnv = map<Sym, SValue>

  datatype SOutcome = SDone(v: SValue) | SStuck | STimeout
  datatype Operands = Operands(vals: seq<Option<SValue>>) | OStuck | OTimeout

  function SLookup(env: SEnv, x: Sym): Option<SValue> {
    if x in env then Some(env[x])
    else if IsPrim(x) then Some(Primitive(x.op))
    else None
  }

  /** Parameters followed by the rest parameter, if there is one. */
  function ParamNames(req: seq<Sym>, rest: Option<Sym>): seq<Sym> {
    req + if rest.Some? then [rest.value] else []
  }

  function Params(lam: Lam): set<Sym> {
    (set x | x in lam.params) + (if lam.rest.Some? then {lam.rest.value} else {})
  }

  predicate ArityOk(req: nat, rest: bool, args: nat) {
    if rest then req <= args else req == args
  }

  /** The values the parameters receive: surplus arguments become one list. */
  function Received<N(==), C>(req: nat, rest: bool, args: seq<Value<N, C>>): (r: seq<Value<N, C>>)
    requires ArityOk(req, rest, |args|)
    ensures |r| == req + if rest then 1 else 0
  {
    if rest then args[..req] + [ListOf(args[req..])] else args
  }

  /** Binds names from left to right; values beyond the names are dropped. */
  function Bind<N(==), C>(env: map<N, Value<N, C>>, names: seq<N>, vals: seq<Value<N, C>>): map<N, Value<N, C>>
    requires |names| <= |vals|
    decreases names
  {
    if names == [] then env
    else Bind(env[names[0] := vals[0]], names[1..], vals[1..])
  }

  /** Identifiers are read when the call is made, after every other operand. */
  function ReadVars(env: SEnv, es: Forms, vals: seq<Option<SValue>>): Option<seq<SValue>>
    requires |vals| == Count(es)
  {
    var v := if es.e.Var? then SLookup(env, es.e.x) else vals[0];
    match es
    case Last(_) => if v.Some? then Some([v.value]) else None
    case More(_, rest) =>
      var vs := ReadVars(env, rest, vals[1..]);
      if v.Some? && vs.Some? then Some([v.value] + vs.value) else None
  }

  function Count(es: Forms): (n: nat)
    ensures n >= 1
  {
    match es
    case Last(_) => 1
    case More(_, rest) => 1 + Count(rest)
  }

  /** Direct evaluation; `fuel` bounds the depth of nested closure calls. */
  function Eval(fuel: nat, env: SEnv, f: Form): SOutcome
    decreases fuel, f
  {
    match f
    case Const(d) => SDone(Embed(d))
    case Quote(d) => SDone(Embed(d))
    case Var(x) =>
      var v := SLookup(env, x);
      if v.Some? then SDone(v.value) else SStuck
    case If(c, t, e) =>
      (match Eval(fuel, env, c)
       case SDone(v) => Eval(fuel, env, if v == Bool(false) then e else t)
       case other => other)
    case Begin(body) => EvalBody(fuel, env, body)
    case Lambda(lam) => SDone(Closure(lam, env))
    case Call(elems) =>
      match EvalOperands(fuel, env, elems)
      case OStuck => SStuck
      case OTimeout => STimeout
      case Operands(vals) =>
        match ReadVars(env, elems, vals)
        case None => SStuck
        case Some(vs) =>
          match vs[0]
          case Primitive(p) =>
            var r := ApplyPrim(p, vs[1..]);
            if r.Some? then SDone(r.value) else SStuck
          case Closure(lam, cenv) =>
            if !ArityOk(|lam.params|, lam.rest.Some?, |vs| - 1) then SStuck
            else if fuel == 0 then STimeout
            else
              var got := Received(|lam.params|, lam.rest.Some?, vs[1..]);
              EvalBody(fuel - 1, Bind(cenv, ParamNames(lam.params, lam.rest), got), lam.body)
          case _ => SStuck
  }

  function EvalBody(fuel: nat, env: SEnv, fs: Forms): SOutcome
    decreases fuel, fs
  {
    match fs
    case Last(e) => Eval(fuel, env, e)
    case More(e, rest) =>
      match Eval(fuel, env, e)
      case SDone(_) => EvalBody(fuel, env, rest)
      case other => other
  }

  /** Operands that are not identifiers, evaluated from right to left. */
  function EvalOperands(fuel: nat, env: SEnv, es: Forms): (o: Operands)
    ensures o.Operands? ==> |o.vals| == Count(es)
    decreases fuel, es
  {
    match es
    case Last(e) => EvalOperand(Eval(fuel, env, e), e, Operands([]))
    case More(e, rest) =>
      match EvalOperands(fuel, env, rest)
      case Operands(vals) => EvalOperand(Eval(fuel, env, e), e, Operands(vals))
      case other => other
  }

  function EvalOperand(r: SOutcome, e: Form, later: Operands): (o: Operands)
    requires later.Operands?
    ensures o.Operands? ==> |o.vals| == 1 + |later.vals|
  {
    if e.Var? then Operands([None] + later.vals)
    else
      match r
      case SDone(v) => Operands([Some(v)] + later.vals)
      case SStuck => OStuck
      case STimeout => OTimeout
  }

  // ----------------------------------------------------------------- graph

  type Label = nat

  /** Source identifiers and the temporaries the translator generates. */
  datatype Name = User(s: Sym) | Temp(id: nat)

  type GValue = Value<Name, Label>
  type GEnv = map<Name, GValue>

  /** Data, as opposed to procedures and what holds them. */
  predicate IsData(v: GValue) {
    match v
    case Closure(_, _) => false
    case Primitive(_) => false
    case Pair(a, d) => IsData(a) && IsData(d)
    case _ => true
  }

  lemma {:induction false} EmbedData(d: Datum)
    ensures IsData(Embed<Name, Label>(d))
  {
    if d.DPair? {
      EmbedData(d.car);
      EmbedData(d.cdr);
    }
  }

  datatype Expr =
    | EConst(v: GValue)
    | EValues(args: seq<Name>)
    | EPrim(p: Prim)
    | EProc(k: Label)
    | EPrimcall(p: Prim, args: seq<Name>)
    | ECall(proc: Name, args: seq<Name>)

  datatype Term =
    | Continue(k: Label, expr: Expr)
    | Branch(arg: Name, kt: Label, kf: Label)

  datatype Kont =
    | Kargs(vars: seq<Name>, term: Term)
    | Kreceive(req: seq<Name>, rest: Option<Name>, k: Label)
    | Kproc(params: seq<Name>, restParam: Option<Name>, tail: Label, body: Label)
    | Ktail

  type Graph = map<Label, Kont>
  type Rank = Label -> nat

  datatype Outcome = Done(vs: seq<GValue>) | Stuck | Timeout

  /** The labels a continuation passes control to within one procedure. */
  function Succs(k: Kont): set<Label> {
    match k
    case Kargs(_, Continue(k, _)) => {k}
    case Kargs(_, Branch(_, kt, kf)) => {kt, kf}
    case Kreceive(_, _, k) => {k}
    case Kproc(_, _, _, _) => {}
    case Ktail => {}
  }

  /** Every continuation edge leads to a label of the graph of smaller rank. */
  ghost predicate Ranked(g: Graph, rank: Rank) {
    forall k, s :: k in g && s in Succs(g[k]) ==> s in g && rank(s) < rank(k)
  }

  /** Constants are data, arms and bodies are ordinary continuations, the code of a
      procedure is there, and control does not pass to one but by calling it. */
  ghost predicate Tame(g: Graph, k: Label)
    requires k in g
  {
    match g[k]
    case Kproc(_, _, _, body) => body in g && g[body].Kargs?
    case Kargs(_, Branch(_, kt, kf)) => kt in g && g[kt].Kargs? && kf in g && g[kf].Kargs?
    case Kargs(_, Continue(next, e)) =>
      (e.EConst? ==> IsData(e.v)) && (e.EProc? ==> e.k in g && g[e.k].Kproc?) && (next in g ==> !g[next].Kproc?)
    case Kreceive(_, _, next) => next in g ==> !g[next].Kproc?
    case Ktail => true
  }

  predicate PrimNamed(x: Name) {
    x.User? && IsPrim(x.s)
  }

  function Lookup(env: GEnv, x: Name): Option<GValue> {
    if x in env then Some(env[x])
    else if x.User? && IsPrim(x.s) then Some(Primitive(x.s.op))
    else None
  }

  function LookupAll(env: GEnv, xs: seq<Name>): (r: Option<seq<GValue>>)
    ensures r.Some? ==> |r.value| == |xs|
  {
    if xs == [] then Some([])
    else
      var v, vs := Lookup(env, xs[0]), LookupAll(env, xs[1..]);
      if v.Some? && vs.Some? then Some([v.value] + vs.value) else None
  }

  /** Passing `vals` to the continuation `k` of the running procedure. The
      procedure's own tail delivers the values; `fuel` bounds the depth of
      nested closure calls and `rank` shows that each procedure terminates. */
  ghost function Run(fuel: nat, g: Graph, rank: Rank, k: Label, env: GEnv, vals: seq<GValue>): Outcome
    requires Ranked(g, rank) && k in g
    decreases fuel, rank(k), 1
  {
    match g[k]
    case Ktail => Done(vals)
    case Kproc(_, _, _, _) => Stuck
    case Kreceive(req, rest, next) =>
      if ArityOk(|req|, rest.Some?, |vals|)
      then Run(fuel, g, rank, next, env, Received(|req|, rest.Some?, vals))
      else Stuck
    case Kargs(vars, _) =>
      if |vars| <= |vals| then RunTerm(fuel, g, rank, k, Bind(env, vars, vals)) else Stuck
  }

  /** Running the term of the continuation `k` once its variables are bound. */
  ghost function RunTerm(fuel: nat, g: Graph, rank: Rank, k: Label, env: GEnv): Outcome
    requires Ranked(g, rank) && k in g && g[k].Kargs?
    decreases fuel, rank(k), 0
  {
    match g[k].term
    case Branch(arg, kt, kf) =>
      var v := Lookup(env, arg);
      if v.None? then Stuck
      else Run(fuel, g, rank, if v.value == Bool(false) then kf else kt, env, [])
    case Continue(next, expr) =>
      match expr
      case EConst(v) => Run(fuel, g, rank, next, env, [v])
      case EPrim(p) => Run(fuel, g, rank, next, env, [Primitive(p)])
      case EProc(code) => Run(fuel, g, rank, next, env, [Closure(code, env)])
      case EValues(args) =>
        var vs := LookupAll(env, args);
        if vs.Some? then Run(fuel, g, rank, next, env, vs.value) else Stuck
      case EPrimcall(p, args) =>
        var vs := LookupAll(env, args);
        if vs.None? || ApplyPrim(p, vs.value).None? then Stuck
        else Run(fuel, g, rank, next, env, [ApplyPrim(p, vs.value).value])
      case ECall(proc, args) =>
        var f, vs := Lookup(env, proc), LookupAll(env, args);
        if f.None? || vs.None? then Stuck
        else
          match Apply(fuel, g, rank, f.value, vs.value)
          case Done(rs) => Run(fuel, g, rank, next, env, rs)
          case other => other
  }

  ghost function Apply(fuel: nat, g: Graph, rank: Rank, f: GValue, args: seq<GValue>): Outcome
    requires Ranked(g, rank)
    decreases fuel, 0, 0
  {
    match f
    case Primitive(p) =>
      var r := ApplyPrim(p, args);
      if r.Some? then Done([r.value]) else Stuck
    case Closure(code, cenv) =>
      if code !in g || !g[code].Kproc? || g[code].body !in g then Stuck
      else
        var kp := g[code];
        if !ArityOk(|kp.params|, kp.restParam.Some?, |args|) then Stuck
        else if fuel == 0 then Timeout
        else Run(fuel - 1, g, rank, kp.body, cenv, Received(|kp.params|, kp.restParam.Some?, args))
    case _ => Stuck
  }
}
