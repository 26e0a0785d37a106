/** Run-time values and primitive operations shared by the direct evaluator of
    source forms and by the evaluator of CPS graphs.

    A value is parameterised by the names its environments bind (`N`) and by
    what a closure runs (`C`): a lambda expression for the source, the label of
    a procedure continuation for a graph. */
module CpsValues {
  import opened Wrappers

  datatype Prim =
    | PVoid | Add | Sub | Mul | Div | Idiv | Mod
    | BitAnd | BitIor | BitXor | BitEqv | BitNor | BitNand | BitNot | Shift
    | Eq | Eqv | Equals | NumEq | Less | Greater | AtMost | AtLeast
    | Cons | Car | Cdr | List | Vector | VectorRef | VectorSet

  /** A symbol either spells a primitive of the table or is some other text. */
  datatype Sym = PrimName(op: Prim) | Other(text: string)

  predicate IsPrim(s: Sym) {
    s.PrimName?
  }

  datatype Value<N(==), C> =
    | Int(i: int)
    | Bool(b: bool)
    | Null
    | Void
    | Symbol(name: Sym)
    | Pair(car: Value<N, C>, cdr: Value<N, C>)
    | Primitive(op: Prim)
    | Closure(code: C, env: map<N, Value<N, C>>)

  /** Constants that can be written in a program. */
  datatype Datum =
    | DInt(i: int)
    | DBool(b: bool)
    | DNull
    | DVoid
    | DSymbol(name: Sym)
    | DPair(car: Datum, cdr: Datum)

  function Embed<N(==), C>(d: Datum): Value<N, C> {
    match d
    case DInt(i) => Int(i)
    case DBool(b) => Bool(b)
    case DNull => Null
    case DVoid => Void
    case DSymbol(s) => Symbol(s)
    case DPair(a, d) => Pair(Embed(a), Embed(d))
  }

  /** The value says what the datum says. */
  predicate Denotes<N(==), C>(d: Datum, v: Value<N, C>) {
    match d
    case DInt(i) => v.Int? && v.i == i
    case DBool(b) => v.Bool? && v.b == b
    case DNull => v.Null?
    case DVoid => v.Void?
    case DSymbol(s) => v.Symbol? && v.name == s
    case DPair(a, b) => v.Pair? && Denotes(a, v.car) && Denotes(b, v.cdr)
  }

  lemma {:induction false} EmbedDenotes<N, C>(d: Datum)
    ensures Denotes<N, C>(d, Embed(d))
  {
    if d.DPair? {
      EmbedDenotes<N, C>(d.car);
      EmbedDenotes<N, C>(d.cdr);
    }
  }

  function ListOf<N(==), C>(args: seq<Value<N, C>>): Value<N, C> {
    if args == [] then Null else Pair(args[0], ListOf(args[1..]))
  }

  predicate AllInts<N(==), C>(args: seq<Value<N, C>>) {
    forall i :: 0 <= i < |args| ==> args[i].Int?
  }

  function Sum<N(==), C>(args: seq<Value<N, C>>): int
    requires AllInts(args)
  {
    if args == [] then 0 else args[0].i + Sum(args[1..])
  }

  function Product<N(==), C>(args: seq<Value<N, C>>): int
    requires AllInts(args)
  {
    if args == [] then 1 else args[0].i * Product(args[1..])
  }

  predicate Holds(o: Prim, x: int, y: int) {
    match o
    case NumEq => x == y
    case Less => x < y
    case Greater => x > y
    case AtMost => x <= y
    case _ => x >= y
  }

  /** Neighbours are compared from the front until a pair is out of order; what comes after
      that is not looked at, and with fewer than two operands nothing is. */
  function Chain<N(==), C>(o: Prim, args: seq<Value<N, C>>): Option<bool> {
    if |args| < 2 then Some(true)
    else if !args[0].Int? || !args[1].Int? then None
    else if !Holds(o, args[0].i, args[1].i) then Some(false)
    else Chain(o, args[1..])
  }

  /** The integer and list primitives. The other names of the table have no
      modelled result: applying one is an error on both sides. */
  function ApplyPrim<N(==), C>(p: Prim, args: seq<Value<N, C>>): Option<Value<N, C>> {
    if p == PVoid then
      if args == [] then Some(Void) else None
    else if p == Add then
      if AllInts(args) then Some(Int(Sum(args))) else None
    else if p == Mul then
      if AllInts(args) then Some(Int(Product(args))) else None
    else if p == Sub then
      if args == [] || !AllInts(args) then None
      else if |args| == 1 then Some(Int(0 - args[0].i))
      else Some(Int(args[0].i - Sum(args[1..])))
    else if p == NumEq || p == Less || p == Greater || p == AtMost || p == AtLeast then
      var r := Chain(p, args); if r.Some? then Some(Bool(r.value)) else None
    else if p == Cons then
      if |args| == 2 then Some(Pair(args[0], args[1])) else None
    else if p == Car then
      if |args| == 1 && args[0].Pair? then Some(args[0].car) else None
    else if p == Cdr then
      if |args| == 1 && args[0].Pair? then Some(args[0].cdr) else None
    else if p == List then Some(ListOf(args))
    else None
  }
}
