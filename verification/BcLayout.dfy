/** What the compiler lays out for a form: how long the code is, where its value ends
    up, and which instructions it consists of. */
module BcLayout {
  import opened BcLang
  import opened BcInstr

  /** A procedure being compiled: its code and constants so far, and the registers
      of its variables. */
  datatype Proto = Proto(code: seq<Word>, ks: seq<Value>, locals: map<Sym, int>)

  function Max(a: int, b: int): int {
    if a < b then b else a
  }

  function Count(es: Forms): nat {
    match es
    case Nil => 0
    case Cons(_, rest) => 1 + Count(rest)
  }

  /** The register a form leaves its value in: a variable stays where it is. */
  function ResultReg(e: Form, reg: int, locals: map<Sym, int>): int {
    match e
    case Var(x) => if x in locals then locals[x] else reg
    case Begin(_, last) => ResultReg(last, reg, locals)
    case _ => reg
  }

  function Len(e: Form, reg: int, locals: map<Sym, int>): nat
    decreases e, 0
  {
    match e
    case Const(_) => 1
    case Quote(_) => 1
    case Var(x) => if x in locals then 0 else 2
    case If(c, t, f) => Len(c, reg, locals) + 1 + ArmLen(t, reg, locals) + 1 + ArmLen(f, reg, locals)
    case Begin(front, last) => FrontLen(front, reg, locals) + Len(last, reg, locals)
    case Set(x, rhs) =>
      Len(rhs, reg, locals) +
      (if x !in locals then 2 else if locals[x] != ResultReg(rhs, reg, locals) then 1 else 0)
    case Call(head, args) => ArmLen(head, reg, locals) + ArgsLen(args, reg + 1, locals) + 1
  }

  /** A form whose value must be in `reg` itself is followed by a move if need be. */
  function ArmLen(e: Form, reg: int, locals: map<Sym, int>): nat
    decreases e, 1
  {
    Len(e, reg, locals) + (if ResultReg(e, reg, locals) != reg then 1 else 0)
  }

  function FrontLen(es: Forms, reg: int, locals: map<Sym, int>): nat {
    match es
    case Nil => 0
    case Cons(e, rest) => Len(e, reg, locals) + FrontLen(rest, reg, locals)
  }

  function ArgsLen(es: Forms, reg: int, locals: map<Sym, int>): nat {
    match es
    case Nil => 0
    case Cons(e, rest) => ArmLen(e, reg, locals) + ArgsLen(rest, reg + 1, locals)
  }

  /** One more than the highest register the code touches. */
  function Need(e: Form, reg: int, locals: map<Sym, int>): (n: int)
    ensures n > reg
  {
    match e
    case If(c, t, f) => Max(Need(c, reg, locals), Max(Need(t, reg, locals), Need(f, reg, locals)))
    case Begin(front, last) => Max(FrontNeed(front, reg, locals), Need(last, reg, locals))
    case Set(x, rhs) => Max(Need(rhs, reg, locals), if x in locals then reg + 1 else reg + 2)
    case Call(head, args) => Max(Need(head, reg, locals), Max(ArgsNeed(args, reg + 1, locals), reg + 2 + Count(args)))
    case _ => reg + 1
  }

  function FrontNeed(es: Forms, reg: int, locals: map<Sym, int>): (n: int)
    ensures n > reg
  {
    match es
    case Nil => reg + 1
    case Cons(e, rest) => Max(Need(e, reg, locals), FrontNeed(rest, reg, locals))
  }

  function ArgsNeed(es: Forms, reg: int, locals: map<Sym, int>): (n: int)
    ensures n >= reg
  {
    match es
    case Nil => reg
    case Cons(e, rest) => Max(Need(e, reg, locals), ArgsNeed(rest, reg + 1, locals))
  }

  /** The word loads the constant `d`, through the constant table. */
  predicate LoadsK(w: Word, reg: int, d: Value, ks: seq<Value>) {
    exists k :: 0 <= k < |ks| && ks[k] == d && w == Encode(LoadK(reg, k))
  }

  predicate LoadsQuoted(w: Word, reg: int, d: Value, ks: seq<Value>) {
    if d == Null then w == Encode(LoadNull(reg))
    else if d == Bool(true) then w == Encode(LoadTrue(reg))
    else if d == Bool(false) then w == Encode(LoadFalse(reg))
    else LoadsK(w, reg, d, ks)
  }

  /** Only small integers are put into the instruction itself. */
  predicate LoadsConst(w: Word, reg: int, d: Value, ks: seq<Value>) {
    if d == Void then w == Encode(LoadVoid(reg))
    else if d.Int? && -32768 <= d.i <= 32767 then w == Encode(LoadI(reg, d.i))
    else LoadsQuoted(w, reg, d, ks)
  }

  /** The code of a form from `lo` on. */
  predicate Emitted(e: Form, reg: int, p: Proto, lo: nat)
    decreases e, 0
  {
    lo + Len(e, reg, p.locals) <= |p.code| &&
    match e
    case Const(d) => LoadsConst(p.code[lo], reg, d, p.ks)
    case Quote(d) => LoadsQuoted(p.code[lo], reg, d, p.ks)
    case Var(x) =>
      x in p.locals || (LoadsK(p.code[lo], reg, Symbol(x), p.ks) && p.code[lo + 1] == Encode(GetUpDict(reg, 0, reg)))
    case If(c, t, f) =>
      var fjmp := lo + Len(c, reg, p.locals);
      var jmp := fjmp + 1 + ArmLen(t, reg, p.locals);
      && Emitted(c, reg, p, lo) && ArmEmitted(t, reg, p, fjmp + 1) && ArmEmitted(f, reg, p, jmp + 1)
      && p.code[fjmp] == Encode(FJmp(ResultReg(c, reg, p.locals), jmp + 1))
      && p.code[jmp] == Encode(Jmp(jmp + 1 + ArmLen(f, reg, p.locals)))
    case Begin(front, last) =>
      FrontEmitted(front, reg, p, lo) && Emitted(last, reg, p, lo + FrontLen(front, reg, p.locals))
    case Set(x, rhs) =>
      var val, at := ResultReg(rhs, reg, p.locals), lo + Len(rhs, reg, p.locals);
      && Emitted(rhs, reg, p, lo)
      && (if x in p.locals then p.locals[x] != val ==> p.code[at] == Encode(Move(p.locals[x], val))
          else
            var key := if val == reg then reg + 1 else reg;
            LoadsK(p.code[at], key, Symbol(x), p.ks) && p.code[at + 1] == Encode(SetUpDict(0, key, val)))
    case Call(head, args) =>
      var at := lo + ArmLen(head, reg, p.locals);
      && ArmEmitted(head, reg, p, lo) && ArgsEmitted(args, reg + 1, p, at)
      && p.code[at + ArgsLen(args, reg + 1, p.locals)] == Encode(Instr.Call(reg, reg + 1 + Count(args)))
  }

  predicate ArmEmitted(e: Form, reg: int, p: Proto, lo: nat)
    decreases e, 1
  {
    lo + ArmLen(e, reg, p.locals) <= |p.code| && Emitted(e, reg, p, lo) &&
    var val := ResultReg(e, reg, p.locals);
    (val != reg ==> p.code[lo + Len(e, reg, p.locals)] == Encode(Move(reg, val)))
  }

  predicate FrontEmitted(es: Forms, reg: int, p: Proto, lo: nat) {
    match es
    case Nil => true
    case Cons(e, rest) => Emitted(e, reg, p, lo) && FrontEmitted(rest, reg, p, lo + Len(e, reg, p.locals))
  }

  predicate ArgsEmitted(es: Forms, reg: int, p: Proto, lo: nat) {
    match es
    case Nil => true
    case Cons(e, rest) => ArmEmitted(e, reg, p, lo) && ArgsEmitted(rest, reg + 1, p, lo + ArmLen(e, reg, p.locals))
  }
}
