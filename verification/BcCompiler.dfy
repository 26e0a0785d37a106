/** The bytecode compiler: it appends instructions, patches jumps once their targets
    are known, interns constants, and keeps count of the registers it uses. */
module BcCompiler {
  import opened Wrappers
  import opened BcLang
  import opened BcInstr
  import opened BcMachine
  import opened BcLayout
  import opened BcCorrect

  /** What a name stands for inside the procedure being compiled. */
  datatype Entry = Argument(reg: int) | GlobalVar | Keyword

  type Table = map<Sym, Entry>

  function Locals(t: Table): map<Sym, int> {
    map x | x in t && t[x].Argument? :: t[x].reg
  }

  /** The symbol table after a form has been compiled, or `None` if it has an error: a
      keyword used as a variable, or an assignment to a name not known so far. A name
      nothing is known about is taken for a global and remembered as one. */
  function Scan(e: Form, t: Table): Option<Table> {
    match e
    case Const(_) => Some(t)
    case Quote(_) => Some(t)
    case Var(x) => if x in t && t[x].Keyword? then None else Some(Noted(t, x))
    case If(c, y, n) =>
      (match Scan(c, t)
       case Some(t1) => (match Scan(y, t1) case Some(t2) => Scan(n, t2) case None => None)
       case None => None)
    case Begin(front, last) => (match ScanAll(front, t) case Some(t1) => Scan(last, t1) case None => None)
    case Set(x, rhs) =>
      if x !in t || t[x].Keyword? then None
      else (match Scan(rhs, t) case Some(t1) => Some(Noted(t1, x)) case None => None)
    case Call(head, args) => (match Scan(head, t) case Some(t1) => ScanAll(args, t1) case None => None)
  }

  function ScanAll(es: Forms, t: Table): Option<Table> {
    match es
    case Nil => Some(t)
    case Cons(e, rest) => (match Scan(e, t) case Some(t1) => ScanAll(rest, t1) case None => None)
  }

  function Noted(t: Table, x: Sym): Table {
    if x in t && t[x].Argument? then t else t[x := GlobalVar]
  }

  lemma NotedLocals(t: Table, x: Sym)
    ensures Locals(Noted(t, x)) == Locals(t)
  {
  }

  /** The names a form reads and assigns, in the order the compiler comes by them; an
      assignment is come by before its value. */
  datatype Mention = Reads(name: Sym) | Assigns(name: Sym)

  function Mentions(e: Form): seq<Mention> {
    match e
    case Const(_) => []
    case Quote(_) => []
    case Var(x) => [Reads(x)]
    case If(c, y, n) => Mentions(c) + Mentions(y) + Mentions(n)
    case Begin(front, last) => MentionsIn(front) + Mentions(last)
    case Set(x, rhs) => [Assigns(x)] + Mentions(rhs)
    case Call(head, args) => Mentions(head) + MentionsIn(args)
  }

  function MentionsIn(es: Forms): seq<Mention> {
    match es
    case Nil => []
    case Cons(e, rest) => Mentions(e) + MentionsIn(rest)
  }

  /** Nothing is a keyword, and what is assigned is known or was read before. */
  predicate Legal(ms: seq<Mention>, t: Table) {
    forall i :: 0 <= i < |ms| ==>
      && !(ms[i].name in t && t[ms[i].name].Keyword?)
      && (ms[i].Assigns? ==> ms[i].name in t || Reads(ms[i].name) in ms[..i])
  }

  /** The table afterwards: names that were read are known, what is no argument as a global. */
  ghost predicate After(ms: seq<Mention>, t: Table, u: Table) {
    && (forall x :: x in u <==> x in t || Reads(x) in ms)
    && (forall x :: x in t ==> u[x] == if !t[x].Argument? && (Reads(x) in ms || Assigns(x) in ms) then GlobalVar else t[x])
    && (forall x :: x in u && x !in t ==> u[x] == GlobalVar)
  }

  lemma LegalBoth(ms: seq<Mention>, ns: seq<Mention>, t: Table, u: Table)
    requires Legal(ms, t) && After(ms, t, u)
    ensures Legal(ms + ns, t) <==> Legal(ns, u)
  {
    var all := ms + ns;
    if Legal(all, t) {
      forall i | 0 <= i < |ns|
        ensures !(ns[i].name in u && u[ns[i].name].Keyword?) && (ns[i].Assigns? ==> ns[i].name in u || Reads(ns[i].name) in ns[..i])
      {
        assert all[|ms| + i] == ns[i] && all[..|ms| + i] == ms + ns[..i];
      }
    }
    if Legal(ns, u) {
      forall i | 0 <= i < |all|
        ensures !(all[i].name in t && t[all[i].name].Keyword?)
        ensures all[i].Assigns? ==> all[i].name in t || Reads(all[i].name) in all[..i]
      {
        if i < |ms| {
          assert all[i] == ms[i] && all[..i] == ms[..i];
        } else {
          assert all[i] == ns[i - |ms|] && all[..i] == ms + ns[..i - |ms|];
          if all[i].name in t && t[all[i].name].Keyword? {
            KeywordKept(ms, t, u, all[i].name);
          }
        }
      }
    }
  }

  lemma KeywordKept(ms: seq<Mention>, t: Table, u: Table, x: Sym)
    requires Legal(ms, t) && After(ms, t, u) && x in t && t[x].Keyword?
    ensures x in u && u[x].Keyword?
  {
    forall m | m in ms
      ensures m.name != x
    {
      var i :| 0 <= i < |ms| && ms[i] == m;
    }
  }

  lemma LegalFront(ms: seq<Mention>, ns: seq<Mention>, t: Table)
    requires Legal(ms + ns, t)
    ensures Legal(ms, t)
  {
    forall i | 0 <= i < |ms|
      ensures !(ms[i].name in t && t[ms[i].name].Keyword?) && (ms[i].Assigns? ==> ms[i].name in t || Reads(ms[i].name) in ms[..i])
    {
      assert (ms + ns)[i] == ms[i] && (ms + ns)[..i] == ms[..i];
    }
  }

  lemma AfterBoth(ms: seq<Mention>, ns: seq<Mention>, t: Table, u: Table, v: Table)
    requires After(ms, t, u) && After(ns, u, v)
    ensures After(ms + ns, t, v)
  {
  }

  /** What compiling one part after the other comes to. */
  ghost predicate Scanned(ms: seq<Mention>, t: Table, r: Option<Table>) {
    (r.Some? <==> Legal(ms, t)) && (r.Some? ==> After(ms, t, r.value))
  }

  lemma ScannedBoth(ms: seq<Mention>, ns: seq<Mention>, t: Table, r: Option<Table>, q: Option<Table>)
    requires Scanned(ms, t, r) && (if r.Some? then Scanned(ns, r.value, q) else q == None)
    ensures Scanned(ms + ns, t, q)
  {
    if r.Some? {
      LegalBoth(ms, ns, t, r.value);
      if q.Some? {
        AfterBoth(ms, ns, t, r.value, q.value);
      }
    } else if Legal(ms + ns, t) {
      LegalFront(ms, ns, t);
    }
  }

  /** Compiling fails exactly where a keyword is used as a variable or a name is assigned
      that is neither known nor read before. */
  lemma {:induction false} ScanMeans(e: Form, t: Table)
    ensures Scanned(Mentions(e), t, Scan(e, t))
    decreases e
  {
    match e
    case Const(_) =>
    case Quote(_) =>
    case Var(x) => assert Mentions(e)[0] == Reads(x);
    case If(c, y, n) =>
      ScanMeans(c, t);
      var r := Scan(c, t);
      if r.Some? {
        ScanMeans(y, r.value);
        var q := Scan(y, r.value);
        if q.Some? {
          ScanMeans(n, q.value);
        }
        ScannedBoth(Mentions(c), Mentions(y), t, r, q);
        ScannedBoth(Mentions(c) + Mentions(y), Mentions(n), t, q, Scan(e, t));
      } else {
        ScannedBoth(Mentions(c), Mentions(y), t, r, None);
        ScannedBoth(Mentions(c) + Mentions(y), Mentions(n), t, None, None);
      }
    case Begin(front, last) =>
      ScanAllMeans(front, t);
      if ScanAll(front, t).Some? {
        ScanMeans(last, ScanAll(front, t).value);
      }
      ScannedBoth(MentionsIn(front), Mentions(last), t, ScanAll(front, t), Scan(e, t));
    case Set(x, rhs) =>
      ScanMeans(rhs, t);
      ScannedSet(x, rhs, t);
    case Call(head, args) =>
      ScanMeans(head, t);
      if Scan(head, t).Some? {
        ScanAllMeans(args, Scan(head, t).value);
      }
      ScannedBoth(Mentions(head), MentionsIn(args), t, Scan(head, t), Scan(e, t));
  }

  lemma {:induction false} ScanAllMeans(es: Forms, t: Table)
    ensures Scanned(MentionsIn(es), t, ScanAll(es, t))
    decreases es
  {
    if es.Cons? {
      ScanMeans(es.first, t);
      if Scan(es.first, t).Some? {
        ScanAllMeans(es.rest, Scan(es.first, t).value);
      }
      ScannedBoth(Mentions(es.first), MentionsIn(es.rest), t, Scan(es.first, t), ScanAll(es, t));
    }
  }

  lemma ScannedSet(x: Sym, rhs: Form, t: Table)
    requires Scanned(Mentions(rhs), t, Scan(rhs, t))
    ensures Scanned(Mentions(Set(x, rhs)), t, Scan(Set(x, rhs), t))
  {
    var ms := Mentions(rhs);
    var all := [Assigns(x)] + ms;
    assert all[0] == Assigns(x) && all[..0] == [];
    if Legal(all, t) {
      assert x in t && !t[x].Keyword?;
      forall i | 0 <= i < |ms|
        ensures !(ms[i].name in t && t[ms[i].name].Keyword?) && (ms[i].Assigns? ==> ms[i].name in t || Reads(ms[i].name) in ms[..i])
      {
        assert all[i + 1] == ms[i] && all[..i + 1] == [Assigns(x)] + ms[..i];
      }
    }
    if Legal(ms, t) && x in t && !t[x].Keyword? {
      forall i | 0 <= i < |all|
        ensures !(all[i].name in t && t[all[i].name].Keyword?)
        ensures all[i].Assigns? ==> all[i].name in t || Reads(all[i].name) in all[..i]
      {
        if i > 0 {
          assert all[i] == ms[i - 1] && all[..i] == [Assigns(x)] + ms[..i - 1];
        }
      }
    }
  }

  // ------------------------------------------------------------- stable code

  /** `q` has the code of `p` from `lo` to `hi`, and its constants. */
  ghost predicate SameCode(p: Proto, q: Proto, lo: int, hi: int) {
    && p.locals == q.locals && p.ks <= q.ks && hi <= |p.code| && hi <= |q.code|
    && forall i {:trigger q.code[i]} :: 0 <= lo <= i < hi ==> q.code[i] == p.code[i]
  }

  lemma LoadsKept(w: Word, reg: int, d: Value, ks: seq<Value>, ls: seq<Value>)
    requires ks <= ls
    ensures LoadsK(w, reg, d, ks) ==> LoadsK(w, reg, d, ls)
    ensures LoadsQuoted(w, reg, d, ks) ==> LoadsQuoted(w, reg, d, ls)
    ensures LoadsConst(w, reg, d, ks) ==> LoadsConst(w, reg, d, ls)
  {
    hide Encode;
    if LoadsK(w, reg, d, ks) {
      var k :| 0 <= k < |ks| && ks[k] == d && w == Encode(LoadK(reg, k));
      assert ls[k] == d;
    }
  }

  lemma MakeIf(c: Form, t: Form, f: Form, reg: int, p: Proto, lo: nat)
    requires var fjmp := lo + Len(c, reg, p.locals); var jmp := fjmp + 1 + ArmLen(t, reg, p.locals);
      var end := jmp + 1 + ArmLen(f, reg, p.locals);
      && end <= |p.code| && Emitted(c, reg, p, lo)
      && p.code[fjmp] == Encode(FJmp(ResultReg(c, reg, p.locals), jmp + 1)) && p.code[jmp] == Encode(Jmp(end))
      && ArmEmitted(t, reg, p, fjmp + 1) && ArmEmitted(f, reg, p, jmp + 1)
    ensures Emitted(If(c, t, f), reg, p, lo)
    ensures lo + Len(If(c, t, f), reg, p.locals) ==
      lo + Len(c, reg, p.locals) + 1 + ArmLen(t, reg, p.locals) + 1 + ArmLen(f, reg, p.locals)
  {
    hide Encode, ArmEmitted, ArmLen, LoadsConst, LoadsQuoted, LoadsK, FrontEmitted, ArgsEmitted;
  }

  lemma {:induction false} KeptIf(c: Form, t: Form, f: Form, reg: int, p: Proto, q: Proto, lo: nat)
    requires Emitted(If(c, t, f), reg, p, lo) && SameCode(p, q, lo, lo + Len(If(c, t, f), reg, p.locals))
    ensures Emitted(If(c, t, f), reg, q, lo)
    decreases If(c, t, f), 0
  {
    hide Encode, Emitted, ArmEmitted, Len, ArmLen;
    EmittedIf(c, t, f, reg, p, lo);
    EmittedKept(c, reg, p, q, lo);
    var fjmp := lo + Len(c, reg, p.locals);
    var jmp := fjmp + 1 + ArmLen(t, reg, p.locals);
    ArmKept(t, reg, p, q, fjmp + 1);
    ArmKept(f, reg, p, q, jmp + 1);
    MakeIf(c, t, f, reg, q, lo);
  }

  lemma {:induction false} KeptSet(x: Sym, rhs: Form, reg: int, p: Proto, q: Proto, lo: nat)
    requires Emitted(Set(x, rhs), reg, p, lo) && SameCode(p, q, lo, lo + Len(Set(x, rhs), reg, p.locals))
    ensures Emitted(Set(x, rhs), reg, q, lo)
    decreases Set(x, rhs), 0
  {
    hide Encode, LoadsK, LoadsQuoted, LoadsConst;
    EmittedKept(rhs, reg, p, q, lo);
    if x !in p.locals {
      var val := ResultReg(rhs, reg, p.locals);
      LoadsKept(p.code[lo + Len(rhs, reg, p.locals)], if val == reg then reg + 1 else reg, Symbol(x), p.ks, q.ks);
    }
  }

  lemma {:induction false} KeptCall(head: Form, args: Forms, reg: int, p: Proto, q: Proto, lo: nat)
    requires Emitted(Form.Call(head, args), reg, p, lo) && SameCode(p, q, lo, lo + Len(Form.Call(head, args), reg, p.locals))
    ensures Emitted(Form.Call(head, args), reg, q, lo)
    decreases Form.Call(head, args), 0
  {
    hide Encode, ArmEmitted, ArgsEmitted, ArmLen, ArgsLen, LoadsK, LoadsQuoted, LoadsConst;
    ArmKept(head, reg, p, q, lo);
    ArgsKept(args, reg + 1, p, q, lo + ArmLen(head, reg, p.locals));
  }

  lemma {:induction false} KeptBegin(front: Forms, last: Form, reg: int, p: Proto, q: Proto, lo: nat)
    requires Emitted(Begin(front, last), reg, p, lo) && SameCode(p, q, lo, lo + Len(Begin(front, last), reg, p.locals))
    ensures Emitted(Begin(front, last), reg, q, lo)
    decreases Begin(front, last), 0
  {
    hide Encode, FrontEmitted, FrontLen, ArgsEmitted, ArgsLen, ArmEmitted, ArmLen, ResultReg, LoadsK, LoadsQuoted, LoadsConst;
    FrontKept(front, reg, p, q, lo);
    EmittedKept(last, reg, p, q, lo + FrontLen(front, reg, p.locals));
  }

  /** Appending code, patching elsewhere and adding constants leave laid-out code laid out. */
  lemma {:induction false} EmittedKept(e: Form, reg: int, p: Proto, q: Proto, lo: nat)
    requires Emitted(e, reg, p, lo) && SameCode(p, q, lo, lo + Len(e, reg, p.locals))
    ensures Emitted(e, reg, q, lo)
    decreases e, 1
  {
    hide Emitted, SameCode, Len;
    match e {
      case If(c, t, f) => KeptIf(c, t, f, reg, p, q, lo);
      case Begin(front, last) => KeptBegin(front, last, reg, p, q, lo);
      case Set(x, rhs) => KeptSet(x, rhs, reg, p, q, lo);
      case Call(head, args) => KeptCall(head, args, reg, p, q, lo);
      case _ => KeptAtom(e, reg, p, q, lo);
    }
  }

  lemma KeptAtom(e: Form, reg: int, p: Proto, q: Proto, lo: nat)
    requires e.Const? || e.Quote? || e.Var?
    requires Emitted(e, reg, p, lo) && SameCode(p, q, lo, lo + Len(e, reg, p.locals))
    ensures Emitted(e, reg, q, lo)
  {
    hide Encode, LoadsK, LoadsQuoted, LoadsConst;
    if e.Const? || e.Quote? {
      LoadsKept(p.code[lo], reg, e.datum, p.ks, q.ks);
    } else if e.name !in p.locals {
      LoadsKept(p.code[lo], reg, Symbol(e.name), p.ks, q.ks);
    }
  }

  lemma {:induction false} ArmKept(e: Form, reg: int, p: Proto, q: Proto, lo: nat)
    requires ArmEmitted(e, reg, p, lo) && SameCode(p, q, lo, lo + ArmLen(e, reg, p.locals))
    ensures ArmEmitted(e, reg, q, lo)
    decreases e, 2
  {
    hide Encode, Emitted;
    EmittedKept(e, reg, p, q, lo);
  }

  lemma {:induction false} FrontKept(es: Forms, reg: int, p: Proto, q: Proto, lo: nat)
    requires FrontEmitted(es, reg, p, lo) && SameCode(p, q, lo, lo + FrontLen(es, reg, p.locals))
    ensures FrontEmitted(es, reg, q, lo)
    decreases es, 0
  {
    hide Emitted;
    match es
    case Nil =>
    case Cons(e, rest) =>
      EmittedKept(e, reg, p, q, lo);
      FrontKept(rest, reg, p, q, lo + Len(e, reg, p.locals));
  }

  lemma {:induction false} ArgsKept(es: Forms, reg: int, p: Proto, q: Proto, lo: nat)
    requires ArgsEmitted(es, reg, p, lo) && SameCode(p, q, lo, lo + ArgsLen(es, reg, p.locals))
    ensures ArgsEmitted(es, reg, q, lo)
    decreases es, 0
  {
    hide ArmEmitted;
    match es
    case Nil =>
    case Cons(e, rest) =>
      ArmKept(e, reg, p, q, lo);
      ArgsKept(rest, reg + 1, p, q, lo + ArmLen(e, reg, p.locals));
  }

  // ------------------------------------------------------------ the compiler

  /** What the compiler has put together so far. */
  datatype Unit = Unit(code: seq<Word>, ks: seq<Value>, nregs: int, table: Table)

  function ProtoOf(u: Unit): Proto {
    Proto(u.code, u.ks, Locals(u.table))
  }

  /** `v` goes on from `u`: code and constants were only added to. */
  ghost predicate Extends(u: Unit, v: Unit) {
    && u.code <= v.code && u.ks <= v.ks && u.nregs <= v.nregs && Locals(v.table) == Locals(u.table)
  }

  /** The form has been compiled: its code is what was added, and every register it
      touches has been counted, except perhaps `reg`, which the caller counts; at most one
      more is counted than is touched. */
  ghost predicate Compiled(e: Form, reg: int, u: Unit, v: Unit) {
    && Extends(u, v) && Scan(e, u.table) == Some(v.table)
    && |v.code| == |u.code| + Len(e, reg, Locals(u.table)) && Emitted(e, reg, ProtoOf(v), |u.code|)
    && Need(e, reg, Locals(u.table)) <= Max(v.nregs, reg + 1)
    && v.nregs <= Max(u.nregs, Need(e, reg, Locals(u.table)) + 1)
  }

  ghost predicate CompiledArm(e: Form, reg: int, u: Unit, v: Unit) {
    && Extends(u, v) && Scan(e, u.table) == Some(v.table)
    && |v.code| == |u.code| + ArmLen(e, reg, Locals(u.table)) && ArmEmitted(e, reg, ProtoOf(v), |u.code|)
    && Need(e, reg, Locals(u.table)) <= Max(v.nregs, reg + 1)
    && v.nregs <= Max(u.nregs, Need(e, reg, Locals(u.table)) + 1)
  }

  ghost predicate CompiledFront(es: Forms, reg: int, u: Unit, v: Unit) {
    && Extends(u, v) && ScanAll(es, u.table) == Some(v.table)
    && |v.code| == |u.code| + FrontLen(es, reg, Locals(u.table)) && FrontEmitted(es, reg, ProtoOf(v), |u.code|)
    && FrontNeed(es, reg, Locals(u.table)) <= Max(v.nregs, reg + 1)
    && v.nregs <= Max(u.nregs, FrontNeed(es, reg, Locals(u.table)) + 1)
  }

  ghost predicate CompiledArgs(es: Forms, reg: int, u: Unit, v: Unit) {
    && Extends(u, v) && ScanAll(es, u.table) == Some(v.table)
    && |v.code| == |u.code| + ArgsLen(es, reg, Locals(u.table)) && ArgsEmitted(es, reg, ProtoOf(v), |u.code|)
    && ArgsNeed(es, reg, Locals(u.table)) <= Max(v.nregs, reg + Count(es))
    && v.nregs <= Max(u.nregs, ArgsNeed(es, reg, Locals(u.table)) + 1)
  }

  lemma StillEmitted(e: Form, reg: int, u: Unit, v: Unit, lo: nat)
    requires Emitted(e, reg, ProtoOf(u), lo) && Extends(u, v)
    ensures Emitted(e, reg, ProtoOf(v), lo)
  {
    hide Emitted, Len;
    EmittedWithin(e, reg, ProtoOf(u), lo);
    EmittedKept(e, reg, ProtoOf(u), ProtoOf(v), lo);
  }

  lemma EmittedWithin(e: Form, reg: int, p: Proto, lo: nat)
    requires Emitted(e, reg, p, lo)
    ensures lo + Len(e, reg, p.locals) <= |p.code|
  {
  }

  lemma StillArm(e: Form, reg: int, u: Unit, v: Unit, lo: nat)
    requires ArmEmitted(e, reg, ProtoOf(u), lo) && Extends(u, v)
    ensures ArmEmitted(e, reg, ProtoOf(v), lo)
  {
    hide Emitted, Encode;
    ArmKept(e, reg, ProtoOf(u), ProtoOf(v), lo);
  }

  lemma ThenMove(e: Form, reg: int, u: Unit, v: Unit, w: Unit)
    requires Compiled(e, reg, u, v)
    requires var val := ResultReg(e, reg, Locals(u.table));
      w == if val != reg then v.(code := v.code + [Encode(Move(reg, val))]) else v
    ensures CompiledArm(e, reg, u, w)
  {
    hide Encode, Emitted, Len, Scan, Need, ResultReg;
    StillEmitted(e, reg, v, w, |u.code|);
  }

  lemma MakeFront(e: Form, rest: Forms, reg: int, u: Unit, v: Unit, w: Unit)
    requires Compiled(e, reg, u, v) && CompiledFront(rest, reg, v, w)
    ensures CompiledFront(Cons(e, rest), reg, u, w)
  {
    hide Emitted, Len, Scan;
    StillEmitted(e, reg, v, w, |u.code|);
  }

  lemma MakeArgs(e: Form, rest: Forms, reg: int, u: Unit, v: Unit, w: Unit)
    requires CompiledArm(e, reg, u, v) && CompiledArgs(rest, reg + 1, v, w)
    ensures CompiledArgs(Cons(e, rest), reg, u, w)
  {
    hide ArmEmitted, ArmLen, Scan, Need;
    StillArm(e, reg, v, w, |u.code|);
  }

  lemma MakeBegin(front: Forms, last: Form, reg: int, u: Unit, v: Unit, w: Unit)
    requires CompiledFront(front, reg, u, v) && Compiled(last, reg, v, w)
    ensures Compiled(Begin(front, last), reg, u, w)
  {
    hide FrontEmitted, FrontLen, LoadsConst, LoadsQuoted, LoadsK, Encode;
    FrontWithin(front, reg, ProtoOf(v), |u.code|);
    FrontKept(front, reg, ProtoOf(v), ProtoOf(w), |u.code|);
  }

  lemma {:induction false} FrontWithin(es: Forms, reg: int, p: Proto, lo: nat)
    requires FrontEmitted(es, reg, p, lo) && lo <= |p.code|
    ensures lo + FrontLen(es, reg, p.locals) <= |p.code|
  {
    hide Emitted, Len;
    if es.Cons? {
      EmittedWithin(es.first, reg, p, lo);
      FrontWithin(es.rest, reg, p, lo + Len(es.first, reg, p.locals));
    }
  }

  /** Both arms laid out after their placeholders, which are then patched. */
  lemma MakeCompiledIf(c: Form, t: Form, f: Form, reg: int, u: Unit, v: Unit, y: Unit, n: Unit, w: Unit)
    requires Compiled(c, reg, u, v)
    requires CompiledArm(t, reg, v.(code := v.code + [0]), y)
    requires CompiledArm(f, reg, y.(code := y.code + [0]), n)
    requires |v.code| < |y.code| < |n.code| ==>
      w == n.(code := n.code[|v.code| := Encode(FJmp(ResultReg(c, reg, Locals(u.table)), |y.code| + 1))]
                            [|y.code| := Encode(Jmp(|n.code|))])
    ensures |v.code| < |y.code| < |n.code| && Compiled(If(c, t, f), reg, u, w)
  {
    hide Encode, Emitted, ArmEmitted, Len, ArmLen, Locals, ResultReg, SameCode;
    var fjmp, jmp := |v.code|, |y.code|;
    PatchKept(v, n, w, fjmp, jmp, |u.code|, fjmp);
    PatchKept(y, n, w, fjmp, jmp, fjmp + 1, jmp);
    PatchKept(n, n, w, fjmp, jmp, jmp + 1, |n.code|);
    EmittedKept(c, reg, ProtoOf(v), ProtoOf(w), |u.code|);
    ArmKept(t, reg, ProtoOf(y), ProtoOf(w), fjmp + 1);
    ArmKept(f, reg, ProtoOf(n), ProtoOf(w), jmp + 1);
    MakeIf(c, t, f, reg, ProtoOf(w), |u.code|);
  }

  lemma PatchKept(v: Unit, n: Unit, w: Unit, i: int, j: int, lo: int, hi: int)
    requires 0 <= lo <= hi <= |v.code| && v.code <= n.code && v.ks <= n.ks && Locals(v.table) == Locals(n.table)
    requires 0 <= i < j < |n.code| && !(lo <= i < hi) && !(lo <= j < hi)
    requires w.ks == n.ks && w.table == n.table && |w.code| == |n.code|
    requires forall k :: 0 <= k < |n.code| && k != i && k != j ==> w.code[k] == n.code[k]
    ensures SameCode(ProtoOf(v), ProtoOf(w), lo, hi)
  {
  }

  lemma MakeSetLocal(x: Sym, rhs: Form, reg: int, u: Unit, v: Unit, w: Unit)
    requires Compiled(rhs, reg, u, v) && x in Locals(u.table)
    requires var val := ResultReg(rhs, reg, Locals(u.table));
      w.ks == v.ks && w.table == v.table && v.nregs <= w.nregs <= Max(v.nregs, reg + 2) &&
      w.code == if Locals(u.table)[x] != val then v.code + [Encode(Move(Locals(u.table)[x], val))] else v.code
    ensures Compiled(Set(x, rhs), reg, u, w)
  {
    hide Encode, LoadsK, LoadsConst, LoadsQuoted, ArmEmitted, ArmLen, FrontEmitted, ArgsEmitted, SameCode;
    StillEmitted(rhs, reg, v, w, |u.code|);
    assert x in v.table && v.table[x].Argument? by { assert x in Locals(v.table); }
  }

  lemma MakeSetGlobal(x: Sym, rhs: Form, reg: int, u: Unit, v: Unit, k: int, w: Unit)
    requires Compiled(rhs, reg, u, v) && x !in Locals(u.table) && x in u.table && !u.table[x].Keyword?
    requires v.ks <= w.ks && 0 <= k < |w.ks| && w.ks[k] == Symbol(x) && w.table == Noted(v.table, x)
    requires var val := ResultReg(rhs, reg, Locals(u.table)); var key := if val == reg then reg + 1 else reg;
      w.code == v.code + [Encode(LoadK(key, k)), Encode(SetUpDict(0, key, val))]
    requires v.nregs <= w.nregs <= Max(v.nregs, reg + 3) && reg + 2 <= w.nregs
    ensures Compiled(Set(x, rhs), reg, u, w)
  {
    hide Encode, LoadsConst, LoadsQuoted, Locals;
    NotedLocals(v.table, x);
    StillEmitted(rhs, reg, v, w, |u.code|);
  }

  lemma MakeVarGlobal(x: Sym, reg: int, u: Unit, k: int, w: Unit)
    requires x !in Locals(u.table) && (x in u.table ==> !u.table[x].Keyword?)
    requires u.ks <= w.ks && 0 <= k < |w.ks| && w.ks[k] == Symbol(x) && w.table == Noted(u.table, x)
    requires w.code == u.code + [Encode(LoadK(reg, k)), Encode(GetUpDict(reg, 0, reg))]
    requires u.nregs <= w.nregs <= Max(u.nregs, reg + 1)
    ensures Compiled(Var(x), reg, u, w)
  {
    hide Encode, LoadsConst, LoadsQuoted, Locals;
    NotedLocals(u.table, x);
  }

  lemma MakeAtom(e: Form, reg: int, u: Unit, i: Word, w: Unit)
    requires e.Const? || e.Quote?
    requires u.ks <= w.ks && w.table == u.table && w.code == u.code + [i] && u.nregs <= w.nregs <= Max(u.nregs, reg + 1)
    requires if e.Quote? then LoadsQuoted(i, reg, e.datum, w.ks) else LoadsConst(i, reg, e.datum, w.ks)
    ensures Compiled(e, reg, u, w)
  {
    hide Encode, LoadsConst, LoadsQuoted, LoadsK, Locals;
  }

  lemma MakeCall(head: Form, args: Forms, reg: int, u: Unit, v: Unit, a: Unit, w: Unit)
    requires CompiledArm(head, reg, u, v) && CompiledArgs(args, reg + 1, v, a)
    requires w.ks == a.ks && w.table == a.table && w.nregs == Max(a.nregs, reg + 2 + Count(args))
    requires w.code == a.code + [Encode(Instr.Call(reg, reg + 1 + Count(args)))]
    ensures Compiled(Form.Call(head, args), reg, u, w)
  {
    hide Encode, ArmEmitted, ArgsEmitted, ArmLen, ArgsLen, LoadsK, LoadsConst, LoadsQuoted, Locals;
    StillArm(head, reg, v, w, |u.code|);
    ArgsWithin(args, reg + 1, ProtoOf(a), |v.code|);
    ArgsKept(args, reg + 1, ProtoOf(a), ProtoOf(w), |v.code|);
  }

  lemma {:induction false} ArgsWithin(es: Forms, reg: int, p: Proto, lo: nat)
    requires ArgsEmitted(es, reg, p, lo) && lo <= |p.code|
    ensures lo + ArgsLen(es, reg, p.locals) <= |p.code|
  {
    hide Emitted, Len;
    if es.Cons? {
      ArgsWithin(es.rest, reg + 1, p, lo + ArmLen(es.first, reg, p.locals));
    }
  }

  /** The names a procedure sees: its parameters, the last of each name, then the rest. */
  function Scope(names: seq<Sym>, outer: Table): Table {
    if names == [] then outer
    else Scope(names[..|names| - 1], outer)[names[|names| - 1] := Argument(|names| - 1)]
  }

  /** The last parameter of a name has it, in the register of its position. */
  lemma {:induction false} ScopeMeans(names: seq<Sym>, outer: Table)
    ensures Scope(names, outer).Keys == outer.Keys + set x | x in names
    ensures forall i :: 0 <= i < |names| && (forall j :: i < j < |names| ==> names[j] != names[i]) ==>
      Scope(names, outer)[names[i]] == Argument(i)
    ensures forall x :: x in outer && x !in names ==> Scope(names, outer)[x] == outer[x]
    decreases names
  {
    if names != [] {
      var n := |names| - 1;
      var front := names[..n];
      ScopeMeans(front, outer);
      assert names == front + [names[n]];
      forall i | 0 <= i < |names| && (forall j :: i < j < |names| ==> names[j] != names[i])
        ensures names[i] in Scope(names, outer) && Scope(names, outer)[names[i]] == Argument(i)
      {
        if i < n {
          assert front[i] == names[i] && names[n] != names[i];
          assert forall j :: i < j < |front| ==> front[j] == names[j];
        }
      }
    }
  }

  function Start(names: seq<Sym>, outer: Table): Unit {
    Unit([], [], |names|, Scope(names, outer))
  }

  class Compiler {
    var code: seq<Word>
    var ks: seq<Value>
    var nregs: int
    var nvars: int
    var table: Table

    function U(): Unit
      reads this
    {
      Unit(code, ks, nregs, table)
    }

    /** The scope of a procedure: its parameters get the first registers, one each. */
    constructor (names: seq<Sym>, outer: Table)
      ensures U() == Start(names, outer) && nvars == |names|
      ensures code == [] && ks == [] && nregs == |names| && table.Keys == outer.Keys + set x | x in names
      ensures forall i :: 0 <= i < |names| && (forall j :: i < j < |names| ==> names[j] != names[i]) ==> table[names[i]] == Argument(i)
      ensures forall x :: x in outer && x !in names ==> table[x] == outer[x]
    {
      code, ks, nregs, nvars, table := [], [], 0, 0, outer;
      new;
      while nregs < |names|
        invariant 0 <= nregs == nvars <= |names| && code == [] && ks == [] && table == Scope(names[..nregs], outer)
      {
        assert names[..nregs + 1][..nregs] == names[..nregs];
        table := table[names[nregs] := Argument(nregs)];
        nregs := nregs + 1;
        nvars := nvars + 1;
      }
      assert names[..nregs] == names;
      ScopeMeans(names, outer);
    }

    method Append(i: Instr)
      requires !i.Invalid?
      modifies `code
      ensures code == old(code) + [Encode(i)]
    {
      code := code + [Encode(i)];
    }

    method CountReg(reg: int)
      modifies `nregs
      ensures nregs == Max(old(nregs), reg + 1)
    {
      if reg >= nregs {
        nregs := reg + 1;
      }
    }

    /** `intern_in_vector`: equal constants share an entry. */
    method Intern(v: Value) returns (k: int)
      modifies `ks
      ensures 0 <= k < |ks| && ks[k] == v && (forall j :: 0 <= j < k ==> ks[j] != v)
      ensures ks == if v in old(ks) then old(ks) else old(ks) + [v]
    {
      k := 0;
      while k < |ks|
        invariant 0 <= k <= |ks| && v !in ks[..k]
      {
        if ks[k] == v {
          return;
        }
        k := k + 1;
      }
      ks := ks + [v];
    }

    method CompQuoted(d: Value, reg: int)
      requires 0 <= reg
      modifies `code, `ks
      ensures old(ks) <= ks && exists i :: code == old(code) + [i] && LoadsQuoted(i, reg, d, ks)
    {
      hide Encode;
      if d == Null {
        Append(LoadNull(reg));
      } else if d == Bool(true) {
        Append(LoadTrue(reg));
      } else if d == Bool(false) {
        Append(LoadFalse(reg));
      } else {
        var k := Intern(d);
        Append(LoadK(reg, k));
      }
    }

    method CompConst(d: Value, reg: int)
      requires 0 <= reg
      modifies `code, `ks, `nregs
      ensures old(ks) <= ks && nregs == Max(old(nregs), reg + 1)
      ensures exists i :: code == old(code) + [i] && LoadsConst(i, reg, d, ks)
    {
      hide Encode;
      CountReg(reg);
      if d == Void {
        Append(LoadVoid(reg));
      } else if d.Int? && -32768 <= d.i <= 32767 {
        Append(LoadI(reg, d.i));
      } else {
        CompQuoted(d, reg);
      }
    }

    method CompVar(x: Sym, reg: int) returns (ok: bool, val: int)
      requires Above(ProtoOf(U()), reg)
      modifies `code, `ks, `nregs, `table
      ensures ok <==> Scan(Var(x), old(table)).Some?
      ensures ok ==> Compiled(Var(x), reg, old(U()), U()) && val == ResultReg(Var(x), reg, Locals(old(table)))
    {
      hide Encode;
      ghost var u := U();
      CountReg(reg);
      if x in table && table[x].Argument? {
        return true, table[x].reg;
      }
      if x in table && table[x].Keyword? {
        return false, reg;
      }
      var k := Intern(Symbol(x));
      table := table[x := GlobalVar];
      Append(LoadK(reg, k));
      Append(GetUpDict(reg, 0, reg));
      MakeVarGlobal(x, reg, u, k, U());
      return true, reg;
    }

    /** `comp_expr`: the code that leaves the value of `e` in the register returned. */
    method CompExpr(e: Form, reg: int) returns (ok: bool, val: int)
      requires Above(ProtoOf(U()), reg)
      modifies `code, `ks, `nregs, `table
      ensures ok <==> Scan(e, old(table)).Some?
      ensures ok ==> Compiled(e, reg, old(U()), U()) && val == ResultReg(e, reg, Locals(old(table)))
      decreases e, 1
    {
      hide Compiled, LoadsConst, LoadsQuoted, Locals, Above;
      ghost var u := U();
      ok, val := true, reg;
      match e
      case Const(d) =>
        AboveZero(ProtoOf(u), reg);
        CompConst(d, reg);
        ghost var i :| code == u.code + [i] && LoadsConst(i, reg, d, ks);
        MakeAtom(e, reg, u, i, U());
      case Quote(d) =>
        AboveZero(ProtoOf(u), reg);
        CompQuoted(d, reg);
        ghost var i :| code == u.code + [i] && LoadsQuoted(i, reg, d, ks);
        MakeAtom(e, reg, u, i, U());
      case Var(x) =>
        ok, val := CompVar(x, reg);
      case If(c, t, f) =>
        ok := CompIf(c, t, f, reg);
      case Begin(front, last) =>
        ok := CompFront(front, reg);
        if ok {
          ghost var v := U();
          FrontLocals(front, reg, u, v);
          ok, val := CompExpr(last, reg);
          if ok {
            MakeBegin(front, last, reg, u, v, U());
          }
        }
      case Set(x, rhs) =>
        ok := CompSet(x, rhs, reg);
      case Call(head, args) =>
        ok := CompFuncall(head, args, reg);
    }

    /** The forms of a body before the last one: their values are not looked at. */
    method CompFront(es: Forms, reg: int) returns (ok: bool)
      requires Above(ProtoOf(U()), reg)
      modifies `code, `ks, `nregs, `table
      ensures ok <==> ScanAll(es, old(table)).Some?
      ensures ok ==> CompiledFront(es, reg, old(U()), U())
      decreases es, 0
    {
      hide Compiled, Above, CompiledFront, Locals;
      ghost var u := U();
      var left := es;
      while left.Cons?
        invariant Above(ProtoOf(U()), reg) && ScanAll(es, u.table) == ScanAll(left, table)
        invariant left == es || left < es
        invariant forall w :: CompiledFront(left, reg, U(), w) ==> CompiledFront(es, reg, u, w)
        decreases left
      {
        ghost var v := U();
        var val;
        ok, val := CompExpr(left.first, reg);
        if !ok {
          return;
        }
        FormLocals(left.first, reg, v, U());
        forall w | CompiledFront(left.rest, reg, U(), w)
          ensures CompiledFront(left, reg, v, w)
        {
          MakeFront(left.first, left.rest, reg, v, U(), w);
        }
        left := left.rest;
      }
      ok := true;
      AboveZero(ProtoOf(U()), reg);
      EmptyLists(reg, U());
    }

    /** A form whose value must be in `reg` itself. */
    method CompArm(e: Form, reg: int) returns (ok: bool)
      requires Above(ProtoOf(U()), reg)
      modifies `code, `ks, `nregs, `table
      ensures ok <==> Scan(e, old(table)).Some?
      ensures ok ==> CompiledArm(e, reg, old(U()), U())
      decreases e, 2
    {
      hide Compiled, CompiledArm, Above, Encode, Locals;
      ghost var u := U();
      var val;
      ok, val := CompExpr(e, reg);
      if ok {
        ghost var v := U();
        FormLocals(e, reg, u, v);
        if val != reg {
          Append(Move(reg, val));
        }
        ThenMove(e, reg, u, v, U());
      }
    }

    /** `comp_if`: the two jumps are appended blank and patched when their targets are known. */
    method CompIf(c: Form, t: Form, f: Form, reg: int) returns (ok: bool)
      requires Above(ProtoOf(U()), reg)
      modifies `code, `ks, `nregs, `table
      ensures ok <==> Scan(If(c, t, f), old(table)).Some?
      ensures ok ==> Compiled(If(c, t, f), reg, old(U()), U())
      decreases If(c, t, f), 0
    {
      hide Compiled, CompiledArm, Above, Encode, Locals;
      ghost var u := U();
      var val;
      ok, val := CompExpr(c, reg);
      if !ok {
        return;
      }
      FormLocals(c, reg, u, U());
      ghost var v := U();
      var fjmp := |code|;
      code := code + [0];
      SameLocals(v, U(), reg);
      ok := CompArm(t, reg);
      if !ok {
        return;
      }
      ghost var y := U();
      ArmLocals(t, reg, v.(code := v.code + [0]), y);
      var jmp := |code|;
      code := code + [0];
      SameLocals(y, U(), reg);
      ok := CompArm(f, reg);
      if !ok {
        return;
      }
      ghost var n := U();
      ArmLocals(f, reg, y.(code := y.code + [0]), n);
      var end := |code|;
      code := code[fjmp := Encode(FJmp(val, jmp + 1))];
      code := code[jmp := Encode(Jmp(end))];
      MakeCompiledIf(c, t, f, reg, u, v, y, n, U());
    }

    /** `comp_set`: the name must be known before the value is compiled. */
    method CompSet(x: Sym, rhs: Form, reg: int) returns (ok: bool)
      requires Above(ProtoOf(U()), reg)
      modifies `code, `ks, `nregs, `table
      ensures ok <==> Scan(Set(x, rhs), old(table)).Some?
      ensures ok ==> Compiled(Set(x, rhs), reg, old(U()), U())
      decreases Set(x, rhs), 0
    {
      hide Compiled, Above, Encode, Locals;
      ghost var u := U();
      if x !in table || table[x].Keyword? {
        return false;
      }
      var prop := table[x];
      var val;
      ok, val := CompExpr(rhs, reg);
      if !ok {
        return;
      }
      ghost var v := U();
      FormLocals(rhs, reg, u, v);
      LocalsAt(u.table, x);
      LocalsAt(v.table, x);
      SetScan(x, rhs, u, v);
      if prop.Argument? {
        StoreLocal(x, rhs, reg, val, prop.reg, u);
      } else {
        StoreGlobal(x, rhs, reg, val, u);
      }
    }

    /** The value is moved to the variable's register, unless it is there. */
    method StoreLocal(x: Sym, ghost rhs: Form, ghost reg: int, val: int, to: int, ghost u: Unit)
      requires Compiled(rhs, reg, u, U()) && Above(ProtoOf(u), reg) && val == ResultReg(rhs, reg, Locals(u.table))
      requires x in Locals(u.table) && Locals(u.table)[x] == to
      modifies `code, `nregs
      ensures U().table == old(U().table) && Compiled(Set(x, rhs), reg, u, U())
    {
      hide Compiled, Above, Encode, Locals, ResultReg;
      ghost var v := U();
      ResultBelow(rhs, reg, ProtoOf(u));
      CountTwo(val);
      if to != val {
        Append(Move(to, val));
      }
      MakeSetLocal(x, rhs, reg, u, v, U());
    }

    /** The name goes into a register that does not hold the value. */
    method StoreGlobal(x: Sym, ghost rhs: Form, reg: int, val: int, ghost u: Unit)
      requires Compiled(rhs, reg, u, U()) && Above(ProtoOf(u), reg) && val == ResultReg(rhs, reg, Locals(u.table))
      requires x !in Locals(u.table) && x in u.table && !u.table[x].Keyword?
      modifies `code, `ks, `nregs, `table
      ensures U().table == Noted(old(U().table), x) && Compiled(Set(x, rhs), reg, u, U())
    {
      hide Compiled, Above, Encode, Locals, ResultReg;
      ghost var v := U();
      ResultBelow(rhs, reg, ProtoOf(u));
      FormLocals(rhs, reg, u, v);
      LocalsAt(v.table, x);
      CountTwo(val);
      var key := if val == reg then reg + 1 else reg;
      var k := Intern(Symbol(x));
      table := table[x := GlobalVar];
      CountTwo(key);
      Append(LoadK(key, k));
      Append(SetUpDict(0, key, val));
      MakeSetGlobal(x, rhs, reg, u, v, k, U());
    }

    /** An assignment counts one register more than it takes. */
    method CountTwo(reg: int)
      modifies `nregs
      ensures nregs == Max(old(nregs), reg + 2)
    {
      if reg + 1 >= nregs {
        nregs := reg + 2;
      }
    }

    /** `comp_funcall`: operator and operands in consecutive registers, then the call. */
    method CompFuncall(head: Form, args: Forms, reg: int) returns (ok: bool)
      requires Above(ProtoOf(U()), reg)
      modifies `code, `ks, `nregs, `table
      ensures ok <==> Scan(Form.Call(head, args), old(table)).Some?
      ensures ok ==> Compiled(Form.Call(head, args), reg, old(U()), U())
      decreases Form.Call(head, args), 0
    {
      hide Compiled, CompiledArm, CompiledArgs, Above, Encode, Locals;
      ghost var u := U();
      ok := CompArm(head, reg);
      if !ok {
        return;
      }
      ghost var v := U();
      ArmLocals(head, reg, u, v);
      AboveMore(ProtoOf(v), reg);
      var next, left := reg + 1, args;
      while left.Cons?
        invariant Above(ProtoOf(U()), next) && ScanAll(args, v.table) == ScanAll(left, table)
        invariant left == args || left < args
        invariant next + Count(left) == reg + 1 + Count(args)
        invariant forall w :: CompiledArgs(left, next, U(), w) ==> CompiledArgs(args, reg + 1, v, w)
        decreases left
      {
        ghost var b, here, at := U(), left, next;
        ok := CompArm(left.first, next);
        if !ok {
          return;
        }
        ArmLocals(left.first, next, b, U());
        AboveMore(ProtoOf(U()), next);
        next := next + 1;
        left := left.rest;
        forall w | CompiledArgs(left, next, U(), w)
          ensures CompiledArgs(here, at, b, w)
        {
          MakeArgs(here.first, left, at, b, U(), w);
        }
      }
      AboveZero(ProtoOf(U()), next);
      EmptyLists(next, U());
      ghost var a := U();
      Append(Instr.Call(reg, next));
      CountReg(next);
      MakeCall(head, args, reg, u, v, a, U());
    }
  }

  lemma EmptyLists(reg: int, u: Unit)
    requires reg >= 0
    ensures CompiledFront(Nil, reg, u, u) && CompiledArgs(Nil, reg, u, u)
  {
  }

  lemma SameLocals(u: Unit, v: Unit, reg: int)
    requires Above(ProtoOf(u), reg) && u.table == v.table
    ensures Above(ProtoOf(v), reg)
  {
  }

  lemma ArmLocals(e: Form, reg: int, u: Unit, v: Unit)
    requires CompiledArm(e, reg, u, v) && Above(ProtoOf(u), reg)
    ensures Above(ProtoOf(v), reg) && Scan(e, u.table) == Some(v.table) && Locals(u.table) == Locals(v.table)
    ensures |v.code| >= |u.code|
  {
    hide ArmEmitted, Scan, ArmLen;
  }

  lemma LocalsAt(t: Table, x: Sym)
    ensures x in Locals(t) <==> x in t && t[x].Argument?
    ensures x in Locals(t) ==> Locals(t)[x] == t[x].reg
  {
  }

  lemma SetScan(x: Sym, rhs: Form, u: Unit, v: Unit)
    requires Scan(rhs, u.table) == Some(v.table) && x in u.table && !u.table[x].Keyword?
    ensures Scan(Set(x, rhs), u.table) == Some(Noted(v.table, x))
  {
    hide Noted;
  }

  lemma AboveZero(p: Proto, reg: int)
    requires Above(p, reg)
    ensures 0 <= reg
  {
  }

  lemma FormLocals(e: Form, reg: int, u: Unit, v: Unit)
    requires Compiled(e, reg, u, v) && Above(ProtoOf(u), reg)
    ensures Above(ProtoOf(v), reg) && Scan(e, u.table) == Some(v.table) && Locals(u.table) == Locals(v.table)
  {
    hide Emitted, Scan, Len;
  }

  lemma FrontLocals(es: Forms, reg: int, u: Unit, v: Unit)
    requires CompiledFront(es, reg, u, v) && Above(ProtoOf(u), reg)
    ensures Above(ProtoOf(v), reg) && ScanAll(es, u.table) == Some(v.table) && Locals(u.table) == Locals(v.table)
  {
    hide FrontEmitted, ScanAll, FrontLen;
  }

  /** A form compiled as the body of a procedure; its registers are counted at the end. */
  method CompileForm(names: seq<Sym>, outer: Table, e: Form) returns (ok: bool, made: Unit, val: int)
    requires forall x :: x in outer ==> !outer[x].Argument?
    ensures ok <==> Scan(e, Scope(names, outer)).Some?
    ensures ok <==> Legal(Mentions(e), Scope(names, outer))
    ensures ok ==> Compiled(e, |names|, Start(names, outer), made) && |names| < made.nregs
    ensures ok ==> val == ResultReg(e, |names|, Locals(Scope(names, outer)))
  {
    ScanMeans(e, Scope(names, outer));
    hide Compiled, Locals, Above, Scope, Legal, Scan;
    var c := new Compiler(names, outer);
    ScopeLocals(names, outer);
    StartAbove(names, outer);
    ok, val := c.CompExpr(e, c.nvars);
    ghost var u := c.U();
    c.CountReg(|names|);
    made := c.U();
    if ok {
      MoreRegs(e, |names|, Start(names, outer), u, made);
    }
  }

  lemma MoreRegs(e: Form, reg: int, u: Unit, v: Unit, w: Unit)
    requires Compiled(e, reg, u, v) && w == v.(nregs := Max(v.nregs, reg + 1))
    ensures Compiled(e, reg, u, w)
  {
  }

  /** Every parameter has its own register, counted from 0. */
  lemma {:induction false} ScopeLocals(names: seq<Sym>, outer: Table)
    requires forall x :: x in outer ==> !outer[x].Argument?
    ensures forall x :: x in Locals(Scope(names, outer)) <==> x in names
    ensures forall x :: x in Locals(Scope(names, outer)) ==>
      0 <= Locals(Scope(names, outer))[x] < |names| && names[Locals(Scope(names, outer))[x]] == x
  {
    if names != [] {
      var front := names[..|names| - 1];
      ScopeLocals(front, outer);
      assert names == front + [names[|names| - 1]];
    }
  }

  lemma StartAbove(names: seq<Sym>, outer: Table)
    requires forall x :: x in Locals(Scope(names, outer)) ==> 0 <= Locals(Scope(names, outer))[x] < |names|
    ensures Above(ProtoOf(Start(names, outer)), |names|)
  {
  }

  /** What the registers and the dictionary say the variables are. */
  function EnvOf(locals: map<Sym, int>, regs: seq<Value>, globals: map<Value, Value>): Env
    requires forall x :: x in locals ==> 0 <= locals[x] < |regs|
  {
    Env(map x | x in locals :: regs[locals[x]], globals)
  }

  /** From source to result: if the operands fit their fields, running the code compiled
      for a form in a fresh frame ends as evaluating the form ends. */
  lemma FormRuns(names: seq<Sym>, outer: Table, e: Form, made: Unit, prims: Prims, regs: seq<Value>, globals: map<Value, Value>)
    requires forall x :: x in outer ==> !outer[x].Argument?
    requires Compiled(e, |names|, Start(names, outer), made) && |names| < made.nregs
    requires |made.code| < 65536 && |made.ks| <= 65536 && |regs| == made.nregs <= 256
    ensures var locals := Locals(Scope(names, outer));
      && (forall x :: x in locals ==> 0 <= locals[x] < |regs|)
      && exists n: nat :: Ends(ProtoOf(made), |names|, ResultReg(e, |names|, locals), |made.code|,
                               Eval(prims, e, EnvOf(locals, regs, globals)), Run(0, regs, globals),
                               Runs(ProtoOf(made), prims, Run(0, regs, globals), n))
  {
    hide Eval, Runs, Ends, Emitted, ResultReg, Len, Need, Scan, Scope;
    ScopeLocals(names, outer);
    StartAbove(names, outer);
    var locals, p, m := Locals(Scope(names, outer)), ProtoOf(made), Run(0, regs, globals);
    hide Locals;
    ReadyStart(p, names, e, regs, globals);
    CodeCorrect(p, prims, e, |names|, 0, EnvOf(locals, regs, globals), m);
  }

  lemma ReadyStart(p: Proto, names: seq<Sym>, e: Form, regs: seq<Value>, globals: map<Value, Value>)
    requires forall x :: x in p.locals ==> 0 <= p.locals[x] < |names| && names[p.locals[x]] == x
    requires |names| < |regs| <= 256 && |p.code| < 65536 && |p.ks| <= 65536
    requires Emitted(e, |names|, p, 0) && Need(e, |names|, p.locals) <= |regs|
    ensures Ready(e, |names|, p, 0, EnvOf(p.locals, regs, globals), Run(0, regs, globals))
  {
    hide Emitted, Need;
  }
}
