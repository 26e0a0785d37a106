/** Running the code of a form does what evaluating the form does. */
module BcCorrect {
  import opened BcLang
  import opened BcInstr
  import opened BcMachine
  import opened BcLayout

  /** What the operand fields hold, and registers of variables that are apart. */
  ghost predicate Fitting(p: Proto) {
    && |p.code| < 65536 && |p.ks| <= 65536
    && (forall x :: x in p.locals ==> 0 <= p.locals[x])
    && forall x, y :: x in p.locals && y in p.locals && x != y ==> p.locals[x] != p.locals[y]
  }

  /** Temporaries start above the variables. */
  ghost predicate Above(p: Proto, reg: int) {
    0 <= reg && forall x :: x in p.locals ==> p.locals[x] < reg
  }

  /** The registers of the variables and the global dictionary are the environment. */
  ghost predicate Agrees(p: Proto, env: Env, m: Machine) {
    && m.Run? && |m.regs| <= 256 && m.globals == env.globals && env.locals.Keys == p.locals.Keys
    && forall x :: x in p.locals ==> 0 <= p.locals[x] < |m.regs| && m.regs[p.locals[x]] == env.locals[x]
  }

  predicate Holds(p: Proto, k: int) {
    exists x :: x in p.locals && p.locals[x] == k
  }

  /** Temporaries below `reg` have not been touched. */
  ghost predicate Kept(p: Proto, reg: int, m: Machine, m': Machine)
    requires m.Run? && m'.Run?
  {
    |m'.regs| == |m.regs| &&
    forall k {:trigger m'.regs[k]} :: 0 <= k < reg && k < |m.regs| && !Holds(p, k) ==> m'.regs[k] == m.regs[k]
  }

  /** Where the machine is once the code of a form has run: at its end, with the value
      in its register, or stopped if evaluation fails. */
  ghost predicate Ends(p: Proto, reg: int, val: int, end: int, r: Res, m: Machine, m': Machine)
    requires m.Run?
  {
    match r
    case Ok(out, env) =>
      && m'.Run? && m'.pc == end && Agrees(p, env, m') && Kept(p, reg, m, m')
      && 0 <= val < |m'.regs| && (out.Val? ==> m'.regs[val] == out.v)
    case Fail => m' == Error
    case Unknown => true
  }

  ghost predicate EndsList(p: Proto, reg: int, end: int, r: ResList, m: Machine, m': Machine)
    requires m.Run?
  {
    match r
    case Oks(vs, env) =>
      && m'.Run? && m'.pc == end && Agrees(p, env, m') && Kept(p, reg, m, m')
      && 0 <= reg && reg + |vs| <= |m'.regs| && m'.regs[reg..reg + |vs|] == vs
    case Fails => m' == Error
    case Unknowns => true
  }

  function Runs(p: Proto, prims: Prims, m: Machine, n: nat): Machine {
    Steps(Decoded(p.code), p.ks, prims, m, n)
  }

  lemma RunsAdd(p: Proto, prims: Prims, m: Machine, n: nat, k: nat)
    ensures Runs(p, prims, m, n + k) == Runs(p, prims, Runs(p, prims, m, n), k)
  {
    StepsAdd(Decoded(p.code), p.ks, prims, m, n, k);
  }

  /** One instruction whose operands fit. */
  lemma OneStep(p: Proto, prims: Prims, m: Machine, i: Instr)
    requires m.Run? && 0 <= m.pc < |p.code| && p.code[m.pc] == Encode(i) && Fits(i) && !i.Invalid?
    ensures Runs(p, prims, m, 1) == Exec(i, p.ks, prims, m.(pc := m.pc + 1))
  {
    hide Exec, Encode, Decode, Fits;
    DecodeEncode(i);
    var prog := Decoded(p.code);
    assert prog[m.pc] == i;
    assert Steps(prog, p.ks, prims, Step(prog, p.ks, prims, m), 0) == Step(prog, p.ks, prims, m);
  }

  ghost predicate Ready(e: Form, reg: int, p: Proto, lo: nat, env: Env, m: Machine) {
    Fitting(p) && Above(p, reg) && Emitted(e, reg, p, lo) && Agrees(p, env, m) && m.pc == lo && Need(e, reg, p.locals) <= |m.regs|
  }

  // ------------------------------------------------------------ single steps

  lemma SetTemp(p: Proto, env: Env, reg: int, k: int, m: Machine, v: Value, pc: int)
    requires Agrees(p, env, m) && Above(p, reg) && reg <= k < |m.regs|
    ensures var m' := m.(regs := m.regs[k := v], pc := pc); Agrees(p, env, m') && Kept(p, reg, m, m')
  {
  }

  lemma LoadStep(p: Proto, prims: Prims, env: Env, reg: int, m: Machine, i: Instr, v: Value)
    requires Fitting(p) && Above(p, reg) && Agrees(p, env, m) && reg < |m.regs| && 0 <= m.pc < |p.code|
    requires p.code[m.pc] == Encode(i) && Fits(i) && !i.Invalid?
    requires Exec(i, p.ks, prims, m.(pc := m.pc + 1)) == SetReg(m.(pc := m.pc + 1), reg, v)
    ensures Ends(p, reg, reg, m.pc + 1, Ok(Val(v), env), m, Runs(p, prims, m, 1))
  {
    hide Runs, Encode, Fits, Exec;
    OneStep(p, prims, m, i);
    SetTemp(p, env, reg, reg, m, v, m.pc + 1);
  }

  lemma SimConst(p: Proto, prims: Prims, d: Value, reg: int, lo: nat, env: Env, m: Machine, quoted: bool)
    requires Fitting(p) && Above(p, reg) && Agrees(p, env, m) && m.pc == lo < |p.code| && reg < |m.regs|
    requires if quoted then LoadsQuoted(p.code[lo], reg, d, p.ks) else LoadsConst(p.code[lo], reg, d, p.ks)
    ensures Ends(p, reg, reg, lo + 1, Ok(Val(d), env), m, Runs(p, prims, m, 1))
  {
    hide Runs, Encode, Ends, Agrees, Fitting, Above;
    assert Byte(reg) && |p.ks| <= 65536 by { RegByte(p, env, reg, m); }
    if !quoted && d == Void {
      LoadStep(p, prims, env, reg, m, LoadVoid(reg), d);
    } else if !quoted && d.Int? && -32768 <= d.i <= 32767 {
      LoadStep(p, prims, env, reg, m, LoadI(reg, d.i), d);
    } else if d == Null {
      LoadStep(p, prims, env, reg, m, LoadNull(reg), d);
    } else if d == Bool(true) {
      LoadStep(p, prims, env, reg, m, LoadTrue(reg), d);
    } else if d == Bool(false) {
      LoadStep(p, prims, env, reg, m, LoadFalse(reg), d);
    } else {
      var k :| 0 <= k < |p.ks| && p.ks[k] == d && p.code[lo] == Encode(LoadK(reg, k));
      LoadStep(p, prims, env, reg, m, LoadK(reg, k), d);
    }
  }

  lemma RegByte(p: Proto, env: Env, reg: int, m: Machine)
    requires Fitting(p) && Above(p, reg) && Agrees(p, env, m) && reg < |m.regs|
    ensures Byte(reg) && |p.ks| <= 65536 && m.Run?
  {
  }

  lemma KeptOn(p: Proto, reg: int, m: Machine, m1: Machine, m2: Machine)
    requires m.Run? && m1.Run? && m2.Run? && Kept(p, reg, m, m1) && Kept(p, reg, m1, m2)
    ensures Kept(p, reg, m, m2)
  {
  }

  /** What ends well from a later state ends well from the earlier one. */
  lemma EndsOn(p: Proto, reg: int, val: int, end: int, r: Res, m: Machine, m1: Machine, m2: Machine)
    requires m.Run? && m1.Run? && Kept(p, reg, m, m1) && Ends(p, reg, val, end, r, m1, m2)
    ensures Ends(p, reg, val, end, r, m, m2)
  {
    hide Kept, Agrees;
    if r.Ok? {
      KeptOn(p, reg, m, m1, m2);
    }
  }

  lemma SimGlobal(p: Proto, prims: Prims, x: Sym, reg: int, env: Env, m: Machine)
    requires Fitting(p) && Above(p, reg) && Agrees(p, env, m) && reg < |m.regs| && 0 <= m.pc < |p.code| - 1
    requires LoadsK(p.code[m.pc], reg, Symbol(x), p.ks) && p.code[m.pc + 1] == Encode(GetUpDict(reg, 0, reg))
    ensures Ends(p, reg, reg, m.pc + 2, Ok(Val(Global(env, x)), env), m, Runs(p, prims, m, 2))
  {
    hide Encode, Runs, Fitting, Above;
    RegByte(p, env, reg, m);
    var k :| 0 <= k < |p.ks| && p.ks[k] == Symbol(x) && p.code[m.pc] == Encode(LoadK(reg, k));
    LoadStep(p, prims, env, reg, m, LoadK(reg, k), Symbol(x));
    var m1 := Runs(p, prims, m, 1);
    LoadStep(p, prims, env, reg, m1, GetUpDict(reg, 0, reg), Global(env, x));
    RunsAdd(p, prims, m, 1, 1);
    EndsOn(p, reg, reg, m.pc + 2, Ok(Val(Global(env, x)), env), m, m1, Runs(p, prims, m, 2));
  }

  lemma SimVar(p: Proto, prims: Prims, x: Sym, reg: int, lo: nat, env: Env, m: Machine) returns (n: nat)
    requires Ready(Var(x), reg, p, lo, env, m)
    ensures Ends(p, reg, ResultReg(Var(x), reg, p.locals), lo + Len(Var(x), reg, p.locals),
                 Eval(prims, Var(x), env), m, Runs(p, prims, m, n))
  {
    hide Encode;
    if x in p.locals {
      n := 0;
    } else {
      hide Runs, Fitting, Above, LoadsK, Ends;
      n := 2;
      SimGlobal(p, prims, x, reg, env, m);
    }
  }

  // --------------------------------------------------------- compound forms

  lemma {:induction false} SimForm(p: Proto, prims: Prims, e: Form, reg: int, lo: nat, env: Env, m: Machine) returns (n: nat)
    requires Ready(e, reg, p, lo, env, m)
    ensures Ends(p, reg, ResultReg(e, reg, p.locals), lo + Len(e, reg, p.locals), Eval(prims, e, env), m, Runs(p, prims, m, n))
    decreases e, 3
  {
    hide Ready, Eval, Ends, Runs, Emitted, Len, LoadsConst, LoadsQuoted, Encode;
    match e
    case Const(d) =>
      n := 1;
      ReadyAtom(prims, e, reg, p, lo, env, m);
      SimConst(p, prims, d, reg, lo, env, m, false);
    case Quote(d) =>
      n := 1;
      ReadyAtom(prims, e, reg, p, lo, env, m);
      SimConst(p, prims, d, reg, lo, env, m, true);
    case Var(x) =>
      n := SimVar(p, prims, x, reg, lo, env, m);
    case If(c, t, f) =>
      n := SimIf(p, prims, c, t, f, reg, lo, env, m);
    case Begin(front, last) =>
      n := SimBegin(p, prims, front, last, reg, lo, env, m);
    case Set(x, rhs) =>
      n := SimSet(p, prims, x, rhs, reg, lo, env, m);
    case Call(head, args) =>
      n := SimCall(p, prims, head, args, reg, lo, env, m);
  }

  lemma ReadyFacts(e: Form, reg: int, p: Proto, lo: nat, env: Env, m: Machine)
    requires Ready(e, reg, p, lo, env, m)
    ensures m.Run? && 0 <= reg < |m.regs| <= 256 && Fitting(p) && Above(p, reg)
    ensures lo + Len(e, reg, p.locals) <= |p.code|
  {
    hide Need;
    assert Need(e, reg, p.locals) > reg;
  }

  lemma ReadyAtom(prims: Prims, e: Form, reg: int, p: Proto, lo: nat, env: Env, m: Machine)
    requires Ready(e, reg, p, lo, env, m) && (e.Const? || e.Quote?)
    ensures Fitting(p) && Above(p, reg) && Agrees(p, env, m) && m.pc == lo < |p.code| && reg < |m.regs|
    ensures if e.Quote? then LoadsQuoted(p.code[lo], reg, e.datum, p.ks) else LoadsConst(p.code[lo], reg, e.datum, p.ks)
    ensures ResultReg(e, reg, p.locals) == reg && Len(e, reg, p.locals) == 1
    ensures Eval(prims, e, env) == Ok(Val(e.datum), env)
  {
  }

  /** A form whose value ends up in `reg` itself. */
  lemma {:induction false} SimArm(p: Proto, prims: Prims, e: Form, reg: int, lo: nat, env: Env, m: Machine) returns (n: nat)
    requires Ready(e, reg, p, lo, env, m) && ArmEmitted(e, reg, p, lo)
    ensures Ends(p, reg, reg, lo + ArmLen(e, reg, p.locals), Eval(prims, e, env), m, Runs(p, prims, m, n))
    decreases e, 4
  {
    hide Runs, Eval, Emitted, Encode, Agrees, Kept, Ready, Len, Fitting, Above;
    n := SimForm(p, prims, e, reg, lo, env, m);
    ReadyFacts(e, reg, p, lo, env, m);
    var val := ResultReg(e, reg, p.locals);
    var m1 := Runs(p, prims, m, n);
    if Eval(prims, e, env).Ok? && val != reg {
      var env1 := Eval(prims, e, env).env;
      SameSize(p, reg, env1, m, m1);
      MoveStep(p, prims, env1, reg, m1, val);
      RunsAdd(p, prims, m, n, 1);
      n := n + 1;
      KeptOn(p, reg, m, m1, Runs(p, prims, m, n));
    }
  }

  lemma MoveStep(p: Proto, prims: Prims, env: Env, reg: int, m: Machine, val: int)
    requires Fitting(p) && Above(p, reg) && Agrees(p, env, m) && reg < |m.regs| && 0 <= m.pc < |p.code|
    requires 0 <= val < |m.regs| && p.code[m.pc] == Encode(Move(reg, val))
    ensures var m' := Runs(p, prims, m, 1);
      m'.Run? && m'.pc == m.pc + 1 && Agrees(p, env, m') && Kept(p, reg, m, m') && reg < |m'.regs| && m'.regs[reg] == m.regs[val]
  {
    hide Encode, Runs;
    LoadStep(p, prims, env, reg, m, Move(reg, val), m.regs[val]);
  }

  lemma PcOnly(p: Proto, env: Env, reg: int, m: Machine, pc: int)
    requires Agrees(p, env, m)
    ensures Agrees(p, env, m.(pc := pc)) && Kept(p, reg, m, m.(pc := pc))
  {
  }

  lemma JmpStep(p: Proto, prims: Prims, m: Machine, target: int)
    requires m.Run? && Fitting(p) && 0 <= m.pc < |p.code| && 0 <= target <= |p.code|
    requires p.code[m.pc] == Encode(Jmp(target))
    ensures Runs(p, prims, m, 1) == m.(pc := target)
  {
    hide Runs, Encode;
    OneStep(p, prims, m, Jmp(target));
  }

  lemma FJmpStep(p: Proto, prims: Prims, m: Machine, a: int, target: int)
    requires m.Run? && Fitting(p) && 0 <= m.pc < |p.code| && 0 <= target <= |p.code| && 0 <= a < |m.regs| <= 256
    requires p.code[m.pc] == Encode(FJmp(a, target))
    ensures Runs(p, prims, m, 1) == m.(pc := if m.regs[a] == Bool(false) then target else m.pc + 1)
  {
    hide Runs, Encode;
    OneStep(p, prims, m, FJmp(a, target));
  }

  lemma EmittedIf(c: Form, t: Form, f: Form, reg: int, p: Proto, lo: nat)
    requires Emitted(If(c, t, f), reg, p, lo)
    ensures var fjmp := lo + Len(c, reg, p.locals); var jmp := fjmp + 1 + ArmLen(t, reg, p.locals);
      var end := jmp + 1 + ArmLen(f, reg, p.locals);
      && end == lo + Len(If(c, t, f), reg, p.locals) && end <= |p.code| && Emitted(c, reg, p, lo)
      && p.code[fjmp] == Encode(FJmp(ResultReg(c, reg, p.locals), jmp + 1)) && p.code[jmp] == Encode(Jmp(end))
      && ArmEmitted(t, reg, p, fjmp + 1) && ArmEmitted(f, reg, p, jmp + 1)
  {
    hide Encode, ArmEmitted, ArmLen, LoadsConst, LoadsQuoted, LoadsK, FrontEmitted, ArgsEmitted;
  }

  lemma ReadyIf(c: Form, t: Form, f: Form, reg: int, p: Proto, lo: nat, env: Env, m: Machine)
    requires Ready(If(c, t, f), reg, p, lo, env, m)
    ensures Ready(c, reg, p, lo, env, m) && Emitted(If(c, t, f), reg, p, lo) && m.Run? && Fitting(p)
    ensures Need(t, reg, p.locals) <= |m.regs| && Need(f, reg, p.locals) <= |m.regs|
  {
    hide Emitted, Fitting, Above;
    EmittedIf(c, t, f, reg, p, lo);
  }

  lemma {:induction false} SimIf(p: Proto, prims: Prims, c: Form, t: Form, f: Form, reg: int, lo: nat, env: Env, m: Machine)
    returns (n: nat)
    requires Ready(If(c, t, f), reg, p, lo, env, m)
    ensures Ends(p, reg, reg, lo + Len(If(c, t, f), reg, p.locals), Eval(prims, If(c, t, f), env), m, Runs(p, prims, m, n))
    decreases If(c, t, f), 2
  {
    hide Runs, Emitted, ArmEmitted, Encode, Agrees, Kept, Need, Len, ArmLen, Fitting, Above, Ready;
    ReadyIf(c, t, f, reg, p, lo, env, m);
    EmittedIf(c, t, f, reg, p, lo);
    n := SimForm(p, prims, c, reg, lo, env, m);
    var r, m1 := Eval(prims, c, env), Runs(p, prims, m, n);
    if r.Ok? && r.out.Val? {
      var no := r.out.v == Bool(false);
      var k := SimChoice(p, prims, c, t, f, reg, lo, env, m, m1, r);
      RunsAdd(p, prims, m, n, k);
      n := n + k;
      EndsOn(p, reg, reg, lo + Len(If(c, t, f), reg, p.locals), Eval(prims, if no then f else t, r.env), m, m1, Runs(p, prims, m, n));
    }
  }

  /** From the test on: the jump, the chosen arm, and over the other one. */
  lemma {:induction false} SimChoice(p: Proto, prims: Prims, c: Form, t: Form, f: Form, reg: int, lo: nat, env: Env,
                                     m: Machine, m1: Machine, r: Res) returns (n: nat)
    requires Ready(If(c, t, f), reg, p, lo, env, m) && r.Ok? && r.out.Val?
    requires Ends(p, reg, ResultReg(c, reg, p.locals), lo + Len(c, reg, p.locals), r, m, m1)
    ensures Ends(p, reg, reg, lo + Len(If(c, t, f), reg, p.locals),
                 Eval(prims, if r.out.v == Bool(false) then f else t, r.env), m1, Runs(p, prims, m1, n))
    decreases If(c, t, f), 1
  {
    hide Runs, Emitted, ArmEmitted, Encode, Agrees, Kept, Need, Len, ArmLen, Above, Eval, Ready, Fitting;
    ReadyFacts(If(c, t, f), reg, p, lo, env, m);
    ReadyIf(c, t, f, reg, p, lo, env, m);
    EmittedIf(c, t, f, reg, p, lo);
    var fjmp := lo + Len(c, reg, p.locals);
    var jmp := fjmp + 1 + ArmLen(t, reg, p.locals);
    var end := jmp + 1 + ArmLen(f, reg, p.locals);
    SameSize(p, reg, r.env, m, m1);
    FJmpStep(p, prims, m1, ResultReg(c, reg, p.locals), jmp + 1);
    var m2 := Runs(p, prims, m1, 1);
    PcOnly(p, r.env, reg, m1, m2.pc);
    if r.out.v == Bool(false) {
      ArmReady(f, reg, p, jmp + 1, r.env, m2);
      var k := SimArm(p, prims, f, reg, jmp + 1, r.env, m2);
      RunsAdd(p, prims, m1, 1, k);
      n := 1 + k;
      EndsOn(p, reg, reg, end, Eval(prims, f, r.env), m1, m2, Runs(p, prims, m1, n));
    } else {
      ArmReady(t, reg, p, fjmp + 1, r.env, m2);
      var k := SimArm(p, prims, t, reg, fjmp + 1, r.env, m2);
      RunsAdd(p, prims, m1, 1, k);
      n := 1 + k;
      var r', m3 := Eval(prims, t, r.env), Runs(p, prims, m1, n);
      EndsOn(p, reg, reg, jmp, r', m1, m2, m3);
      if r'.Ok? {
        JmpStep(p, prims, m3, end);
        RunsAdd(p, prims, m1, n, 1);
        n := n + 1;
        PcOnly(p, r'.env, reg, m3, end);
        KeptOn(p, reg, m1, m3, Runs(p, prims, m1, n));
      }
    }
  }

  lemma SameSize(p: Proto, reg: int, env: Env, m: Machine, m': Machine)
    requires m.Run? && m'.Run? && Kept(p, reg, m, m') && Agrees(p, env, m')
    ensures |m'.regs| == |m.regs| <= 256
  {
  }

  lemma ArmReady(e: Form, reg: int, p: Proto, lo: nat, env: Env, m: Machine)
    requires Fitting(p) && Above(p, reg) && ArmEmitted(e, reg, p, lo) && Agrees(p, env, m) && m.pc == lo
    requires Need(e, reg, p.locals) <= |m.regs|
    ensures Ready(e, reg, p, lo, env, m)
  {
    hide Emitted, Agrees;
  }

  lemma ReadyBegin(front: Forms, last: Form, reg: int, p: Proto, lo: nat, env: Env, m: Machine)
    requires Ready(Begin(front, last), reg, p, lo, env, m)
    ensures var at := lo + FrontLen(front, reg, p.locals);
      && FrontEmitted(front, reg, p, lo) && Emitted(last, reg, p, at)
      && at + Len(last, reg, p.locals) == lo + Len(Begin(front, last), reg, p.locals)
      && FrontNeed(front, reg, p.locals) <= |m.regs| && Need(last, reg, p.locals) <= |m.regs| && Agrees(p, env, m)
      && m.pc == lo
  {
    hide Encode, Fitting, Above, LoadsConst, LoadsQuoted, LoadsK, FrontEmitted;
  }

  lemma {:induction false} SimBegin(p: Proto, prims: Prims, front: Forms, last: Form, reg: int, lo: nat, env: Env, m: Machine)
    returns (n: nat)
    requires Ready(Begin(front, last), reg, p, lo, env, m)
    ensures Ends(p, reg, ResultReg(last, reg, p.locals), lo + Len(Begin(front, last), reg, p.locals),
                 Eval(prims, Begin(front, last), env), m, Runs(p, prims, m, n))
    decreases Begin(front, last), 2
  {
    hide Runs, Agrees, Kept, Fitting, Above, Ready, Emitted, FrontEmitted, Len, FrontLen, Need, FrontNeed;
    ReadyFacts(Begin(front, last), reg, p, lo, env, m);
    ReadyBegin(front, last, reg, p, lo, env, m);
    n := SimFront(p, prims, front, reg, lo, env, m);
    var r, m1 := EvalFront(prims, front, env), Runs(p, prims, m, n);
    if r.Ok? {
      SameSize(p, reg, r.env, m, m1);
      var at := lo + FrontLen(front, reg, p.locals);
      FormReady(last, reg, p, at, r.env, m1);
      var k := SimForm(p, prims, last, reg, at, r.env, m1);
      RunsAdd(p, prims, m, n, k);
      n := n + k;
      EndsOn(p, reg, ResultReg(last, reg, p.locals), at + Len(last, reg, p.locals), Eval(prims, last, r.env), m, m1, Runs(p, prims, m, n));
    }
  }

  lemma FormReady(e: Form, reg: int, p: Proto, lo: nat, env: Env, m: Machine)
    requires Fitting(p) && Above(p, reg) && Emitted(e, reg, p, lo) && Agrees(p, env, m) && m.pc == lo
    requires Need(e, reg, p.locals) <= |m.regs|
    ensures Ready(e, reg, p, lo, env, m)
  {
  }

  lemma NoStep(p: Proto, prims: Prims, reg: int, env: Env, m: Machine)
    requires Agrees(p, env, m) && Above(p, reg) && reg <= |m.regs|
    ensures reg < |m.regs| ==> Ends(p, reg, reg, m.pc, Ok(NoVal, env), m, Runs(p, prims, m, 0))
    ensures EndsList(p, reg, m.pc, Oks([], env), m, Runs(p, prims, m, 0))
  {
  }

  lemma {:induction false} SimFront(p: Proto, prims: Prims, es: Forms, reg: int, lo: nat, env: Env, m: Machine)
    returns (n: nat)
    requires Fitting(p) && Above(p, reg) && FrontEmitted(es, reg, p, lo) && Agrees(p, env, m) && m.pc == lo
    requires reg < FrontNeed(es, reg, p.locals) <= |m.regs|
    ensures Ends(p, reg, reg, lo + FrontLen(es, reg, p.locals), EvalFront(prims, es, env), m, Runs(p, prims, m, n))
    decreases es, 3
  {
    hide Runs, Agrees, Kept, Fitting, Eval, Emitted, Need, Ends;
    match es
    case Nil =>
      n := 0;
      NoStep(p, prims, reg, env, m);
    case Cons(e, rest) =>
      n := SimFirst(p, prims, e, rest, reg, lo, env, m);
  }

  lemma {:induction false} SimFirst(p: Proto, prims: Prims, e: Form, rest: Forms, reg: int, lo: nat, env: Env, m: Machine)
    returns (n: nat)
    requires Fitting(p) && Above(p, reg) && Emitted(e, reg, p, lo) && Agrees(p, env, m) && m.pc == lo
    requires FrontEmitted(rest, reg, p, lo + Len(e, reg, p.locals))
    requires Need(e, reg, p.locals) <= |m.regs| && FrontNeed(rest, reg, p.locals) <= |m.regs|
    ensures Ends(p, reg, reg, lo + Len(e, reg, p.locals) + FrontLen(rest, reg, p.locals),
                 EvalFront(prims, Cons(e, rest), env), m, Runs(p, prims, m, n))
    decreases Cons(e, rest), 2
  {
    hide Runs, Agrees, Kept, Fitting, Above, Eval, Emitted, Need, Ready, FrontEmitted, FrontNeed, Len, FrontLen;
    FormReady(e, reg, p, lo, env, m);
    ReadyFacts(e, reg, p, lo, env, m);
    n := SimForm(p, prims, e, reg, lo, env, m);
    var r, m1 := Eval(prims, e, env), Runs(p, prims, m, n);
    if r.Ok? {
      SameSize(p, reg, r.env, m, m1);
      var at := lo + Len(e, reg, p.locals);
      var k := SimFront(p, prims, rest, reg, at, r.env, m1);
      RunsAdd(p, prims, m, n, k);
      n := n + k;
      EndsOn(p, reg, reg, at + FrontLen(rest, reg, p.locals), EvalFront(prims, rest, r.env), m, m1, Runs(p, prims, m, n));
    }
  }

  // -------------------------------------------------------------- assignment

  lemma AssignLocal(p: Proto, env: Env, reg: int, m: Machine, x: Sym, v: Value, pc: int)
    requires Fitting(p) && Agrees(p, env, m) && x in p.locals
    ensures var m' := m.(regs := m.regs[p.locals[x] := v], pc := pc);
      Agrees(p, Assign(env, x, v), m') && Kept(p, reg, m, m')
  {
    assert x in env.locals;
    assert Holds(p, p.locals[x]);
  }

  lemma AssignSame(p: Proto, env: Env, reg: int, m: Machine, x: Sym)
    requires Agrees(p, env, m) && x in p.locals
    ensures Agrees(p, Assign(env, x, m.regs[p.locals[x]]), m) && Kept(p, reg, m, m)
  {
    assert x in env.locals;
  }

  lemma AssignGlobal(p: Proto, env: Env, reg: int, m: Machine, x: Sym, v: Value, pc: int)
    requires Agrees(p, env, m) && x !in p.locals
    ensures var m' := m.(globals := m.globals[Symbol(x) := v], pc := pc);
      Agrees(p, Assign(env, x, v), m') && Kept(p, reg, m, m')
  {
    assert x !in env.locals.Keys;
  }

  /** The assignment itself, once the value is at hand in the register `val`. */
  lemma SimStore(p: Proto, prims: Prims, x: Sym, reg: int, env: Env, m: Machine, val: int) returns (n: nat)
    requires Fitting(p) && Above(p, reg) && Agrees(p, env, m) && 0 <= val < |m.regs| && reg < |m.regs| && 0 <= m.pc
    requires val <= reg
    requires if x in p.locals then
        p.locals[x] != val ==> m.pc < |p.code| && p.code[m.pc] == Encode(Move(p.locals[x], val))
      else
        var key := if val == reg then reg + 1 else reg;
        reg + 1 < |m.regs| && m.pc + 1 < |p.code| && LoadsK(p.code[m.pc], key, Symbol(x), p.ks)
        && p.code[m.pc + 1] == Encode(SetUpDict(0, key, val))
    ensures var size := if x !in p.locals then 2 else if p.locals[x] != val then 1 else 0;
      Ends(p, reg, reg, m.pc + size, Ok(NoVal, Assign(env, x, m.regs[val])), m, Runs(p, prims, m, n))
  {
    hide Encode, Holds;
    if x in p.locals {
      if p.locals[x] == val {
        n := 0;
        AssignSame(p, env, reg, m, x);
      } else {
        n := 1;
        hide Runs;
        AssignLocal(p, env, reg, m, x, m.regs[val], m.pc + 1);
        hide Kept;
        OneStep(p, prims, m, Move(p.locals[x], val));
      }
    } else {
      hide Runs;
      n := 2;
      SimStoreGlobal(p, prims, x, reg, env, m, val, if val == reg then reg + 1 else reg);
    }
  }

  lemma SimStoreGlobal(p: Proto, prims: Prims, x: Sym, reg: int, env: Env, m: Machine, val: int, key: int)
    requires Fitting(p) && Above(p, reg) && Agrees(p, env, m) && 0 <= val <= reg && reg + 1 < |m.regs| && 0 <= m.pc
    requires x !in p.locals && key == if val == reg then reg + 1 else reg
    requires m.pc + 1 < |p.code| && LoadsK(p.code[m.pc], key, Symbol(x), p.ks)
    requires p.code[m.pc + 1] == Encode(SetUpDict(0, key, val))
    ensures Ends(p, reg, reg, m.pc + 2, Ok(NoVal, Assign(env, x, m.regs[val])), m, Runs(p, prims, m, 2))
  {
    hide Encode, Holds, Runs, Ends;
    var k :| 0 <= k < |p.ks| && p.ks[k] == Symbol(x) && p.code[m.pc] == Encode(LoadK(key, k));
    OneStep(p, prims, m, LoadK(key, k));
    SetTemp(p, env, reg, key, m, Symbol(x), m.pc + 1);
    var m1 := Runs(p, prims, m, 1);
    OneStep(p, prims, m1, SetUpDict(0, key, val));
    AssignGlobal(p, env, reg, m1, x, m.regs[val], m.pc + 2);
    RunsAdd(p, prims, m, 1, 1);
    EndsNoVal(p, reg, Assign(env, x, m.regs[val]), m, m1, Runs(p, prims, m, 2));
  }

  lemma EndsNoVal(p: Proto, reg: int, env: Env, m: Machine, m1: Machine, m2: Machine)
    requires m.Run? && m1.Run? && m2.Run? && Kept(p, reg, m, m1) && Kept(p, reg, m1, m2) && Agrees(p, env, m2)
    requires 0 <= reg < |m.regs|
    ensures Ends(p, reg, reg, m2.pc, Ok(NoVal, env), m, m2)
  {
    hide Agrees;
  }

  lemma {:induction false} ResultBelow(e: Form, reg: int, p: Proto)
    requires Above(p, reg)
    ensures ResultReg(e, reg, p.locals) <= reg
  {
    if e.Begin? {
      ResultBelow(e.last, reg, p);
    }
  }

  lemma ReadySet(x: Sym, rhs: Form, reg: int, p: Proto, lo: nat, env: Env, m: Machine)
    requires Ready(Set(x, rhs), reg, p, lo, env, m)
    ensures Ready(rhs, reg, p, lo, env, m)
    ensures var val, at := ResultReg(rhs, reg, p.locals), lo + Len(rhs, reg, p.locals);
      if x in p.locals then
        && lo + Len(Set(x, rhs), reg, p.locals) == at + (if p.locals[x] != val then 1 else 0)
        && (p.locals[x] != val ==> at < |p.code| && p.code[at] == Encode(Move(p.locals[x], val)))
      else
        var key := if val == reg then reg + 1 else reg;
        && lo + Len(Set(x, rhs), reg, p.locals) == at + 2
        && reg + 1 < |m.regs| && at + 1 < |p.code| && LoadsK(p.code[at], key, Symbol(x), p.ks)
        && p.code[at + 1] == Encode(SetUpDict(0, key, val))
  {
    hide Encode, Fitting, Above, LoadsConst, LoadsQuoted, LoadsK;
  }

  lemma {:induction false} SimSet(p: Proto, prims: Prims, x: Sym, rhs: Form, reg: int, lo: nat, env: Env, m: Machine)
    returns (n: nat)
    requires Ready(Set(x, rhs), reg, p, lo, env, m)
    ensures Ends(p, reg, reg, lo + Len(Set(x, rhs), reg, p.locals), Eval(prims, Set(x, rhs), env), m, Runs(p, prims, m, n))
    decreases Set(x, rhs), 2
  {
    hide Runs, Encode, Agrees, Kept, Fitting, Above, LoadsK, Ready, Len;
    ReadyFacts(Set(x, rhs), reg, p, lo, env, m);
    ReadySet(x, rhs, reg, p, lo, env, m);
    n := SimForm(p, prims, rhs, reg, lo, env, m);
    var r, m1, val := Eval(prims, rhs, env), Runs(p, prims, m, n), ResultReg(rhs, reg, p.locals);
    if r.Ok? && r.out.Val? {
      SameSize(p, reg, r.env, m, m1);
      ResultBelow(rhs, reg, p);
      RegPositive(p, reg);
      var k := SimStore(p, prims, x, reg, r.env, m1, val);
      RunsAdd(p, prims, m, n, k);
      n := n + k;
      var done := Res.Ok(NoVal, Assign(r.env, x, r.out.v));
      EndsOn(p, reg, reg, lo + Len(Set(x, rhs), reg, p.locals), done, m, m1, Runs(p, prims, m, n));
    }
  }

  lemma RegPositive(p: Proto, reg: int)
    requires Above(p, reg)
    ensures 0 <= reg
  {
  }

  // ------------------------------------------------------------------- calls

  /** Operands end up in consecutive registers. */
  lemma {:induction false} SimArgs(p: Proto, prims: Prims, es: Forms, reg: int, lo: nat, env: Env, m: Machine) returns (n: nat)
    requires Fitting(p) && Above(p, reg) && ArgsEmitted(es, reg, p, lo) && Agrees(p, env, m) && m.pc == lo
    requires ArgsNeed(es, reg, p.locals) <= |m.regs| && reg <= |m.regs|
    ensures EndsList(p, reg, lo + ArgsLen(es, reg, p.locals), EvalList(prims, es, env), m, Runs(p, prims, m, n))
    decreases es, 6
  {
    hide Runs, Agrees, Kept, Fitting, Eval, ArmEmitted, Need, EndsList;
    match es
    case Nil =>
      n := 0;
      NoStep(p, prims, reg, env, m);
    case Cons(e, rest) =>
      n := SimArg(p, prims, e, rest, reg, lo, env, m);
  }

  lemma {:induction false} SimArg(p: Proto, prims: Prims, e: Form, rest: Forms, reg: int, lo: nat, env: Env, m: Machine)
    returns (n: nat)
    requires Fitting(p) && Above(p, reg) && ArmEmitted(e, reg, p, lo) && Agrees(p, env, m) && m.pc == lo
    requires ArgsEmitted(rest, reg + 1, p, lo + ArmLen(e, reg, p.locals))
    requires Need(e, reg, p.locals) <= |m.regs| && ArgsNeed(rest, reg + 1, p.locals) <= |m.regs| && reg <= |m.regs|
    ensures EndsList(p, reg, lo + ArmLen(e, reg, p.locals) + ArgsLen(rest, reg + 1, p.locals),
                     EvalList(prims, Cons(e, rest), env), m, Runs(p, prims, m, n))
    decreases Cons(e, rest), 5
  {
    hide Runs, Agrees, Kept, Fitting, Above, Eval, EvalList, ArmEmitted, ArgsEmitted, Need, ArgsNeed, EndsList, Ready, ArmLen, ArgsLen;
    ArmReady(e, reg, p, lo, env, m);
    ReadyFacts(e, reg, p, lo, env, m);
    n := SimArm(p, prims, e, reg, lo, env, m);
    var r, m1 := Eval(prims, e, env), Runs(p, prims, m, n);
    var at := lo + ArmLen(e, reg, p.locals);
    var end := at + ArgsLen(rest, reg + 1, p.locals);
    if r.Ok? && r.out.Val? {
      SameSize(p, reg, r.env, m, m1);
      AboveMore(p, reg);
      var k := SimArgs(p, prims, rest, reg + 1, at, r.env, m1);
      RunsAdd(p, prims, m, n, k);
      n := n + k;
      ArgsOn(p, prims, e, rest, reg, end, env, m, m1, Runs(p, prims, m, n));
    } else {
      ArgsStop(p, prims, Cons(e, rest), reg, end, env, m, m1);
    }
  }

  lemma ArgsStop(p: Proto, prims: Prims, es: Forms, reg: int, end: int, env: Env, m: Machine, m1: Machine)
    requires m.Run? && es.Cons? && (Eval(prims, es.first, env).Fail? ==> m1 == Error)
    requires var r := Eval(prims, es.first, env); !(r.Ok? && r.out.Val?)
    ensures EndsList(p, reg, end, EvalList(prims, es, env), m, m1)
  {
    hide Eval;
  }

  lemma AboveMore(p: Proto, reg: int)
    requires Above(p, reg)
    ensures Above(p, reg + 1) && !Holds(p, reg)
  {
  }

  lemma ArgsOn(p: Proto, prims: Prims, e: Form, rest: Forms, reg: int, end: int, env: Env, m: Machine, m1: Machine, m2: Machine)
    requires Eval(prims, e, env).Ok? && Eval(prims, e, env).out.Val?
    requires m.Run? && m1.Run? && Above(p, reg) && Kept(p, reg, m, m1) && 0 <= reg < |m1.regs|
    requires m1.regs[reg] == Eval(prims, e, env).out.v
    requires EndsList(p, reg + 1, end, EvalList(prims, rest, Eval(prims, e, env).env), m1, m2)
    ensures EndsList(p, reg, end, EvalList(prims, Cons(e, rest), env), m, m2)
  {
    hide Agrees, Eval;
    AboveMore(p, reg);
    var v, r := Eval(prims, e, env).out.v, EvalList(prims, rest, Eval(prims, e, env).env);
    if r.Oks? {
      assert m2.regs[reg] == m1.regs[reg];
      assert m2.regs[reg..reg + 1 + |r.vs|] == [v] + m2.regs[reg + 1..reg + 1 + |r.vs|];
      KeptLess(p, reg, m1, m2);
      KeptOn(p, reg, m, m1, m2);
    }
  }

  lemma KeptLess(p: Proto, reg: int, m: Machine, m': Machine)
    requires m.Run? && m'.Run? && Kept(p, reg + 1, m, m')
    ensures Kept(p, reg, m, m')
  {
  }

  lemma EmittedCall(head: Form, args: Forms, reg: int, p: Proto, lo: nat)
    requires Emitted(Form.Call(head, args), reg, p, lo)
    ensures var at := lo + ArmLen(head, reg, p.locals); var call := at + ArgsLen(args, reg + 1, p.locals);
      && ArmEmitted(head, reg, p, lo) && ArgsEmitted(args, reg + 1, p, at) && call < |p.code|
      && p.code[call] == Encode(Instr.Call(reg, reg + 1 + Count(args)))
      && lo + Len(Form.Call(head, args), reg, p.locals) == call + 1
  {
    hide Encode, ArmEmitted, ArmLen, LoadsConst, LoadsQuoted, LoadsK, FrontEmitted, ArgsEmitted, ArgsLen;
  }

  lemma ReadyCall(head: Form, args: Forms, reg: int, p: Proto, lo: nat, env: Env, m: Machine)
    requires Ready(Form.Call(head, args), reg, p, lo, env, m)
    ensures Ready(head, reg, p, lo, env, m) && Emitted(Form.Call(head, args), reg, p, lo)
    ensures ArgsNeed(args, reg + 1, p.locals) <= |m.regs| && reg + 1 + Count(args) < |m.regs| <= 256
  {
    hide Emitted, Fitting, Above;
    EmittedCall(head, args, reg, p, lo);
    assert Emitted(head, reg, p, lo) by { ArmHolds(head, reg, p, lo); }
  }

  lemma ArmHolds(e: Form, reg: int, p: Proto, lo: nat)
    requires ArmEmitted(e, reg, p, lo)
    ensures Emitted(e, reg, p, lo)
  {
  }

  lemma {:induction false} EvalListCount(prims: Prims, es: Forms, env: Env)
    requires EvalList(prims, es, env).Oks?
    ensures |EvalList(prims, es, env).vs| == Count(es)
  {
    hide Eval;
    match es
    case Nil =>
    case Cons(e, rest) =>
      EvalListCount(prims, rest, Eval(prims, e, env).env);
  }

  lemma {:induction false} SimCall(p: Proto, prims: Prims, head: Form, args: Forms, reg: int, lo: nat, env: Env, m: Machine)
    returns (n: nat)
    requires Ready(Form.Call(head, args), reg, p, lo, env, m)
    ensures Ends(p, reg, reg, lo + Len(Form.Call(head, args), reg, p.locals), Eval(prims, Form.Call(head, args), env),
                 m, Runs(p, prims, m, n))
    decreases Form.Call(head, args), 2
  {
    hide Runs, Encode, Agrees, Kept, Fitting, Above, Ready, EndsList, Emitted, ArmEmitted, ArgsEmitted, Len, ArmLen, ArgsLen, Applied;
    ReadyFacts(Form.Call(head, args), reg, p, lo, env, m);
    ReadyCall(head, args, reg, p, lo, env, m);
    EmittedCall(head, args, reg, p, lo);
    n := SimArm(p, prims, head, reg, lo, env, m);
    var r, m1 := Eval(prims, head, env), Runs(p, prims, m, n);
    var at := lo + ArmLen(head, reg, p.locals);
    var end := lo + Len(Form.Call(head, args), reg, p.locals);
    if r.Ok? && r.out.Val? {
      SameSize(p, reg, r.env, m, m1);
      ReadyParts(head, reg, p, lo, env, m);
      AboveMore(p, reg);
      var k := SimArgs(p, prims, args, reg + 1, at, r.env, m1);
      RunsAdd(p, prims, m, n, k);
      n := n + k;
      var rs, m2 := EvalList(prims, args, r.env), Runs(p, prims, m, n);
      ArgsFail(p, reg + 1, end - 1, rs, m1, m2);
      if rs.Oks? {
        EvalListCount(prims, args, r.env);
        CallStep(p, prims, reg, end - 1, r.out.v, rs.vs, rs.env, m, m1, m2);
        RunsAdd(p, prims, m, n, 1);
        n := n + 1;
      }
    }
  }

  lemma ReadyParts(e: Form, reg: int, p: Proto, lo: nat, env: Env, m: Machine)
    requires Ready(e, reg, p, lo, env, m)
    ensures Fitting(p) && Above(p, reg) && 0 <= reg
  {
  }

  lemma ArgsFail(p: Proto, reg: int, end: int, rs: ResList, m: Machine, m': Machine)
    requires m.Run? && EndsList(p, reg, end, rs, m, m')
    ensures rs.Fails? ==> m' == Error
  {
  }

  /** The call instruction, with operator and operands in place. */
  lemma CallStep(p: Proto, prims: Prims, reg: int, call: int, f: Value, vs: seq<Value>, env: Env,
                 m: Machine, m1: Machine, m2: Machine)
    requires Fitting(p) && Above(p, reg) && m.Run? && m1.Run? && Kept(p, reg, m, m1) && |m1.regs| == |m.regs| <= 256
    requires 0 <= reg && reg + 1 + |vs| < |m.regs| && m1.regs[reg] == f
    requires EndsList(p, reg + 1, call, Oks(vs, env), m1, m2)
    requires 0 <= call < |p.code| && p.code[call] == Encode(Instr.Call(reg, reg + 1 + |vs|))
    ensures m2.Run? && Ends(p, reg, reg, call + 1, Applied(prims, f, vs, env), m, Runs(p, prims, m2, 1))
  {
    hide Runs, Encode, Fitting, Agrees, Apply;
    AboveMore(p, reg);
    KeptLess(p, reg, m1, m2);
    KeptOn(p, reg, m, m1, m2);
    assert m2.regs[reg] == f;
    OneStep(p, prims, m2, Instr.Call(reg, reg + 1 + |vs|));
    if f != Null && Apply(prims, f, vs).Some? {
      var v := Apply(prims, f, vs).value;
      SetTemp(p, env, reg, reg, m2, v, call + 1);
      KeptOn(p, reg, m, m2, Runs(p, prims, m2, 1));
    }
  }

  /** The theorem: code that was laid out for a form runs from its start exactly to its
      end, leaving the form's value in its register, its effects in the variables'
      registers and the dictionary, and everything else below `reg` alone; and it
      raises an error when evaluation does. */
  lemma CodeCorrect(p: Proto, prims: Prims, e: Form, reg: int, lo: nat, env: Env, m: Machine)
    requires Ready(e, reg, p, lo, env, m)
    ensures exists n: nat ::
      Ends(p, reg, ResultReg(e, reg, p.locals), lo + Len(e, reg, p.locals), Eval(prims, e, env), m, Runs(p, prims, m, n))
  {
    hide Ready, Ends, Runs, Eval;
    var n := SimForm(p, prims, e, reg, lo, env, m);
  }
}
