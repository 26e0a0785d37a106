/** The register machine: what one instruction does, and the loop that runs them. */
module BcMachine {
  import opened Wrappers
  import opened BcLang
  import opened BcInstr

  /** A running frame, or how the run came to its end. */
  datatype Machine =
    | Run(pc: int, regs: seq<Value>, globals: map<Value, Value>)
    | Returned(v: Value)
    | Error

  predicate InRange(m: Machine, a: int)
    requires m.Run?
  {
    0 <= a < |m.regs|
  }

  function SetReg(m: Machine, a: int, v: Value): Machine
    requires m.Run?
  {
    if InRange(m, a) then m.(regs := m.regs[a := v]) else Error
  }

  /** The effect of an instruction once the program counter has moved past it. */
  function Exec(i: Instr, ks: seq<Value>, prims: Prims, m: Machine): Machine
    requires m.Run?
  {
    match i
    case Move(a, b) => if InRange(m, b) then SetReg(m, a, m.regs[b]) else Error
    case LoadI(a, n) => SetReg(m, a, Int(n))
    case LoadK(a, k) => if 0 <= k < |ks| then SetReg(m, a, ks[k]) else Error
    case LoadFalse(a) => SetReg(m, a, Bool(false))
    case LoadTrue(a) => SetReg(m, a, Bool(true))
    case LoadNull(a) => SetReg(m, a, Null)
    case LoadVoid(a) => SetReg(m, a, Void)
    case GetUpDict(a, b, c) =>
      if b == 0 && InRange(m, c) then
        SetReg(m, a, if m.regs[c] in m.globals then m.globals[m.regs[c]] else Void)
      else Error
    case SetUpDict(a, b, c) =>
      if a == 0 && InRange(m, b) && InRange(m, c) then m.(globals := m.globals[m.regs[b] := m.regs[c]]) else Error
    case Jmp(t) => m.(pc := t)
    case FJmp(a, t) =>
      if !InRange(m, a) then Error else if m.regs[a] == Bool(false) then m.(pc := t) else m
    case Call(a, b) =>
      if !InRange(m, a) then Error
      else if m.regs[a] == Null then (if InRange(m, a + 1) then Returned(m.regs[a + 1]) else Error)
      else if !(a < b <= |m.regs|) then Error
      else
        (match Apply(prims, m.regs[a], m.regs[a + 1..b])
         case Some(v) => SetReg(m, a, v)
         case None => Error)
    case Invalid(_) => Error
  }

  function Step(prog: seq<Instr>, ks: seq<Value>, prims: Prims, m: Machine): Machine {
    if !m.Run? then m
    else if !(0 <= m.pc < |prog|) then Error
    else Exec(prog[m.pc], ks, prims, m.(pc := m.pc + 1))
  }

  function Steps(prog: seq<Instr>, ks: seq<Value>, prims: Prims, m: Machine, n: nat): Machine
    decreases n
  {
    if n == 0 then m else Steps(prog, ks, prims, Step(prog, ks, prims, m), n - 1)
  }

  /** Runs can be put one after the other. */
  lemma {:induction false} StepsAdd(prog: seq<Instr>, ks: seq<Value>, prims: Prims, m: Machine, n: nat, k: nat)
    ensures Steps(prog, ks, prims, m, n + k) == Steps(prog, ks, prims, Steps(prog, ks, prims, m, n), k)
    decreases n
  {
    hide Step;
    if n > 0 {
      StepsAdd(prog, ks, prims, Step(prog, ks, prims, m), n - 1, k);
    }
  }

  lemma {:induction false} StepsSnoc(prog: seq<Instr>, ks: seq<Value>, prims: Prims, m: Machine, n: nat)
    ensures Steps(prog, ks, prims, m, n + 1) == Step(prog, ks, prims, Steps(prog, ks, prims, m, n))
  {
    hide Step;
    StepsAdd(prog, ks, prims, m, n, 1);
    assert Steps(prog, ks, prims, Steps(prog, ks, prims, m, n), 1) == Step(prog, ks, prims, Steps(prog, ks, prims, m, n));
  }

  function Decoded(code: seq<Word>): (prog: seq<Instr>)
    ensures |prog| == |code| && forall i :: 0 <= i < |code| ==> prog[i] == Decode(code[i])
  {
    seq(|code|, i requires 0 <= i < |code| => Decode(code[i]))
  }

  class Frame {
    var pc: int
    var regs: array<Value>
    var globals: map<Value, Value>
    var code: seq<Word>
    var ks: seq<Value>

    constructor (program: seq<Word>, constants: seq<Value>, registers: array<Value>, dict: map<Value, Value>)
      ensures regs == registers && code == program && ks == constants && State() == Run(0, registers[..], dict)
    {
      pc, regs, globals, code, ks := 0, registers, dict, program, constants;
    }

    function State(): Machine
      reads this, regs
    {
      Run(pc, regs[..], globals)
    }

    /** The builtin branch of `funcall`: the arguments are copied out of the registers,
        those beyond the fixed ones consed up from the last. */
    method Funcall(a: nat, nargs: nat, prims: Prims) returns (ok: bool)
      requires a + nargs < regs.Length
      modifies regs
      ensures var r := Apply(prims, old(regs[a]), old(regs[a + 1..a + 1 + nargs]));
        (ok <==> r.Some?) && regs[..] == if ok then old(regs[..])[a := r.value] else old(regs[..])
      ensures ok <==> exists args :: Passed(old(regs[a]), old(regs[a + 1..a + 1 + nargs]), args) && prims(old(regs[a]).id, args).Some?
      ensures ok ==> exists args ::
        Passed(old(regs[a]), old(regs[a + 1..a + 1 + nargs]), args) && prims(old(regs[a]).id, args) == Some(regs[a])
    {
      var f := regs[a];
      ghost var vs := regs[a + 1..a + 1 + nargs];
      ApplyMeans(prims, f, vs);
      if !f.Builtin? || !Arity(f, nargs) {
        return false;
      }
      var args := new Value[if f.varg then f.nargs + 1 else f.nargs];
      if f.varg {
        var vargs := Rest(a, nargs, nargs - f.nargs);
        args[f.nargs] := vargs;
      }
      for i := 0 to f.nargs
        invariant regs[..] == old(regs[..])
        invariant args[..i] == vs[..i] && (f.varg ==> args[f.nargs] == ListOf(vs[f.nargs..]))
      {
        args[i] := regs[a + 1 + i];
      }
      assert args[..] == ArgVector(f, vs);
      var r := prims(f.id, args[..]);
      ok := r.Some?;
      if ok {
        regs[a] := r.value;
      }
    }

    /** The last `n` of the arguments as a list, consed up from the end. */
    method Rest(a: nat, nargs: nat, n: nat) returns (vargs: Value)
      requires n <= nargs && a + nargs < regs.Length
      ensures vargs == ListOf(regs[a + 1..a + 1 + nargs][nargs - n..])
    {
      ghost var vs := regs[a + 1..a + 1 + nargs];
      var left, i := n, a + nargs;
      vargs := Null;
      while left > 0
        invariant 0 <= left <= n && i == a + nargs - n + left && vargs == ListOf(vs[nargs - n + left..])
      {
        ListOfCons(vs, nargs - n + left - 1);
        vargs := Pair(regs[i], vargs);
        left, i := left - 1, i - 1;
      }
    }

    /** One turn of the loop; `out` is where the run stands after it. */
    method Next(prims: Prims) returns (out: Machine)
      modifies this`pc, this`globals, regs
      ensures out == Step(Decoded(code), ks, prims, old(State()))
      ensures out.Run? ==> out == State()
    {
      hide Decode, Exec;
      ghost var prog := Decoded(code);
      if !(0 <= pc < |code|) {
        return Error;
      }
      var i := Decode(code[pc]);
      assert prog[pc] == i;
      hide Decoded;
      pc := pc + 1;
      out := Execute(i, prims);
    }

    /** The instruction once the program counter has moved past it. */
    method Execute(i: Instr, prims: Prims) returns (out: Machine)
      modifies this`pc, this`globals, regs
      ensures out == Exec(i, ks, prims, old(State()))
      ensures out.Run? ==> out == State()
    {
      hide Apply;
      match i {
      case Move(a, b) =>
        if !(0 <= a < regs.Length && 0 <= b < regs.Length) {
          return Error;
        }
        regs[a] := regs[b];
      case SetUpDict(a, b, c) =>
        if !(a == 0 && 0 <= b < regs.Length && 0 <= c < regs.Length) {
          return Error;
        }
        globals := globals[regs[b] := regs[c]];
      case Jmp(t) =>
        pc := t;
      case FJmp(a, t) =>
        if !(0 <= a < regs.Length) {
          return Error;
        }
        if regs[a] == Bool(false) {
          pc := t;
        }
      case Call(a, b) =>
        out := Calling(a, b, prims);
        return;
      case Invalid(_) =>
        return Error;
      case _ =>
        var ok := Load(i, prims);
        if !ok {
          return Error;
        }
      }
      out := State();
    }

    /** The instructions that put a constant or a global into a register. */
    method Load(i: Instr, ghost prims: Prims) returns (ok: bool)
      requires i.LoadI? || i.LoadK? || i.LoadFalse? || i.LoadTrue? || i.LoadNull? || i.LoadVoid? || i.GetUpDict?
      modifies regs
      ensures ok ==> State() == Exec(i, ks, prims, old(State()))
      ensures !ok ==> Exec(i, ks, prims, old(State())) == Error
    {
      if !(0 <= i.a < regs.Length) || (i.LoadK? && !(0 <= i.k < |ks|))
        || (i.GetUpDict? && !(i.b == 0 && 0 <= i.c < regs.Length)) {
        return false;
      }
      ok := true;
      match i
      case LoadI(a, n) => regs[a] := Int(n);
      case LoadK(a, k) => regs[a] := ks[k];
      case LoadFalse(a) => regs[a] := Bool(false);
      case LoadTrue(a) => regs[a] := Bool(true);
      case LoadNull(a) => regs[a] := Null;
      case LoadVoid(a) => regs[a] := Void;
      case GetUpDict(a, b, c) => regs[a] := if regs[c] in globals then globals[regs[c]] else Void;
    }

    /** `OP_CALL`: calling the empty list returns what is in the next register. */
    method Calling(a: int, b: int, prims: Prims) returns (out: Machine)
      modifies regs
      ensures out == Exec(Instr.Call(a, b), ks, prims, old(State()))
      ensures out.Run? ==> out == State()
    {
      hide Passed, Apply;
      if !(0 <= a < regs.Length) {
        return Error;
      }
      if regs[a] == Null {
        return if a + 1 < regs.Length then Returned(regs[a + 1]) else Error;
      }
      if !(a < b <= regs.Length) {
        return Error;
      }
      var ok := Funcall(a, b - a - 1, prims);
      out := if ok then State() else Error;
    }

    /** `vm_run`, for at most `max` instructions. */
    method VmRun(max: nat, prims: Prims) returns (out: Machine)
      modifies this`pc, this`globals, regs
      ensures out == Steps(Decoded(code), ks, prims, old(State()), max)
      ensures out.Run? ==> out == State()
    {
      hide Step;
      out := State();
      var n := 0;
      while n < max && out.Run?
        invariant 0 <= n <= max && out == Steps(Decoded(code), ks, prims, old(State()), n)
        invariant out.Run? ==> out == State()
        decreases max - n
      {
        StepsSnoc(Decoded(code), ks, prims, old(State()), n);
        out := Next(prims);
        n := n + 1;
      }
      StepsAdd(Decoded(code), ks, prims, old(State()), n, max - n);
      if n < max {
        Stopped(Decoded(code), ks, prims, out, max - n);
      }
    }
  }

  lemma ListOfCons(vs: seq<Value>, i: nat)
    requires i < |vs|
    ensures ListOf(vs[i..]) == Pair(vs[i], ListOf(vs[i + 1..]))
  {
    assert vs[i..][1..] == vs[i + 1..];
  }

  lemma {:induction false} Stopped(prog: seq<Instr>, ks: seq<Value>, prims: Prims, m: Machine, n: nat)
    requires !m.Run?
    ensures Steps(prog, ks, prims, m, n) == m
  {
    if n > 0 {
      Stopped(prog, ks, prims, m, n - 1);
    }
  }
}
