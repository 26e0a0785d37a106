/** The code of a form means what the form means. */
module CpsCorrect {
  import opened Wrappers
  import opened CpsValues
  import opened CpsPrims
  import opened CpsLang
  import opened CpsTranslate

  /** Labels are numbered so that control always passes to a smaller one. */
  const BY_LABEL: Rank := (k: Label) => k

  // ------------------------------------------------------- related values

  /** No lambda binds the name of a primitive; the expander renames every bound
      identifier to a generated symbol. */
  predicate NoPrimBound(f: Form) {
    match f
    case Const(_) => true
    case Quote(_) => true
    case Var(_) => true
    case If(c, t, e) => NoPrimBound(c) && NoPrimBound(t) && NoPrimBound(e)
    case Begin(body) => NoPrimBoundIn(body)
    case Lambda(lam) => NoPrimParams(lam) && NoPrimBoundIn(lam.body)
    case Call(elems) => NoPrimBoundIn(elems)
  }

  predicate NoPrimBoundIn(fs: Forms) {
    match fs
    case Last(e) => NoPrimBound(e)
    case More(e, rest) => NoPrimBound(e) && NoPrimBoundIn(rest)
  }

  predicate NoPrimParams(lam: Lam) {
    forall i :: 0 <= i < |ParamNames(lam.params, lam.rest)| ==> !IsPrim(ParamNames(lam.params, lam.rest)[i])
  }

  /** A source value and the graph value that stands for it: closures run the
      code of their lambda in related environments. */
  ghost predicate Related(g: Graph, sv: SValue, gv: GValue)
    decreases sv
  {
    match sv
    case Int(i) => gv.Int? && gv.i == i
    case Bool(b) => gv.Bool? && gv.b == b
    case Null => gv.Null?
    case Void => gv.Void?
    case Symbol(s) => gv.Symbol? && gv.name == s
    case Pair(a, d) => gv.Pair? && Related(g, a, gv.car) && Related(g, d, gv.cdr)
    case Primitive(p) => gv.Primitive? && gv.op == p
    case Closure(lam, senv) =>
      && gv.Closure? && gv.code >= 1 && CodeProc(g, lam, gv.code - 1)
      && NoPrimParams(lam) && NoPrimBoundIn(lam.body)
      && (forall x: Sym :: User(x) in gv.env <==> x in senv)
      && (forall x: Sym :: x in senv ==> !IsPrim(x) && Related(g, senv[x], gv.env[User(x)]))
  }

  ghost predicate EnvRelated(g: Graph, senv: SEnv, env: GEnv) {
    && (forall x: Sym :: User(x) in env <==> x in senv)
    && (forall x: Sym :: x in senv ==> !IsPrim(x) && Related(g, senv[x], env[User(x)]))
  }

  ghost predicate AllRelated(g: Graph, svs: seq<SValue>, gvs: seq<GValue>) {
    |svs| == |gvs| && forall i :: 0 <= i < |svs| ==> Related(g, svs[i], gvs[i])
  }

  lemma {:induction false} EmbedRelated(g: Graph, d: Datum)
    ensures Related(g, Embed(d), Embed(d))
  {
    match d
    case DPair(a, b) => EmbedRelated(g, a); EmbedRelated(g, b);
    case _ =>
  }

  /** Data look the same on both sides: only closures differ. */
  lemma {:induction false} RelatedDatum(g: Graph, d: Datum, gv: GValue)
    requires Related(g, Embed(d), gv)
    ensures gv == Embed<Name, Label>(d)
  {
    match d
    case DPair(a, b) => RelatedDatum(g, a, gv.car); RelatedDatum(g, b, gv.cdr);
    case _ =>
  }

  lemma LookupRelated(g: Graph, senv: SEnv, env: GEnv, x: Sym)
    requires EnvRelated(g, senv, env)
    ensures SLookup(senv, x).Some? == Lookup(env, User(x)).Some?
    ensures SLookup(senv, x).Some? ==> Related(g, SLookup(senv, x).value, Lookup(env, User(x)).value)
  {
    assert User(x) in env <==> x in senv;
  }

  // -------------------------------------------------- related primitives

  ghost function Relation(g: Graph): (SValue, GValue) -> bool {
    (sv, gv) => Related(g, sv, gv)
  }

  lemma RelatedByParts(g: Graph)
    ensures ByParts(Relation(g))
  {
  }

  ghost predicate SameResult(g: Graph, s: Option<SValue>, r: Option<GValue>) {
    s.Some? == r.Some? && (s.Some? ==> Related(g, s.value, r.value))
  }

  lemma ApplyPrimRelated(g: Graph, p: Prim, svs: seq<SValue>, gvs: seq<GValue>)
    requires AllRelated(g, svs, gvs)
    ensures SameResult(g, ApplyPrim(p, svs), ApplyPrim(p, gvs))
  {
    hide Related, ApplyPrim, ByParts;
    RelatedByParts(g);
    ApplySame(Relation(g), p, svs, gvs);
  }

  lemma ListOfRelated(g: Graph, svs: seq<SValue>, gvs: seq<GValue>)
    requires AllRelated(g, svs, gvs)
    ensures Related(g, ListOf(svs), ListOf(gvs))
  {
    hide Related, ListOf, ByParts;
    RelatedByParts(g);
    SameList(Relation(g), svs, gvs);
  }

  // ------------------------------------------------ related environments

  lemma {:induction false} BindRelated(g: Graph, senv: SEnv, env: GEnv, xs: seq<Sym>, names: seq<Name>,
                                       svs: seq<SValue>, gvs: seq<GValue>)
    requires EnvRelated(g, senv, env) && AllRelated(g, svs, gvs)
    requires |xs| == |names| == |svs|
    requires forall i :: 0 <= i < |xs| ==> names[i] == User(xs[i]) && !IsPrim(xs[i])
    ensures EnvRelated(g, Bind(senv, xs, svs), Bind(env, names, gvs))
    decreases xs
  {
    if xs != [] {
      assert Related(g, svs[0], gvs[0]);
      var senv1, env1 := senv[xs[0] := svs[0]], env[names[0] := gvs[0]];
      assert EnvRelated(g, senv1, env1);
      BindRelated(g, senv1, env1, xs[1..], names[1..], svs[1..], gvs[1..]);
    }
  }

  lemma ReceivedRelated(g: Graph, req: nat, rest: bool, svs: seq<SValue>, gvs: seq<GValue>)
    requires AllRelated(g, svs, gvs) && ArityOk(req, rest, |svs|)
    ensures AllRelated(g, Received(req, rest, svs), Received(req, rest, gvs))
  {
    if rest {
      ListOfRelated(g, svs[req..], gvs[req..]);
    }
  }

  /** The environments agree on every name but the temporaries from `lo` up to
      `hi`; of those, they agree on `keep`. */
  ghost predicate Agree(env: GEnv, env': GEnv, lo: nat, hi: nat, keep: nat) {
    forall x: Name {:trigger x in env} {:trigger x in env'} ::
      x.User? || !(lo <= x.id < hi) || x.id == keep ==>
        (x in env <==> x in env') && (x in env ==> env'[x] == env[x])
  }

  lemma AgreeRelated(g: Graph, senv: SEnv, env: GEnv, env': GEnv, lo: nat, hi: nat, keep: nat)
    requires EnvRelated(g, senv, env) && Agree(env, env', lo, hi, keep)
    ensures EnvRelated(g, senv, env')
  {
    forall x: Sym
      ensures User(x) in env' <==> x in senv
      ensures x in senv ==> !IsPrim(x) && Related(g, senv[x], env'[User(x)])
    {
      assert User(x) in env <==> User(x) in env';
      assert User(x) in env <==> x in senv;
    }
  }

  // ---------------------------------------------------------- simulation

  /** The operands evaluated so far sit in the temporaries the call reads. */
  ghost predicate Held(g: Graph, env: GEnv, es: Forms, tmp: nat, n: nat, vals: seq<Option<SValue>>)
    decreases es
  {
    && |vals| == Count(es)
    && (if es.e.Var? then vals[0].None?
        else vals[0].Some? && Temp(tmp) in env && Related(g, vals[0].value, env[Temp(tmp)]))
    && match es
       case Last(_) => true
       case More(e, rest) =>
         Held(g, env, rest, if e.Var? then tmp else EntryTemp(e, n), NextElem(e, n), vals[1..])
  }

  lemma {:induction false} HeldAgree(g: Graph, env: GEnv, env': GEnv, es: Forms, tmp: nat, n: nat, vals: seq<Option<SValue>>)
    requires Held(g, env, es, tmp, n, vals)
    requires forall t: nat :: (t == tmp || t >= n) && Temp(t) in env ==> Temp(t) in env' && env'[Temp(t)] == env[Temp(t)]
    ensures Held(g, env', es, tmp, n, vals)
    decreases es
  {
    match es
    case Last(_) =>
    case More(e, rest) =>
      HeldAgree(g, env, env', rest, if e.Var? then tmp else EntryTemp(e, n), NextElem(e, n), vals[1..]);
  }

  lemma {:induction false} ReadRelated(g: Graph, senv: SEnv, env: GEnv, es: Forms, tmp: nat, n: nat, vals: seq<Option<SValue>>)
    requires EnvRelated(g, senv, env) && Held(g, env, es, tmp, n, vals)
    ensures var s, r := ReadVars(senv, es, vals), LookupAll(env, ElemNames(es, tmp, n));
      s.Some? == r.Some? && (s.Some? ==> AllRelated(g, s.value, r.value))
    decreases es
  {
    hide Related, EnvRelated, Next;
    var names := ElemNames(es, tmp, n);
    if es.e.Var? {
      LookupRelated(g, senv, env, es.e.x);
    }
    assert SameResult(g, if es.e.Var? then SLookup(senv, es.e.x) else vals[0], Lookup(env, names[0]));
    match es
    case Last(_) => assert LookupAll(env, names[1..]) == Some([]);
    case More(e, rest) =>
      var t := if e.Var? then tmp else EntryTemp(e, n);
      ReadRelated(g, senv, env, rest, t, NextElem(e, n), vals[1..]);
      assert names[1..] == ElemNames(rest, t, NextElem(e, n));
  }

  /** What running the entry term of some code does, given how direct
      evaluation of the form comes out: a value goes to `cc` in an environment
      that only gained temporaries of the code. */
  ghost predicate Simulates(fuel: nat, g: Graph, o: SOutcome, k: Label, cc: Label, env: GEnv,
                            env': GEnv, gv: GValue, lo: nat, hi: nat, keep: nat)
    requires Ranked(g, BY_LABEL) && k in g && g[k].Kargs? && cc in g
  {
    match o
    case SDone(v) =>
      && Related(g, v, gv) && Agree(env, env', lo, hi, keep)
      && RunTerm(fuel, g, BY_LABEL, k, env) == Run(fuel, g, BY_LABEL, cc, env', [gv])
    case SStuck => RunTerm(fuel, g, BY_LABEL, k, env) == Stuck
    case STimeout => RunTerm(fuel, g, BY_LABEL, k, env) == Timeout
  }

  lemma {:induction false} CodeEntry(g: Graph, f: Form, cc: Label, n: nat)
    requires Code(g, f, cc, n)
    ensures Entry(f, n) in g && g[Entry(f, n)].Kargs?
    decreases f
  {
    hide Next, CodeProc, CodeBody, CodeElems, NextBody, ElemNames, EntryTemp;
    match f
    case If(c, t, e) => CodeEntry(g, c, Next(e, Next(t, n)), Next(e, Next(t, n)) + 2);
    case Begin(body) => CodeEntryBody(g, body, cc, n);
    case Call(elems) => CodeEntryElems(g, elems, n + 5, n + 4, n + 6);
    case _ =>
  }

  lemma {:induction false} CodeEntryBody(g: Graph, fs: Forms, cc: Label, n: nat)
    requires CodeBody(g, fs, cc, n)
    ensures EntryBody(fs, n) in g && g[EntryBody(fs, n)].Kargs?
    decreases fs
  {
    match fs
    case Last(e) => CodeEntry(g, e, cc, n);
    case More(e, rest) => CodeEntry(g, e, EntryBody(rest, n), NextBody(rest, n));
  }

  lemma {:induction false} CodeEntryElems(g: Graph, es: Forms, cc: Label, tmp: nat, n: nat)
    requires CodeElems(g, es, cc, tmp, n) && cc in g && g[cc].Kargs?
    ensures EntryElems(es, cc, n) in g && g[EntryElems(es, cc, n)].Kargs?
    decreases es
  {
    hide Code;
    if !es.e.Var? {
      CodeEntry(g, es.e, cc, n);
    }
    match es
    case Last(_) =>
    case More(e, rest) =>
      if e.Var? {
        CodeEntryElems(g, rest, cc, tmp, n);
      } else {
        CodeEntryElems(g, rest, Entry(e, n), EntryTemp(e, n), Next(e, n));
      }
  }

  lemma BindOne(env: GEnv, x: Name, v: GValue)
    ensures Bind(env, [x], [v]) == env[x := v]
  {
    assert [x][1..] == [] && [v][1..] == [];
  }

  lemma LookupOne(env: GEnv, x: Name)
    ensures LookupAll(env, [x]) == if Lookup(env, x).Some? then Some([Lookup(env, x).value]) else None
  {
    var v := Lookup(env, x);
    assert [x][1..] == [] && LookupAll(env, [x][1..]) == Some([]);
    if v.Some? {
      assert [v.value] + [] == [v.value];
    }
  }

  /** Delivering one value to a continuation with one variable. */
  lemma RunOne(fuel: nat, g: Graph, k: Label, t: nat, env: GEnv, v: GValue)
    requires Ranked(g, BY_LABEL) && HasVars(g, k, [Temp(t)])
    ensures Run(fuel, g, BY_LABEL, k, env, [v]) == RunTerm(fuel, g, BY_LABEL, k, env[Temp(t) := v])
  {
    assert Bind(env, [Temp(t)], [v]) == Bind(env[Temp(t) := v], [], []) == env[Temp(t) := v];
  }

  lemma {:induction false} Sim(fuel: nat, g: Graph, f: Form, cc: Label, n: nat, senv: SEnv, env: GEnv)
    returns (env': GEnv, gv: GValue)
    requires Ranked(g, BY_LABEL) && Code(g, f, cc, n) && cc in g
    requires NoPrimBound(f) && EnvRelated(g, senv, env)
    ensures Entry(f, n) in g && g[Entry(f, n)].Kargs?
    ensures Simulates(fuel, g, Eval(fuel, senv, f), Entry(f, n), cc, env, env', gv, n, Next(f, n), EntryTemp(f, n))
    decreases fuel, f, 1
  {
    hide *;
    CodeEntry(g, f, cc, n);
    match f
    case Begin(body) => env', gv := SimBegin(fuel, g, body, cc, n, senv, env);
    case If(c, t, e) =>
      EntryOfIf(c, t, e, n);
      env', gv := SimIf(fuel, g, c, t, e, cc, n, senv, env);
    case Call(_) => env', gv := SimCall(fuel, g, f, cc, n, senv, env);
    case _ => env', gv := SimAtom(fuel, g, f, cc, n, senv, env);
  }

  lemma {:induction false} SimBegin(fuel: nat, g: Graph, body: Forms, cc: Label, n: nat, senv: SEnv, env: GEnv)
    returns (env': GEnv, gv: GValue)
    requires Ranked(g, BY_LABEL) && Code(g, Begin(body), cc, n) && cc in g
    requires NoPrimBound(Begin(body)) && EnvRelated(g, senv, env)
    ensures Entry(Begin(body), n) in g && g[Entry(Begin(body), n)].Kargs?
    ensures Simulates(fuel, g, Eval(fuel, senv, Begin(body)), Entry(Begin(body), n), cc, env, env', gv, n,
                      Next(Begin(body), n), EntryTemp(Begin(body), n))
    decreases fuel, Begin(body), 0
  {
    hide Related, EnvRelated, Agree, Ranked, Run, RunTerm, Simulates, CodeBody, EvalBody, NextBody, EntryBody;
    env', gv := SimBody(fuel, g, body, cc, n, senv, env);
  }

  lemma SimAtom(fuel: nat, g: Graph, f: Form, cc: Label, n: nat, senv: SEnv, env: GEnv)
    returns (env': GEnv, gv: GValue)
    requires Ranked(g, BY_LABEL) && Code(g, f, cc, n) && cc in g
    requires f.Const? || f.Quote? || f.Var? || f.Lambda?
    requires NoPrimBound(f) && EnvRelated(g, senv, env)
    ensures Entry(f, n) in g && g[Entry(f, n)].Kargs?
    ensures Simulates(fuel, g, Eval(fuel, senv, f), Entry(f, n), cc, env, env', gv, n, Next(f, n), EntryTemp(f, n))
  {
    hide Related, EnvRelated, Ranked, CodeProc, CodeBody, NextBody;
    env', gv := env, Null;
    match f
    case Const(d) =>
      EmbedRelated(g, d);
      gv := Embed(d);
    case Quote(d) =>
      EmbedRelated(g, d);
      gv := Embed(d);
    case Var(x) =>
      LookupRelated(g, senv, env, x);
      LookupOne(env, User(x));
      if Lookup(env, User(x)).Some? {
        gv := Lookup(env, User(x)).value;
      }
      if IsPrim(x) {
        PrimUnbound(g, senv, env, User(x));
      }
    case Lambda(lam) =>
      gv := Closure(n + 1, env);
      ClosureRelated(g, lam, n, senv, env);
  }

  lemma ClosureRelated(g: Graph, lam: Lam, n: nat, senv: SEnv, env: GEnv)
    requires CodeProc(g, lam, n) && NoPrimParams(lam) && NoPrimBoundIn(lam.body) && EnvRelated(g, senv, env)
    ensures Related(g, Closure(lam, senv), Closure(n + 1, env))
  {
  }

  lemma {:induction false} SimBody(fuel: nat, g: Graph, fs: Forms, cc: Label, n: nat, senv: SEnv, env: GEnv)
    returns (env': GEnv, gv: GValue)
    requires Ranked(g, BY_LABEL) && CodeBody(g, fs, cc, n) && cc in g
    requires NoPrimBoundIn(fs) && EnvRelated(g, senv, env)
    ensures EntryBody(fs, n) in g && g[EntryBody(fs, n)].Kargs?
    ensures Simulates(fuel, g, EvalBody(fuel, senv, fs), EntryBody(fs, n), cc, env, env', gv,
                      n, NextBody(fs, n), EntryTempBody(fs, n))
    decreases fuel, fs, 1
  {
    hide Related, EnvRelated, Ranked, RunTerm, Run, Next, Entry, EntryTemp;
    CodeEntryBody(g, fs, cc, n);
    match fs
    case Last(e) => env', gv := Sim(fuel, g, e, cc, n, senv, env);
    case More(e, rest) =>
      var k, t, m := EntryBody(rest, n), EntryTempBody(rest, n), NextBody(rest, n);
      env', gv := Sim(fuel, g, e, k, m, senv, env);
      if Eval(fuel, senv, e).SDone? {
        RunOne(fuel, g, k, t, env', gv);
        var env1 := env'[Temp(t) := gv];
        assert Agree(env, env1, n, NextBody(fs, n), EntryTemp(e, m));
        AgreeRelated(g, senv, env, env1, n, NextBody(fs, n), EntryTemp(e, m));
        env', gv := SimBody(fuel, g, rest, cc, n, senv, env1);
      }
  }

  /** A branch on the value just delivered. */
  lemma RunBranch(fuel: nat, g: Graph, k: Label, t: nat, kt: Label, kf: Label, env: GEnv, v: GValue)
    requires Ranked(g, BY_LABEL) && k in g && g[k] == Kargs([Temp(t)], Branch(Temp(t), kt, kf))
    requires HasVars(g, kt, []) && HasVars(g, kf, [])
    ensures Run(fuel, g, BY_LABEL, k, env, [v]) ==
            RunTerm(fuel, g, BY_LABEL, if v == Bool(false) then kf else kt, env[Temp(t) := v])
  {
    RunOne(fuel, g, k, t, env, v);
    var env1 := env[Temp(t) := v];
    assert Bind(env1, [], []) == env1;
  }

  /** The test of a conditional, up to the entry of the arm it selects. */
  lemma {:induction false} SimTest(fuel: nat, g: Graph, c: Form, kt: Label, kf: Label, n: nat, senv: SEnv, env: GEnv)
    returns (env1: GEnv)
    requires Ranked(g, BY_LABEL) && Code(g, c, n, n + 2) && NoPrimBound(c) && EnvRelated(g, senv, env)
    requires n in g && g[n] == Kargs([Temp(n + 1)], Branch(Temp(n + 1), kt, kf))
    requires HasVars(g, kt, []) && HasVars(g, kf, [])
    ensures Entry(c, n + 2) in g && g[Entry(c, n + 2)].Kargs?
    ensures var start := RunTerm(fuel, g, BY_LABEL, Entry(c, n + 2), env);
      match Eval(fuel, senv, c)
      case SStuck => start == Stuck
      case STimeout => start == Timeout
      case SDone(v) =>
        && start == RunTerm(fuel, g, BY_LABEL, if v == Bool(false) then kf else kt, env1)
        && Agree(env, env1, n, Next(c, n + 2), EntryTemp(c, n + 2))
    decreases fuel, c, 2
  {
    hide Eval, Code, Next, Entry, EntryTemp, NoPrimBound, EnvRelated;
    var env', gv := Sim(fuel, g, c, n, n + 2, senv, env);
    RunBranch(fuel, g, n, n + 1, kt, kf, env', gv);
    env1 := env'[Temp(n + 1) := gv];
  }

  lemma PartsOfIf(g: Graph, c: Form, t: Form, e: Form, cc: Label, n: nat)
    requires Code(g, If(c, t, e), cc, n) && NoPrimBound(If(c, t, e))
    ensures var n1 := Next(t, n);
      var n2 := Next(e, n1);
      && Code(g, t, cc, n) && HasVars(g, Entry(t, n), [])
      && Code(g, e, cc, n1) && HasVars(g, Entry(e, n1), [])
      && n2 in g && g[n2] == Kargs([Temp(n2 + 1)], Branch(Temp(n2 + 1), Entry(t, n), Entry(e, n1)))
      && Code(g, c, n2, n2 + 2)
    ensures NoPrimBound(c) && NoPrimBound(t) && NoPrimBound(e)
  {
  }

  lemma EvalOfIf(fuel: nat, senv: SEnv, c: Form, t: Form, e: Form)
    ensures var o := Eval(fuel, senv, c);
      Eval(fuel, senv, If(c, t, e)) ==
      if o.SDone? then Eval(fuel, senv, if o.v == Bool(false) then e else t) else o
  {
  }

  lemma {:induction false} SimIf(fuel: nat, g: Graph, c: Form, t: Form, e: Form, cc: Label, n: nat, senv: SEnv, env: GEnv)
    returns (env': GEnv, gv: GValue)
    requires Ranked(g, BY_LABEL) && Code(g, If(c, t, e), cc, n) && cc in g
    requires NoPrimBound(If(c, t, e)) && EnvRelated(g, senv, env)
    ensures var n2 := Next(e, Next(t, n));
      var k := Entry(c, n2 + 2);
      && k in g && g[k].Kargs?
      && Simulates(fuel, g, Eval(fuel, senv, If(c, t, e)), k, cc, env, env', gv,
                   n, Next(c, n2 + 2), EntryTemp(c, n2 + 2))
    decreases fuel, If(c, t, e), 0
  {
    hide Related, EnvRelated, Ranked, Run, RunTerm, Agree, Next, Entry, EntryTemp, Code, Eval, NoPrimBound;
    env', gv := env, Null;
    PartsOfIf(g, c, t, e, cc, n);
    EvalOfIf(fuel, senv, c, t, e);
    var n1 := Next(t, n);
    var n2 := Next(e, n1);
    var env1 := SimTest(fuel, g, c, Entry(t, n), Entry(e, n1), n2, senv, env);
    var test := Eval(fuel, senv, c);
    if test.SDone? {
      var hi, keep := Next(c, n2 + 2), EntryTemp(c, n2 + 2);
      AgreeRelated(g, senv, env, env1, n2, hi, keep);
      var arm, lo := if test.v == Bool(false) then e else t, if test.v == Bool(false) then n1 else n;
      env', gv := SimArm(fuel, g, arm, cc, lo, senv, env1);
      if Eval(fuel, senv, arm).SDone? {
        AgreeJoin(env, env1, env', n, n2, hi, keep, lo, Next(arm, lo), EntryTemp(arm, lo));
      }
    }
  }

  lemma {:induction false} SimArm(fuel: nat, g: Graph, f: Form, cc: Label, n: nat, senv: SEnv, env: GEnv)
    returns (env': GEnv, gv: GValue)
    requires Ranked(g, BY_LABEL) && Code(g, f, cc, n) && cc in g
    requires NoPrimBound(f) && EnvRelated(g, senv, env)
    ensures Entry(f, n) in g && g[Entry(f, n)].Kargs?
    ensures Simulates(fuel, g, Eval(fuel, senv, f), Entry(f, n), cc, env, env', gv, n, Next(f, n), EntryTemp(f, n))
    decreases fuel, f, 2
  {
    env', gv := Sim(fuel, g, f, cc, n, senv, env);
  }

  /** Agreement over two stretches of code, the second one with smaller numbers. */
  lemma AgreeJoin(env: GEnv, env1: GEnv, env2: GEnv, lo: nat, mid: nat, hi: nat, keep: nat,
                  lo2: nat, hi2: nat, keep2: nat)
    requires lo <= mid <= keep < hi && lo <= lo2 <= hi2 <= mid
    requires Agree(env, env1, mid, hi, keep) && Agree(env1, env2, lo2, hi2, keep2)
    ensures Agree(env, env2, lo, hi, keep)
  {
    forall x: Name | x.User? || !(lo <= x.id < hi) || x.id == keep
      ensures (x in env <==> x in env2) && (x in env ==> env2[x] == env[x])
    {
      assert x in env <==> x in env1;
      assert x in env1 <==> x in env2;
    }
  }

  /** One operand that is not an identifier, delivered to `cc`. */
  lemma {:induction false} SimOne(fuel: nat, g: Graph, e: Form, cc: Label, tmp: nat, n: nat, senv: SEnv, env: GEnv)
    returns (env': GEnv)
    requires Ranked(g, BY_LABEL) && Code(g, e, cc, n) && HasVars(g, cc, [Temp(tmp)]) && tmp < n
    requires NoPrimBound(e) && EnvRelated(g, senv, env)
    ensures Entry(e, n) in g && g[Entry(e, n)].Kargs?
    ensures var start := RunTerm(fuel, g, BY_LABEL, Entry(e, n), env);
      match Eval(fuel, senv, e)
      case SStuck => start == Stuck
      case STimeout => start == Timeout
      case SDone(v) =>
        && Temp(tmp) in env' && Related(g, v, env'[Temp(tmp)])
        && (exists env1 :: Agree(env, env1, n, Next(e, n), EntryTemp(e, n)) && env' == env1[Temp(tmp) := env'[Temp(tmp)]])
        && start == RunTerm(fuel, g, BY_LABEL, cc, env')
    decreases fuel, e, 2
  {
    hide Related, EnvRelated, Ranked, RunTerm, Run, Next, Entry, EntryTemp;
    var env1, gv := Sim(fuel, g, e, cc, n, senv, env);
    RunOne(fuel, g, cc, tmp, env1, gv);
    env' := env1[Temp(tmp) := gv];
  }

  lemma {:induction false} SimElems(fuel: nat, g: Graph, es: Forms, cc: Label, tmp: nat, n: nat, senv: SEnv, env: GEnv)
    returns (env': GEnv)
    requires Ranked(g, BY_LABEL) && CodeElems(g, es, cc, tmp, n) && cc in g && g[cc].Kargs? && tmp < n
    requires NoPrimBoundIn(es) && EnvRelated(g, senv, env)
    ensures EntryElems(es, cc, n) in g && g[EntryElems(es, cc, n)].Kargs?
    ensures var start := RunTerm(fuel, g, BY_LABEL, EntryElems(es, cc, n), env);
      match EvalOperands(fuel, senv, es)
      case OStuck => start == Stuck
      case OTimeout => start == Timeout
      case Operands(vals) =>
        && Held(g, env', es, tmp, n, vals)
        && Agree(env, env', tmp, NextElems(es, n), EntryTempElems(es, tmp, n))
        && start == RunTerm(fuel, g, BY_LABEL, cc, env')
    decreases fuel, es, 0
  {
    hide Related, EnvRelated, Ranked, RunTerm, Run, Agree, Next, Entry, EntryTemp;
    CodeEntryElems(g, es, cc, tmp, n);
    env' := env;
    var e := es.e;
    if es.Last? {
      AgreeSelf(env, tmp, NextElems(es, n), EntryTempElems(es, tmp, n));
      if !e.Var? {
        env' := SimOne(fuel, g, e, cc, tmp, n, senv, env);
        if Eval(fuel, senv, e).SDone? {
          AgreeElem(env, env, env', tmp, n, Next(e, n), Next(e, n), EntryTemp(e, n), EntryTemp(e, n));
        }
      }
    } else if e.Var? {
      env' := SimElems(fuel, g, es.rest, cc, tmp, n, senv, env);
    } else {
      var t, m := EntryTemp(e, n), Next(e, n);
      CodeEntry(g, e, cc, n);
      var env1 := SimElems(fuel, g, es.rest, Entry(e, n), t, m, senv, env);
      var later := EvalOperands(fuel, senv, es.rest);
      if later.Operands? {
        var hi, keep := NextElems(es, n), EntryTempElems(es, tmp, n);
        AgreeRelated(g, senv, env, env1, t, hi, keep);
        env' := SimOne(fuel, g, e, cc, tmp, n, senv, env1);
        if Eval(fuel, senv, e).SDone? {
          AgreeElem(env, env1, env', tmp, n, m, hi, t, keep);
          HeldAgree(g, env1, env', es.rest, t, m, later.vals);
        }
      }
    }
  }

  lemma AgreeElem(env: GEnv, env1: GEnv, env': GEnv, tmp: nat, n: nat, m: nat, hi: nat, t: nat, keep: nat)
    requires tmp < n <= t < m <= hi && (keep == t || m <= keep)
    requires (Agree(env, env1, t, hi, keep) || env == env1) && Temp(tmp) in env'
    requires exists env2 :: Agree(env1, env2, n, m, t) && env' == env2[Temp(tmp) := env'[Temp(tmp)]]
    ensures Agree(env, env', tmp, hi, keep)
    ensures forall x: nat :: (x == t || x >= m) && Temp(x) in env1 ==> Temp(x) in env' && env'[Temp(x)] == env1[Temp(x)]
  {
    var env2 :| Agree(env1, env2, n, m, t) && env' == env2[Temp(tmp) := env'[Temp(tmp)]];
    forall x: Name | x.User? || !(tmp <= x.id < hi) || x.id == keep
      ensures (x in env <==> x in env') && (x in env ==> env'[x] == env[x])
    {
      assert x in env <==> x in env1;
      assert x in env1 <==> x in env2;
    }
    forall x: nat | (x == t || x >= m) && Temp(x) in env1
      ensures Temp(x) in env' && env'[Temp(x)] == env1[Temp(x)]
    {
      assert Temp(x) in env2;
    }
  }

  lemma AgreeSelf(env: GEnv, lo: nat, hi: nat, keep: nat)
    ensures Agree(env, env, lo, hi, keep)
  {
  }

  /** Through the receiver of a call and the continuation after it, to `cc`. */
  lemma SimReturn(fuel: nat, g: Graph, cc: Label, n: nat, env: GEnv, gv: GValue)
    requires Ranked(g, BY_LABEL) && cc in g
    requires n + 2 in g && g[n + 2] == Kargs([Temp(n)], Continue(cc, EValues([Temp(n)])))
    requires n + 3 in g && g[n + 3] == Kreceive([Temp(n)], None, n + 2)
    ensures Run(fuel, g, BY_LABEL, n + 3, env, [gv]) == Run(fuel, g, BY_LABEL, cc, env[Temp(n) := gv], [gv])
  {
    var env1 := env[Temp(n) := gv];
    assert Received(1, false, [gv]) == [gv];
    RunOne(fuel, g, n + 2, n, env, gv);
    LookupOne(env1, Temp(n));
  }

  /** A call in direct evaluation, once its elements have been read. */
  function CallOutcome(fuel: nat, vs: seq<SValue>): SOutcome
    requires vs != []
  {
    match vs[0]
    case Primitive(p) =>
      var r := ApplyPrim(p, vs[1..]);
      if r.Some? then SDone(r.value) else SStuck
    case Closure(lam, cenv) =>
      if !ArityOk(|lam.params|, lam.rest.Some?, |vs| - 1) then SStuck
      else if fuel == 0 then STimeout
      else
        var got := Received(|lam.params|, lam.rest.Some?, vs[1..]);
        EvalBody(fuel - 1, Bind(cenv, ParamNames(lam.params, lam.rest), got), lam.body)
    case _ => SStuck
  }

  ghost predicate SameOutcome(g: Graph, o: SOutcome, r: Outcome, gv: GValue) {
    match o
    case SDone(v) => r == Done([gv]) && Related(g, v, gv)
    case SStuck => r == Stuck
    case STimeout => r == Timeout
  }

  lemma {:induction false} SimApply(fuel: nat, g: Graph, f: Form, svs: seq<SValue>, gvs: seq<GValue>)
    returns (gv: GValue)
    requires Ranked(g, BY_LABEL) && svs != [] && AllRelated(g, svs, gvs)
    ensures SameOutcome(g, CallOutcome(fuel, svs), Apply(fuel, g, BY_LABEL, gvs[0], gvs[1..]), gv)
    decreases fuel, f, 0, 1
  {
    gv := Null;
    assert Related(g, svs[0], gvs[0]);
    assert AllRelated(g, svs[1..], gvs[1..]);
    match svs[0]
    case Primitive(p) =>
      ApplyPrimRelated(g, p, svs[1..], gvs[1..]);
      if ApplyPrim(p, gvs[1..]).Some? {
        gv := ApplyPrim(p, gvs[1..]).value;
      }
    case Closure(lam, cenv) =>
      if ArityOk(|lam.params|, lam.rest.Some?, |svs| - 1) && fuel > 0 {
        gv := SimClosure(fuel, g, f, lam, cenv, gvs[0], svs[1..], gvs[1..]);
      }
    case _ =>
  }

  /** The call term, once every operand that is not an identifier is held. */
  lemma {:induction false} SimInvoke(fuel: nat, g: Graph, f: Form, cc: Label, n: nat, senv: SEnv, env: GEnv,
                                     vals: seq<Option<SValue>>)
    returns (gv: GValue)
    requires Ranked(g, BY_LABEL) && f.Call? && Code(g, f, cc, n) && EnvRelated(g, senv, env)
    requires EvalOperands(fuel, senv, f.elems) == Operands(vals) && Held(g, env, f.elems, n + 4, n + 6, vals)
    ensures match Eval(fuel, senv, f)
      case SDone(v) =>
        Related(g, v, gv) &&
        RunTerm(fuel, g, BY_LABEL, n + 5, env) == Run(fuel, g, BY_LABEL, n + 3, env, [gv])
      case SStuck => RunTerm(fuel, g, BY_LABEL, n + 5, env) == Stuck
      case STimeout => RunTerm(fuel, g, BY_LABEL, n + 5, env) == Timeout
    decreases fuel, f, 0, 2
  {
    hide EnvRelated, Ranked, Run, RunTerm, Apply, Related;
    gv := Null;
    var names := ElemNames(f.elems, n + 4, n + 6);
    ReadRelated(g, senv, env, f.elems, n + 4, n + 6, vals);
    var read := ReadVars(senv, f.elems, vals);
    if names[0].User? && IsPrim(names[0].s) {
      PrimUnbound(g, senv, env, names[0]);
    }
    RunCall(fuel, g, n + 5, n + 3, names, env);
    if read.Some? {
      gv := SimApply(fuel, g, f, read.value, LookupAll(env, names).value);
      assert Eval(fuel, senv, f) == CallOutcome(fuel, read.value);
    } else {
      assert Eval(fuel, senv, f) == SStuck;
    }
  }

  ghost function Resume(fuel: nat, g: Graph, k: Label, env: GEnv, o: Outcome): Outcome
    requires Ranked(g, BY_LABEL) && k in g
  {
    if o.Done? then Run(fuel, g, BY_LABEL, k, env, o.vs) else o
  }

  /** A call term looks its names up and applies the first to the others. */
  lemma RunCall(fuel: nat, g: Graph, k: Label, next: Label, names: seq<Name>, env: GEnv)
    requires Ranked(g, BY_LABEL) && names != [] && HasTerm(g, k, Continue(next, CallExpr(names)))
    requires names[0].User? && IsPrim(names[0].s) ==> Lookup(env, names[0]) == Some(Primitive(names[0].s.op))
    ensures var vs := LookupAll(env, names);
      RunTerm(fuel, g, BY_LABEL, k, env) ==
      if vs.None? then Stuck
      else Resume(fuel, g, next, env, Apply(fuel, g, BY_LABEL, vs.value[0], vs.value[1..]))
  {
    LookupCons(env, names);
  }

  lemma LookupCons(env: GEnv, names: seq<Name>)
    requires names != []
    ensures var v, vs, r := Lookup(env, names[0]), LookupAll(env, names[1..]), LookupAll(env, names);
      r.Some? == (v.Some? && vs.Some?) && (r.Some? ==> r.value[0] == v.value && r.value[1..] == vs.value)
  {
  }

  lemma PrimUnbound(g: Graph, senv: SEnv, env: GEnv, x: Name)
    requires EnvRelated(g, senv, env) && x.User? && IsPrim(x.s)
    ensures Lookup(env, x) == Some(Primitive(x.s.op))
  {
    assert User(x.s) in env <==> x.s in senv;
  }

  /** Applying a closure runs the code of its lambda's body to its tail. */
  lemma {:induction false} SimClosure(fuel: nat, g: Graph, f: Form, lam: Lam, cenv: SEnv, clo: GValue,
                                    svs: seq<SValue>, gvs: seq<GValue>)
    returns (gv: GValue)
    requires Ranked(g, BY_LABEL) && fuel > 0
    requires Related(g, Closure(lam, cenv), clo) && AllRelated(g, svs, gvs)
    requires ArityOk(|lam.params|, lam.rest.Some?, |svs|)
    ensures var xs := ParamNames(lam.params, lam.rest);
      var r := Apply(fuel, g, BY_LABEL, clo, gvs);
      match EvalBody(fuel - 1, Bind(cenv, xs, Received(|lam.params|, lam.rest.Some?, svs)), lam.body)
      case SDone(v) => r == Done([gv]) && Related(g, v, gv)
      case SStuck => r == Stuck
      case STimeout => r == Timeout
    decreases fuel, f, 0, 0
  {
    hide Ranked, RunTerm, Next, Entry, EntryTemp;
    var n := clo.code - 1;
    var xs := ParamNames(lam.params, lam.rest);
    var sgot := Received(|lam.params|, lam.rest.Some?, svs);
    var ggot := Received(|lam.params|, lam.rest.Some?, gvs);
    ReceivedRelated(g, |lam.params|, lam.rest.Some?, svs, gvs);
    assert EnvRelated(g, cenv, clo.env);
    BindRelated(g, cenv, clo.env, xs, UserNames(xs), sgot, ggot);
    var env, r := SimBody(fuel - 1, g, lam.body, n, n + 2, Bind(cenv, xs, sgot), Bind(clo.env, UserNames(xs), ggot));
    gv := r;
  }

  lemma {:induction false} SimCall(fuel: nat, g: Graph, f: Form, cc: Label, n: nat, senv: SEnv, env: GEnv)
    returns (env': GEnv, gv: GValue)
    requires Ranked(g, BY_LABEL) && f.Call? && Code(g, f, cc, n) && cc in g
    requires NoPrimBound(f) && EnvRelated(g, senv, env)
    requires Entry(f, n) in g && g[Entry(f, n)].Kargs?
    ensures Simulates(fuel, g, Eval(fuel, senv, f), Entry(f, n), cc, env, env', gv, n, Next(f, n), EntryTemp(f, n))
    decreases fuel, f, 0, 3
  {
    hide Related, EnvRelated, Ranked, RunTerm, Run;
    env' := SimElems(fuel, g, f.elems, n + 5, n + 4, n + 6, senv, env);
    gv := Null;
    var ops := EvalOperands(fuel, senv, f.elems);
    if ops.Operands? {
      assert Agree(env, env', n, Next(f, n), EntryTemp(f, n));
      AgreeRelated(g, senv, env, env', n, Next(f, n), EntryTemp(f, n));
      gv := SimInvoke(fuel, g, f, cc, n, senv, env', ops.vals);
      SimReturn(fuel, g, cc, n, env', gv);
      env' := env'[Temp(n) := gv];
    }
  }

  // -------------------------------------------------------- main theorems

  /** Running the code of a form with a tail as its continuation comes out as
      direct evaluation does, at every depth of nested calls. */
  lemma TranslationCorrect(fuel: nat, g: Graph, f: Form, tail: Label, n: nat, senv: SEnv, env: GEnv)
    returns (gv: GValue)
    requires Ranked(g, BY_LABEL) && Code(g, f, tail, n) && tail in g && g[tail] == Ktail
    requires NoPrimBound(f) && EnvRelated(g, senv, env)
    ensures Entry(f, n) in g && g[Entry(f, n)].Kargs?
    ensures SameOutcome(g, Eval(fuel, senv, f), RunTerm(fuel, g, BY_LABEL, Entry(f, n), env), gv)
  {
    var env';
    env', gv := Sim(fuel, g, f, tail, n, senv, env);
  }

  lemma {:induction false} DatumRelated(g: Graph, sv: SValue, d: Datum)
    requires Related(g, sv, Embed<Name, Label>(d))
    ensures sv == Embed(d)
    decreases d
  {
    match d
    case DPair(a, b) => DatumRelated(g, sv.car, a); DatumRelated(g, sv.cdr, b);
    case _ =>
  }

  /** A program delivers a datum exactly when its translation delivers the same one. */
  lemma SameDatum(fuel: nat, g: Graph, f: Form, tail: Label, n: nat, senv: SEnv, env: GEnv, d: Datum)
    requires Ranked(g, BY_LABEL) && Code(g, f, tail, n) && tail in g && g[tail] == Ktail
    requires NoPrimBound(f) && EnvRelated(g, senv, env)
    ensures Entry(f, n) in g && g[Entry(f, n)].Kargs?
    ensures Eval(fuel, senv, f) == SDone(Embed(d)) <==>
            RunTerm(fuel, g, BY_LABEL, Entry(f, n), env) == Done([Embed<Name, Label>(d)])
  {
    hide Code, Eval, RunTerm, EnvRelated, Ranked, NoPrimBound;
    var gv := TranslationCorrect(fuel, g, f, tail, n, senv, env);
    var o := Eval(fuel, senv, f);
    if o == SDone(Embed(d)) {
      RelatedDatum(g, d, gv);
    }
    if o.SDone? && gv == Embed<Name, Label>(d) {
      DatumRelated(g, o.v, d);
    }
  }
}
