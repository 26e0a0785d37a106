/** How often a variable is used, counted over the whole walk, and why a procedure called
    once is the only one its variable can be bound to. */
module CpsUsage {
  import opened Wrappers
  import opened CpsLang
  import opened CpsConst
  import opened CpsCollect
  import opened CpsScope

  function Occurs(xs: seq<Name>, x: Name): nat {
    if xs == [] then 0 else (if xs[0] == x then 1 else 0) + Occurs(xs[1..], x)
  }

  /** Arguments of a call count as uses and as escapes. */
  datatype Tally = Tally(used: int, escapes: int)

  function Plus(a: Tally, b: Tally): Tally {
    Tally(a.used + b.used, a.escapes + b.escapes)
  }

  function TallyOf(e: Expr, x: Name): Tally {
    match e
    case EValues(args) => Tally(Occurs(args, x), 0)
    case EPrimcall(_, args) => Tally(Occurs(args, x), 0)
    case ECall(f, args) => Tally((if f == x then 1 else 0) + Occurs(args, x), Occurs(args, x))
    case _ => Tally(0, 0)
  }

  /** What the walk from `k` adds to the global record of `x`. */
  ghost function Usage(g: Graph, deep: Rank, k: Label, x: Name): Tally
    requires Acyclic(g, deep) && k in g
    decreases deep(k)
  {
    match g[k]
    case Ktail => Tally(0, 0)
    case Kreceive(_, _, next) => assert Leads(g[k], next); Usage(g, deep, next, x)
    case Kproc(_, _, _, body) => assert Leads(g[k], body); Usage(g, deep, body, x)
    case Kargs(_, Branch(a, kt, kf)) =>
      assert Leads(g[k], kt) && Leads(g[k], kf);
      Plus(Tally(if a == x then 1 else 0, 0), Plus(Usage(g, deep, kt, x), Usage(g, deep, kf, x)))
    case Kargs(_, Continue(next, e)) =>
      assert Leads(g[k], next) && (e.EProc? ==> Leads(g[k], e.k));
      Plus(if e.EProc? then Usage(g, deep, e.k, x) else TallyOf(e, x), Usage(g, deep, next, x))
  }

  lemma UsageOn(g: Graph, deep: Rank, k: Label, next: Label, x: Name)
    requires Acyclic(g, deep) && k in g && (g[k].Kreceive? || g[k].Kproc?) && next == if g[k].Kproc? then g[k].body else g[k].k
    ensures next in g && Usage(g, deep, k, x) == Usage(g, deep, next, x)
  {
    assert Leads(g[k], next);
  }

  lemma UsageContinue(g: Graph, deep: Rank, k: Label, x: Name)
    requires Acyclic(g, deep) && k in g && g[k].Kargs? && g[k].term.Continue?
    ensures var next, e := g[k].term.k, g[k].term.expr;
      && next in g && (e.EProc? ==> e.k in g)
      && Usage(g, deep, k, x) == Plus(if e.EProc? then Usage(g, deep, e.k, x) else TallyOf(e, x), Usage(g, deep, next, x))
  {
    var e := g[k].term.expr;
    assert Leads(g[k], g[k].term.k) && (e.EProc? ==> Leads(g[k], e.k));
  }

  /** How often the walk comes by `l`. */
  ghost function Comes(g: Graph, deep: Rank, k: Label, l: Label): nat
    requires Acyclic(g, deep) && k in g
    decreases deep(k)
  {
    (if k == l then 1 else 0) +
    match g[k]
    case Ktail => 0
    case Kreceive(_, _, next) => assert Leads(g[k], next); Comes(g, deep, next, l)
    case Kproc(_, _, _, body) => assert Leads(g[k], body); Comes(g, deep, body, l)
    case Kargs(_, Branch(_, kt, kf)) =>
      assert Leads(g[k], kt) && Leads(g[k], kf);
      Comes(g, deep, kt, l) + Comes(g, deep, kf, l)
    case Kargs(_, Continue(next, e)) =>
      assert Leads(g[k], next) && (e.EProc? ==> Leads(g[k], e.k));
      Comes(g, deep, next, l) + (if e.EProc? then Comes(g, deep, e.k, l) else 0)
  }

  /** A call is counted every time the walk comes by it. */
  lemma {:induction false} ComesUsed(g: Graph, deep: Rank, k: Label, l: Label)
    requires Acyclic(g, deep) && k in g && l in g && g[l].Kargs? && g[l].term.Continue? && g[l].term.expr.ECall?
    ensures Comes(g, deep, k, l) <= Usage(g, deep, k, g[l].term.expr.proc).used
    decreases deep(k)
  {
    match g[k]
    case Ktail =>
    case Kreceive(_, _, next) =>
      assert Leads(g[k], next);
      ComesUsed(g, deep, next, l);
    case Kproc(_, _, _, body) =>
      assert Leads(g[k], body);
      ComesUsed(g, deep, body, l);
    case Kargs(_, Branch(_, kt, kf)) =>
      assert Leads(g[k], kt) && Leads(g[k], kf);
      ComesUsed(g, deep, kt, l);
      ComesUsed(g, deep, kf, l);
    case Kargs(_, Continue(next, e)) =>
      assert Leads(g[k], next);
      ComesUsed(g, deep, next, l);
      if e.EProc? {
        assert Leads(g[k], e.k);
        ComesUsed(g, deep, e.k, l);
      }
  }

  // ------------------------------------------------------- what the counts mean

  /** Where the walk goes on from a continuation, a procedure's code first. */
  function Nexts(k: Kont): (ls: seq<Label>)
    ensures |ls| <= 2 && forall i :: 0 <= i < |ls| ==> Leads(k, ls[i])
  {
    match k
    case Ktail => []
    case Kreceive(_, _, next) => [next]
    case Kproc(_, _, _, body) => [body]
    case Kargs(_, Branch(_, kt, kf)) => [kt, kf]
    case Kargs(_, Continue(next, e)) => (if e.EProc? then [e.k] else []) + [next]
  }

  /** The labels the walk comes by, one after the other. */
  ghost function Walk(g: Graph, deep: Rank, k: Label): seq<Label>
    requires Acyclic(g, deep) && k in g
    decreases deep(k)
  {
    var ls := Nexts(g[k]);
    [k] + ((if |ls| > 0 then Walk(g, deep, ls[0]) else []) + (if |ls| > 1 then Walk(g, deep, ls[1]) else []))
  }

  /** The operands of a continuation, and those it passes to a procedure. */
  function Operands(k: Kont): seq<Name> {
    match k
    case Kargs(_, Branch(x, _, _)) => [x]
    case Kargs(_, Continue(_, EValues(args))) => args
    case Kargs(_, Continue(_, EPrimcall(_, args))) => args
    case Kargs(_, Continue(_, ECall(f, args))) => [f] + args
    case _ => []
  }

  function Passed(k: Kont): seq<Name> {
    if k.Kargs? && k.term.Continue? && k.term.expr.ECall? then k.term.expr.args else []
  }

  /** How often `x` is among them. */
  function Times(k: Kont, x: Name): Tally {
    Tally(multiset(Operands(k))[x], multiset(Passed(k))[x])
  }

  function Along(g: Graph, ls: seq<Label>, x: Name): Tally {
    if ls == [] then Tally(0, 0) else Plus(if ls[0] in g then Times(g[ls[0]], x) else Tally(0, 0), Along(g, ls[1..], x))
  }

  lemma {:induction false} AlongBoth(g: Graph, ls: seq<Label>, ms: seq<Label>, x: Name)
    ensures Along(g, ls + ms, x) == Plus(Along(g, ls, x), Along(g, ms, x))
  {
    if ls == [] {
      AlongNone(g, x);
      hide Along;
      assert ls + ms == ms;
      PlusNone(Along(g, ms, x));
    } else {
      hide Times, Along, Plus;
      var all := ls + ms;
      assert all[0] == ls[0] && all[1..] == ls[1..] + ms;
      AlongBoth(g, ls[1..], ms, x);
      AlongFirst(g, all, x);
      AlongFirst(g, ls, x);
      PlusAssociative(if ls[0] in g then Times(g[ls[0]], x) else Tally(0, 0), Along(g, ls[1..], x), Along(g, ms, x));
    }
  }

  lemma PlusNone(a: Tally)
    ensures Plus(Tally(0, 0), a) == a == Plus(a, Tally(0, 0))
  {
  }

  lemma PlusAssociative(a: Tally, b: Tally, c: Tally)
    ensures Plus(a, Plus(b, c)) == Plus(Plus(a, b), c)
  {
  }

  lemma AlongNone(g: Graph, x: Name)
    ensures Along(g, [], x) == Tally(0, 0)
  {
  }

  lemma AlongFirst(g: Graph, ls: seq<Label>, x: Name)
    requires ls != []
    ensures Along(g, ls, x) == Plus(if ls[0] in g then Times(g[ls[0]], x) else Tally(0, 0), Along(g, ls[1..], x))
  {
    hide Times;
  }

  lemma {:induction false} OccursMeans(xs: seq<Name>, x: Name)
    ensures Occurs(xs, x) == multiset(xs)[x]
  {
    if xs != [] {
      OccursMeans(xs[1..], x);
      assert xs == [xs[0]] + xs[1..];
    }
  }

  lemma TimesContinue(k: Kont, x: Name)
    requires k.Kargs? && k.term.Continue?
    ensures Times(k, x) == TallyOf(k.term.expr, x) && (k.term.expr.EProc? ==> Times(k, x) == Tally(0, 0))
  {
    match k.term.expr
    case EValues(args) => OccursMeans(args, x);
    case EPrimcall(_, args) => OccursMeans(args, x);
    case ECall(f, args) => OccursMeans(args, x);
    case _ =>
  }

  lemma TimesOther(k: Kont, x: Name)
    requires !(k.Kargs? && k.term.Continue?)
    ensures Times(k, x) == Tally(if k.Kargs? && k.term.arg == x then 1 else 0, 0)
  {
  }

  /** What a continuation adds, and what the walks from it add. */
  lemma UsageParts(g: Graph, deep: Rank, k: Label, x: Name)
    requires Acyclic(g, deep) && k in g
    ensures var ls := Nexts(g[k]);
      && (forall i :: 0 <= i < |ls| ==> ls[i] in g)
      && Usage(g, deep, k, x) == Plus(Times(g[k], x),
           Plus(if |ls| > 0 then Usage(g, deep, ls[0], x) else Tally(0, 0), if |ls| > 1 then Usage(g, deep, ls[1], x) else Tally(0, 0)))
  {
    hide Usage, TallyOf, Times, Plus;
    PlusNone(Tally(0, 0));
    if g[k].Kargs? && g[k].term.Continue? {
      var e := g[k].term.expr;
      UsageContinue(g, deep, k, x);
      TimesContinue(g[k], x);
      PlusNone(Usage(g, deep, g[k].term.k, x));
      PlusNone(Plus(TallyOf(e, x), Usage(g, deep, g[k].term.k, x)));
      if e.EProc? {
        PlusNone(Plus(Usage(g, deep, e.k, x), Usage(g, deep, g[k].term.k, x)));
      }
    } else {
      TimesOther(g[k], x);
      if g[k].Kargs? {
        UsageBranch(g, deep, k, x);
      } else if g[k].Ktail? {
        UsageTail(g, deep, k, x);
      } else {
        var next := if g[k].Kproc? then g[k].body else g[k].k;
        UsageOn(g, deep, k, next, x);
        PlusNone(Usage(g, deep, next, x));
      }
    }
  }

  lemma UsageTail(g: Graph, deep: Rank, k: Label, x: Name)
    requires Acyclic(g, deep) && k in g && g[k].Ktail?
    ensures Usage(g, deep, k, x) == Tally(0, 0)
  {
  }

  /** Every operand of every continuation the walk comes by is counted once each time, and
      nothing else: as a use, and as an escape where it is passed to a procedure. */
  lemma {:induction false} UsageMeans(g: Graph, deep: Rank, k: Label, x: Name)
    requires Acyclic(g, deep) && k in g
    ensures Usage(g, deep, k, x) == Along(g, Walk(g, deep, k), x)
    decreases deep(k)
  {
    hide Times, Usage, Nexts, Along, Plus;
    var ls := Nexts(g[k]);
    UsageParts(g, deep, k, x);
    AlongNone(g, x);
    var first, second := [], [];
    if |ls| > 0 {
      UsageMeans(g, deep, ls[0], x);
      first := Walk(g, deep, ls[0]);
    }
    if |ls| > 1 {
      UsageMeans(g, deep, ls[1], x);
      second := Walk(g, deep, ls[1]);
    }
    AlongBoth(g, first, second, x);
    AlongAfter(g, k, first + second, x);
  }

  lemma AlongAfter(g: Graph, k: Label, ls: seq<Label>, x: Name)
    requires k in g
    ensures Along(g, [k] + ls, x) == Plus(Times(g[k], x), Along(g, ls, x))
  {
    hide Times, Along;
    AlongFirst(g, [k] + ls, x);
    assert ([k] + ls)[1..] == ls;
  }

  /** The walk comes by what is reached, and by nothing else. */
  lemma {:induction false} WalkReaches(g: Graph, deep: Rank, k: Label, l: Label)
    requires Acyclic(g, deep) && k in g
    ensures l in Walk(g, deep, k) <==> l in Reach(g, deep, k)
    decreases deep(k)
  {
    var ls := Nexts(g[k]);
    if |ls| > 0 {
      WalkReaches(g, deep, ls[0], l);
    }
    if |ls| > 1 {
      WalkReaches(g, deep, ls[1], l);
    }
  }

  /** The walk leaves information only where it comes by. */
  lemma {:induction false} InfoComes(g: Graph, deep: Rank, t: Table, e: Option<Expr>, k: Label, path: seq<nat>, l: Label)
    requires Acyclic(g, deep) && k in g && l in Info(g, deep, t, e, k, path)
    ensures Comes(g, deep, k, l) > 0
    decreases deep(k)
  {
    match g[k]
    case Kreceive(_, _, next) =>
      assert Leads(g[k], next);
      InfoComes(g, deep, t, e, next, path, l);
    case Kproc(_, _, _, body) =>
      assert Leads(g[k], body);
      InfoComes(g, deep, Define(t, Names(g[k]), None, path + [k]), None, body, path + [k], l);
    case Kargs(vars, term) =>
      var u := Arrival(t, vars, e, path + [k]);
      if l != k {
        match term
        case Branch(_, kt, kf) =>
          assert Leads(g[k], kt) && Leads(g[k], kf);
          if l in Info(g, deep, u, None, kt, path + [k, 1]) {
            InfoComes(g, deep, u, None, kt, path + [k, 1], l);
          } else {
            InfoComes(g, deep, u, None, kf, path + [k, 0], l);
          }
        case Continue(next, x) =>
          assert Leads(g[k], next);
          if l in Info(g, deep, u, Some(x), next, path + [k, 0]) {
            InfoComes(g, deep, u, Some(x), next, path + [k, 0], l);
          } else {
            assert Leads(g[k], x.k);
            InfoComes(g, deep, u, Some(x), x.k, path + [k, 1], l);
          }
      }
  }

  /** No variable has alternatives. */
  predicate Singles(t: Table) {
    forall x :: x in t ==> |t[x]| == 1
  }

  /** Alternatives come from joins: where the walk comes by once there are none. */
  lemma {:induction false} InfoSingles(g: Graph, deep: Rank, t: Table, e: Option<Expr>, k: Label, path: seq<nat>, l: Label)
    requires Acyclic(g, deep) && k in g && l in Info(g, deep, t, e, k, path)
    requires Singles(t) && Comes(g, deep, k, l) <= 1
    ensures Singles(Info(g, deep, t, e, k, path)[l])
    decreases deep(k)
  {
    match g[k]
    case Kreceive(_, _, next) =>
      assert Leads(g[k], next);
      InfoSingles(g, deep, t, e, next, path, l);
    case Kproc(_, _, _, body) =>
      assert Leads(g[k], body);
      InfoSingles(g, deep, Define(t, Names(g[k]), None, path + [k]), None, body, path + [k], l);
    case Kargs(vars, term) =>
      var u := Arrival(t, vars, e, path + [k]);
      match term
      case Branch(_, kt, kf) =>
        assert Leads(g[k], kt) && Leads(g[k], kf);
        if l in Info(g, deep, u, None, kt, path + [k, 1]) {
          InfoComes(g, deep, u, None, kt, path + [k, 1], l);
          InfoSingles(g, deep, u, None, kt, path + [k, 1], l);
        }
        if l in Info(g, deep, u, None, kf, path + [k, 0]) {
          InfoComes(g, deep, u, None, kf, path + [k, 0], l);
          InfoSingles(g, deep, u, None, kf, path + [k, 0], l);
        }
      case Continue(next, x) =>
        assert Leads(g[k], next);
        if l in Info(g, deep, u, Some(x), next, path + [k, 0]) {
          InfoSingles(g, deep, u, Some(x), next, path + [k, 0], l);
        } else if l in InfoProc(g, deep, u, k, path) {
          assert Leads(g[k], x.k);
          InfoSingles(g, deep, u, Some(x), x.k, path + [k, 1], l);
        }
  }

  /** The guard of the pass: the first record of the operator is a procedure, and the one
      use there is of it in the whole program is no argument. */
  ghost predicate CalledOnce(g: Graph, deep: Rank, entry: Label, s: VarInfo, at: Label, code: Label)
    requires Acyclic(g, deep) && entry in g
  {
    && at in g && g[at].Kargs? && g[at].term.Continue? && g[at].term.expr.ECall? && at in s
    && var x := g[at].term.expr.proc;
       Known(s[at], x) && s[at][x][0].binding == Some(EProc(code)) && Usage(g, deep, entry, x) == Tally(1, 0)
  }

  /** What is called once has no alternatives where it is called. */
  lemma OnceOnly(g: Graph, deep: Rank, entry: Label, s: VarInfo, at: Label, code: Label)
    requires Acyclic(g, deep) && entry in g && s == Info(g, deep, map[], None, entry, [])
    requires CalledOnce(g, deep, entry, s, at, code)
    ensures AllProc(s[at][g[at].term.expr.proc], code)
  {
    hide Info, Usage, Comes, Acyclic;
    ComesUsed(g, deep, entry, at);
    InfoSingles(g, deep, map[], None, entry, [], at);
  }

  // ------------------------------------------------------------------ counting

  /** The counters of the global table, a missing entry counting nothing. */
  datatype Tallies = Tallies(used: map<Name, int>, escapes: map<Name, int>)

  function Count(counts: map<Name, int>, x: Name): int {
    if x in counts then counts[x] else 0
  }

  function Had(t: Tallies, x: Name): Tally {
    Tally(Count(t.used, x), Count(t.escapes, x))
  }

  function Counted(t: Tallies, y: Name, escape: bool): Tallies {
    Tallies(t.used[y := Count(t.used, y) + 1], if escape then t.escapes[y := Count(t.escapes, y) + 1] else t.escapes)
  }

  function CountedArgs(t: Tallies, args: seq<Name>, escape: bool): Tallies
    decreases args
  {
    if args == [] then t else CountedArgs(Counted(t, args[0], escape), args[1..], escape)
  }

  function CountedExpr(t: Tallies, e: Expr): Tallies {
    match e
    case EValues(args) => CountedArgs(t, args, false)
    case EPrimcall(_, args) => CountedArgs(t, args, false)
    case ECall(f, args) => CountedArgs(Counted(t, f, false), args, true)
    case _ => t
  }

  /** The walk threads one global table. */
  ghost function CountedUses(g: Graph, deep: Rank, t: Tallies, k: Label): Tallies
    requires Acyclic(g, deep) && k in g
    decreases deep(k)
  {
    match g[k]
    case Ktail => t
    case Kreceive(_, _, next) => assert Leads(g[k], next); CountedUses(g, deep, t, next)
    case Kproc(_, _, _, body) => assert Leads(g[k], body); CountedUses(g, deep, t, body)
    case Kargs(_, Branch(a, kt, kf)) =>
      assert Leads(g[k], kt) && Leads(g[k], kf);
      CountedUses(g, deep, CountedUses(g, deep, Counted(t, a, false), kt), kf)
    case Kargs(_, Continue(next, e)) =>
      assert Leads(g[k], next) && (e.EProc? ==> Leads(g[k], e.k));
      CountedUses(g, deep, if e.EProc? then CountedUses(g, deep, t, e.k) else CountedExpr(t, e), next)
  }

  lemma OneCounted(t: Tallies, y: Name, escape: bool, x: Name)
    ensures var u := Counted(t, y, escape);
      && Count(u.used, x) == Count(t.used, x) + (if y == x then 1 else 0)
      && Count(u.escapes, x) == Count(t.escapes, x) + (if y == x && escape then 1 else 0)
  {
  }

  lemma {:induction false} ArgsCounted(t: Tallies, args: seq<Name>, escape: bool, x: Name)
    ensures var u := CountedArgs(t, args, escape);
      && Count(u.used, x) == Count(t.used, x) + Occurs(args, x)
      && Count(u.escapes, x) == Count(t.escapes, x) + (if escape then Occurs(args, x) else 0)
    decreases args
  {
    hide Counted, Count;
    if args != [] {
      OneCounted(t, args[0], escape, x);
      ArgsCounted(Counted(t, args[0], escape), args[1..], escape, x);
    }
  }

  lemma ExprCounted(t: Tallies, e: Expr, x: Name)
    ensures Had(CountedExpr(t, e), x) == Plus(Had(t, x), TallyOf(e, x))
  {
    hide Counted, Count, CountedArgs, Occurs;
    match e
    case EValues(args) => ArgsCounted(t, args, false, x);
    case EPrimcall(_, args) => ArgsCounted(t, args, false, x);
    case ECall(f, args) =>
      OneCounted(t, f, false, x);
      ArgsCounted(Counted(t, f, false), args, true, x);
    case _ =>
  }

  lemma CountedBranch(g: Graph, deep: Rank, t: Tallies, k: Label)
    requires Acyclic(g, deep) && k in g && g[k].Kargs? && g[k].term.Branch?
    ensures var a, kt, kf := g[k].term.arg, g[k].term.kt, g[k].term.kf;
      kt in g && kf in g && CountedUses(g, deep, t, k) == CountedUses(g, deep, CountedUses(g, deep, Counted(t, a, false), kt), kf)
  {
    assert Leads(g[k], g[k].term.kt) && Leads(g[k], g[k].term.kf);
  }

  lemma CountedContinue(g: Graph, deep: Rank, t: Tallies, k: Label)
    requires Acyclic(g, deep) && k in g && g[k].Kargs? && g[k].term.Continue?
    ensures var next, e := g[k].term.k, g[k].term.expr;
      && next in g && (e.EProc? ==> e.k in g)
      && CountedUses(g, deep, t, k) ==
           CountedUses(g, deep, if e.EProc? then CountedUses(g, deep, t, e.k) else CountedExpr(t, e), next)
  {
    var e := g[k].term.expr;
    assert Leads(g[k], g[k].term.k) && (e.EProc? ==> Leads(g[k], e.k));
  }

  lemma UsageBranch(g: Graph, deep: Rank, k: Label, x: Name)
    requires Acyclic(g, deep) && k in g && g[k].Kargs? && g[k].term.Branch?
    ensures var a, kt, kf := g[k].term.arg, g[k].term.kt, g[k].term.kf;
      && kt in g && kf in g
      && Usage(g, deep, k, x) == Plus(Tally(if a == x then 1 else 0, 0), Plus(Usage(g, deep, kt, x), Usage(g, deep, kf, x)))
  {
    assert Leads(g[k], g[k].term.kt) && Leads(g[k], g[k].term.kf);
  }

  /** The table ends with what was there and all uses the walk has come by. */
  lemma {:induction false} UsesCounted(g: Graph, deep: Rank, t: Tallies, k: Label, x: Name)
    requires Acyclic(g, deep) && k in g
    ensures Had(CountedUses(g, deep, t, k), x) == Plus(Had(t, x), Usage(g, deep, k, x))
    decreases deep(k), 1
  {
    hide Counted, Count, CountedExpr, TallyOf;
    match g[k]
    case Ktail =>
    case Kreceive(_, _, next) =>
      assert Leads(g[k], next);
      UsesCounted(g, deep, t, next, x);
    case Kproc(_, _, _, body) =>
      assert Leads(g[k], body);
      UsesCounted(g, deep, t, body, x);
    case Kargs(_, _) => UsesCountedArgs(g, deep, t, k, x);
  }

  lemma {:induction false} UsesCountedArgs(g: Graph, deep: Rank, t: Tallies, k: Label, x: Name)
    requires Acyclic(g, deep) && k in g && g[k].Kargs?
    ensures Had(CountedUses(g, deep, t, k), x) == Plus(Had(t, x), Usage(g, deep, k, x))
    decreases deep(k), 0
  {
    hide Counted, Count, CountedExpr, TallyOf, CountedUses, Usage;
    if g[k].term.Branch? {
      var a, kt, kf := g[k].term.arg, g[k].term.kt, g[k].term.kf;
      CountedBranch(g, deep, t, k);
      UsageBranch(g, deep, k, x);
      var u := Counted(t, a, false);
      assert Had(u, x) == Plus(Had(t, x), Tally(if a == x then 1 else 0, 0)) by { OneCounted(t, a, false, x); }
      UsesCountedNext(g, deep, u, k, kt, x);
      UsesCountedNext(g, deep, CountedUses(g, deep, u, kt), k, kf, x);
    } else {
      var next, e := g[k].term.k, g[k].term.expr;
      CountedContinue(g, deep, t, k);
      UsageContinue(g, deep, k, x);
      var u := if e.EProc? then CountedUses(g, deep, t, e.k) else CountedExpr(t, e);
      if e.EProc? {
        UsesCountedNext(g, deep, t, k, e.k, x);
      } else {
        ExprCounted(t, e, x);
      }
      UsesCountedNext(g, deep, u, k, next, x);
    }
  }

  lemma {:induction false} UsesCountedNext(g: Graph, deep: Rank, t: Tallies, k: Label, next: Label, x: Name)
    requires Acyclic(g, deep) && k in g && Leads(g[k], next)
    ensures next in g && Had(CountedUses(g, deep, t, next), x) == Plus(Had(t, x), Usage(g, deep, next, x))
    decreases deep(k), 0, 0
  {
    UsesCounted(g, deep, t, next, x);
  }

  method CountArgs(t: Tallies, args: seq<Name>, escape: bool) returns (u: Tallies)
    ensures u == CountedArgs(t, args, escape)
  {
    u := t;
    var rest := args;
    while rest != []
      invariant CountedArgs(u, rest, escape) == CountedArgs(t, args, escape)
    {
      u := Counted(u, rest[0], escape);
      rest := rest[1..];
    }
  }

  method CountExpr(t: Tallies, e: Expr) returns (u: Tallies)
    ensures u == CountedExpr(t, e)
  {
    match e {
      case EValues(args) => u := CountArgs(t, args, false);
      case EPrimcall(_, args) => u := CountArgs(t, args, false);
      case ECall(f, args) => u := CountArgs(Counted(t, f, false), args, true);
      case _ => u := t;
    }
  }

  method CountUses(g: Graph, ghost deep: Rank, t: Tallies, k: Label) returns (u: Tallies)
    requires Acyclic(g, deep) && k in g
    ensures u == CountedUses(g, deep, t, k)
    decreases deep(k)
  {
    u := t;
    match g[k] {
      case Ktail =>
      case Kreceive(_, _, next) =>
        assert Leads(g[k], next);
        u := CountUses(g, deep, u, next);
      case Kproc(_, _, _, body) =>
        assert Leads(g[k], body);
        u := CountUses(g, deep, u, body);
      case Kargs(_, Branch(a, kt, kf)) =>
        assert Leads(g[k], kt) && Leads(g[k], kf);
        u := CountUses(g, deep, Counted(u, a, false), kt);
        u := CountUses(g, deep, u, kf);
      case Kargs(_, Continue(next, e)) =>
        assert Leads(g[k], next);
        if e.EProc? {
          assert Leads(g[k], e.k);
          u := CountUses(g, deep, u, e.k);
        } else {
          u := CountExpr(u, e);
        }
        u := CountUses(g, deep, u, next);
    }
  }
}
