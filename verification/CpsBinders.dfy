/** In a program no two of whose lambdas bind the same identifier, no variable is bound
    by two continuations that the program leads to. */
module CpsBinders {
  import opened CpsValues
  import opened CpsLang
  import opened CpsTranslate
  import opened CpsTranslator
  import opened CpsConst
  import opened CpsCollect
  import opened CpsFolding
  import opened CpsProgram

  function Binders(f: Form): set<Sym> {
    match f
    case If(c, t, e) => Binders(c) + Binders(t) + Binders(e)
    case Begin(body) => BindersIn(body)
    case Lambda(lam) => Params(lam) + BindersIn(lam.body)
    case Call(elems) => BindersIn(elems)
    case _ => {}
  }

  function BindersIn(fs: Forms): set<Sym> {
    match fs
    case Last(e) => Binders(e)
    case More(e, rest) => Binders(e) + BindersIn(rest)
  }

  /** No identifier is bound by two lambdas, as the expander renames them. */
  predicate Unique(f: Form) {
    match f
    case If(c, t, e) =>
      && Unique(c) && Unique(t) && Unique(e)
      && Binders(c) !! Binders(t) && Binders(c) !! Binders(e) && Binders(t) !! Binders(e)
    case Begin(body) => UniqueIn(body)
    case Lambda(lam) => UniqueIn(lam.body) && Params(lam) !! BindersIn(lam.body)
    case Call(elems) => UniqueIn(elems)
    case _ => true
  }

  predicate UniqueIn(fs: Forms) {
    match fs
    case Last(e) => Unique(e)
    case More(e, rest) => Unique(e) && UniqueIn(rest) && Binders(e) !! BindersIn(rest)
  }

  /** The identifiers a continuation binds. */
  function Users(g: Graph, l: Label): set<Sym> {
    if l in g && g[l].Kargs? then set x | x in g[l].vars && x.User? :: x.s else {}
  }

  /** What `k` leads to and `cc` does not binds identifiers of `bs` only, each in one place
      if that is asked (`once`). */
  ghost predicate Owned(g: Graph, k: Label, cc: Label, bs: set<Sym>, once: bool)
    requires Acyclic(g, Deep(g))
  {
    k in g && cc in g &&
    (forall l :: l in Reach(g, Deep(g), k) ==> l in Reach(g, Deep(g), cc) || Users(g, l) <= bs) &&
    (once ==> forall l, m, x :: l in Reach(g, Deep(g), k) && m in Reach(g, Deep(g), k) && x in Users(g, l) && x in Users(g, m) ==>
       l == m || l in Reach(g, Deep(g), cc) || m in Reach(g, Deep(g), cc))
  }

  lemma OwnedOn(g: Graph, k: Label, mid: Label, cc: Label, bs: set<Sym>, cs: set<Sym>, once: bool)
    requires Acyclic(g, Deep(g)) && Owned(g, k, mid, bs, once) && Owned(g, mid, cc, cs, once) && (once ==> bs !! cs)
    ensures Owned(g, k, cc, bs + cs, once)
  {
    hide Users, Reach, Acyclic;
  }

  lemma OwnedSelf(g: Graph, cc: Label, once: bool)
    requires Acyclic(g, Deep(g)) && cc in g
    ensures Owned(g, cc, cc, {}, once)
  {
  }

  lemma OwnedWider(g: Graph, k: Label, cc: Label, bs: set<Sym>, cs: set<Sym>, once: bool)
    requires Acyclic(g, Deep(g)) && Owned(g, k, cc, bs, once) && bs <= cs
    ensures Owned(g, k, cc, cs, once)
  {
    hide Users, Reach, Acyclic;
  }

  /** A continuation in front of what goes on. */
  lemma OwnedStep(g: Graph, k: Label, next: Label, cc: Label, bs: set<Sym>, once: bool)
    requires Acyclic(g, Deep(g)) && k in g && (once ==> Users(g, k) !! bs)
    requires (g[k].Kargs? && g[k].term.Continue? && !g[k].term.expr.EProc? && g[k].term.k == next)
          || (g[k].Kreceive? && g[k].k == next)
    requires next in g && Owned(g, next, cc, bs, once)
    ensures Owned(g, k, cc, bs + Users(g, k), once)
  {
    assert Leads(g[k], next);
    assert Reach(g, Deep(g), k) == {k} + Reach(g, Deep(g), next);
    hide Users, Reach, Acyclic;
  }

  lemma OwnedBranch(g: Graph, k: Label, kt: Label, kf: Label, cc: Label, bs: set<Sym>, cs: set<Sym>, once: bool)
    requires Acyclic(g, Deep(g)) && k in g && g[k].Kargs? && Users(g, k) == {} && (once ==> bs !! cs)
    requires g[k].term.Branch? && g[k].term.kt == kt && g[k].term.kf == kf
    requires Owned(g, kt, cc, bs, once) && Owned(g, kf, cc, cs, once)
    ensures Owned(g, k, cc, bs + cs, once)
  {
    assert Leads(g[k], kt) && Leads(g[k], kf);
    assert Reach(g, Deep(g), k) == {k} + Reach(g, Deep(g), kt) + Reach(g, Deep(g), kf);
    hide Users, Reach, Acyclic;
  }

  /** Where a procedure is made: its variables are its own. */
  lemma OwnedProc(g: Graph, k: Label, code: Label, tail: Label, cc: Label, bs: set<Sym>, once: bool)
    requires Acyclic(g, Deep(g)) && k in g && (once ==> Users(g, k) !! bs) && g[k].Kargs? && g[k].term == Continue(cc, EProc(code))
    requires Owned(g, code, tail, bs, once) && g[tail].Ktail? && cc in g
    ensures Owned(g, k, cc, bs + Users(g, k), once)
  {
    assert Leads(g[k], cc) && Leads(g[k], code);
    assert Reach(g, Deep(g), k) == {k} + Reach(g, Deep(g), cc) + Reach(g, Deep(g), code);
    assert Reach(g, Deep(g), tail) == {tail} && Users(g, tail) == {};
    hide Users, Reach, Acyclic;
  }

  lemma OwnedEnter(g: Graph, code: Label, tail: Label, bs: set<Sym>, once: bool)
    requires Acyclic(g, Deep(g)) && code in g && g[code].Kproc? && g[code].body in g && Owned(g, g[code].body, tail, bs, once)
    ensures Owned(g, code, tail, bs, once)
  {
    assert Leads(g[code], g[code].body);
    assert Reach(g, Deep(g), code) == {code} + Reach(g, Deep(g), g[code].body) && Users(g, code) == {};
    hide Users, Reach, Acyclic;
  }

  lemma TempUsers(g: Graph, k: Label, t: nat)
    requires HasVars(g, k, [Temp(t)])
    ensures Users(g, k) == {} && k in g && g[k].Kargs?
  {
  }

  lemma NoUsers(g: Graph, k: Label)
    requires HasVars(g, k, [])
    ensures Users(g, k) == {} && k in g && g[k].Kargs?
  {
  }

  /** A form's code binds the form's identifiers, each in one place, its entry aside. */
  lemma {:induction false} OwnsCode(g: Graph, f: Form, cc: Label, n: nat, once: bool)
    requires Acyclic(g, Deep(g)) && Code(g, f, cc, n) && cc in g && (once ==> Unique(f))
    requires Entry(f, n) in g && g[Entry(f, n)].Kargs? && (once ==> Users(g, Entry(f, n)) !! Binders(f))
    ensures Owned(g, Entry(f, n), cc, Binders(f) + Users(g, Entry(f, n)), once)
    decreases f, 1
  {
    hide Acyclic, Owned, Users;
    var k := Entry(f, n);
    match f
    case Const(_) => OwnedSelf(g, cc, once); OwnedStep(g, k, cc, cc, {}, once);
    case Quote(_) => OwnedSelf(g, cc, once); OwnedStep(g, k, cc, cc, {}, once);
    case Var(_) => OwnedSelf(g, cc, once); OwnedStep(g, k, cc, cc, {}, once);
    case Begin(body) => OwnsCodeBody(g, body, cc, n, once);
    case If(c, t, e) => OwnsCodeIf(g, c, t, e, cc, n, once);
    case Lambda(lam) =>
      OwnsLambda(g, lam, n, once);
      OwnedProc(g, k, n + 1, n, cc, Params(lam) + BindersIn(lam.body), once);
    case Call(elems) => OwnsCodeCall(g, elems, cc, n, once);
  }

  lemma {:induction false} OwnsCodeBody(g: Graph, fs: Forms, cc: Label, n: nat, once: bool)
    requires Acyclic(g, Deep(g)) && CodeBody(g, fs, cc, n) && cc in g && (once ==> UniqueIn(fs))
    requires EntryBody(fs, n) in g && g[EntryBody(fs, n)].Kargs? && (once ==> Users(g, EntryBody(fs, n)) !! BindersIn(fs))
    ensures Owned(g, EntryBody(fs, n), cc, BindersIn(fs) + Users(g, EntryBody(fs, n)), once)
    decreases fs, 0
  {
    hide Acyclic, Owned, Users;
    match fs
    case Last(e) => OwnsCode(g, e, cc, n, once);
    case More(e, rest) =>
      var next, m := EntryBody(rest, n), NextBody(rest, n);
      TempUsers(g, next, EntryTempBody(rest, n));
      OwnsCodeBody(g, rest, cc, n, once);
      OwnsCode(g, e, next, m, once);
      OwnedOn(g, Entry(e, m), next, cc, Binders(e) + Users(g, Entry(e, m)), BindersIn(rest) + {}, once);
      OwnedWider(g, Entry(e, m), cc, Binders(e) + Users(g, Entry(e, m)) + (BindersIn(rest) + {}), BindersIn(fs) + Users(g, Entry(e, m)), once);
  }

  lemma {:induction false} OwnsCodeIf(g: Graph, c: Form, t: Form, e: Form, cc: Label, n: nat, once: bool)
    requires Acyclic(g, Deep(g)) && Code(g, If(c, t, e), cc, n) && cc in g && (once ==> Unique(If(c, t, e)))
    requires var k := Entry(If(c, t, e), n); k in g && g[k].Kargs? && (once ==> Users(g, k) !! Binders(If(c, t, e)))
    ensures Owned(g, Entry(If(c, t, e), n), cc, Binders(If(c, t, e)) + Users(g, Entry(If(c, t, e), n)), once)
    decreases If(c, t, e), 0
  {
    hide Acyclic, Owned, Users, Code, Next, Entry, EntryTemp;
    EntryOfIf(c, t, e, n);
    IfCode(g, c, t, e, cc, n);
    var n1 := Next(t, n);
    var n2 := Next(e, n1);
    NoUsers(g, Entry(t, n));
    NoUsers(g, Entry(e, n1));
    TempUsers(g, n2, n2 + 1);
    OwnsCode(g, t, cc, n, once);
    OwnsCode(g, e, cc, n1, once);
    OwnedBranch(g, n2, Entry(t, n), Entry(e, n1), cc, Binders(t) + {}, Binders(e) + {}, once);
    OwnsCode(g, c, n2, n2 + 2, once);
    var k := Entry(c, n2 + 2);
    OwnedOn(g, k, n2, cc, Binders(c) + Users(g, k), Binders(t) + {} + (Binders(e) + {}), once);
    OwnedWider(g, k, cc, Binders(c) + Users(g, k) + (Binders(t) + {} + (Binders(e) + {})), Binders(If(c, t, e)) + Users(g, k), once);
  }

  /** A procedure's variables are its parameters and what its body binds. */
  lemma {:induction false} OwnsLambda(g: Graph, lam: Lam, n: nat, once: bool)
    requires Acyclic(g, Deep(g)) && CodeProc(g, lam, n) && (once ==> UniqueIn(lam.body) && Params(lam) !! BindersIn(lam.body))
    ensures Owned(g, n + 1, n, Params(lam) + BindersIn(lam.body), once) && g[n].Ktail?
    decreases lam
  {
    hide Acyclic, Owned;
    var body := EntryBody(lam.body, n + 2);
    assert Users(g, body) <= Params(lam);
    OwnsCodeBody(g, lam.body, n, n + 2, once);
    OwnedWider(g, body, n, BindersIn(lam.body) + Users(g, body), Params(lam) + BindersIn(lam.body), once);
    OwnedEnter(g, n + 1, n, Params(lam) + BindersIn(lam.body), once);
  }

  /** The call itself and what receives its value. */
  lemma OwnsReceive(g: Graph, elems: Forms, cc: Label, n: nat, once: bool)
    requires Acyclic(g, Deep(g)) && Code(g, Call(elems), cc, n) && cc in g
    ensures Owned(g, n + 5, cc, Users(g, n + 5), once)
  {
    TempUsers(g, n + 2, n);
    assert Users(g, n + 3) == {};
    hide Acyclic, Owned, Users, CodeElems;
    OwnedSelf(g, cc, once);
    OwnedStep(g, n + 2, cc, cc, {}, once);
    OwnedWider(g, n + 2, cc, {} + Users(g, n + 2), {}, once);
    OwnedStep(g, n + 3, n + 2, cc, {}, once);
    OwnedWider(g, n + 3, cc, {} + Users(g, n + 3), {}, once);
    OwnedStep(g, n + 5, n + 3, cc, {}, once);
    OwnedWider(g, n + 5, cc, {} + Users(g, n + 5), Users(g, n + 5), once);
  }

  lemma {:induction false} OwnsCodeCall(g: Graph, elems: Forms, cc: Label, n: nat, once: bool)
    requires Acyclic(g, Deep(g)) && Code(g, Call(elems), cc, n) && cc in g && (once ==> UniqueIn(elems))
    requires var k := Entry(Call(elems), n); k in g && g[k].Kargs? && (once ==> Users(g, k) !! BindersIn(elems))
    ensures Owned(g, Entry(Call(elems), n), cc, BindersIn(elems) + Users(g, Entry(Call(elems), n)), once)
    decreases elems, 1
  {
    EntryOfCall(elems, n);
    OwnsReceive(g, elems, cc, n, once);
    hide Acyclic, Owned, Users;
    var k := EntryElems(elems, n + 5, n + 6);
    OwnsCodeElems(g, elems, n + 5, n + 4, n + 6, once);
    if k == n + 5 {
      OwnedWider(g, k, cc, Users(g, k), BindersIn(elems) + Users(g, k), once);
    } else {
      EntryOrUsers(g, elems, n + 5, n + 4, n + 6);
      OwnedOn(g, k, n + 5, cc, BindersIn(elems) + Users(g, k), Users(g, n + 5), once);
      OwnedWider(g, k, cc, BindersIn(elems) + Users(g, k) + Users(g, n + 5), BindersIn(elems) + Users(g, k), once);
    }
  }

  /** Either nothing was to be evaluated first, or the value goes to one temporary. */
  lemma {:induction false} EntryOrUsers(g: Graph, es: Forms, cc: Label, tmp: nat, n: nat)
    requires CodeElems(g, es, cc, tmp, n)
    ensures EntryElems(es, cc, n) == cc || (cc in g && g[cc].Kargs? && Users(g, cc) == {})
    decreases es
  {
    if !es.e.Var? {
      TempUsers(g, cc, tmp);
    } else if es.More? {
      EntryOrUsers(g, es.rest, cc, tmp, n);
    }
  }

  lemma {:induction false} OwnsCodeElems(g: Graph, es: Forms, cc: Label, tmp: nat, n: nat, once: bool)
    requires Acyclic(g, Deep(g)) && CodeElems(g, es, cc, tmp, n) && cc in g && (once ==> UniqueIn(es))
    requires var k := EntryElems(es, cc, n); k in g && g[k].Kargs? && (once ==> Users(g, k) !! BindersIn(es))
    ensures Owned(g, EntryElems(es, cc, n), cc, BindersIn(es) + Users(g, EntryElems(es, cc, n)), once)
    decreases es, 0
  {
    hide Acyclic, Owned, Users;
    var k := EntryElems(es, cc, n);
    if es.e.Var? {
      if es.More? {
        OwnsCodeElems(g, es.rest, cc, tmp, n, once);
        OwnedWider(g, k, cc, BindersIn(es.rest) + Users(g, k), BindersIn(es) + Users(g, k), once);
      } else {
        OwnedSelf(g, cc, once);
        OwnedWider(g, k, cc, {}, BindersIn(es) + Users(g, k), once);
      }
    } else {
      var e, m := es.e, Next(es.e, n);
      var l := Entry(e, n);
      if es.More? {
        EntryOrUsers(g, es.rest, l, EntryTemp(e, n), m);
      }
      OwnsCode(g, e, cc, n, once);
      if es.More? {
        OwnsCodeElems(g, es.rest, l, EntryTemp(e, n), m, once);
        if k != l {
          OwnedOn(g, k, l, cc, BindersIn(es.rest) + Users(g, k), Binders(e) + Users(g, l), once);
          OwnedWider(g, k, cc, BindersIn(es.rest) + Users(g, k) + (Binders(e) + Users(g, l)), BindersIn(es) + Users(g, k), once);
        } else {
          OwnedWider(g, k, cc, Binders(e) + Users(g, k), BindersIn(es) + Users(g, k), once);
        }
      }
    }
  }

  predicate BindsAt(g: Graph, k: Label, x: Name) {
    k in g && g[k].Kargs? && x in g[k].vars
  }

  /** No variable is bound by two of these labels. */
  ghost predicate BoundOnce(g: Graph, within: set<Label>) {
    forall k, l, x {:trigger BindsAt(g, k, x), BindsAt(g, l, x)} ::
      k in within && l in within && BindsAt(g, k, x) && BindsAt(g, l, x) ==> k == l
  }

  lemma ProgramBoundOnce(g: Graph, f: Form)
    requires Program(g, f) && TempsDistinct(g) && Unique(f) && Acyclic(g, Deep(g)) && Users(g, Entry(f, 1)) == {}
    ensures BoundOnce(g, Reach(g, Deep(g), Entry(f, 1)))
  {
    OwnsCode(g, f, 0, 1, true);
    assert Reach(g, Deep(g), 0) == {0} && Users(g, 0) == {};
    var within := Reach(g, Deep(g), Entry(f, 1));
    forall k, l, x | k in within && l in within && BindsAt(g, k, x) && BindsAt(g, l, x)
      ensures k == l
    {
      if x.User? {
        assert x.s in Users(g, k) && x.s in Users(g, l);
      } else {
        assert BindsTemp(g, k, x.id) && BindsTemp(g, l, x.id);
      }
    }
  }

  /** All identifiers the graph binds are binders of the program, distinct or not. */
  lemma ProgramBinders(g: Graph, f: Form, l: Label, x: Name)
    requires Program(g, f) && Acyclic(g, Deep(g)) && Users(g, Entry(f, 1)) == {}
    requires l in Reach(g, Deep(g), Entry(f, 1)) && l in g && BindsHere(g[l], x) && x.User?
    ensures x.s in Binders(f)
  {
    OwnsCode(g, f, 0, 1, false);
    assert Reach(g, Deep(g), 0) == {0} && Users(g, 0) == {};
    if g[l].Kproc? {
      ProgramWalkable(g, f);
      assert BodyAt(g, l) && Leads(g[l], g[l].body);
      OnwardReach(g, Deep(g), l, g[l].body);
      ReachOn(g, Deep(g), Entry(f, 1), l);
      assert g[l].body in Reach(g, Deep(g), g[l].body);
      assert x.s in Users(g, g[l].body);
    } else {
      assert x.s in Users(g, l);
    }
  }
}
