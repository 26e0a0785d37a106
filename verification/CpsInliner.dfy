/** Copying a procedure's body under new names and putting it where the call was. */
module CpsInliner {
  import opened CpsLang
  import opened CpsConst
  import opened CpsCollect
  import opened CpsInline
  import opened CpsCopies
  import opened CpsSplice

  /** No variable bound in the procedure is spelled like a primitive. */
  ghost predicate Clear(w: Work)
    requires Calls(w.i) && Acyclic(w.i.g, w.deep)
  {
    forall l :: l in Reach(w.i.g, w.deep, w.i.g[w.i.code].body) ==> ClearAt(w.i.g, l)
  }

  predicate ClearAt(g: Graph, l: Label) {
    l in g && g[l].Kargs? ==> forall x :: x in g[l].vars ==> !PrimNamed(x)
  }

  /** A place the walk may come to, at the procedure's own level (`top`) or below. */
  ghost predicate Walks(w: Work, k: Label, top: bool)
    requires Base(w)
  {
    && k in w.i.g && k in Reach(w.i.g, w.deep, w.i.g[w.i.code].body) && Clear(w)
    && (top ==> OwnTail(w.i.g, w.deep, k, w.tail))
  }

  lemma WalksOn(w: Work, k: Label, top: bool, l: Label)
    requires Base(w) && Walks(w, k, top) && Leads(w.i.g[k], l)
    ensures l in w.i.g && w.deep(l) < w.deep(k)
    ensures l in Succs(w.i.g[k]) ==> Walks(w, l, top)
    ensures Walks(w, l, false)
  {
    LeadsReach(w.i.g, w.deep, k, l);
    ReachOn(w.i.g, w.deep, w.i.g[w.i.code].body, k);
    assert l in Reach(w.i.g, w.deep, l);
  }

  lemma WalksSame(w: Work, v: Work, k: Label, top: bool)
    requires Base(w) && Base(v) && Grown(w, v) && Walks(w, k, top)
    ensures Walks(v, k, top)
  {
  }

  lemma WalksNames(w: Work, k: Label, top: bool)
    requires Base(w) && Walks(w, k, top) && w.i.g[k].Kargs?
    ensures forall x :: x in w.i.g[k].vars ==> !PrimNamed(x) && BoundIn(w, x)
  {
    assert ClearAt(w.i.g, k);
  }

  class Inliner {
    var graph: Graph
    var counter: nat
    var replacements: map<Name, Name>
    ghost var work: Work
    ghost var done: set<Label>

    ghost predicate Valid()
      reads this
    {
      work.i.h == graph && work.n == counter && work.i.ren == replacements && Working(work)
    }

    /** New names for the variables of a continuation that have none yet. */
    method NameVars(vars: seq<Name>)
      requires Valid() && forall x :: x in vars ==> !PrimNamed(x) && BoundIn(work, x)
      modifies `graph, `counter, `replacements, `work
      ensures Valid() && Kept(old(work), work) && forall x :: x in vars ==> x in replacements
    {
      hide Base, Added, Keyed, NamesMade, AllCopied, BoundIn, PrimNamed, Working, Grown;
      ghost var u := work;
      KeptSelf(u);
      for j := 0 to |vars|
        invariant Valid() && Kept(u, work)
        invariant forall l :: 0 <= l < j ==> vars[l] in replacements
      {
        if vars[j] !in replacements {
          NameStep(u, work, vars[j]);
          replacements := replacements[vars[j] := Temp(counter)];
          counter := counter + 1;
          work := WithName(work, vars[j]);
        }
      }
    }

    /** `cps_alpha_rename`: a copy of all that `k` leads to, up to the tails. */
    method AlphaRename(k: Label, ghost top: bool) returns (name: Label)
      requires Valid() && Walks(work, k, top)
      modifies `graph, `counter, `replacements, `work
      ensures Valid() && Kept(old(work), work) && Placed(old(work), work, k, name, top)
      decreases work.deep(k), 2
    {
      hide Base, Keyed, NamesMade, AllCopied, Kept, Open, OwnTail, Reach;
      ghost var w := work;
      var kont := graph[k];
      if kont.Ktail? {
        KeptSelf(w);
        TailOwn(w, k, top);
        return k;
      }
      name := counter;
      counter := counter + 1;
      graph := graph[name := kont];
      work := WithLabel(work, kont);
      OpenStart(w, kont);
      OpenWorking(w, work, name);
      match kont
      case Kargs(_, _) => RenameKargs(w, k, name, top);
      case Kreceive(_, _, _) => RenameKreceive(w, k, name, top);
      case Kproc(_, _, _, _) => RenameKproc(w, k, name, top);
    }

    method RenameKreceive(ghost w: Work, k: Label, name: Label, ghost top: bool)
      requires Valid() && Base(w) && Walks(w, k, top) && w.i.g[k].Kreceive? && Open(w, work, name) && graph[name] == w.i.g[k]
      modifies `graph, `counter, `replacements, `work
      ensures Valid() && Kept(w, work) && Placed(w, work, k, name, top)
      decreases w.deep(k), 1
    {
      hide Base, Keyed, Added, NamesMade, AllCopied, Kept, Grown, Open, OwnTail, Reach, Placed, Working;
      OpenBase(w, work, name);
      WalksNext(w, work, k, top, w.i.g[k].k);
      ghost var a := work;
      var next := AlphaRename(graph[name].k, top);
      FillAfter(w, a, work, name, Kreceive(w.i.g[k].req, w.i.g[k].rest, next), w.i.g[k].k, next, top);
      graph := graph[name := graph[name].(k := next)];
      work := WithKont(work, name, graph[name]);
      OnlyFinished(w, a, work, name, k, next, top);
      work := WithCopy(work, name, k, a.i.ren.Keys, top);
    }

    method RenameKproc(ghost w: Work, k: Label, name: Label, ghost top: bool)
      requires Valid() && Base(w) && Walks(w, k, top) && w.i.g[k].Kproc? && Open(w, work, name) && graph[name] == w.i.g[k]
      modifies `graph, `counter, `replacements, `work
      ensures Valid() && Kept(w, work) && Placed(w, work, k, name, top)
      decreases w.deep(k), 1
    {
      hide Base, Keyed, Added, NamesMade, AllCopied, Kept, Grown, Open, OwnTail, Reach, Placed, Working;
      OpenBase(w, work, name);
      NoProcOwn(w, k, top);
      WalksNext(w, work, k, false, w.i.g[k].body);
      ghost var a := work;
      var body := AlphaRename(graph[name].body, false);
      FillAfter(w, a, work, name, w.i.g[k].(body := body), w.i.g[k].body, body, false);
      graph := graph[name := graph[name].(body := body)];
      work := WithKont(work, name, graph[name]);
      OnlyFinished(w, a, work, name, k, body, top);
      work := WithCopy(work, name, k, a.i.ren.Keys, top);
    }

    /** `cps_alpha_rename_visit_expr`. */
    method VisitExpr(expr: Expr, ghost k: Label, ghost top: bool) returns (expr': Expr)
      requires Valid() && Walks(work, k, top) && work.i.g[k].Kargs? && work.i.g[k].term.Continue? && work.i.g[k].term.expr == expr
      modifies `graph, `counter, `replacements, `work
      ensures Valid() && Kept(old(work), work) && ExprPlaced(old(work), work, expr, expr')
      decreases work.deep(k), 0
    {
      hide Base, Keyed, NamesMade, AllCopied, Kept, Open, OwnTail, Reach, Placed;
      if expr.EProc? {
        assert Leads(work.i.g[k], expr.k);
        WalksOn(work, k, top, expr.k);
        var code := AlphaRename(expr.k, false);
        expr' := EProc(code);
      } else {
        KeptSelf(work);
        expr' := RenameExpr(expr, replacements);
      }
    }

    method RenameKargs(ghost w: Work, k: Label, name: Label, ghost top: bool)
      requires Valid() && Base(w) && Walks(w, k, top) && w.i.g[k].Kargs? && Open(w, work, name) && graph[name] == w.i.g[k]
      modifies `graph, `counter, `replacements, `work
      ensures Valid() && Kept(w, work) && Placed(w, work, k, name, top)
      decreases w.deep(k), 1
    {
      hide Base, Keyed, Added, NamesMade, AllCopied, Kept, Grown, Open, OwnTail, Reach, Placed, Working;
      OpenBase(w, work, name);
      var vars, term := graph[name].vars, graph[name].term;
      WalksSame(w, work, k, top);
      WalksNames(work, k, top);
      ghost var u := work;
      NameVars(vars);
      OpenOn(w, u, work, name);
      vars := RenameAll(vars, replacements);
      OpenSet(w, work, name, Kargs(vars, term));
      graph := graph[name := Kargs(vars, term)];
      work := WithKont(work, name, graph[name]);
      OpenBase(w, work, name);
      OpenWorking(w, work, name);
      match term
      case Continue(_, _) => RenameContinue(w, k, name, top);
      case Branch(_, _, _) => RenameBranch(w, k, name, top);
    }

    method RenameContinue(ghost w: Work, k: Label, name: Label, ghost top: bool)
      requires Valid() && Base(w) && Walks(w, k, top) && w.i.g[k].Kargs? && w.i.g[k].term.Continue? && Open(w, work, name)
      requires graph[name] == Kargs(RenameAll(w.i.g[k].vars, replacements), w.i.g[k].term)
      requires forall x :: x in w.i.g[k].vars ==> x in replacements
      modifies `graph, `counter, `replacements, `work
      ensures Valid() && Kept(w, work) && Placed(w, work, k, name, top)
      decreases w.deep(k), 1, 0
    {
      hide Base, Keyed, Added, NamesMade, AllCopied, Kept, Grown, Open, OwnTail, Reach, Placed, ExprPlaced, Working;
      OpenBase(w, work, name);
      ghost var a := work;
      var vars, next := graph[name].vars, graph[name].term.k;
      WalksSame(w, work, k, top);
      var expr := VisitExpr(graph[name].term.expr, k, top);
      OpenOn(w, a, work, name);
      OpenBase(w, work, name);
      WalksNext(w, work, k, top, next);
      ghost var b := work;
      var next' := AlphaRename(next, top);
      ContinueFinished(w, a, b, work, name, k, expr, next', top);
      graph := graph[name := Kargs(vars, Continue(next', expr))];
      work := WithCopy(WithKont(work, name, graph[name]), name, k, a.i.ren.Keys, top);
    }

    method RenameBranch(ghost w: Work, k: Label, name: Label, ghost top: bool)
      requires Valid() && Base(w) && Walks(w, k, top) && w.i.g[k].Kargs? && w.i.g[k].term.Branch? && Open(w, work, name)
      requires graph[name] == Kargs(RenameAll(w.i.g[k].vars, replacements), w.i.g[k].term)
      requires forall x :: x in w.i.g[k].vars ==> x in replacements
      modifies `graph, `counter, `replacements, `work
      ensures Valid() && Kept(w, work) && Placed(w, work, k, name, top)
      decreases w.deep(k), 1, 0
    {
      hide Base, Keyed, Added, NamesMade, AllCopied, Kept, Grown, Open, OwnTail, Reach, Placed, ExprPlaced, Working;
      OpenBase(w, work, name);
      ghost var a := work;
      var vars, term := graph[name].vars, graph[name].term;
      var arg := Renamed(term.arg, replacements);
      WalksNext(w, work, k, top, term.kt);
      var kt := AlphaRename(term.kt, top);
      OpenOn(w, a, work, name);
      OpenBase(w, work, name);
      WalksNext(w, work, k, top, term.kf);
      ghost var b := work;
      var kf := AlphaRename(term.kf, top);
      BranchFinished(w, a, b, work, name, k, kt, kf, top);
      graph := graph[name := Kargs(vars, Branch(arg, kt, kf))];
      work := WithCopy(WithKont(work, name, graph[name]), name, k, a.i.ren.Keys, top);
    }

    /** `replace_ktails`: wherever the copy would leave by the tail it goes to `kreplace`. */
    method ReplaceKtails(ktail: Label, kreplace: Label, k: Label) returns (r: Label)
      requires Working(work) && Redirects(work, graph, done, kreplace) && ktail == work.tail && done <= work.top
      requires Redirectable(work, done, k)
      modifies `graph, `done
      ensures Redirects(work, graph, done, kreplace) && CameBy(work, old(done), done, k)
      ensures r == Out(work, k, kreplace)
      decreases Left(work, k)
    {
      hide Working, Redirects, CameBy, Together, Redirectable;
      ghost var was := done;
      ToRedirect(work, graph, done, kreplace, k);
      match graph[k]
      case Ktail =>
        r := kreplace;
      case Kreceive(req, rest, next) =>
        NextRedirectable(work, done, k, next);
        var next' := ReplaceKtails(ktail, kreplace, next);
        CameOn(work, was, was, done, k, next);
        CameByAll(work, was, done, k);
        RedirectsOne(work, graph, done, kreplace, k, Kreceive(req, rest, next'));
        graph := graph[k := Kreceive(req, rest, next')];
        done := done + {k};
        r := k;
      case Kargs(vars, Continue(next, expr)) =>
        NextRedirectable(work, done, k, next);
        var next' := ReplaceKtails(ktail, kreplace, next);
        CameOn(work, was, was, done, k, next);
        CameByAll(work, was, done, k);
        RedirectsOne(work, graph, done, kreplace, k, Kargs(vars, Continue(next', expr)));
        graph := graph[k := Kargs(vars, Continue(next', expr))];
        done := done + {k};
        r := k;
      case Kargs(vars, Branch(x, kt, kf)) =>
        NextRedirectable(work, done, k, kt);
        NextRedirectable(work, done, k, kf);
        var kt' := ReplaceKtails(ktail, kreplace, kt);
        ghost var mid := done;
        OtherRedirectable(work, was, done, k);
        CameOn(work, was, was, done, k, kt);
        var kf' := ReplaceKtails(ktail, kreplace, kf);
        CameOn(work, was, mid, done, k, kf);
        CameByAll(work, was, done, k);
        RedirectsOne(work, graph, done, kreplace, k, Kargs(vars, Branch(x, kt', kf')));
        graph := graph[k := Kargs(vars, Branch(x, kt', kf'))];
        done := done + {k};
        r := k;
    }

    /** `bind_args_to_k`: from `k` on one argument after the other is bound; what comes
        after the last one (to `cc` for now) is left to the caller. */
    method BindArgs(k: Label, cc: Label, args: seq<Name>, vars: seq<Name>, req: nat) returns (last: Label)
      requires k in graph && graph[k].Kargs? && req == |vars| <= |args| && forall l :: l in graph ==> l < counter
      modifies `graph, `counter
      ensures counter == old(counter) + req && k in graph && graph[k].Kargs? && graph[k].vars == old(graph[k].vars)
      ensures SameBut(old(graph), graph, k) && NewWithin(old(graph), graph, old(counter), counter)
      ensures OneByOne(graph, k, vars, args, last) && (last == k || last >= old(counter))
      ensures last in graph && graph[last].Kargs?
      ensures forall l :: l in graph && (l == k || l >= old(counter)) ==> PassesOn(graph, l, last, old(counter))
      decreases req
    {
      if req == 0 {
        graph := graph[k := Kargs(graph[k].vars, Continue(cc, EValues([])))];
        NoneBound(graph, k, args, counter);
        return k;
      }
      hide OneByOne, PassesOn, SameBut, NewWithin;
      ghost var g := graph;
      var next, kont := counter, Kargs(graph[k].vars, Continue(counter, EValues([args[0]])));
      counter := counter + 1;
      graph := graph[k := kont][next := Kargs([vars[0]], Continue(cc, EValues([])))];
      ghost var h := graph;
      last := BindArgs(next, cc, args[1..], vars[1..], req - 1);
      ChainKept(g, h, graph, k, next, counter);
      OneMoreBound(graph, k, args, vars, last, next);
    }

    constructor (graph: Graph, counter: nat)
      ensures this.graph == graph && this.counter == counter
    {
      this.graph := graph;
      this.counter := counter;
      this.replacements := map[];
      this.done := {};
      this.work := Start(graph, k => 0, k => 0, 0, 0, counter);
    }

    /** The first half of `cps_inline_kproc`: the body is copied, made to return where
        the call does, and loses the variables of its entry. */
    method CopyProcedure(at: Label, code: Label, ghost gr: Rank, ghost deep: Rank) returns (body: Label, kbody: Kont)
      requires Inlinable(graph, gr, deep, at, code, counter)
      modifies this
      ensures counter == work.n && Copying(work, old(graph), gr, deep, at, code, old(counter))
      ensures Ready(work, graph, done, body, kbody)
    {
      hide Working, Base, Acyclic, Ranked, Tame, OwnTail, Reach, Redirects, Kept, CameBy, Redirectable, Added, Prepared, Grown,
        Walked, Inlinable, Walks, Calls, Return, Placed, Out, Start, Copying, Ready;
      ghost var u := Start(graph, gr, deep, at, code, counter);
      StartWorking(graph, gr, deep, at, code, counter);
      replacements := map[];
      done := {};
      work := u;
      var kproc, call := graph[code], graph[at];
      body := AlphaRename(kproc.body, true);
      CopyMade(u, work, body, old(graph), gr, deep, at, code, old(counter));
      var back := call.term.k;
      if graph[back].Kreceive? {
        back := graph[back].k;
      }
      var r := ReplaceKtails(kproc.tail, back, body);
      ReadyNow(work, graph, done, body);
      kbody := graph[body];
      graph := graph[body := Kargs([], kbody.term)];
    }

    /** `cps_inline_kproc`: the call at `at` gives way to the body of `code`. */
    method InlineKproc(at: Label, code: Label, ghost gr: Rank, ghost deep: Rank) returns (ghost i: Site)
      requires Inlinable(graph, gr, deep, at, code, counter)
      modifies this
      ensures InlinedFrom(i, old(graph), gr, deep, at, code, old(counter)) && i.h == graph
    {
      hide Working, Base, Acyclic, Ranked, Tame, OwnTail, Reach, OneByOne, Prepared, Spliced, Strung, PassesOn, InlinedFrom;
      InlinableCall(graph, gr, deep, at, code, counter);
      var kproc, call := graph[code], graph[at];
      var body, kbody := CopyProcedure(at, code, gr, deep);
      ghost var w, h := work, graph;
      var begin := BindArgs(at, body, call.term.expr.args, kbody.vars, |kproc.params|);
      ghost var h' := graph;
      graph := graph[begin := Kargs(graph[begin].vars, kbody.term)];
      i := Assembled(w, h, h', done, body, begin);
    }
  }

  /** All but this label is as it was. */
  predicate SameBut(g: Graph, h: Graph, k: Label) {
    forall l :: l in g && l != k ==> l in h && h[l] == g[l]
  }

  /** What is new was numbered from `n` up to `m`. */
  predicate NewWithin(g: Graph, h: Graph, n: nat, m: nat) {
    forall l :: l in h ==> l in g || n <= l < m
  }

  lemma ChainKept(g: Graph, h: Graph, i: Graph, k: Label, next: Label, m: nat)
    requires k in g && next !in g && k != next && k in h && next in h && h == g[k := h[k]][next := h[next]]
    requires SameBut(h, i, next) && NewWithin(h, i, next + 1, m) && next < m
    ensures SameBut(g, i, k) && NewWithin(g, i, next, m) && k in i && i[k] == h[k]
  {
  }

  lemma NoneBound(h: Graph, k: Label, args: seq<Name>, n: nat)
    requires k in h && h[k].Kargs? && forall l :: l in h ==> l < n
    ensures OneByOne(h, k, [], args, k) && forall l :: l in h && (l == k || l >= n) ==> PassesOn(h, l, k, n)
  {
  }

  /** One argument is bound at `n`, the others from there on. */
  lemma OneMoreBound(h: Graph, k: Label, args: seq<Name>, vars: seq<Name>, last: Label, n: nat)
    requires k in h && k < n && vars != [] && args != [] && h[k].Kargs? && h[k].term == Continue(n, EValues([args[0]]))
    requires n in h && h[n].Kargs? && h[n].vars == [vars[0]]
    requires OneByOne(h, n, vars[1..], args[1..], last) && (last == n || last >= n + 1)
    requires forall l :: l in h && (l == n || l >= n + 1) ==> PassesOn(h, l, last, n + 1)
    ensures OneByOne(h, k, vars, args, last)
    ensures forall l :: l in h && (l == k || l >= n) ==> PassesOn(h, l, last, n)
  {
    hide OneByOne;
    forall l | l in h && l >= n
      ensures PassesOn(h, l, last, n)
    {
      assert PassesOn(h, l, last, n + 1);
    }
    BoundFirst(h, k, args, vars, last, n);
  }

  lemma BoundFirst(h: Graph, k: Label, args: seq<Name>, vars: seq<Name>, last: Label, n: nat)
    requires k in h && k < n && vars != [] && args != [] && h[k].Kargs? && h[k].term == Continue(n, EValues([args[0]]))
    requires n in h && h[n].Kargs? && h[n].vars == [vars[0]] && OneByOne(h, n, vars[1..], args[1..], last)
    ensures OneByOne(h, k, vars, args, last)
  {
  }

  /** The copy of `code` for the call at `at` of this graph. */
  ghost predicate Copying(w: Work, g: Graph, gr: Rank, deep: Rank, at: Label, code: Label, n: nat) {
    w.i.g == g && w.i.gr == gr && w.deep == deep && w.i.at == at && w.i.code == code && w.i.mark == n && Calls(w.i)
  }

  ghost predicate Ready(w: Work, h: Graph, done: set<Label>, body: Label, kbody: Kont)
    requires Calls(w.i)
  {
    && Prepared(w, h, done, body) && body in w.i.h && w.i.h[body].Kargs? && kbody.Kargs? && kbody.vars == w.i.h[body].vars
    && |kbody.vars| == |w.i.g[w.i.code].params| && body in h && h[body] == Kargs([], kbody.term)
    && w.i.at in h && h[w.i.at] == w.i.g[w.i.at] && w.i.at != body && w.i.at < w.n && forall l :: l in h ==> l < w.n
  }

  lemma InlinableCall(g: Graph, gr: Rank, deep: Rank, at: Label, code: Label, n: nat)
    requires Inlinable(g, gr, deep, at, code, n)
    ensures Calls(Start(g, gr, deep, at, code, n).i)
  {
  }

  /** The call of `code` at `at` in the graph `g`, numbered up to `n`, has been inlined. */
  ghost predicate InlinedFrom(i: Site, g: Graph, gr: Rank, deep: Rank, at: Label, code: Label, n: nat) {
    && Inlined(i) && i.g == g && i.gr == gr && i.at == at && i.code == code && i.mark == n
    && Acyclic(g, deep) && RenamesBody(i, deep)
  }

  lemma Assembled(w: Work, h: Graph, h': Graph, done: set<Label>, body: Label, last: Label) returns (i: Site)
    requires Prepared(w, h, done, body) && Attached(w, h, h', body, last)
    ensures last in h' && h'[last].Kargs?
    ensures i.h == h'[last := Kargs(h'[last].vars, h[body].term)]
    ensures InlinedFrom(i, w.i.g, w.i.gr, w.deep, w.i.at, w.i.code, w.i.mark)
  {
    AttachedSpliced(w, h, h', done, body, last);
    AttachedStrung(w, h, h', done, body, last);
    var g := h'[last := Kargs(h'[last].vars, h[body].term)];
    SplicedBase(w, g, done, body, last);
    SplicedWorking(w, g, done, body, last);
    hide Prepared, Attached, Ranked, Tame, Strung, Spliced, Inlined, RenamesBody;
    var hr := SplicedRanked(w, g, done, body, last);
    SplicedInlined(w, g, hr, done, body, last);
    i := Finished(w, g, hr, done, body, last);
    SplicedCalls(w, g, hr, done, body, last);
    RenamedBody(w, i);
  }

  /** The walk is over; the tails are still to be redirected. */
  ghost predicate Walked(w: Work, body: Label) {
    && Working(w) && body in w.i.from && body in w.upto && w.i.from[body] == w.i.g[w.i.code].body
    && (forall l :: l in w.i.h ==> l in w.i.g || l in w.i.from) && w.tail == w.i.g[w.i.code].tail
  }

  lemma CopyMade(u: Work, w: Work, body: Label, g: Graph, gr: Rank, deep: Rank, at: Label, code: Label, n: nat)
    requires Working(u) && Copying(u, g, gr, deep, at, code, n) && u.i.h == g && u.tail == g[code].tail
    requires Working(w) && Kept(u, w) && Placed(u, w, g[code].body, body, true)
    ensures Walked(w, body) && Copying(w, g, gr, deep, at, code, n) && w.tail == g[code].tail && w.top <= w.i.from.Keys
    ensures Redirectable(w, {}, body) && Redirects(w, w.i.h, {}, Return(w.i))
    ensures at in g && g[at].Kargs? && g[at].term.Continue?
    ensures var k := g[at].term.k; k in w.i.h && Return(w.i) == if w.i.h[k].Kreceive? then w.i.h[k].k else k
  {
    GrownRen(u, w);
  }

  lemma ReadyNow(w: Work, h: Graph, done: set<Label>, body: Label)
    requires Walked(w, body) && Redirects(w, h, done, Return(w.i)) && CameBy(w, {}, done, body)
    ensures body in h && h[body].Kargs? && Ready(w, h[body := Kargs([], h[body].term)], done, body, h[body])
  {
    hide Working, Redirects, CameBy, Prepared;
    CopyRedirected(w, h, done, body);
  }

  lemma CopyRedirected(w: Work, h: Graph, done: set<Label>, body: Label)
    requires Walked(w, body) && Redirects(w, h, done, Return(w.i)) && CameBy(w, {}, done, body)
    ensures body in h && h[body].Kargs? && Prepared(w, h[body := Kargs([], h[body].term)], done, body)
    ensures body in w.i.h && w.i.h[body].Kargs? && h[body].vars == w.i.h[body].vars && |h[body].vars| == |w.i.g[w.i.code].params|
    ensures w.i.at in h && h[w.i.at] == w.i.g[w.i.at] && w.i.at != body && w.i.at < w.n
    ensures forall l :: l in h ==> l < w.n
  {
    assert CopyAt(w, body);
  }

  lemma SplicedWorking(w: Work, h: Graph, done: set<Label>, body: Label, last: Label)
    requires Spliced(w, h, done, body, last)
    ensures Working(w) && Base(w)
  {
  }

  lemma RenamedBody(w: Work, i: Site)
    requires Working(w) && i.ren == w.i.ren && i.g == w.i.g && i.code == w.i.code && Calls(i)
    ensures RenamesBody(i, w.deep)
  {
    forall x | x in i.ren
      ensures BoundFrom(i.g, w.deep, i.g[i.code].body, x)
    {
      assert BoundIn(w, x);
    }
  }

  /** Before anything is copied. */
  function Start(g: Graph, gr: Rank, deep: Rank, at: Label, code: Label, n: nat): Work {
    Work(Site(g, gr, g, gr, at, code, n, map[], map[], {}, map[], 0, {}), n, map[], {},
         if code in g && g[code].Kproc? then g[code].tail else 0, deep)
  }

  /** A call that can be inlined: the procedure takes no rest and its arguments are
      there, it leaves by its own tail, and none of its variables is spelled like a primitive. */
  ghost predicate Inlinable(g: Graph, gr: Rank, deep: Rank, at: Label, code: Label, n: nat) {
    var w := Start(g, gr, deep, at, code, n);
    Base(w) && (forall l :: l in g ==> l < n) && Clear(w) && OwnTail(g, deep, g[code].body, g[code].tail)
  }

  lemma StartWorking(g: Graph, gr: Rank, deep: Rank, at: Label, code: Label, n: nat)
    requires Inlinable(g, gr, deep, at, code, n)
    ensures Working(Start(g, gr, deep, at, code, n)) && Calls(Start(g, gr, deep, at, code, n).i)
    ensures code in g && g[code].Kproc? && g[code].body in g && Walks(Start(g, gr, deep, at, code, n), g[code].body, true)
    ensures at in g && g[at].Kargs? && g[at].term.Continue? && Base(Start(g, gr, deep, at, code, n))
    ensures var u := Start(g, gr, deep, at, code, n);
      Copying(u, g, gr, deep, at, code, n) && u.i.h == g && u.n == n && u.i.ren == map[] && u.tail == g[code].tail
  {
  }

  /** Nothing has happened yet to a label to be redirected, and it is no procedure. */
  lemma ToRedirect(w: Work, h: Graph, done: set<Label>, back: Label, k: Label)
    requires Working(w) && Redirects(w, h, done, back) && done <= w.top && Redirectable(w, done, k)
    ensures k in w.i.h && k in h && h[k] == w.i.h[k] && !h[k].Kproc? && (h[k].Ktail? <==> k !in w.upto) && k !in done
    ensures h[k].Ktail? ==> CameBy(w, done, done, k)
  {
    if k in w.upto {
      assert CopyAt(w, k);
    }
  }

  /** The walk may go on where control does, and into the code of a procedure. */
  lemma WalksNext(w: Work, v: Work, k: Label, top: bool, l: Label)
    requires Base(w) && Base(v) && Grown(w, v) && Walks(w, k, top) && Leads(w.i.g[k], l)
    ensures l in w.i.g && w.deep(l) < w.deep(k)
    ensures l in Succs(w.i.g[k]) || !top ==> Walks(v, l, top)
  {
    WalksOn(w, k, top, l);
    if l in Succs(w.i.g[k]) || !top {
      WalksSame(w, v, l, top);
    }
  }

  lemma TailOwn(w: Work, k: Label, top: bool)
    requires Base(w) && Walks(w, k, top) && w.i.g[k].Ktail?
    ensures top ==> k == w.tail
  {
  }

  lemma NoProcOwn(w: Work, k: Label, top: bool)
    requires Base(w) && Walks(w, k, top) && w.i.g[k].Kproc?
    ensures !top && Walks(w, k, false) && Leads(w.i.g[k], w.i.g[k].body)
  {
  }

  /** Filling in where a copy goes on. */
  lemma FillAfter(w: Work, a: Work, b: Work, c: Label, kont: Kont, s: Label, s': Label, top: bool)
    requires Open(w, a, c) && Kept(a, b) && Working(b) && Placed(a, b, s, s', top)
    ensures c in b.i.h && b.i.h[c] == a.i.h[c]
    ensures var d := WithKont(b, c, kont); Open(w, d, c) && Grown(a, d) && Placed(a, d, s, s', top)
  {
    hide Working, Placed;
    OpenOn(w, a, b, c);
    OpenSet(w, b, c, kont);
    GrownOn(a, b, WithKont(b, c, kont));
    PlacedSet(a, b, s, s', top, c, kont);
  }

  lemma OnlyFinished(w: Work, a: Work, d: Work, c: Label, k: Label, next': Label, top: bool)
    requires Open(w, a, c) && Open(w, d, c) && Grown(a, d) && k in w.i.g
    requires match w.i.g[k]
      case Kreceive(req, rest, next) => d.i.h[c] == Kreceive(req, rest, next') && Placed(a, d, next, next', top)
      case Kproc(params, rest, tail, body) => d.i.h[c] == Kproc(params, rest, tail, next') && Placed(a, d, body, next', top) && !top
      case _ => false
    ensures var v := WithCopy(d, c, k, a.i.ren.Keys, top); Working(v) && Kept(w, v) && Placed(w, v, k, c, top)
  {
    OpenMark(w, a, c);
    OpenMark(w, d, c);
    OpenBase(w, a, c);
    OnlyCopied(a, d, c, k, next', top);
    OpenDone(w, d, c, k, a.i.ren.Keys, top);
  }

  lemma ContinueFinished(w: Work, a: Work, b: Work, d: Work, c: Label, k: Label, e': Expr, next': Label, top: bool)
    requires Open(w, a, c) && Kept(a, b) && Open(w, b, c) && Kept(b, d) && Working(d) && Base(w) && k in w.i.g
    requires w.i.g[k].Kargs? && w.i.g[k].term.Continue? && forall x :: x in w.i.g[k].vars ==> x in a.i.ren
    requires ExprPlaced(a, b, w.i.g[k].term.expr, e') && Placed(b, d, w.i.g[k].term.k, next', top)
    ensures var v := WithCopy(WithKont(d, c, Kargs(RenameAll(w.i.g[k].vars, a.i.ren), Continue(next', e'))), c, k, a.i.ren.Keys, top);
      Working(v) && Kept(w, v) && Placed(w, v, k, c, top)
  {
    hide Working, Placed, ExprPlaced, RenameAll, Open, Added;
    var kont := Kargs(RenameAll(w.i.g[k].vars, a.i.ren), Continue(next', e'));
    OpenMark(w, a, c);
    OpenMark(w, b, c);
    OpenBase(w, a, c);
    OpenBase(w, b, c);
    OpenWorking(w, a, c);
    FillAfter(w, b, d, c, kont, w.i.g[k].term.k, next', top);
    var d' := WithKont(d, c, kont);
    OpenMark(w, d', c);
    OpenWorking(w, d', c);
    assert Tame(w.i.g, k);
    ContinueCopied(a, b, d', c, k, e', next', top);
    OpenDone(w, d', c, k, a.i.ren.Keys, top);
  }

  lemma OpenWorking(w: Work, v: Work, c: Label)
    requires Open(w, v, c)
    ensures Working(v) && c in v.i.h && c !in v.i.from && c < v.n
  {
  }

  lemma BranchFinished(w: Work, a: Work, b: Work, d: Work, c: Label, k: Label, kt': Label, kf': Label, top: bool)
    requires Open(w, a, c) && Kept(a, b) && Open(w, b, c) && Kept(b, d) && Working(d) && k in w.i.g
    requires w.i.g[k].Kargs? && w.i.g[k].term.Branch? && forall x :: x in w.i.g[k].vars ==> x in a.i.ren
    requires Placed(a, b, w.i.g[k].term.kt, kt', top) && Placed(b, d, w.i.g[k].term.kf, kf', top)
    ensures var kont := Kargs(RenameAll(w.i.g[k].vars, a.i.ren), Branch(Renamed(w.i.g[k].term.arg, a.i.ren), kt', kf'));
      var v := WithCopy(WithKont(d, c, kont), c, k, a.i.ren.Keys, top); Working(v) && Kept(w, v) && Placed(w, v, k, c, top)
  {
    hide Working, Placed, RenameAll, Open, Added;
    var kont := Kargs(RenameAll(w.i.g[k].vars, a.i.ren), Branch(Renamed(w.i.g[k].term.arg, a.i.ren), kt', kf'));
    OpenMark(w, a, c);
    OpenMark(w, b, c);
    OpenBase(w, a, c);
    OpenBase(w, b, c);
    OpenWorking(w, a, c);
    FillAfter(w, b, d, c, kont, w.i.g[k].term.kf, kf', top);
    var d' := WithKont(d, c, kont);
    OpenMark(w, d', c);
    OpenWorking(w, d', c);
    BranchCopied(a, b, d', c, k, kt', kf', top);
    OpenDone(w, d', c, k, a.i.ren.Keys, top);
  }

  lemma OpenBase(w: Work, v: Work, c: Label)
    requires Open(w, v, c)
    ensures Base(v) && Grown(w, v) && v.deep == w.deep && v.i.g == w.i.g && w.i.ren.Keys <= v.i.ren.Keys && c in v.i.h
  {
  }

  lemma KeptSelf(w: Work)
    requires Working(w)
    ensures Kept(w, w)
  {
  }

  lemma NameStep(u: Work, w: Work, x: Name)
    requires Working(u) && Working(w) && Kept(u, w) && x !in w.i.ren && !PrimNamed(x) && BoundIn(u, x)
    ensures Working(WithName(w, x)) && Kept(u, WithName(w, x))
  {
    BoundInGrown(u, w);
    NameMade(w, x);
    KeptOn(u, w, WithName(w, x));
  }

  lemma BoundInGrown(w: Work, v: Work)
    requires Working(w) && Working(v) && Grown(w, v)
    ensures forall x :: BoundIn(w, x) <==> BoundIn(v, x)
  {
    GrownRen(w, v);
    BoundInSame(w, v);
  }
}
