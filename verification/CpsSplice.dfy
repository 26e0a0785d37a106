/** From the copy of a procedure's body to the graph with the call inlined. */
module CpsSplice {
  import opened CpsLang
  import opened CpsCollect
  import opened CpsInline
  import opened CpsCopies

  /** A copied label stays; a tail becomes the place the call returns to. */
  function Out(w: Work, l: Label, back: Label): Label {
    if l in w.upto then l else back
  }

  /** A copy whose way out is to where the call returns. */
  function Redirected(w: Work, k: Kont, back: Label): Kont {
    match k
    case Kargs(vars, Continue(next, e)) => Kargs(vars, Continue(Out(w, next, back), e))
    case Kargs(vars, Branch(x, kt, kf)) => Kargs(vars, Branch(x, Out(w, kt, back), Out(w, kf, back)))
    case Kreceive(req, rest, next) => Kreceive(req, rest, Out(w, next, back))
    case _ => k
  }

  /** The copies in `done` are redirected and nothing else is changed. */
  ghost predicate Redirects(w: Work, h: Graph, done: set<Label>, back: Label) {
    && h.Keys == w.i.h.Keys
    && forall l {:trigger h[l]} :: l in w.i.h ==> h[l] == if l in done then Redirected(w, w.i.h[l], back) else w.i.h[l]
  }

  /** Where a copy goes on has been redirected with it. */
  ghost predicate Together(w: Work, done: set<Label>, c: Label) {
    c in w.top && c in w.i.h && forall l :: l in Succs(w.i.h[c]) && l in w.upto ==> l in done
  }

  /** Where redirecting can go on: a copy of the procedure's own code not come by yet,
      or the procedure's tail. */
  ghost predicate Redirectable(w: Work, done: set<Label>, k: Label) {
    k in w.i.h &&
    if k in w.upto then k in w.top && k < w.upto[k] && forall c :: c in done ==> !(k <= c < w.upto[k])
    else k == w.tail && w.i.h[k].Ktail?
  }

  /** What redirecting from `k` on came by. */
  ghost predicate CameBy(w: Work, was: set<Label>, done: set<Label>, k: Label) {
    && was <= done <= w.top
    && (forall c :: c in done && c !in was ==> k in w.upto && k <= c < w.upto[k] && Together(w, done, c))
    && (k in w.upto ==> k in done)
  }

  function Left(w: Work, k: Label): nat {
    if k in w.upto && k < w.upto[k] then w.upto[k] - k else 0
  }

  lemma NextRedirectable(w: Work, done: set<Label>, k: Label, l: Label)
    requires Working(w) && Redirectable(w, done, k) && k in w.upto && l in Succs(w.i.h[k])
    ensures Redirectable(w, done, l)
    ensures l in w.upto ==> k < l < w.upto[l] <= w.upto[k]
    ensures Left(w, l) < Left(w, k)
    ensures w.i.h[k].Kargs? || w.i.h[k].Kreceive?
  {
    assert CopyAt(w, k);
    SuccOrigin(w, k, l);
    if l in w.upto {
      assert CopyAt(w, l);
    }
  }

  /** After one arm the other is still to be come by. */
  lemma OtherRedirectable(w: Work, was: set<Label>, done: set<Label>, k: Label)
    requires Working(w) && Redirectable(w, was, k) && k in w.upto && w.i.h[k].Kargs? && w.i.h[k].term.Branch?
    requires CameBy(w, was, done, w.i.h[k].term.kt)
    ensures Redirectable(w, done, w.i.h[k].term.kf)
  {
    assert w.i.h[k].term.kf in Succs(w.i.h[k]) && w.i.h[k].term.kt in Succs(w.i.h[k]);
    NextRedirectable(w, was, k, w.i.h[k].term.kf);
    NextRedirectable(w, was, k, w.i.h[k].term.kt);
    assert CopyAt(w, k);
  }

  lemma CameOn(w: Work, was: set<Label>, mid: set<Label>, done: set<Label>, k: Label, l: Label)
    requires Working(w) && Redirectable(w, was, k) && k in w.upto && l in Succs(w.i.h[k])
    requires CameBy(w, mid, done, l) && was <= mid <= w.top
    requires forall c :: c in mid && c !in was ==> k < c < w.upto[k] && Together(w, mid, c)
    ensures was <= done <= w.top && k !in done
    ensures forall c :: c in done && c !in was ==> k < c < w.upto[k] && Together(w, done, c)
    ensures forall j :: j in mid ==> j in done
    ensures l in w.upto ==> l in done
  {
    NextRedirectable(w, was, k, l);
    forall c | c in done && c !in was
      ensures k < c < w.upto[k] && Together(w, done, c)
    {
      if c in mid {
        assert Together(w, mid, c);
      }
    }
  }

  lemma CameByAll(w: Work, was: set<Label>, done: set<Label>, k: Label)
    requires Working(w) && Redirectable(w, was, k) && k in w.upto && was <= done <= w.top
    requires forall c :: c in done && c !in was ==> k < c < w.upto[k] && Together(w, done, c)
    requires forall l :: l in Succs(w.i.h[k]) && l in w.upto ==> l in done
    ensures CameBy(w, was, done + {k}, k)
  {
    forall c | c in done + {k} && c !in was
      ensures k <= c < w.upto[k] && Together(w, done + {k}, c)
    {
      if c != k {
        assert Together(w, done, c);
      }
    }
  }

  lemma RedirectsOne(w: Work, h: Graph, done: set<Label>, back: Label, k: Label, kont: Kont)
    requires Redirects(w, h, done, back) && k in w.i.h && k !in done && kont == Redirected(w, w.i.h[k], back)
    ensures Redirects(w, h[k := kont], done + {k}, back)
  {
  }

  // ------------------------------------------------------------ the finished site

  /** The call with everything known of the copy: `body` is the copied body, whose place
      is taken by what binds the arguments, up to `last`. */
  function Finished(w: Work, h: Graph, hr: Rank, done: set<Label>, body: Label, last: Label): Site
    requires body in w.i.seen && w.i.seen.Keys == w.i.from.Keys
  {
    w.i.(h := h, hr := hr, own := done - {body}, last := last, met := w.i.seen[body],
         from := map c | c in w.i.from && c != body && (c in done || c !in w.top) :: w.i.from[c],
         seen := map c | c in w.i.from && c != body && (c in done || c !in w.top) :: w.i.seen[c])
  }

  /** What there is in the end. */
  ghost predicate Spliced(w: Work, h: Graph, done: set<Label>, body: Label, last: Label) {
    && Working(w) && done <= w.top && body in done && body in w.i.from && w.i.from[body] == w.i.g[w.i.code].body
    && (forall c :: c in done ==> Together(w, done, c) && body <= c)
    && (forall l {:trigger l in w.i.g} {:trigger h[l]} :: l in w.i.g && l != w.i.at ==> l in h && h[l] == w.i.g[l])
    && (forall c {:trigger c in w.i.from} {:trigger h[c]} :: c in w.i.from && c != body ==>
          c in h && h[c] == if c in done then Redirected(w, w.i.h[c], Return(w.i)) else w.i.h[c])
  }

  /** The code of a procedure made in the copy lies below its level. */
  lemma FinishedCode(w: Work, h: Graph, hr: Rank, done: set<Label>, body: Label, last: Label, met: set<Name>, s: Label, s': Label)
    requires Spliced(w, h, done, body, last) && Edge(w.i, Copy(false, met), s, s') && !w.i.g[s].Ktail? && s' !in w.top
    ensures Calls(Finished(w, h, hr, done, body, last)) && Edge(Finished(w, h, hr, done, body, last), Copy(false, met), s, s')
  {
  }

  lemma FinishedEdge(w: Work, h: Graph, hr: Rank, done: set<Label>, body: Label, last: Label, c: Label, met: set<Name>, s: Label, s': Label)
    requires Spliced(w, h, done, body, last) && c in w.i.from && Edge(w.i, Copy(false, met), s, s') && Onward(w, c, s')
    requires c in done ==> (s' in w.upto ==> s' in done) && body <= c
    ensures Calls(Finished(w, h, hr, done, body, last))
    ensures c in done ==> Edge(Finished(w, h, hr, done, body, last), Copy(true, met), s, Out(w, s', Return(w.i)))
    ensures c !in w.top ==> Edge(Finished(w, h, hr, done, body, last), Copy(false, met), s, s')
  {
  }

  /** Names are the same in either view. */
  lemma FinishedNames(w: Work, h: Graph, hr: Rank, done: set<Label>, body: Label, last: Label, own: bool, met: set<Name>, xs: seq<Name>)
    requires Spliced(w, h, done, body, last)
    ensures Images(Finished(w, h, hr, done, body, last), Copy(own, met), xs) == Images(w.i, Copy(false, met), xs)
    ensures forall x :: Image(Finished(w, h, hr, done, body, last), Copy(own, met), x) == Image(w.i, Copy(false, met), x)
  {
  }

  lemma FinishedExpr(w: Work, h: Graph, hr: Rank, done: set<Label>, body: Label, last: Label, own: bool, met: set<Name>, e: Expr, e': Expr)
    requires Spliced(w, h, done, body, last) && ExprCopy(w.i, Copy(false, met), e, e') && (e'.EProc? ==> e'.k !in w.top)
    ensures Calls(Finished(w, h, hr, done, body, last)) && ExprCopy(Finished(w, h, hr, done, body, last), Copy(own, met), e, e')
  {
    SplicedCalls(w, h, hr, done, body, last);
    hide Spliced, Edge, Image, Images;
    match e
    case EProc(code) => FinishedCode(w, h, hr, done, body, last, met, code, e'.k);
    case EValues(args) => FinishedNames(w, h, hr, done, body, last, own, met, args);
    case EPrimcall(_, args) => FinishedNames(w, h, hr, done, body, last, own, met, args);
    case ECall(_, args) => FinishedNames(w, h, hr, done, body, last, own, met, args);
    case _ =>
  }

  lemma SplicedCalls(w: Work, h: Graph, hr: Rank, done: set<Label>, body: Label, last: Label)
    requires Spliced(w, h, done, body, last)
    ensures Calls(Finished(w, h, hr, done, body, last)) && Calls(w.i)
    ensures Return(Finished(w, h, hr, done, body, last)) == Return(w.i)
  {
  }

  /** Going on as the copy does, with the tails redirected if it is the procedure's own. */
  lemma FinishedTerm(w: Work, h: Graph, hr: Rank, done: set<Label>, body: Label, last: Label, c: Label, kont: Kont)
    requires Spliced(w, h, done, body, last) && c in w.i.from && (c in done || c !in w.top)
    requires c in w.i.h && w.i.from[c] in w.i.g && w.i.g[w.i.from[c]].Kargs? && w.i.h[c].Kargs?
    requires kont == if c in done then Redirected(w, w.i.h[c], Return(w.i)) else w.i.h[c]
    ensures Calls(Finished(w, h, hr, done, body, last)) && kont.Kargs? && kont.vars == w.i.h[c].vars
    ensures TermCopy(Finished(w, h, hr, done, body, last), Copy(c in done, w.i.seen[c]), w.i.g[w.i.from[c]].term, kont.term)
  {
    SplicedCopy(w, h, hr, done, body, last, c);
    hide Spliced, Edge, Image, Images, Onward;
    var met, t, t' := w.i.seen[c], w.i.g[w.i.from[c]].term, w.i.h[c].term;
    match t
    case Branch(x, kt, kf) =>
      FinishedNames(w, h, hr, done, body, last, c in done, met, []);
      assert t'.kt in Succs(w.i.h[c]) && t'.kf in Succs(w.i.h[c]);
      FinishedEdge(w, h, hr, done, body, last, c, met, kt, t'.kt);
      FinishedEdge(w, h, hr, done, body, last, c, met, kf, t'.kf);
    case Continue(k, e) =>
      assert t'.k in Succs(w.i.h[c]);
      FinishedEdge(w, h, hr, done, body, last, c, met, k, t'.k);
      FinishedExpr(w, h, hr, done, body, last, c in done, met, e, t'.expr);
  }

  lemma SplicedCopy(w: Work, h: Graph, hr: Rank, done: set<Label>, body: Label, last: Label, c: Label)
    requires Spliced(w, h, done, body, last) && c in w.i.from
    ensures Calls(w.i) && KontCopy(w.i, c) && Nested(w, c) && c !in w.i.own && c in w.i.seen && c in w.upto
    ensures c in done ==> Together(w, done, c) && body <= c && c in w.top
    ensures Calls(Finished(w, h, hr, done, body, last)) && Return(Finished(w, h, hr, done, body, last)) == Return(w.i)
  {
    assert CopyAt(w, c);
    if c in done {
      assert Together(w, done, c);
    }
  }

  lemma FinishedKont(w: Work, h: Graph, hr: Rank, done: set<Label>, body: Label, last: Label, c: Label)
    requires Spliced(w, h, done, body, last) && c in Finished(w, h, hr, done, body, last).from
    ensures Calls(Finished(w, h, hr, done, body, last)) && KontCopy(Finished(w, h, hr, done, body, last), c)
  {
    SplicedCopy(w, h, hr, done, body, last, c);
    var met := w.i.seen[c];
    match w.i.g[w.i.from[c]]
    case Kargs(vars, t) =>
      FinishedNames(w, h, hr, done, body, last, c in done, met, vars);
      FinishedTerm(w, h, hr, done, body, last, c, h[c]);
    case Kreceive(_, _, k) =>
      assert w.i.h[c].k in Succs(w.i.h[c]);
      FinishedEdge(w, h, hr, done, body, last, c, met, k, w.i.h[c].k);
    case Kproc(_, _, _, b) =>
      FinishedEdge(w, h, hr, done, body, last, c, met, b, w.i.h[c].body);
  }

  // --------------------------------------------------------------- well-founded

  /** The arguments are bound one after the other by labels numbered from the counter
      on; then comes the term of the copied body. */
  ghost predicate Strung(w: Work, h: Graph, body: Label, last: Label) {
    && Calls(w.i) && body in w.i.h && w.i.h[body].Kargs? && Redirected(w, w.i.h[body], Return(w.i)).Kargs?
    && w.i.at in h && h[w.i.at].Kargs? && h[w.i.at].vars == w.i.g[w.i.at].vars
    && OneByOne(h, w.i.at, w.i.h[body].vars, w.i.g[w.i.at].term.expr.args, last)
    && last in h && h[last].Kargs? && h[last].term == Redirected(w, w.i.h[body], Return(w.i)).term
    && body in h && h[body] == Kargs([], h[last].term)
    && (forall l :: l in h ==> l in w.i.g || l in w.i.from || w.n <= l <= w.n + |w.i.h[body].vars|)
    && (forall l {:trigger Passes(w, h, l, last)} :: l in h && (l == w.i.at || l >= w.n) ==> Passes(w, h, l, last))
  }

  /** A label that binds an argument goes on to a later one. */
  ghost predicate Passes(w: Work, h: Graph, l: Label, last: Label)
    requires l in h
  {
    l == last || (h[l].Kargs? && h[l].term.Continue? && h[l].term.k in h && h[l].term.k >= w.n && (l >= w.n ==> h[l].term.k > l))
  }

  /** How far each label is from the end: the copy lies between the call and the place
      it returns to. */
  function Height(w: Work, done: set<Label>, n: nat, back: nat, depth: nat, l: Label): nat {
    var step := depth + n + 4;
    if l in w.i.g then Steps(step, w.i.gr(l))
    else if l in w.i.from then
      if l in done then Steps(step, back) + 1 + w.i.gr(w.i.from[l])
      else if l in w.top then Steps(step, back) + step + Steps(step, w.i.gr(w.i.from[l]))
      else Steps(step, w.i.gr(w.i.from[l]))
    else if l <= w.n + n then Steps(step, back) + depth + 2 + (w.n + n - l)
    else 0
  }

  function Steps(step: nat, n: nat): nat {
    step * n
  }

  lemma {:induction false} Scale(step: nat, a: nat, b: nat)
    requires a < b
    ensures Steps(step, a) + step <= Steps(step, b)
    decreases b
  {
    if a + 1 < b {
      Scale(step, a, b - 1);
    }
  }

  /** A copy goes on where its original does. */
  lemma SuccOrigin(w: Work, c: Label, l: Label)
    requires Calls(w.i) && Keyed(w) && KontCopy(w.i, c) && l in Succs(w.i.h[c])
    ensures w.i.from[c] in w.i.g
    ensures (l in w.i.from && w.i.from[l] in Succs(w.i.g[w.i.from[c]])) || (l in w.i.g && w.i.g[l].Ktail? && l in Succs(w.i.g[w.i.from[c]]))
  {
    hide ExprCopy, Image, Images;
  }

  /** From the copied body on, control is below what binds the arguments. */
  lemma TermBelow(w: Work, h: Graph, done: set<Label>, body: Label, last: Label, c: Label, s': Label)
    requires Spliced(w, h, done, body, last) && c in done && s' in Succs(Redirected(w, w.i.h[c], Return(w.i)))
    ensures s' == Return(w.i) || (s' in done && s' in w.i.from && s' !in w.i.g && w.i.from[c] in w.i.g && w.i.from[s'] in w.i.g
                                  && w.i.gr(w.i.from[s']) < w.i.gr(w.i.from[c]))
  {
    hide Working, Tame, Acyclic, Nested, NamesMade, AllCopied, KontCopy;
    SplicedBase(w, h, done, body, last);
    SplicedCopy(w, h, w.i.gr, done, body, last, c);
    hide Spliced;
    if s' != Return(w.i) {
      assert s' in Succs(w.i.h[c]) && s' in w.upto;
      SuccOrigin(w, c, s');
    }
  }

  lemma SplicedBase(w: Work, h: Graph, done: set<Label>, body: Label, last: Label)
    requires Spliced(w, h, done, body, last)
    ensures Base(w) && Keyed(w) && Added(w) && done <= w.top && body in done && Calls(w.i)
    ensures w.i.at in w.i.g && w.i.from[body] == w.i.g[w.i.code].body
  {
  }

  lemma ReturnBelow(i: Site)
    requires Calls(i) && Ranked(i.g, i.gr)
    ensures Return(i) in i.g && i.gr(Return(i)) < i.gr(i.at)
  {
    var k := i.g[i.at].term.k;
    assert k in Succs(i.g[i.at]);
    if i.g[k].Kreceive? {
      assert i.g[k].k in Succs(i.g[k]);
    }
  }

  lemma HeightOld(w: Work, h: Graph, done: set<Label>, body: Label, last: Label, n: nat, back: nat, depth: nat, l: Label, s: Label)
    requires Spliced(w, h, done, body, last) && Strung(w, h, body, last) && l in w.i.g && l != w.i.at && l in h && s in Succs(h[l])
    ensures s in h && Height(w, done, n, back, depth, s) < Height(w, done, n, back, depth, l)
  {
    assert h[l] == w.i.g[l] && s in w.i.g && w.i.gr(s) < w.i.gr(l);
    assert s in h;
    hide Spliced, Strung, Steps;
    Scale(depth + n + 4, w.i.gr(s), w.i.gr(l));
  }

  lemma HeightCopy(w: Work, h: Graph, done: set<Label>, body: Label, last: Label, n: nat, back: nat, depth: nat, l: Label, s: Label)
    requires Spliced(w, h, done, body, last) && Strung(w, h, body, last) && l in w.i.from && l in h && s in Succs(h[l])
    requires back == w.i.gr(Return(w.i))
    ensures s in h && Height(w, done, n, back, depth, s) < Height(w, done, n, back, depth, l)
  {
    SplicedBase(w, h, done, body, last);
    SplicedCopy(w, h, w.i.gr, done, body, last, l);
    CopyPresent(w, h, done, body, last, s);
    CopyPresent(w, h, done, body, last, l);
    CopySuccs(w, h, done, body, last, l);
    ReturnBelow(w.i);
    if l in done {
      hide Spliced, Strung, Working, Tame, Acyclic, KontCopy, Nested, Together, Steps, Calls, Return, Redirected, Base;
      TermBelow(w, h, done, body, last, l, s);
      CopyPresent(w, h, done, body, last, Return(w.i));
    } else {
      hide Spliced, Strung, Working, Tame, Acyclic, KontCopy, Nested, Together, Steps, Calls, Return, Redirected, Base, Height;
      HeightOther(w, done, n, back, depth, l, s);
    }
  }

  lemma HeightOther(w: Work, done: set<Label>, n: nat, back: nat, depth: nat, l: Label, s: Label)
    requires Base(w) && Keyed(w) && Added(w) && done <= w.top && KontCopy(w.i, l) && Nested(w, l) && l !in done && s in Succs(w.i.h[l])
    requires l in w.i.from && l !in w.i.g && (s in w.i.from ==> s !in w.i.g)
    ensures s in w.i.g || s in w.i.from
    ensures Height(w, done, n, back, depth, s) < Height(w, done, n, back, depth, l)
  {
    SuccOrigin(w, l, s);
    SameLevel(w, l, s);
    hide KontCopy, Nested, Tame, Acyclic, Calls, Steps, Keyed;
    var t := if s in w.i.from then w.i.from[s] else s;
    assert w.i.gr(t) < w.i.gr(w.i.from[l]);
    Scale(depth + n + 4, w.i.gr(t), w.i.gr(w.i.from[l]));
    AtLeast(depth + n + 4, w.i.gr(w.i.from[l]));
  }

  lemma SameLevel(w: Work, l: Label, s: Label)
    requires Nested(w, l) && s in Succs(w.i.h[l])
    ensures s in w.upto ==> (s in w.top <==> l in w.top)
  {
  }

  lemma {:induction false} AtLeast(step: nat, n: nat)
    requires step > 0
    ensures Steps(step, n) >= n
  {
    if n > 0 {
      AtLeast(step, n - 1);
    }
  }

  /** Whatever the copy can lead to is in the graph. */
  lemma CopyPresent(w: Work, h: Graph, done: set<Label>, body: Label, last: Label, s: Label)
    requires Spliced(w, h, done, body, last) && Strung(w, h, body, last)
    ensures s in w.i.g || s in w.i.from ==> s in h
    ensures s in w.i.from ==> w.i.mark <= s < w.n && s !in w.i.g
  {
  }

  lemma CopySuccs(w: Work, h: Graph, done: set<Label>, body: Label, last: Label, l: Label)
    requires Spliced(w, h, done, body, last) && Strung(w, h, body, last) && l in w.i.from && l in h && l in w.i.h
    ensures Succs(h[l]) == Succs(if l in done then Redirected(w, w.i.h[l], Return(w.i)) else w.i.h[l])
  {
  }

  /** Where the chain of bindings goes on. */
  lemma BindNext(w: Work, h: Graph, body: Label, last: Label, l: Label, s: Label)
    requires Strung(w, h, body, last) && l in h && (l == w.i.at || l >= w.n) && s in Succs(h[l])
    ensures if l == last then s in Succs(Redirected(w, w.i.h[body], Return(w.i)))
            else s in h && s >= w.n && (l >= w.n ==> s > l)
  {
    assert Passes(w, h, l, last);
  }

  lemma HeightBind(w: Work, h: Graph, done: set<Label>, body: Label, last: Label, n: nat, back: nat, depth: nat, l: Label, s: Label)
    requires Spliced(w, h, done, body, last) && Strung(w, h, body, last) && l in h && (l == w.i.at || l >= w.n) && s in Succs(h[l])
    requires n == |w.i.h[body].vars| && back == w.i.gr(Return(w.i)) && depth == w.i.gr(w.i.g[w.i.code].body)
    ensures s in h && Height(w, done, n, back, depth, s) < Height(w, done, n, back, depth, l)
  {
    hide Spliced, Strung, Working, Tame, Acyclic, Together, Steps, Passes, Redirected, Base, Edge, AllCopied, NamesMade;
    SplicedBase(w, h, done, body, last);
    BindNext(w, h, body, last, l, s);
    ReturnBelow(w.i);
    CopyPresent(w, h, done, body, last, s);
    CopyPresent(w, h, done, body, last, l);
    BindPresent(w, h, body, last, l);
    BindPresent(w, h, body, last, s);
    Scale(depth + n + 4, back, w.i.gr(w.i.at));
    if l == last {
      TermBelow(w, h, done, body, last, body, s);
    }
  }

  lemma BindPresent(w: Work, h: Graph, body: Label, last: Label, l: Label)
    requires Strung(w, h, body, last) && Added(w)
    ensures l in h && l >= w.n ==> l <= w.n + |w.i.h[body].vars| && l !in w.i.g && l !in w.i.from
  {
  }

  /** The rewritten graph is well-founded. */
  lemma SplicedRanked(w: Work, h: Graph, done: set<Label>, body: Label, last: Label) returns (hr: Rank)
    requires Spliced(w, h, done, body, last) && Strung(w, h, body, last)
    ensures Ranked(h, hr)
  {
    var n, back, depth := |w.i.h[body].vars|, w.i.gr(Return(w.i)), w.i.gr(w.i.g[w.i.code].body);
    hr := (l: Label) => Height(w, done, n, back, depth, l);
    hide Spliced, Strung, Height;
    forall l, s | l in h && s in Succs(h[l])
      ensures s in h && hr(s) < hr(l)
    {
      StrungLabel(w, h, body, last, l);
      if l == w.i.at || l >= w.n {
        HeightBind(w, h, done, body, last, n, back, depth, l, s);
      } else if l in w.i.g {
        HeightOld(w, h, done, body, last, n, back, depth, l, s);
      } else {
        HeightCopy(w, h, done, body, last, n, back, depth, l, s);
      }
    }
  }

  lemma StrungLabel(w: Work, h: Graph, body: Label, last: Label, l: Label)
    requires Strung(w, h, body, last) && l in h
    ensures l in w.i.g || l in w.i.from || l >= w.n
  {
  }

  lemma SplicedInlined(w: Work, h: Graph, hr: Rank, done: set<Label>, body: Label, last: Label)
    requires Spliced(w, h, done, body, last) && Strung(w, h, body, last) && Ranked(h, hr)
    ensures Inlined(Finished(w, h, hr, done, body, last))
  {
    var i := Finished(w, h, hr, done, body, last);
    SplicedBase(w, h, done, body, last);
    SplicedCalls(w, h, hr, done, body, last);
    ReturnBelow(w.i);
    assert Renames(i);
    assert Shape(i);
    assert Binds(i) by {
      SplicedCopy(w, h, hr, done, body, last, body);
      FinishedNames(w, h, hr, done, body, last, true, w.i.seen[body], w.i.g[w.i.g[w.i.code].body].vars);
      FinishedTerm(w, h, hr, done, body, last, body, Redirected(w, w.i.h[body], Return(w.i)));
    }
    forall c | c in i.from
      ensures KontCopy(i, c)
    {
      FinishedKont(w, h, hr, done, body, last, c);
    }
    assert Copied(i);
  }

  // ----------------------------------------------------------- binding arguments

  /** A label that binds an argument goes on to a later one, numbered from `n` on. */
  ghost predicate PassesOn(h: Graph, l: Label, last: Label, n: nat)
    requires l in h
  {
    h[l].Kargs? && (l == last || (h[l].term.Continue? && h[l].term.k in h && h[l].term.k >= n && h[l].term.k > l))
  }

  /** What comes after the last argument is free. */
  lemma {:induction false} LastFree(h: Graph, k: Label, xs: seq<Name>, args: seq<Name>, last: Label, t: Term)
    requires OneByOne(h, k, xs, args, last)
    ensures k <= last && last in h && h[last].Kargs?
    ensures OneByOne(h[last := Kargs(h[last].vars, t)], k, xs, args, last)
    decreases xs
  {
    if xs != [] {
      LastFree(h, h[k].term.k, xs[1..], args[1..], last, t);
    }
  }

  /** The graph before the arguments are bound: the copy redirected, its entry without variables. */
  ghost predicate Prepared(w: Work, h: Graph, done: set<Label>, body: Label) {
    && Working(w) && (forall l :: l in w.i.h ==> l in w.i.g || l in w.i.from)
    && body in w.i.from && w.i.from[body] == w.i.g[w.i.code].body && CameBy(w, {}, done, body) && body in w.upto
    && body in w.i.h && w.i.h[body].Kargs? && Redirected(w, w.i.h[body], Return(w.i)).Kargs?
    && h.Keys == w.i.h.Keys && h[body] == Kargs([], Redirected(w, w.i.h[body], Return(w.i)).term)
    && forall l {:trigger h[l]} :: l in w.i.h && l != body ==>
         h[l] == if l in done then Redirected(w, w.i.h[l], Return(w.i)) else w.i.h[l]
  }

  /** The arguments bound, with the call's own continuation first. */
  ghost predicate Attached(w: Work, h: Graph, h': Graph, body: Label, last: Label)
    requires Calls(w.i)
  {
    && body in w.i.h && w.i.h[body].Kargs? && w.i.at in h && h[w.i.at].Kargs?
    && w.i.at in h' && h'[w.i.at].Kargs? && h'[w.i.at].vars == h[w.i.at].vars
    && (forall l {:trigger l in h} {:trigger h'[l]} :: l in h && l != w.i.at ==> l in h' && h'[l] == h[l])
    && (forall l :: l in h' ==> l in h || w.n <= l < w.n + |w.i.h[body].vars|)
    && OneByOne(h', w.i.at, w.i.h[body].vars, w.i.g[w.i.at].term.expr.args, last) && (last == w.i.at || last >= w.n)
    && (forall l :: l in h' && (l == w.i.at || l >= w.n) ==> PassesOn(h', l, last, w.n))
  }

  lemma DoneTogether(w: Work, h: Graph, done: set<Label>, body: Label)
    requires Prepared(w, h, done, body)
    ensures done <= w.top && body in done && forall c :: c in done ==> Together(w, done, c) && body <= c
  {
    hide NamesMade, AllCopied, Acyclic, Tame, Redirected, Ranked;
    forall c | c in done
      ensures Together(w, done, c) && body <= c
    {
      assert c !in {};
    }
  }

  lemma AttachedOld(w: Work, h: Graph, h': Graph, done: set<Label>, body: Label, last: Label, l: Label)
    requires Prepared(w, h, done, body) && Attached(w, h, h', body, last) && l in w.i.g && l != w.i.at
    ensures l in h' && h'[l] == w.i.g[l] && l != last
  {
    hide NamesMade, AllCopied, Acyclic, Tame, OneByOne, Redirected, Ranked;
  }

  lemma AttachedCopy(w: Work, h: Graph, h': Graph, done: set<Label>, body: Label, last: Label, c: Label)
    requires Prepared(w, h, done, body) && Attached(w, h, h', body, last) && c in w.i.from && c != body
    ensures c in h' && c != last && h'[c] == if c in done then Redirected(w, w.i.h[c], Return(w.i)) else w.i.h[c]
  {
    hide NamesMade, AllCopied, Acyclic, Tame, OneByOne, Redirected, Ranked;
  }

  lemma AttachedLast(w: Work, h: Graph, h': Graph, done: set<Label>, body: Label, last: Label)
    requires Prepared(w, h, done, body) && Attached(w, h, h', body, last)
    ensures last in h' && h'[last].Kargs? && body in h && h[body].Kargs?
    ensures Working(w) && Calls(w.i) && body in w.i.from && w.i.from[body] == w.i.g[w.i.code].body
    ensures forall c :: c in w.i.from ==> c in w.i.h
  {
    hide Prepared;
    PreparedParts(w, h, done, body);
    LastFree(h', w.i.at, w.i.h[body].vars, w.i.g[w.i.at].term.expr.args, last, h[body].term);
  }

  lemma PreparedParts(w: Work, h: Graph, done: set<Label>, body: Label)
    requires Prepared(w, h, done, body)
    ensures Working(w) && Calls(w.i) && body in w.i.from && w.i.from[body] == w.i.g[w.i.code].body && body in h && h[body].Kargs?
    ensures forall c :: c in w.i.from ==> c in w.i.h
  {
  }

  lemma AttachedSpliced(w: Work, h: Graph, h': Graph, done: set<Label>, body: Label, last: Label)
    requires Prepared(w, h, done, body) && Attached(w, h, h', body, last)
    ensures last in h' && h'[last].Kargs?
    ensures Spliced(w, h'[last := Kargs(h'[last].vars, h[body].term)], done, body, last)
  {
    hide Prepared, Attached, Working, Together, Redirected;
    AttachedLast(w, h, h', done, body, last);
    DoneTogether(w, h, done, body);
    var i := h'[last := Kargs(h'[last].vars, h[body].term)];
    forall l | l in w.i.g && l != w.i.at
      ensures l in i && i[l] == w.i.g[l]
    {
      AttachedOld(w, h, h', done, body, last, l);
    }
    forall c | c in w.i.from && c != body
      ensures c in i && i[c] == if c in done then Redirected(w, w.i.h[c], Return(w.i)) else w.i.h[c]
    {
      AttachedCopy(w, h, h', done, body, last, c);
    }
  }

  lemma AttachedStrung(w: Work, h: Graph, h': Graph, done: set<Label>, body: Label, last: Label)
    requires Prepared(w, h, done, body) && Attached(w, h, h', body, last)
    ensures last in h' && h'[last].Kargs?
    ensures Strung(w, h'[last := Kargs(h'[last].vars, h[body].term)], body, last)
  {
    hide Working, NamesMade, AllCopied, Acyclic, Tame, Ranked, CameBy, Passes, Redirected;
    AttachedLast(w, h, h', done, body, last);
    AttachedPasses(w, h, h', done, body, last);
    AttachedHere(w, h, h', done, body, last);
    hide PassesOn, OneByOne;
    LastFree(h', w.i.at, w.i.h[body].vars, w.i.g[w.i.at].term.expr.args, last, h[body].term);
  }

  lemma AttachedHere(w: Work, h: Graph, h': Graph, done: set<Label>, body: Label, last: Label)
    requires Prepared(w, h, done, body) && Attached(w, h, h', body, last)
    ensures w.i.at in h' && h'[w.i.at].Kargs? && h'[w.i.at].vars == w.i.g[w.i.at].vars
    ensures body in h' && h'[body] == h[body] && body != last && body != w.i.at
  {
    hide NamesMade, AllCopied, Acyclic, Tame, OneByOne, Ranked, PassesOn, Redirected;
  }

  lemma AttachedPasses(w: Work, h: Graph, h': Graph, done: set<Label>, body: Label, last: Label)
    requires Prepared(w, h, done, body) && Attached(w, h, h', body, last) && last in h' && h'[last].Kargs?
    ensures var i := h'[last := Kargs(h'[last].vars, h[body].term)];
      forall l {:trigger Passes(w, i, l, last)} :: l in i && (l == w.i.at || l >= w.n) ==> Passes(w, i, l, last)
  {
    hide Working, NamesMade, AllCopied, Acyclic, Tame, OneByOne, Ranked, CameBy;
    var i := h'[last := Kargs(h'[last].vars, h[body].term)];
    forall l | l in i && (l == w.i.at || l >= w.n)
      ensures Passes(w, i, l, last)
    {
      assert PassesOn(h', l, last, w.n);
    }
  }
}
