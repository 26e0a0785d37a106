/** The slots a collection rewrites: roots, swept one after the other, and fields
    of copies. */
module ScmSlots {
  import opened ScmHeap
  import opened ScmCopy

  function SetRoot(r: Roots, l: Loc, v: Value): Roots
    requires IsRoot(r, l)
  {
    match l
    case Interned(t, j) => r.(interned := r.interned[t := r.interned[t][j := v]])
    case Arg(i) => r.(args := r.args[i := v])
    case Cc => r.(cc := v)
  }

  /** The slot holds `v`, not looked at yet; a field belongs to the copy of `owner`. */
  ghost predicate SlotOk(h: Mem, t: Trace, r: Roots, l: Loc, owner: int, v: Value) {
    if l.Field? then
      && owner in t.f && t.f[owner] == l.off && (owner, l.index) in t.pending
      && owner in h && 0 <= l.index < |h[owner].fields| && h[owner].fields[l.index] == v
    else
      IsRoot(r, l) && RootAt(r, l) == v
  }

  /** The slot's pending mark, if it has one. */
  ghost function Mark(l: Loc, owner: int): set<(int, int)> {
    if l.Field? then {(owner, l.index)} else {}
  }

  function RootsAfter(r: Roots, l: Loc, v: Value): Roots
    requires !l.Field? ==> IsRoot(r, l)
  {
    if l.Field? then r else SetRoot(r, l, v)
  }

  /** What a collection works from: the old pool, and a closed set of its objects
      that holds everything the slots at hand refer to. */
  datatype Goal = Goal(h: Mem, limit: int, live: set<int>)

  ghost predicate GoalOk(g: Goal) {
    HeapOk(g.h, g.limit) && Closed(g.h, g.live)
  }

  /** Some object of the set holds an infinity or a not-a-number. */
  ghost predicate HoldsSpecial(g: Goal) {
    exists o, i {:trigger g.h[o].fields[i]} ::
      o in g.live && o in g.h && 0 <= i < |g.h[o].fields| && g.h[o].fields[i].Special?
  }

  ghost function FieldsFrom(h: Mem, o: int, i: int): set<(int, int)>
    requires o in h && 0 <= i
  {
    set j | i <= j < |h[o].fields| :: (o, j)
  }

  /** A value that refers, if anywhere, to an object of the set, of its own tag. */
  predicate LiveValue(g: Goal, v: Value) {
    v.Ref? ==> v.off in g.live && v.off in g.h && HasTag(g.h[v.off].kind, v.tag)
  }

  lemma FieldLive(g: Goal, o: int, i: int)
    requires GoalOk(g) && o in g.live && o in g.h && 0 <= i < |g.h[o].fields|
    ensures LiveValue(g, g.h[o].fields[i])
    ensures g.h[o].fields[i].Special? ==> HoldsSpecial(g)
  {
    var v := g.h[o].fields[i];
    assert ObjOk(g.h, g.h[o]);
    assert ValueOk(g.h, v);
    assert v.Ref? ==> Edge(g.h, o, v.off);
  }

  lemma NoFieldsPending(g: Goal, t: Trace, from: Mem, to: Mem, idx: int, o: int)
    requires Collecting(g.h, t, from, to, idx) && o !in t.f
    ensures forall j :: (o, j) !in t.pending
  {
  }

  lemma ExtendPending(h: Mem, t: Trace, o: int, at: int, l: Loc, owner: int, u: Trace, base: set<(int, int)>)
    requires o in h && (forall j :: (o, j) !in t.pending) && (l.Field? ==> owner in t.f) && o !in t.f
    requires var w := Extend(h, t, o, at); u == w.(pending := w.pending - Mark(l, owner))
    requires base == t.pending - Mark(l, owner)
    ensures (forall j :: (o, j) !in base) && u.pending == base + FieldsFrom(h, o, 0)
    ensures o in u.f && u.f[o] == at
  {
  }

  // ------------------------------------------------------------------ roots

  /** How far the sweep over the roots has come: table, index in it, argument, `cc`. */
  datatype Progress = Progress(table: int, index: int, arg: int, cc: bool)

  predicate Passed(p: Progress, l: Loc) {
    match l
    case Interned(t, j) => t < p.table || (t == p.table && j < p.index)
    case Arg(i) => i < p.arg
    case Cc => p.cc
    case Field(_, _) => false
  }

  predicate SameShape(r: Roots, s: Roots) {
    && |r.interned| == |s.interned| && |r.args| == |s.args|
    && forall t :: 0 <= t < |r.interned| ==> |r.interned[t]| == |s.interned[t]|
  }

  /** Roots passed have moved with their objects, the others are as they were. */
  ghost predicate Swept(f: map<int, int>, r: Roots, s: Roots, p: Progress) {
    SameShape(r, s) &&
    forall l {:trigger IsRoot(r, l)} {:trigger RootAt(s, l)} :: IsRoot(r, l) ==>
      if Passed(p, l) then RootAt(s, l) == Moved(f, RootAt(r, l)) && Done(f, RootAt(r, l))
      else RootAt(s, l) == RootAt(r, l)
  }

  ghost predicate Next(r: Roots, p: Progress, l: Loc, q: Progress) {
    !Passed(p, l) && forall k {:trigger IsRoot(r, k)} :: IsRoot(r, k) ==> (Passed(q, k) <==> Passed(p, k) || k == l)
  }

  ghost predicate RootsLive(g: Goal, r: Roots) {
    forall l {:trigger IsRoot(r, l)} :: IsRoot(r, l) ==> LiveValue(g, RootAt(r, l))
  }

  lemma RootShape(r: Roots, s: Roots, l: Loc)
    requires SameShape(r, s)
    ensures IsRoot(r, l) <==> IsRoot(s, l)
  {
  }

  lemma UntilNow(f: map<int, int>, r: Roots, s: Roots, p: Progress, l: Loc, q: Progress)
    requires Swept(f, r, s, p) && IsRoot(r, l) && Next(r, p, l, q)
    ensures IsRoot(s, l) && RootAt(s, l) == RootAt(r, l) && !l.Field?
  {
    RootShape(r, s, l);
  }

  lemma SweptStep(t: Trace, u: Trace, r: Roots, s: Roots, p: Progress, l: Loc, q: Progress)
    requires Later(t, u) && Swept(t.f, r, s, p) && IsRoot(r, l) && IsRoot(s, l) && Next(r, p, l, q)
    requires Done(u.f, RootAt(r, l))
    ensures Swept(u.f, r, SetRoot(s, l, Moved(u.f, RootAt(r, l))), q)
  {
    var s' := SetRoot(s, l, Moved(u.f, RootAt(r, l)));
    forall k | IsRoot(r, k)
      ensures if Passed(q, k) then RootAt(s', k) == Moved(u.f, RootAt(r, k)) && Done(u.f, RootAt(r, k))
              else RootAt(s', k) == RootAt(r, k)
    {
      RootShape(r, s, k);
      if k != l {
        assert RootAt(s', k) == RootAt(s, k);
      }
    }
  }


  lemma BufferLive(g: Goal, o: int)
    requires GoalOk(g) && o in g.live && o in g.h && g.h[o].kind.String?
    ensures g.h[o].kind.buf in g.live
  {
    assert Edge(g.h, o, g.h[o].kind.buf);
  }

  lemma NothingPending(h: Mem, t: Trace, u: Trace, o: int, b: int, at: int)
    requires o in h && b in h && h[o].fields == [] && h[b].fields == []
    requires u == Extend(h, t, o, at) || u == Extend(h, Extend(h, t, o, at), b, at + ObjSize(h[o]))
    ensures u.pending == t.pending
  {
  }

  lemma GoalFacts(g: Goal)
    requires GoalOk(g)
    ensures HeapOk(g.h, g.limit) && Closed(g.h, g.live)
  {
  }

  /** The header tells whether an object has been copied, and where to. */
  lemma HeaderClear(g: Goal, t: Trace, from: Mem, to: Mem, idx: int, o: int)
    requires GoalOk(g) && Collecting(g.h, t, from, to, idx) && o in g.h
    ensures o in from && from[o].kind == g.h[o].kind && from[o].fields == g.h[o].fields
    ensures from[o].fref == if o in t.f then t.f[o] else 0
    ensures o in t.f ==> t.f[o] > 0
    ensures o !in t.f ==> from[o] == g.h[o]
  {
    hide Copied, Scanned, Total;
    assert ObjOk(g.h, g.h[o]);
  }

  lemma SlotKept(h: Mem, t: Trace, u: Trace, r: Roots, l: Loc, owner: int, v: Value)
    requires SlotOk(h, t, r, l, owner, v) && Later(t, u) && t.pending <= u.pending
    ensures SlotOk(h, u, r, l, owner, v)
  {
  }

  lemma CollectingFits(g: Goal, t: Trace, from: Mem, to: Mem, idx: int)
    requires GoalOk(g) && Collecting(g.h, t, from, to, idx)
    ensures idx <= g.limit
  {
    CopiesFit(g.h, g.limit, t, idx);
  }
}
