/** What a finished collection has done: the live part of the heap, and nothing
    else, has moved without changing its shape. */
module ScmCollected {
  import opened ScmHeap
  import opened ScmCopy
  import opened ScmSlots

  /** How many live strings use the buffer `b`. */
  ghost function LiveSharers(h: Mem, r: Roots, b: int): nat {
    |set s | s in ReachableSet(h, r) && Uses(h, s, b)|
  }

  ghost predicate IsCopy(h: Mem, r: Roots, f: map<int, int>, o: int, c: Obj)
    requires o in h
  {
    && c.fref == 0
    && c.kind == MovedKind(f, h[o].kind, I8(LiveSharers(h, r, o)))
    && |c.fields| == |h[o].fields|
    && forall i {:trigger c.fields[i]} :: 0 <= i < |c.fields| ==> c.fields[i] == Moved(f, h[o].fields[i])
  }

  /** `f` takes the reachable objects one to one onto those of the new heap, with
      their kinds, scalars, fields and references, and the roots follow. */
  ghost predicate Isomorphic(h: Mem, r: Roots, f: map<int, int>, h': Mem, r': Roots) {
    && f.Keys == ReachableSet(h, r)
    && (forall o, p {:trigger f[o], f[p]} :: o in f && p in f && o != p ==> f[o] != f[p])
    && Covered(f, h')
    && (forall o {:trigger f[o]} :: o in f ==> o in h && f[o] in h' && IsCopy(h, r, f, o, h'[f[o]]))
    && SameShape(r, r')
    && forall l {:trigger IsRoot(r, l)} :: IsRoot(r, l) ==> IsRoot(r', l) && RootAt(r', l) == Moved(f, RootAt(r, l))
  }

  /** The new heap is packed: it takes exactly what the copied objects take. */
  ghost predicate Compact(h: Mem, r: Roots, t: Trace, h': Mem, used: int) {
    && Distinct(t.order)
    && (forall o :: o in t.order <==> o in ReachableSet(h, r))
    && used == 8 + Total(h, t.order)
    && Layout(h', used)
  }

  ghost predicate Result(h: Mem, r: Roots, t: Trace, h': Mem, r': Roots, used: int) {
    Isomorphic(h, r, t.f, h', r') && Compact(h, r, t, h', used)
  }

  /** An infinity or a not-a-number can be reached. */
  ghost predicate SpecialReachable(h: Mem, r: Roots) {
    || (exists l {:trigger IsRoot(r, l)} :: IsRoot(r, l) && RootAt(r, l).Special?)
    || (exists o, i {:trigger h[o].fields[i]} ::
          o in ReachableSet(h, r) && o in h && 0 <= i < |h[o].fields| && h[o].fields[i].Special?)
  }

  // ------------------------------------------------- the end of a collection

  ghost predicate AllPassed(r: Roots, p: Progress) {
    forall l {:trigger IsRoot(r, l)} :: IsRoot(r, l) ==> Passed(p, l)
  }

  lemma CopiedClosed(h: Mem, limit: int, t: Trace, from: Mem, to: Mem, idx: int)
    requires HeapOk(h, limit) && Collecting(h, t, from, to, idx) && t.pending == {}
    ensures Closed(h, t.f.Keys)
  {
    hide Copied, Forwarded, Total;
    forall o | o in t.f.Keys
      ensures o in h.Keys
    {
    }
    forall o, p | o in t.f.Keys && Edge(h, o, p)
      ensures p in t.f.Keys
    {
      if i :| 0 <= i < |h[o].fields| && h[o].fields[i].Ref? && h[o].fields[i].off == p {
        assert Done(t.f, h[o].fields[i]);
      }
    }
  }

  /** The objects copied are the reachable ones. */
  lemma CopiedReachable(g: Goal, r: Roots, t: Trace, from: Mem, to: Mem, idx: int, s: Roots, p: Progress)
    requires HeapOk(g.h, g.limit) && Collecting(g.h, t, from, to, idx) && t.pending == {}
    requires g.live == ReachableSet(g.h, r) && t.f.Keys <= g.live && Swept(t.f, r, s, p) && AllPassed(r, p)
    ensures t.f.Keys == ReachableSet(g.h, r)
  {
    hide Collecting, HeapOk, ReachableSet, Closed;
    CopiedClosed(g.h, g.limit, t, from, to, idx);
    forall l | IsRoot(r, l) && RootAt(r, l).Ref?
      ensures RootAt(r, l).off in t.f
    {
      assert Passed(p, l);
    }
    ClosedHoldsReachable(g.h, r, t.f.Keys);
  }

  lemma {:induction false} SharersCount(h: Mem, order: seq<int>, b: int)
    requires Distinct(order)
    ensures Sharers(h, order, b) == |set s | s in order && Uses(h, s, b)|
  {
    var now := set s | s in order && Uses(h, s, b);
    if order != [] {
      var front, o := order[..|order| - 1], order[|order| - 1];
      SharersCount(h, front, b);
      var was := set s | s in front && Uses(h, s, b);
      assert o !in front;
      assert order == front + [o];
      assert now == if Uses(h, o, b) then was + {o} else was;
    }
  }

  lemma CopyIs(h: Mem, r: Roots, t: Trace, o: int, c: Obj)
    requires Distinct(t.order) && (forall q :: q in t.order <==> q in ReachableSet(h, r))
    requires o in h && IsImage(h, t, o, c) && t.pending == {}
    ensures IsCopy(h, r, t.f, o, c)
  {
    hide ReachableSet, Sharers, I8, Uses;
    SharersCount(h, t.order, o);
    assert (set s | s in t.order && Uses(h, s, o)) == set s | s in ReachableSet(h, r) && Uses(h, s, o);
  }

  lemma CopySize(h: Mem, t: Trace, o: int, c: Obj)
    requires o in h && IsImage(h, t, o, c)
    ensures ObjSize(c) == SizeAt(h, o) > 0
  {
  }

  lemma CopiesLayout(h: Mem, r: Roots, t: Trace, to: Mem, idx: int)
    requires Packed(h, t, idx) && Copied(h, t, to)
    ensures Layout(to, idx)
  {
    hide Total, Sharers, I8, IsImage, ObjSize, SizeAt;
    forall o | o in t.f
      ensures o in h && t.f[o] in to && ObjSize(to[t.f[o]]) == SizeAt(h, o) > 0
    {
      CopySize(h, t, o, to[t.f[o]]);
    }
    assert 8 <= idx;
    forall p | p in to
      ensures 8 <= p && p + ObjSize(to[p]) <= idx
    {
      var o :| o in t.f && t.f[o] == p;
    }
    forall p, q | p in to && q in to && p < q
      ensures p + ObjSize(to[p]) <= q
    {
      var o :| o in t.f && t.f[o] == p;
      var s :| s in t.f && t.f[s] == q;
    }
  }

  /** When every root has been passed and no field is pending, the collection is done. */
  lemma Finished(g: Goal, r: Roots, t: Trace, from: Mem, to: Mem, idx: int, s: Roots, p: Progress)
    requires HeapOk(g.h, g.limit) && Collecting(g.h, t, from, to, idx) && t.pending == {}
    requires g.live == ReachableSet(g.h, r) && t.f.Keys <= g.live && Swept(t.f, r, s, p) && AllPassed(r, p)
    ensures Result(g.h, r, t, to, s, idx) && idx <= g.limit
  {
    hide HeapOk, ReachableSet, Packed, Copied, Scanned, Forwarded, Swept, AllPassed, Isomorphic, Compact;
    CopiedReachable(g, r, t, from, to, idx, s, p);
    LimitFits(g, t, idx);
    FinishedCompact(g.h, r, t, to, idx);
    FinishedIsomorphic(g.h, r, t, to, idx, s, p);
  }

  lemma FinishedCompact(h: Mem, r: Roots, t: Trace, to: Mem, idx: int)
    requires Packed(h, t, idx) && Copied(h, t, to) && t.f.Keys == ReachableSet(h, r)
    ensures Compact(h, r, t, to, idx)
  {
    hide ReachableSet, Copied, Total, Layout;
    CopiesLayout(h, r, t, to, idx);
  }

  lemma FinishedIsomorphic(h: Mem, r: Roots, t: Trace, to: Mem, idx: int, s: Roots, p: Progress)
    requires Packed(h, t, idx) && Copied(h, t, to) && t.pending == {} && t.f.Keys == ReachableSet(h, r)
    requires Compact(h, r, t, to, idx) && Swept(t.f, r, s, p) && AllPassed(r, p)
    ensures Isomorphic(h, r, t.f, to, s)
  {
    hide ReachableSet, IsImage, IsCopy, Total, Layout, Packed, Covered, Swept, AllPassed, SameShape, Moved;
    forall o | o in t.f
      ensures o in h && t.f[o] in to && IsCopy(h, r, t.f, o, to[t.f[o]])
    {
      CopyIs(h, r, t, o, to[t.f[o]]);
    }
    forall o, q | o in t.f && q in t.f && o != q
      ensures t.f[o] != t.f[q]
    {
      CopiesApart(h, t, idx, o, q);
    }
    RootsMoved(t.f, r, s, p);
  }

  lemma RootsMoved(f: map<int, int>, r: Roots, s: Roots, p: Progress)
    requires Swept(f, r, s, p) && AllPassed(r, p)
    ensures SameShape(r, s)
    ensures forall l {:trigger IsRoot(r, l)} :: IsRoot(r, l) ==> IsRoot(s, l) && RootAt(s, l) == Moved(f, RootAt(r, l))
  {
    forall l | IsRoot(r, l)
      ensures IsRoot(s, l) && RootAt(s, l) == Moved(f, RootAt(r, l))
    {
      RootShape(r, s, l);
      assert Passed(p, l);
    }
  }

  lemma LimitFits(g: Goal, t: Trace, idx: int)
    requires HeapOk(g.h, g.limit) && Packed(g.h, t, idx)
    ensures idx <= g.limit
  {
    CopiesFit(g.h, g.limit, t, idx);
  }

  /** A collection that finds no such value anywhere it goes has found none reachable. */
  lemma NoneReachable(g: Goal, r: Roots, t: Trace, from: Mem, to: Mem, idx: int, s: Roots, p: Progress)
    requires HeapOk(g.h, g.limit) && Collecting(g.h, t, from, to, idx) && t.pending == {}
    requires g.live == ReachableSet(g.h, r) && t.f.Keys <= g.live && Swept(t.f, r, s, p) && AllPassed(r, p)
    ensures !SpecialReachable(g.h, r)
  {
    hide HeapOk, ReachableSet, Packed, Copied, Forwarded;
    CopiedReachable(g, r, t, from, to, idx, s, p);
    forall l | IsRoot(r, l)
      ensures !RootAt(r, l).Special?
    {
      assert Passed(p, l);
    }
    forall o, i | o in ReachableSet(g.h, r) && o in g.h && 0 <= i < |g.h[o].fields|
      ensures !g.h[o].fields[i].Special?
    {
      assert Done(t.f, g.h[o].fields[i]);
    }
  }

  // --------------------------------------------------- what a result amounts to

  lemma ReachesFields(h: Mem, limit: int, r: Roots, o: int)
    requires HeapOk(h, limit) && RootsOk(h, r) && o in ReachableSet(h, r)
    ensures o in h && ObjOk(h, h[o])
    ensures forall i {:trigger h[o].fields[i]} ::
      0 <= i < |h[o].fields| && h[o].fields[i].Ref? ==> h[o].fields[i].off in ReachableSet(h, r)
    ensures h[o].kind.String? ==> h[o].kind.buf in ReachableSet(h, r)
  {
    hide ReachableSet;
    ReachableClosed(h, limit, r);
    forall i | 0 <= i < |h[o].fields| && h[o].fields[i].Ref?
      ensures h[o].fields[i].off in ReachableSet(h, r)
    {
      assert Edge(h, o, h[o].fields[i].off);
    }
    assert h[o].kind.String? ==> Edge(h, o, h[o].kind.buf);
  }

  lemma CopyAt(h: Mem, r: Roots, f: map<int, int>, h': Mem, r': Roots, o: int)
    requires Isomorphic(h, r, f, h', r') && (o in f || o in ReachableSet(h, r))
    ensures o in f && o in h && f[o] in h' && IsCopy(h, r, f, o, h'[f[o]]) && f.Keys == ReachableSet(h, r)
  {
    hide IsCopy, ReachableSet, Covered;
  }

  /** References go where they went: `f` and its inverse keep every edge. */
  lemma EdgesKept(h: Mem, limit: int, r: Roots, f: map<int, int>, h': Mem, r': Roots, o: int, p: int)
    requires HeapOk(h, limit) && RootsOk(h, r) && Isomorphic(h, r, f, h', r') && o in f && p in f
    ensures o in h && f[o] in h' && (Edge(h, o, p) <==> Edge(h', f[o], f[p]))
  {
    hide ReachableSet, I8, LiveSharers, HeapOk, RootsOk, Covered, SameShape, ObjOk;
    CopyAt(h, r, f, h', r', o);
    ReachesFields(h, limit, r, o);
    var c := h'[f[o]];
    if Edge(h, o, p) && !(h[o].kind.String? && h[o].kind.buf == p) {
      var i :| 0 <= i < |h[o].fields| && h[o].fields[i].Ref? && h[o].fields[i].off == p;
      assert c.fields[i].Ref? && c.fields[i].off == f[p];
    }
    if Edge(h', f[o], f[p]) && !(c.kind.String? && c.kind.buf == f[p]) {
      var i :| 0 <= i < |c.fields| && c.fields[i].Ref? && c.fields[i].off == f[p];
      assert h[o].fields[i].Ref? && f[h[o].fields[i].off] == f[p];
    }
  }

  lemma KindKept(f: map<int, int>, k: Kind, rc: int, t: Tag)
    ensures HasTag(MovedKind(f, k, rc), t) == HasTag(k, t)
    ensures k.Buffer? == MovedKind(f, k, rc).Buffer?
  {
  }

  lemma MovedOk(h: Mem, r: Roots, f: map<int, int>, h': Mem, r': Roots, v: Value)
    requires Isomorphic(h, r, f, h', r') && ValueOk(h, v) && (v.Ref? ==> v.off in f)
    ensures ValueOk(h', Moved(f, v))
  {
    hide ReachableSet, LiveSharers, I8, MovedKind, HasTag;
    if v.Ref? {
      assert IsCopy(h, r, f, v.off, h'[f[v.off]]);
      KindKept(f, h[v.off].kind, I8(LiveSharers(h, r, v.off)), v.tag);
    }
  }

  lemma CopyOk(h: Mem, limit: int, r: Roots, f: map<int, int>, h': Mem, r': Roots, o: int)
    requires HeapOk(h, limit) && RootsOk(h, r) && Isomorphic(h, r, f, h', r') && o in f
    ensures f[o] in h' && ObjOk(h', h'[f[o]])
  {
    hide Isomorphic, ReachableSet, LiveSharers, I8, HasTag, HeapOk, ValueOk;
    CopyAt(h, r, f, h', r', o);
    ReachesFields(h, limit, r, o);
    var c := h'[f[o]];
    forall i | 0 <= i < |c.fields|
      ensures ValueOk(h', c.fields[i])
    {
      var v := h[o].fields[i];
      assert c.fields[i] == Moved(f, v);
      assert ValueOk(h, v);
      assert v.Ref? ==> v.off in f.Keys;
      MovedOk(h, r, f, h', r', h[o].fields[i]);
    }
    if h[o].kind.String? {
      var b := h[o].kind.buf;
      CopyAt(h, r, f, h', r', b);
      KindKept(f, h[b].kind, I8(LiveSharers(h, r, b)), PairT);
    }
  }

  /** A collection leaves a well-formed heap with all headers clear. */
  lemma ResultOk(h: Mem, limit: int, r: Roots, t: Trace, h': Mem, r': Roots, used: int)
    requires HeapOk(h, limit) && RootsOk(h, r) && Result(h, r, t, h', r', used)
    ensures HeapOk(h', used) && RootsOk(h', r')
  {
    hide ReachableSet, IsCopy, Layout, ObjOk, ValueOk, Moved;
    forall p | p in h'
      ensures ObjOk(h', h'[p])
    {
      var o :| o in t.f && t.f[o] == p;
      hide HeapOk;
      CopyOk(h, limit, r, t.f, h', r', o);
    }
    forall l | IsRoot(r', l)
      ensures ValueOk(h', RootAt(r', l))
    {
      RootShape(r, r', l);
      RootLive(h, limit, r, l);
      MovedOk(h, r, t.f, h', r', RootAt(r, l));
    }
  }

  lemma RootLive(h: Mem, limit: int, r: Roots, l: Loc)
    requires HeapOk(h, limit) && RootsOk(h, r) && IsRoot(r, l)
    ensures ValueOk(h, RootAt(r, l)) && (RootAt(r, l).Ref? ==> RootAt(r, l).off in ReachableSet(h, r))
  {
    hide HeapOk, ReachableSet;
    ReachableClosed(h, limit, r);
  }

  /** Nothing unreachable has been copied: everything in the new heap can be reached. */
  lemma AllReachable(h: Mem, limit: int, r: Roots, f: map<int, int>, h': Mem, r': Roots)
    requires HeapOk(h, limit) && RootsOk(h, r) && Isomorphic(h, r, f, h', r')
    ensures ReachableSet(h', r') == h'.Keys
  {
    hide HeapOk, RootsOk, IsCopy, SameShape, Moved, Path;
    forall p | p in h'
      ensures p in ReachableSet(h', r')
    {
      var o :| o in f && f[o] == p;
      var q :| PathFrom(h, r, q, o);
      PathMoved(h, limit, r, f, h', r', q, o);
    }
  }

  lemma PathMoved(h: Mem, limit: int, r: Roots, f: map<int, int>, h': Mem, r': Roots, q: seq<int>, o: int)
    requires HeapOk(h, limit) && RootsOk(h, r) && Isomorphic(h, r, f, h', r') && PathFrom(h, r, q, o)
    ensures o in f && Reachable(h', r', f[o])
    decreases |q|
  {
    hide Isomorphic, HeapOk, RootsOk;
    assert o in ReachableSet(h, r);
    CopyAt(h, r, f, h', r', o);
    if |q| == 1 {
      RootMoved(h, r, f, h', r', o);
      assert PathFrom(h', r', [f[o]], f[o]);
    } else {
      var last := |q| - 2;
      var front, p := q[..|q| - 1], q[last];
      assert Edge(h, q[last], q[last + 1]);
      FrontPath(h, r, q, o);
      PathMoved(h, limit, r, f, h', r', front, p);
      EdgesKept(h, limit, r, f, h', r', p, o);
      var q' :| PathFrom(h', r', q', f[p]);
      PathExtended(h', r', q', f[p], f[o]);
    }
  }

  lemma FrontPath(h: Mem, r: Roots, q: seq<int>, o: int)
    requires PathFrom(h, r, q, o) && |q| > 1
    ensures PathFrom(h, r, q[..|q| - 1], q[|q| - 2])
  {
    var front := q[..|q| - 1];
    forall i | 0 <= i < |front| - 1
      ensures Edge(h, front[i], front[i + 1])
    {
      assert Edge(h, q[i], q[i + 1]);
    }
  }

  lemma RootMoved(h: Mem, r: Roots, f: map<int, int>, h': Mem, r': Roots, o: int)
    requires Isomorphic(h, r, f, h', r') && RootRef(r, o) && o in f
    ensures RootRef(r', f[o])
  {
    hide ReachableSet, IsCopy, Covered;
    var l :| IsRoot(r, l) && RootAt(r, l).Ref? && RootAt(r, l).off == o;
    assert IsRoot(r', l) && RootAt(r', l) == Moved(f, RootAt(r, l));
  }

  /** The recount of a buffer's strings is right exactly when the count fits. */
  lemma RecountExact(h: Mem, limit: int, r: Roots, f: map<int, int>, h': Mem, r': Roots, b: int)
    requires HeapOk(h, limit) && Isomorphic(h, r, f, h', r') && b in f && b in h && h[b].kind.Buffer?
    ensures f[b] in h' && h'[f[b]].kind.Buffer?
    ensures h'[f[b]].kind.rc == LiveSharers(h, r, b) <==> LiveSharers(h, r, b) <= 127
  {
    hide HeapOk, ReachableSet, LiveSharers;
    assert IsCopy(h, r, f, b, h'[f[b]]);
  }

  // ------------------------------------------------------------ what is kept

  /** The copy `c` of `o` has its contents: text, numbers and names are the same, a string
      uses the copy of its own buffer, and fields are as the runtime reads them. */
  ghost predicate ContentsKept(o: Obj, c: Obj, f: map<int, int>) {
    && (match o.kind
        case Buffer(_, bytes) => c.kind.Buffer? && c.kind.bytes == bytes
        case String(start, len, buf) => c.kind.String? && c.kind.start == start && c.kind.len == len && buf in f && c.kind.buf == f[buf]
        case Symbol(hash, name) => c.kind.Symbol? && c.kind.hash == hash && c.kind.name == name
        case Bytevector(elems) => c.kind.Bytevector? && c.kind.elems == elems
        case Closure(isCont, code) => c.kind.Closure? && c.kind.isCont == isCont && c.kind.code == code
        case Pair => c.kind.Pair?
        case Vector => c.kind.Vector?
        case Record => c.kind.Record?
        case Box => c.kind.Box?)
    && |c.fields| == |o.fields|
    && forall i :: 0 <= i < |c.fields| ==> WordKept(o.fields[i], c.fields[i], f)
  }

  /** A word is the same; a reference keeps its tag and goes where its object went. */
  ghost predicate WordKept(v: Value, w: Value, f: map<int, int>) {
    match v
    case Ref(tag, off) => off in f && w.Ref? && w.tag == tag && w.off == f[off]
    case Imm(word) => w.Imm? && w.word == word
    case Special(word) => w.Special? && w.word == word
  }

  /** The whole live heap and the roots. */
  ghost predicate HeapKept(h: Mem, r: Roots, f: map<int, int>, h': Mem, r': Roots) {
    && (forall o {:trigger f[o]} :: o in ReachableSet(h, r) ==> o in h && o in f && f[o] in h' && ContentsKept(h[o], h'[f[o]], f))
    && |r'.args| == |r.args| && (forall i :: 0 <= i < |r.args| ==> WordKept(r.args[i], r'.args[i], f))
    && WordKept(r.cc, r'.cc, f)
    && |r'.interned| == |r.interned|
    && forall t, j :: 0 <= t < |r.interned| && 0 <= j < |r.interned[t]| ==>
         |r'.interned[t]| == |r.interned[t]| && WordKept(r.interned[t][j], r'.interned[t][j], f)
  }

  /** The string that was at `o` says what it said: the copy of its buffer has its text. */
  ghost predicate TextKept(h: Mem, o: int, f: map<int, int>, to: Mem) {
    && o in h && h[o].kind.String? && h[o].kind.buf in h && h[h[o].kind.buf].kind.Buffer?
    && o in f && f[o] in to && h[o].kind.buf in f && f[h[o].kind.buf] in to
    && var c, d := to[f[o]], to[f[h[o].kind.buf]];
       && c.kind.String? && c.kind.start == h[o].kind.start && c.kind.len == h[o].kind.len && c.kind.buf == f[h[o].kind.buf]
       && d.kind.Buffer? && d.kind.bytes == h[h[o].kind.buf].kind.bytes
  }

  lemma CopiedText(h: Mem, t: Trace, from: Mem, to: Mem, idx: int, o: int)
    requires Collecting(h, t, from, to, idx) && o in t.f && o in h && h[o].kind.String?
    requires h[o].kind.buf in h && h[h[o].kind.buf].kind.Buffer?
    ensures TextKept(h, o, t.f, to)
  {
    hide Sharers, I8, Covered, Packed, Forwarded;
    assert h[o] == h[o] && h[o].kind.buf in t.f;
    assert IsImage(h, t, o, to[t.f[o]]) && IsImage(h, t, h[o].kind.buf, to[t.f[h[o].kind.buf]]);
  }

  lemma CopyKept(h: Mem, limit: int, r: Roots, f: map<int, int>, h': Mem, r': Roots, o: int)
    requires HeapOk(h, limit) && RootsOk(h, r) && Isomorphic(h, r, f, h', r') && o in ReachableSet(h, r)
    ensures o in h && o in f && f[o] in h' && ContentsKept(h[o], h'[f[o]], f)
  {
    hide LiveSharers, I8, Covered, SameShape;
    CopyAt(h, r, f, h', r', o);
    ReachesFields(h, limit, r, o);
    hide ReachableSet, Isomorphic, HeapOk, RootsOk;
  }

  lemma RootKept(h: Mem, limit: int, r: Roots, f: map<int, int>, h': Mem, r': Roots, l: Loc)
    requires HeapOk(h, limit) && RootsOk(h, r) && Isomorphic(h, r, f, h', r') && IsRoot(r, l)
    ensures IsRoot(r', l) && WordKept(RootAt(r, l), RootAt(r', l), f)
  {
    hide ReachableSet, HeapOk, RootsOk, Closed, Isomorphic, RootAt;
    ReachableClosed(h, limit, r);
    RootMoves(h, r, f, h', r', l);
  }

  lemma RootMoves(h: Mem, r: Roots, f: map<int, int>, h': Mem, r': Roots, l: Loc)
    requires Isomorphic(h, r, f, h', r') && IsRoot(r, l)
    ensures IsRoot(r', l) && RootAt(r', l) == Moved(f, RootAt(r, l)) && f.Keys == ReachableSet(h, r)
  {
  }

  lemma RootsKept(h: Mem, limit: int, r: Roots, f: map<int, int>, h': Mem, r': Roots)
    requires HeapOk(h, limit) && RootsOk(h, r) && Isomorphic(h, r, f, h', r')
    ensures |r'.args| == |r.args| && (forall i :: 0 <= i < |r.args| ==> WordKept(r.args[i], r'.args[i], f)) && WordKept(r.cc, r'.cc, f)
    ensures |r'.interned| == |r.interned|
    ensures forall u, j :: 0 <= u < |r.interned| && 0 <= j < |r.interned[u]| ==>
      |r'.interned[u]| == |r.interned[u]| && WordKept(r.interned[u][j], r'.interned[u][j], f)
  {
    assert SameShape(r, r');
    hide ReachableSet, HeapOk, RootsOk, Isomorphic, WordKept;
    forall i | 0 <= i < |r.args|
      ensures WordKept(r.args[i], r'.args[i], f)
    {
      RootKept(h, limit, r, f, h', r', Arg(i));
    }
    RootKept(h, limit, r, f, h', r', Cc);
    forall u, j | 0 <= u < |r.interned| && 0 <= j < |r.interned[u]|
      ensures |r'.interned[u]| == |r.interned[u]| && WordKept(r.interned[u][j], r'.interned[u][j], f)
    {
      RootKept(h, limit, r, f, h', r', Interned(u, j));
    }
  }

  /** A collection keeps the contents of every live object and every root. */
  lemma ResultKept(h: Mem, limit: int, r: Roots, t: Trace, h': Mem, r': Roots, used: int)
    requires HeapOk(h, limit) && RootsOk(h, r) && Result(h, r, t, h', r', used)
    ensures HeapKept(h, r, t.f, h', r')
  {
    hide HeapOk, RootsOk, ReachableSet, Compact, IsCopy, Covered;
    forall o {:trigger t.f[o]} | o in ReachableSet(h, r)
      ensures o in h && o in t.f && t.f[o] in h' && ContentsKept(h[o], h'[t.f[o]], t.f)
    {
      CopyKept(h, limit, r, t.f, h', r', o);
    }
    RootsKept(h, limit, r, t.f, h', r');
  }

  // ------------------------------------------------------------ failing heaps

  /** The first `n` places for strings. */
  function Places(n: nat): set<int> {
    if n == 0 then {} else Places(n - 1) + {24 * n - 16}
  }

  lemma {:induction false} PlacesSize(n: nat)
    ensures |Places(n)| == n
    ensures forall o :: o in Places(n) <==> 8 <= o < 24 * n + 8 && (o - 8) % 24 == 0
  {
    if n > 0 {
      PlacesSize(n - 1);
    }
  }

  /** `n` strings that use one buffer. */
  function SharedHeap(n: nat): Mem {
    (map o | o in Places(n) :: Obj(0, String(0, 0, 24 * n + 8), []))[24 * n + 8 := Obj(0, Buffer(1, []), [])]
  }

  function SharedRoots(n: nat): Roots {
    Roots([], seq(n, i => Ref(StringT, 24 * i + 8)), Imm(0))
  }

  lemma {:induction false} PlacesApart(n: nat, o: int, p: int)
    requires o in Places(n)
    ensures 8 <= o && o + 24 <= 24 * n + 8 && (p in Places(n) && o < p ==> o + 24 <= p)
  {
    if o in Places(n - 1) {
      PlacesApart(n - 1, o, p);
    } else if p in Places(n - 1) {
      PlacesApart(n - 1, p, o);
    }
  }

  lemma SharedAt(n: nat, o: int)
    requires o in SharedHeap(n)
    ensures o in Places(n) || o == 24 * n + 8
    ensures var m := SharedHeap(n); ObjOk(m, m[o]) && ObjSize(m[o]) == if o in Places(n) then 24 else 16
  {
    if o in Places(n) {
      PlacesApart(n, o, o);
    }
  }

  lemma SharedOk(n: nat)
    ensures HeapOk(SharedHeap(n), 24 * n + 24) && RootsOk(SharedHeap(n), SharedRoots(n))
  {
    var m := SharedHeap(n);
    hide SharedHeap, ObjOk, ObjSize;
    forall o | o in m
      ensures ObjOk(m, m[o]) && 8 <= o && o + ObjSize(m[o]) <= 24 * n + 24
      ensures forall p :: p in m && o < p ==> o + ObjSize(m[o]) <= p
    {
      SharedAt(n, o);
      forall p | p in m && o < p
        ensures o + ObjSize(m[o]) <= p
      {
        SharedAt(n, p);
        if p in Places(n) {
          PlacesApart(n, p, o);
        }
        if o in Places(n) {
          PlacesApart(n, o, p);
        }
      }
      if o in Places(n) {
        PlacesApart(n, o, o);
      }
    }
    SharedRootsOk(n);
  }

  lemma SharedRootsOk(n: nat)
    ensures RootsOk(SharedHeap(n), SharedRoots(n))
  {
    PlacesSize(n);
    var m, r := SharedHeap(n), SharedRoots(n);
    forall l | IsRoot(r, l)
      ensures ValueOk(m, RootAt(r, l))
    {
      if l.Arg? {
        assert 24 * l.arg + 8 in Places(n);
        PlacesApart(n, 24 * l.arg + 8, 0);
      }
    }
  }

  /** All of them are live. */
  lemma SharedLive(n: nat)
    ensures LiveSharers(SharedHeap(n), SharedRoots(n), 24 * n + 8) == n
  {
    var m, r := SharedHeap(n), SharedRoots(n);
    PlacesSize(n);
    hide ReachableSet, SharedHeap, SharedRoots;
    forall o
      ensures Uses(m, o, 24 * n + 8) <==> o in Places(n)
      ensures o in Places(n) ==> o in ReachableSet(m, r)
    {
      SharedUses(n, o);
      if o in Places(n) {
        SharedReached(n, o);
      }
    }
    assert (set o | o in ReachableSet(m, r) && Uses(m, o, 24 * n + 8)) == Places(n);
  }

  lemma SharedUses(n: nat, o: int)
    ensures Uses(SharedHeap(n), o, 24 * n + 8) <==> o in Places(n)
  {
    if o in Places(n) {
      PlacesApart(n, o, 0);
    }
  }

  lemma {:induction false} PlaceIndex(n: nat, o: int) returns (i: nat)
    requires o in Places(n)
    ensures i < n && o == 24 * i + 8
  {
    if o in Places(n - 1) {
      i := PlaceIndex(n - 1, o);
    } else {
      i := n - 1;
    }
  }

  lemma SharedReached(n: nat, o: int)
    requires o in Places(n)
    ensures o in ReachableSet(SharedHeap(n), SharedRoots(n))
  {
    var i := PlaceIndex(n, o);
    var r := SharedRoots(n);
    SharedOk(n);
    ReachableClosed(SharedHeap(n), 24 * n + 24, r);
    hide Places, SharedHeap, HeapOk, RootsOk, ReachableSet, Closed;
    assert IsRoot(r, Arg(i)) && RootAt(r, Arg(i)) == Ref(StringT, o);
  }

  /** After a collection the count of a buffer that 128 strings use is wrong. */
  lemma CountOverflows(f: map<int, int>, h': Mem, r': Roots)
    requires Isomorphic(SharedHeap(128), SharedRoots(128), f, h', r') && 3080 in f
    ensures f[3080] in h' && h'[f[3080]].kind.Buffer? && h'[f[3080]].kind.rc != LiveSharers(SharedHeap(128), SharedRoots(128), 3080)
  {
    SharedOk(128);
    SharedLive(128);
    hide Places, Isomorphic, HeapOk, LiveSharers;
    RecountExact(SharedHeap(128), 3096, SharedRoots(128), f, h', r', 3080);
  }

  /** An infinity on the stack can be reached. */
  lemma InfinityReachable(m: Mem, cc: nat, w: nat)
    ensures SpecialReachable(m, Roots([], [Special(w)], Imm(cc)))
  {
    var r := Roots([], [Special(w)], Imm(cc));
    assert IsRoot(r, Arg(0)) && RootAt(r, Arg(0)) == Special(w);
  }
}
