/** What a collection under way looks like: which objects have been copied, where
    to, and which fields of the copies still hold their old values. */
module ScmCopy {
  import opened ScmHeap

  /** A reference count is kept in eight signed bits. */
  function I8(n: int): int {
    (n + 128) % 256 - 128
  }

  function SizeAt(h: Mem, o: int): nat {
    if o in h then ObjSize(h[o]) else 0
  }

  /** The string at `o` uses the buffer at `b`. */
  predicate Uses(h: Mem, o: int, b: int) {
    o in h && h[o].kind.String? && h[o].kind.buf == b
  }

  /** Bytes taken by the copies of some objects. */
  function Total(h: Mem, order: seq<int>): nat {
    if order == [] then 0
    else Total(h, order[..|order| - 1]) + SizeAt(h, order[|order| - 1])
  }

  /** How many of the strings among `order` use the buffer `b`. */
  function Sharers(h: Mem, order: seq<int>, b: int): nat {
    if order == [] then 0
    else Sharers(h, order[..|order| - 1], b) + (if Uses(h, order[|order| - 1], b) then 1 else 0)
  }

  /** The history of a collection: the objects copied so far in order, where each
      went, and the fields, as (object, index), not looked at yet. */
  datatype Trace = Trace(order: seq<int>, f: map<int, int>, pending: set<(int, int)>)

  /** Copies are packed from offset 8 without overlap, in the order they were made. */
  ghost predicate Packed(h: Mem, t: Trace, idx: int) {
    && (forall i, j :: 0 <= i < j < |t.order| ==> t.order[i] != t.order[j])
    && (forall o :: o in t.f <==> o in t.order)
    && (forall o :: o in t.f ==> o in h)
    && idx == 8 + Total(h, t.order)
    && (forall o {:trigger t.f[o]} :: o in t.f ==> 8 <= t.f[o] && t.f[o] + SizeAt(h, o) <= idx)
    && (forall o, p {:trigger t.f[o], t.f[p]} :: o in t.f && p in t.f && o != p ==>
          t.f[o] + SizeAt(h, o) <= t.f[p] || t.f[p] + SizeAt(h, p) <= t.f[o])
  }

  /** A value after the object it refers to has moved. */
  function Moved(f: map<int, int>, v: Value): Value {
    if v.Ref? && v.off in f then Ref(v.tag, f[v.off]) else v
  }

  function MovedKind(f: map<int, int>, k: Kind, rc: int): Kind {
    match k
    case String(start, len, buf) => String(start, len, if buf in f then f[buf] else buf)
    case Buffer(_, bytes) => Buffer(rc, bytes)
    case _ => k
  }

  /** `c` is the copy of the object at `o`: a pending field keeps its old value. */
  ghost predicate IsImage(h: Mem, t: Trace, o: int, c: Obj)
    requires o in h
  {
    && c.fref == 0
    && c.kind == MovedKind(t.f, h[o].kind, I8(Sharers(h, t.order, o)))
    && |c.fields| == |h[o].fields|
    && forall i {:trigger c.fields[i]} :: 0 <= i < |c.fields| ==>
         c.fields[i] == if (o, i) in t.pending then h[o].fields[i] else Moved(t.f, h[o].fields[i])
  }

  /** Header words of the objects still in the old pool. */
  ghost predicate Forwarded(h: Mem, t: Trace, from: Mem) {
    from.Keys == h.Keys &&
    forall o {:trigger from[o]} :: o in h ==> from[o] == h[o].(fref := if o in t.f then t.f[o] else 0)
  }

  /** Every object in the new pool is a copy. */
  ghost predicate Covered(f: map<int, int>, to: Mem) {
    forall p :: p in to ==> exists o :: o in f && f[o] == p
  }

  ghost predicate Copied(h: Mem, t: Trace, to: Mem) {
    && Covered(t.f, to)
    && (forall o {:trigger t.f[o]} :: o in t.f ==> o in h && t.f[o] in to && IsImage(h, t, o, to[t.f[o]]))
  }

  predicate Done(f: map<int, int>, v: Value) {
    !v.Special? && (v.Ref? ==> v.off in f)
  }

  /** A field no longer pending refers to a copied object, and so do strings to buffers. */
  ghost predicate Scanned(h: Mem, t: Trace) {
    && (forall o, i {:trigger h[o].fields[i]} ::
          o in t.f && o in h && 0 <= i < |h[o].fields| && (o, i) !in t.pending ==> Done(t.f, h[o].fields[i]))
    && (forall o {:trigger h[o]} :: o in t.f && o in h && h[o].kind.String? ==> h[o].kind.buf in t.f)
    && (forall o, i :: (o, i) in t.pending ==> o in t.f && o in h && 0 <= i < |h[o].fields|)
  }

  /** Everything a step of the collection preserves. `h` is the old pool as the
      collection found it. */
  ghost predicate Collecting(h: Mem, t: Trace, from: Mem, to: Mem, idx: int) {
    Packed(h, t, idx) && Forwarded(h, t, from) && Copied(h, t, to) && Scanned(h, t)
  }

  /** `u` comes later in the same collection than `t`. */
  ghost predicate Later(t: Trace, u: Trace) {
    t.order <= u.order && t.f.Keys <= u.f.Keys && forall o :: o in t.f ==> u.f[o] == t.f[o]
  }

  // ------------------------------------------------------------------ steps

  function WithField(o: Obj, i: int, v: Value): Obj
    requires 0 <= i < |o.fields|
  {
    o.(fields := o.fields[i := v])
  }

  lemma CollectingStart(h: Mem, limit: int)
    requires HeapOk(h, limit)
    ensures Collecting(h, Trace([], map[], {}), h, map[], 8)
  {
    forall o | o in h
      ensures h[o] == h[o].(fref := 0)
    {
      assert ObjOk(h, h[o]);
    }
  }

  lemma PendingValue(h: Mem, t: Trace, from: Mem, to: Mem, idx: int, o: int, i: int)
    requires Collecting(h, t, from, to, idx) && (o, i) in t.pending
    ensures o in h && o in t.f && t.f[o] in to && 0 <= i < |to[t.f[o]].fields| == |h[o].fields|
    ensures to[t.f[o]].fields[i] == h[o].fields[i]
  {
    hide Packed, Forwarded, MovedKind, Sharers;
    assert IsImage(h, t, o, to[t.f[o]]);
  }

  /** A field whose target is done is overwritten and no longer pending. */
  lemma FieldStep(h: Mem, t: Trace, from: Mem, to: Mem, idx: int, o: int, i: int)
    requires Collecting(h, t, from, to, idx)
    requires (o, i) in t.pending && o in h && 0 <= i < |h[o].fields| && Done(t.f, h[o].fields[i])
    requires o in t.f && t.f[o] in to && i < |to[t.f[o]].fields|
    ensures Collecting(h, t.(pending := t.pending - {(o, i)}), from,
                       to[t.f[o] := WithField(to[t.f[o]], i, Moved(t.f, h[o].fields[i]))], idx)
  {
    hide Copied;
    FieldStepCopied(h, t, to, idx, o, i);
  }

  lemma FieldStepCopied(h: Mem, t: Trace, to: Mem, idx: int, o: int, i: int)
    requires Packed(h, t, idx) && Copied(h, t, to)
    requires o in t.f && o in h && 0 <= i < |h[o].fields| && t.f[o] in to && i < |to[t.f[o]].fields|
    ensures Copied(h, t.(pending := t.pending - {(o, i)}),
                   to[t.f[o] := WithField(to[t.f[o]], i, Moved(t.f, h[o].fields[i]))])
  {
    hide Packed, MovedKind, Sharers, Total, SizeAt;
    var u := t.(pending := t.pending - {(o, i)});
    var to' := to[t.f[o] := WithField(to[t.f[o]], i, Moved(t.f, h[o].fields[i]))];
    forall q | q in t.f
      ensures q in h && t.f[q] in to' && IsImage(h, u, q, to'[t.f[q]])
    {
      assert IsImage(h, t, q, to[t.f[q]]);
      if q != o {
        CopiesApart(h, t, idx, o, q);
      }
    }
  }

  lemma CopiesApart(h: Mem, t: Trace, idx: int, o: int, q: int)
    requires Packed(h, t, idx) && o in t.f && q in t.f && o != q
    ensures t.f[q] != t.f[o]
  {
  }

  ghost function AllFields(h: Mem, o: int): set<(int, int)>
    requires o in h
  {
    set i | 0 <= i < |h[o].fields| :: (o, i)
  }

  /** The object at `o` has been copied to `at`, with none of its fields looked at. */
  ghost function Extend(h: Mem, t: Trace, o: int, at: int): Trace
    requires o in h
  {
    Trace(t.order + [o], t.f[o := at], t.pending + AllFields(h, o))
  }

  lemma TotalSnoc(h: Mem, order: seq<int>, o: int)
    ensures Total(h, order + [o]) == Total(h, order) + SizeAt(h, o)
    ensures forall b :: Sharers(h, order + [o], b) == Sharers(h, order, b) + if Uses(h, o, b) then 1 else 0
  {
    assert (order + [o])[..|order|] == order;
  }

  lemma PackedStep(h: Mem, t: Trace, idx: int, o: int)
    requires Packed(h, t, idx) && o in h && o !in t.f
    ensures Packed(h, Extend(h, t, o, idx), idx + ObjSize(h[o]))
    ensures Later(t, Extend(h, t, o, idx))
  {
    hide Total, Sharers, Uses, Size;
    TotalSnoc(h, t.order, o);
    var u := Extend(h, t, o, idx);
    forall q | q in t.f
      ensures u.f[q] == t.f[q] && t.f[q] + SizeAt(h, q) <= idx
    {
    }
  }

  lemma ForwardedStep(h: Mem, t: Trace, from: Mem, o: int, at: int)
    requires Forwarded(h, t, from) && o in h
    ensures Forwarded(h, Extend(h, t, o, at), from[o := from[o].(fref := at)])
  {
  }

  lemma ScannedStep(h: Mem, t: Trace, o: int, at: int)
    requires Scanned(h, t) && o in h && o !in t.f
    requires h[o].kind.String? ==> h[o].kind.buf in t.f
    ensures Scanned(h, Extend(h, t, o, at))
  {
    var u := Extend(h, t, o, at);
    forall q, i | q in u.f && q in h && 0 <= i < |h[q].fields| && (q, i) !in u.pending
      ensures Done(u.f, h[q].fields[i])
    {
      assert q != o;
      assert Done(t.f, h[q].fields[i]);
    }
  }

  /** Copies made earlier are what they were: their finished fields refer to
      copied objects already. */
  lemma ImageKept(h: Mem, t: Trace, u: Trace, q: int, c: Obj)
    requires Scanned(h, t) && Later(t, u) && q in t.f && q in h && IsImage(h, t, q, c)
    requires forall i :: (q, i) in t.pending <==> (q, i) in u.pending
    requires h[q].kind.Buffer? ==> I8(Sharers(h, u.order, q)) == c.kind.rc
    ensures IsImage(h, u, q, c)
  {
    hide Sharers, I8;
    assert h[q].kind.String? ==> h[q].kind.buf in t.f;
    forall i | 0 <= i < |c.fields|
      ensures c.fields[i] == if (q, i) in u.pending then h[q].fields[i] else Moved(u.f, h[q].fields[i])
    {
      assert (q, i) in t.pending || Done(t.f, h[q].fields[i]);
    }
  }

  /** An object that is neither a string nor a buffer is copied as it is. */
  lemma CopiedStep(h: Mem, limit: int, t: Trace, to: Mem, idx: int, o: int)
    requires HeapOk(h, limit) && Packed(h, t, idx) && Scanned(h, t) && Copied(h, t, to)
    requires o in h && o !in t.f && !h[o].kind.String? && !h[o].kind.Buffer?
    ensures Copied(h, Extend(h, t, o, idx), to[idx := h[o]])
  {
    hide Packed, Sharers, Total, Scanned, MovedKind, I8, HeapOk, IsImage;
    var u, to' := Extend(h, t, o, idx), to[idx := h[o]];
    PackedStep(h, t, idx, o);
    FreshImage(h, limit, t, o, idx);
    forall q | q in u.f
      ensures q in h && u.f[q] in to' && IsImage(h, u, q, to'[u.f[q]])
    {
      if q != o {
        OtherImage(h, t, to, idx, o, q);
      }
    }
    CoveredStep(t.f, to, o, idx, h[o]);
  }

  lemma CoveredStep(f: map<int, int>, to: Mem, o: int, at: int, c: Obj)
    requires Covered(f, to) && o !in f
    ensures Covered(f[o := at], to[at := c])
  {
    var g, to' := f[o := at], to[at := c];
    forall p | p in to'
      ensures exists q :: q in g && g[q] == p
    {
      if p == at {
        assert g[o] == p;
      } else {
        var q :| q in f && f[q] == p;
        assert g[q] == p;
      }
    }
  }

  lemma FreshImage(h: Mem, limit: int, t: Trace, o: int, at: int)
    requires HeapOk(h, limit) && o in h && !h[o].kind.String? && !h[o].kind.Buffer?
    ensures IsImage(h, Extend(h, t, o, at), o, h[o])
  {
    hide Sharers, I8;
    assert ObjOk(h, h[o]);
  }

  lemma OtherImage(h: Mem, t: Trace, to: Mem, idx: int, o: int, q: int)
    requires Packed(h, t, idx) && Scanned(h, t) && Copied(h, t, to)
    requires o in h && o !in t.f && q in t.f && q in h && !Uses(h, o, q)
    ensures t.f[q] < idx && t.f[q] in to && IsImage(h, Extend(h, t, o, idx), q, to[t.f[q]])
  {
    hide Sharers, I8, Total, Scanned, Uses;
    var u := Extend(h, t, o, idx);
    PackedStep(h, t, idx, o);
    TotalSnoc(h, t.order, o);
    assert IsImage(h, t, q, to[t.f[q]]);
    assert t.f[q] + SizeAt(h, q) <= idx;
    ImageKept(h, t, u, q, to[t.f[q]]);
  }

  lemma CopyStep(h: Mem, limit: int, t: Trace, from: Mem, to: Mem, idx: int, o: int)
    requires HeapOk(h, limit) && Collecting(h, t, from, to, idx)
    requires o in h && o !in t.f && !h[o].kind.String? && !h[o].kind.Buffer?
    ensures Collecting(h, Extend(h, t, o, idx), from[o := from[o].(fref := idx)], to[idx := h[o]], idx + ObjSize(h[o]))
    ensures Later(t, Extend(h, t, o, idx))
  {
    hide Packed, Forwarded, Copied, Scanned, Extend, Later, HeapOk;
    PackedStep(h, t, idx, o);
    ForwardedStep(h, t, from, o, idx);
    ScannedStep(h, t, o, idx);
    CopiedStep(h, limit, t, to, idx, o);
  }

  // ---------------------------------------------------------------- strings

  /** A string with `rc` for the count of the buffer it has just been pointed to. */
  function Counted(c: Obj, rc: int): Obj
    requires c.kind.Buffer?
  {
    c.(kind := Buffer(rc, c.kind.bytes))
  }

  function Rebuffered(c: Obj, buf: int): Obj
    requires c.kind.String?
  {
    c.(kind := String(c.kind.start, c.kind.len, buf))
  }

  lemma NoSharers(h: Mem, t: Trace, order: seq<int>, b: int)
    requires Scanned(h, t) && b !in t.f && forall i :: 0 <= i < |order| ==> order[i] in t.f
    ensures Sharers(h, order, b) == 0
  {
    if order != [] {
      var o := order[|order| - 1];
      if o in h && h[o].kind.String? {
        assert h[o].kind.buf in t.f;
      }
      NoSharers(h, t, order[..|order| - 1], b);
    }
  }

  /** A string whose buffer was copied before: the copy uses that one, counted once more. */
  lemma SharingStep(h: Mem, limit: int, t: Trace, from: Mem, to: Mem, idx: int, o: int)
    requires HeapOk(h, limit) && Collecting(h, t, from, to, idx)
    requires o in h && o !in t.f && h[o].kind.String? && h[o].kind.buf in t.f
    ensures var b := t.f[h[o].kind.buf];
      b in to && b != idx && to[b].kind.Buffer? &&
      Collecting(h, Extend(h, t, o, idx), from[o := from[o].(fref := idx)],
                 to[idx := Rebuffered(h[o], b)][b := Counted(to[b], I8(to[b].kind.rc + 1))], idx + ObjSize(h[o]))
    ensures Later(t, Extend(h, t, o, idx))
  {
    hide Packed, Forwarded, Copied, Scanned, Extend, Later, HeapOk;
    PackedStep(h, t, idx, o);
    ForwardedStep(h, t, from, o, idx);
    ScannedStep(h, t, o, idx);
    SharingCopied(h, limit, t, to, idx, o);
  }

  lemma SharingCopied(h: Mem, limit: int, t: Trace, to: Mem, idx: int, o: int)
    requires HeapOk(h, limit) && Packed(h, t, idx) && Scanned(h, t) && Copied(h, t, to)
    requires o in h && o !in t.f && h[o].kind.String? && h[o].kind.buf in t.f
    ensures var b := t.f[h[o].kind.buf];
      b in to && b < idx && to[b].kind.Buffer? &&
      Copied(h, Extend(h, t, o, idx), to[idx := Rebuffered(h[o], b)][b := Counted(to[b], I8(to[b].kind.rc + 1))])
  {
    hide Packed, Sharers, Total, Scanned, MovedKind, I8, HeapOk, IsImage;
    var u := Extend(h, t, o, idx);
    var s := h[o].kind.buf;
    SharedBuffer(h, limit, t, to, idx, o);
    var b := t.f[s];
    var to' := to[idx := Rebuffered(h[o], b)][b := Counted(to[b], I8(to[b].kind.rc + 1))];
    PackedStep(h, t, idx, o);
    forall q | q in u.f
      ensures q in h && u.f[q] in to' && IsImage(h, u, q, to'[u.f[q]])
    {
      if q == o {
        StringImage(h, limit, t, u, o, b);
      } else if q != s {
        OtherImage(h, t, to, idx, o, q);
        assert u.f[q] == t.f[q] < idx;
        CopiesApart(h, t, idx, s, q);
      }
    }
    CoveredStep(t.f, to, o, idx, Rebuffered(h[o], b));
  }

  lemma StringImage(h: Mem, limit: int, t: Trace, u: Trace, o: int, b: int)
    requires HeapOk(h, limit) && o in h && h[o].kind.String?
    requires h[o].kind.buf in u.f && u.f[h[o].kind.buf] == b
    ensures IsImage(h, u, o, Rebuffered(h[o], b))
  {
    hide Sharers, I8;
    assert ObjOk(h, h[o]);
  }

  lemma SharedBuffer(h: Mem, limit: int, t: Trace, to: Mem, idx: int, o: int)
    requires HeapOk(h, limit) && Packed(h, t, idx) && Scanned(h, t) && Copied(h, t, to)
    requires o in h && o !in t.f && h[o].kind.String? && h[o].kind.buf in t.f
    ensures var s := h[o].kind.buf; var b := t.f[s];
      s in h && b in to && b < idx && to[b].kind.Buffer? &&
      IsImage(h, Extend(h, t, o, idx), s, Counted(to[b], I8(to[b].kind.rc + 1)))
  {
    hide Sharers, Total, Scanned;
    var s := h[o].kind.buf;
    assert ObjOk(h, h[o]);
    assert ObjOk(h, h[s]);
    assert IsImage(h, t, s, to[t.f[s]]);
    assert t.f[s] + SizeAt(h, s) <= idx;
    TotalSnoc(h, t.order, o);
  }

  /** A string whose buffer was not copied before: both are, the buffer right after
      the string and counted once. */
  lemma StringStep(h: Mem, limit: int, t: Trace, from: Mem, to: Mem, idx: int, o: int)
    requires HeapOk(h, limit) && Collecting(h, t, from, to, idx)
    requires o in h && o !in t.f && h[o].kind.String? && h[o].kind.buf !in t.f
    ensures var b, at := h[o].kind.buf, idx + ObjSize(h[o]);
      o != b && b in h && h[b].kind.Buffer? && ObjSize(h[o]) > 0 &&
      var u := Extend(h, Extend(h, t, o, idx), b, at);
      Collecting(h, u, from[o := from[o].(fref := idx)][b := from[b].(fref := at)],
                 to[idx := Rebuffered(h[o], at)][at := Counted(h[b], 1)], at + ObjSize(h[b]))
      && Later(t, u)
  {
    hide Packed, Copied, Scanned, Extend, Later, HeapOk;
    OwnBuffer(h, limit, o);
    var b, at := h[o].kind.buf, idx + ObjSize(h[o]);
    var u := Extend(h, t, o, idx);
    PackedStep(h, t, idx, o);
    ForwardedStep(h, t, from, o, idx);
    assert b !in u.f by { ExtendKeys(h, t, o, idx); }
    PackedStep(h, u, at, b);
    ForwardedStep(h, u, from[o := from[o].(fref := idx)], b, at);
    LaterTwice(t, u, Extend(h, u, b, at));
    ScannedTwice(h, limit, t, o, b, idx, at);
    StringCopied(h, limit, t, to, idx, o);
  }

  lemma ExtendKeys(h: Mem, t: Trace, o: int, at: int)
    requires o in h
    ensures Extend(h, t, o, at).f.Keys == t.f.Keys + {o}
  {
  }

  lemma LaterTwice(t: Trace, u: Trace, v: Trace)
    requires Later(t, u) && Later(u, v)
    ensures Later(t, v)
  {
  }

  lemma OwnBuffer(h: Mem, limit: int, o: int)
    requires HeapOk(h, limit) && o in h && h[o].kind.String?
    ensures h[o].kind.buf in h && h[h[o].kind.buf].kind.Buffer? && o != h[o].kind.buf
    ensures h[o].fref == 0 && h[o].fields == [] && h[h[o].kind.buf].fref == 0 && h[h[o].kind.buf].fields == []
    ensures ObjSize(h[o]) > 0
  {
    assert ObjOk(h, h[o]);
    assert ObjOk(h, h[h[o].kind.buf]);
  }

  lemma ScannedTwice(h: Mem, limit: int, t: Trace, o: int, b: int, i: int, j: int)
    requires HeapOk(h, limit) && Scanned(h, t) && o in h && h[o].kind.String? && h[o].kind.buf == b && b in h
    ensures Scanned(h, Extend(h, Extend(h, t, o, i), b, j))
  {
    OwnBuffer(h, limit, o);
    var u := Extend(h, Extend(h, t, o, i), b, j);
    forall q, i | q in u.f && q in h && 0 <= i < |h[q].fields| && (q, i) !in u.pending
      ensures Done(u.f, h[q].fields[i])
    {
      assert Done(t.f, h[q].fields[i]);
    }
  }

  lemma StringCopied(h: Mem, limit: int, t: Trace, to: Mem, idx: int, o: int)
    requires HeapOk(h, limit) && Packed(h, t, idx) && Scanned(h, t) && Copied(h, t, to)
    requires o in h && o !in t.f && h[o].kind.String? && h[o].kind.buf !in t.f
    requires h[o].kind.buf in h && h[h[o].kind.buf].kind.Buffer?
    ensures var b, at := h[o].kind.buf, idx + ObjSize(h[o]);
      Copied(h, Extend(h, Extend(h, t, o, idx), b, at), to[idx := Rebuffered(h[o], at)][at := Counted(h[b], 1)])
  {
    hide Packed, Sharers, Total, Scanned, MovedKind, I8, HeapOk, IsImage, Uses, Size;
    OwnBuffer(h, limit, o);
    var b, at := h[o].kind.buf, idx + ObjSize(h[o]);
    var u := Extend(h, Extend(h, t, o, idx), b, at);
    var to' := to[idx := Rebuffered(h[o], at)][at := Counted(h[b], 1)];
    forall q | q in u.f
      ensures q in h && u.f[q] in to' && IsImage(h, u, q, to'[u.f[q]])
    {
      if q == o {
        StringImage(h, limit, t, u, o, at);
      } else if q == b {
        BufferImage(h, limit, t, idx, o);
      } else {
        OlderImage(h, limit, t, to, idx, o, q);
      }
    }
    CoveredStep(t.f, to, o, idx, Rebuffered(h[o], at));
    CoveredStep(t.f[o := idx], to[idx := Rebuffered(h[o], at)], b, at, Counted(h[b], 1));
  }

  lemma BufferImage(h: Mem, limit: int, t: Trace, idx: int, o: int)
    requires HeapOk(h, limit) && Packed(h, t, idx) && Scanned(h, t)
    requires o in h && o !in t.f && h[o].kind.String? && h[o].kind.buf !in t.f
    requires h[o].kind.buf in h && h[h[o].kind.buf].kind.Buffer?
    ensures var b, at := h[o].kind.buf, idx + ObjSize(h[o]);
      IsImage(h, Extend(h, Extend(h, t, o, idx), b, at), b, Counted(h[b], 1))
  {
    hide Sharers, Total, Scanned, HeapOk;
    OwnBuffer(h, limit, o);
    var b := h[o].kind.buf;
    assert forall i :: 0 <= i < |t.order| ==> t.order[i] in t.order;
    NoSharers(h, t, t.order, b);
    TotalSnoc(h, t.order, o);
    TotalSnoc(h, t.order + [o], b);
    assert I8(1) == 1;
  }

  lemma OlderImage(h: Mem, limit: int, t: Trace, to: Mem, idx: int, o: int, q: int)
    requires HeapOk(h, limit) && Packed(h, t, idx) && Scanned(h, t) && Copied(h, t, to)
    requires o in h && o !in t.f && h[o].kind.String? && h[o].kind.buf !in t.f
    requires h[o].kind.buf in h && h[h[o].kind.buf].kind.Buffer? && q in t.f && q in h
    ensures var b, at := h[o].kind.buf, idx + ObjSize(h[o]);
      t.f[q] < idx && t.f[q] in to && IsImage(h, Extend(h, Extend(h, t, o, idx), b, at), q, to[t.f[q]])
  {
    hide Sharers, I8, Total, Scanned, HeapOk;
    OwnBuffer(h, limit, o);
    var b, at := h[o].kind.buf, idx + ObjSize(h[o]);
    var u := Extend(h, Extend(h, t, o, idx), b, at);
    TotalSnoc(h, t.order, o);
    TotalSnoc(h, t.order + [o], b);
    assert IsImage(h, t, q, to[t.f[q]]);
    assert u.order[..|t.order|] == t.order;
    assert t.f[q] + SizeAt(h, q) <= idx;
    ImageKept(h, t, u, q, to[t.f[q]]);
  }

  // ------------------------------------------------------------------ space

  ghost predicate Distinct(order: seq<int>) {
    forall i, j :: 0 <= i < j < |order| ==> order[i] != order[j]
  }

  function Without(order: seq<int>, i: int): seq<int>
    requires 0 <= i < |order|
  {
    order[..i] + order[i + 1..]
  }

  lemma {:induction false} TotalWithout(h: Mem, order: seq<int>, i: int)
    requires 0 <= i < |order|
    ensures Total(h, order) == Total(h, Without(order, i)) + SizeAt(h, order[i])
  {
    var last := |order| - 1;
    if i == last {
      assert Without(order, i) == order[..last];
    } else {
      TotalWithout(h, order[..last], i);
      assert Without(order, i)[..last - 1] == Without(order[..last], i);
      assert Without(order, i)[last - 1] == order[last];
    }
  }

  lemma {:induction false} Highest(order: seq<int>) returns (i: int)
    requires order != []
    ensures 0 <= i < |order| && forall j :: 0 <= j < |order| ==> order[j] <= order[i]
  {
    if |order| == 1 {
      i := 0;
    } else {
      i := Highest(order[..|order| - 1]);
      if order[i] < order[|order| - 1] {
        i := |order| - 1;
      } else {
        forall j | 0 <= j < |order|
          ensures order[j] <= order[i]
        {
          assert j < |order| - 1 ==> order[..|order| - 1][j] == order[j];
        }
      }
    }
  }

  /** Objects that lie apart below `top` take no more room together than there is. */
  lemma {:induction false} TotalFits(h: Mem, limit: int, order: seq<int>, top: int)
    requires Layout(h, limit) && Distinct(order) && 8 <= top
    requires forall i :: 0 <= i < |order| ==> order[i] in h && order[i] + SizeAt(h, order[i]) <= top
    ensures Total(h, order) <= top - 8
    decreases |order|
  {
    if order != [] {
      var i := Highest(order);
      var m := order[i];
      var rest := Without(order, i);
      forall j | 0 <= j < |rest|
        ensures rest[j] in h && rest[j] + SizeAt(h, rest[j]) <= m
      {
        var k := if j < i then j else j + 1;
        assert rest[j] == order[k] && order[k] != order[i];
      }
      assert h[m] == h[m];
      TotalWithout(h, order, i);
      TotalFits(h, limit, rest, m);
    }
  }

  /** The copies never reach past the end of what they are copied from. */
  lemma CopiesFit(h: Mem, limit: int, t: Trace, idx: int)
    requires Layout(h, limit) && Packed(h, t, idx)
    ensures idx <= limit
  {
    forall i | 0 <= i < |t.order|
      ensures t.order[i] in h && t.order[i] + SizeAt(h, t.order[i]) <= limit
    {
      assert t.order[i] in t.order;
    }
    TotalFits(h, limit, t.order, limit);
  }
}
