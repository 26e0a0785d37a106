/** What the running program does to the heap between collections, as steps from one
    state of the runtime to the next. */
module ScmMutator {
  import opened Wrappers
  import opened ScmHeap
  import opened ScmCopy
  import opened ScmSlots
  import opened ScmCollected

  const ARG_STACK_LEN := 512
  const HEAP_PAGE_SZ := 4096

  datatype State = State(working: Mem, used: int, size: int, roots: Roots)

  /** What holds before and after every step. */
  ghost predicate Good(s: State) {
    && HeapOk(s.working, s.used) && RootsOk(s.working, s.roots)
    && s.used <= s.size && HEAP_PAGE_SZ <= s.size && |s.roots.args| <= ARG_STACK_LEN
  }

  /** The pool after room for `n` bytes was asked for: it doubles once if it must. */
  function Grown(size: int, used: int, n: nat): int {
    if Align(n) >= size - used then size * 2 else size
  }

  /** Room for `n` bytes is there after doubling once. */
  predicate Fits(size: int, used: int, n: nat) {
    Align(n) <= 2 * size - used
  }

  /** The same for the buffer of a string, which is allocated after the string. */
  predicate TextFits(size: int, used: int, len: nat) {
    Fits(Grown(size, used, 24), used + 24, 12 + len)
  }

  /** Doubling once is enough exactly for requests up to what is then left; a request
      of at most the pool's size always is one. */
  lemma GrownFits(size: int, used: int, n: nat)
    requires 8 <= used <= size
    ensures used + Align(n) <= Grown(size, used, n) <==> Fits(size, used, n)
    ensures Align(n) <= size ==> used + Align(n) <= Grown(size, used, n)
    ensures size <= Grown(size, used, n)
  {
  }

  /** A fresh pool and a request of two pages: the object does not fit. */
  lemma GrownTooSmall()
    ensures 8 + Align(2 * HEAP_PAGE_SZ) > Grown(HEAP_PAGE_SZ, 8, 2 * HEAP_PAGE_SZ)
  {
  }

  datatype Step =
    | Allocate(kind: Kind, fields: seq<Value>, bytes: nat)
    | AllocateString(text: seq<nat>)
    | Update(off: int, index: int, value: Value)
    | Push(value: Value)
    | Pop
    | Clear
    | AddTable(len: nat)
    | Intern(table: int, index: int, value: Value)
    | Check

  /** Adding an object at the end of the pool in use. */
  function Allocated(s: State, o: Obj, bytes: nat): State {
    s.(working := s.working[s.used := o], used := s.used + Align(bytes), size := Grown(s.size, s.used, bytes))
  }

  /** A string at the end of the pool and its buffer right after it. */
  function AllocatedString(s: State, bytes: seq<nat>): State {
    var at := s.used + 24;
    Allocated(Allocated(s, Obj(0, String(0, |bytes|, at), []), 24), Obj(0, Buffer(1, bytes), []), 12 + |bytes|)
  }

  /** What the source demands of a step, and what the step does. Only values the heap
      backs can be stored, and a request has to fit once the pool has doubled. */
  ghost predicate Takes(s: State, step: Step, s': State) {
    match step
    case Allocate(kind, fields, bytes) =>
      var o := Obj(0, kind, fields);
      && Size(kind, |fields|) <= Align(bytes) && Fits(s.size, s.used, bytes)
      && s' == Allocated(s, o, bytes) && ObjOk(s'.working, o)
    case AllocateString(bytes) =>
      TextFits(s.size, s.used, |bytes|) && s' == AllocatedString(s, bytes)
    case Update(off, index, v) =>
      && off in s.working && 0 <= index < |s.working[off].fields| && ValueOk(s.working, v)
      && !(s.working[off].kind.Box? && v.Ref? && v.tag == BoxT)
      && s' == s.(working := s.working[off := WithField(s.working[off], index, v)])
    case Push(v) =>
      && ValueOk(s.working, v) && |s.roots.args| < ARG_STACK_LEN
      && s' == s.(roots := s.roots.(args := s.roots.args + [v]))
    case Pop =>
      |s.roots.args| > 0 && s' == s.(roots := s.roots.(args := s.roots.args[..|s.roots.args| - 1]))
    case Clear =>
      s' == s.(roots := s.roots.(args := []))
    case AddTable(len) =>
      s' == s.(roots := s.roots.(interned := s.roots.interned + [seq(len, _ => Imm(0))]))
    case Intern(t, j, v) =>
      && ValueOk(s.working, v) && IsRoot(s.roots, Interned(t, j))
      && s' == s.(roots := SetRoot(s.roots, Interned(t, j), v))
    case Check =>
      s' == s || (s'.size == s.size && s'.used <= s.used &&
                  exists t :: Result(s.working, s.roots, t, s'.working, s'.roots, s'.used))
  }

  // ---------------------------------------------------------- steps keep it good

  /** An object put at the end keeps the heap well formed exactly when it is well
      formed itself: its fields must be set before anything looks at it. */
  lemma AllocateKeeps(m: Mem, limit: int, o: Obj, n: int)
    requires HeapOk(m, limit) && ObjSize(o) <= n
    ensures HeapOk(m[limit := o], limit + n) <==> ObjOk(m[limit := o], o)
    ensures forall v :: ValueOk(m, v) ==> ValueOk(m[limit := o], v)
  {
    hide Size, Shaped;
    var m' := m[limit := o];
    assert m'[limit] == o;
    if ObjOk(m', o) {
      forall p | p in m'
        ensures ObjOk(m', m'[p])
      {
        if p != limit {
          assert ObjOk(m, m[p]);
        }
      }
    }
    assert Layout(m', limit + n) by { LayoutGrows(m, limit, o, n); }
  }

  /** The vector `make-vector` leaves: all fill, or whatever lay in the pool. */
  function VectorMade(len: nat, fill: Option<Value>, prior: seq<Value>): Obj {
    Obj(0, Vector, match fill case Some(v) => seq(len, _ => v) case None => prior)
  }

  /** Whatever lay there, the heap stays well formed exactly if a fill is given or there is
      nothing to fill. */
  lemma MakeVectorKeeps(s: State, len: nat, fill: Option<Value>)
    requires Good(s) && Fits(s.size, s.used, 8 + 8 * len) && (fill.Some? ==> ValueOk(s.working, fill.value))
    ensures (forall prior: seq<Value> :: |prior| == len ==> Good(Allocated(s, VectorMade(len, fill, prior), 8 + 8 * len)))
            <==> fill.Some? || len == 0
  {
    if fill.Some? || len == 0 {
      forall prior: seq<Value> | |prior| == len
        ensures Good(Allocated(s, VectorMade(len, fill, prior), 8 + 8 * len))
      {
        var o := VectorMade(len, fill, prior);
        AllocateKeeps(s.working, s.used, o, 8 + 8 * len);
        AllocateGood(s, o, 8 + 8 * len);
      }
    } else {
      UnfilledFails(s, len);
    }
  }

  /** Words that look like a pair at offset 0 are one such content. */
  lemma UnfilledFails(s: State, len: nat)
    requires Good(s) && len > 0
    ensures !Good(Allocated(s, VectorMade(len, None, seq(len, _ => Ref(PairT, 0))), 8 + 8 * len))
  {
    var o := VectorMade(len, None, seq(len, _ => Ref(PairT, 0)));
    var m := s.working[s.used := o];
    UsedPositive(s);
    assert o.fields[0] == Ref(PairT, 0) && 0 !in m;
    assert m[s.used] == o && !ObjOk(m, o);
  }

  lemma LayoutGrows(m: Mem, limit: int, o: Obj, n: int)
    requires Layout(m, limit) && ObjSize(o) <= n
    ensures Layout(m[limit := o], limit + n)
  {
    hide Size;
    var m' := m[limit := o];
    forall p | p in m'
      ensures 8 <= p && p + ObjSize(m'[p]) <= limit + n && (p < limit ==> p + ObjSize(m'[p]) <= limit)
    {
      if p != limit {
        assert m[p] == m'[p];
      }
    }
    forall p, q | p in m' && q in m' && p < q
      ensures p + ObjSize(m'[p]) <= q
    {
      if q != limit {
        assert m[q] == m'[q];
        assert p in m && m[p] == m'[p];
      }
    }
  }

  lemma UpdateKeeps(m: Mem, limit: int, off: int, i: int, v: Value)
    requires HeapOk(m, limit) && off in m && 0 <= i < |m[off].fields| && ValueOk(m, v)
    requires !(m[off].kind.Box? && v.Ref? && v.tag == BoxT)
    ensures HeapOk(m[off := WithField(m[off], i, v)], limit)
    ensures forall w :: ValueOk(m, w) ==> ValueOk(m[off := WithField(m[off], i, v)], w)
  {
    hide Size;
    var m' := m[off := WithField(m[off], i, v)];
    forall p | p in m'
      ensures ObjOk(m', m'[p])
    {
      assert ObjOk(m, m[p]);
    }
    assert Layout(m', limit) by { SameLayout(m, m', limit); }
  }

  lemma SameLayout(m: Mem, m': Mem, limit: int)
    requires Layout(m, limit) && m'.Keys == m.Keys && forall p :: p in m ==> ObjSize(m'[p]) == ObjSize(m[p])
    ensures Layout(m', limit)
  {
    forall p, q | p in m' && q in m' && p < q
      ensures p + ObjSize(m'[p]) <= q
    {
      assert p + ObjSize(m[p]) <= q by { assert m[q] == m[q]; }
    }
  }

  lemma StepKeeps(s: State, step: Step, s': State)
    requires Good(s) && Takes(s, step, s')
    ensures Good(s')
  {
    hide HeapOk, Result, ObjOk;
    match step
    case Allocate(kind, fields, bytes) =>
      AllocateGood(s, Obj(0, kind, fields), bytes);
    case AllocateString(bytes) =>
      StringGood(s, bytes);
    case Update(off, index, v) =>
      UpdateKeeps(s.working, s.used, off, index, v);
    case Push(v) =>
      RootsStep(s, s', Arg(|s.roots.args|), v);
    case Pop =>
      RootsStep(s, s', Field(0, 0), Imm(0));
    case Clear =>
      RootsStep(s, s', Field(0, 0), Imm(0));
    case AddTable(len) =>
      TableStep(s, s', len);
    case Intern(t, j, v) =>
      RootsStep(s, s', Interned(t, j), v);
    case Check =>
      if s' != s {
        CheckGood(s, s');
      }
  }

  lemma AllocateGood(s: State, o: Obj, bytes: nat)
    requires Good(s) && ObjSize(o) <= Align(bytes) && Fits(s.size, s.used, bytes) && ObjOk(s.working[s.used := o], o)
    ensures Good(Allocated(s, o, bytes))
  {
    hide HeapOk, Grown, ObjOk, ValueOk;
    UsedPositive(s);
    GrownFits(s.size, s.used, bytes);
    AllocateKeeps(s.working, s.used, o, Align(bytes));
  }

  /** The string refers to a buffer that is there only once both are. */
  lemma StringGood(s: State, bytes: seq<nat>)
    requires Good(s) && TextFits(s.size, s.used, |bytes|)
    ensures Good(AllocatedString(s, bytes))
  {
    hide Layout, ObjOk, ValueOk;
    var at, n := s.used + 24, Align(12 + |bytes|);
    var o, b := Obj(0, String(0, |bytes|, at), []), Obj(0, Buffer(1, bytes), []);
    var m := s.working[s.used := o];
    var m' := m[at := b];
    UsedPositive(s);
    LayoutGrows(s.working, s.used, o, 24);
    LayoutGrows(m, at, b, n);
    GrownFits(s.size, s.used, 24);
    GrownFits(Grown(s.size, s.used, 24), at, 12 + |bytes|);
    StringObjects(s, o, b, at);
    RootsStay(s.working, m', s.roots);
  }

  lemma StringObjects(s: State, o: Obj, b: Obj, at: int)
    requires Good(s) && at == s.used + 24 && o.kind.String? && o.kind.buf == at && o.fields == [] && o.fref == 0
    requires b.kind.Buffer? && b.fields == [] && b.fref == 0
    ensures var m := s.working[s.used := o][at := b];
      (forall p :: p in m ==> ObjOk(m, m[p])) && forall v :: ValueOk(s.working, v) ==> ValueOk(m, v)
  {
    hide Size;
    var m := s.working[s.used := o][at := b];
    forall p | p in s.working
      ensures p < s.used && m[p] == s.working[p] && ObjOk(s.working, s.working[p])
    {
    }
    forall p | p in m
      ensures ObjOk(m, m[p])
    {
    }
  }

  lemma RootsStay(m: Mem, m': Mem, r: Roots)
    requires RootsOk(m, r) && forall v :: ValueOk(m, v) ==> ValueOk(m', v)
    ensures RootsOk(m', r)
  {
  }

  lemma UsedPositive(s: State)
    requires Good(s)
    ensures 8 <= s.used
  {
  }

  /** Roots that were there, or hold a value the heap backs, are fine. */
  lemma RootsStep(s: State, s': State, l: Loc, v: Value)
    requires RootsOk(s.working, s.roots) && ValueOk(s.working, v) && s'.working == s.working
    requires forall k {:trigger IsRoot(s'.roots, k)} :: IsRoot(s'.roots, k) ==>
      if k == l then RootAt(s'.roots, k) == v else IsRoot(s.roots, k) && RootAt(s'.roots, k) == RootAt(s.roots, k)
    ensures RootsOk(s'.working, s'.roots)
  {
  }

  lemma TableStep(s: State, s': State, len: nat)
    requires RootsOk(s.working, s.roots) && Takes(s, AddTable(len), s')
    ensures RootsOk(s'.working, s'.roots)
  {
    forall k | IsRoot(s'.roots, k)
      ensures ValueOk(s'.working, RootAt(s'.roots, k))
    {
      if k.Interned? && k.table == |s.roots.interned| {
        assert RootAt(s'.roots, k) == Imm(0);
      } else {
        assert IsRoot(s.roots, k) && RootAt(s'.roots, k) == RootAt(s.roots, k);
      }
    }
  }

  lemma CheckGood(s: State, s': State)
    requires Good(s) && s'.size == s.size && s'.used <= s.used
    requires exists t :: Result(s.working, s.roots, t, s'.working, s'.roots, s'.used)
    ensures Good(s')
  {
    hide HeapOk, RootsOk, Isomorphic, Compact;
    var t :| Result(s.working, s.roots, t, s'.working, s'.roots, s'.used);
    ResultOk(s.working, s.used, s.roots, t, s'.working, s'.roots, s'.used);
    ArgsKept(s.working, s.roots, t.f, s'.working, s'.roots);
  }

  lemma ArgsKept(h: Mem, r: Roots, f: map<int, int>, h': Mem, r': Roots)
    requires Isomorphic(h, r, f, h', r')
    ensures |r'.args| == |r.args|
  {
  }

  /** The state of the runtime when it starts. */
  function Initial(cc: nat): State {
    State(map[], 8, HEAP_PAGE_SZ, Roots([], [], Imm(cc)))
  }

  /** After any number of steps the heap is well formed. */
  lemma {:induction false} RunsStayGood(cc: nat, run: seq<State>, steps: seq<Step>)
    requires |run| == |steps| + 1 && run[0] == Initial(cc)
    requires forall i {:trigger steps[i]} :: 0 <= i < |steps| ==> Takes(run[i], steps[i], run[i + 1])
    ensures forall i :: 0 <= i < |run| ==> Good(run[i])
  {
    hide Takes;
    if |steps| == 0 {
    } else {
      var front, last := run[..|steps|], |steps| - 1;
      forall i | 0 <= i < last
        ensures Takes(front[i], steps[..last][i], front[i + 1])
      {
        assert steps[..last][i] == steps[i];
      }
      RunsStayGood(cc, front, steps[..last]);
      assert front[last] == run[last];
      hide Good;
      StepKeeps(run[last], steps[last], run[last + 1]);
    }
  }
}
