/** The two-space copying collector: a recursive walk that rewrites slots in place
    and leaves forwarding offsets behind. */
module ScmRuntime {
  import opened Wrappers
  import opened ScmHeap
  import opened ScmCopy
  import opened ScmSlots
  import opened ScmCollected
  import opened ScmMutator

  class Runtime {
    var working: Mem      // the pool in use
    var used: int         // where its next object goes
    var size: int
    var free: Mem         // the pool a collection fills
    var top: int
    var threshold: int
    var roots: Roots
    ghost var trace: Trace

    ghost predicate Running(g: Goal)
      reads this
    {
      GoalOk(g) && Collecting(g.h, trace, working, free, top) && trace.f.Keys <= g.live
    }

    method Read(l: Loc, ghost g: Goal, ghost owner: int, ghost v: Value) returns (w: Value)
      requires Running(g) && SlotOk(g.h, trace, roots, l, owner, v)
      ensures w == v
    {
      match l
      case Field(p, i) =>
        PendingValue(g.h, trace, working, free, top, owner, i);
        w := free[p].fields[i];
      case _ =>
        w := RootAt(roots, l);
    }

    /** The slot is pointed at where its object went. */
    method Write(l: Loc, w: Value, ghost g: Goal, ghost owner: int, ghost v: Value)
      requires Running(g) && SlotOk(g.h, trace, roots, l, owner, v)
      requires Done(trace.f, v) && w == Moved(trace.f, v)
      modifies `free, `roots, `trace
      ensures Running(g)
      ensures trace == old(trace).(pending := old(trace).pending - Mark(l, owner))
      ensures roots == old(RootsAfter(roots, l, w))
    {
      hide Collecting, GoalOk;
      match l
      case Field(p, i) =>
        PendingValue(g.h, trace, working, free, top, owner, i);
        FieldStep(g.h, trace, working, free, top, owner, i);
        free := free[p := WithField(free[p], i, w)];
        trace := trace.(pending := trace.pending - {(owner, i)});
      case _ =>
        roots := SetRoot(roots, l, w);
        assert trace.pending - Mark(l, owner) == trace.pending;
    }
  
    /** `scm_copy_mem`: the object is copied to the end of the new pool, its old
        header says where, and the slot is pointed there. */
    method CopyObject(l: Loc, v: Value, ghost g: Goal, ghost owner: int) returns (at: int)
      requires Running(g) && SlotOk(g.h, trace, roots, l, owner, v)
      requires v.Ref? && v.off in g.live && v.off !in trace.f
      requires v.off in g.h && !g.h[v.off].kind.String? && !g.h[v.off].kind.Buffer?
      modifies `working, `free, `top, `roots, `trace
      ensures Running(g) && at == old(top) && at + ObjSize(g.h[v.off]) == top <= g.limit
      ensures var u := Extend(g.h, old(trace), v.off, at);
        trace == u.(pending := u.pending - Mark(l, owner)) && Later(old(trace), trace)
      ensures roots == old(RootsAfter(roots, l, Ref(v.tag, at)))
    {
      hide Collecting, GoalOk;
      at := top;
      GoalFacts(g);
      CopyStep(g.h, g.limit, trace, working, free, top, v.off);
      HeaderClear(g, trace, working, free, top, v.off);
      free := free[at := working[v.off]];
      working := working[v.off := working[v.off].(fref := at)];
      top := top + ObjSize(free[at]);
      ghost var before := trace;
      trace := Extend(g.h, trace, v.off, at);
      SlotKept(g.h, before, trace, roots, l, owner, v);
      CollectingFits(g, trace, working, free, top);
      Write(l, Ref(v.tag, at), g, owner, v);
    }

    /** A string is copied, and its buffer right after it unless another string's
        copy has taken the buffer along already. */
    method CopyString(l: Loc, v: Value, ghost g: Goal, ghost owner: int)
      requires Running(g) && SlotOk(g.h, trace, roots, l, owner, v)
      requires v.Ref? && v.off in g.live && v.off !in trace.f
      requires v.off in g.h && g.h[v.off].kind.String?
      modifies `working, `free, `top, `roots, `trace
      ensures Running(g) && Later(old(trace), trace) && v.off in trace.f
      ensures trace.pending == old(trace).pending - Mark(l, owner)
      ensures roots == RootsAfter(old(roots), l, Moved(trace.f, v))
      ensures TextKept(g.h, v.off, trace.f, free)
    {
      hide Collecting, GoalOk, Closed, HeapOk, Size, TextKept;
      GoalFacts(g);
      OwnBuffer(g.h, g.limit, v.off);
      BufferLive(g, v.off);
      HeaderClear(g, trace, working, free, top, v.off);
      var at, s := top, working[v.off];
      var b := s.kind.buf;
      HeaderClear(g, trace, working, free, top, b);
      ghost var before := trace;
      trace := Extend(g.h, trace, v.off, at);
      if working[b].fref != 0 {
        var shared := working[b].fref;
        SharingStep(g.h, g.limit, before, working, free, top, v.off);
        working := working[v.off := s.(fref := at)];
        free := free[at := Rebuffered(s, shared)][shared := Counted(free[shared], I8(free[shared].kind.rc + 1))];
        top := at + ObjSize(s);
      } else {
        var next := at + ObjSize(s);
        StringStep(g.h, g.limit, before, working, free, top, v.off);
        free := free[at := Rebuffered(s, next)][next := Counted(working[b], 1)];
        working := working[v.off := s.(fref := at)][b := working[b].(fref := next)];
        top := next + ObjSize(working[b]);
        trace := Extend(g.h, trace, b, next);
      }
      NothingPending(g.h, before, trace, v.off, b, at);
      SlotKept(g.h, before, trace, roots, l, owner, v);
      Write(l, Ref(v.tag, at), g, owner, v);
      CopiedText(g.h, trace, working, free, top, v.off);
    }

    /** `scm_collect_value`. It stops at an infinity or a not-a-number, which none
        of its tests knows. */
    method CollectValue(l: Loc, ghost g: Goal, ghost owner: int, ghost v: Value) returns (ok: bool)
      requires Running(g) && SlotOk(g.h, trace, roots, l, owner, v) && LiveValue(g, v)
      modifies `working, `free, `top, `roots, `trace
      ensures ok ==> Running(g) && Later(old(trace), trace) && Done(trace.f, v)
      ensures ok ==> trace.pending == old(trace).pending - Mark(l, owner)
      ensures ok ==> roots == RootsAfter(old(roots), l, Moved(trace.f, v))
      ensures !ok ==> v.Special? || HoldsSpecial(g)
      decreases g.live - trace.f.Keys, 0
    {
      hide Collecting, GoalOk, HoldsSpecial;
      var w := Read(l, g, owner, v);
      if w.Imm? {
        Write(l, w, g, owner, v);
        return true;
      }
      if w.Special? {
        return false;
      }
      HeaderClear(g, trace, working, free, top, w.off);
      var fref := working[w.off].fref;
      if fref != 0 {
        Write(l, Ref(w.tag, fref), g, owner, v);
        return true;
      }
      if w.tag == StringT {
        CopyString(l, w, g, owner);
        return true;
      }
      var fields := |working[w.off].fields|;
      ghost var base := trace.pending - Mark(l, owner);
      NoFieldsPending(g, trace, working, free, top, w.off);
      ghost var before := trace;
      var at := CopyObject(l, w, g, owner);
      ExtendPending(g.h, before, w.off, at, l, owner, trace, base);
      ok := CollectFields(at, fields, g, w.off, base);
    }

    /** The fields of a copy, first to last; objects without any have none. */
    method CollectFields(at: int, n: nat, ghost g: Goal, ghost owner: int, ghost base: set<(int, int)>) returns (ok: bool)
      requires Running(g) && owner in g.live && owner in g.h && n == |g.h[owner].fields|
      requires owner in trace.f && trace.f[owner] == at
      requires (forall j :: (owner, j) !in base) && trace.pending == base + FieldsFrom(g.h, owner, 0)
      modifies `working, `free, `top, `roots, `trace
      ensures ok ==> Running(g) && Later(old(trace), trace) && roots == old(roots)
      ensures ok ==> trace.pending == base
      ensures !ok ==> HoldsSpecial(g)
      decreases g.live - trace.f.Keys, 1
    {
      hide Collecting, GoalOk, HoldsSpecial;
      for i := 0 to n
        invariant Running(g) && Later(old(trace), trace) && roots == old(roots)
        invariant trace.pending == base + FieldsFrom(g.h, owner, i)
      {
        ghost var v := g.h[owner].fields[i];
        FieldLive(g, owner, i);
        ok := CollectValue(Field(at, i), g, owner, v);
        if !ok {
          return;
        }
      }
      ok := true;
    }

    /** One root after those passed: `p` becomes `q`. */
    method CollectRoot(l: Loc, ghost g: Goal, ghost r: Roots, ghost p: Progress, ghost q: Progress) returns (ok: bool)
      requires Sweeping(g, r, p) && IsRoot(r, l) && Next(r, p, l, q)
      modifies `working, `free, `top, `roots, `trace
      ensures ok ==> Sweeping(g, r, q)
      ensures !ok ==> SpecialReachable(g.h, r)
    {
      hide Running, SpecialReachable, HoldsSpecial, LiveValue, Swept, Done, Moved, Next;
      ghost var v := RootAt(r, l);
      ghost var before, t := roots, trace;
      UntilNow(trace.f, r, roots, p, l, q);
      ok := CollectValue(l, g, 0, v);
      if ok {
        assert trace.pending == {};
        SweptStep(t, trace, r, before, p, l, q);
      } else {
        SpecialFound(g, r, l);
      }
    }

    method CollectTable(t: int, ghost g: Goal, ghost r: Roots) returns (ok: bool)
      requires Sweeping(g, r, Progress(t, 0, 0, false)) && 0 <= t < |r.interned| == |roots.interned|
      modifies `working, `free, `top, `roots, `trace
      ensures ok ==> Sweeping(g, r, Progress(t + 1, 0, 0, false))
      ensures !ok ==> SpecialReachable(g.h, r)
    {
      hide Sweeping, SpecialReachable;
      var len := |roots.interned[t]|;
      SweepingShape(g, r, Progress(t, 0, 0, false));
      for j := 0 to len
        invariant Sweeping(g, r, Progress(t, j, 0, false))
      {
        TableNext(r, t, j);
        ok := CollectRoot(Interned(t, j), g, r, Progress(t, j, 0, false), Progress(t, j + 1, 0, false));
        if !ok {
          return;
        }
      }
      ok := true;
      SweepingOn(g, r, Progress(t, len, 0, false), Progress(t + 1, 0, 0, false));
    }

    method CollectArgs(ghost g: Goal, ghost r: Roots) returns (ok: bool)
      requires Sweeping(g, r, Progress(|r.interned|, 0, 0, false)) && |r.args| == |roots.args|
      modifies `working, `free, `top, `roots, `trace
      ensures ok ==> Sweeping(g, r, Progress(|r.interned|, 0, |r.args|, false))
      ensures !ok ==> SpecialReachable(g.h, r)
    {
      hide Sweeping, SpecialReachable;
      for i := 0 to |roots.args|
        invariant Sweeping(g, r, Progress(|r.interned|, 0, i, false))
      {
        ok := CollectRoot(Arg(i), g, r, Progress(|r.interned|, 0, i, false), Progress(|r.interned|, 0, i + 1, false));
        if !ok {
          return;
        }
      }
      ok := true;
    }

    ghost predicate Sweeping(g: Goal, r: Roots, p: Progress)
      reads this
    {
      Running(g) && g.live == ReachableSet(g.h, r) && RootsLive(g, r) && trace.pending == {} && Swept(trace.f, r, roots, p)
    }

    lemma SweepingShape(g: Goal, r: Roots, p: Progress)
      requires Sweeping(g, r, p)
      ensures SameShape(r, roots)
    {
    }

    lemma SweepingOn(g: Goal, r: Roots, p: Progress, q: Progress)
      requires Sweeping(g, r, p) && forall l {:trigger IsRoot(r, l)} :: IsRoot(r, l) ==> (Passed(p, l) <==> Passed(q, l))
      ensures Sweeping(g, r, q)
    {
    }

    /** `scm_gc`: every root is collected into the empty pool, and the pools change places. */
    method Collect() returns (ok: bool)
      requires HeapOk(working, used) && RootsOk(working, roots)
      modifies this
      ensures ok <==> !SpecialReachable(old(working), old(roots))
      ensures ok ==> Result(old(working), old(roots), trace, working, roots, used)
      ensures ok ==> HeapKept(old(working), old(roots), trace.f, working, roots)
      ensures ok ==> size == old(size) && threshold == used && used <= old(used)
    {
      hide Sweeping, SpecialReachable, RootsOk, HeapOk, Result, HeapKept;
      ghost var h, r := working, roots;
      ghost var g := Goal(h, used, ReachableSet(h, r));
      free, top, trace := map[], 8, Trace([], map[], {});
      SweepingStart(g, r);
      for t := 0 to |roots.interned|
        invariant Sweeping(g, r, Progress(t, 0, 0, false)) && size == old(size) && used == old(used)
      {
        SweepingShape(g, r, Progress(t, 0, 0, false));
        ok := CollectTable(t, g, r);
        if !ok {
          return;
        }
      }
      SweepingShape(g, r, Progress(|r.interned|, 0, 0, false));
      ok := CollectArgs(g, r);
      if !ok {
        return;
      }
      ok := CollectRoot(Cc, g, r, Progress(|r.interned|, 0, |r.args|, false), Progress(|r.interned|, 0, |r.args|, true));
      if !ok {
        return;
      }
      SweepingDone(g, r);
      ResultKept(h, used, r, trace, free, roots, top);
      working, used, free, top := free, top, map[], 0;
      threshold := used;
    }

    lemma SweepingStart(g: Goal, r: Roots)
      requires HeapOk(g.h, g.limit) && RootsOk(g.h, r) && g.live == ReachableSet(g.h, r)
      requires working == g.h && free == map[] && top == 8 && trace == Trace([], map[], {}) && roots == r
      ensures Sweeping(g, r, Progress(0, 0, 0, false))
    {
      hide HeapOk, Collecting, ReachableSet;
      ReachableClosed(g.h, g.limit, r);
      CollectingStart(g.h, g.limit);
    }

    lemma SweepingDone(g: Goal, r: Roots)
      requires HeapOk(g.h, g.limit) && Sweeping(g, r, Progress(|r.interned|, 0, |r.args|, true))
      ensures Result(g.h, r, trace, free, roots, top) && top <= g.limit && !SpecialReachable(g.h, r)
    {
      hide HeapOk, Collecting, Swept, Result, SpecialReachable, ReachableSet, RootsLive, GoalOk;
      var p := Progress(|r.interned|, 0, |r.args|, true);
      Finished(g, r, trace, working, free, top, roots, p);
      NoneReachable(g, r, trace, working, free, top, roots, p);
    }

    // -------------------------------------------------- the running program

    ghost function S(): State
      reads this
    {
      State(working, used, size, roots)
    }

    constructor (word: nat)
      ensures S() == Initial(word) && threshold == 0
      ensures working == map[] && used == 8 && size == 4096 && roots == Roots([], [], Imm(word))
    {
      working, used, size := map[], 8, HEAP_PAGE_SZ;
      free, top, threshold := map[], 0, 0;
      roots := Roots([], [], Imm(word));
      trace := Trace([], map[], {});
    }

    /** `scm_heap_alloc`: room at the end of the pool, which doubles once if it must. */
    method HeapAlloc(bytes: nat) returns (at: int)
      modifies `used, `size
      ensures at == old(used) && used == at + Align(bytes) && size == Grown(old(size), at, bytes)
      ensures bytes <= used - at < bytes + 8 && (used - at) % 8 == 0
      ensures size == if old(size) - at <= used - at then 2 * old(size) else old(size)
    {
      var n := bytes + AlignOffset(bytes);
      if n >= size - used {
        size := size * 2;
      }
      at := used;
      used := used + n;
    }

    method PushArg(v: Value) returns (ok: bool)
      modifies `roots
      ensures ok <==> |old(roots).args| < 512
      ensures ok ==> roots == old(roots).(args := old(roots).args + [v])
      ensures Good(old(S())) && ValueOk(working, v) && ok ==> Takes(old(S()), Push(v), S()) && Good(S())
      ensures !ok ==> roots == old(roots)
    {
      ok := |roots.args| < ARG_STACK_LEN;
      ghost var before := S();
      if ok {
        roots := roots.(args := roots.args + [v]);
        if Good(before) && ValueOk(working, v) {
          StepKeeps(before, Push(v), S());
        }
      }
    }

    /** `pop_arg`; the source reports an underflow on an empty stack. */
    method PopArg() returns (v: Value)
      requires |roots.args| > 0
      modifies `roots
      ensures v == old(roots).args[|old(roots).args| - 1] && Takes(old(S()), Pop, S())
      ensures roots == old(roots).(args := old(roots).args[..|old(roots).args| - 1])
      ensures old(Good(S())) ==> Good(S()) && ValueOk(working, v)
    {
      var last := |roots.args| - 1;
      v := roots.args[last];
      ghost var before := S();
      roots := roots.(args := roots.args[..last]);
      if Good(before) {
        ArgOk(before, last);
        StepKeeps(before, Pop, S());
      }
    }

    method Cons(car: Value, cdr: Value) returns (v: Value)
      requires Good(S()) && ValueOk(working, car) && ValueOk(working, cdr)
      modifies `working, `used, `size
      ensures v == Ref(PairT, old(used)) && Takes(old(S()), Allocate(Pair, [car, cdr], 24), S())
      ensures working == old(working)[old(used) := Obj(0, Pair, [car, cdr])] && roots == old(roots)
      ensures Good(S()) && ValueOk(working, v)
    {
      hide HeapOk, Grown;
      ghost var before := S();
      UsedPositive(before);
      var at := HeapAlloc(24);
      working := working[at := Obj(0, Pair, [car, cdr])];
      PairOk(before, car, cdr);
      v := Ref(PairT, at);
    }

    /** `primop_cons`: the first argument popped is the car. */
    method PrimopCons() returns (ok: bool, v: Value)
      requires Good(S())
      modifies `working, `used, `size, `roots
      ensures ok <==> |old(roots).args| == 2
      ensures ok ==> v == Ref(PairT, old(used)) && Good(S()) && roots == old(roots).(args := [])
      ensures ok ==> working == old(working)[v.off := Obj(0, Pair, [old(roots).args[1], old(roots).args[0]])]
      ensures !ok ==> S() == old(S())
    {
      hide Good, ValueOk;
      ok, v := |roots.args| == 2, Imm(0);
      if ok {
        var car := PopArg();
        var cdr := PopArg();
        ValueKept(old(working), working, car);
        v := Cons(car, cdr);
      }
    }

    /** `primop_set_car`: the pair is popped first; anything else is a type error. */
    method PrimopSetCar() returns (ok: bool)
      requires Good(S())
      modifies `working, `roots
      ensures ok <==> |old(roots).args| == 2 && old(roots).args[1].Ref? && old(roots).args[1].tag == PairT
      ensures ok ==> var p := old(roots).args[1].off;
        p in old(working) && |old(working)[p].fields| == 2 && Good(S()) && roots == old(roots).(args := []) &&
        working == old(working)[p := Obj(old(working)[p].fref, Pair, [old(roots).args[0], old(working)[p].fields[1]])]
      ensures !ok ==> working == old(working)
    {
      hide Good, ObjOk, HeapOk;
      ok := |roots.args| == 2;
      if ok {
        var pair := PopArg();
        var val := PopArg();
        ok := pair.Ref? && pair.tag == PairT;
        if ok {
          PairShape(S(), pair);
          ghost var before := S();
          working := working[pair.off := WithField(working[pair.off], 0, val)];
          assert working[pair.off].fields == [val, before.working[pair.off].fields[1]];
          StepKeeps(before, Update(pair.off, 0, val), S());
        }
      }
    }

    method MakeBox(void: nat) returns (v: Value)
      requires Good(S())
      modifies `working, `used, `size
      ensures v == Ref(BoxT, old(used)) && Takes(old(S()), Allocate(Box, [Imm(void)], 16), S())
      ensures working == old(working)[old(used) := Obj(0, Box, [Imm(void)])]
      ensures Good(S()) && ValueOk(working, v)
    {
      hide HeapOk, Grown;
      ghost var before := S();
      UsedPositive(before);
      var at := HeapAlloc(16);
      working := working[at := Obj(0, Box, [Imm(void)])];
      BoxOk(before, void);
      v := Ref(BoxT, at);
    }

    method BoxRef(b: Value) returns (v: Value)
      requires Good(S()) && ValueOk(working, b) && b.Ref? && b.tag == BoxT
      ensures b.off in working && working[b.off].fields == [v]
      ensures ValueOk(working, v) && !(v.Ref? && v.tag == BoxT)
    {
      BoxShape(S(), b);
      v := working[b.off].fields[0];
    }

    /** `box_set`: a box is never put into a box, what it holds is. One step in is
        enough, because no box holds a box. */
    method BoxSet(b: Value, v: Value)
      requires Good(S()) && ValueOk(working, b) && ValueOk(working, v) && b.Ref? && b.tag == BoxT
      modifies `working
      ensures b.off in old(working) && old(working)[b.off].kind.Box? && |old(working)[b.off].fields| == 1
      ensures v.Ref? && v.tag == BoxT ==> v.off in old(working) && |old(working)[v.off].fields| == 1
      ensures var w := if v.Ref? && v.tag == BoxT then old(working)[v.off].fields[0] else v;
        working == old(working)[b.off := Obj(0, Box, [w])]
      ensures Good(S())
      decreases v.Ref? && v.tag == BoxT
    {
      hide HeapOk;
      BoxShape(S(), b);
      if v.Ref? && v.tag == BoxT {
        var w := BoxRef(v);
        BoxSet(b, w);
      } else {
        ghost var before := S();
        working := working[b.off := WithField(working[b.off], 0, v)];
        StepKeeps(before, Update(b.off, 0, v), S());
        assert working[b.off].fields == [v];
      }
    }

    /** `primop_vector`: the elements are what pops off, last pushed first. */
    method PrimopVector() returns (v: Value)
      requires Good(S()) && Fits(size, used, 8 + 8 * |roots.args|)
      modifies `working, `used, `size, `roots
      ensures v == Ref(VectorT, old(used)) && roots == old(roots).(args := [])
      ensures old(used) in working && working[old(used)] == Obj(0, Vector, Reversed(old(roots).args))
      ensures Good(S()) && working == old(working)[old(used) := working[old(used)]]
    {
      hide Good, Grown, ValueOk;
      ghost var before := S();
      UsedPositive(before);
      var len := |roots.args|;
      var at := HeapAlloc(8 + 8 * len);
      var elems: seq<Value> := [];
      var i := 0;
      while |roots.args| > 0
        invariant 0 <= i == |elems| && i + |roots.args| == len
        invariant roots == before.roots.(args := before.roots.args[..len - i])
        invariant elems == Reversed(before.roots.args)[..i]
        modifies `roots
      {
        ReversedAt(before.roots.args, i);
        var x := PopArg();
        elems := elems + [x];
        i := i + 1;
      }
      working := working[at := Obj(0, Vector, elems)];
      assert roots.args == [];
      VectorOk(before);
      v := Ref(VectorT, at);
    }

    /** `primop_make_vector`, its length popped: `prior` is what lies in the pool where the
        vector comes to be, and stays there if no fill is on the stack. */
    method PrimopMakeVector(len: nat, prior: seq<Value>) returns (v: Value)
      requires Good(S()) && Fits(size, used, 8 + 8 * len) && |prior| == len
      modifies `working, `used, `size, `roots
      ensures var filled := |old(roots).args| > 0; var fill := if filled then Some(old(roots).args[|old(roots).args| - 1]) else None;
        && v == Ref(VectorT, old(used)) && working == old(working)[old(used) := VectorMade(len, fill, prior)]
        && roots == (if filled then old(roots).(args := old(roots).args[..|old(roots).args| - 1]) else old(roots))
        && (filled || len == 0 ==> Good(S()))
      ensures old(used) in working && working[old(used)].fref == 0 && working[old(used)].kind == Vector
      ensures |working[old(used)].fields| == len && forall j :: 0 <= j < len ==>
        working[old(used)].fields[j] == if |old(roots).args| > 0 then old(roots).args[|old(roots).args| - 1] else prior[j]
    {
      hide HeapOk, RootsOk, Grown, ObjOk, ValueOk;
      ghost var before := S();
      UsedPositive(before);
      var at := HeapAlloc(8 + 8 * len);
      working := working[at := Obj(0, Vector, prior)];
      v := Ref(VectorT, at);
      ghost var fill: Option<Value> := None;
      if |roots.args| > 0 {
        ArgOk(before, |roots.args| - 1);
        var x := roots.args[|roots.args| - 1];
        roots := roots.(args := roots.args[..|roots.args| - 1]);
        fill := Some(x);
        var i := 0;
        assert FilledTo(prior, x, 0) == prior;
        while i < len
          invariant 0 <= i <= len && working == before.working[at := Obj(0, Vector, FilledTo(prior, x, i))]
          modifies `working
        {
          FilledOn(prior, x, i);
          working := working[at := WithField(working[at], i, x)];
          i := i + 1;
        }
        assert working[at] == VectorMade(len, fill, prior);
      }
      assert working == before.working[at := VectorMade(len, fill, prior)];
      if fill.Some? || len == 0 {
        VectorMadeGood(before, len, fill, prior);
        if fill.Some? {
          ghost var made := Allocated(before, VectorMade(len, fill, prior), 8 + 8 * len);
          assert S() == made.(roots := roots);
          StepKeeps(made, Pop, S());
        }
      }
    }

    /** `init_string`: the string first, then its buffer, counted once. */
    method InitString(text: seq<nat>) returns (v: Value)
      requires Good(S()) && TextFits(size, used, |text|)
      modifies `working, `used, `size
      ensures v == Ref(StringT, old(used)) && Takes(old(S()), AllocateString(text), S())
      ensures working == old(working)[old(used) := Obj(0, String(0, |text|, old(used) + 24), [])]
                                     [old(used) + 24 := Obj(0, Buffer(1, text), [])]
      ensures Good(S()) && ValueOk(working, v)
    {
      hide HeapOk, Grown;
      ghost var before := S();
      var at := HeapAlloc(24);
      var buf := HeapAlloc(12 + |text|);
      working := working[at := Obj(0, String(0, |text|, buf), [])];
      working := working[buf := Obj(0, Buffer(1, text), [])];
      StepKeeps(before, AllocateString(text), S());
      v := Ref(StringT, at);
    }

    /** `scm_chk_heap`: a collection once half as much again as survived the last one is in use. */
    method ChkHeap() returns (ok: bool)
      requires Good(S()) && threshold >= 0
      modifies this
      ensures ok ==> Takes(old(S()), Check, S()) && Good(S())
      ensures old(used <= threshold + threshold / 2) ==> ok && S() == old(S()) && threshold == old(threshold)
      ensures old(used > threshold + threshold / 2) ==>
        (ok <==> !SpecialReachable(old(working), old(roots))) && (ok ==> threshold == used)
    {
      hide HeapOk, RootsOk, Result, SpecialReachable;
      ghost var before := S();
      ok := true;
      if used > threshold + threshold / 2 {
        ok := Collect();
      }
      if ok {
        StepKeeps(before, Check, S());
      }
    }
  }

  // ------------------------------------------------------------ new objects

  function Reversed(s: seq<Value>): (r: seq<Value>)
    ensures |r| == |s|
  {
    if s == [] then [] else [s[|s| - 1]] + Reversed(s[..|s| - 1])
  }

  lemma {:induction false} ReversedAt(s: seq<Value>, i: int)
    requires 0 <= i < |s|
    ensures Reversed(s)[i] == s[|s| - 1 - i]
  {
    if i > 0 {
      ReversedAt(s[..|s| - 1], i - 1);
    }
  }

  lemma ArgOk(s: State, i: int)
    requires Good(s) && 0 <= i < |s.roots.args|
    ensures ValueOk(s.working, s.roots.args[i])
  {
    assert IsRoot(s.roots, Arg(i)) && RootAt(s.roots, Arg(i)) == s.roots.args[i];
  }

  lemma ValueKept(m: Mem, m': Mem, v: Value)
    requires ValueOk(m, v) && m' == m
    ensures ValueOk(m', v)
  {
  }

  lemma PairOk(s: State, car: Value, cdr: Value)
    requires Good(s) && ValueOk(s.working, car) && ValueOk(s.working, cdr)
    ensures var s' := Allocated(s, Obj(0, Pair, [car, cdr]), 24);
      Takes(s, Allocate(Pair, [car, cdr], 24), s') && Good(s')
  {
    hide HeapOk, Grown;
    var o := Obj(0, Pair, [car, cdr]);
    AllocatedValues(s, o);
    StepKeeps(s, Allocate(Pair, [car, cdr], 24), Allocated(s, o, 24));
  }

  lemma BoxOk(s: State, void: nat)
    requires Good(s)
    ensures var s' := Allocated(s, Obj(0, Box, [Imm(void)]), 16);
      Takes(s, Allocate(Box, [Imm(void)], 16), s') && Good(s')
  {
    hide HeapOk, Grown;
    StepKeeps(s, Allocate(Box, [Imm(void)], 16), Allocated(s, Obj(0, Box, [Imm(void)]), 16));
  }

  lemma VectorOk(s: State)
    requires Good(s) && Fits(s.size, s.used, 8 + 8 * |s.roots.args|)
    ensures var elems, n := Reversed(s.roots.args), 8 + 8 * |s.roots.args|;
      var s' := Allocated(s, Obj(0, Vector, elems), n);
      Takes(s, Allocate(Vector, elems, n), s') && Good(s'.(roots := s.roots.(args := [])))
  {
    hide HeapOk, Grown, ValueOk;
    var elems, n := Reversed(s.roots.args), 8 + 8 * |s.roots.args|;
    var o := Obj(0, Vector, elems);
    var s' := Allocated(s, o, n);
    AllocatedValues(s, o);
    forall i | 0 <= i < |elems|
      ensures ValueOk(s'.working, elems[i])
    {
      ReversedAt(s.roots.args, i);
      assert elems[i] == RootAt(s.roots, Arg(|s.roots.args| - 1 - i));
    }
    StepKeeps(s, Allocate(Vector, elems, n), s');
    StepKeeps(s', Clear, s'.(roots := s.roots.(args := [])));
  }

  /** The first `i` elements filled. */
  function FilledTo(prior: seq<Value>, x: Value, i: nat): seq<Value>
    requires i <= |prior|
  {
    seq(i, _ => x) + prior[i..]
  }

  lemma FilledOn(prior: seq<Value>, x: Value, i: nat)
    requires i < |prior|
    ensures WithField(Obj(0, Vector, FilledTo(prior, x, i)), i, x) == Obj(0, Vector, FilledTo(prior, x, i + 1))
  {
  }

  lemma VectorMadeGood(s: State, len: nat, fill: Option<Value>, prior: seq<Value>)
    requires Good(s) && Fits(s.size, s.used, 8 + 8 * len) && (fill.Some? ==> ValueOk(s.working, fill.value)) && |prior| == len
    requires fill.Some? || len == 0
    ensures Good(Allocated(s, VectorMade(len, fill, prior), 8 + 8 * len))
  {
    MakeVectorKeeps(s, len, fill);
  }

  lemma AllocatedValues(s: State, o: Obj)
    requires Good(s)
    ensures forall v :: ValueOk(s.working, v) ==> ValueOk(s.working[s.used := o], v)
  {
    AllocateKeeps(s.working, s.used, o, ObjSize(o));
  }

  lemma PairShape(s: State, p: Value)
    requires Good(s) && ValueOk(s.working, p) && p.Ref? && p.tag == PairT
    ensures p.off in s.working && s.working[p.off].kind.Pair? && |s.working[p.off].fields| == 2
  {
    assert ObjOk(s.working, s.working[p.off]);
  }

  lemma BoxShape(s: State, b: Value)
    requires Good(s) && ValueOk(s.working, b) && b.Ref? && b.tag == BoxT
    ensures b.off in s.working && s.working[b.off].kind.Box? && |s.working[b.off].fields| == 1 && s.working[b.off].fref == 0
    ensures var v := s.working[b.off].fields[0]; ValueOk(s.working, v) && !(v.Ref? && v.tag == BoxT)
  {
    assert ObjOk(s.working, s.working[b.off]);
  }

  lemma SpecialFound(g: Goal, r: Roots, l: Loc)
    requires IsRoot(r, l) && g.live == ReachableSet(g.h, r) && (HoldsSpecial(g) || RootAt(r, l).Special?)
    ensures SpecialReachable(g.h, r)
  {
  }

  lemma TableNext(r: Roots, t: int, j: int)
    requires 0 <= t < |r.interned| && 0 <= j < |r.interned[t]|
    ensures Next(r, Progress(t, j, 0, false), Interned(t, j), Progress(t, j + 1, 0, false))
  {
  }
}
