/** The runtime heap: values, objects, their sizes, and what it means for a pool
    of objects to be well formed. Offsets stand for addresses. */
module ScmHeap {
  datatype Tag = PairT | SymbolT | BytevectorT | StringT | VectorT | RecordT | BoxT | ClosureT

  /** A boxed word. `Imm` covers what the collector leaves alone: numbers,
      booleans, characters, the empty list, void and functions. `Special` is an
      infinity or a not-a-number, whose bit pattern none of the tests accepts. */
  datatype Value = Imm(word: nat) | Special(word: nat) | Ref(tag: Tag, off: int)

  datatype Kind =
    | Pair
    | Symbol(hash: nat, name: seq<nat>)
    | Bytevector(elems: seq<nat>)
    | String(start: nat, len: nat, buf: int)
    | Vector
    | Record
    | Box
    | Closure(isCont: int, code: nat)
    | Buffer(rc: int, bytes: seq<nat>)

  /** `fref` is the header word: 0, or the offset of the copy in the other pool.
      The fields of a pair are car and cdr; a record's first field is its meta. */
  datatype Obj = Obj(fref: int, kind: Kind, fields: seq<Value>)

  type Mem = map<int, Obj>

  /** Bytes to add to a size to make it a multiple of eight. */
  function AlignOffset(n: nat): nat {
    (8 - n % 8) % 8
  }

  function Align(n: nat): (m: nat)
    ensures n <= m < n + 8 && m % 8 == 0
  {
    n + AlignOffset(n)
  }

  function Size(k: Kind, fields: nat): (n: nat)
    ensures n > 0 && n % 8 == 0
  {
    match k
    case Pair => 8 + 8 * fields
    case Symbol(_, name) => Align(16 + |name|)
    case Bytevector(elems) => Align(8 + |elems|)
    case String(_, _, _) => 24
    case Vector => 8 + 8 * fields
    case Record => 8 + 8 * fields
    case Box => 8 + 8 * fields
    case Closure(_, _) => 24 + 8 * fields
    case Buffer(_, bytes) => Align(12 + |bytes|)
  }

  function ObjSize(o: Obj): nat {
    Size(o.kind, |o.fields|)
  }

  /** An object takes its header, eight bytes for each field and its bytes, rounded up to a
      multiple of eight. */
  lemma SizeMeans(k: Kind, fields: nat)
    ensures var bytes := (match k case Symbol(_, name) => 16 + |name| case Bytevector(elems) => 8 + |elems| case String(_, _, _) => 24
                          case Closure(_, _) => 24 + 8 * fields case Buffer(_, text) => 12 + |text| case _ => 8 + 8 * fields);
      bytes <= Size(k, fields) < bytes + 8 && Size(k, fields) % 8 == 0
  {
  }

  /** The number of value fields each kind of object has. */
  predicate Shaped(o: Obj) {
    match o.kind
    case Pair => |o.fields| == 2
    case Box => |o.fields| == 1
    case Record => |o.fields| >= 1
    case Vector => true
    case Closure(_, _) => true
    case _ => |o.fields| == 0
  }

  /** The tag of the values that refer to an object; none refer to a buffer. */
  predicate HasTag(k: Kind, t: Tag) {
    match k
    case Pair => t == PairT
    case Symbol(_, _) => t == SymbolT
    case Bytevector(_) => t == BytevectorT
    case String(_, _, _) => t == StringT
    case Vector => t == VectorT
    case Record => t == RecordT
    case Box => t == BoxT
    case Closure(_, _) => t == ClosureT
    case Buffer(_, _) => false
  }

  /** A value names an object of its own tag, if it names one. */
  predicate ValueOk(m: Mem, v: Value) {
    v.Ref? ==> v.off in m && HasTag(m[v.off].kind, v.tag)
  }

  predicate ObjOk(m: Mem, o: Obj) {
    && o.fref == 0 && Shaped(o)
    && (forall i :: 0 <= i < |o.fields| ==> ValueOk(m, o.fields[i]))
    && (o.kind.String? ==> o.kind.buf in m && m[o.kind.buf].kind.Buffer?)
    && (o.kind.Box? ==> !(o.fields[0].Ref? && o.fields[0].tag == BoxT))
  }

  /** Objects lie one after the other below `limit`; offset 0 is never one. */
  ghost predicate Layout(m: Mem, limit: int) {
    && 8 <= limit
    && (forall o {:trigger m[o]} :: o in m ==> 8 <= o && o + ObjSize(m[o]) <= limit)
    && (forall o, p {:trigger m[o], m[p]} :: o in m && p in m && o < p ==> o + ObjSize(m[o]) <= p)
  }

  /** A pool between collections. */
  ghost predicate HeapOk(m: Mem, limit: int) {
    Layout(m, limit) && forall o {:trigger m[o]} :: o in m ==> ObjOk(m, m[o])
  }

  // ------------------------------------------------------------ reachability

  /** `p` is referred to from the object at `o`. */
  predicate Edge(m: Mem, o: int, p: int)
    requires o in m
  {
    (exists i :: 0 <= i < |m[o].fields| && m[o].fields[i].Ref? && m[o].fields[i].off == p)
    || (m[o].kind.String? && m[o].kind.buf == p)
  }

  ghost predicate Closed(m: Mem, s: set<int>) {
    s <= m.Keys && forall o, p {:trigger Edge(m, o, p)} :: o in s && Edge(m, o, p) ==> p in s
  }

  /** The values of all roots. */
  datatype Roots = Roots(interned: seq<seq<Value>>, args: seq<Value>, cc: Value)

  /** A slot the collector looks at: a root, or a field of a copied object. */
  datatype Loc = Interned(table: int, index: int) | Arg(arg: int) | Cc | Field(off: int, index: int)

  predicate IsRoot(r: Roots, l: Loc) {
    match l
    case Interned(t, j) => 0 <= t < |r.interned| && 0 <= j < |r.interned[t]|
    case Arg(i) => 0 <= i < |r.args|
    case Cc => true
    case Field(_, _) => false
  }

  function RootAt(r: Roots, l: Loc): Value
    requires IsRoot(r, l)
  {
    match l
    case Interned(t, j) => r.interned[t][j]
    case Arg(i) => r.args[i]
    case Cc => r.cc
  }

  ghost predicate Path(m: Mem, p: seq<int>) {
    && |p| > 0
    && (forall i :: 0 <= i < |p| ==> p[i] in m)
    && (forall i {:trigger p[i + 1]} :: 0 <= i < |p| - 1 ==> Edge(m, p[i], p[i + 1]))
  }

  ghost predicate PathFrom(m: Mem, r: Roots, p: seq<int>, o: int) {
    Path(m, p) && p[|p| - 1] == o && RootRef(r, p[0])
  }

  /** Some root refers to the object at `o`. */
  ghost predicate RootRef(r: Roots, o: int) {
    exists l {:trigger IsRoot(r, l)} :: IsRoot(r, l) && RootAt(r, l).Ref? && RootAt(r, l).off == o
  }

  ghost predicate Reachable(m: Mem, r: Roots, o: int) {
    exists p :: PathFrom(m, r, p, o)
  }

  ghost function ReachableSet(m: Mem, r: Roots): (s: set<int>)
    ensures forall o :: o in s <==> o in m && Reachable(m, r, o)
  {
    set o | o in m && Reachable(m, r, o)
  }

  ghost predicate RootsOk(m: Mem, r: Roots) {
    forall l {:trigger IsRoot(r, l)} :: IsRoot(r, l) ==> ValueOk(m, RootAt(r, l))
  }

  lemma PathExtended(m: Mem, r: Roots, q: seq<int>, o: int, p: int)
    requires PathFrom(m, r, q, o) && Edge(m, o, p) && p in m
    ensures PathFrom(m, r, q + [p], p)
  {
    var q' := q + [p];
    forall i | 0 <= i < |q'| - 1
      ensures Edge(m, q'[i], q'[i + 1])
    {
      if i < |q| - 1 {
        assert Edge(m, q[i], q[i + 1]);
      }
    }
    assert q'[0] == q[0];
  }

  /** The reachable objects are closed under references and hold the roots. */
  lemma ReachableClosed(m: Mem, limit: int, r: Roots)
    requires HeapOk(m, limit) && RootsOk(m, r)
    ensures Closed(m, ReachableSet(m, r))
    ensures forall l {:trigger IsRoot(r, l)} ::
      IsRoot(r, l) && RootAt(r, l).Ref? ==> RootAt(r, l).off in ReachableSet(m, r)
  {
    forall o, p | o in ReachableSet(m, r) && Edge(m, o, p)
      ensures p in ReachableSet(m, r)
    {
      assert ObjOk(m, m[o]);
      assert p in m;
      var q :| PathFrom(m, r, q, o);
      PathExtended(m, r, q, o, p);
    }
    forall l | IsRoot(r, l) && RootAt(r, l).Ref?
      ensures RootAt(r, l).off in ReachableSet(m, r)
    {
      var v := RootAt(r, l);
      assert ValueOk(m, v) && Path(m, [v.off]) && RootRef(r, v.off);
      assert PathFrom(m, r, [v.off], v.off);
    }
  }

  /** Any closed set that holds the roots holds every reachable object. */
  lemma {:induction false} ClosedHoldsPath(m: Mem, r: Roots, s: set<int>, p: seq<int>)
    requires Closed(m, s) && Path(m, p) && p[0] in s
    ensures p[|p| - 1] in s
    decreases p
  {
    if |p| > 1 {
      var q := p[..|p| - 1];
      forall i | 0 <= i < |q| - 1
        ensures Edge(m, q[i], q[i + 1])
      {
        assert Edge(m, p[i], p[i + 1]);
      }
      ClosedHoldsPath(m, r, s, q);
      var last := |p| - 2;
      assert Edge(m, p[last], p[last + 1]);
    }
  }

  lemma ClosedHoldsReachable(m: Mem, r: Roots, s: set<int>)
    requires Closed(m, s)
    requires forall l {:trigger IsRoot(r, l)} :: IsRoot(r, l) && RootAt(r, l).Ref? ==> RootAt(r, l).off in s
    ensures ReachableSet(m, r) <= s
  {
    forall o | o in ReachableSet(m, r)
      ensures o in s
    {
      var p :| PathFrom(m, r, p, o);
      assert RootRef(r, p[0]);
      ClosedHoldsPath(m, r, s, p);
    }
  }
}
