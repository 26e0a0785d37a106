/** The cycle detector behind `list?`: two walks along the cdrs, one twice as fast. */
module ScmList {
  import opened ScmHeap

  /** The empty list carries the pair tag and no address. */
  const NULL: Value := Imm(0x7FF6_0000_0000_0000)

  predicate PairP(v: Value) {
    v.Ref? && v.tag == PairT
  }

  ghost predicate Backed(m: Mem, v: Value) {
    ValueOk(m, v) && exists limit :: HeapOk(m, limit)
  }

  lemma PairBacked(m: Mem, v: Value)
    requires Backed(m, v) && PairP(v)
    ensures v.off in m && |m[v.off].fields| == 2 && Backed(m, m[v.off].fields[1])
  {
    assert ObjOk(m, m[v.off]);
  }

  function Cdr(m: Mem, v: Value): (w: Value)
    requires Backed(m, v) && PairP(v)
    ensures Backed(m, w)
  {
    PairBacked(m, v);
    m[v.off].fields[1]
  }

  /** The value `n` cdrs on, or what the chain ends in. */
  ghost function Nth(m: Mem, v: Value, n: nat): (w: Value)
    requires Backed(m, v)
    ensures Backed(m, w)
  {
    if n == 0 then v else
    var u := Nth(m, v, n - 1);
    if PairP(u) then Cdr(m, u) else u
  }

  /** A proper list: following the cdrs reaches the empty list. */
  ghost predicate IsList(m: Mem, v: Value)
    requires Backed(m, v)
  {
    exists n: nat :: Nth(m, v, n) == NULL
  }

  lemma {:induction false} NthOn(m: Mem, v: Value, n: nat)
    requires Backed(m, v) && PairP(v)
    ensures Nth(m, v, n + 1) == Nth(m, Cdr(m, v), n)
  {
    if n > 0 {
      NthOn(m, v, n - 1);
    } else {
      assert Nth(m, v, 0) == v;
    }
  }

  lemma {:induction false} NthStays(m: Mem, v: Value, n: nat)
    requires Backed(m, v) && !PairP(v)
    ensures Nth(m, v, n) == v
  {
    if n > 0 {
      NthStays(m, v, n - 1);
    }
  }

  /** The empty list is a list, a pair is one if what its second field refers to is, and
      nothing else is. */
  lemma ListMeans(m: Mem, v: Value)
    requires Backed(m, v)
    ensures PairP(v) ==> v.off in m && |m[v.off].fields| == 2 && Backed(m, m[v.off].fields[1])
    ensures IsList(m, v) <==> if PairP(v) then IsList(m, m[v.off].fields[1]) else v == Imm(0x7FF6_0000_0000_0000)
  {
    if PairP(v) {
      PairBacked(m, v);
      var w := m[v.off].fields[1];
      if n: nat :| Nth(m, w, n) == NULL {
        NthOn(m, v, n);
        assert Nth(m, v, n + 1) == NULL;
      }
      assert Nth(m, v, 0) == v != NULL;
      if n: nat :| Nth(m, v, n) == NULL {
        NthOn(m, v, n - 1);
      }
    } else {
      assert Nth(m, v, 0) == v;
      forall n: nat
        ensures Nth(m, v, n) == v
      {
        NthStays(m, v, n);
      }
    }
  }

  /** The walks meet at their comparison number `k`. */
  ghost predicate Met(m: Mem, v: Value, k: nat)
    requires Backed(m, v)
  {
    Nth(m, v, 2 * k + 1) == Nth(m, v, k)
  }

  /** The walks have met at none of the earlier comparisons. */
  ghost predicate NotMet(m: Mem, v: Value, k: nat)
    requires Backed(m, v)
  {
    forall j: nat :: j < k ==> !Met(m, v, j)
  }

  lemma Next(m: Mem, v: Value, n: nat)
    requires Backed(m, v) && PairP(Nth(m, v, n))
    ensures Nth(m, v, n + 1) == Cdr(m, Nth(m, v, n))
  {
  }

  lemma NotMetStep(m: Mem, v: Value, k: nat)
    requires Backed(m, v) && NotMet(m, v, k) && Nth(m, v, 2 * k + 1) != Nth(m, v, k)
    ensures NotMet(m, v, k + 1)
  {
    hide Backed, Nth;
    assert !Met(m, v, k);
    hide Met;
  }

  /** Where the walks are after a round that goes on, and how many more there can be. */
  lemma Round(m: Mem, v: Value, k: nat, n: nat)
    requires Backed(m, v) && NotMet(m, v, k) && n == 2 * k && Nth(m, v, n + 1) != Nth(m, v, k)
    requires PairP(Nth(m, v, n + 1))
    ensures PairP(Nth(m, v, k)) && Cdr(m, Nth(m, v, n + 1)) == Nth(m, v, n + 2)
    ensures Cdr(m, Nth(m, v, k)) == Nth(m, v, k + 1)
    ensures NotMet(m, v, k + 1) && k < |m.Keys|
  {
    hide Backed, Nth, NotMet, Met, Cdr;
    Next(m, v, n + 1);
    Ahead(m, v, k, n + 1);
    Next(m, v, k);
    NotMetStep(m, v, k);
    Catches(m, v, k);
  }

  /** After `k` rounds from `v`, `h` is twice as far as `t`. */
  ghost predicate Racing(m: Mem, h: Value, t: Value, v: Value, k: nat) {
    Backed(m, v) && h == Nth(m, v, 2 * k) && t == Nth(m, v, k) && NotMet(m, v, k)
  }

  lemma RacingBacked(m: Mem, h: Value, t: Value, v: Value, k: nat)
    requires Racing(m, h, t, v, k)
    ensures Backed(m, h) && Backed(m, t)
  {
    hide Backed;
  }

  lemma RacingOn(m: Mem, h: Value, t: Value, v: Value, k: nat)
    requires Racing(m, h, t, v, k) && Backed(m, h) && Backed(m, t)
    requires PairP(h) && PairP(Cdr(m, h)) && Cdr(m, h) != t
    ensures PairP(t) && Racing(m, Cdr(m, Cdr(m, h)), Cdr(m, t), v, k + 1) && k < |m.Keys|
  {
    hide Backed, Nth, NotMet, Cdr;
    Next(m, v, 2 * k);
    Round(m, v, k, 2 * k);
  }

  /** `race`; the ghost arguments say where the walks started and how long ago. */
  function Race(m: Mem, h: Value, t: Value, ghost v: Value, ghost k: nat): bool
    requires Racing(m, h, t, v, k)
    decreases |m.Keys| - k
  {
    hide Backed, Racing, Cdr;
    RacingBacked(m, h, t, v, k);
    if PairP(h) then
      var h' := Cdr(m, h);
      if PairP(h') then
        if h' == t then false
        else
          RacingOn(m, h, t, v, k);
          Race(m, Cdr(m, h'), Cdr(m, t), v, k + 1)
      else h' == NULL
    else h == NULL
  }

  predicate ListP(m: Mem, v: Value)
    requires Backed(m, v)
  {
    Race(m, v, v, v, 0)
  }

  /** Up to where the chain holds a pair, all it passes are pairs. */
  lemma {:induction false} Ahead(m: Mem, v: Value, k: nat, n: nat)
    requires Backed(m, v) && k <= n && PairP(Nth(m, v, n))
    ensures PairP(Nth(m, v, k))
    decreases n
  {
    if k < n {
      Ahead(m, v, k, n - 1);
    }
  }

  lemma {:induction false} Shift(m: Mem, v: Value, i: nat, j: nat, d: nat)
    requires Backed(m, v) && Nth(m, v, i) == Nth(m, v, j)
    ensures Nth(m, v, i + d) == Nth(m, v, j + d)
  {
    hide Nth, Backed, Cdr;
    if d > 0 {
      Shift(m, v, i, j, d - 1);
      NthStep(m, v, i + d);
      NthStep(m, v, j + d);
    }
  }

  lemma NthStep(m: Mem, v: Value, n: nat)
    requires Backed(m, v) && n > 0
    ensures Nth(m, v, n) == var u := Nth(m, v, n - 1); if PairP(u) then Cdr(m, u) else u
  {
  }

  /** Past the start of a cycle, any number of times around changes nothing. */
  lemma {:induction false} Around(m: Mem, v: Value, i: nat, p: nat, d: nat, times: nat)
    requires Backed(m, v) && Nth(m, v, i) == Nth(m, v, i + p)
    ensures Nth(m, v, i + d) == Nth(m, v, i + d + times * p)
  {
    hide Nth, Backed;
    if times > 0 {
      Around(m, v, i, p, d, times - 1);
      var e := d + (times - 1) * p;
      Shift(m, v, i, i + p, e);
      assert i + p + e == i + d + times * p;
    }
  }

  lemma {:induction false} Pigeonhole(s: seq<int>, holes: set<int>) returns (i: nat, j: nat)
    requires |s| > |holes| && forall k :: 0 <= k < |s| ==> s[k] in holes
    ensures i < j < |s| && s[i] == s[j]
  {
    var front, x := s[..|s| - 1], s[|s| - 1];
    if k :| 0 <= k < |front| && front[k] == x {
      i, j := k, |s| - 1;
    } else {
      i, j := Pigeonhole(front, holes - {x});
    }
  }

  /** More pairs in a row than there are objects: some pair comes twice. */
  lemma Repeats(m: Mem, v: Value, n: nat) returns (i: nat, j: nat)
    requires Backed(m, v) && n > |m.Keys| && forall i: nat :: i < n ==> PairP(Nth(m, v, i))
    ensures i < j < n && Nth(m, v, i) == Nth(m, v, j)
  {
    hide Nth, Backed;
    var s := seq(n, k requires 0 <= k < n => Nth(m, v, k).off);
    forall k | 0 <= k < n
      ensures s[k] in m.Keys
    {
      PairBacked(m, Nth(m, v, k));
    }
    i, j := Pigeonhole(s, m.Keys);
    assert s[i] == Nth(m, v, i).off && s[j] == Nth(m, v, j).off;
  }

  /** On a cycle the walks meet after no more rounds than there are objects. */
  lemma Meets(m: Mem, v: Value, n: nat) returns (k: nat)
    requires Backed(m, v) && n > |m.Keys| && forall i: nat :: i < n ==> PairP(Nth(m, v, i))
    ensures k < |m.Keys| && Met(m, v, k)
  {
    hide Nth, Backed;
    var i, j := Repeats(m, v, |m.Keys| + 1);
    var p := j - i;
    var times := i / p + 1;
    k := times * p - 1;
    assert i <= k < j by { Multiple(i, p); }
    Around(m, v, i, p, k - i, times);
  }

  /** The first multiple of `p` above `i` is at most `p` away. */
  lemma Multiple(i: nat, p: nat)
    requires p > 0
    ensures i < (i / p + 1) * p <= i + p
  {
    assert (i / p) * p + i % p == i;
    assert (i / p + 1) * p == (i / p) * p + p;
  }

  /** Walks that have not met so far have made fewer rounds than there are objects. */
  lemma Catches(m: Mem, v: Value, k: nat)
    requires Backed(m, v) && NotMet(m, v, k + 1) && PairP(Nth(m, v, 2 * k + 1))
    ensures k < |m.Keys|
  {
    hide Nth, Backed;
    if k >= |m.Keys| {
      forall i: nat | i < k + 1
        ensures PairP(Nth(m, v, i))
      {
        Ahead(m, v, i, 2 * k + 1);
      }
      var j := Meets(m, v, k + 1);
      assert false;
    }
  }

  /** Once the chain has ended it stays where it is. */
  lemma {:induction false} Ended(m: Mem, v: Value, n: nat, d: nat)
    requires Backed(m, v) && !PairP(Nth(m, v, n))
    ensures Nth(m, v, n + d) == Nth(m, v, n)
  {
    if d > 0 {
      Ended(m, v, n, d - 1);
    }
  }

  lemma EndDecides(m: Mem, v: Value, n: nat)
    requires Backed(m, v) && !PairP(Nth(m, v, n))
    ensures IsList(m, v) <==> Nth(m, v, n) == NULL
  {
    if IsList(m, v) {
      var i: nat :| Nth(m, v, i) == NULL;
      if i <= n {
        Ended(m, v, i, n - i);
      } else {
        Ended(m, v, n, i - n);
      }
    }
  }

  lemma {:induction false} StaysOn(m: Mem, v: Value, i: nat, p: nat, n: nat)
    requires Backed(m, v) && p > 0 && Nth(m, v, i) == Nth(m, v, i + p) && PairP(Nth(m, v, i))
    ensures PairP(Nth(m, v, n))
  {
    hide Nth, Backed;
    if n <= i + p {
      Ahead(m, v, n, i + p);
    } else {
      StaysOn(m, v, i, p, n - p);
      Shift(m, v, i, i + p, n - p - i);
    }
  }

  /** A chain that comes back to itself never ends. */
  lemma CycleNoList(m: Mem, v: Value, k: nat)
    requires Backed(m, v) && Met(m, v, k) && PairP(Nth(m, v, k))
    ensures !IsList(m, v)
  {
    hide Nth, Backed;
    if IsList(m, v) {
      var i: nat :| Nth(m, v, i) == NULL;
      StaysOn(m, v, k, k + 1, i);
    }
  }

  lemma {:induction false} RaceCorrect(m: Mem, h: Value, t: Value, v: Value, k: nat)
    requires Racing(m, h, t, v, k) && Backed(m, v)
    ensures Race(m, h, t, v, k) <==> IsList(m, v)
    decreases |m.Keys| - k
  {
    hide Backed, IsList, Nth, NotMet, Cdr;
    RacingBacked(m, h, t, v, k);
    if !PairP(h) {
      EndDecides(m, v, 2 * k);
      return;
    }
    Next(m, v, 2 * k);
    if !PairP(Cdr(m, h)) {
      EndDecides(m, v, 2 * k + 1);
    } else if Cdr(m, h) == t {
      Ahead(m, v, k, 2 * k + 1);
      CycleNoList(m, v, k);
    } else {
      RacingOn(m, h, t, v, k);
      RaceCorrect(m, Cdr(m, Cdr(m, h)), Cdr(m, t), v, k + 1);
    }
  }

  /** `list?` answers on every heap, cyclic ones included, and is right. */
  lemma ListPCorrect(m: Mem, v: Value)
    requires Backed(m, v)
    ensures ListP(m, v) <==> IsList(m, v)
  {
    hide Backed, IsList, Race;
    RaceCorrect(m, v, v, v, 0);
  }
}
