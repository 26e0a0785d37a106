/** Primitives cannot tell values apart that are related part by part. */
module CpsPrims {
  import opened Wrappers
  import opened CpsValues

  /** Related values are the same atom, or pairs with related parts, or neither. */
  ghost predicate Alike<A, B, C, D>(rel: (Value<A, B>, Value<C, D>) -> bool, v: Value<A, B>, w: Value<C, D>) {
    rel(v, w) ==>
      && v.Int? == w.Int? && (v.Int? ==> v.i == w.i)
      && v.Pair? == w.Pair? && (v.Pair? ==> rel(v.car, w.car) && rel(v.cdr, w.cdr))
  }

  /** The same atoms are related, and so are pairs with related parts. */
  ghost predicate Built<A, B, C, D>(rel: (Value<A, B>, Value<C, D>) -> bool, v: Value<A, B>, w: Value<C, D>) {
    (v.Int? && w.Int? && v.i == w.i) || (v.Bool? && w.Bool? && v.b == w.b) || (v.Null? && w.Null?) || (v.Void? && w.Void?)
    || (v.Pair? && w.Pair? && rel(v.car, w.car) && rel(v.cdr, w.cdr))
    ==> rel(v, w)
  }

  ghost predicate ByParts<A(!new), B(!new), C(!new), D(!new)>(rel: (Value<A, B>, Value<C, D>) -> bool) {
    && (forall v: Value<A, B>, w: Value<C, D> {:trigger Alike(rel, v, w)} :: Alike(rel, v, w))
    && (forall v: Value<A, B>, w: Value<C, D> {:trigger Built(rel, v, w)} :: Built(rel, v, w))
  }

  ghost predicate Each<A, B, C, D>(rel: (Value<A, B>, Value<C, D>) -> bool, vs: seq<Value<A, B>>, ws: seq<Value<C, D>>) {
    |vs| == |ws| && forall i :: 0 <= i < |vs| ==> rel(vs[i], ws[i])
  }

  lemma {:induction false} SameNumbers<A(!new), B(!new), C(!new), D(!new)>(
    rel: (Value<A, B>, Value<C, D>) -> bool, vs: seq<Value<A, B>>, ws: seq<Value<C, D>>)
    requires ByParts(rel) && Each(rel, vs, ws)
    ensures AllInts(vs) == AllInts(ws)
    ensures AllInts(vs) ==> Sum(vs) == Sum(ws) && Product(vs) == Product(ws)
  {
    if vs != [] {
      assert Alike(rel, vs[0], ws[0]);
      SameNumbers(rel, vs[1..], ws[1..]);
      assert vs == [vs[0]] + vs[1..] && ws == [ws[0]] + ws[1..];
      assert AllInts(vs) == (vs[0].Int? && AllInts(vs[1..]));
      assert AllInts(ws) == (ws[0].Int? && AllInts(ws[1..]));
    }
  }

  lemma {:induction false} SameChain<A(!new), B(!new), C(!new), D(!new)>(
    rel: (Value<A, B>, Value<C, D>) -> bool, o: Prim, vs: seq<Value<A, B>>, ws: seq<Value<C, D>>)
    requires ByParts(rel) && Each(rel, vs, ws)
    ensures Chain(o, vs) == Chain(o, ws)
  {
    if |vs| >= 2 {
      assert Alike(rel, vs[0], ws[0]) && Alike(rel, vs[1], ws[1]);
      SameChain(rel, o, vs[1..], ws[1..]);
    }
  }

  lemma {:induction false} SameList<A(!new), B(!new), C(!new), D(!new)>(
    rel: (Value<A, B>, Value<C, D>) -> bool, vs: seq<Value<A, B>>, ws: seq<Value<C, D>>)
    requires ByParts(rel) && Each(rel, vs, ws)
    ensures rel(ListOf(vs), ListOf(ws))
  {
    if vs != [] {
      SameList(rel, vs[1..], ws[1..]);
    }
    assert Built(rel, ListOf(vs), ListOf(ws));
  }

  ghost predicate SameResult<A, B, C, D>(rel: (Value<A, B>, Value<C, D>) -> bool, r: Option<Value<A, B>>, q: Option<Value<C, D>>) {
    r.Some? == q.Some? && (r.Some? ==> rel(r.value, q.value))
  }

  /** Related operands give related results, or none on both sides. */
  lemma ApplySame<A(!new), B(!new), C(!new), D(!new)>(
    rel: (Value<A, B>, Value<C, D>) -> bool, p: Prim, vs: seq<Value<A, B>>, ws: seq<Value<C, D>>)
    requires ByParts(rel) && Each(rel, vs, ws)
    ensures SameResult(rel, ApplyPrim(p, vs), ApplyPrim(p, ws))
  {
    if p == List {
      SameList(rel, vs, ws);
    } else if p == Cons || p == Car || p == Cdr {
      if 0 < |vs| {
        assert Alike(rel, vs[0], ws[0]);
      }
      if p == Cons && |vs| == 2 {
        assert Built(rel, Pair(vs[0], vs[1]), Pair(ws[0], ws[1]));
      }
    } else if p == PVoid {
      assert Built(rel, Void, Void);
    } else {
      ArithSame(rel, p, vs, ws);
    }
  }

  lemma ArithSame<A(!new), B(!new), C(!new), D(!new)>(
    rel: (Value<A, B>, Value<C, D>) -> bool, p: Prim, vs: seq<Value<A, B>>, ws: seq<Value<C, D>>)
    requires ByParts(rel) && Each(rel, vs, ws)
    requires p != List && p != Cons && p != Car && p != Cdr && p != PVoid
    ensures SameResult(rel, ApplyPrim(p, vs), ApplyPrim(p, ws))
  {
    hide Sum, Product, Chain;
    SameNumbers(rel, vs, ws);
    SameChain(rel, p, vs, ws);
    if p == Sub && vs != [] && AllInts(vs) {
      assert Alike(rel, vs[0], ws[0]);
      SameNumbers(rel, vs[1..], ws[1..]);
    }
    var r, q := ApplyPrim(p, vs), ApplyPrim(p, ws);
    if r.Some? && q.Some? {
      assert Built(rel, r.value, q.value);
    }
  }
}
