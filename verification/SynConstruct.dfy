/** Macro templates: constructing syntax from bindings. A repetition asks for one value
    after the other until a mark comes up that stands for the end. */
module SynConstruct {
  import opened Wrappers
  import opened SynMatch

  /** `syntax_contains`: the mark is a bare symbol. */
  predicate HasEnd(s: Stx) {
    match s
    case Nil => false
    case Pair(a, d) => HasEnd(a) || HasEnd(d)
    case _ => s == Sym(END)
  }

  /** An identifier that is no variable stands for itself, a variable without a value for
      the end. */
  function ConstructId(t: Stx, pv: PVars, names: set<string>, idx: nat): Stx
    requires t.Ident?
  {
    match PVarValue(pv, t.name, idx)
    case Some(f) => f
    case None => if t.name in names then Sym(END) else t
  }

  predicate Grouped(pv: PVars) {
    ELLIPSIS in pv && pv[ELLIPSIS].Group?
  }

  function Append(fs: seq<Stx>, tail: Stx): Stx {
    if fs == [] then tail else Pair(fs[0], Append(fs[1..], tail))
  }

  /** `construct_syntax`; nothing if a repetition does not end. */
  ghost function Construct(t: Stx, pv: PVars, names: set<string>, idx: nat): Option<Stx>
    decreases t, 0
  {
    match t
    case Ident(_, _) => Some(ConstructId(t, pv, names, idx))
    case Pair(h, d) =>
      if Repeats(t) then
        var rest := Construct(d.cdr, pv, names, idx);
        if !Grouped(pv) then rest
        else if n: nat :| Stops(h, pv + SubOf(pv), names, n) then
          if rest.Some? then Some(Append(Produced(h, pv + SubOf(pv), names, n), rest.value)) else None
        else None
      else
        var x, y := Construct(h, pv, names, idx), Construct(d, pv, names, idx);
        if x.Some? && y.Some? then Some(Pair(x.value, y.value)) else None
    case _ => Some(t)
  }

  /** The repetition yields `n` forms before one with the mark. */
  ghost predicate Stops(h: Stx, ev: PVars, names: set<string>, n: nat)
    decreases h, 1
  {
    && (forall i: nat {:trigger Construct(h, ev, names, i)} :: i < n ==>
          Construct(h, ev, names, i).Some? && !HasEnd(Construct(h, ev, names, i).value))
    && Construct(h, ev, names, n).Some? && HasEnd(Construct(h, ev, names, n).value)
  }

  ghost function Produced(h: Stx, ev: PVars, names: set<string>, n: nat): (fs: seq<Stx>)
    ensures |fs| == n
    decreases h, 1, n
  {
    if n == 0 then []
    else
      var x := Construct(h, ev, names, n - 1);
      Produced(h, ev, names, n - 1) + [if x.Some? then x.value else Nil]
  }

  lemma StopsOnce(h: Stx, ev: PVars, names: set<string>, n: nat, m: nat)
    requires Stops(h, ev, names, n) && Stops(h, ev, names, m)
    ensures n == m
  {
  }

  /** What a repetition that stops gives. */
  lemma ConstructStopped(t: Stx, pv: PVars, names: set<string>, idx: nat, n: nat)
    requires Repeats(t) && Grouped(pv) && Stops(t.car, pv + SubOf(pv), names, n)
    requires Construct(t.cdr.cdr, pv, names, idx).Some?
    ensures Construct(t, pv, names, idx)
            == Some(Append(Produced(t.car, pv + SubOf(pv), names, n), Construct(t.cdr.cdr, pv, names, idx).value))
  {
    forall m: nat | Stops(t.car, pv + SubOf(pv), names, m)
      ensures m == n
    {
      StopsOnce(t.car, pv + SubOf(pv), names, n, m);
    }
  }

  lemma ProducedAt(h: Stx, ev: PVars, names: set<string>, n: nat, i: nat)
    requires i < n && Construct(h, ev, names, i).Some?
    ensures Produced(h, ev, names, n)[i] == Construct(h, ev, names, i).value
  {
  }

  // ----------------------------------------------------- what a template becomes

  /** Nothing in the template is repeated. */
  predicate RepeatsNothing(t: Stx) {
    t.Pair? ==> !Repeats(t) && RepeatsNothing(t.car) && RepeatsNothing(t.cdr)
  }

  /** The identifiers of a template. */
  function Identifiers(t: Stx): set<string> {
    match t
    case Ident(x, _) => {x}
    case Pair(a, d) => Identifiers(a) + Identifiers(d)
    case _ => {}
  }

  /** The template with each identifier replaced: one that is bound to a single form by that
      form, one that is neither bound nor among the names by itself, scopes included, and one
      among the names by the mark of the end. */
  predicate Replaced(t: Stx, r: Stx, pv: PVars, names: set<string>) {
    match t
    case Ident(x, _) =>
      && (x !in pv && x !in names ==> r == t)
      && (x !in pv && x in names ==> r == Sym("* END OF EXPANSION *"))
      && (x in pv && pv[x].Entry? && pv[x].v.Pair? && pv[x].v.car == Sym("* SINGLE *") ==> r == pv[x].v.cdr)
    case Pair(a, d) => r.Pair? && Replaced(a, r.car, pv, names) && Replaced(d, r.cdr, pv, names)
    case _ => r == t
  }

  lemma {:induction false} TemplateReplaced(t: Stx, pv: PVars, names: set<string>, idx: nat)
    requires RepeatsNothing(t)
    ensures Construct(t, pv, names, idx).Some? && Replaced(t, Construct(t, pv, names, idx).value, pv, names)
  {
    if t.Pair? {
      TemplateReplaced(t.car, pv, names, idx);
      TemplateReplaced(t.cdr, pv, names, idx);
    }
  }

  /** A template none of whose identifiers is a variable is constructed as it stands. */
  lemma {:induction false} TemplateKept(t: Stx, pv: PVars, names: set<string>, idx: nat)
    requires RepeatsNothing(t) && forall x :: x in Identifiers(t) ==> x !in pv && x !in names
    ensures Construct(t, pv, names, idx) == Some(t)
  {
    if t.Pair? {
      TemplateKept(t.car, pv, names, idx);
      TemplateKept(t.cdr, pv, names, idx);
    }
  }

  lemma TemplateMeans(t: Stx, pv: PVars, names: set<string>, idx: nat)
    ensures RepeatsNothing(t) ==>
      Construct(t, pv, names, idx).Some? && Replaced(t, Construct(t, pv, names, idx).value, pv, names)
    ensures RepeatsNothing(t) && (forall x :: x in Identifiers(t) ==> x !in pv && x !in names) ==>
      Construct(t, pv, names, idx) == Some(t)
  {
    if RepeatsNothing(t) {
      TemplateReplaced(t, pv, names, idx);
      if forall x :: x in Identifiers(t) ==> x !in pv && x !in names {
        TemplateKept(t, pv, names, idx);
      }
    }
  }

  /** A bound identifier becomes exactly the form that was matched. */
  lemma BoundReplaced(x: string, scopes: set<nat>, lits: set<string>, f: Stx, names: set<string>, idx: nat, t: Stx)
    requires x !in lits && x != EMPTY_PATTERN && t.Ident? && t.name == x
    ensures Construct(t, MatchAt(Whole, Ident(x, scopes), lits, f, map[], false).pv, names, idx) == Some(f)
  {
  }

  // ------------------------------------------------------- the loop and its mark

  /** The forms before the first one with the mark. */
  function UpTo(fs: seq<Stx>): (gs: seq<Stx>)
    ensures |gs| <= |fs|
  {
    if fs == [] || HasEnd(fs[0]) then [] else [fs[0]] + UpTo(fs[1..])
  }

  /** What a repeated name yields; nothing if its value never holds the mark. A form
      spelled like the mark of a single binding makes a list look like one. */
  function RepValues(ev: PVars, x: string, names: set<string>): Option<seq<Stx>> {
    if x !in ev || !ev[x].Entry? then (if x in names then Some([]) else None)
    else
      var v := ev[x].v;
      if !v.Pair? then (if HasEnd(v) then Some([]) else None)
      else if Called(v.car, SINGLE) then (if HasEnd(v.cdr) then Some([]) else None)
      else Some(UpTo(Elems(v)))
  }

  lemma {:induction false} UpToStops(fs: seq<Stx>)
    ensures forall i :: 0 <= i < |UpTo(fs)| ==> UpTo(fs)[i] == fs[i] && !HasEnd(fs[i])
    ensures |UpTo(fs)| < |fs| ==> HasEnd(fs[|UpTo(fs)|])
  {
    if fs != [] && !HasEnd(fs[0]) {
      UpToStops(fs[1..]);
    }
  }

  /** The loop over a repeated name ends exactly if the name has such a list, which is what
      it then yields. */
  lemma RepetitionExact(x: Stx, ev: PVars, names: set<string>)
    requires x.Ident?
    ensures (exists n: nat :: Stops(x, ev, names, n)) <==> RepValues(ev, x.name, names).Some?
    ensures forall n: nat :: Stops(x, ev, names, n) ==> Some(Produced(x, ev, names, n)) == RepValues(ev, x.name, names)
  {
    var r := RepValues(ev, x.name, names);
    if r.Some? {
      var n := |r.value|;
      if x.name in ev && ev[x.name].Entry? {
        UpToStops(Elems(ev[x.name].v));
      }
      forall i: nat | i < n
        ensures Construct(x, ev, names, i) == Some(r.value[i]) && !HasEnd(r.value[i]) && Produced(x, ev, names, n)[i] == r.value[i]
      {
        assert Construct(x, ev, names, i) == Some(r.value[i]);
        ProducedAt(x, ev, names, n, i);
      }
      assert Construct(x, ev, names, n) == Some(ConstructId(x, ev, names, n));
      assert HasEnd(ConstructId(x, ev, names, n));
      assert Stops(x, ev, names, n);
      assert Produced(x, ev, names, n) == r.value;
      forall m: nat | Stops(x, ev, names, m)
        ensures m == n
      {
        StopsOnce(x, ev, names, n, m);
      }
    } else {
      forall n: nat
        ensures !Stops(x, ev, names, n)
      {
        assert Construct(x, ev, names, n) == Some(ConstructId(x, ev, names, n));
      }
    }
  }

  // ------------------------------------------------------------- round trip

  /** Equal up to the scopes of identifiers. */
  predicate Same(f: Stx, g: Stx) {
    match f
    case Ident(x, _) => g.Ident? && g.name == x
    case Pair(a, d) => g.Pair? && Same(a, g.car) && Same(d, g.cdr)
    case _ => f == g
  }

  lemma {:induction false} SameSelf(f: Stx)
    ensures Same(f, f)
  {
    if f.Pair? {
      SameSelf(f.car);
      SameSelf(f.cdr);
    }
  }

  lemma {:induction false} SameUnmarked(f: Stx, g: Stx)
    requires Same(f, g) && Unmarked(f)
    ensures !HasEnd(g)
  {
    if f.Pair? {
      SameUnmarked(f.car, g.car);
      SameUnmarked(f.cdr, g.cdr);
    }
  }

  lemma {:induction false} SameAppend(f: Stx, fs: seq<Stx>)
    requires |fs| == |Elems(f)| && (forall j :: 0 <= j < |fs| ==> Same(Elems(f)[j], fs[j])) && Ending(f).Nil?
    ensures Same(f, Append(fs, Nil))
    decreases f
  {
    if f.Pair? {
      assert Elems(f)[0] == f.car && Elems(f)[1..] == Elems(f.cdr);
      forall j | 0 <= j < |fs[1..]|
        ensures Same(Elems(f.cdr)[j], fs[1..][j])
      {
        assert Same(Elems(f)[j + 1], fs[j + 1]);
      }
      SameAppend(f.cdr, fs[1..]);
    }
  }

  /** The literals that are compared. */
  function Literals(at: Place, p: Stx, lits: set<string>): set<string>
    decreases p
  {
    match p
    case Ident(x, _) => if at != Rest && x in lits then {x} else {}
    case Pair(a, d) => if Repeats(p) then Literals(Whole, a, lits) else Literals(Element, a, lits) + Literals(Rest, d, lits)
    case _ => {}
  }

  /** Every repetition has a variable among the names of the template, and the pattern is
      not `_` alone. */
  predicate Recorded(at: Place, p: Stx, lits: set<string>, names: set<string>)
    decreases p
  {
    match p
    case Ident(x, _) => at == Whole && x !in lits ==> x != EMPTY_PATTERN
    case Pair(a, d) =>
      if Repeats(p) then Taken(Whole, a, lits) * names != {}
      else Recorded(Element, a, lits, names) && Recorded(Rest, d, lits, names)
    case _ => true
  }

  lemma {:induction false} FlatRecorded(at: Place, p: Stx, lits: set<string>, names: set<string>)
    requires Flat(p) && (at == Whole && p.Ident? && p.name !in lits ==> p.name != EMPTY_PATTERN)
    ensures Recorded(at, p, lits, names)
    decreases p
  {
    FlatCovered(p);
    if p.Pair? {
      FlatRecorded(Element, p.car, lits, names);
      FlatRecorded(Rest, p.cdr, lits, names);
    }
  }

  lemma {:induction false} FlatConstructs(t: Stx, pv: PVars, names: set<string>, idx: nat)
    requires Flat(t)
    ensures Construct(t, pv, names, idx).Some?
    decreases t
  {
    FlatCovered(t);
    if t.Pair? {
      FlatConstructs(t.car, pv, names, idx);
      FlatConstructs(t.cdr, pv, names, idx);
    }
  }

  /** A variable that has run out leaves the mark in what is constructed. */
  lemma {:induction false} RunsOut(at: Place, p: Stx, lits: set<string>, pv: PVars, names: set<string>, idx: nat, x: string)
    requires Flat(p) && x in Taken(at, p, lits)
    requires PVarValue(pv, x, idx) == Some(Sym(END)) || (PVarValue(pv, x, idx) == None && x in names)
    ensures Construct(p, pv, names, idx).Some? && HasEnd(Construct(p, pv, names, idx).value)
    decreases p
  {
    FlatCovered(p);
    FlatConstructs(p, pv, names, idx);
    if p.Pair? {
      if x in Taken(Element, p.car, lits) {
        RunsOut(Element, p.car, lits, pv, names, idx, x);
      } else {
        RunsOut(Rest, p.cdr, lits, pv, names, idx, x);
      }
    }
  }

  /** Constructing from the pattern gives this form. */
  ghost predicate Gives(t: Stx, pv: PVars, names: set<string>, idx: nat, f: Stx) {
    Construct(t, pv, names, idx).Some? && Same(f, Construct(t, pv, names, idx).value)
  }

  lemma {:induction false} FlatGives(at: Place, p: Stx, lits: set<string>, f: Stx, pv: PVars, idx: nat, names: set<string>)
    requires Flat(p) && Accepts(at, p, lits, f) && Agrees(at, p, lits, f, pv, idx) && Upheld(p, lits, f)
    requires Recorded(at, p, lits, names) && forall x :: x in Literals(at, p, lits) ==> x !in pv && x !in names
    ensures Gives(p, pv, names, idx, f)
    decreases p
  {
    FlatCovered(p);
    SameSelf(f);
    if p.Pair? {
      FlatGives(Element, p.car, lits, f.car, pv, idx, names);
      FlatGives(Rest, p.cdr, lits, f.cdr, pv, idx, names);
    }
  }

  /** Each element of a repetition is given back at its position. */
  lemma {:induction false} EachGiven(h: Stx, lits: set<string>, f: Stx, ev: PVars, from: nat, names: set<string>, j: nat)
    requires Flat(h) && EachAccepted(h, lits, f) && AgreesAll(h, lits, f, ev, from) && AllUpheld(h, lits, f) && Unmarked(f)
    requires Recorded(Whole, h, lits, names) && forall x :: x in Literals(Whole, h, lits) ==> x !in ev && x !in names
    requires j < |Elems(f)|
    ensures Gives(h, ev, names, from + j, Elems(f)[j]) && !HasEnd(Construct(h, ev, names, from + j).value)
    decreases f
  {
    if j == 0 {
      FlatGives(Whole, h, lits, f.car, ev, from, names);
      SameUnmarked(f.car, Construct(h, ev, names, from).value);
    } else {
      EachGiven(h, lits, f.cdr, ev, from + 1, names, j - 1);
    }
  }

  lemma {:induction false} ProperEnd(h: Stx, lits: set<string>, f: Stx)
    requires AcceptsAll(h, lits, f) && EachAccepted(h, lits, f)
    ensures Ending(f).Nil?
    decreases f
  {
    if f.Pair? {
      ProperEnd(h, lits, f.cdr);
    }
  }

  /** The loop stops after the last element, and has given back each. */
  lemma RepeatStops(h: Stx, lits: set<string>, f: Stx, pv: PVars, names: set<string>, x: string)
    requires Flat(h) && EachAccepted(h, lits, f) && AllUpheld(h, lits, f) && Unmarked(f) && x in Taken(Whole, h, lits) && x in names
    requires AgreesAll(h, lits, f, SubOf(pv), 0)
    requires forall y :: y in Taken(Whole, h, lits) ==> y !in pv && Listed(SubOf(pv), y, |Elems(f)|)
    requires forall y :: y in Literals(Whole, h, lits) ==> y !in pv && y !in SubOf(pv) && y !in names
    ensures Stops(h, pv + SubOf(pv), names, |Elems(f)|)
    ensures forall j :: 0 <= j < |Elems(f)| ==> Same(Elems(f)[j], Produced(h, pv + SubOf(pv), names, |Elems(f)|)[j])
  {
    var ev, n := pv + SubOf(pv), |Elems(f)|;
    forall y, k: nat | y in Taken(Whole, h, lits) && k < n
      ensures PVarValue(ev, y, k) == PVarValue(SubOf(pv), y, k)
    {
      assert Listed(SubOf(pv), y, n);
    }
    AllSame(h, lits, f, SubOf(pv), ev, 0);
    assert Listed(SubOf(pv), x, n);
    RunsOut(Whole, h, lits, ev, names, n, x);
    FlatRecorded(Whole, h, lits, names);
    hide Construct, Produced, Accepts, Unmarked, AcceptsAll, AgreesAll, EachAccepted, AllUpheld, PVarValue, Listed;
    forall j: nat | j < n
      ensures Gives(h, ev, names, j, Elems(f)[j]) && !HasEnd(Construct(h, ev, names, j).value)
      ensures Same(Elems(f)[j], Produced(h, ev, names, n)[j])
    {
      EachGiven(h, lits, f, ev, 0, names, j);
      ProducedAt(h, ev, names, n, j);
    }
  }

  lemma RepeatGives(p: Stx, lits: set<string>, f: Stx, pv: PVars, idx: nat, names: set<string>)
    requires Repeats(p) && Covered(p) && AcceptsAll(p.car, lits, f) && Agrees(Whole, p, lits, f, pv, idx) && Upheld(p, lits, f)
    requires Unmarked(f) && Recorded(Whole, p, lits, names)
    requires forall x :: x in Literals(Whole, p, lits) ==> x !in pv && x !in SubOf(pv) && x !in names
    ensures Gives(p, pv, names, idx, f)
  {
    var h, n := p.car, |Elems(f)|;
    ProperEnd(h, lits, f);
    if Grouped(pv) {
      var ev := pv + SubOf(pv);
      var x :| x in Taken(Whole, h, lits) * names;
      RepeatStops(h, lits, f, pv, names, x);
      ConstructStopped(p, pv, names, idx, n);
      SameAppend(f, Produced(h, ev, names, n));
    }
  }

  /** Constructing from a pattern with the bindings of a match gives the form. */
  lemma {:induction false} ConstructAgrees(at: Place, p: Stx, lits: set<string>, f: Stx, pv: PVars, idx: nat, names: set<string>)
    requires Covered(p) && Accepts(at, p, lits, f) && Agrees(at, p, lits, f, pv, idx) && Upheld(p, lits, f) && Unmarked(f)
    requires Recorded(at, p, lits, names)
    requires forall x :: x in Literals(at, p, lits) ==> x !in pv && x !in SubOf(pv) && x !in names
    ensures Gives(p, pv, names, idx, f)
    decreases p
  {
    SameSelf(f);
    if p.Pair? {
      if Repeats(p) {
        RepeatGives(p, lits, f, pv, idx, names);
      } else {
        ConstructAgrees(Element, p.car, lits, f.car, pv, idx, names);
        ConstructAgrees(Rest, p.cdr, lits, f.cdr, pv, idx, names);
      }
    }
  }

  /** Matching and then constructing from the pattern itself gives the form back. */
  lemma RoundTrip(p: Stx, lits: set<string>, f: Stx, names: set<string>)
    requires Covered(p) && Linear(p, lits) && Recorded(Whole, p, lits, names) && MatchAt(Whole, p, lits, f, map[], false).ok
    requires Literals(Whole, p, lits) !! Names(Whole, p, lits) + names && ELLIPSIS !in lits
    requires Unmarked(f) && Upheld(p, lits, f)
    ensures Gives(p, MatchAt(Whole, p, lits, f, map[], false).pv, names, 0, f)
  {
    MatchAccepts(Whole, p, lits, f, map[], false);
    MatchBinds(Whole, p, lits, f, map[], 0);
    LiteralsAre(Whole, p, lits);
    ConstructAgrees(Whole, p, lits, f, MatchAt(Whole, p, lits, f, map[], false).pv, 0, names);
  }

  lemma {:induction false} LiteralsAre(at: Place, p: Stx, lits: set<string>)
    ensures Literals(at, p, lits) <= lits
    decreases p
  {
    if p.Pair? {
      if Repeats(p) {
        LiteralsAre(Whole, p.car, lits);
      } else {
        LiteralsAre(Element, p.car, lits);
        LiteralsAre(Rest, p.cdr, lits);
      }
    }
  }

  // --------------------------------------------------------------- the marks

  /** A variable repeated. */
  function Plural(x: string): Stx {
    Pair(Ident(x, {}), Pair(Ident("...", {}), Nil))
  }

  lemma {:induction false} PluralBound(x: string, f: Stx, sub: PVars)
    requires x != EMPTY_PATTERN && (x in sub ==> sub[x].Entry? && sub[x].v.Pair? && Ending(sub[x].v).Nil?) && sub.Keys <= {x}
    ensures var sub' := MatchReps(Ident(x, {}), {}, f, sub).1;
      && sub'.Keys == (if f.Pair? || x in sub then {x} else {})
      && (x in sub' ==> sub'[x].Entry? && sub'[x].v.Pair? && Ending(sub'[x].v).Nil? && Elems(sub'[x].v) == (if x in sub then Elems(sub[x].v) else []) + Elems(f))
    ensures MatchReps(Ident(x, {}), {}, f, sub).0 == Ending(f)
    decreases f
  {
    if f.Pair? {
      if x in sub {
        AddedLast(sub[x].v, f.car);
      }
      var h, sub1 := Ident(x, {}), Bind(sub, x, f.car, true);
      assert MatchReps(h, {}, f, sub) == MatchReps(h, {}, f.cdr, sub1);
      assert Elems(sub1[x].v) == (if x in sub then Elems(sub[x].v) else []) + [f.car];
      hide MatchReps, AddLast, Bind;
      PluralBound(x, f.cdr, sub1);
    }
  }

  lemma {:induction false} EndsIn(f: Stx)
    requires Ending(f).Nil?
    ensures HasEnd(f) <==> exists j :: 0 <= j < |Elems(f)| && HasEnd(Elems(f)[j])
    ensures Append(Elems(f), Nil) == f
  {
    if f.Pair? {
      EndsIn(f.cdr);
      assert Elems(f)[0] == f.car && Elems(f)[1..] == Elems(f.cdr);
      if HasEnd(f.cdr) {
        var j :| 0 <= j < |Elems(f.cdr)| && HasEnd(Elems(f.cdr)[j]);
        assert HasEnd(Elems(f)[j + 1]);
      }
    }
  }

  lemma {:induction false} UpToAll(fs: seq<Stx>)
    ensures UpTo(fs) == fs <==> forall j :: 0 <= j < |fs| ==> !HasEnd(fs[j])
  {
    UpToStops(fs);
  }

  /** The bindings `(x ...)` leaves. */
  lemma PluralMatched(x: string, f: Stx)
    requires x != EMPTY_PATTERN && x != ELLIPSIS && f.Pair? && Ending(f).Nil?
    ensures var m := MatchAt(Whole, Plural(x), {}, f, map[], false);
      && m.ok && Grouped(m.pv) && m.pv.Keys == {ELLIPSIS} && x in SubOf(m.pv) && SubOf(m.pv)[x].Entry?
      && SubOf(m.pv)[x].v == f
  {
    PluralBound(x, f, map[]);
    assert [] + Elems(f) == Elems(f);
    var v := MatchReps(Ident(x, {}), {}, f, map[]).1[x].v;
    EndsIn(f);
    EndsIn(v);
  }

  lemma PluralConstructed(x: string, pv: PVars)
    requires Grouped(pv) && x in SubOf(pv) && x != ELLIPSIS
    ensures var r := RepValues(pv + SubOf(pv), x, {x});
      Construct(Plural(x), pv, {x}, 0) == if r.Some? then Some(Append(r.value, Nil)) else None
  {
    var ev := pv + SubOf(pv);
    RepetitionExact(Ident(x, {}), ev, {x});
    if n: nat :| Stops(Ident(x, {}), ev, {x}, n) {
      ConstructStopped(Plural(x), pv, {x}, 0, n);
    }
  }

  /** What constructing `(x ...)` gives for the list it matched: the elements before the
      first one with the end mark, and nothing at all if the first element is spelled like
      the mark of a single binding. The list comes back exactly if it holds neither. */
  lemma PluralRoundTrip(x: string, f: Stx)
    requires x != EMPTY_PATTERN && x != ELLIPSIS && f.Pair? && Ending(f).Nil?
    ensures var m, r := MatchAt(Whole, Plural(x), {}, f, map[], false), PluralAgain(x, f);
      && m.ok
      && (Called(f.car, SINGLE) ==> r == if HasEnd(f.cdr) then Some(Nil) else None)
      && (!Called(f.car, SINGLE) ==> r == Some(Append(UpTo(Elems(f)), Nil)))
      && (r == Some(f) <==> !Called(f.car, SINGLE) && !HasEnd(f))
  {
    PluralMatched(x, f);
    var pv := MatchAt(Whole, Plural(x), {}, f, map[], false).pv;
    PluralConstructed(x, pv);
    hide MatchAt, MatchReps, Construct;
    EndsIn(f);
    UpToAll(Elems(f));
    AppendOnce(UpTo(Elems(f)), Elems(f));
  }

  ghost function PluralAgain(x: string, f: Stx): Option<Stx> {
    Construct(Plural(x), MatchAt(Whole, Plural(x), {}, f, map[], false).pv, {x}, 0)
  }

  lemma {:induction false} AppendOnce(fs: seq<Stx>, gs: seq<Stx>)
    ensures Append(fs, Nil) == Append(gs, Nil) <==> fs == gs
  {
    if fs != [] && gs != [] {
      AppendOnce(fs[1..], gs[1..]);
      assert fs == [fs[0]] + fs[1..] && gs == [gs[0]] + gs[1..];
    }
  }

  // -------------------------------------------------------------- the method

  /** `construct_syntax`: a repetition adds what is constructed at one position after the
      other until the mark comes up. */
  method ConstructSyntax(t: Stx, pv: PVars, names: set<string>, idx: nat) returns (r: Stx)
    requires Construct(t, pv, names, idx).Some?
    ensures Construct(t, pv, names, idx) == Some(r)
    ensures RepeatsNothing(t) ==> Replaced(t, r, pv, names)
    ensures RepeatsNothing(t) && (forall x :: x in Identifiers(t) ==> x !in pv && x !in names) ==> r == t
    decreases t
  {
    TemplateMeans(t, pv, names, idx);
    match t {
      case Ident(_, _) => r := ConstructId(t, pv, names, idx);
      case Pair(h, d) =>
        if Repeats(t) {
          if !Grouped(pv) {
            r := ConstructSyntax(d.cdr, pv, names, idx);
            return;
          }
          var expvars := pv + SubOf(pv);
          ghost var n: nat :| Stops(h, expvars, names, n);
          var f, i := [], 0;
          while true
            invariant i <= n && f == Produced(h, expvars, names, i)
            decreases n - i
          {
            var x := ConstructSyntax(h, expvars, names, i);
            if HasEnd(x) {
              break;
            }
            f, i := f + [x], i + 1;
          }
          ConstructStopped(t, pv, names, idx, n);
          var rest := ConstructSyntax(d.cdr, pv, names, idx);
          r := Append(f, rest);
        } else {
          var x := ConstructSyntax(h, pv, names, idx);
          var y := ConstructSyntax(d, pv, names, idx);
          r := Pair(x, y);
        }
      case _ => r := t;
    }
  }
}
