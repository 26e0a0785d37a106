/** Macro patterns: what matching a form against a pattern accepts and binds. Covered are
    patterns made of identifiers, constants, the empty list and pairs, in which a
    repetition comes last in its list and holds no repetition itself. */
module SynMatch {
  import opened Wrappers

  /** Syntax. Identifiers are told apart by name alone when patterns are matched; a bare
      symbol is no identifier. */
  datatype Stx = Nil | Ident(name: string, scopes: set<nat>) | Sym(name: string) | Atom(n: int) | Pair(car: Stx, cdr: Stx)

  /** An entry holds the mark `SINGLE` before a form, or the list of the forms a repeated
      variable stands for; repeated variables have a table of their own. */
  datatype Binding = Entry(v: Stx) | Group(sub: map<string, Binding>)

  type PVars = map<string, Binding>

  const ELLIPSIS := "..."
  const EMPTY_PATTERN := "_"
  const SINGLE := "* SINGLE *"

  /** `match_id_symbol`. */
  predicate Called(p: Stx, name: string) {
    (p.Ident? || p.Sym?) && p.name == name
  }

  /** The pattern starts with something repeated. */
  predicate Repeats(p: Stx) {
    p.Pair? && p.cdr.Pair? && Called(p.cdr.car, ELLIPSIS)
  }

  /** Patterns without a repetition. */
  predicate Flat(p: Stx) {
    !Called(p, ELLIPSIS) && (p.Pair? ==> Flat(p.car) && Flat(p.cdr))
  }

  predicate Covered(p: Stx) {
    !Called(p, ELLIPSIS) &&
    (p.Pair? ==> if Repeats(p) then Flat(p.car) && p.cdr.cdr.Nil? else Covered(p.car) && Covered(p.cdr))
  }

  /** Where a pattern stands: as a whole, as an element of a list, or as the rest of one.
      What is repeated is matched as a whole. */
  datatype Place = Whole | Element | Rest

  // ---------------------------------------------------------------- matching

  function AddLast(v: Stx, f: Stx): Stx {
    if v.Pair? then Pair(v.car, AddLast(v.cdr, f)) else Pair(f, Nil)
  }

  /** `pvar_bind`: within a repetition one more form is added. */
  function Bind(pv: PVars, x: string, f: Stx, repeat: bool): PVars {
    if !repeat then pv[x := Entry(Pair(Sym(SINGLE), f))]
    else if x in pv && pv[x].Entry? then pv[x := Entry(AddLast(pv[x].v, f))]
    else pv[x := Entry(Pair(f, Nil))]
  }

  /** The first group makes the entry, later ones are imported into it. */
  function BindGroup(pv: PVars, sub: PVars): PVars {
    if ELLIPSIS in pv && pv[ELLIPSIS].Group? then pv[ELLIPSIS := Group(pv[ELLIPSIS].sub + sub)]
    else pv[ELLIPSIS := Group(sub)]
  }

  datatype Match = Match(ok: bool, pv: PVars)

  /** `match_syntax`. Literals are compared but for the rest of a list, `_` is passed over
      as a whole pattern only, and constants are never looked at. */
  function MatchAt(at: Place, p: Stx, lits: set<string>, f: Stx, pv: PVars, repeat: bool): Match
    decreases p, 0
  {
    match p
    case Nil => Match(f.Nil?, pv)
    case Ident(x, _) =>
      if at != Rest && x in lits then Match(f.Ident? && f.name == x, pv)
      else if at == Whole && x == EMPTY_PATTERN then Match(true, pv)
      else Match(true, Bind(pv, x, f, repeat))
    case Pair(a, d) =>
      if !f.Pair? then Match(Repeats(p) && d.cdr.Nil? && f.Nil?, pv)
      else if Repeats(p) then
        var (rest, sub) := MatchReps(a, lits, f, map[]);
        MatchAt(Rest, d.cdr, lits, rest, BindGroup(pv, sub), repeat)
      else
        var m := MatchAt(Element, a, lits, f.car, pv, repeat);
        if m.ok then MatchAt(Rest, d, lits, f.cdr, m.pv, repeat) else m
    case _ => Match(true, pv)
  }

  /** Repetition takes elements as long as they match. One that does not is passed over,
      and what it bound before it failed stays. */
  function MatchReps(h: Stx, lits: set<string>, f: Stx, sub: PVars): (Stx, PVars)
    decreases h, 1, f
  {
    if !f.Pair? then (f, sub)
    else
      var m := MatchAt(Whole, h, lits, f.car, sub, true);
      if m.ok then MatchReps(h, lits, f.cdr, m.pv) else (f.cdr, m.pv)
  }

  /** What single patterns match: the empty list itself, a literal the identifier of its name,
      `_` everything, and pairs of patterns pairs of forms that match them. */
  lemma MatchMeans(at: Place, p: Stx, lits: set<string>, f: Stx, pv: PVars, repeat: bool)
    ensures p == Nil ==> MatchAt(at, p, lits, f, pv, repeat) == Match(f == Nil, pv)
    ensures p.Ident? && p.name in lits && at != Rest ==>
      MatchAt(at, p, lits, f, pv, repeat) == Match(f.Ident? && f.name == p.name, pv)
    ensures p.Ident? && p.name !in lits && at != Whole && !repeat ==>
      MatchAt(at, p, lits, f, pv, repeat) == Match(true, pv[p.name := Entry(Pair(Sym("* SINGLE *"), f))])
    ensures p.Ident? && p.name == "_" && p.name !in lits && at == Whole ==> MatchAt(at, p, lits, f, pv, repeat) == Match(true, pv)
    ensures Repeats(p) <==> p.Pair? && p.cdr.Pair? && (p.cdr.car.Ident? || p.cdr.car.Sym?) && p.cdr.car.name == "..."
    ensures p.Pair? && !Repeats(p) ==>
      (MatchAt(at, p, lits, f, pv, repeat).ok <==>
        && f.Pair? && MatchAt(Element, p.car, lits, f.car, pv, repeat).ok
        && MatchAt(Rest, p.cdr, lits, f.cdr, MatchAt(Element, p.car, lits, f.car, pv, repeat).pv, repeat).ok)
  {
  }

  // -------------------------------------------------------- what is accepted

  /** The forms a pattern accepts, bindings aside. */
  predicate Accepts(at: Place, p: Stx, lits: set<string>, f: Stx)
    decreases p, 0
  {
    match p
    case Nil => f.Nil?
    case Ident(x, _) => at != Rest && x in lits ==> f.Ident? && f.name == x
    case Pair(a, d) =>
      if Repeats(p) then AcceptsAll(a, lits, f)
      else f.Pair? && Accepts(Element, a, lits, f.car) && Accepts(Rest, d, lits, f.cdr)
    case _ => true
  }

  predicate AcceptsAll(h: Stx, lits: set<string>, f: Stx)
    decreases h, 1, f
  {
    if f.Pair? then (if Accepts(Whole, h, lits, f.car) then AcceptsAll(h, lits, f.cdr) else f.cdr.Nil?) else f.Nil?
  }

  lemma {:induction false} MatchAccepts(at: Place, p: Stx, lits: set<string>, f: Stx, pv: PVars, repeat: bool)
    requires Covered(p)
    ensures MatchAt(at, p, lits, f, pv, repeat).ok <==> Accepts(at, p, lits, f)
    decreases p, 0
  {
    if p.Pair? && f.Pair? {
      if Repeats(p) {
        RepsAccept(p.car, lits, f, map[]);
      } else {
        MatchAccepts(Element, p.car, lits, f.car, pv, repeat);
        MatchAccepts(Rest, p.cdr, lits, f.cdr, MatchAt(Element, p.car, lits, f.car, pv, repeat).pv, repeat);
      }
    }
  }

  lemma {:induction false} FlatCovered(p: Stx)
    requires Flat(p)
    ensures Covered(p) && !Repeats(p)
  {
    if p.Pair? {
      FlatCovered(p.car);
      FlatCovered(p.cdr);
    }
  }

  lemma {:induction false} RepsAccept(h: Stx, lits: set<string>, f: Stx, sub: PVars)
    requires Flat(h)
    ensures MatchReps(h, lits, f, sub).0.Nil? <==> AcceptsAll(h, lits, f)
    decreases h, 1, f
  {
    if f.Pair? {
      FlatCovered(h);
      MatchAccepts(Whole, h, lits, f.car, sub, true);
      if MatchAt(Whole, h, lits, f.car, sub, true).ok {
        RepsAccept(h, lits, f.cdr, MatchAt(Whole, h, lits, f.car, sub, true).pv);
      }
    }
  }

  /** What it means for a form to be an instance of a pattern: literals and constants
      stand in it, and all that is repeated is an instance. */
  predicate Instance(p: Stx, lits: set<string>, f: Stx)
    decreases p, 0
  {
    match p
    case Nil => f.Nil?
    case Ident(x, _) => x in lits ==> f.Ident? && f.name == x
    case Pair(a, d) =>
      if Repeats(p) then AllInstances(a, lits, f)
      else f.Pair? && Instance(a, lits, f.car) && Instance(d, lits, f.cdr)
    case _ => f == p
  }

  predicate AllInstances(h: Stx, lits: set<string>, f: Stx)
    decreases h, 1, f
  {
    if f.Pair? then Instance(h, lits, f.car) && AllInstances(h, lits, f.cdr) else f.Nil?
  }

  /** An instance is always accepted. */
  lemma {:induction false} InstanceAccepted(at: Place, p: Stx, lits: set<string>, f: Stx)
    requires Instance(p, lits, f)
    ensures Accepts(at, p, lits, f)
    decreases p, 0
  {
    if p.Pair? {
      if Repeats(p) {
        AllAccepted(p.car, lits, f);
      } else {
        InstanceAccepted(Element, p.car, lits, f.car);
        InstanceAccepted(Rest, p.cdr, lits, f.cdr);
      }
    }
  }

  lemma {:induction false} AllAccepted(h: Stx, lits: set<string>, f: Stx)
    requires AllInstances(h, lits, f)
    ensures AcceptsAll(h, lits, f)
    decreases h, 1, f
  {
    if f.Pair? {
      InstanceAccepted(Whole, h, lits, f.car);
      AllAccepted(h, lits, f.cdr);
    }
  }

  /** No literal is the rest of a list, there are no constants, and only variables and `_`
      are repeated. */
  predicate Strict(at: Place, p: Stx, lits: set<string>)
    decreases p
  {
    match p
    case Nil => true
    case Ident(x, _) => at == Rest ==> x !in lits
    case Pair(a, d) =>
      if Repeats(p) then a.Ident? && a.name !in lits else Strict(Element, a, lits) && Strict(Rest, d, lits)
    case _ => false
  }

  lemma {:induction false} StrictExact(at: Place, p: Stx, lits: set<string>, f: Stx)
    requires Covered(p) && Strict(at, p, lits)
    ensures Accepts(at, p, lits, f) <==> Instance(p, lits, f)
    decreases p
  {
    if p.Pair? {
      if Repeats(p) {
        VariableRepeats(p.car, lits, f);
      } else if f.Pair? {
        StrictExact(Element, p.car, lits, f.car);
        StrictExact(Rest, p.cdr, lits, f.cdr);
      }
    }
  }

  lemma {:induction false} VariableRepeats(h: Stx, lits: set<string>, f: Stx)
    requires h.Ident? && h.name !in lits
    ensures AcceptsAll(h, lits, f) <==> AllInstances(h, lits, f)
    decreases f
  {
    if f.Pair? {
      VariableRepeats(h, lits, f.cdr);
    }
  }

  /** A form that is accepted, and that is an instance only if all instances are. */
  function Filled(at: Place, p: Stx, lits: set<string>): Stx
    decreases p
  {
    match p
    case Nil => Nil
    case Ident(x, _) => if at != Rest && x in lits then Ident(x, {}) else Atom(0)
    case Pair(a, d) =>
      if !Repeats(p) then Pair(Filled(Element, a, lits), Filled(Rest, d, lits))
      else if a.Ident? && a.name !in lits then Nil
      else Pair(if a.Atom? || a.Sym? then Nil else Atom(0), Nil)
    case _ => Nil
  }

  lemma RepeatFilled(h: Stx, lits: set<string>)
    requires Flat(h) && !Repeats(h) && !(h.Ident? && h.name !in lits)
    ensures var f := Pair(if h.Atom? || h.Sym? then Nil else Atom(0), Nil); AcceptsAll(h, lits, f) && !AllInstances(h, lits, f)
  {
    var f := Pair(if h.Atom? || h.Sym? then Nil else Atom(0), Nil);
    assert Accepts(Whole, h, lits, f.car) <==> h.Atom? || h.Sym?;
    assert AcceptsAll(h, lits, f.cdr);
    assert !Instance(h, lits, f.car);
  }

  lemma {:induction false} FilledAccepted(at: Place, p: Stx, lits: set<string>)
    requires Covered(p)
    ensures Accepts(at, p, lits, Filled(at, p, lits))
    ensures Instance(p, lits, Filled(at, p, lits)) ==> Strict(at, p, lits)
    decreases p
  {
    if p.Pair? {
      if Repeats(p) {
        FlatCovered(p.car);
        if !(p.car.Ident? && p.car.name !in lits) {
          RepeatFilled(p.car, lits);
        }
      } else {
        FilledAccepted(Element, p.car, lits);
        FilledAccepted(Rest, p.cdr, lits);
      }
    }
  }

  /** Matching is being an instance of the pattern exactly for strict patterns. */
  lemma MatchIffInstance(p: Stx, lits: set<string>)
    requires Covered(p)
    ensures (forall f, pv :: MatchAt(Whole, p, lits, f, pv, false).ok <==> Instance(p, lits, f)) <==> Strict(Whole, p, lits)
  {
    forall f, pv
      ensures MatchAt(Whole, p, lits, f, pv, false).ok <==> Accepts(Whole, p, lits, f)
      ensures Strict(Whole, p, lits) ==> (Accepts(Whole, p, lits, f) <==> Instance(p, lits, f))
    {
      MatchAccepts(Whole, p, lits, f, pv, false);
      if Strict(Whole, p, lits) {
        StrictExact(Whole, p, lits, f);
      }
    }
    FilledAccepted(Whole, p, lits);
    var f := Filled(Whole, p, lits);
    assert MatchAt(Whole, p, lits, f, map[], false).ok;
  }

  /** A literal as the rest of a list is not compared but bound like a variable; a last
      element a repetition does not match is dropped. */
  lemma NoInstances()
    ensures var p, f := Pair(Ident("a", {}), Ident("else", {})), Pair(Atom(1), Atom(2));
      MatchAt(Whole, p, {"else"}, f, map[], false).ok && !Instance(p, {"else"}, f)
    ensures var p := Pair(Pair(Ident("a", {}), Nil), Pair(Ident("...", {}), Nil)); var f := Pair(Atom(1), Nil);
      MatchAt(Whole, p, {}, f, map[], false).ok && !Instance(p, {}, f)
  {
  }

  // ------------------------------------------------------------ what is bound

  /** The names a match binds to a single form. */
  function Taken(at: Place, p: Stx, lits: set<string>): set<string>
    decreases p
  {
    match p
    case Ident(x, _) => if (at != Rest && x in lits) || (at == Whole && x == EMPTY_PATTERN) then {} else {x}
    case Pair(a, d) => if Repeats(p) then {} else Taken(Element, a, lits) + Taken(Rest, d, lits)
    case _ => {}
  }

  /** The pattern's variables that are not repeated. */
  function Variables(p: Stx, lits: set<string>): set<string> {
    match p
    case Ident(x, _) => if x in lits || x == EMPTY_PATTERN then {} else {x}
    case Pair(a, d) => if Repeats(p) then {} else Variables(a, lits) + Variables(d, lits)
    case _ => {}
  }

  /** No literal is the rest of a list, and `_` is neither an element nor the rest of one. */
  predicate Neat(at: Place, p: Stx, lits: set<string>)
    decreases p
  {
    match p
    case Ident(x, _) => if at == Rest then x !in lits && x != EMPTY_PATTERN else at == Whole || x in lits || x != EMPTY_PATTERN
    case Pair(a, d) => Repeats(p) || (Neat(Element, a, lits) && Neat(Rest, d, lits))
    case _ => true
  }

  function NamesOf(pv: PVars): set<string> {
    pv.Keys - {ELLIPSIS}
  }

  /** A match binds these names and no others. */
  lemma {:induction false} MatchTakes(at: Place, p: Stx, lits: set<string>, f: Stx, pv: PVars)
    requires Covered(p) && MatchAt(at, p, lits, f, pv, false).ok
    ensures NamesOf(MatchAt(at, p, lits, f, pv, false).pv) == NamesOf(pv) + Taken(at, p, lits)
    decreases p
  {
    if p.Pair? && f.Pair? && !Repeats(p) {
      MatchTakes(Element, p.car, lits, f.car, pv);
      MatchTakes(Rest, p.cdr, lits, f.cdr, MatchAt(Element, p.car, lits, f.car, pv, false).pv);
    }
  }

  lemma {:induction false} TakenVariables(at: Place, p: Stx, lits: set<string>)
    ensures Variables(p, lits) <= Taken(at, p, lits)
    ensures Neat(at, p, lits) ==> Taken(at, p, lits) == Variables(p, lits)
    ensures forall x :: x in Variables(p, lits) ==> x !in lits && x != EMPTY_PATTERN
    decreases p
  {
    if p.Pair? && !Repeats(p) {
      TakenVariables(Element, p.car, lits);
      TakenVariables(Rest, p.cdr, lits);
    }
  }

  /** A pattern that is not neat takes a literal or `_`. */
  lemma {:induction false} OthersTaken(at: Place, p: Stx, lits: set<string>) returns (x: string)
    requires !Neat(at, p, lits)
    ensures x in Taken(at, p, lits) && (x in lits || x == EMPTY_PATTERN)
    decreases p
  {
    match p
    case Ident(y, _) => x := y;
    case Pair(a, d) =>
      if !Neat(Element, a, lits) {
        x := OthersTaken(Element, a, lits);
      } else {
        x := OthersTaken(Rest, d, lits);
      }
  }

  /** The names bound are the pattern's variables exactly if the pattern is neat. */
  lemma BindsVariables(p: Stx, lits: set<string>)
    requires Covered(p)
    ensures (forall f :: MatchAt(Whole, p, lits, f, map[], false).ok ==>
               NamesOf(MatchAt(Whole, p, lits, f, map[], false).pv) == Variables(p, lits)) <==> Neat(Whole, p, lits)
  {
    TakenVariables(Whole, p, lits);
    forall f | MatchAt(Whole, p, lits, f, map[], false).ok
      ensures NamesOf(MatchAt(Whole, p, lits, f, map[], false).pv) == Taken(Whole, p, lits)
    {
      MatchTakes(Whole, p, lits, f, map[]);
    }
    if !Neat(Whole, p, lits) {
      var x := OthersTaken(Whole, p, lits);
      FilledAccepted(Whole, p, lits);
      MatchAccepts(Whole, p, lits, Filled(Whole, p, lits), map[], false);
      assert x !in Variables(p, lits);
    }
  }

  /** What `_` in a list leaves behind. */
  lemma UnderscoreBound(f: Stx)
    ensures MatchAt(Whole, Pair(Ident("_", {}), Nil), {}, Pair(f, Nil), map[], false)
            == Match(true, map["_" := Entry(Pair(Sym(SINGLE), f))])
    ensures MatchAt(Whole, Ident("_", {}), {}, f, map[], false) == Match(true, map[])
  {
  }

  // ------------------------------------------------------------- the parts bound

  const END := "* END OF EXPANSION *"

  /** A form without the marks the matcher puts between bindings. */
  predicate Unmarked(f: Stx) {
    !Called(f, SINGLE) && f != Sym(END) && (f.Pair? ==> Unmarked(f.car) && Unmarked(f.cdr))
  }

  function Elems(f: Stx): seq<Stx> {
    if f.Pair? then [f.car] + Elems(f.cdr) else []
  }

  function Ending(f: Stx): Stx {
    if f.Pair? then Ending(f.cdr) else f
  }

  /** `pvar_value`: what a name stands for at position `idx` of a repetition. */
  function PVarValue(pv: PVars, x: string, idx: nat): Option<Stx> {
    if x !in pv || !pv[x].Entry? then None
    else
      var v := pv[x].v;
      if !v.Pair? then Some(v)
      else if Called(v.car, SINGLE) then Some(v.cdr)
      else if idx < |Elems(v)| then Some(Elems(v)[idx])
      else Some(Sym(END))
  }

  function SubOf(pv: PVars): PVars {
    if ELLIPSIS in pv && pv[ELLIPSIS].Group? then pv[ELLIPSIS].sub else map[]
  }

  /** All names a match binds, repeated ones included. */
  function Names(at: Place, p: Stx, lits: set<string>): set<string>
    decreases p
  {
    match p
    case Pair(a, d) =>
      if Repeats(p) then Taken(Whole, a, lits) else Names(Element, a, lits) + Names(Rest, d, lits)
    case _ => Taken(at, p, lits)
  }

  /** No name is bound twice. */
  predicate Linear(p: Stx, lits: set<string>) {
    p.Pair? ==>
      if Repeats(p) then Linear(p.car, lits)
      else Linear(p.car, lits) && Linear(p.cdr, lits) && Names(Element, p.car, lits) !! Names(Rest, p.cdr, lits)
  }

  /** The entry of a repeated variable that has been bound `k` times. */
  predicate Listed(pv: PVars, x: string, k: nat) {
    if k == 0 then x !in pv
    else x in pv && pv[x].Entry? && pv[x].v.Pair? && !Called(pv[x].v.car, SINGLE) && |Elems(pv[x].v)| == k
  }

  /** Every variable has the part of the form that it stands for, a repeated one the part of
      each element. */
  predicate Agrees(at: Place, p: Stx, lits: set<string>, f: Stx, pv: PVars, idx: nat)
    decreases p, 0
  {
    match p
    case Ident(x, _) => x in Taken(at, p, lits) ==> PVarValue(pv, x, idx) == Some(f)
    case Pair(a, d) =>
      if Repeats(p) then
        && (f.Pair? ==> ELLIPSIS in pv && pv[ELLIPSIS].Group?)
        && (forall x :: x in Taken(Whole, a, lits) ==> x !in pv && Listed(SubOf(pv), x, |Elems(f)|))
        && AgreesAll(a, lits, f, SubOf(pv), 0)
      else f.Pair? ==> Agrees(Element, a, lits, f.car, pv, idx) && Agrees(Rest, d, lits, f.cdr, pv, idx)
    case _ => true
  }

  predicate AgreesAll(h: Stx, lits: set<string>, f: Stx, sub: PVars, from: nat)
    decreases h, 1, f
  {
    f.Pair? ==> Agrees(Whole, h, lits, f.car, sub, from) && AgreesAll(h, lits, f.cdr, sub, from + 1)
  }

  /** The same entries for these names. */
  predicate SameOn(pv: PVars, pv': PVars, xs: set<string>) {
    forall x :: x in xs ==> (x in pv <==> x in pv') && (x in pv ==> pv'[x] == pv[x])
  }

  /** The same for the table of repeated variables. */
  predicate SameFor(pv: PVars, pv': PVars, xs: set<string>) {
    SameOn(pv, pv', xs) && SameOn(SubOf(pv), SubOf(pv'), xs)
    && (ELLIPSIS in pv && pv[ELLIPSIS].Group? ==> ELLIPSIS in pv' && pv'[ELLIPSIS].Group?)
  }

  lemma {:induction false} FlatSame(at: Place, p: Stx, lits: set<string>, f: Stx, pv: PVars, pv': PVars, idx: nat)
    requires Flat(p) && Agrees(at, p, lits, f, pv, idx)
    requires forall x :: x in Taken(at, p, lits) ==> PVarValue(pv', x, idx) == PVarValue(pv, x, idx)
    ensures Agrees(at, p, lits, f, pv', idx)
    decreases p
  {
    FlatCovered(p);
    if p.Pair? && f.Pair? {
      FlatSame(Element, p.car, lits, f.car, pv, pv', idx);
      FlatSame(Rest, p.cdr, lits, f.cdr, pv, pv', idx);
    }
  }

  lemma {:induction false} AllSame(h: Stx, lits: set<string>, f: Stx, sub: PVars, sub': PVars, from: nat)
    requires Flat(h) && AgreesAll(h, lits, f, sub, from)
    requires forall x, k: nat :: x in Taken(Whole, h, lits) && k < from + |Elems(f)| ==> PVarValue(sub', x, k) == PVarValue(sub, x, k)
    ensures AgreesAll(h, lits, f, sub', from)
    decreases f
  {
    if f.Pair? {
      FlatSame(Whole, h, lits, f.car, sub, sub', from);
      AllSame(h, lits, f.cdr, sub, sub', from + 1);
    }
  }

  lemma {:induction false} AgreesSame(at: Place, p: Stx, lits: set<string>, f: Stx, pv: PVars, pv': PVars, idx: nat)
    requires Covered(p) && Agrees(at, p, lits, f, pv, idx) && SameFor(pv, pv', Names(at, p, lits))
    ensures Agrees(at, p, lits, f, pv', idx)
    decreases p
  {
    if p.Pair? {
      if Repeats(p) {
        AllSame(p.car, lits, f, SubOf(pv), SubOf(pv'), 0);
      } else if f.Pair? {
        AgreesSame(Element, p.car, lits, f.car, pv, pv', idx);
        AgreesSame(Rest, p.cdr, lits, f.cdr, pv, pv', idx);
      }
    }
  }

  lemma {:induction false} AddedLast(v: Stx, f: Stx)
    ensures Elems(AddLast(v, f)) == Elems(v) + [f] && Ending(AddLast(v, f)).Nil?
  {
    if v.Pair? {
      AddedLast(v.cdr, f);
    }
  }

  lemma {:induction false} FlatNames(at: Place, p: Stx, lits: set<string>)
    requires Flat(p)
    ensures Names(at, p, lits) == Taken(at, p, lits) && ELLIPSIS !in Taken(at, p, lits)
    decreases p
  {
    FlatCovered(p);
    if p.Pair? {
      FlatNames(Element, p.car, lits);
      FlatNames(Rest, p.cdr, lits);
    }
  }

  /** One more element of a repetition: each name is bound once more. */
  ghost predicate Further(sub: PVars, sub': PVars, xs: set<string>, k: nat) {
    && (forall x :: x !in xs ==> (x in sub' <==> x in sub) && (x in sub ==> sub'[x] == sub[x]))
    && (forall x :: x in xs ==> Listed(sub', x, k + 1))
    && forall x, j: nat :: x in xs && j < k ==> PVarValue(sub', x, j) == PVarValue(sub, x, j)
  }

  lemma BindsFurther(x: string, f: Stx, sub: PVars, k: nat)
    requires Listed(sub, x, k) && !Called(f, SINGLE)
    ensures Further(sub, Bind(sub, x, f, true), {x}, k) && PVarValue(Bind(sub, x, f, true), x, k) == Some(f)
  {
    if k > 0 {
      AddedLast(sub[x].v, f);
    }
    var sub' := Bind(sub, x, f, true);
    assert k == 0 ==> Elems(sub'[x].v) == [f] + Elems(Nil);
  }

  lemma FurtherBoth(sub: PVars, sub1: PVars, sub2: PVars, xs: set<string>, ys: set<string>, k: nat)
    requires Further(sub, sub1, xs, k) && Further(sub1, sub2, ys, k) && xs !! ys
    ensures Further(sub, sub2, xs + ys, k)
  {
    forall x, j: nat | x in xs + ys && j < k
      ensures PVarValue(sub2, x, j) == PVarValue(sub, x, j)
    {
      assert PVarValue(sub1, x, j) == PVarValue(sub, x, j);
      assert PVarValue(sub2, x, j) == PVarValue(sub1, x, j);
    }
  }

  lemma ListedKept(sub: PVars, sub1: PVars, xs: set<string>, ys: set<string>, k: nat)
    requires Further(sub, sub1, xs, k) && xs !! ys && forall y :: y in ys ==> Listed(sub, y, k)
    ensures forall y :: y in ys ==> Listed(sub1, y, k)
  {
  }

  lemma FurtherSame(sub: PVars, sub1: PVars, xs: set<string>, ys: set<string>, k: nat)
    requires Further(sub, sub1, ys, k) && xs !! ys
    ensures forall x :: x in xs ==> PVarValue(sub1, x, k) == PVarValue(sub, x, k)
  {
  }

  /** An element of a repetition adds its parts to the lists. */
  lemma {:induction false} FlatBinds(at: Place, p: Stx, lits: set<string>, f: Stx, sub: PVars, k: nat)
    requires Flat(p) && Linear(p, lits) && Unmarked(f) && MatchAt(at, p, lits, f, sub, true).ok
    requires forall x :: x in Taken(at, p, lits) ==> Listed(sub, x, k)
    ensures var sub' := MatchAt(at, p, lits, f, sub, true).pv;
      Further(sub, sub', Taken(at, p, lits), k) && Agrees(at, p, lits, f, sub', k)
    decreases p
  {
    FlatCovered(p);
    match p
    case Ident(x, _) =>
      if x in Taken(at, p, lits) {
        BindsFurther(x, f, sub, k);
      }
    case Pair(a, d) =>
      var xs, ys := Taken(Element, a, lits), Taken(Rest, d, lits);
      FlatNames(Element, a, lits);
      FlatNames(Rest, d, lits);
      FlatBinds(Element, a, lits, f.car, sub, k);
      var sub1 := MatchAt(Element, a, lits, f.car, sub, true).pv;
      ListedKept(sub, sub1, xs, ys, k);
      FlatBinds(Rest, d, lits, f.cdr, sub1, k);
      hide PVarValue, Listed, Bind, Further;
      var sub2 := MatchAt(Rest, d, lits, f.cdr, sub1, true).pv;
      FurtherBoth(sub, sub1, sub2, xs, ys, k);
      FurtherSame(sub1, sub2, xs, ys, k);
      FlatSame(Element, a, lits, f.car, sub1, sub2, k);
    case _ =>
  }

  /** Every element a repetition comes to is one it matches. */
  predicate EachAccepted(h: Stx, lits: set<string>, f: Stx) {
    f.Pair? ==> Accepts(Whole, h, lits, f.car) && EachAccepted(h, lits, f.cdr)
  }

  /** The lists of these names have grown from length `k` to length `m`. */
  ghost predicate Longer(sub: PVars, sub': PVars, xs: set<string>, k: nat, m: nat) {
    && (forall x :: x !in xs ==> (x in sub' <==> x in sub))
    && (forall x :: x in xs ==> Listed(sub', x, m))
    && forall x, j: nat :: x in xs && j < k ==> PVarValue(sub', x, j) == PVarValue(sub, x, j)
  }

  lemma FurtherLonger(sub: PVars, sub1: PVars, sub2: PVars, xs: set<string>, k: nat, m: nat)
    requires Further(sub, sub1, xs, k) && Longer(sub1, sub2, xs, k + 1, m)
    ensures Longer(sub, sub2, xs, k, m)
  {
    forall x, j: nat | x in xs && j < k
      ensures PVarValue(sub2, x, j) == PVarValue(sub, x, j)
    {
      assert PVarValue(sub1, x, j) == PVarValue(sub, x, j);
      assert PVarValue(sub2, x, j) == PVarValue(sub1, x, j);
    }
  }

  lemma {:induction false} RepsBind(h: Stx, lits: set<string>, f: Stx, sub: PVars, k: nat)
    requires Flat(h) && Linear(h, lits) && Unmarked(f) && EachAccepted(h, lits, f)
    requires forall x :: x in Taken(Whole, h, lits) ==> Listed(sub, x, k)
    ensures var (rest, sub') := MatchReps(h, lits, f, sub);
      rest == Ending(f) && AgreesAll(h, lits, f, sub', k) && Longer(sub, sub', Taken(Whole, h, lits), k, k + |Elems(f)|)
    decreases f
  {
    hide PVarValue, Agrees, Listed;
    if f.Pair? {
      FlatCovered(h);
      MatchAccepts(Whole, h, lits, f.car, sub, true);
      FlatBinds(Whole, h, lits, f.car, sub, k);
      var sub1 := MatchAt(Whole, h, lits, f.car, sub, true).pv;
      RepsBind(h, lits, f.cdr, sub1, k + 1);
      hide MatchAt, Taken, Accepts;
      var sub2 := MatchReps(h, lits, f.cdr, sub1).1;
      FlatSame(Whole, h, lits, f.car, sub1, sub2, k);
      FurtherLonger(sub, sub1, sub2, Taken(Whole, h, lits), k, k + |Elems(f)|);
      assert MatchReps(h, lits, f, sub) == MatchReps(h, lits, f.cdr, sub1);
    }
  }

  /** Nothing but bindings for these names is added. */
  ghost predicate Adds(pv: PVars, pv': PVars, xs: set<string>) {
    && (forall x :: x !in xs && x != ELLIPSIS ==> (x in pv' <==> x in pv) && (x in pv ==> pv'[x] == pv[x]))
    && (forall x :: x !in xs ==> (x in SubOf(pv') <==> x in SubOf(pv)) && (x in SubOf(pv) ==> SubOf(pv')[x] == SubOf(pv)[x]))
    && (ELLIPSIS in pv && pv[ELLIPSIS].Group? ==> ELLIPSIS in pv' && pv'[ELLIPSIS].Group?)
  }

  lemma AddsBoth(pv: PVars, pv1: PVars, pv2: PVars, xs: set<string>, ys: set<string>)
    requires Adds(pv, pv1, xs) && Adds(pv1, pv2, ys)
    ensures Adds(pv, pv2, xs + ys)
  {
  }

  /** None of the names is bound. */
  ghost predicate Unbound(pv: PVars, xs: set<string>) {
    forall x :: x in xs ==> x !in pv && x !in SubOf(pv)
  }

  lemma {:induction false} NamesProper(at: Place, p: Stx, lits: set<string>)
    requires Covered(p)
    ensures ELLIPSIS !in Names(at, p, lits)
    decreases p
  {
    if p.Pair? {
      if Repeats(p) {
        FlatNames(Whole, p.car, lits);
      } else {
        NamesProper(Element, p.car, lits);
        NamesProper(Rest, p.cdr, lits);
      }
    }
  }

  /** Constants stand in the form, and elements of repetitions are matched to the last. */
  predicate Upheld(p: Stx, lits: set<string>, f: Stx)
    decreases p, 0
  {
    match p
    case Nil => true
    case Ident(_, _) => true
    case Pair(a, d) =>
      if Repeats(p) then EachAccepted(a, lits, f) && AllUpheld(a, lits, f)
      else f.Pair? ==> Upheld(a, lits, f.car) && Upheld(d, lits, f.cdr)
    case _ => f == p
  }

  predicate AllUpheld(h: Stx, lits: set<string>, f: Stx)
    decreases h, 1, f
  {
    f.Pair? ==> Upheld(h, lits, f.car) && AllUpheld(h, lits, f.cdr)
  }

  lemma RepeatBinds(p: Stx, lits: set<string>, f: Stx, pv: PVars, idx: nat)
    requires Repeats(p) && Covered(p) && Linear(p, lits) && Unmarked(f) && Upheld(p, lits, f) && f.Pair? && Ending(f).Nil?
    requires Unbound(pv, Names(Whole, p, lits)) && ELLIPSIS !in Names(Whole, p, lits)
    ensures var pv' := BindGroup(pv, MatchReps(p.car, lits, f, map[]).1);
      Agrees(Whole, p, lits, f, pv', idx) && Adds(pv, pv', Names(Whole, p, lits))
  {
    var h, xs := p.car, Taken(Whole, p.car, lits);
    RepsBind(h, lits, f, map[], 0);
    hide Agrees, MatchReps, Unmarked, Upheld;
    var sub := MatchReps(h, lits, f, map[]).1;
    var pv' := BindGroup(pv, sub);
    assert SubOf(pv') == SubOf(pv) + sub;
    forall x | x in xs
      ensures x !in pv' && x in sub && SubOf(pv')[x] == sub[x]
    {
      assert Listed(sub, x, |Elems(f)|);
    }
    AllSame(h, lits, f, sub, SubOf(pv'), 0);
    RepeatAgrees(p, lits, f, pv', idx);
  }

  lemma RepeatAgrees(p: Stx, lits: set<string>, f: Stx, pv: PVars, idx: nat)
    requires Repeats(p) && ELLIPSIS in pv && pv[ELLIPSIS].Group?
    requires forall x :: x in Taken(Whole, p.car, lits) ==> x !in pv && Listed(SubOf(pv), x, |Elems(f)|)
    requires AgreesAll(p.car, lits, f, SubOf(pv), 0)
    ensures Agrees(Whole, p, lits, f, pv, idx)
  {
  }

  /** A match binds every name of a linear pattern to its part of the form, repeated ones
      to the list of their parts, and nothing else. */
  lemma {:induction false} MatchBinds(at: Place, p: Stx, lits: set<string>, f: Stx, pv: PVars, idx: nat)
    requires Covered(p) && Linear(p, lits) && Unmarked(f) && Upheld(p, lits, f) && MatchAt(at, p, lits, f, pv, false).ok
    requires Unbound(pv, Names(at, p, lits))
    ensures var pv' := MatchAt(at, p, lits, f, pv, false).pv;
      Agrees(at, p, lits, f, pv', idx) && Adds(pv, pv', Names(at, p, lits))
    decreases p
  {
    NamesProper(at, p, lits);
    if p.Pair? && f.Pair? {
      if Repeats(p) {
        RepsBind(p.car, lits, f, map[], 0);
        RepeatBinds(p, lits, f, pv, idx);
      } else {
        var xs, ys := Names(Element, p.car, lits), Names(Rest, p.cdr, lits);
        MatchBinds(Element, p.car, lits, f.car, pv, idx);
        var pv1 := MatchAt(Element, p.car, lits, f.car, pv, false).pv;
        NamesProper(Rest, p.cdr, lits);
        MatchBinds(Rest, p.cdr, lits, f.cdr, pv1, idx);
        var pv2 := MatchAt(Rest, p.cdr, lits, f.cdr, pv1, false).pv;
        AddsBoth(pv, pv1, pv2, xs, ys);
        NamesProper(Element, p.car, lits);
        AgreesSame(Element, p.car, lits, f.car, pv1, pv2, idx);
      }
    }
  }

  // ---------------------------------------------------------------- the method

  lemma PlaceOfPairs(at: Place, p: Stx, lits: set<string>, f: Stx, pv: PVars, repeat: bool)
    requires !p.Ident?
    ensures MatchAt(at, p, lits, f, pv, repeat) == MatchAt(Rest, p, lits, f, pv, repeat)
  {
  }

  class Matcher {
    var pvars: PVars

    constructor ()
      ensures pvars == map[]
    {
      pvars := map[];
    }

    /** `match_syntax`, binding into `pvars` as it goes along the list. */
    method MatchSyntax(pattern: Stx, lits: set<string>, form: Stx, repeat: bool) returns (ok: bool)
      requires Covered(pattern) && (repeat ==> Flat(pattern))
      modifies this
      ensures Match(ok, pvars) == MatchAt(Whole, pattern, lits, form, old(pvars), repeat)
      decreases pattern, 0
    {
      if pattern.Ident? {
        if pattern.name in lits {
          return form.Ident? && form.name == pattern.name;
        }
        if pattern.name != EMPTY_PATTERN {
          pvars := Bind(pvars, pattern.name, form, repeat);
        }
        return true;
      }
      PlaceOfPairs(Whole, pattern, lits, form, pvars, repeat);
      var p, f := pattern, form;
      while p.Pair? && f.Pair?
        invariant MatchAt(Rest, p, lits, f, pvars, repeat) == MatchAt(Whole, pattern, lits, form, old(pvars), repeat)
        invariant Covered(p) && (repeat ==> Flat(p)) && (p == pattern || p < pattern)
        decreases p
      {
        if Repeats(p) {
          f := TakeRepeated(p.car, lits, f, repeat);
          p := p.cdr.cdr;
        } else {
          if p.car.Ident? {
            if p.car.name in lits {
              ok := f.car.Ident? && f.car.name == p.car.name;
            } else {
              pvars := Bind(pvars, p.car.name, f.car, repeat);
              ok := true;
            }
          } else if p.car.Pair? {
            ok := f.car.Pair? || f.car.Nil?;
            if ok {
              PlaceOfPairs(Element, p.car, lits, f.car, pvars, repeat);
              PlaceOfPairs(Whole, p.car, lits, f.car, pvars, repeat);
              ok := MatchSyntax(p.car, lits, f.car, repeat);
            }
          } else {
            ok := p.car.Nil? ==> f.car.Nil?;
          }
          if !ok {
            return;
          }
          p, f := p.cdr, f.cdr;
        }
      }
      if p.Ident? {
        pvars := Bind(pvars, p.name, f, repeat);
      }
      return if p.Nil? then f.Nil? else if p.Pair? then Repeats(p) && p.cdr.cdr.Nil? && f.Nil? else true;
    }

    /** The loop over what is repeated, binding into a table of its own. */
    method TakeRepeated(h: Stx, lits: set<string>, form: Stx, repeat: bool) returns (f: Stx)
      requires Flat(h) && form.Pair?
      modifies this
      ensures f == MatchReps(h, lits, form, map[]).0
      ensures pvars == BindGroup(old(pvars), MatchReps(h, lits, form, map[]).1)
      decreases h, 1
    {
      FlatCovered(h);
      var repvars := new Matcher();
      f := form;
      var more := true;
      while f.Pair? && more
        invariant fresh(repvars) && repvars != this && pvars == old(pvars)
        invariant MatchReps(h, lits, form, map[]) ==
                  if more then MatchReps(h, lits, f, repvars.pvars) else (if f.Pair? then f.cdr else f, repvars.pvars)
        decreases f, more
      {
        more := repvars.MatchSyntax(h, lits, f.car, true);
        if more {
          f := f.cdr;
        }
      }
      pvars := BindGroup(pvars, repvars.pvars);
      if f.Pair? {
        f := f.cdr;
      }
    }
  }
}
