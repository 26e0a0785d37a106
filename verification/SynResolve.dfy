/** Resolving an identifier: of the bindings whose scopes are all among its own, the
    one with the most scopes, provided it has all the others'. */
module SynResolve {
  import opened DictSlots
  import opened DictTable

  datatype Id = Id(name: string, scopes: set<nat>)

  datatype Resolution<B> = Undefined | Ambiguous | Bound(binding: B)

  predicate Candidate(id: Id, c: Id) {
    c.name == id.name && c.scopes <= id.scopes
  }

  /** `c` is a candidate that has every other candidate's scopes. */
  ghost predicate Best<B>(bindings: map<Id, B>, id: Id, c: Id) {
    c in bindings && Candidate(id, c) && forall d :: d in bindings && Candidate(id, d) ==> d.scopes <= c.scopes
  }

  /** There is at most one, so which order the table is walked in cannot matter. */
  lemma BestUnique<B>(bindings: map<Id, B>, id: Id, c: Id, d: Id)
    requires Best(bindings, id, c) && Best(bindings, id, d)
    ensures c == d
  {
  }

  /** What an identifier stands for, as the set of bindings has it. */
  ghost function Resolved<B>(bindings: map<Id, B>, id: Id): Resolution<B> {
    if forall c :: c in bindings ==> !Candidate(id, c) then Undefined
    else if exists c :: Best(bindings, id, c) then
      var c :| Best(bindings, id, c);
      Bound(bindings[c])
    else Ambiguous
  }

  /** Undefined exactly where nothing bound under the name has its scopes among the
      identifier's. */
  lemma ResolvedUndefined<B>(bindings: map<Id, B>, id: Id)
    ensures Resolved(bindings, id) == Undefined <==> !exists c :: c in bindings && c.name == id.name && c.scopes <= id.scopes
  {
    assert forall c :: Candidate(id, c) <==> c.name == id.name && c.scopes <= id.scopes;
  }

  /** Bound exactly where one such binding has the scopes of every other. */
  lemma ResolvedBound<B>(bindings: map<Id, B>, id: Id, b: B)
    ensures Resolved(bindings, id) == Bound(b) <==>
      exists c :: c in bindings && c.name == id.name && c.scopes <= id.scopes && bindings[c] == b &&
        forall d :: d in bindings && d.name == id.name && d.scopes <= id.scopes ==> d.scopes <= c.scopes
  {
    if c :| c in bindings && c.name == id.name && c.scopes <= id.scopes && bindings[c] == b &&
            forall d :: d in bindings && d.name == id.name && d.scopes <= id.scopes ==> d.scopes <= c.scopes {
      assert Best(bindings, id, c);
      forall d | Best(bindings, id, d)
        ensures d == c
      {
        BestUnique(bindings, id, c, d);
      }
    }
    if Resolved(bindings, id) == Bound(b) {
      var c :| Best(bindings, id, c) && bindings[c] == b;
    }
  }

  lemma SubsetSize(s: set<nat>, t: set<nat>)
    requires s <= t
    ensures |s| <= |t| && (|s| == |t| ==> s == t)
  {
    if s != {} {
      var x :| x in s;
      SubsetSize(s - {x}, t - {x});
      assert s == s - {x} + {x} && t == t - {x} + {x};
    }
  }

  /** Identifiers under the same name, in the reverse of the order of their slots. */
  method FindAllMatchingBindings<B(0)>(all: Dictionary<Id, B>, id: Id) returns (matches: seq<Id>)
    requires all.Valid()
    ensures forall c :: c in matches <==> c in all.Map() && Candidate(id, c)
    ensures forall c :: c in matches <==> c in all.Map() && c.name == id.name && c.scopes <= id.scopes
  {
    matches := [];
    ghost var s := all.elems[..];
    for i := 0 to all.elems.Length
      invariant forall c :: c in matches <==> c in Seen(s, i) && Candidate(id, c)
    {
      match all.elems[i] {
        case Entry(c, _) =>
          if c.name == id.name && c.scopes <= id.scopes {
            matches := [c] + matches;
          }
        case _ =>
      }
    }
  }

  /** The first of those with the most scopes. */
  method GetMaxId(ids: seq<Id>) returns (m: Id)
    requires ids != []
    ensures m in ids && forall c :: c in ids ==> |c.scopes| <= |m.scopes|
  {
    m := ids[0];
    var i := 1;
    while i < |ids|
      invariant 1 <= i <= |ids| && m in ids && forall j :: 0 <= j < i ==> |ids[j].scopes| <= |m.scopes|
    {
      if |ids[i].scopes| > |m.scopes| {
        m := ids[i];
      }
      i := i + 1;
    }
  }

  method CheckUnambiguous(m: Id, ids: seq<Id>) returns (ok: bool)
    ensures ok <==> forall c :: c in ids ==> c.scopes <= m.scopes
  {
    for i := 0 to |ids|
      invariant forall j :: 0 <= j < i ==> ids[j].scopes <= m.scopes
    {
      if !(ids[i].scopes <= m.scopes) {
        return false;
      }
    }
    ok := true;
  }

  lemma ResolvedMeans<B>(bindings: map<Id, B>, id: Id)
    ensures Resolved(bindings, id) == Undefined <==> !exists c :: c in bindings && c.name == id.name && c.scopes <= id.scopes
    ensures forall b :: Resolved(bindings, id) == Bound(b) <==>
      exists c :: c in bindings && c.name == id.name && c.scopes <= id.scopes && bindings[c] == b &&
        forall d :: d in bindings && d.name == id.name && d.scopes <= id.scopes ==> d.scopes <= c.scopes
  {
    ResolvedUndefined(bindings, id);
    forall b
      ensures Resolved(bindings, id) == Bound(b) <==>
        exists c :: c in bindings && c.name == id.name && c.scopes <= id.scopes && bindings[c] == b &&
          forall d :: d in bindings && d.name == id.name && d.scopes <= id.scopes ==> d.scopes <= c.scopes
    {
      ResolvedBound(bindings, id, b);
    }
  }

  /** `resolve`: undefined without candidates, the binding of the best one if there is
      one, and otherwise an error. */
  method Resolve<B(0)>(all: Dictionary<Id, B>, id: Id, void: B) returns (r: Resolution<B>)
    requires all.Valid()
    ensures r == Resolved(all.Map(), id)
    ensures r == Undefined <==> !exists c :: c in all.Map() && c.name == id.name && c.scopes <= id.scopes
    ensures forall b :: r == Bound(b) <==>
      exists c :: c in all.Map() && c.name == id.name && c.scopes <= id.scopes && all.Map()[c] == b &&
        forall d :: d in all.Map() && d.name == id.name && d.scopes <= id.scopes ==> d.scopes <= c.scopes
  {
    ResolvedMeans(all.Map(), id);
    var candidates := FindAllMatchingBindings(all, id);
    if candidates == [] {
      return Undefined;
    }
    assert candidates[0] in candidates;
    var m := GetMaxId(candidates);
    var ok := CheckUnambiguous(m, candidates);
    forall c | Best(all.Map(), id, c)
      ensures c == m
    {
      assert c in candidates;
      SubsetSize(m.scopes, c.scopes);
    }
    if !ok {
      return Ambiguous;
    }
    assert Best(all.Map(), id, m);
    var _, b := all.Ref(m, void);
    r := Bound(b);
  }
}
