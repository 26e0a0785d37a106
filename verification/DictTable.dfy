/** The dictionary: probing, setting, removing, and growing when it gets too full. */
module DictTable {
  import opened DictSlots

  const DICT_INIT_SIZE := 32

  class Dictionary<K(==), V(0)> {
    const hash: K -> nat
    var elems: array<Slot<K, V>>
    var len: int

    ghost predicate Valid()
      reads this, elems
    {
      Probed(elems[..], hash) && len == |Contents(elems[..])| && 10 * len <= 7 * elems.Length
    }

    ghost function Map(): map<K, V>
      reads this, elems
    {
      Contents(elems[..])
    }

    constructor (h: K -> nat, size: nat)
      requires size > 0
      ensures Valid() && Map() == map[] && fresh(elems) && elems.Length == size && hash == h
      ensures Clean() && forall i :: 0 <= i < elems.Length ==> elems[i] == Empty
    {
      hash := h;
      elems := new Slot<K, V>[size](_ => Empty);
      len := 0;
      new;
      AllEmpty(elems[..], elems.Length);
    }

    /** `dict_get_slot`: from the key's home to the end and on from the beginning. When
        it comes all the way round it has found neither the key nor an empty slot. */
    method GetSlot(key: K) returns (found: bool, slot: int)
      requires Valid()
      ensures found <==> key in Map() || HasEmpty(elems[..])
      ensures found ==> SlotFor(elems[..], hash, key, slot)
    {
      ghost var s := elems[..];
      var home := Home(hash, key, elems.Length);
      var i, end, free, wrapped := home, elems.Length, -1, false;
      while true
        invariant 0 <= i <= end && (if wrapped then end == home < elems.Length else home <= i && end == elems.Length)
        invariant free == -1 || (0 <= free < |s| && s[free].Tomb?)
        invariant forall j {:trigger s[j]} :: 0 <= j < |s| && Passed(j, home, i, wrapped) ==>
          !s[j].Empty? && (s[j].Entry? ==> s[j].key != key) && (s[j].Tomb? ==> free != -1)
        invariant free != -1 ==> Passed(free, home, i, wrapped)
        invariant free != -1 ==> forall j {:trigger s[j]} :: 0 <= j < |s| && OnPath(j, home, free, |s|) ==> s[j].Entry?
        decreases !wrapped, end - i
      {
        if i < end {
          match elems[i] {
            case Empty =>
              StoredBeforeGap(s, hash, key, i);
              assert s[i] == Empty;
              return true, if free == -1 then i else free;
            case Tomb =>
              if free == -1 {
                free := i;
              }
            case Entry(k, _) =>
              if k == key {
                EntryAt(s, i);
                return true, i;
              }
          }
          i := i + 1;
        } else if i == elems.Length {
          i, end, wrapped := 0, home, true;
        } else {
          SeenHas(s, |s|, key);
          return false, -1;
        }
      }
    }

    /** No key was removed since the table was made or last grown. */
    ghost predicate Clean()
      reads this, elems
    {
      NoTombs(elems[..])
    }

    predicate TooFull(n: int)
      reads this
    {
      10 * n > 7 * elems.Length
    }

    /** `dictionary_set`. It fails only when there is no slot for a new key; one more
        key than fits the load bound makes the table grow. */
    method Set(key: K, value: V) returns (ok: bool)
      requires Valid()
      modifies this, elems
      ensures ok <==> old(key in Map() || HasEmpty(elems[..]))
      ensures ok ==> Valid() && Map() == old(Map())[key := value]
      ensures old(Clean()) ==> ok && Clean()
      ensures ok ==> if old(key in Map() || 10 * (len + 1) <= 7 * elems.Length) then
          elems == old(elems) && exists i {:trigger SlotFor(old(elems[..]), hash, key, i)} ::
            SlotFor(old(elems[..]), hash, key, i) && elems[..] == old(elems[..])[i := Entry(key, value)]
        else
          fresh(elems) && elems.Length == 2 * old(elems.Length) && Clean()
      ensures !ok ==> elems == old(elems) && elems[..] == old(elems[..]) && len == old(len)
      decreases if TooFull(len + 1) then 2 else 0
    {
      ghost var s := elems[..];
      if Clean() {
        LoadLeavesEmpty(s, hash);
      }
      var idx;
      ok, idx := GetSlot(key);
      if !ok {
        return;
      }
      StoreKeepsProbed(s, hash, key, value, idx);
      var entry := elems[idx];
      elems[idx] := Slot.Entry(key, value);
      assert elems[..] == s[idx := Slot.Entry(key, value)];
      if !entry.Entry? {
        AddedKey(Contents(s), key, value);
        len := len + 1;
        if TooFull(len) {
          Resize();
        }
      } else {
        SameKeys(Contents(s), key, value);
      }
    }

    /** `dict_resize`: the entries are set again in a table of twice the size, which
        leaves the tombstones behind and never grows on the way. */
    method Resize()
      requires Probed(elems[..], hash) && len == |Map()| && TooFull(len)
      modifies this
      ensures Valid() && Map() == old(Map()) && Clean()
      ensures fresh(elems) && elems.Length == 2 * old(elems.Length)
      decreases 1
    {
      hide Probed, HasEmpty, NoTombs, SlotFor, Seen, Contents;
      ghost var s := elems[..];
      ProbedUnique(s, hash);
      SeenSize(s, |s|);
      AllSeen(s);
      SeenNone<K, V>(map[], s);
      var d := new Dictionary(hash, elems.Length * 2);
      var i := 0;
      while i < elems.Length
        invariant 0 <= i <= elems.Length == |s| && elems == old(elems) && elems[..] == s
        invariant d.Valid() && d.Clean() && d.Map() == Seen(s, i) && d.hash == hash && d.elems.Length == 2 * elems.Length
        invariant fresh(d) && fresh(d.elems) && d.elems != elems
      {
        SeenSize(s, i);
        SeenNext(s, i);
        match elems[i] {
          case Entry(k, v) =>
            var ok := d.Set(k, v);
          case _ =>
        }
        i := i + 1;
      }
      elems, len := d.elems, d.len;
    }

    /** `dictionary_ref`; with no slot for the key the source stops with an error. */
    method Ref(key: K, notFound: V) returns (ok: bool, v: V)
      requires Valid()
      ensures ok <==> key in Map() || HasEmpty(elems[..])
      ensures ok ==> v == if key in Map() then Map()[key] else notFound
    {
      var idx;
      ok, idx := GetSlot(key);
      v := notFound;
      if ok && elems[idx].Entry? {
        EntryAt(elems[..], idx);
        v := elems[idx].value;
      }
    }

    /** `dictionary_remove`: an error unless the key is there; its slot becomes a tombstone. */
    method Remove(key: K) returns (ok: bool)
      requires Valid()
      modifies this`len, elems
      ensures ok <==> old(key in Map())
      ensures ok ==> Valid() && Map() == old(Map()) - {key}
      ensures ok ==> exists i {:trigger SlotFor(old(elems[..]), hash, key, i)} ::
        SlotFor(old(elems[..]), hash, key, i) && elems[..] == old(elems[..])[i := Tomb]
      ensures !ok ==> elems[..] == old(elems[..]) && len == old(len)
    {
      ghost var s := elems[..];
      var idx;
      ok, idx := GetSlot(key);
      if ok && !elems[idx].Entry? {
        ok := false;
      }
      if ok {
        EntryAt(s, idx);
        RemoveKeepsProbed(s, hash, idx);
        RemovedKey(Contents(s), key);
        elems[idx] := Tomb;
        assert elems[..] == s[idx := Tomb];
        len := len - 1;
      }
    }

    /** `dictionary_import`: every entry of `src` is set here, up to one there is no slot for. */
    method Import(src: Dictionary<K, V>) returns (ok: bool)
      requires Valid() && src.Valid() && src != this && src.elems != elems
      modifies this, elems
      ensures ok ==> Valid() && Map() == old(Map()) + src.Map()
      ensures !ok ==> !HasEmpty(elems[..]) && exists k :: k in src.Map() && k !in Map()
      ensures old(Clean()) ==> ok && Clean()
      ensures src.elems[..] == old(src.elems[..]) && src.elems == old(src.elems)
      ensures elems == old(elems) || fresh(elems)
    {
      hide Probed, Contents, NoTombs, HasEmpty, SlotFor, Seen;
      ghost var s, m := src.elems[..], Map();
      AllSeen(s);
      SeenNone(m, s);
      ProbedUnique(s, src.hash);
      var i := 0;
      while i < src.elems.Length
        invariant 0 <= i <= src.elems.Length == |s| && src.elems == old(src.elems) && src.elems[..] == s
        invariant Valid() && Map() == m + Seen(s, i)
        invariant (elems == old(elems) || fresh(elems)) && elems != src.elems
        invariant old(Clean()) ==> Clean()
      {
        SeenOver(m, s, i);
        if s[i].Entry? {
          EntryAt(s, i);
        }
        match src.elems[i] {
          case Entry(k, v) =>
            ok := Set(k, v);
            if !ok {
              assert k in src.Map() && k !in Map();
              return;
            }
          case _ =>
        }
        i := i + 1;
      }
      ok := true;
    }

    /** The same loop where both are one dictionary: everything stays as it is. */
    method ImportSelf() returns (ok: bool)
      requires Valid()
      modifies this, elems
      ensures ok && Valid() && elems == old(elems) && elems[..] == old(elems[..]) && len == old(len)
    {
      ghost var s := elems[..];
      var i := 0;
      while i < elems.Length
        invariant 0 <= i <= elems.Length && Valid() && elems == old(elems) && elems[..] == s && len == old(len)
      {
        match elems[i] {
          case Entry(k, v) =>
            EntryAt(s, i);
            OwnSlot(s, hash, i);
            ok := Set(k, v);
          case _ =>
        }
        i := i + 1;
      }
      ok := true;
    }

    /** `copy_dictionary`: into a table of the initial size. */
    method Copy() returns (d: Dictionary<K, V>)
      requires Valid()
      ensures fresh(d) && fresh(d.elems) && d.Valid() && d.Clean() && d.hash == hash
      ensures d.Map() == Map() && elems[..] == old(elems[..])
    {
      d := new Dictionary(hash, DICT_INIT_SIZE);
      var ok := d.Import(this);
      assert map[] + Map() == Map();
    }

    /** `dictionary_union`: where both have a key, the value of the second counts. */
    method Union(other: Dictionary<K, V>) returns (d: Dictionary<K, V>)
      requires Valid() && other.Valid() && other.hash == hash
      ensures fresh(d) && d.Valid() && d.Clean() && d.Map() == Map() + other.Map()
    {
      d := Copy();
      var ok := d.Import(other);
    }
  }

  /** Setting and removing as many keys as there are slots, one at a time, leaves a
      table with nothing in it that nothing more can be put into: tombstones do not
      count towards the load, so it never grew. */
  method TombstonesFill() returns (d: Dictionary<nat, nat>, ok: bool)
    ensures fresh(d) && d.Valid() && d.Map() == map[] && d.elems.Length == 32
    ensures !ok && forall i :: 0 <= i < d.elems.Length ==> d.elems[i] == Tomb
  {
    var id := (k: nat) => k;
    d := new Dictionary(id, DICT_INIT_SIZE);
    for i := 0 to DICT_INIT_SIZE
      invariant fresh(d) && fresh(d.elems) && d.Valid() && d.Map() == map[] && d.elems.Length == DICT_INIT_SIZE
      invariant d.hash == id
      invariant forall j :: 0 <= j < d.elems.Length ==> d.elems[j] == if j < i then Tomb else Empty
    {
      ok := SetAndRemove(d, i);
    }
    ok := d.Set(DICT_INIT_SIZE, 0);
  }

  method SetAndRemove(d: Dictionary<nat, nat>, i: nat) returns (ok: bool)
    requires d.Valid() && d.Map() == map[] && d.elems.Length == DICT_INIT_SIZE && i < DICT_INIT_SIZE && d.hash(i) == i
    requires forall j :: 0 <= j < d.elems.Length ==> d.elems[j] == if j < i then Tomb else Empty
    modifies d, d.elems
    ensures d.Valid() && d.Map() == map[] && d.elems == old(d.elems)
    ensures forall j :: 0 <= j < d.elems.Length ==> d.elems[j] == if j <= i then Tomb else Empty
  {
    hide Probed, Contents, HasEmpty;
    ghost var s := d.elems[..];
    assert HasEmpty(s) by { EmptyAt(s, i); }
    ok := d.Set(i, 0);
    ghost var j :| SlotFor(s, d.hash, i, j) && d.elems[..] == s[j := Slot.Entry(i, 0)];
    FirstEmpty(s, d.hash, i, j);
    ghost var t := d.elems[..];
    ok := d.Remove(i);
    assert map[i := 0] - {i} == map[];
    ghost var k :| SlotFor(t, d.hash, i, k) && d.elems[..] == t[k := Tomb];
    OnlyEntry(t, d.hash, i, k);
  }

  /** Setting a key to the value it has changes nothing. */
  lemma OwnSlot<K, V>(s: seq<Slot<K, V>>, hash: K -> nat, i: int)
    requires Probed(s, hash) && 0 <= i < |s| && s[i].Entry?
    ensures forall j :: SlotFor(s, hash, s[i].key, j) ==> s[j := s[i]] == s
  {
    forall j | SlotFor(s, hash, s[i].key, j)
      ensures s[j := s[i]] == s
    {
      EntryAt(s, i);
    }
  }

  lemma EmptyAt<K, V>(s: seq<Slot<K, V>>, i: int)
    requires 0 <= i < |s| && s[i].Empty?
    ensures HasEmpty(s)
  {
  }

  lemma FirstEmpty(s: seq<Slot<nat, nat>>, hash: nat -> nat, i: nat, j: int)
    requires i < |s| == DICT_INIT_SIZE && hash(i) == i && (forall k :: 0 <= k < |s| ==> s[k] == if k < i then Tomb else Empty)
    requires SlotFor(s, hash, i, j)
    ensures j == i
  {
    assert Home(hash, i, |s|) == i;
    assert s[i].Empty? && (OnPath(i, i, j, |s|) || j == i);
  }

  lemma OnlyEntry(s: seq<Slot<nat, nat>>, hash: nat -> nat, i: nat, j: int)
    requires i < |s| && (forall k :: 0 <= k < |s| && k != i ==> !s[k].Entry?) && s[i].Entry? && s[i].key == i
    requires SlotFor(s, hash, i, j)
    ensures j == i
  {
    SeenHas(s, |s|, i);
  }

  lemma SeenNext<K, V>(s: seq<Slot<K, V>>, i: nat)
    requires i < |s|
    ensures Seen(s, i + 1) == if s[i].Entry? then Seen(s, i)[s[i].key := s[i].value] else Seen(s, i)
  {
  }

  lemma SeenOver<K, V>(m: map<K, V>, s: seq<Slot<K, V>>, i: nat)
    requires i < |s|
    ensures m + Seen(s, i + 1) == if s[i].Entry? then (m + Seen(s, i))[s[i].key := s[i].value] else m + Seen(s, i)
  {
  }

  lemma SeenNone<K, V>(m: map<K, V>, s: seq<Slot<K, V>>)
    ensures Seen(s, 0) == map[] && m + Seen(s, 0) == m
  {
  }

  lemma AllSeen<K, V>(s: seq<Slot<K, V>>)
    ensures Contents(s) == Seen(s, |s|)
  {
  }

  lemma ProbedUnique<K, V>(s: seq<Slot<K, V>>, hash: K -> nat)
    requires Probed(s, hash)
    ensures Unique(s)
  {
  }

  lemma AddedKey<K, V>(m: map<K, V>, key: K, value: V)
    requires key !in m
    ensures |m[key := value]| == |m| + 1
  {
    assert m[key := value].Keys == m.Keys + {key};
  }

  lemma SameKeys<K, V>(m: map<K, V>, key: K, value: V)
    requires key in m
    ensures |m[key := value]| == |m|
  {
    assert m[key := value].Keys == m.Keys;
  }

  lemma RemovedKey<K, V>(m: map<K, V>, key: K)
    requires key in m
    ensures |m - {key}| == |m| - 1
  {
    assert (m - {key}).Keys == m.Keys - {key};
  }

  /** `j` was looked at before the search got to `i`. */
  predicate Passed(j: int, home: int, i: int, wrapped: bool) {
    if wrapped then j >= home || j < i else home <= j < i
  }
}
