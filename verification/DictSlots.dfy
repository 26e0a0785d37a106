/** The slots of the open-addressing dictionary as a sequence: what they hold, and
    what keeps every key findable by probing from its hash. */
module DictSlots {
  /** A slot never used, one whose key was removed, or an entry. */
  datatype Slot<K, V> = Empty | Tomb | Entry(key: K, value: V)

  /** What the first `n` slots hold. */
  function Seen<K, V>(s: seq<Slot<K, V>>, n: nat): map<K, V>
    requires n <= |s|
  {
    if n == 0 then map[]
    else if s[n - 1].Entry? then Seen(s, n - 1)[s[n - 1].key := s[n - 1].value]
    else Seen(s, n - 1)
  }

  function Contents<K, V>(s: seq<Slot<K, V>>): map<K, V> {
    Seen(s, |s|)
  }

  function Home<K>(hash: K -> nat, key: K, cap: nat): (i: nat)
    requires cap > 0
    ensures i < cap
  {
    hash(key) % cap
  }

  /** `i` is passed on the way from `from` to `to`, going round at the end. */
  predicate OnPath(i: int, from: int, to: int, cap: int) {
    if from <= to then from <= i < to else from <= i < cap || 0 <= i < to
  }

  ghost predicate NoGap<K, V>(s: seq<Slot<K, V>>, from: int, to: int) {
    forall i {:trigger s[i]} :: 0 <= i < |s| && OnPath(i, from, to, |s|) ==> !s[i].Empty?
  }

  ghost predicate HasEmpty<K, V>(s: seq<Slot<K, V>>) {
    exists i :: 0 <= i < |s| && s[i].Empty?
  }

  ghost predicate NoTombs<K, V>(s: seq<Slot<K, V>>) {
    forall i :: 0 <= i < |s| ==> !s[i].Tomb?
  }

  ghost predicate Unique<K, V>(s: seq<Slot<K, V>>) {
    forall i, j :: 0 <= i < j < |s| && s[i].Entry? && s[j].Entry? ==> s[i].key != s[j].key
  }

  /** No key is stored twice, and none is cut off from its home by an empty slot. */
  ghost predicate Probed<K, V>(s: seq<Slot<K, V>>, hash: K -> nat) {
    && |s| > 0 && Unique(s)
    && forall i {:trigger s[i]} :: 0 <= i < |s| && s[i].Entry? ==> NoGap(s, Home(hash, s[i].key, |s|), i)
  }

  /** The slot for a key: where it is, or, when it is nowhere, the first free slot on
      the way from its home, which must lead to an empty slot in the end. */
  ghost predicate SlotFor<K, V>(s: seq<Slot<K, V>>, hash: K -> nat, key: K, i: int) {
    0 <= i < |s| &&
    if s[i].Entry? then s[i].key == key
    else
      && key !in Contents(s)
      && forall j {:trigger s[j]} :: 0 <= j < |s| && OnPath(j, Home(hash, key, |s|), i, |s|) ==> s[j].Entry?
  }

  // ---------------------------------------------------------------- contents

  lemma {:induction false} SeenHas<K, V>(s: seq<Slot<K, V>>, n: nat, key: K)
    requires n <= |s|
    ensures key in Seen(s, n) <==> exists i :: 0 <= i < n && s[i].Entry? && s[i].key == key
  {
    if n > 0 {
      SeenHas(s, n - 1, key);
    }
  }

  lemma {:induction false} SeenValue<K, V>(s: seq<Slot<K, V>>, n: nat, i: int)
    requires n <= |s| && Unique(s) && 0 <= i < n && s[i].Entry?
    ensures s[i].key in Seen(s, n) && Seen(s, n)[s[i].key] == s[i].value
  {
    if i < n - 1 {
      SeenValue(s, n - 1, i);
    }
  }

  lemma EntryAt<K, V>(s: seq<Slot<K, V>>, i: int)
    requires Unique(s) && 0 <= i < |s| && s[i].Entry?
    ensures s[i].key in Contents(s) && Contents(s)[s[i].key] == s[i].value
  {
    SeenValue(s, |s|, i);
  }

  lemma {:induction false} SeenSame<K, V>(s: seq<Slot<K, V>>, t: seq<Slot<K, V>>, n: nat)
    requires n <= |s| && n <= |t| && s[..n] == t[..n]
    ensures Seen(s, n) == Seen(t, n)
  {
    if n > 0 {
      assert s[..n][n - 1] == t[..n][n - 1];
      assert s[..n - 1] == s[..n][..n - 1] == t[..n][..n - 1] == t[..n - 1];
      SeenSame(s, t, n - 1);
    }
  }

  /** The number of entries among the first `n` slots. */
  lemma {:induction false} SeenSize<K, V>(s: seq<Slot<K, V>>, n: nat)
    requires n <= |s| && Unique(s)
    ensures |Seen(s, n)| <= n
    ensures |Seen(s, n)| == n <==> forall i :: 0 <= i < n ==> s[i].Entry?
  {
    if n > 0 {
      SeenSize(s, n - 1);
      SeenCount(s, n);
      hide Seen, Unique;
      if forall i :: 0 <= i < n - 1 ==> s[i].Entry? {
        assert |Seen(s, n - 1)| == n - 1;
      }
    }
  }

  /** Every entry is one more key. */
  lemma SeenCount<K, V>(s: seq<Slot<K, V>>, n: nat)
    requires 0 < n <= |s| && Unique(s)
    ensures |Seen(s, n)| == |Seen(s, n - 1)| + (if s[n - 1].Entry? then 1 else 0)
  {
    if s[n - 1].Entry? {
      SeenHas(s, n - 1, s[n - 1].key);
      hide Unique;
      assert Seen(s, n).Keys == Seen(s, n - 1).Keys + {s[n - 1].key};
    }
  }

  /** The mapping is what the entries say, each by itself. */
  lemma ContentsMean<K, V>(s: seq<Slot<K, V>>, key: K, value: V)
    requires Unique(s)
    ensures key in Contents(s) && Contents(s)[key] == value <==> exists i :: 0 <= i < |s| && s[i] == Entry(key, value)
  {
    SeenHas(s, |s|, key);
    if i :| 0 <= i < |s| && s[i] == Entry(key, value) {
      EntryAt(s, i);
    }
    if key in Contents(s) {
      var i :| 0 <= i < |s| && s[i].Entry? && s[i].key == key;
      EntryAt(s, i);
    }
  }

  /** In an empty table a key goes to the slot its hash says. */
  lemma HomeSlot<K, V>(s: seq<Slot<K, V>>, hash: K -> nat, key: K, i: int)
    requires |s| > 0 && (forall j :: 0 <= j < |s| ==> s[j].Empty?) && SlotFor(s, hash, key, i)
    ensures i == hash(key) % |s|
  {
    assert s[Home(hash, key, |s|)].Empty?;
  }

  /** What an entry stored in slot `i` does to the contents. */
  lemma {:induction false} SeenStore<K, V>(s: seq<Slot<K, V>>, i: int, key: K, value: V, n: nat)
    requires 0 <= i < n <= |s| && Unique(s) && (s[i].Entry? ==> s[i].key == key)
    requires forall j :: 0 <= j < |s| && s[j].Entry? && s[j].key == key ==> j == i
    ensures Seen(s[i := Entry(key, value)], n) == Seen(s, n)[key := value]
  {
    var t := s[i := Entry(key, value)];
    if i == n - 1 {
      assert s[..n - 1] == t[..n - 1];
      SeenSame(s, t, n - 1);
    } else {
      SeenStore(s, i, key, value, n - 1);
      assert t[n - 1] == s[n - 1];
    }
  }

  lemma {:induction false} SeenRemove<K, V>(s: seq<Slot<K, V>>, i: int, n: nat)
    requires 0 <= i < n <= |s| && Unique(s) && s[i].Entry?
    ensures Seen(s[i := Tomb], n) == Seen(s, n) - {s[i].key}
  {
    var t := s[i := Tomb];
    if i == n - 1 {
      assert s[..n - 1] == t[..n - 1];
      SeenSame(s, t, n - 1);
      SeenHas(s, n - 1, s[i].key);
    } else {
      SeenRemove(s, i, n - 1);
      assert t[n - 1] == s[n - 1];
    }
  }

  // ------------------------------------------------------------------- slots

  /** A key that is stored is found before any empty slot. */
  lemma StoredBeforeGap<K, V>(s: seq<Slot<K, V>>, hash: K -> nat, key: K, i: int)
    requires Probed(s, hash) && 0 <= i < |s| && s[i].Empty?
    requires forall j {:trigger s[j]} :: 0 <= j < |s| && OnPath(j, Home(hash, key, |s|), i, |s|) && s[j].Entry? ==> s[j].key != key
    ensures key !in Contents(s)
  {
    SeenHas(s, |s|, key);
  }

  /** The slot for a key is decided by the slots and the key alone. */
  lemma SlotUnique<K, V>(s: seq<Slot<K, V>>, hash: K -> nat, key: K, i: int, j: int)
    requires Probed(s, hash) && SlotFor(s, hash, key, i) && SlotFor(s, hash, key, j)
    ensures i == j
  {
    SeenHas(s, |s|, key);
  }

  lemma StoreKeepsProbed<K, V>(s: seq<Slot<K, V>>, hash: K -> nat, key: K, value: V, i: int)
    requires Probed(s, hash) && SlotFor(s, hash, key, i)
    ensures Probed(s[i := Entry(key, value)], hash)
    ensures Contents(s[i := Entry(key, value)]) == Contents(s)[key := value]
    ensures s[i].Entry? <==> key in Contents(s)
  {
    var t := s[i := Entry(key, value)];
    SeenHas(s, |s|, key);
    if s[i].Entry? {
      EntryAt(s, i);
    }
    forall j | 0 <= j < |t| && t[j].Entry?
      ensures NoGap(t, Home(hash, t[j].key, |t|), j)
    {
      if j != i {
        assert NoGap(s, Home(hash, s[j].key, |s|), j);
      } else if s[i].Entry? {
        assert NoGap(s, Home(hash, s[i].key, |s|), i);
      }
    }
    SeenStore(s, i, key, value, |s|);
  }

  lemma RemoveKeepsProbed<K, V>(s: seq<Slot<K, V>>, hash: K -> nat, i: int)
    requires Probed(s, hash) && 0 <= i < |s| && s[i].Entry?
    ensures Probed(s[i := Tomb], hash) && Contents(s[i := Tomb]) == Contents(s) - {s[i].key}
  {
    var t := s[i := Tomb];
    forall j | 0 <= j < |t| && t[j].Entry?
      ensures NoGap(t, Home(hash, t[j].key, |t|), j)
    {
      assert NoGap(s, Home(hash, s[j].key, |s|), j);
    }
    SeenRemove(s, i, |s|);
  }

  /** Without tombstones, a table that is not full of entries has an empty slot. */
  lemma LoadLeavesEmpty<K, V>(s: seq<Slot<K, V>>, hash: K -> nat)
    requires Probed(s, hash) && NoTombs(s) && 10 * |Contents(s)| <= 7 * |s|
    ensures HasEmpty(s)
  {
    SeenSize(s, |s|);
    var i :| 0 <= i < |s| && !s[i].Entry?;
    assert s[i].Empty?;
  }

  lemma AllEmpty<K, V>(s: seq<Slot<K, V>>, n: nat)
    requires n <= |s| && forall i :: 0 <= i < |s| ==> s[i].Empty?
    ensures Seen(s, n) == map[]
  {
  }
}
