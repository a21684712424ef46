/** The two-key registry of `multi_map.rs`: two hash tables whose keys and values
    are raw pointers into shared heap items that are freed by hand. */
module MultiMaps {
  import opened Basics

  // ----- What the registry means: a set of triples -----

  ghost predicate HasKey1<K1, K2, V>(c: set<(K1, K2, V)>, k1: K1) {
    exists t :: t in c && t.0 == k1
  }

  ghost predicate HasKey2<K1, K2, V>(c: set<(K1, K2, V)>, k2: K2) {
    exists t :: t in c && t.1 == k2
  }

  /** No two triples share their first key, and no two share their second. */
  ghost predicate UniqueKeys<K1, K2, V>(c: set<(K1, K2, V)>) {
    forall s, t :: s in c && t in c && (s.0 == t.0 || s.1 == t.1) ==> s == t
  }

  ghost function Inserted<K1, K2, V>(c: set<(K1, K2, V)>, k1: K1, k2: K2, v: V): set<(K1, K2, V)> {
    if HasKey1(c, k1) || HasKey2(c, k2) then c else c + {(k1, k2, v)}
  }

  ghost function Without1<K1, K2, V>(c: set<(K1, K2, V)>, k1: K1): set<(K1, K2, V)> {
    set t | t in c && t.0 != k1
  }

  ghost function Without2<K1, K2, V>(c: set<(K1, K2, V)>, k2: K2): set<(K1, K2, V)> {
    set t | t in c && t.1 != k2
  }

  /** The value stored under a first key, if any. */
  ghost predicate Holds1<K1, K2, V>(c: set<(K1, K2, V)>, k1: K1, r: Option<V>) {
    match r
    case None => !HasKey1(c, k1)
    case Some(v) => exists t :: t in c && t.0 == k1 && t.2 == v
  }

  ghost predicate Holds2<K1, K2, V>(c: set<(K1, K2, V)>, k2: K2, r: Option<V>) {
    match r
    case None => !HasKey2(c, k2)
    case Some(v) => exists t :: t in c && t.1 == k2 && t.2 == v
  }

  ghost function Written1<K1, K2, V>(c: set<(K1, K2, V)>, k1: K1, v: V): set<(K1, K2, V)> {
    set t | t in c :: if t.0 == k1 then (t.0, t.1, v) else t
  }

  /** Removing by one key takes the same single triple as removing by its other key. */
  lemma RemovalByEitherKey<K1, K2, V>(c: set<(K1, K2, V)>, t: (K1, K2, V))
    requires UniqueKeys(c) && t in c
    ensures Without1(c, t.0) == c - {t} == Without2(c, t.1)
    ensures !HasKey1(c - {t}, t.0) && !HasKey2(c - {t}, t.1)
  {
  }

  /** A key resolves to one answer. */
  lemma LookupIsFunctional<K1, K2, V>(c: set<(K1, K2, V)>, k2: K2, r: Option<V>, r': Option<V>)
    requires UniqueKeys(c) && Holds2(c, k2, r) && Holds2(c, k2, r')
    ensures r == r'
  {
  }

  /** A triple filed is what either of its keys then resolves to, and no other key notices. */
  lemma FiledIsFound<K1, K2, V>(c: set<(K1, K2, V)>, t: (K1, K2, V), k1: K1, k2: K2, r: Option<V>)
    requires UniqueKeys(c) && !HasKey1(c, t.0) && !HasKey2(c, t.1)
    ensures Holds1(Inserted(c, t.0, t.1, t.2), k1, r) <==> if k1 == t.0 then r == Some(t.2) else Holds1(c, k1, r)
    ensures Holds2(Inserted(c, t.0, t.1, t.2), k2, r) <==> if k2 == t.1 then r == Some(t.2) else Holds2(c, k2, r)
  {
    assert t in Inserted(c, t.0, t.1, t.2);
  }

  /** Unique keys survive every operation. */
  lemma KeysStayUnique<K1, K2, V>(c: set<(K1, K2, V)>, k1: K1, k2: K2, v: V)
    requires UniqueKeys(c)
    ensures UniqueKeys(Inserted(c, k1, k2, v)) && UniqueKeys(Without1(c, k1)) && UniqueKeys(Without2(c, k2))
    ensures UniqueKeys(Written1(c, k1, v))
  {
  }

  /** A write through the first key is what the second key then resolves to, and no
      other second key notices. */
  lemma WriteSeenThroughOtherKey<K1, K2, V>(c: set<(K1, K2, V)>, t: (K1, K2, V), v: V, k2: K2, r: Option<V>)
    requires UniqueKeys(c) && t in c
    ensures Holds2(Written1(c, t.0, v), t.1, Some(v))
    ensures k2 != t.1 ==> (Holds2(Written1(c, t.0, v), k2, r) <==> Holds2(c, k2, r))
  {
    var w := Written1(c, t.0, v);
    assert (t.0, t.1, v) in w;
    if k2 != t.1 {
      forall s | s in c && s.1 == k2 ensures s in w {
        assert s.0 != t.0;
      }
      forall s | s in w && s.1 == k2 ensures s in c {
        var u :| u in c && s == (if u.0 == t.0 then (u.0, u.1, v) else u);
        assert u.0 == t.0 ==> u == t;
      }
    }
  }

  // ----- The heap representation -----

  /** A boxed triple. `live` says the box has not been freed yet. */
  class Item<K1, K2, V> {
    const k1: K1
    const k2: K2
    var v: V
    ghost var live: bool

    constructor (k1: K1, k2: K2, v: V)
      ensures this.k1 == k1 && this.k2 == k2 && this.v == v && live
    {
      this.k1, this.k2, this.v := k1, k2, v;
      live := true;
    }

    /** Freeing a box twice would violate the precondition. */
    method Free()
      requires live
      modifies this`live
      ensures !live
    {
      live := false;
    }
  }

  /** A table entry: the pointer its key is read through and the item it stores. */
  datatype Entry<!K1, !K2, !V> = Entry(key: Item<K1, K2, V>, item: Item<K1, K2, V>)

  ghost function ItemsOf<K1, K2, V>(t: seq<Entry<K1, K2, V>>): set<Item<K1, K2, V>> {
    set e | e in t :: e.item
  }

  ghost predicate DistinctItems<K1, K2, V>(t: seq<Entry<K1, K2, V>>) {
    forall i, j :: 0 <= i < j < |t| ==> t[i].item != t[j].item
  }

  /** Every entry's key points into its own item, and no two first keys are equal. */
  ghost predicate Keyed1<K1, K2, V>(t: seq<Entry<K1, K2, V>>) {
    && (forall e :: e in t ==> e.key == e.item)
    && (forall i, j :: 0 <= i < j < |t| ==> t[i].item.k1 != t[j].item.k1)
  }

  ghost predicate Keyed2<K1, K2, V>(t: seq<Entry<K1, K2, V>>) {
    && (forall e :: e in t ==> e.key == e.item)
    && (forall i, j :: 0 <= i < j < |t| ==> t[i].item.k2 != t[j].item.k2)
  }

  /** A table with one entry cut out. */
  function Cut<K1, K2, V>(t: seq<Entry<K1, K2, V>>, at: nat): seq<Entry<K1, K2, V>>
    requires at < |t|
  {
    t[..at] + t[at + 1..]
  }

  /** Cutting an entry out loses its item and no other. */
  lemma CutItems<K1, K2, V>(t: seq<Entry<K1, K2, V>>, at: nat)
    requires at < |t| && DistinctItems(t)
    ensures ItemsOf(Cut(t, at)) == ItemsOf(t) - {t[at].item}
    ensures DistinctItems(Cut(t, at))
  {
  }

  lemma CutKeys<K1, K2, V>(t: seq<Entry<K1, K2, V>>, at: nat)
    requires at < |t|
    ensures Keyed1(t) ==> Keyed1(Cut(t, at)) && DistinctItems(t)
    ensures Keyed2(t) ==> Keyed2(Cut(t, at)) && DistinctItems(t)
  {
    assert forall i :: 0 <= i < |t| - 1 ==> Cut(t, at)[i] == t[if i < at then i else i + 1];
  }

  class MultiMap<K1(==), K2(==), V> {
    var map1: seq<Entry<K1, K2, V>>
    var map2: seq<Entry<K1, K2, V>>

    // Every item ever boxed, and which of them each kind of release freed.
    ghost var born: set<Item<K1, K2, V>>
    ghost var removed: set<Item<K1, K2, V>>
    ghost var dropped: set<Item<K1, K2, V>>

    /** Items boxed and not yet freed. */
    ghost function Live(): set<Item<K1, K2, V>>
      reads this
    {
      born - removed - dropped
    }

    ghost predicate Table1()
      reads this
    {
      ItemsOf(map1) == Live() && Keyed1(map1)
    }

    ghost predicate Table2()
      reads this
    {
      ItemsOf(map2) == Live() && Keyed2(map2)
    }

    /** Each item was freed at most once, and an item is live exactly while unfreed. */
    ghost predicate Accounted()
      reads this, born`live
    {
      && removed <= born && dropped <= born && removed !! dropped
      && forall i :: i in born ==> (i.live <==> i in Live())
    }

    ghost predicate Valid()
      reads this, born`live
    {
      Accounted() && Table1() && Table2()
    }

    ghost function Contents(): set<(K1, K2, V)>
      reads this, born
    {
      set i | i in Live() :: (i.k1, i.k2, i.v)
    }

    constructor ()
      ensures Valid() && Contents() == {} && born == {} && fresh(this)
    {
      map1, map2 := [], [];
      born, removed, dropped := {}, {}, {};
    }

    /** Scans for a first key. Each key compared is read through its pointer, which
        must point into a live item. */
    static method Find1(table: seq<Entry<K1, K2, V>>, k1: K1) returns (at: int)
      requires forall e :: e in table ==> e.key.live
      ensures -1 <= at < |table|
      ensures 0 <= at ==> table[at].key.k1 == k1
      ensures at < 0 ==> forall e :: e in table ==> e.key.k1 != k1
    {
      at := 0;
      while at < |table|
        invariant 0 <= at <= |table|
        invariant forall i :: 0 <= i < at ==> table[i].key.k1 != k1
      {
        if table[at].key.k1 == k1 {
          return;
        }
        at := at + 1;
      }
      at := -1;
    }

    static method Find2(table: seq<Entry<K1, K2, V>>, k2: K2) returns (at: int)
      requires forall e :: e in table ==> e.key.live
      ensures -1 <= at < |table|
      ensures 0 <= at ==> table[at].key.k2 == k2
      ensures at < 0 ==> forall e :: e in table ==> e.key.k2 != k2
    {
      at := 0;
      while at < |table|
        invariant 0 <= at <= |table|
        invariant forall i :: 0 <= i < at ==> table[i].key.k2 != k2
      {
        if table[at].key.k2 == k2 {
          return;
        }
        at := at + 1;
      }
      at := -1;
    }

    /** Every entry of a table is one of the live items and the other way round. */
    lemma EntriesAreLive()
      requires Valid()
      ensures forall e :: e in map1 ==> e.item in Live() && e.key.live
      ensures forall e :: e in map2 ==> e.item in Live() && e.key.live
      ensures forall i :: i in Live() ==> Entry(i, i) in map1 && Entry(i, i) in map2
    {
      forall e | e in map1 ensures e.item in Live() {
        assert e.item in ItemsOf(map1);
      }
      forall e | e in map2 ensures e.item in Live() {
        assert e.item in ItemsOf(map2);
      }
    }

    /** Boxes a triple and records it in both tables. */
    method Link(k1: K1, k2: K2, v: V) returns (item: Item<K1, K2, V>)
      requires Valid()
      requires forall i :: i in Live() ==> i.k1 != k1 && i.k2 != k2
      modifies this
      ensures Valid() && fresh(item) && born == old(born) + {item}
      ensures item.k1 == k1 && item.k2 == k2 && item.v == v
      ensures removed == old(removed) && dropped == old(dropped)
    {
      EntriesAreLive();
      item := new Item(k1, k2, v);
      Grown(map1, item);
      Grown(map2, item);
      map1 := map1 + [Entry(item, item)];
      map2 := map2 + [Entry(item, item)];
      born := born + {item};
      assert Live() == old(Live()) + {item};
    }

    /** Whether either key is taken. */
    method Taken(k1: K1, k2: K2) returns (taken: bool)
      requires Valid()
      ensures taken <==> HasKey1(Contents(), k1) || HasKey2(Contents(), k2)
      ensures !taken ==> forall i :: i in Live() ==> i.k1 != k1 && i.k2 != k2
    {
      EntriesAreLive();
      var at1 := Find1(map1, k1);
      if at1 >= 0 {
        assert (map1[at1].item.k1, map1[at1].item.k2, map1[at1].item.v) in Contents();
        return true;
      }
      var at2 := Find2(map2, k2);
      if at2 >= 0 {
        assert (map2[at2].item.k1, map2[at2].item.k2, map2[at2].item.v) in Contents();
        return true;
      }
      assert forall i :: i in Live() ==> Entry(i, i) in map1 && Entry(i, i) in map2;
      taken := false;
    }

    method Insert(k1: K1, k2: K2, v: V) returns (r: Result<(), (K1, K2, V)>)
      requires Valid()
      modifies this
      ensures Valid() && fresh(born - old(born)) && removed == old(removed) && dropped == old(dropped)
      ensures r.Err? <==> old(HasKey1(Contents(), k1) || HasKey2(Contents(), k2))
      ensures r.Err? ==> r.error == (k1, k2, v) && map1 == old(map1) && map2 == old(map2) && born == old(born)
      ensures r.Ok? ==> exists item :: fresh(item) && born == old(born) + {item}
      ensures Contents() == Inserted(old(Contents()), k1, k2, v)
    {
      var taken := Taken(k1, k2);
      if taken {
        return Err((k1, k2, v));
      }
      var item := Link(k1, k2, v);
      assert Live() == old(Live()) + {item};
      r := Ok(());
    }

    method Get1(k1: K1) returns (r: Option<V>)
      requires Valid()
      ensures Holds1(Contents(), k1, r)
    {
      var item := Get1Mut(k1);
      r := if item == null then None else Some(item.v);
    }

    method Get2(k2: K2) returns (r: Option<V>)
      requires Valid()
      ensures Holds2(Contents(), k2, r)
    {
      var item := GetMut2(k2);
      r := if item == null then None else Some(item.v);
    }

    /** The mutable borrow is the item itself: writing its value writes what both
        tables see. */
    method Get1Mut(k1: K1) returns (item: Item?<K1, K2, V>)
      requires Valid()
      ensures item == null <==> !HasKey1(Contents(), k1)
      ensures item != null ==> item in Live() && item.k1 == k1
    {
      EntriesAreLive();
      var at := Find1(map1, k1);
      if at < 0 {
        return null;
      }
      item := map1[at].item;
      assert (item.k1, item.k2, item.v) in Contents();
    }

    method GetMut2(k2: K2) returns (item: Item?<K1, K2, V>)
      requires Valid()
      ensures item == null <==> !HasKey2(Contents(), k2)
      ensures item != null ==> item in Live() && item.k2 == k2
    {
      EntriesAreLive();
      var at := Find2(map2, k2);
      if at < 0 {
        return null;
      }
      item := map2[at].item;
      assert (item.k1, item.k2, item.v) in Contents();
    }

    /** Items are told apart by either key. */
    lemma ItemsByKey(i: Item<K1, K2, V>, j: Item<K1, K2, V>)
      requires Valid() && i in Live() && j in Live()
      requires i.k1 == j.k1 || i.k2 == j.k2
      ensures i == j
    {
    }

    /** The representation invariant forces unique keys. */
    lemma ContentsUnique()
      requires Valid()
      ensures UniqueKeys(Contents())
    {
    }

    /** Cuts one item's entries out of both tables and frees it. */
    method Unlink(at1: nat, at2: nat)
      requires Valid()
      requires at1 < |map1| && at2 < |map2| && map1[at1].item == map2[at2].item
      modifies this, map1[at1].item`live
      ensures Valid() && born == old(born) && dropped == old(dropped)
      ensures removed == old(removed) + {old(map1[at1].item)} && old(map1[at1].item) in old(Live())
    {
      EntriesAreLive();
      CutKeys(map1, at1);
      CutKeys(map2, at2);
      CutItems(map1, at1);
      CutItems(map2, at2);
      var item := map1[at1].item;
      map1 := Cut(map1, at1);
      map2 := Cut(map2, at2);
      item.Free();
      removed := removed + {item};
      assert Live() == old(Live()) - {item};
    }

    /** Where a first key's item is in each table, if anywhere. As in `remove1`, the second
        table is searched while the item is still live. */
    method Locate1(k1: K1) returns (at1: int, at2: int)
      requires Valid()
      ensures at1 < 0 <==> !HasKey1(Contents(), k1)
      ensures at1 >= 0 ==>
        && at1 < |map1| && 0 <= at2 < |map2|
        && map1[at1].item == map2[at2].item && map1[at1].item in Live() && map1[at1].item.k1 == k1
    {
      EntriesAreLive();
      at2 := -1;
      at1 := Find1(map1, k1);
      if at1 < 0 {
        assert forall i :: i in Live() ==> Entry(i, i) in map1;
        return;
      }
      var item := map1[at1].item;
      assert (item.k1, item.k2, item.v) in Contents();
      at2 := Find2(map2, item.k2);
      assert Entry(item, item) in map2;
      ItemsByKey(item, map2[at2].item);
    }

    method Locate2(k2: K2) returns (at1: int, at2: int)
      requires Valid()
      ensures at2 < 0 <==> !HasKey2(Contents(), k2)
      ensures at2 >= 0 ==>
        && at2 < |map2| && 0 <= at1 < |map1|
        && map1[at1].item == map2[at2].item && map2[at2].item in Live() && map2[at2].item.k2 == k2
    {
      EntriesAreLive();
      at1 := -1;
      at2 := Find2(map2, k2);
      if at2 < 0 {
        assert forall i :: i in Live() ==> Entry(i, i) in map2;
        return;
      }
      var item := map2[at2].item;
      assert (item.k1, item.k2, item.v) in Contents();
      at1 := Find1(map1, item.k1);
      assert Entry(item, item) in map1;
      ItemsByKey(item, map1[at1].item);
    }

    /** Takes the item out of both tables and frees it. */
    method Remove1(k1: K1) returns (r: Option<V>)
      requires Valid()
      modifies this, Live()
      ensures Valid() && born == old(born) && dropped == old(dropped)
      ensures r.Some? <==> old(HasKey1(Contents(), k1))
      ensures Holds1(old(Contents()), k1, r)
      ensures r.None? ==> removed == old(removed)
      ensures r.Some? ==> exists item :: item in old(Live()) && item.k1 == k1 && removed == old(removed) + {item}
      ensures Contents() == Without1(old(Contents()), k1)
    {
      var at1, at2 := Locate1(k1);
      if at1 < 0 {
        return None;
      }
      var item := map1[at1].item;
      assert (item.k1, item.k2, item.v) in Contents();
      forall i | i in Live() && i.k1 == k1 ensures i == item { ItemsByKey(i, item); }
      r := Some(item.v);
      Unlink(at1, at2);
      assert Live() == old(Live()) - {item};
    }

    method Remove2(k2: K2) returns (r: Option<V>)
      requires Valid()
      modifies this, Live()
      ensures Valid() && born == old(born) && dropped == old(dropped)
      ensures r.Some? <==> old(HasKey2(Contents(), k2))
      ensures Holds2(old(Contents()), k2, r)
      ensures r.None? ==> removed == old(removed)
      ensures r.Some? ==> exists item :: item in old(Live()) && item.k2 == k2 && removed == old(removed) + {item}
      ensures Contents() == Without2(old(Contents()), k2)
    {
      var at1, at2 := Locate2(k2);
      if at2 < 0 {
        return None;
      }
      var item := map2[at2].item;
      assert (item.k1, item.k2, item.v) in Contents();
      forall i | i in Live() && i.k2 == k2 ensures i == item { ItemsByKey(i, item); }
      r := Some(item.v);
      Unlink(at1, at2);
      assert Live() == old(Live()) - {item};
    }

    /** No key and no pointer depends on an item's value. */
    method Assign(item: Item<K1, K2, V>, v: V)
      requires Valid() && item in Live()
      modifies item`v
      ensures Valid() && item.v == v
    {
      item.v := v;
      assert Table1() && Table2() && Accounted();
    }

    /** Assigns through the borrow `get1_mut` returns. */
    method Write1(k1: K1, v: V) returns (found: bool)
      requires Valid()
      modifies Live()
      ensures Valid() && found == old(HasKey1(Contents(), k1))
      ensures Contents() == Written1(old(Contents()), k1, v)
    {
      var item := Get1Mut(k1);
      found := item != null;
      if found {
        forall i | i in Live() ensures i.k1 == k1 <==> i == item {
          if i.k1 == k1 {
            ItemsByKey(i, item);
          }
        }
        Assign(item, v);
        WrittenContents(old(Contents()), item);
      }
    }

    /** What the tables mean when one item's value has replaced another. */
    lemma WrittenContents(before: set<(K1, K2, V)>, item: Item<K1, K2, V>)
      requires item in Live()
      requires forall i :: i in Live() && i != item ==> i.k1 != item.k1 && (i.k1, i.k2, i.v) in before
      requires exists w :: (item.k1, item.k2, w) in before
      requires forall t :: t in before ==> t.0 == item.k1 || t in Contents()
      requires forall t :: t in before && t.0 == item.k1 ==> t.1 == item.k2
      ensures Contents() == Written1(before, item.k1, item.v)
    {
      var written := Written1(before, item.k1, item.v);
      forall i | i in Live() ensures (i.k1, i.k2, i.v) in written {
      }
      assert Contents() <= written;
      assert (item.k1, item.k2, item.v) in Contents();
      assert written <= Contents();
    }

    /** One step of draining the second table. */
    method FreeFirst()
      requires Accounted() && ItemsOf(map2) == Live() && DistinctItems(map2) && map2 != []
      modifies this, map2[0].item`live
      ensures Accounted() && ItemsOf(map2) == Live() && DistinctItems(map2) && |map2| < |old(map2)|
      ensures born == old(born) && removed == old(removed) && map1 == old(map1)
      ensures old(map2[0].item) in old(Live()) && dropped == old(dropped) + {old(map2[0].item)}
    {
      var item := map2[0].item;
      assert item in ItemsOf(map2);
      CutItems(map2, 0);
      assert map2[1..] == Cut(map2, 0);
      map2 := map2[1..];
      item.Free();
      dropped := dropped + {item};
    }

    /** `Drop`: clears the first table, then drains the second and frees each item.
        Everything ever boxed has then been freed, exactly once. */
    method Drop()
      requires Valid()
      modifies this, Live()
      ensures Valid() && Contents() == {} && map1 == [] && map2 == []
      ensures born == old(born) && removed == old(removed)
      ensures dropped == old(dropped + Live())
      ensures born == removed + dropped && removed !! dropped
      ensures forall i :: i in born ==> !i.live
    {
      EntriesAreLive();
      map1 := [];
      ghost var all := Live();
      while map2 != []
        invariant forall e :: e in map2 ==> e.item in Live()
        invariant born == old(born) && removed == old(removed) && map1 == []
        invariant Accounted() && ItemsOf(map2) == Live() && DistinctItems(map2) && Live() <= all
        invariant dropped == old(dropped) + (all - Live())
        invariant forall i :: i in born && i !in all ==> !i.live
        modifies this, all
        decreases |map2|
      {
        FreeFirst();
      }
      assert ItemsOf(map2) == {};
    }

    static lemma Grown(t: seq<Entry<K1, K2, V>>, item: Item<K1, K2, V>)
      ensures ItemsOf(t + [Entry(item, item)]) == ItemsOf(t) + {item}
    {
    }
  }

  // ----- Whole runs -----

  datatype Call<K1, K2, V> =
    | Insert(k1: K1, k2: K2, v: V)
    | Get1(k1: K1)
    | Get2(k2: K2)
    | Write1(k1: K1, v: V)
    | Remove1(k1: K1)
    | Remove2(k2: K2)

  /** What a call returned: whether it succeeded, and the value it read or took out. */
  datatype Answer<V> = Answer(ok: bool, found: Option<V>)

  /** The answer a call must give on contents `c`, and the contents it must leave. */
  ghost predicate Obeys<K1, K2, V>(c: set<(K1, K2, V)>, call: Call<K1, K2, V>, a: Answer<V>, c': set<(K1, K2, V)>) {
    match call
    case Insert(k1, k2, v) =>
      c' == Inserted(c, k1, k2, v) && (a.ok <==> !HasKey1(c, k1) && !HasKey2(c, k2))
    case Get1(k1) => c' == c && Holds1(c, k1, a.found) && a.ok == a.found.Some?
    case Get2(k2) => c' == c && Holds2(c, k2, a.found) && a.ok == a.found.Some?
    case Write1(k1, v) => c' == Written1(c, k1, v) && (a.ok <==> HasKey1(c, k1))
    case Remove1(k1) => c' == Without1(c, k1) && Holds1(c, k1, a.found) && a.ok == a.found.Some?
    case Remove2(k2) => c' == Without2(c, k2) && Holds2(c, k2, a.found) && a.ok == a.found.Some?
  }

  /** How many of the calls succeeded that insert, or that remove. */
  function Successes<K1, K2, V>(calls: seq<Call<K1, K2, V>>, answers: seq<Answer<V>>, inserts: bool): nat
    requires |calls| == |answers|
  {
    if calls == [] then
      0
    else
      var n := |calls| - 1;
      var kind := if inserts then calls[n].Insert? else calls[n].Remove1? || calls[n].Remove2?;
      Successes(calls[..n], answers[..n], inserts) + if kind && answers[n].ok then 1 else 0
  }

  method Perform<K1(==), K2(==), V>(m: MultiMap<K1, K2, V>, call: Call<K1, K2, V>) returns (a: Answer<V>)
    requires m.Valid()
    modifies m, m.Live()
    ensures m.Valid() && fresh(m.born - old(m.born)) && m.dropped == old(m.dropped)
    ensures old(m.born) <= m.born && old(m.removed) <= m.removed
    ensures |m.born| == |old(m.born)| + if call.Insert? && a.ok then 1 else 0
    ensures |m.removed| == |old(m.removed)| + if (call.Remove1? || call.Remove2?) && a.ok then 1 else 0
    ensures Obeys(old(m.Contents()), call, a, m.Contents())
  {
    match call
    case Insert(k1, k2, v) =>
      var r := m.Insert(k1, k2, v);
      a := Answer(r.Ok?, None);
    case Get1(k1) =>
      var found := m.Get1(k1);
      a := Answer(found.Some?, found);
    case Get2(k2) =>
      var found := m.Get2(k2);
      a := Answer(found.Some?, found);
    case Write1(k1, v) =>
      var ok := m.Write1(k1, v);
      a := Answer(ok, None);
    case Remove1(k1) =>
      var found := m.Remove1(k1);
      a := Answer(found.Some?, found);
    case Remove2(k2) =>
      var found := m.Remove2(k2);
      a := Answer(found.Some?, found);
  }

  /** `trace` is the contents before the first call, between calls and after the last:
      each call is answered and changes them as it must, keys stay unique throughout, and
      so many boxes were made and freed. */
  ghost predicate Logged<K1, K2, V>(calls: seq<Call<K1, K2, V>>, answers: seq<Answer<V>>, trace: seq<set<(K1, K2, V)>>,
                                    boxed: nat, freed: nat) {
    && |answers| == |calls| && |trace| == |calls| + 1 && trace[0] == {}
    && (forall i :: 0 <= i < |calls| ==> Obeys(trace[i], calls[i], answers[i], trace[i + 1]))
    && (forall c :: c in trace ==> UniqueKeys(c))
    && boxed == Successes(calls, answers, true) && freed == Successes(calls, answers, false)
  }

  lemma LogExtends<K1, K2, V>(calls: seq<Call<K1, K2, V>>, answers: seq<Answer<V>>, trace: seq<set<(K1, K2, V)>>,
                              boxed: nat, freed: nat, call: Call<K1, K2, V>, a: Answer<V>, c: set<(K1, K2, V)>)
    requires Logged(calls, answers, trace, boxed, freed)
    requires Obeys(trace[|calls|], call, a, c) && UniqueKeys(c)
    ensures Logged(calls + [call], answers + [a], trace + [c],
                   boxed + (if call.Insert? && a.ok then 1 else 0),
                   freed + (if (call.Remove1? || call.Remove2?) && a.ok then 1 else 0))
  {
    var n := |calls|;
    assert (calls + [call])[..n] == calls && (answers + [a])[..n] == answers;
    forall i | 0 <= i < n + 1
      ensures Obeys((trace + [c])[i], (calls + [call])[i], (answers + [a])[i], (trace + [c])[i + 1])
    {
      if i < n {
        assert Obeys(trace[i], calls[i], answers[i], trace[i + 1]);
      }
    }
  }

  /** One more call on a registry whose history is logged. */
  method PerformLogged<K1(==), K2(==), V>(m: MultiMap<K1, K2, V>, call: Call<K1, K2, V>,
                                          ghost calls: seq<Call<K1, K2, V>>, answers: seq<Answer<V>>,
                                          ghost trace: seq<set<(K1, K2, V)>>)
    returns (a: Answer<V>)
    requires m.Valid() && m.dropped == {}
    requires Logged(calls, answers, trace, |m.born|, |m.removed|) && trace[|calls|] == m.Contents()
    modifies m, m.Live()
    ensures m.Valid() && fresh(m.born - old(m.born)) && m.dropped == {}
    ensures Logged(calls + [call], answers + [a], trace + [m.Contents()], |m.born|, |m.removed|)
  {
    ghost var boxed, freed := |m.born|, |m.removed|;
    a := Perform(m, call);
    m.ContentsUnique();
    LogExtends(calls, answers, trace, boxed, freed, call, a, m.Contents());
  }

  /** Any sequence of calls on an empty registry. */
  method RunAll<K1(==), K2(==), V>(m: MultiMap<K1, K2, V>, calls: seq<Call<K1, K2, V>>)
    returns (answers: seq<Answer<V>>, ghost trace: seq<set<(K1, K2, V)>>)
    requires m.Valid() && m.born == {}
    modifies m
    ensures m.Valid() && fresh(m.born) && m.dropped == {}
    ensures Logged(calls, answers, trace, |m.born|, |m.removed|)
  {
    answers := [];
    trace := [m.Contents()];
    for n := 0 to |calls|
      invariant m.Valid() && fresh(m.born) && m.dropped == {}
      invariant Logged(calls[..n], answers, trace, |m.born|, |m.removed|) && trace[n] == m.Contents()
    {
      var a := PerformLogged(m, calls[n], calls[..n], answers, trace);
      answers := answers + [a];
      trace := trace + [m.Contents()];
      assert calls[..n + 1] == calls[..n] + [calls[n]];
    }
    assert calls[..|calls|] == calls;
  }

  /** Any sequence of calls on a new registry, ending in `Drop`, answers every call as
      the set of triples does, makes one box for each successful insertion, frees one for
      each successful removal, and frees every box it made exactly once. */
  method RunAndDrop<K1(==), K2(==), V>(calls: seq<Call<K1, K2, V>>)
    returns (answers: seq<Answer<V>>, m: MultiMap<K1, K2, V>, ghost trace: seq<set<(K1, K2, V)>>)
    ensures |answers| == |calls| && |trace| == |calls| + 1 && trace[0] == {}
    ensures forall i :: 0 <= i < |calls| ==> Obeys(trace[i], calls[i], answers[i], trace[i + 1])
    ensures forall c :: c in trace ==> UniqueKeys(c)
    ensures m.Valid() && |m.born| == |m.removed| + |m.dropped|
    ensures |m.born| == Successes(calls, answers, true) && |m.removed| == Successes(calls, answers, false)
    ensures m.removed !! m.dropped && m.born == m.removed + m.dropped
    ensures forall i :: i in m.born ==> !i.live
  {
    m := new MultiMap();
    answers, trace := RunAll(m, calls);
    m.Drop();
  }
}
