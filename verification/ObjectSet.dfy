/** The set of wanted objects and its two indexes (pkg/apply/objectset/objectset.go). */
module ObjectSet {
  import opened Base
  import opened Kinds
  import opened Json

  datatype Entry = Entry(gvk: GVK, key: ObjectKey, doc: Fields)

  /** What a caller hands in: nothing, an object of a kind the scheme knows, or one it does not. */
  datatype Item = Nil | Known(entry: Entry) | Unknown(error: string)

  type ByKey = map<ObjectKey, Fields>

  function Find<K>(index: map<K, ByKey>, k: K, key: ObjectKey): Option<Fields> {
    if k in index && key in index[k] then Some(index[k][key]) else None
  }

  function Put<K>(index: map<K, ByKey>, k: K, key: ObjectKey, doc: Fields): map<K, ByKey> {
    index[k := (if k in index then index[k] else map[])[key := doc]]
  }

  // ---------------------------------------------------------------- what the insertion history says

  /** The last object added under this version and key. */
  function LatestOfVersion(order: seq<Entry>, gvk: GVK, key: ObjectKey): Option<Fields> {
    if order == [] then None
    else
      var last := order[|order| - 1];
      if last.gvk == gvk && last.key == key then Some(last.doc)
      else LatestOfVersion(order[..|order| - 1], gvk, key)
  }

  /** The last object added under this key in any version of the kind. */
  function LatestOfKind(order: seq<Entry>, gk: GroupKind, key: ObjectKey): Option<Fields> {
    if order == [] then None
    else
      var last := order[|order| - 1];
      if last.gvk.GroupKind() == gk && last.key == key then Some(last.doc)
      else LatestOfKind(order[..|order| - 1], gk, key)
  }

  /** The versions in the order they were first added. */
  function FirstSeen(order: seq<Entry>): seq<GVK> {
    if order == [] then []
    else
      var before := FirstSeen(order[..|order| - 1]);
      var gvk := order[|order| - 1].gvk;
      if gvk in before then before else before + [gvk]
  }

  predicate NoRepeats<T(==)>(s: seq<T>) {
    forall i, j | 0 <= i < j < |s| :: s[i] != s[j]
  }

  lemma {:induction false} FirstSeenEnumerates(order: seq<Entry>)
    ensures NoRepeats(FirstSeen(order))
    ensures forall gvk :: gvk in FirstSeen(order) <==> exists i :: 0 <= i < |order| && order[i].gvk == gvk
  {
    if order != [] {
      var init := order[..|order| - 1];
      FirstSeenEnumerates(init);
      forall gvk
        ensures gvk in FirstSeen(order) <==> exists i :: 0 <= i < |order| && order[i].gvk == gvk
      {
        if gvk in FirstSeen(init) {
          var i :| 0 <= i < |init| && init[i].gvk == gvk;
          assert order[i].gvk == gvk;
        }
        if exists i :: 0 <= i < |order| && order[i].gvk == gvk {
          var i :| 0 <= i < |order| && order[i].gvk == gvk;
          assert i < |init| ==> init[i].gvk == gvk;
        }
      }
    }
  }

  /** Insertion order first: a version first added earlier is listed earlier. */
  lemma {:induction false} FirstSeenKeepsOrder(order: seq<Entry>, n: nat)
    requires n <= |order|
    ensures FirstSeen(order[..n]) <= FirstSeen(order)
    decreases |order|
  {
    if n < |order| {
      var init := order[..|order| - 1];
      FirstSeenKeepsOrder(init, n);
      assert init[..n] == order[..n];
    } else {
      assert order[..n] == order;
    }
  }

  /** The kind index knows a key exactly when some version of the kind has it. */
  lemma {:induction false} IndexesAgree(order: seq<Entry>, gk: GroupKind, key: ObjectKey)
    ensures LatestOfKind(order, gk, key).Some? <==>
            exists gvk: GVK :: gvk.GroupKind() == gk && LatestOfVersion(order, gvk, key).Some?
    ensures LatestOfKind(order, gk, key).Some? ==>
            exists gvk: GVK :: gvk.GroupKind() == gk && LatestOfVersion(order, gvk, key) == LatestOfKind(order, gk, key)
  {
    if order != [] {
      var init := order[..|order| - 1];
      var last := order[|order| - 1];
      IndexesAgree(init, gk, key);
      if last.key == key && last.gvk.GroupKind() == gk {
        assert LatestOfVersion(order, last.gvk, key) == Some(last.doc);
      } else {
        forall gvk: GVK | gvk.GroupKind() == gk
          ensures LatestOfVersion(order, gvk, key) == LatestOfVersion(init, gvk, key)
        {
        }
      }
    }
  }

  /** An object stays in the set, under its version and its kind, until one is added that takes its place. */
  lemma {:induction false} LastAddedStays(order: seq<Entry>, i: nat)
    requires i < |order|
    ensures (forall j | i < j < |order| :: order[j].gvk != order[i].gvk || order[j].key != order[i].key) ==>
              LatestOfVersion(order, order[i].gvk, order[i].key) == Some(order[i].doc)
    ensures (forall j | i < j < |order| ::
               order[j].gvk.GroupKind() != order[i].gvk.GroupKind() || order[j].key != order[i].key) ==>
              LatestOfKind(order, order[i].gvk.GroupKind(), order[i].key) == Some(order[i].doc)
    decreases |order|
  {
    if i < |order| - 1 {
      LastAddedStays(order[..|order| - 1], i);
    }
  }

  ghost predicate ByVersion(index: map<GVK, ByKey>, order: seq<Entry>) {
    forall gvk, key :: Find(index, gvk, key) == LatestOfVersion(order, gvk, key)
  }

  ghost predicate ByKind(index: map<GroupKind, ByKey>, order: seq<Entry>) {
    forall gk, key :: Find(index, gk, key) == LatestOfKind(order, gk, key)
  }

  lemma VersionsGrow(index: map<GVK, ByKey>, order: seq<Entry>, entry: Entry)
    requires ByVersion(index, order)
    ensures ByVersion(Put(index, entry.gvk, entry.key, entry.doc), order + [entry])
  {
    assert (order + [entry])[..|order|] == order;
  }

  lemma KindsGrow(index: map<GroupKind, ByKey>, order: seq<Entry>, entry: Entry)
    requires ByKind(index, order)
    ensures ByKind(Put(index, entry.gvk.GroupKind(), entry.key, entry.doc), order + [entry])
  {
    assert (order + [entry])[..|order|] == order;
  }

  // ---------------------------------------------------------------- the set

  /** The two indexes as values. */
  datatype SetView = SetView(objects: map<GVK, ByKey>, byKind: map<GroupKind, ByKey>) {
    function OfVersion(gvk: GVK): ByKey {
      if gvk in objects then objects[gvk] else map[]
    }

    function KindKeys(gk: GroupKind): set<ObjectKey> {
      if gk in byKind then byKind[gk].Keys else {}
    }

    /** A kind has a key exactly when one of its versions has it. */
    ghost predicate Agreeing() {
      forall gk, key :: key in KindKeys(gk) <==> exists gvk: GVK :: gvk.GroupKind() == gk && key in OfVersion(gvk)
    }
  }

  lemma IndexesAreAgreeing(view: SetView, order: seq<Entry>)
    requires ByVersion(view.objects, order) && ByKind(view.byKind, order)
    ensures view.Agreeing()
  {
    forall gk, key
      ensures key in view.KindKeys(gk) <==> exists gvk: GVK :: gvk.GroupKind() == gk && key in view.OfVersion(gvk)
    {
      IndexesAgree(order, gk, key);
      assert key in view.KindKeys(gk) <==> Find(view.byKind, gk, key).Some?;
      assert forall gvk :: key in view.OfVersion(gvk) <==> Find(view.objects, gvk, key).Some?;
      assert forall gvk :: Find(view.objects, gvk, key) == LatestOfVersion(order, gvk, key);
    }
  }

  class ObjectSet {
    var objects: map<GVK, ByKey>
    var objectsByGK: map<GroupKind, ByKey>
    var order: seq<Entry>
    var gvkOrder: seq<GVK>
    var gvkSeen: set<GVK>

    /** Both indexes, and the order of versions, are what the history of additions makes them. */
    ghost predicate Valid()
      reads this
    {
      && ByVersion(objects, order) && ByKind(objectsByGK, order)
      && gvkOrder == FirstSeen(order)
      && (forall gvk :: gvk in gvkSeen <==> gvk in gvkOrder)
    }

    function View(): SetView
      reads this
    {
      SetView(objects, objectsByGK)
    }

    constructor ()
      ensures Valid() && order == []
    {
      objects, objectsByGK, order, gvkOrder, gvkSeen := map[], map[], [], [], {};
    }

    method Add(item: Item) returns (error: Option<string>)
      requires Valid()
      modifies this
      ensures Valid()
      ensures match item
              case Nil => error == None && order == old(order)
              case Unknown(e) => error == Some(e) && order == old(order)
              case Known(entry) => error == None && order == old(order) + [entry]
    {
      if item.Nil? {
        return None;
      }
      if item.Unknown? {
        return Some(item.error);
      }
      var entry := item.entry;
      ghost var before := order;
      VersionsGrow(objects, order, entry);
      KindsGrow(objectsByGK, order, entry);
      objects := Put(objects, entry.gvk, entry.key, entry.doc);
      objectsByGK := Put(objectsByGK, entry.gvk.GroupKind(), entry.key, entry.doc);
      order := order + [entry];
      assert order[..|order| - 1] == before;
      if entry.gvk !in gvkSeen {
        gvkSeen := gvkSeen + {entry.gvk};
        gvkOrder := gvkOrder + [entry.gvk];
      }
      return None;
    }

    /** Adds until the first object of an unknown kind. */
    method AddAll(items: seq<Item>) returns (error: Option<string>)
      requires Valid()
      modifies this
      ensures Valid()
      ensures exists n :: 0 <= n <= |items| && order == old(order) + Entries(items[..n]) &&
                          (if error == None then n == |items| else n < |items| && items[n] == Unknown(error.value))
      ensures error == None <==> forall i | 0 <= i < |items| :: !items[i].Unknown?
    {
      for i := 0 to |items|
        invariant Valid() && order == old(order) + Entries(items[..i])
        invariant forall k | 0 <= k < i :: !items[k].Unknown?
      {
        error := Add(items[i]);
        assert items[..i + 1][..i] == items[..i];
        if error != None {
          return;
        }
      }
      assert items[..|items|] == items;
      error := None;
    }

    function Contains(gk: GroupKind, key: ObjectKey): (found: bool)
      requires Valid()
      reads this
      ensures found <==> exists gvk: GVK :: gvk.GroupKind() == gk && Find(objects, gvk, key).Some?
    {
      IndexesAgree(order, gk, key);
      assert forall gvk :: Find(objects, gvk, key) == LatestOfVersion(order, gvk, key);
      Find(objectsByGK, gk, key).Some?
    }

    /** Every version to process once: those added, in order of first addition, then the other known ones by text. */
    method GVKOrder(known: seq<GVK>) returns (all: seq<GVK>)
      requires Valid() && NoRepeats(known)
      ensures NoRepeats(all) && gvkOrder <= all
      ensures forall gvk :: gvk in all <==> gvk in known || exists i :: 0 <= i < |order| && order[i].gvk == gvk
      ensures Ordered(all[|gvkOrder|..], (g: GVK) => g.Text())
    {
      var rest := [];
      for i := 0 to |known|
        invariant NoRepeats(rest)
        invariant forall g :: g in rest <==> g in known[..i] && g !in gvkSeen
      {
        assert known[..i + 1] == known[..i] + [known[i]];
        if known[i] !in gvkSeen {
          assert known[i] !in known[..i];
          rest := rest + [known[i]];
        }
      }
      assert known[..|known|] == known;
      var sorted := SortByText(rest, (g: GVK) => g.Text());
      SortedKeepsElements(rest, sorted);
      FirstSeenEnumerates(order);
      all := gvkOrder + sorted;
      forall i, j | 0 <= i < j < |all| ensures all[i] != all[j] {
        if i < |gvkOrder| <= j {
          assert all[i] in gvkOrder && all[j] == sorted[j - |gvkOrder|] && all[j] in sorted;
        }
      }
    }
  }

  function Entries(items: seq<Item>): seq<Entry> {
    if items == [] then []
    else Entries(items[..|items| - 1]) + (if items[|items| - 1].Known? then [items[|items| - 1].entry] else [])
  }

  lemma SortedKeepsElements<T>(a: seq<T>, b: seq<T>)
    requires multiset(a) == multiset(b) && NoRepeats(a)
    ensures NoRepeats(b) && forall x :: x in a <==> x in b
  {
    forall x ensures x in a <==> x in b {
      assert x in multiset(a) <==> x in multiset(b);
    }
    forall i, j | 0 <= i < j < |b| ensures b[i] != b[j] {
      if b[i] == b[j] {
        TwiceCounts(b, i, j);
        OnceCounts(a, b[i]);
      }
    }
  }

  lemma TwiceCounts<T>(s: seq<T>, i: nat, j: nat)
    requires i < j < |s| && s[i] == s[j]
    ensures multiset(s)[s[i]] >= 2
  {
    assert s == s[..j] + [s[j]] + s[j + 1..];
    assert s[i] in s[..j];
    assert multiset(s) == multiset(s[..j]) + multiset{s[j]} + multiset(s[j + 1..]);
  }

  lemma {:induction false} OnceCounts<T>(s: seq<T>, x: T)
    requires NoRepeats(s)
    ensures multiset(s)[x] <= 1
  {
    if s != [] {
      assert s == [s[0]] + s[1..];
      OnceCounts(s[1..], x);
      if s[0] == x {
        assert x !in s[1..];
      }
    }
  }
}
