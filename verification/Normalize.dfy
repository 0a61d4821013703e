/**
 Owner references and namespaces of the wanted objects: `assignOwnerReference`, `adjustNamespace`
 and `clearNamespace` (pkg/apply/desiredset_process.go:25-120). The loops delete and insert entries
 of the map they range over: Go visits every remaining entry once, in any order, and may or may not
 visit an entry inserted on the way.
 */
module Normalize {
  import opened Base
  import opened Kinds
  import opened Json
  import opened Sanitize
  import opened ObjectSet

  const ANNOTATION_PRUNE := "apply.acorn.io/prune"

  // ---------------------------------------------------------------- objects

  function AnnotationOf(doc: Fields, name: string): string {
    TextOf(Get(Annotations(doc), name))
  }

  predicate Should(doc: Fields, name: string) {
    AnnotationOf(doc, name) != "false"
  }

  function NamespaceOf(doc: Fields): string {
    TextOf(Get(Metadata(doc), "namespace"))
  }

  function SetNamespace(doc: Fields, namespace: string): Fields {
    doc["metadata" := Obj(if namespace == "" then Metadata(doc) - {"namespace"}
                          else Metadata(doc)["namespace" := Str(namespace)])]
  }

  function OwnerRefs(doc: Fields): seq<Json> {
    var refs := Get(Metadata(doc), "ownerReferences");
    if refs.Some? && refs.value.Arr? then refs.value.items else []
  }

  function RefUID(ref: Json): string {
    TextOf(Get(FieldsOf(Some(ref)), "uid"))
  }

  datatype Owner = Owner(gvk: GVK, namespaced: bool, namespace: string, name: string, uid: string)

  function RefTo(owner: Owner): Json {
    Obj(map["apiVersion" := Str(ApiVersion(owner.gvk)), "kind" := Str(owner.gvk.kind), "name" := Str(owner.name),
            "uid" := Str(owner.uid), "controller" := Bool(true), "blockOwnerDeletion" := Bool(true)])
  }

  predicate Refers(doc: Fields, uid: string) {
    exists i :: 0 <= i < |OwnerRefs(doc)| && RefUID(OwnerRefs(doc)[i]) == uid
  }

  function WithRef(doc: Fields, owner: Owner): Fields {
    if !Refers(doc, owner.uid) && owner.uid != "" && Should(doc, ANNOTATION_PRUNE) then
      doc["metadata" := Obj(Metadata(doc)["ownerReferences" := Arr(OwnerRefs(doc) + [RefTo(owner)])])]
    else doc
  }

  // ---------------------------------------------------------------- one visit

  /** An entry an owner may not point from: another scope or another namespace. */
  predicate OutOfReach(owner: Owner, childNamespaced: bool, key: ObjectKey) {
    owner.namespaced &&
    (!childNamespaced || (key.namespace != "" && key.namespace != owner.namespace))
  }

  predicate TakesNamespace(owner: Owner, childNamespaced: bool, key: ObjectKey) {
    childNamespaced && key.namespace == ""
  }

  function OwnedKey(owner: Owner, childNamespaced: bool, key: ObjectKey): ObjectKey {
    if TakesNamespace(owner, childNamespaced, key) then key.(namespace := owner.namespace) else key
  }

  function OwnedDoc(owner: Owner, childNamespaced: bool, key: ObjectKey, doc: Fields): Fields {
    if OutOfReach(owner, childNamespaced, key) then doc
    else WithRef(if TakesNamespace(owner, childNamespaced, key) then SetNamespace(doc, owner.namespace) else doc, owner)
  }

  lemma WithRefTwice(doc: Fields, owner: Owner)
    ensures WithRef(WithRef(doc, owner), owner) == WithRef(doc, owner)
  {
    var d := WithRef(doc, owner);
    if d != doc {
      assert OwnerRefs(d) == OwnerRefs(doc) + [RefTo(owner)];
      assert RefUID(OwnerRefs(d)[|OwnerRefs(doc)|]) == owner.uid;
    }
  }

  lemma SetNamespaceTwice(doc: Fields, owner: Owner, namespace: string)
    ensures SetNamespace(SetNamespace(doc, namespace), namespace) == SetNamespace(doc, namespace)
    ensures NamespaceOf(SetNamespace(doc, namespace)) == namespace
    ensures NamespaceOf(WithRef(doc, owner)) == NamespaceOf(doc)
    ensures doc == SetNamespace(doc, namespace) ==> SetNamespace(WithRef(doc, owner), namespace) == WithRef(doc, owner)
  {
    var once := SetNamespace(doc, namespace);
    assert Metadata(SetNamespace(once, namespace)) == Metadata(once);
    if doc == SetNamespace(doc, namespace) {
      var d := WithRef(doc, owner);
      assert Metadata(SetNamespace(d, namespace)) == Metadata(d);
    }
  }

  /** Visiting the outcome of a visit changes nothing. */
  lemma OwnedTwice(owner: Owner, childNamespaced: bool, key: ObjectKey, doc: Fields)
    ensures var k := OwnedKey(owner, childNamespaced, key); var d := OwnedDoc(owner, childNamespaced, key, doc);
            !OutOfReach(owner, childNamespaced, key) ==>
              OwnedKey(owner, childNamespaced, k) == k && OwnedDoc(owner, childNamespaced, k, d) == d
  {
    var moved := if TakesNamespace(owner, childNamespaced, key) then SetNamespace(doc, owner.namespace) else doc;
    WithRefTwice(moved, owner);
    SetNamespaceTwice(doc, owner, owner.namespace);
    SetNamespaceTwice(moved, owner, owner.namespace);
  }

  // ---------------------------------------------------------------- the whole map

  /** The entry that ends up under `key` by being given the owner's namespace, if the set has one. */
  function Source(owner: Owner, childNamespaced: bool, objs: ByKey, key: ObjectKey): Option<ObjectKey> {
    var source := ObjectKey("", key.name);
    if childNamespaced && owner.namespace != "" && key.namespace == owner.namespace && source in objs
    then Some(source) else None
  }

  /** An entry that leaves its key. */
  predicate Moves(owner: Owner, childNamespaced: bool, key: ObjectKey) {
    childNamespaced && key.namespace == "" && owner.namespace != ""
  }

  /** What is under `key` while the entries in `pending` have not been visited. */
  function During(owner: Owner, childNamespaced: bool, objs: ByKey, pending: set<ObjectKey>,
                  key: ObjectKey): Option<Fields> {
    var source := Source(owner, childNamespaced, objs, key);
    if Moves(owner, childNamespaced, key) then
      (if key in pending && key in objs then Some(objs[key]) else None)
    else if source.Some? && source.value !in pending then
      Some(OwnedDoc(owner, childNamespaced, source.value, objs[source.value]))
    else if key in objs then
      Some(if key in pending then objs[key] else OwnedDoc(owner, childNamespaced, key, objs[key]))
    else
      None
  }

  /** The map once every entry has been visited. */
  function Owned(owner: Owner, childNamespaced: bool, objs: ByKey): ByKey {
    map k | k in objs.Keys + (set q | q in objs :: OwnedKey(owner, childNamespaced, q)) &&
            During(owner, childNamespaced, objs, {}, k).Some? ::
      During(owner, childNamespaced, objs, {}, k).value
  }

  /** The map after `adjustNamespace`. */
  function Adjusted(namespace: string, objs: ByKey): ByKey {
    map k | k in objs.Keys + (set q | q in objs :: ObjectKey(namespace, q.name)) &&
            AdjustedAt(namespace, objs, {}, k).Some? ::
      AdjustedAt(namespace, objs, {}, k).value
  }

  function AdjustedAt(namespace: string, objs: ByKey, pending: set<ObjectKey>, key: ObjectKey): Option<Fields> {
    var source := ObjectKey("", key.name);
    if key.namespace == "" && namespace != "" then
      (if key in pending && key in objs then Some(objs[key]) else None)
    else if key.namespace == namespace && source in objs && source !in pending then
      Some(SetNamespace(objs[source], namespace))
    else if key in objs then Some(objs[key])
    else None
  }

  /** The map after `key` has been visited. */
  function Visited(owner: Owner, childNamespaced: bool, entries: ByKey, key: ObjectKey): ByKey
    requires key in entries
  {
    if OutOfReach(owner, childNamespaced, key) then entries
    else (entries - {key})[OwnedKey(owner, childNamespaced, key) := OwnedDoc(owner, childNamespaced, key, entries[key])]
  }

  ghost predicate IsDuring(owner: Owner, childNamespaced: bool, objs: ByKey, pending: set<ObjectKey>, entries: ByKey) {
    forall q :: Get(entries, q) == During(owner, childNamespaced, objs, pending, q)
  }

  lemma FirstVisit(owner: Owner, childNamespaced: bool, objs: ByKey, pending: set<ObjectKey>, entries: ByKey,
                   key: ObjectKey)
    requires IsDuring(owner, childNamespaced, objs, pending, entries)
    requires key in pending && key in entries && pending <= objs.Keys
    ensures IsDuring(owner, childNamespaced, objs, pending - {key}, Visited(owner, childNamespaced, entries, key))
  {
    var after := Visited(owner, childNamespaced, entries, key);
    var moved := OwnedKey(owner, childNamespaced, key);
    var source := Source(owner, childNamespaced, objs, key);
    assert Get(entries, key) == During(owner, childNamespaced, objs, pending, key);
    if source.Some? {
      OwnedTwice(owner, childNamespaced, source.value, objs[source.value]);
    }
    forall q ensures Get(after, q) == During(owner, childNamespaced, objs, pending - {key}, q) {
      assert Get(entries, q) == During(owner, childNamespaced, objs, pending, q);
      if q != key && q != moved {
        assert Source(owner, childNamespaced, objs, q) != Some(key);
      }
    }
  }

  lemma LaterVisit(owner: Owner, childNamespaced: bool, objs: ByKey, pending: set<ObjectKey>, entries: ByKey,
                   key: ObjectKey)
    requires IsDuring(owner, childNamespaced, objs, pending, entries)
    requires key !in pending && key in entries && pending <= objs.Keys
    ensures Visited(owner, childNamespaced, entries, key) == entries
    ensures OwnedKey(owner, childNamespaced, key) == key
  {
    assert Get(entries, key) == During(owner, childNamespaced, objs, pending, key);
    var source := Source(owner, childNamespaced, objs, key);
    if source.Some? {
      var s := source.value;
      OwnedTwice(owner, childNamespaced, s, objs[s]);
      if s in pending {
        assert key in objs && entries[key] == OwnedDoc(owner, childNamespaced, key, objs[key]);
        OwnedTwice(owner, childNamespaced, key, objs[key]);
      } else {
        assert entries[key] == OwnedDoc(owner, childNamespaced, s, objs[s]) &&
                 OwnedKey(owner, childNamespaced, s) == key;
      }
    } else {
      assert entries[key] == OwnedDoc(owner, childNamespaced, key, objs[key]);
      OwnedTwice(owner, childNamespaced, key, objs[key]);
      assert OwnedKey(owner, childNamespaced, key) == key;
    }
    assert OutOfReach(owner, childNamespaced, key) ||
             OwnedDoc(owner, childNamespaced, key, entries[key]) == entries[key];
    assert (entries - {key})[key := entries[key]] == entries;
  }

  /** Half way through the range: `unvisited` entries are as they were, `pending` ones are still to come. */
  ghost predicate Ranging(owner: Owner, childNamespaced: bool, objs: ByKey,
                          unvisited: set<ObjectKey>, pending: set<ObjectKey>, entries: ByKey) {
    unvisited <= pending <= entries.Keys && unvisited <= objs.Keys &&
        IsDuring(owner, childNamespaced, objs, unvisited, entries)
  }

  lemma RangeStart(owner: Owner, childNamespaced: bool, objs: ByKey)
    ensures Ranging(owner, childNamespaced, objs, objs.Keys, objs.Keys, objs)
  {
  }

  lemma RangeOn(owner: Owner, childNamespaced: bool, objs: ByKey,
                unvisited: set<ObjectKey>, pending: set<ObjectKey>, entries: ByKey, key: ObjectKey)
    requires Ranging(owner, childNamespaced, objs, unvisited, pending, entries) && key in pending
    ensures var after := Visited(owner, childNamespaced, entries, key);
            var moved := OwnedKey(owner, childNamespaced, key);
            && Ranging(owner, childNamespaced, objs, unvisited - {key}, pending - {key}, after)
            && (moved in after ==>
                 Ranging(owner, childNamespaced, objs, unvisited - {key}, pending - {key} + {moved}, after))
  {
    if key in unvisited {
      FirstVisit(owner, childNamespaced, objs, unvisited, entries, key);
    } else {
      LaterVisit(owner, childNamespaced, objs, unvisited, entries, key);
      assert unvisited - {key} == unvisited;
    }
  }

  lemma OwnedGet(owner: Owner, childNamespaced: bool, objs: ByKey, key: ObjectKey)
    ensures Get(Owned(owner, childNamespaced, objs), key) == During(owner, childNamespaced, objs, {}, key)
  {
    var source := Source(owner, childNamespaced, objs, key);
    if source.Some? {
      assert OwnedKey(owner, childNamespaced, source.value) == key;
    }
  }

  lemma AdjustedGet(namespace: string, objs: ByKey, key: ObjectKey)
    ensures Get(Adjusted(namespace, objs), key) == AdjustedAt(namespace, objs, {}, key)
  {
    var source := ObjectKey("", key.name);
    if source in objs && key.namespace == namespace {
      assert ObjectKey(namespace, source.name) == key;
    }
  }

  lemma IsOwned(owner: Owner, childNamespaced: bool, objs: ByKey, entries: ByKey)
    requires IsDuring(owner, childNamespaced, objs, {}, entries)
    ensures entries == Owned(owner, childNamespaced, objs)
  {
    forall q ensures Get(entries, q) == Get(Owned(owner, childNamespaced, objs), q) {
      OwnedGet(owner, childNamespaced, objs, q);
    }
    SameByGet(entries, Owned(owner, childNamespaced, objs));
  }

  ghost predicate IsAdjusting(namespace: string, objs: ByKey, pending: set<ObjectKey>, entries: ByKey) {
    forall q :: Get(entries, q) == AdjustedAt(namespace, objs, pending, q)
  }

  lemma AdjustVisit(namespace: string, objs: ByKey, pending: set<ObjectKey>, entries: ByKey, key: ObjectKey)
    requires IsAdjusting(namespace, objs, pending, entries)
    requires key in entries && pending <= objs.Keys
    ensures IsAdjusting(namespace, objs, pending - {key},
              if key.namespace == "" then
                  (entries - {key})[key.(namespace := namespace) := SetNamespace(entries[key], namespace)]
              else entries)
  {
    assert Get(entries, key) == AdjustedAt(namespace, objs, pending, key);
    var after := if key.namespace == "" then
        (entries - {key})[key.(namespace := namespace) := SetNamespace(entries[key], namespace)]
              else entries;
    if key in objs {
      SetNamespaceTwice(objs[key], Owner(GVK("", "", ""), false, "", "", ""), namespace);
    }
    forall q ensures Get(after, q) == AdjustedAt(namespace, objs, pending - {key}, q) {
      assert Get(entries, q) == AdjustedAt(namespace, objs, pending, q);
    }
  }

  lemma IsAdjusted(namespace: string, objs: ByKey, entries: ByKey)
    requires IsAdjusting(namespace, objs, {}, entries)
    ensures entries == Adjusted(namespace, objs)
  {
    forall q ensures Get(entries, q) == Get(Adjusted(namespace, objs), q) {
      AdjustedGet(namespace, objs, q);
    }
    SameByGet(entries, Adjusted(namespace, objs));
  }

  // ---------------------------------------------------------------- legal references and agreeing keys

  /** Every object lies under its own namespace. */
  predicate Agrees(objs: ByKey) {
    forall k | k in objs :: NamespaceOf(objs[k]) == k.namespace
  }

  function Normalized(owner: Owner, namespace: string, objs: ByKey): ByKey {
    Adjusted(namespace, Owned(owner, true, objs))
  }

  /** Namespaced objects end up under their namespace, and none is left without one. */
  lemma NormalizedAgrees(owner: Owner, namespace: string, objs: ByKey)
    requires Agrees(objs) && namespace != ""
    ensures Agrees(Normalized(owner, namespace, objs))
    ensures forall k | k in Normalized(owner, namespace, objs) :: k.namespace != ""
    ensures forall k | k in objs && k.namespace != "" :: k in Normalized(owner, namespace, objs)
  {
    var owned := Owned(owner, true, objs);
    forall k | k in owned ensures NamespaceOf(owned[k]) == k.namespace {
      OwnedAgreesAt(owner, objs, k);
    }
    var r := Normalized(owner, namespace, objs);
    forall k | k in r ensures NamespaceOf(r[k]) == k.namespace && k.namespace != "" {
      AdjustedGet(namespace, owned, k);
      if ObjectKey("", k.name) in owned {
        SetNamespaceTwice(owned[ObjectKey("", k.name)], owner, namespace);
      }
    }
    forall k | k in objs && k.namespace != "" ensures k in r {
      OwnedGet(owner, true, objs, k);
      AdjustedGet(namespace, owned, k);
    }
  }

  lemma OwnedAgreesAt(owner: Owner, objs: ByKey, k: ObjectKey)
    requires Agrees(objs) && k in Owned(owner, true, objs)
    ensures NamespaceOf(Owned(owner, true, objs)[k]) == k.namespace
  {
    OwnedGet(owner, true, objs, k);
    var origin := Origin(owner, true, objs, k);
    var doc := objs[origin];
    SetNamespaceTwice(doc, owner, owner.namespace);
    SetNamespaceTwice(SetNamespace(doc, owner.namespace), owner, owner.namespace);
  }

  /** The entry a key's object comes from. */
  function Origin(owner: Owner, childNamespaced: bool, objs: ByKey, k: ObjectKey): (origin: ObjectKey)
    requires k in Owned(owner, childNamespaced, objs)
    ensures origin in objs && OwnedKey(owner, childNamespaced, origin) == k
    ensures Owned(owner, childNamespaced, objs)[k] == OwnedDoc(owner, childNamespaced, origin, objs[origin])
  {
    OwnedGet(owner, childNamespaced, objs, k);
    var source := Source(owner, childNamespaced, objs, k);
    if source.Some? then source.value else k
  }

  /**
   The owner is added at most once, only where it was missing, and never across a namespace or from a
   cluster-scoped child to a namespaced owner, nor to an object that opted out of pruning; all other references stay.
   */
  lemma ReferencesAreLegal(owner: Owner, childNamespaced: bool, objs: ByKey, k: ObjectKey)
    requires k in Owned(owner, childNamespaced, objs)
    ensures var origin := Origin(owner, childNamespaced, objs, k);
            var before, after := OwnerRefs(objs[origin]), OwnerRefs(Owned(owner, childNamespaced, objs)[k]);
            after == before ||
            (&& after == before + [RefTo(owner)]
             && owner.uid != "" && !Refers(objs[origin], owner.uid)
             && AnnotationOf(objs[origin], "apply.acorn.io/prune") != "false"
             && (owner.namespaced ==> childNamespaced && k.namespace == owner.namespace))
  {
    var origin := Origin(owner, childNamespaced, objs, k);
    assert OwnerRefs(SetNamespace(objs[origin], owner.namespace)) == OwnerRefs(objs[origin]);
  }

  /** The reference says who owns the object, and that it is its controller and is to wait for its deletion. */
  lemma ReferenceSays(owner: Owner)
    ensures var ref, version := FieldsOf(Some(RefTo(owner))), owner.gvk.version;
            && TextOf(Get(ref, "name")) == owner.name && TextOf(Get(ref, "kind")) == owner.gvk.kind
            && RefUID(RefTo(owner)) == TextOf(Get(ref, "uid")) == owner.uid
            && TextOf(Get(ref, "apiVersion")) == (if owner.gvk.group == "" then "" else owner.gvk.group + "/") + version
            && Get(ref, "controller") == Get(ref, "blockOwnerDeletion") == Some(Bool(true))
  {
  }

  /** In reach, prunable and not yet referring, an object does get the reference. */
  lemma ReferenceIsAdded(owner: Owner, childNamespaced: bool, key: ObjectKey, doc: Fields)
    requires owner.namespaced ==> childNamespaced && key.namespace in {"", owner.namespace}
    requires owner.uid != "" && AnnotationOf(doc, "apply.acorn.io/prune") != "false"
    ensures Refers(OwnedDoc(owner, childNamespaced, key, doc), owner.uid)
  {
    var moved := if TakesNamespace(owner, childNamespaced, key) then SetNamespace(doc, owner.namespace) else doc;
    assert Annotations(moved) == Annotations(doc);
    var d := WithRef(moved, owner);
    if d != moved {
      assert OwnerRefs(d) == OwnerRefs(moved) + [RefTo(owner)];
      assert RefUID(OwnerRefs(d)[|OwnerRefs(moved)|]) == owner.uid;
    }
  }

  // ---------------------------------------------------------------- clearNamespace

  function ClearVisit(entries: ByKey, key: ObjectKey): ByKey {
    if key.namespace == "" || key !in entries then entries
    else (entries - {key})[ObjectKey("", key.name) := SetNamespace(entries[key], "")]
  }

  function ClearIn(objs: ByKey, schedule: seq<ObjectKey>): ByKey {
    if schedule == [] then objs
    else ClearVisit(ClearIn(objs, schedule[..|schedule| - 1]), schedule[|schedule| - 1])
  }

  ghost predicate IsSchedule(objs: ByKey, schedule: seq<ObjectKey>) {
    NoRepeats(schedule) && forall k :: k in schedule <==> k in objs
  }

  /** Two entries that lose different namespaces but share a name, and differ otherwise. */
  predicate Clash(objs: ByKey, a: ObjectKey, b: ObjectKey) {
    && a in objs && b in objs && a.name == b.name && a.namespace != "" && b.namespace != ""
    && SetNamespace(objs[a], "") != SetNamespace(objs[b], "")
  }

  predicate Contender(schedule: seq<ObjectKey>, name: string, k: ObjectKey) {
    k in schedule && k.namespace != "" && k.name == name
  }

  /** The entry visited last among those that end up under `name`. */
  function Winner(schedule: seq<ObjectKey>, name: string): (k: Option<ObjectKey>)
    ensures k.Some? ==> Contender(schedule, name, k.value)
    ensures k == None ==> forall c :: !Contender(schedule, name, c)
  {
    if schedule == [] then None
    else
      var init, last := schedule[..|schedule| - 1], schedule[|schedule| - 1];
      assert schedule == init + [last];
      assert forall c :: Contender(schedule, name, c) <==>
               Contender(init, name, c) || (c == last && Contender([last], name, c));
      if last.namespace != "" && last.name == name then Some(last) else Winner(init, name)
  }

  function ClearedAt(objs: ByKey, schedule: seq<ObjectKey>, q: ObjectKey): Option<Fields> {
    if q.namespace != "" then
      if q in schedule then None else Get(objs, q)
    else
      var w := Winner(schedule, q.name);
      if w.Some? && w.value in objs then Some(SetNamespace(objs[w.value], "")) else Get(objs, q)
  }

  lemma {:induction false} ClearInAt(objs: ByKey, schedule: seq<ObjectKey>, q: ObjectKey)
    requires NoRepeats(schedule) && forall k | k in schedule :: k in objs
    ensures Get(ClearIn(objs, schedule), q) == ClearedAt(objs, schedule, q)
  {
    if schedule != [] {
      var init, last := schedule[..|schedule| - 1], schedule[|schedule| - 1];
      assert schedule == init + [last];
      ClearInAt(objs, init, q);
      ClearInAt(objs, init, last);
    }
  }

  ghost function Enumerate(keys: set<ObjectKey>): (schedule: seq<ObjectKey>)
    ensures NoRepeats(schedule) && forall k :: k in schedule <==> k in keys
  {
    if keys == {} then [] else
      var k :| k in keys;
      [k] + Enumerate(keys - {k})
  }

  /** The outcome depends on the visiting order exactly when two entries clash. */
  lemma ClearOrderMattersIff(objs: ByKey)
    ensures (exists s, t :: IsSchedule(objs, s) && IsSchedule(objs, t) && ClearIn(objs, s) != ClearIn(objs, t))
            <==> (exists a, b :: Clash(objs, a, b))
  {
    forall a, b | Clash(objs, a, b)
      ensures exists s, t :: IsSchedule(objs, s) && IsSchedule(objs, t) && ClearIn(objs, s) != ClearIn(objs, t)
    {
      var s := LastOneWins(objs, a);
      var t := LastOneWins(objs, b);
      assert ClearIn(objs, s) != ClearIn(objs, t);
    }
    forall s, t | IsSchedule(objs, s) && IsSchedule(objs, t) && ClearIn(objs, s) != ClearIn(objs, t)
      ensures exists a, b :: Clash(objs, a, b)
    {
      if !(exists a, b :: Clash(objs, a, b)) {
        ClearSame(objs, s, t);
      }
    }
  }

  lemma LastOneWins(objs: ByKey, k: ObjectKey) returns (s: seq<ObjectKey>)
    requires k in objs && k.namespace != ""
    ensures IsSchedule(objs, s) && Get(ClearIn(objs, s), ObjectKey("", k.name)) == Some(SetNamespace(objs[k], ""))
  {
    s := Enumerate(objs.Keys - {k}) + [k];
    ClearInAt(objs, s, ObjectKey("", k.name));
  }

  lemma ClearSame(objs: ByKey, s: seq<ObjectKey>, t: seq<ObjectKey>)
    requires IsSchedule(objs, s) && IsSchedule(objs, t) && !(exists a, b :: Clash(objs, a, b))
    ensures ClearIn(objs, s) == ClearIn(objs, t)
  {
    forall q ensures Get(ClearIn(objs, s), q) == Get(ClearIn(objs, t), q) {
      ClearInAt(objs, s, q);
      ClearInAt(objs, t, q);
      var a, b := Winner(s, q.name), Winner(t, q.name);
      if a.Some? {
        assert Contender(t, q.name, a.value);
        assert !Clash(objs, a.value, b.value);
      } else if b.Some? {
        assert Contender(s, q.name, b.value);
      }
    }
    SameByGet(ClearIn(objs, s), ClearIn(objs, t));
  }

  class ObjectByKey {
    var entries: ByKey

    constructor (entries: ByKey)
      ensures this.entries == entries
    {
      this.entries := entries;
    }

    /**
     `owner` is None when none was set; `childNamespaced` is None when the REST mapping is unknown.
     Whatever the order of visits and whichever inserted entries are visited again, the outcome is `Owned`.
     */
    method AssignOwnerReference(owner: Option<Owner>, childNamespaced: Option<bool>) returns (error: Option<string>)
      modifies this
      ensures owner == None ==> error.Some? && entries == old(entries)
      ensures owner.Some? && childNamespaced == None ==>
                (error.Some? <==> old(entries) != map[]) && entries == old(entries)
      ensures owner.Some? && childNamespaced.Some? ==>
                error == None && entries == Owned(owner.value, childNamespaced.value, old(entries))
    {
      if owner == None {
        return Some("no owner set to assign owner reference");
      }
      if childNamespaced == None {
        return if entries != map[] then Some("no matches for kind") else None;
      }
      AssignOwner(owner.value, childNamespaced.value);
      return None;
    }

    method AssignOwner(o: Owner, nsed: bool)
      modifies this
      ensures entries == Owned(o, nsed, old(entries))
    {
      ghost var start := entries;
      ghost var unvisited := entries.Keys;
      var pending := entries.Keys;
      var revisits: nat := *;
      RangeStart(o, nsed, entries);
      while pending != {}
        invariant Ranging(o, nsed, start, unvisited, pending, entries)
        decreases |pending| + revisits
      {
        var k :| k in pending;
        RangeOn(o, nsed, start, unvisited, pending, entries, k);
        pending := pending - {k};
        unvisited := unvisited - {k};
        var inserted := VisitForOwner(o, nsed, k);
        var again: bool := *;
        if inserted && again && revisits > 0 {
          pending := pending + {OwnedKey(o, nsed, k)};
          revisits := revisits - 1;
        }
      }
      IsOwned(o, nsed, start, entries);
    }

    /** One turn of the loop; tells whether an entry was inserted under another key. */
    method VisitForOwner(owner: Owner, childNamespaced: bool, k: ObjectKey) returns (inserted: bool)
      requires k in entries
      modifies this
      ensures entries == Visited(owner, childNamespaced, old(entries), k)
      ensures inserted ==> OwnedKey(owner, childNamespaced, k) in entries
    {
      if OutOfReach(owner, childNamespaced, k) {
        return false;
      }
      var v := entries[k];
      if TakesNamespace(owner, childNamespaced, k) {
        v := SetNamespace(v, owner.namespace);
      }
      v := WithRef(v, owner);
      entries := entries[k := v];
      inserted := TakesNamespace(owner, childNamespaced, k);
      if inserted {
        entries := entries - {k};
        entries := entries[k.(namespace := owner.namespace) := v];
      }
    }

    /** Again in any order, with any inserted entries visited again. */
    method AdjustNamespace(namespace: string)
      modifies this
      ensures entries == Adjusted(namespace, old(entries))
    {
      ghost var start := entries;
      ghost var unvisited := entries.Keys;
      var pending := entries.Keys;
      var revisits: nat := *;
      while pending != {}
        invariant unvisited <= pending <= entries.Keys && unvisited <= start.Keys
        invariant IsAdjusting(namespace, start, unvisited, entries)
        decreases |pending| + revisits
      {
        var k :| k in pending;
        pending := pending - {k};
        AdjustVisit(namespace, start, unvisited, entries, k);
        unvisited := unvisited - {k};
        if k.namespace == "" {
          var v := SetNamespace(entries[k], namespace);
          entries := entries - {k};
          entries := entries[k.(namespace := namespace) := v];
          var again: bool := *;
          if again && revisits > 0 {
            pending := pending + {k.(namespace := namespace)};
            revisits := revisits - 1;
          }
        }
      }
      IsAdjusted(namespace, start, entries);
    }

    /** The order of visits is left open and handed back; visiting an inserted entry does nothing. */
    method ClearNamespace() returns (ghost schedule: seq<ObjectKey>)
      modifies this
      ensures IsSchedule(old(entries), schedule)
      ensures entries == ClearIn(old(entries), schedule)
    {
      ghost var start := entries;
      var pending := entries.Keys;
      schedule := [];
      while pending != {}
        invariant NoRepeats(schedule) && forall k :: k in start <==> k in schedule || k in pending
        invariant forall k | k in pending :: k !in schedule
        invariant entries == ClearIn(start, schedule)
      {
        var k :| k in pending;
        pending := pending - {k};
        ClearInAt(start, schedule, k);
        assert (schedule + [k])[..|schedule|] == schedule;
        schedule := schedule + [k];
        if k.namespace != "" {
          var v := SetNamespace(entries[k], "");
          entries := entries - {k};
          entries := entries[ObjectKey("", k.name) := v];
        }
      }
    }
  }
}
