/**
 One pass of the apply engine over one kind: `compareSets`, `filterCrossVersion` and `process`
 (pkg/apply/desiredset_process.go:137-150, 176-290, 321-428), after namespaces and owner references
 have been set. The API server is a map from key to document for the kind, a log of what it did, and
 a clock that decides which calls fail.
 */
module Process {
  import opened Base
  import opened Kinds
  import opened Json
  import opened Prune
  import opened Sanitize
  import opened ApplyPatch
  import opened ObjectSet
  import opened Normalize
  import opened Ownership

  const ANNOTATION_CREATE := "apply.acorn.io/create"
  const ANNOTATION_UPDATE := "apply.acorn.io/update"

  type Keys = seq<ObjectKey>

  // ---------------------------------------------------------------- the API server

  datatype Action =
    | Created(key: ObjectKey, after: Fields)
    | Patched(key: ObjectKey, before: Fields, after: Fields)
    | Deleted(key: ObjectKey, before: Fields)

  /** Which calls fail, by the count of calls so far, and which objects outlive their deletion. */
  datatype Weather = Weather(fails: nat -> bool, lingers: ObjectKey -> bool)

  ghost predicate NoneFail(w: Weather) {
    forall n :: !w.fails(n)
  }

  datatype Cluster = Cluster(objs: ByKey, log: seq<Action>, tick: nat)

  datatype Reply = Accepted | AlreadyExists | Rejected

  function Ticked(c: Cluster): Cluster {
    c.(tick := c.tick + 1)
  }

  function ServerCreate(w: Weather, c: Cluster, k: ObjectKey, doc: Fields): (Cluster, Reply) {
    if w.fails(c.tick) then (Ticked(c), Rejected)
    else if k in c.objs then (Ticked(c), AlreadyExists)
    else (Ticked(c).(objs := c.objs[k := doc], log := c.log + [Created(k, doc)]), Accepted)
  }

  function ServerGet(w: Weather, c: Cluster, k: ObjectKey): (Cluster, Option<Fields>) {
    (Ticked(c), if w.fails(c.tick) then None else Get(c.objs, k))
  }

  /** The body of a patch carries no resource version, so it is merged into whatever is there. */
  function ServerPatch(w: Weather, c: Cluster, k: ObjectKey, patch: Fields): (Cluster, Reply) {
    if w.fails(c.tick) || k !in c.objs then (Ticked(c), Rejected)
    else
      var after := MergeFields(c.objs[k], patch);
      (Ticked(c).(objs := c.objs[k := after], log := c.log + [Patched(k, c.objs[k], after)]), Accepted)
  }

  function Doomed(doc: Fields): Fields {
    doc["metadata" := Obj(Metadata(doc)["deletionTimestamp" := Str("now")])]
  }

  predicate IsDoomed(doc: Fields) {
    "deletionTimestamp" in Metadata(doc)
  }

  function ServerDelete(w: Weather, c: Cluster, k: ObjectKey): (Cluster, Reply) {
    if w.fails(c.tick) || k !in c.objs then (Ticked(c), Rejected)
    else
      var log := c.log + [Deleted(k, c.objs[k])];
      (Ticked(c).(objs := if w.lingers(k) then c.objs[k := Doomed(c.objs[k])] else c.objs - {k}, log := log), Accepted)
  }

  // ---------------------------------------------------------------- the pass

  /** `ownHash` is None when there is no owner and no subcontext: nothing is listed by label then. */
  datatype Env = Env(
    lib: Library, reconcile: Reconciler, gvk: GVK, namespaced: bool, wanted: ByKey,
    kindKeys: set<ObjectKey>, defaultNamespace: string, listerNamespace: string,
    ownHash: Option<string>, noPrune: bool, ensuring: bool, validOwnerChange: set<string>)

  predicate Visible(env: Env, k: ObjectKey) {
    !env.namespaced || env.listerNamespace == "" || k.namespace == env.listerNamespace
  }

  predicate Carries(doc: Fields, hash: string) {
    Get(Labels(doc), LABEL_HASH) == Some(Str(hash))
  }

  /** What `list` returns when no call fails. */
  function Existing(env: Env, objs: ByKey): ByKey {
    map k | k in objs &&
            (if env.ownHash.Some? then Carries(objs[k], env.ownHash.value) && Visible(env, k) else k in env.wanted) ::
      objs[k]
  }

  /** The key is wanted in some version of the kind, as written or before it got the default namespace. */
  predicate CrossVersion(env: Env, k: ObjectKey) {
    k in env.kindKeys || (k.namespace == env.defaultNamespace && ObjectKey("", k.name) in env.kindKeys)
  }

  predicate Prunable(lib: Library, doc: Fields) {
    Should(doc, ANNOTATION_PRUNE) && !IsDoomed(doc) &&
    (LABEL_HASH in Labels(doc) ==> LabelOf(doc, LABEL_HASH) == HashOf(lib, doc))
  }

  datatype Plan = Plan(toCreate: Keys, toDelete: Keys, toUpdate: Keys)

  predicate IsPlan(env: Env, existing: ByKey, plan: Plan) {
    && NoRepeats(plan.toCreate) && NoRepeats(plan.toDelete) && NoRepeats(plan.toUpdate)
    && (forall k | k in plan.toCreate :: k in env.wanted)
    && (forall k | k in env.wanted :: k in plan.toCreate <==>
         k !in existing && Should(env.wanted[k], ANNOTATION_CREATE))
    && (forall k | k in plan.toUpdate :: k in env.wanted)
    && (forall k | k in env.wanted :: k in plan.toUpdate <==> k in existing && Should(env.wanted[k], ANNOTATION_UPDATE))
    && (forall k | k in plan.toDelete :: k in existing)
    && (forall k | k in existing ::
          k in plan.toDelete <==> k !in env.wanted && Prunable(env.lib, existing[k]) && !CrossVersion(env, k))
  }

  /** The variables the closures of `process` share. */
  datatype State = State(cluster: Cluster, existing: ByKey, toUpdate: Keys, toReplace: Keys, errors: nat)

  function Failing(s: State): State {
    s.(errors := s.errors + 1)
  }

  function ToSend(env: Env, k: ObjectKey): Fields
    requires k in env.wanted
  {
    Prepared(env.lib, env.gvk, env.wanted[k], !env.ensuring)
  }

  /** An object of someone else that may not be taken over. */
  predicate Foreign(env: Env, found: Fields, obj: Fields) {
    && !AnnotationsMatch(found, obj)
    && LabelOf(found, LABEL_HASH) != ""
    && !IsAssigningSubContext(found, obj)
    && !IsAllowOwnerTransition(env.validOwnerChange, found, obj)
  }

  function CreateF(env: Env, w: Weather, s: State, k: ObjectKey): (r: State)
    requires k in env.wanted
    ensures r.toReplace == s.toReplace
    ensures r.existing == s.existing || (k in r.existing && r.existing == s.existing[k := r.existing[k]])
    ensures r.toUpdate == s.toUpdate || (r.toUpdate == s.toUpdate + [k] && k in r.existing)
  {
    CreateObject(env, w, s, k, ToSend(env, k))
  }

  function CreateObject(env: Env, w: Weather, s: State, k: ObjectKey, obj: Fields): (r: State)
    ensures r.toReplace == s.toReplace
    ensures r.existing == s.existing || (k in r.existing && r.existing == s.existing[k := r.existing[k]])
    ensures r.toUpdate == s.toUpdate || (r.toUpdate == s.toUpdate + [k] && k in r.existing)
  {
    var (c, reply) := ServerCreate(w, s.cluster, k, WireFields(env.lib, obj));
    match reply
    case Accepted => s.(cluster := c)
    case Rejected => Failing(s.(cluster := c))
    case AlreadyExists =>
      var (c', found) := ServerGet(w, c, k);
      var s' := s.(cluster := c');
      if found == None || Foreign(env, found.value, obj) then Failing(s')
      else s'.(existing := s.existing[k := found.value],
               toUpdate := if Should(obj, ANNOTATION_UPDATE) then s.toUpdate + [k] else s.toUpdate)
  }

  predicate MayReplace(env: Env, before: Fields, k: ObjectKey)
    requires k in env.wanted
  {
    AnnotationOf(env.wanted[k], ANNOTATION_UPDATE) == "true" ||
    (Should(before, ANNOTATION_PRUNE) && Should(before, ANNOTATION_CREATE))
  }

  /** What comparing finds, for every object that is both there and wanted. */
  type Verdicts = map<ObjectKey, Outcome>

  function Compared(env: Env, existing: ByKey): Verdicts {
    map k | k in existing && k in env.wanted :: Compare(env.lib, env.reconcile, env.gvk, existing[k], env.wanted[k])
  }

  function UpdateBy(env: Env, w: Weather, s: State, k: ObjectKey, outcome: Outcome): (r: State)
    requires k in env.wanted && k in s.existing
    ensures r.existing == s.existing && r.toUpdate == s.toUpdate
    ensures r.toReplace == s.toReplace || r.toReplace == s.toReplace + [k]
  {
    match outcome
    case NoChange => s
    case Done => s
    case Failed => Failing(s)
    case Replace => if MayReplace(env, s.existing[k], k) then s.(toReplace := s.toReplace + [k]) else s
    case Send(patch) =>
      var (c, reply) := ServerPatch(w, s.cluster, k, patch);
      if reply == Accepted then s.(cluster := c) else Failing(s.(cluster := c))
  }

  function DeleteF(w: Weather, s: State, k: ObjectKey): State {
    var (c, reply) := ServerDelete(w, s.cluster, k);
    if reply == Accepted then s.(cluster := c) else Failing(s.(cluster := c))
  }

  /** The keys to update are wanted and have been seen. */
  predicate Ready(env: Env, s: State) {
    forall k | k in s.toUpdate :: k in env.wanted && k in s.existing
  }

  function CreateAll(env: Env, w: Weather, s: State, ks: Keys): (r: State)
    requires Ready(env, s) && forall k | k in ks :: k in env.wanted
    ensures Ready(env, r) && r.toReplace == s.toReplace
    decreases |ks|
  {
    if ks == [] then s else CreateF(env, w, CreateAll(env, w, s, ks[..|ks| - 1]), ks[|ks| - 1])
  }

  predicate CanUpdate(env: Env, s: State, ks: Keys, verdicts: Verdicts) {
    forall k | k in ks :: k in env.wanted && k in s.existing && k in verdicts
  }

  function UpdateAll(env: Env, w: Weather, s: State, ks: Keys, verdicts: Verdicts): (r: State)
    requires CanUpdate(env, s, ks, verdicts)
    ensures r.existing == s.existing && r.toUpdate == s.toUpdate
    ensures forall k | k in r.toReplace :: k in s.toReplace || k in ks
    decreases |ks|
  {
    if ks == [] then s
    else
      var k := ks[|ks| - 1];
      UpdateBy(env, w, UpdateAll(env, w, s, ks[..|ks| - 1], verdicts), k, verdicts[k])
  }

  function DeleteAll(w: Weather, s: State, ks: Keys): (r: State)
    ensures r.existing == s.existing && r.toUpdate == s.toUpdate && r.toReplace == s.toReplace
    decreases |ks|
  {
    if ks == [] then s else DeleteF(w, DeleteAll(w, s, ks[..|ks| - 1]), ks[|ks| - 1])
  }

  function Start(existing: ByKey, plan: Plan, cluster: Cluster): State {
    State(cluster, existing, plan.toUpdate, [], 0)
  }

  function CreateStage(env: Env, w: Weather, cluster: Cluster, existing: ByKey, plan: Plan): (r: State)
    requires IsPlan(env, existing, plan)
    ensures Ready(env, r) && r.toReplace == []
  {
    CreateAll(env, w, Start(existing, plan, cluster), plan.toCreate)
  }

  function UpdateStage(env: Env, w: Weather, created: State): (r: State)
    requires Ready(env, created)
    ensures Ready(env, r) && r.existing == created.existing
    ensures forall k | k in r.toReplace :: k in created.toReplace || k in created.toUpdate
  {
    UpdateAll(env, w, created, created.toUpdate, Compared(env, created.existing))
  }

  /** Create, update and prune. */
  function Pruned(env: Env, w: Weather, cluster: Cluster, existing: ByKey, plan: Plan): (r: State)
    requires IsPlan(env, existing, plan)
    ensures Ready(env, r) && forall k | k in r.toReplace :: k in env.wanted
  {
    var updated := UpdateStage(env, w, CreateStage(env, w, cluster, existing, plan));
    if env.noPrune then updated else DeleteAll(w, updated, plan.toDelete)
  }

  /** Delete, and create again, what must be replaced. */
  function Replaced(env: Env, w: Weather, s: State): State
    requires Ready(env, s) && forall k | k in s.toReplace :: k in env.wanted
  {
    var cleared := DeleteAll(w, s, s.toReplace);
    CreateAll(env, w, cleared, cleared.toReplace)
  }

  function Run(env: Env, w: Weather, cluster: Cluster, existing: ByKey, plan: Plan): State
    requires IsPlan(env, existing, plan)
  {
    Replaced(env, w, Pruned(env, w, cluster, existing, plan))
  }

  /** How many calls it takes to list. */
  function ListCalls(env: Env): nat {
    if env.ownHash.Some? then 1 else |env.wanted|
  }

  predicate ListFails(env: Env, w: Weather, tick: nat) {
    exists n | tick <= n < tick + ListCalls(env) :: w.fails(n)
  }

  // ---------------------------------------------------------------- the code

  /** In whatever order the two maps are ranged over, the keys come out sorted. */
  method CompareSets(env: Env, existing: ByKey) returns (toCreate: Keys, toDelete: Keys, toUpdate: Keys)
    ensures forall k :: k in toCreate <==> k in env.wanted && k !in existing && Should(env.wanted[k], ANNOTATION_CREATE)
    ensures forall k :: k in toUpdate <==> k in env.wanted && k in existing && Should(env.wanted[k], ANNOTATION_UPDATE)
    ensures forall k :: k in toDelete <==> k !in env.wanted && k in existing && Prunable(env.lib, existing[k])
    ensures NoRepeats(toCreate) && NoRepeats(toDelete) && NoRepeats(toUpdate)
    ensures Ordered(toCreate, (k: ObjectKey) => k.Text()) && Ordered(toUpdate, (k: ObjectKey) => k.Text())
    ensures Ordered(toDelete, (k: ObjectKey) => k.Text())
  {
    toCreate, toDelete, toUpdate := [], [], [];
    var pending := env.wanted.Keys;
    while pending != {}
      invariant pending <= env.wanted.Keys && NoRepeats(toCreate) && NoRepeats(toUpdate)
      invariant forall k :: k in toCreate <==>
        k in env.wanted && k !in pending && k !in existing && Should(env.wanted[k], ANNOTATION_CREATE)
      invariant forall k :: k in toUpdate <==>
        k in env.wanted && k !in pending && k in existing && Should(env.wanted[k], ANNOTATION_UPDATE)
    {
      var k :| k in pending;
      if k in existing {
        if Should(env.wanted[k], ANNOTATION_UPDATE) {
          toUpdate := toUpdate + [k];
        }
      } else if Should(env.wanted[k], ANNOTATION_CREATE) {
        toCreate := toCreate + [k];
      }
      pending := pending - {k};
    }
    toDelete := KeysToDelete(env, existing);
    toCreate := SortObjectKeys(toCreate);
    toDelete := SortObjectKeys(toDelete);
    toUpdate := SortObjectKeys(toUpdate);
  }

  method KeysToDelete(env: Env, existing: ByKey) returns (toDelete: Keys)
    ensures forall k :: k in toDelete <==> k !in env.wanted && k in existing && Prunable(env.lib, existing[k])
    ensures NoRepeats(toDelete)
  {
    toDelete := [];
    var pending := existing.Keys;
    while pending != {}
      invariant pending <= existing.Keys && NoRepeats(toDelete)
      invariant forall k :: k in toDelete <==>
        k !in env.wanted && k in existing && k !in pending && Prunable(env.lib, existing[k])
    {
      var k :| k in pending;
      if k !in env.wanted && Prunable(env.lib, existing[k]) {
        toDelete := toDelete + [k];
      }
      pending := pending - {k};
    }
  }

  method SortObjectKeys(keys: Keys) returns (sorted: Keys)
    requires NoRepeats(keys)
    ensures NoRepeats(sorted) && forall k :: k in sorted <==> k in keys
    ensures Ordered(sorted, (k: ObjectKey) => k.Text())
  {
    sorted := SortByText(keys, (k: ObjectKey) => k.Text());
    SortedKeepsElements(keys, sorted);
  }

  method FilterCrossVersion(env: Env, keys: Keys) returns (result: Keys)
    requires NoRepeats(keys)
    ensures NoRepeats(result) && forall k :: k in result <==> k in keys && !CrossVersion(env, k)
  {
    result := [];
    for i := 0 to |keys|
      invariant NoRepeats(result) && forall k :: k in result <==> k in keys[..i] && !CrossVersion(env, k)
    {
      assert keys[..i + 1] == keys[..i] + [keys[i]];
      if !CrossVersion(env, keys[i]) {
        assert keys[i] !in keys[..i];
        result := result + [keys[i]];
      }
    }
    assert keys[..|keys|] == keys;
  }

  /** The variables the closures of `process` capture. */
  class Pass {
    const env: Env
    const weather: Weather
    var cluster: Cluster
    var existing: ByKey
    var toUpdate: Keys
    var toReplace: Keys
    var errors: nat

    function View(): State
      reads this
    {
      State(cluster, existing, toUpdate, toReplace, errors)
    }

    constructor (env: Env, weather: Weather, cluster: Cluster)
      ensures this.env == env && this.weather == weather
      ensures View() == State(cluster, map[], [], [], 0)
    {
      this.env, this.weather, this.cluster := env, weather, cluster;
      existing, toUpdate, toReplace, errors := map[], [], [], 0;
    }

    method Create(k: ObjectKey)
      requires k in env.wanted
      modifies this
      ensures View() == CreateF(env, weather, old(View()), k)
    {
      var obj := ToSend(env, k);
      Send(k, obj);
    }

    /** Creates the object, or takes over the one that is there. */
    method Send(k: ObjectKey, obj: Fields)
      modifies this
      ensures View() == CreateObject(env, weather, old(View()), k, obj)
    {
      var (c, reply) := ServerCreate(weather, cluster, k, WireFields(env.lib, obj));
      cluster := c;
      if reply == AlreadyExists {
        var (c', found) := ServerGet(weather, cluster, k);
        cluster := c';
        if found.Some? {
          if Foreign(env, found.value, obj) {
            errors := errors + 1;
            return;
          }
          if Should(obj, ANNOTATION_UPDATE) {
            toUpdate := toUpdate + [k];
          }
          existing := existing[k := found.value];
          return;
        }
      }
      if reply != Accepted {
        errors := errors + 1;
      }
    }

    method Update(k: ObjectKey)
      requires k in env.wanted && k in existing
      modifies this
      ensures View() == UpdateBy(env, weather, old(View()), k, Compared(env, old(existing))[k])
    {
      var outcome := Compare(env.lib, env.reconcile, env.gvk, existing[k], env.wanted[k]);
      Settle(k, outcome);
    }

    method Settle(k: ObjectKey, outcome: Outcome)
      requires k in env.wanted && k in existing
      modifies this
      ensures View() == UpdateBy(env, weather, old(View()), k, outcome)
    {
      match outcome {
        case NoChange =>
        case Done =>
        case Failed =>
          errors := errors + 1;
        case Replace =>
          if MayReplace(env, existing[k], k) {
            toReplace := toReplace + [k];
          }
        case Send(patch) =>
          var (c, reply) := ServerPatch(weather, cluster, k, patch);
          cluster := c;
          if reply != Accepted {
            errors := errors + 1;
          }
      }
    }

    method Delete(k: ObjectKey)
      modifies this
      ensures View() == DeleteF(weather, old(View()), k)
    {
      var (c, reply) := ServerDelete(weather, cluster, k);
      cluster := c;
      if reply != Accepted {
        errors := errors + 1;
      }
    }

    method CreateEach(ks: Keys)
      requires Ready(env, View()) && forall k | k in ks :: k in env.wanted
      modifies this
      ensures View() == CreateAll(env, weather, old(View()), ks)
    {
      for i := 0 to |ks|
        invariant View() == CreateAll(env, weather, old(View()), ks[..i])
      {
        assert ks[..i + 1][..i] == ks[..i];
        Create(ks[i]);
      }
      assert ks[..|ks|] == ks;
    }

    method UpdateEach(ks: Keys)
      requires forall k | k in ks :: k in env.wanted && k in existing
      modifies this
      ensures View() == UpdateAll(env, weather, old(View()), ks, Compared(env, old(existing)))
    {
      for i := 0 to |ks|
        invariant View() == UpdateAll(env, weather, old(View()), ks[..i], Compared(env, old(existing)))
      {
        assert ks[..i + 1][..i] == ks[..i];
        Update(ks[i]);
      }
      assert ks[..|ks|] == ks;
    }

    method DeleteEach(ks: Keys)
      modifies this
      ensures View() == DeleteAll(weather, old(View()), ks)
    {
      for i := 0 to |ks|
        invariant View() == DeleteAll(weather, old(View()), ks[..i])
      {
        assert ks[..i + 1][..i] == ks[..i];
        Delete(ks[i]);
      }
      assert ks[..|ks|] == ks;
    }

    /** A list call, or one get for each wanted object; the first call that fails ends it. */
    method List() returns (found: Option<ByKey>)
      modifies this
      ensures found == None <==> ListFails(env, weather, old(cluster.tick))
      ensures View() == old(View()).(cluster := cluster) && cluster == old(cluster).(tick := cluster.tick)
      ensures found.Some? ==> found.value == Existing(env, cluster.objs)
    {
      var calls := ListCalls(env);
      var i := 0;
      while i < calls
        invariant 0 <= i <= calls && cluster.tick == old(cluster.tick) + i
        invariant forall n | old(cluster.tick) <= n < old(cluster.tick) + i :: !weather.fails(n)
        invariant cluster == old(cluster).(tick := cluster.tick)
        invariant View() == old(View()).(cluster := cluster)
      {
        if weather.fails(cluster.tick) {
          cluster := Ticked(cluster);
          return None;
        }
        cluster := Ticked(cluster);
        i := i + 1;
      }
      return Some(Existing(env, cluster.objs));
    }

    /** `process`, once the wanted objects have been given owner and namespace. */
    method Process()
      requires View() == State(cluster, map[], [], [], 0)
      modifies this
      ensures (errors == 1 && cluster == old(cluster).(tick := cluster.tick) &&
                ListFails(env, weather, old(cluster.tick))) ||
              exists listed: Cluster, plan ::
                listed == old(cluster).(tick := listed.tick) &&
                IsPlan(env, Existing(env, listed.objs), plan) &&
                View() == Run(env, weather, listed, Existing(env, listed.objs), plan)
    {
      var found := List();
      if found == None {
        errors := 1;
        return;
      }
      ghost var listed := cluster;
      existing := found.value;
      var toCreate, toDelete;
      toCreate, toDelete, toUpdate := CompareSets(env, existing);
      toDelete := FilterCrossVersion(env, toDelete);
      ghost var plan := Plan(toCreate, toDelete, toUpdate);
      assert IsPlan(env, existing, plan);
      CarryOut(toCreate, toDelete, plan);
    }

    /** The rest of `process`, once there is a plan. */
    method CarryOut(toCreate: Keys, toDelete: Keys, ghost plan: Plan)
      requires IsPlan(env, existing, plan) && plan.toCreate == toCreate && plan.toDelete == toDelete
      requires View() == Start(existing, plan, cluster)
      modifies this
      ensures View() == Run(env, weather, old(cluster), old(existing), plan)
    {
      CreateEach(toCreate);
      UpdateEach(toUpdate);
      if !env.noPrune {
        DeleteEach(toDelete);
      }
      assert View() == Pruned(env, weather, old(cluster), old(existing), plan);
      DeleteEach(toReplace);
      CreateEach(toReplace);
    }
  }
}
