/** From what a caller hands in to the passes of an apply: owner labels are injected, every version gets its owner
    references and namespaces, and is processed in turn (pkg/apply/desiredset_apply.go:42-71, 138-158,
    pkg/apply/desiredset_process.go:176-204). */
module Apply {
  import opened Base
  import opened Kinds
  import opened Json
  import opened Prune
  import opened Sanitize
  import opened ApplyPatch
  import opened ObjectSet
  import opened Normalize
  import opened Ownership
  import opened Process
  import opened Safety
  import opened Convergence
  import opened WholeApply

  /** `scope` says which kinds are known, and which of them have namespaces. */
  datatype Settings = Settings(
    lib: Library, reconcile: Reconciler, scope: map<GVK, bool>, owner: Option<Owner>, subContext: string,
    defaultNamespace: string, listerNamespace: string, noPrune: bool, ensuring: bool, validOwnerChange: set<string>)

  function StampedDoc(st: Settings, doc: Fields): Fields {
    var (labels, annotations) := OwnerStamp(st.lib, st.subContext, st.owner);
    Stamped(doc, labels, annotations)
  }

  function StampedSet(st: Settings, objs: ByKey): ByKey {
    map k | k in objs :: StampedDoc(st, objs[k])
  }

  /** The same set with every object stamped. */
  ghost predicate IsStamped(st: Settings, view: SetView, stamped: SetView) {
    stamped.Agreeing() && forall gvk :: stamped.OfVersion(gvk) == StampedSet(st, view.OfVersion(gvk))
  }

  function OwnHash(st: Settings): Option<string> {
    Get(OwnerStamp(st.lib, st.subContext, st.owner).0, LABEL_HASH)
  }

  function WithOwner(st: Settings, nsed: bool, objs: ByKey): ByKey {
    if st.owner.Some? then Owned(st.owner.value, nsed, objs) else objs
  }

  /** What a pass wants, given the objects handed in for its version. */
  ghost predicate IsWanted(st: Settings, nsed: bool, objs: ByKey, wanted: ByKey) {
    var owned := WithOwner(st, nsed, StampedSet(st, objs));
    if nsed then wanted == Adjusted(st.defaultNamespace, owned)
    else exists schedule :: IsSchedule(owned, schedule) && wanted == ClearIn(owned, schedule)
  }

  function EnvWith(st: Settings, view: SetView, gvk: GVK, nsed: bool, wanted: ByKey): Env {
    Env(st.lib, st.reconcile, gvk, nsed, wanted, view.KindKeys(gvk.GroupKind()), st.defaultNamespace,
        st.listerNamespace,
        OwnHash(st), st.noPrune, st.ensuring, st.validOwnerChange)
  }

  ghost predicate IsEnv(st: Settings, view: SetView, gvk: GVK, env: Env) {
    gvk in st.scope && IsWanted(st, st.scope[gvk], view.OfVersion(gvk), env.wanted) &&
    env == EnvWith(st, view, gvk, st.scope[gvk], env.wanted)
  }

  /** The step of a version: a pass, or an error when the kind is unknown. */
  ghost predicate IsStepOf(st: Settings, view: SetView, gvk: GVK, s: Step) {
    s.env.gvk == gvk && s.known == (gvk in st.scope) && (s.known ==> IsEnv(st, view, gvk, s.env))
  }

  // ---------------------------------------------------------------- the code

  class Applier {
    const st: Settings
    const weather: Weather
    var world: World

    constructor (st: Settings, weather: Weather, world: World)
      ensures this.st == st && this.weather == weather && this.world == world
    {
      this.st, this.weather, this.world := st, weather, world;
    }

    /** The objects of one version, in any order. */
    method InjectVersion(result: ObjectSet, gvk: GVK, objs: ByKey)
      requires result.Valid() && forall k :: LatestOfVersion(result.order, gvk, k) == None
      modifies result
      ensures result.Valid()
      ensures forall g, k :: LatestOfVersion(result.order, g, k) ==
                if g == gvk then Get(StampedSet(st, objs), k) else LatestOfVersion(old(result.order), g, k)
    {
      var rest := objs.Keys;
      while rest != {}
        invariant result.Valid() && rest <= objs.Keys
        invariant forall g, k :: LatestOfVersion(result.order, g, k) ==
                    if g == gvk then (if k in rest then None else Get(StampedSet(st, objs), k))
                    else LatestOfVersion(old(result.order), g, k)
      {
        var k :| k in rest;
        ghost var before := result.order;
        var error := result.Add(Known(Entry(gvk, k, StampedDoc(st, objs[k]))));
        assert result.order[..|result.order| - 1] == before;
        rest := rest - {k};
      }
    }

    /** `injectLabelsAndAnnotations`: a new set, version by version in any order. */
    method InjectLabelsAndAnnotations(objs: ObjectSet) returns (result: ObjectSet)
      requires objs.Valid()
      ensures fresh(result) && result.Valid() && IsStamped(st, objs.View(), result.View())
    {
      result := new ObjectSet();
      var rest := objs.objects.Keys;
      while rest != {}
        invariant fresh(result) && result.Valid() && rest <= objs.objects.Keys
        invariant forall g, k :: LatestOfVersion(result.order, g, k) ==
                    if g in rest then None else Get(StampedSet(st, objs.View().OfVersion(g)), k)
      {
        var g :| g in rest;
        InjectVersion(result, g, objs.objects[g]);
        rest := rest - {g};
      }
      StampedByHistory(st, objs.View(), result.View(), result.order);
    }

    /** The objects of one version, with owner references and namespaces. */
    method Normalize(ghost view: SetView, gvk: GVK, stamped: SetView) returns (wanted: ByKey)
      requires gvk in st.scope && IsStamped(st, view, stamped)
      ensures IsWanted(st, st.scope[gvk], view.OfVersion(gvk), wanted)
    {
      var nsed := st.scope[gvk];
      ghost var owned := WithOwner(st, nsed, StampedSet(st, view.OfVersion(gvk)));
      var objs := new ObjectByKey(stamped.OfVersion(gvk));
      if st.owner.Some? {
        var error := objs.AssignOwnerReference(st.owner, Some(nsed));
      }
      assert objs.entries == owned;
      if nsed {
        objs.AdjustNamespace(st.defaultNamespace);
        return objs.entries;
      }
      ghost var schedule := objs.ClearNamespace();
      assert IsSchedule(owned, schedule) && objs.entries == ClearIn(owned, schedule);
      return objs.entries;
    }

    method Process(ghost view: SetView, gvk: GVK, stamped: SetView) returns (ghost step: Step, failed: bool)
      requires view.Agreeing() && IsStamped(st, view, stamped)
      modifies this
      ensures IsStepOf(st, view, gvk, step) && (failed <==> step.errors > 0)
      ensures IsStep(weather, old(world), step) && step.after == world
    {
      var gk := gvk.GroupKind();
      if gvk !in st.scope {
        world := world[gk := At(world, gk)];
        step := Step(EnvWith(st, view, gvk, false, map[]), false, [], 1, world);
        return step, true;
      }
      var wanted := Normalize(view, gvk, stamped);
      SameKeys(st, view, stamped, gk);
      var env := EnvWith(st, stamped, gvk, st.scope[gvk], wanted);
      var after, log, errors := OnePass(env, weather, At(world, gk));
      world := world[gk := after];
      step := Step(env, true, log, errors, world);
      failed := errors > 0;
    }

    /** Every version, those added first and then the other known ones; an error does not stop the rest. */
    method Apply(objs: ObjectSet, known: seq<GVK>)
        returns (ghost order: seq<GVK>, ghost steps: seq<Step>, failed: bool)
      requires objs.Valid() && NoRepeats(known)
      modifies this
      ensures Applies(st, objs.View(), order, weather, old(world), steps) && world == Final(old(world), steps)
      ensures objs.gvkOrder <= order && Ordered(order[|objs.gvkOrder|..], (g: GVK) => g.Text())
      ensures forall gvk :: gvk in order <==> gvk in known || gvk in objs.gvkOrder
      ensures failed <==> AnyErrors(steps)
    {
      var gvkOrder := objs.GVKOrder(known);
      IndexesAreAgreeing(objs.View(), objs.order);
      FirstSeenEnumerates(objs.order);
      var stamped := InjectLabelsAndAnnotations(objs);
      order := gvkOrder;
      steps, failed := ProcessAll(objs.View(), gvkOrder, stamped.View());
    }

    method ProcessAll(ghost view: SetView, order: seq<GVK>, stamped: SetView)
        returns (ghost steps: seq<Step>, failed: bool)
      requires view.Agreeing() && IsStamped(st, view, stamped)
      modifies this
      ensures IsApply(weather, old(world), steps) && world == Final(old(world), steps)
      ensures AreSteps(st, view, order, steps)
      ensures failed <==> AnyErrors(steps)
    {
      failed, steps := false, [];
      for n := 0 to |order|
        invariant AreSteps(st, view, order[..n], steps) && IsApply(weather, old(world), steps)
        invariant world == Final(old(world), steps)
        invariant failed <==> AnyErrors(steps)
      {
        var bad;
        steps, bad := ProcessNext(old(world), order[..n], steps, view, order[n], stamped);
        failed := failed || bad;
        assert order[..n + 1] == order[..n] + [order[n]];
      }
      assert order[..|order|] == order;
    }

    method ProcessNext(ghost start: World, ghost order: seq<GVK>, ghost steps: seq<Step>,
                       ghost view: SetView, gvk: GVK, stamped: SetView)
        returns (ghost more: seq<Step>, failed: bool)
      requires view.Agreeing() && IsStamped(st, view, stamped)
      requires AreSteps(st, view, order, steps) && IsApply(weather, start, steps) && world == Final(start, steps)
      modifies this
      ensures AreSteps(st, view, order + [gvk], more) && IsApply(weather, start, more) && world == Final(start, more)
      ensures AnyErrors(more) <==> AnyErrors(steps) || failed
    {
      ghost var step;
      step, failed := Process(view, gvk, stamped);
      StepOn(st, view, weather, start, order, steps, gvk, step);
      more := steps + [step];
    }
  }

  /** `process`, once the wanted objects are normalized. */
  method OnePass(env: Env, weather: Weather, before: ByKey)
      returns (after: ByKey, log: seq<Action>, errors: nat)
    ensures IsPass(env, weather, before, log, errors, after)
  {
    var pass := new Pass(env, weather, Cluster(before, [], 0));
    pass.Process();
    if listed: Cluster, plan :|
        listed == Cluster(before, [], listed.tick) && IsPlan(env, Existing(env, listed.objs), plan) &&
                                pass.View() == Run(env, weather, listed, Existing(env, listed.objs), plan) {
      RunIsPass(env, weather, before, listed.tick, plan);
    }
    return pass.cluster.objs, pass.cluster.log, pass.errors;
  }

  lemma RunIsPass(env: Env, w: Weather, before: ByKey, tick: nat, plan: Plan)
    requires IsPlan(env, Existing(env, before), plan)
    ensures var r := Run(env, w, Cluster(before, [], tick), Existing(env, before), plan);
            IsPass(env, w, before, r.cluster.log, r.errors, r.cluster.objs)
  {
    var r := Run(env, w, Cluster(before, [], tick), Existing(env, before), plan);
    assert IsRun(env, w, before, tick, plan, r.cluster.log, r.errors, r.cluster.objs);
  }

  lemma StampedByHistory(st: Settings, view: SetView, stamped: SetView, order: seq<Entry>)
    requires ByVersion(stamped.objects, order) && ByKind(stamped.byKind, order)
    requires forall g, k :: LatestOfVersion(order, g, k) == Get(StampedSet(st, view.OfVersion(g)), k)
    ensures IsStamped(st, view, stamped)
  {
    IndexesAreAgreeing(stamped, order);
    forall g ensures stamped.OfVersion(g) == StampedSet(st, view.OfVersion(g)) {
      forall k ensures Get(stamped.OfVersion(g), k) == Get(StampedSet(st, view.OfVersion(g)), k) {
        assert Find(stamped.objects, g, k) == LatestOfVersion(order, g, k);
      }
      SameByGet(stamped.OfVersion(g), StampedSet(st, view.OfVersion(g)));
    }
  }

  lemma SameKeys(st: Settings, view: SetView, stamped: SetView, gk: GroupKind)
    requires view.Agreeing() && IsStamped(st, view, stamped)
    ensures stamped.KindKeys(gk) == view.KindKeys(gk)
  {
    forall k ensures k in stamped.KindKeys(gk) <==> k in view.KindKeys(gk) {
      assert forall g :: k in stamped.OfVersion(g) <==> k in view.OfVersion(g);
    }
  }

  predicate AnyErrors(steps: seq<Step>) {
    exists i :: 0 <= i < |steps| && steps[i].errors > 0
  }

  ghost predicate AreSteps(st: Settings, view: SetView, order: seq<GVK>, steps: seq<Step>) {
    |steps| == |order| && forall i | 0 <= i < |order| :: StepOfAt(st, view, order, steps, i)
  }

  ghost predicate StepOfAt(st: Settings, view: SetView, order: seq<GVK>, steps: seq<Step>, i: nat)
    requires i < |order| && i < |steps|
  {
    IsStepOf(st, view, order[i], steps[i])
  }

  lemma StepOn(st: Settings, view: SetView, w: Weather, world: World, order: seq<GVK>, steps: seq<Step>, gvk: GVK,
               s: Step)
    requires AreSteps(st, view, order, steps) && IsApply(w, world, steps)
    requires IsStep(w, Final(world, steps), s) && IsStepOf(st, view, gvk, s)
    ensures AreSteps(st, view, order + [gvk], steps + [s]) && IsApply(w, world, steps + [s])
    ensures AnyErrors(steps + [s]) <==> AnyErrors(steps) || s.errors > 0
  {
    var more := steps + [s];
    LinkOn(w, world, steps, s);
    forall i | 0 <= i <= |steps| ensures StepOfAt(st, view, order + [gvk], more, i) {
      assert i < |steps| ==> StepOfAt(st, view, order, steps, i);
    }
    assert more[|steps|] == s;
    if AnyErrors(steps) {
      var i :| 0 <= i < |steps| && steps[i].errors > 0;
      assert more[i].errors > 0;
    }
  }

  lemma LinkOn(w: Weather, world: World, steps: seq<Step>, s: Step)
    requires IsApply(w, world, steps) && IsStep(w, Final(world, steps), s)
    ensures IsApply(w, world, steps + [s])
  {
    forall i | 0 <= i <= |steps| ensures StepAt(w, world, steps + [s], i) {
      assert i < |steps| ==> StepAt(w, world, steps, i);
    }
  }

  /** The steps of one apply of this set. */
  ghost predicate Applies(st: Settings, view: SetView, order: seq<GVK>, w: Weather, world: World, steps: seq<Step>) {
    view.Agreeing() && NoRepeats(order) && AreSteps(st, view, order, steps) && IsApply(w, world, steps)
  }

  // ---------------------------------------------------------------- safety, from the input

  /** Whatever goes wrong, an apply prunes no object that any version in the set has under its key, or bare in the
      default namespace. */
  lemma WantedIsSpared(st: Settings, view: SetView, order: seq<GVK>, w: Weather, world: World, steps: seq<Step>, i: nat,
                       j: nat)
    requires Applies(st, view, order, w, world, steps)
    requires i < |steps| && j < |steps[i].log| && steps[i].log[j].Deleted? &&
               steps[i].log[j].key !in steps[i].env.wanted
    ensures var k, gk := steps[i].log[j].key, order[i].GroupKind();
            && (forall g: GVK | g.GroupKind() == gk :: k !in view.OfVersion(g))
            && (k.namespace == st.defaultNamespace ==>
                forall g: GVK | g.GroupKind() == gk :: ObjectKey("", k.name) !in view.OfVersion(g))
  {
    var s := steps[i];
    ApplyIsSafe(w, world, steps, i);
    assert StepOfAt(st, view, order, steps, i) && StepAt(w, world, steps, i);
    assert SafeAction(s.env, s.log[j]);
    var gk := order[i].GroupKind();
    assert s.env.kindKeys == view.KindKeys(gk);
    assert !CrossVersion(s.env, s.log[j].key);
  }

  // ---------------------------------------------------------------- what the passes want

  /** Owner mode with pruning, nobody opting out, and no two objects of a cluster-scoped kind that differ only where
      namespaces are dropped. */
  ghost predicate Straight(st: Settings, view: SetView) {
    && (st.subContext != "" || st.owner != None) && !st.noPrune && !st.ensuring
    && (forall g, k | k in view.OfVersion(g) :: StraightEntry(view.OfVersion(g)[k]))
    && (forall g | g in st.scope && !st.scope[g] :: NoClash(WithOwner(st, false, StampedSet(st, view.OfVersion(g)))))
  }

  predicate StraightEntry(doc: Fields) {
    Should(doc, ANNOTATION_CREATE) && Should(doc, ANNOTATION_UPDATE)
  }

  ghost predicate NoClash(objs: ByKey) {
    forall a, b :: !Clash(objs, a, b)
  }

  /** The texts of an object that decide its fate in a pass. */
  predicate SameFate(a: Fields, b: Fields) {
    && AnnotationOf(a, ANNOTATION_CREATE) == AnnotationOf(b, ANNOTATION_CREATE)
    && AnnotationOf(a, ANNOTATION_UPDATE) == AnnotationOf(b, ANNOTATION_UPDATE)
  }

  lemma StampedStays(st: Settings, doc: Fields)
    requires st.subContext != "" || st.owner != None
    ensures OwnHash(st).Some? && Carries(StampedDoc(st, doc), OwnHash(st).value) && SameFate(StampedDoc(st, doc), doc)
  {
    var (labels, annotations) := OwnerStamp(st.lib, st.subContext, st.owner);
    NoFateInStamp(st.subContext, st.owner);
    StampedKeepsFate(doc, labels, annotations);
    StampedCarries(doc, labels, annotations, labels[LABEL_HASH]);
  }

  lemma NoFateInStamp(subContext: string, owner: Option<Owner>)
    ensures ANNOTATION_CREATE !in OwnerAnnotations(subContext, owner)
    ensures ANNOTATION_UPDATE !in OwnerAnnotations(subContext, owner)
  {
    assert |ANNOTATION_CREATE| == |ANNOTATION_UPDATE| == 21;
    assert |LABEL_SUB_CONTEXT| == 32 && |LABEL_GVK| == 24 && |LABEL_NAME| == 25 && |LABEL_NAMESPACE| == 30;
  }

  lemma StampedKeepsFate(doc: Fields, labels: Texts, annotations: Texts)
    requires ANNOTATION_CREATE !in annotations && ANNOTATION_UPDATE !in annotations
    ensures SameFate(Stamped(doc, labels, annotations), doc)
  {
    StampedTexts(doc, labels, annotations, ANNOTATION_CREATE);
    StampedTexts(doc, labels, annotations, ANNOTATION_UPDATE);
    assert |LABEL_APPLIED| == 22;
  }

  lemma StampedCarries(doc: Fields, labels: Texts, annotations: Texts, hash: string)
    requires Get(labels, LABEL_HASH) == Some(hash)
    ensures Carries(Stamped(doc, labels, annotations), hash)
  {
    assert Labels(Stamped(doc, labels, annotations)) == Overlay(Labels(doc), labels);
  }

  /** What owner references and namespaces leave alone. */
  predicate SameTextsAs(a: Fields, b: Fields) {
    && Labels(a) == Labels(b) && Annotations(a) == Annotations(b)
    && Get(Metadata(a), "deletionTimestamp") == Get(Metadata(b), "deletionTimestamp")
  }

  lemma WithRefKeeps(doc: Fields, owner: Owner)
    ensures SameTextsAs(WithRef(doc, owner), doc)
  {
  }

  lemma SetNamespaceKeeps(doc: Fields, namespace: string)
    ensures SameTextsAs(SetNamespace(doc, namespace), doc)
  {
  }

  lemma OwnedKeeps(owner: Owner, nsed: bool, k: ObjectKey, doc: Fields)
    ensures SameTextsAs(OwnedDoc(owner, nsed, k, doc), doc)
  {
    SetNamespaceKeeps(doc, owner.namespace);
    WithRefKeeps(doc, owner);
    WithRefKeeps(SetNamespace(doc, owner.namespace), owner);
  }

  lemma WantedKeeps(st: Settings, nsed: bool, k: ObjectKey, doc: Fields)
    ensures SameTextsAs(WantedDoc(st, nsed, k, doc), StampedDoc(st, doc))
  {
    if st.owner.Some? {
      OwnedKeeps(st.owner.value, nsed, k, StampedDoc(st, doc));
    }
  }

  function WantedDoc(st: Settings, nsed: bool, k: ObjectKey, doc: Fields): Fields {
    if st.owner == None then StampedDoc(st, doc) else OwnedDoc(st.owner.value, nsed, k, StampedDoc(st, doc))
  }

  /** Where the object handed in under a key is wanted: with its namespace as written, or the owner's, or the default
      one; in a cluster-scoped kind without. */
  function Place(st: Settings, nsed: bool, q: ObjectKey): ObjectKey {
    if !nsed then ObjectKey("", q.name)
    else if q.namespace != "" then q
    else if st.owner.Some? && st.owner.value.namespace != "" then ObjectKey(st.owner.value.namespace, q.name)
    else ObjectKey(st.defaultNamespace, q.name)
  }

  /** What is wanted of a version. Without clashes the order of ranging over a cluster-scoped kind does not matter. */
  ghost function Wants(st: Settings, nsed: bool, objs: ByKey): ByKey {
    var owned := WithOwner(st, nsed, StampedSet(st, objs));
    if nsed then Adjusted(st.defaultNamespace, owned) else ClearIn(owned, Enumerate(owned.Keys))
  }

  /** Only metadata can differ, and of that neither labels nor annotations. */
  ghost predicate Same(a: Fields, b: Fields) {
    SameTextsAs(a, b) && forall field | field != "metadata" :: Get(a, field) == Get(b, field)
  }

  lemma SetNamespaceIsSame(doc: Fields, namespace: string)
    ensures Same(SetNamespace(doc, namespace), doc)
  {
    SetNamespaceKeeps(doc, namespace);
  }

  lemma OwnedIsSame(owner: Owner, nsed: bool, k: ObjectKey, doc: Fields)
    ensures Same(OwnedDoc(owner, nsed, k, doc), doc)
  {
    OwnedKeeps(owner, nsed, k, doc);
  }

  /** The key the owner's namespace leads to. */
  function OwnersPlace(st: Settings, nsed: bool, q: ObjectKey): ObjectKey {
    if st.owner.Some? then OwnedKey(st.owner.value, nsed, q) else q
  }

  lemma WithOwnerFrom(st: Settings, nsed: bool, objs: ByKey, k: ObjectKey) returns (q: ObjectKey)
    requires k in WithOwner(st, nsed, objs)
    ensures q in objs && OwnersPlace(st, nsed, q) == k && Same(WithOwner(st, nsed, objs)[k], objs[q])
  {
    if st.owner == None {
      q := k;
    } else {
      q := Origin(st.owner.value, nsed, objs, k);
      OwnedIsSame(st.owner.value, nsed, q, objs[q]);
    }
  }

  lemma WithOwnerHas(st: Settings, nsed: bool, objs: ByKey, q: ObjectKey)
    requires q in objs
    ensures OwnersPlace(st, nsed, q) in WithOwner(st, nsed, objs)
  {
    if st.owner.Some? {
      OwnedGet(st.owner.value, nsed, objs, OwnersPlace(st, nsed, q));
    }
  }

  /** An object of a cluster-scoped kind after clearNamespace. */
  lemma ClearedFrom(objs: ByKey, schedule: seq<ObjectKey>, k: ObjectKey) returns (q: ObjectKey)
    requires IsSchedule(objs, schedule) && k in ClearIn(objs, schedule)
    ensures q in objs && k == ObjectKey("", q.name) && Same(ClearIn(objs, schedule)[k], objs[q])
  {
    ClearInAt(objs, schedule, k);
    var w := Winner(schedule, k.name);
    q := if w.Some? then w.value else k;
    SetNamespaceIsSame(objs[q], "");
  }

  lemma ClearedHas(objs: ByKey, schedule: seq<ObjectKey>, q: ObjectKey)
    requires IsSchedule(objs, schedule) && q in objs
    ensures ObjectKey("", q.name) in ClearIn(objs, schedule)
  {
    ClearInAt(objs, schedule, ObjectKey("", q.name));
    if q.namespace != "" {
      assert Contender(schedule, q.name, q);
    }
  }

  lemma AdjustedFrom(namespace: string, objs: ByKey, k: ObjectKey) returns (q: ObjectKey)
    requires k in Adjusted(namespace, objs)
    ensures q in objs && Same(Adjusted(namespace, objs)[k], objs[q])
    ensures k == if q.namespace == "" then ObjectKey(namespace, q.name) else q
  {
    AdjustedGet(namespace, objs, k);
    var bare := ObjectKey("", k.name);
    q := if k.namespace == namespace && bare in objs then bare else k;
    SetNamespaceIsSame(objs[q], namespace);
  }

  lemma AdjustedHas(namespace: string, objs: ByKey, q: ObjectKey)
    requires q in objs
    ensures (if q.namespace == "" then ObjectKey(namespace, q.name) else q) in Adjusted(namespace, objs)
  {
    AdjustedGet(namespace, objs, if q.namespace == "" then ObjectKey(namespace, q.name) else q);
  }

  /** Every wanted object comes from one that was handed in, and is at its place. */
  lemma WantsFrom(st: Settings, nsed: bool, objs: ByKey, k: ObjectKey) returns (q: ObjectKey)
    requires k in Wants(st, nsed, objs)
    ensures q in objs && Place(st, nsed, q) == k && Same(Wants(st, nsed, objs)[k], StampedDoc(st, objs[q]))
  {
    var stamped := StampedSet(st, objs);
    var owned := WithOwner(st, nsed, stamped);
    var middle := ObjectKey("", "");
    if nsed {
      middle := AdjustedFrom(st.defaultNamespace, owned, k);
    } else {
      middle := ClearedFrom(owned, Enumerate(owned.Keys), k);
    }
    q := WithOwnerFrom(st, nsed, stamped, middle);
  }

  /** And at the place of every object handed in, one is wanted. */
  lemma WantsHas(st: Settings, nsed: bool, objs: ByKey, q: ObjectKey)
    requires q in objs
    ensures Place(st, nsed, q) in Wants(st, nsed, objs)
  {
    var owned := WithOwner(st, nsed, StampedSet(st, objs));
    var middle := OwnersPlace(st, nsed, q);
    WithOwnerHas(st, nsed, StampedSet(st, objs), q);
    if nsed {
      AdjustedHas(st.defaultNamespace, owned, middle);
    } else {
      ClearedHas(owned, Enumerate(owned.Keys), middle);
    }
  }

  lemma WantsIsWanted(st: Settings, nsed: bool, objs: ByKey, wanted: ByKey)
    requires IsWanted(st, nsed, objs, wanted)
    requires !nsed ==> NoClash(WithOwner(st, false, StampedSet(st, objs)))
    ensures wanted == Wants(st, nsed, objs)
  {
    if !nsed {
      var owned := WithOwner(st, nsed, StampedSet(st, objs));
      var schedule: seq<ObjectKey> :| IsSchedule(owned, schedule) && wanted == ClearIn(owned, schedule);
      ClearSame(owned, schedule, Enumerate(owned.Keys));
    }
  }

  /** What a pass of an apply wants of its version. */
  ghost function WantsOf(st: Settings, view: SetView, gvk: GVK): ByKey {
    if gvk in st.scope then Wants(st, st.scope[gvk], view.OfVersion(gvk)) else map[]
  }

  /** The wanted objects carry the owner's hash and opt out of nothing, and do not depend on any order of ranging. */
  lemma EnvIsOwning(st: Settings, view: SetView, gvk: GVK, env: Env)
    requires Straight(st, view) && IsEnv(st, view, gvk, env)
    ensures Owning(env) && env.wanted == WantsOf(st, view, gvk)
  {
    var nsed, objs := st.scope[gvk], view.OfVersion(gvk);
    WantsIsWanted(st, nsed, objs, env.wanted);
    StampedStays(st, map[]);
    forall k | k in env.wanted ensures OwningEntry(env, k) {
      var q := WantsFrom(st, nsed, objs, k);
      StampedStays(st, objs[q]);
      assert StraightEntry(objs[q]);
    }
    OwningByEntries(env);
  }

  lemma OwningByEntries(env: Env)
    requires forall k | k in env.wanted :: OwningEntry(env, k)
    requires env.ownHash.Some? && !env.noPrune && !env.ensuring
    ensures Owning(env)
  {
    assert forall k | k in env.wanted :: OwningEntry(env, k);
  }

  predicate OwningEntry(env: Env, k: ObjectKey) {
    && k in env.wanted && env.ownHash.Some? && Carries(env.wanted[k], env.ownHash.value)
    && Should(env.wanted[k], ANNOTATION_CREATE) && Should(env.wanted[k], ANNOTATION_UPDATE)
  }

  lemma EnvIsUnique(st: Settings, view: SetView, gvk: GVK, a: Env, b: Env)
    requires Straight(st, view) && IsEnv(st, view, gvk, a) && IsEnv(st, view, gvk, b)
    ensures a == b
  {
    EnvIsOwning(st, view, gvk, a);
    EnvIsOwning(st, view, gvk, b);
  }

  // ---------------------------------------------------------------- what the passes know of each other

  /** A pass prunes nothing under such a key. */
  predicate Spared(st: Settings, view: SetView, gk: GroupKind, k: ObjectKey) {
    k in view.KindKeys(gk) || (k.namespace == st.defaultNamespace && ObjectKey("", k.name) in view.KindKeys(gk))
  }

  /** Wherever a version wants an object, the other versions that are processed want one too, or spare it. */
  ghost predicate InSight(st: Settings, view: SetView, order: seq<GVK>) {
    forall g: GVK, h: GVK, k | g in order && h in order && g.GroupKind() == h.GroupKind() && h in st.scope ::
      k in WantsOf(st, view, g) ==> k in WantsOf(st, view, h) || Spared(st, view, g.GroupKind(), k)
  }

  /** An object of a namespaced kind is out of sight of other versions if and only if it was added bare, moved into the
      owner's namespace, which is not the default one, and was not also added there. */
  lemma SparedIff(st: Settings, view: SetView, gk: GroupKind, q: ObjectKey)
    requires q in view.KindKeys(gk)
    ensures Spared(st, view, gk, Place(st, true, q)) <==>
            !(&& q.namespace == "" && st.owner.Some? && st.owner.value.namespace !in {"", st.defaultNamespace}
              && ObjectKey(st.owner.value.namespace, q.name) !in view.KindKeys(gk))
  {
  }

  /** So all is in sight if namespaces are written out. */
  lemma WrittenIsInSight(st: Settings, view: SetView, order: seq<GVK>)
    requires view.Agreeing()
    requires forall g, q | g in st.scope && q in view.OfVersion(g) :: st.scope[g] <==> q.namespace != ""
    ensures InSight(st, view, order)
  {
    forall g: GVK, k | k in WantsOf(st, view, g) ensures Spared(st, view, g.GroupKind(), k) {
      var q := WantsFrom(st, st.scope[g], view.OfVersion(g), k);
    }
  }

  /** And if no two versions of a kind are processed. */
  lemma AloneIsInSight(st: Settings, view: SetView, order: seq<GVK>)
    requires forall g: GVK, h: GVK | g in order && h in order && g.GroupKind() == h.GroupKind() :: g == h
    ensures InSight(st, view, order)
  {
  }

  lemma EnvsAreKnown(st: Settings, view: SetView, order: seq<GVK>, a: Env, b: Env)
    requires Straight(st, view) && IsEnv(st, view, a.gvk, a) && IsEnv(st, view, b.gvk, b)
    requires InSight(st, view, order) && a.gvk in order && b.gvk in order
    ensures KnownTo(a, b)
  {
    EnvIsOwning(st, view, a.gvk, a);
    EnvIsOwning(st, view, b.gvk, b);
    forall k | k in a.wanted && a.gvk.GroupKind() == b.gvk.GroupKind() ensures k in b.wanted || CrossVersion(b, k) {
      assert k in WantsOf(st, view, b.gvk) || Spared(st, view, a.gvk.GroupKind(), k);
    }
  }

  // ---------------------------------------------------------------- convergence, from the input

  ghost predicate IsCalm(st: Settings, w: Weather) {
    && (forall k :: !w.lingers(k))
    && (forall g, a, b :: st.reconcile(g, a, b) == NotHandled)
    && Faithful(st.lib)
  }

  /** An apply of straight input with everything in sight, in which deletions were immediate and no error was met. */
  ghost predicate Succeeds(st: Settings, view: SetView, order: seq<GVK>, w: Weather, world: World, steps: seq<Step>) {
    && Straight(st, view) && InSight(st, view, order)
    && IsCalm(st, w) && TidyWorld(world) && Applies(st, view, order, w, world, steps)
    && forall i | 0 <= i < |steps| :: steps[i].errors == 0
  }

  lemma StepIsKnown(st: Settings, view: SetView, order: seq<GVK>, w: Weather, world: World, steps: seq<Step>, i: nat)
    requires Applies(st, view, order, w, world, steps) && i < |steps| && steps[i].errors == 0
    ensures steps[i].known && IsEnv(st, view, order[i], steps[i].env) && steps[i].env.gvk == order[i]
  {
    assert StepOfAt(st, view, order, steps, i) && StepAt(w, world, steps, i);
  }

  lemma StepWants(st: Settings, view: SetView, order: seq<GVK>, w: Weather, world: World, steps: seq<Step>, i: nat)
    requires Succeeds(st, view, order, w, world, steps) && i < |steps|
    ensures IsEnv(st, view, order[i], steps[i].env) && steps[i].env.gvk == order[i] && order[i] in order
    ensures Owning(steps[i].env) && steps[i].env.wanted == WantsOf(st, view, order[i])
  {
    StepIsKnown(st, view, order, w, world, steps, i);
    EnvIsOwning(st, view, order[i], steps[i].env);
  }

  lemma SuccessIsCoherent(st: Settings, view: SetView, order: seq<GVK>, w: Weather, world: World, steps: seq<Step>)
    requires Succeeds(st, view, order, w, world, steps)
    ensures Coherent(w, steps)
  {
    forall i | 0 <= i < |steps| ensures FineAt(w, steps, i) {
      StepWants(st, view, order, w, world, steps, i);
    }
    forall i, j | 0 <= i < |steps| && 0 <= j < |steps| ensures KnownAt(steps, i, j) {
      StepWants(st, view, order, w, world, steps, i);
      StepWants(st, view, order, w, world, steps, j);
      EnvsAreKnown(st, view, order, steps[i].env, steps[j].env);
    }
  }

  /** Every version with objects gets its step. */
  ghost predicate Covers(view: SetView, order: seq<GVK>) {
    forall g, k | k in view.OfVersion(g) :: g in order
  }

  /** Some version of the kind has an object whose place is the key. */
  ghost predicate Placed(st: Settings, view: SetView, gk: GroupKind, k: ObjectKey) {
    exists g: GVK, q :: g.GroupKind() == gk && g in st.scope && q in view.OfVersion(g) && Place(st, st.scope[g], q) == k
  }

  /** A pass over the kind lists what is under the key. */
  predicate Listed(st: Settings, order: seq<GVK>, gk: GroupKind, k: ObjectKey) {
    exists g | g in order :: g.GroupKind() == gk && ListedBy(st, g, k)
  }

  predicate ListedBy(st: Settings, g: GVK, k: ObjectKey) {
    g in st.scope && (!st.scope[g] || st.listerNamespace == "" || k.namespace == st.listerNamespace)
  }

  /** The owner's object that nobody has under this key, or bare in the default namespace. */
  predicate Leftover(st: Settings, view: SetView, order: seq<GVK>, gk: GroupKind, k: ObjectKey, doc: Fields) {
    Unclaimed(st, view, gk, k, doc) && Listed(st, order, gk, k)
  }

  predicate Unclaimed(st: Settings, view: SetView, gk: GroupKind, k: ObjectKey, doc: Fields) {
    && OwnHash(st).Some? && Carries(doc, OwnHash(st).value) && Prunable(st.lib, doc)
    && !Spared(st, view, gk, k)
  }

  lemma WantedIsInKind(st: Settings, view: SetView, order: seq<GVK>, w: Weather, world: World, steps: seq<Step>,
                       gk: GroupKind, k: ObjectKey)
    requires Succeeds(st, view, order, w, world, steps) && Covers(view, order)
    ensures WantedBy(steps, gk, k) <==> Placed(st, view, gk, k)
  {
    if WantedBy(steps, gk, k) {
      var i :| 0 <= i < |steps| && steps[i].Kind() == gk && k in steps[i].env.wanted;
      StepWants(st, view, order, w, world, steps, i);
      var q := WantsFrom(st, st.scope[order[i]], view.OfVersion(order[i]), k);
    }
    if Placed(st, view, gk, k) {
      var g: GVK, q :| g.GroupKind() == gk && g in st.scope && q in view.OfVersion(g) && Place(st, st.scope[g], q) == k;
      var i :| 0 <= i < |order| && order[i] == g;
      StepWants(st, view, order, w, world, steps, i);
      WantsHas(st, st.scope[g], view.OfVersion(g), q);
    }
  }

  lemma StepStale(st: Settings, view: SetView, order: seq<GVK>, w: Weather, world: World, steps: seq<Step>,
                  i: nat, k: ObjectKey, doc: Fields)
    requires Succeeds(st, view, order, w, world, steps) && i < |steps| && k !in steps[i].env.wanted
    ensures steps[i].Kind() == order[i].GroupKind()
    ensures Stale(steps[i].env, k, doc) <==>
              Unclaimed(st, view, order[i].GroupKind(), k, doc) && ListedBy(st, order[i], k)
  {
    StepWants(st, view, order, w, world, steps, i);
  }

  lemma StaleIsLeftover(st: Settings, view: SetView, order: seq<GVK>, w: Weather, world: World, steps: seq<Step>,
                        gk: GroupKind, k: ObjectKey, doc: Fields)
    requires Succeeds(st, view, order, w, world, steps) && !WantedBy(steps, gk, k)
    ensures StaleFor(steps, |steps|, gk, k, doc) <==> Leftover(st, view, order, gk, k, doc)
  {
    if Leftover(st, view, order, gk, k, doc) {
      var g :| g in order && g.GroupKind() == gk && ListedBy(st, g, k);
      var i :| 0 <= i < |order| && order[i] == g;
      StepWants(st, view, order, w, world, steps, i);
      StepStale(st, view, order, w, world, steps, i, k, doc);
    }
    if StaleFor(steps, |steps|, gk, k, doc) {
      var i :| 0 <= i < |steps| && steps[i].Kind() == gk && Stale(steps[i].env, k, doc);
      StepStale(st, view, order, w, world, steps, i, k, doc);
      assert order[i] in order;
    }
  }

  /** What an error-free apply leaves, key by key and for every kind: where an object of the set has its place there is
      one with the owner's hash; any other goes exactly if it is the owner's leftover, and is as it was otherwise. */
  lemma ApplyLeaves(st: Settings, view: SetView, order: seq<GVK>, w: Weather, world: World, steps: seq<Step>,
                    gk: GroupKind, k: ObjectKey)
    requires Succeeds(st, view, order, w, world, steps) && Covers(view, order)
    ensures var before, after := At(world, gk), At(Final(world, steps), gk);
            if Placed(st, view, gk, k) then IsThere(after, OwnHash(st), k)
            else Get(after, k) == if k in before && Leftover(st, view, order, gk, k, before[k]) then None
                else Get(before, k)
  {
    SuccessIsCoherent(st, view, order, w, world, steps);
    ApplyConverges(w, world, steps);
    WantedIsInKind(st, view, order, w, world, steps, gk, k);
    if Placed(st, view, gk, k) {
      var i :| 0 <= i < |steps| && steps[i].Kind() == gk && k in steps[i].env.wanted;
      WantedIsThere(world, steps, i, k, |steps|);
      StepWants(st, view, order, w, world, steps, i);
    } else {
      UnwantedIs(world, steps, gk, k, |steps|);
      if k in At(world, gk) {
        StaleIsLeftover(st, view, order, w, world, steps, gk, k, At(world, gk)[k]);
      }
    }
  }

  /** Exactly the wanted objects: of what the owner lists and may prune in a kind, namespaced or not, just the objects
      at a place of the set carry its hash, but for those under a key that is spared without being a place. And nothing
      else was touched: an object that neither carries the hash nor is wanted is as it was. */
  lemma ApplyLeavesExactly(st: Settings, view: SetView, order: seq<GVK>, w: Weather, world: World, steps: seq<Step>,
                           gk: GroupKind, k: ObjectKey)
    requires Succeeds(st, view, order, w, world, steps) && Covers(view, order)
    ensures var before, after := At(world, gk), At(Final(world, steps), gk);
            && OwnHash(st).Some?
            && (Placed(st, view, gk, k) ==> k in after && Carries(after[k], OwnHash(st).value))
            && (k in after && Listed(st, order, gk, k) && Prunable(st.lib, after[k]) && !Spared(st, view, gk, k) ==>
                (Carries(after[k], OwnHash(st).value) <==> Placed(st, view, gk, k)))
            && (Spared(st, view, gk, k) && !Placed(st, view, gk, k) ==> Get(after, k) == Get(before, k))
            && (!Placed(st, view, gk, k) && !(k in before && Carries(before[k], OwnHash(st).value)) ==>
                Get(after, k) == Get(before, k))
  {
    StampedStays(st, map[]);
    ApplyLeaves(st, view, order, w, world, steps, gk, k);
  }

  /** With namespaces written out a spared key is a place, unless it has a namespace in a kind with cluster-scoped
      versions. */
  lemma SparedIsPlaced(st: Settings, view: SetView, gk: GroupKind, k: ObjectKey)
    requires view.Agreeing() && Spared(st, view, gk, k)
    requires forall g, q | q in view.OfVersion(g) :: g in st.scope && (st.scope[g] <==> q.namespace != "")
    requires k.namespace != "" ==> forall g: GVK | g.GroupKind() == gk && g in st.scope :: st.scope[g]
    ensures Placed(st, view, gk, k)
  {
    var q := if k in view.KindKeys(gk) then k else ObjectKey("", k.name);
    var g: GVK :| g.GroupKind() == gk && q in view.OfVersion(g);
    assert Place(st, st.scope[g], q) == k;
  }

  // ---------------------------------------------------------------- doing it again

  lemma SameEnvs(st: Settings, view: SetView, order: seq<GVK>, w: Weather, world: World, first: seq<Step>,
                 w2: Weather, world2: World, second: seq<Step>, i: nat)
    requires Succeeds(st, view, order, w, world, first) && Applies(st, view, order, w2, world2, second) && i < |second|
    ensures second[i].env == first[i].env && ReadyAt(second, i)
  {
    StepIsKnown(st, view, order, w, world, first, i);
    assert StepOfAt(st, view, order, second, i);
    EnvIsUnique(st, view, order[i], first[i].env, second[i].env);
    EnvIsOwning(st, view, order[i], second[i].env);
  }

  lemma SecondIsReady(st: Settings, view: SetView, order: seq<GVK>, w: Weather, world: World, first: seq<Step>,
                      w2: Weather, world2: World, second: seq<Step>)
    requires Succeeds(st, view, order, w, world, first) && Applies(st, view, order, w2, world2, second)
    ensures |second| == |first| && forall i | 0 <= i < |first| :: first[i].env == second[i].env
    ensures forall i | 0 <= i < |second| :: ReadyAt(second, i) && (IsCalm(st, w2) ==> CalmAt(w2, second, i))
  {
    forall i | 0 <= i < |second|
      ensures second[i].env == first[i].env && ReadyAt(second, i) && (IsCalm(st, w2) ==> CalmAt(w2, second, i))
    {
      SameEnvs(st, view, order, w, world, first, w2, world2, second, i);
      StepWants(st, view, order, w, world, first, i);
    }
  }

  /** After an error-free apply, the same apply, when no call fails, does nothing and meets no error if and only if the
      keys that versions of one kind want differently are up to date for each of them, and no object is estranged. */
  lemma ApplyingTwiceIff(st: Settings, view: SetView, order: seq<GVK>, w: Weather, world: World,
                         first: seq<Step>, w2: Weather, second: seq<Step>)
    requires Succeeds(st, view, order, w, world, first) && IsCalm(st, w2) && NoneFail(w2)
    requires Applies(st, view, order, w2, Final(world, first), second)
    ensures AllQuiet(second) <==>
              RivalsAreUpToDate(Final(world, first), first) && AllFriendly(Final(world, first), first)
  {
    var final := Final(world, first);
    SuccessIsCoherent(st, view, order, w, world, first);
    ApplyConverges(w, world, first);
    SecondIsReady(st, view, order, w, world, first, w2, final, second);
    SettledIff(world, first);
    SameWants(final, first, second);
    QuietIff(w2, final, second);
  }

  /** Versions of one kind that want an object in one place want the same there. */
  ghost predicate Concordant(st: Settings, view: SetView) {
    forall g: GVK, h: GVK, k |
      k in WantsOf(st, view, g) && k in WantsOf(st, view, h) && g.GroupKind() == h.GroupKind() ::
      WantsOf(st, view, g)[k] == WantsOf(st, view, h)[k]
  }

  lemma ConcordantHasNoRivals(st: Settings, view: SetView, order: seq<GVK>, w: Weather, world: World, steps: seq<Step>,
                              i: nat, k: ObjectKey)
    requires Succeeds(st, view, order, w, world, steps) && Concordant(st, view)
    requires i < |steps| && k in steps[i].env.wanted
    ensures Unrivalled(steps, i, k)
  {
    StepWants(st, view, order, w, world, steps, i);
    forall j | 0 <= j < |steps| ensures Alike(steps, i, j, k) {
      StepWants(st, view, order, w, world, steps, j);
    }
  }

  /** If versions agree, an error-free apply is followed by one that creates, patches and deletes nothing, whatever
      calls fail. If none does, it meets an error only over an estranged object. */
  lemma ApplyingTwice(st: Settings, view: SetView, order: seq<GVK>, w: Weather, world: World, first: seq<Step>,
                      w2: Weather, second: seq<Step>)
    requires Succeeds(st, view, order, w, world, first) && Concordant(st, view)
    requires Applies(st, view, order, w2, Final(world, first), second)
    ensures SameWorld(Final(Final(world, first), second), Final(world, first))
    ensures forall i | 0 <= i < |second| :: UnmovedAt(w2, Final(world, first), second, i)
  {
    var final := Final(world, first);
    SuccessIsCoherent(st, view, order, w, world, first);
    ApplyConverges(w, world, first);
    forall i, k | 0 <= i < |first| && k in first[i].env.wanted ensures Unrivalled(first, i, k) {
      ConcordantHasNoRivals(st, view, order, w, world, first, i, k);
    }
    SettledIff(world, first);
    SecondIsReady(st, view, order, w, world, first, w2, final, second);
    SameWants(final, first, second);
    RepeatedApplyIsQuiet(w2, final, second, |second|);
  }

  /** An object that its pass lists is never estranged once it is up to date. */
  lemma ListedIsNotEstranged(env: Env, objs: ByKey, k: ObjectKey)
    requires Visible(env, k) && (k in env.wanted ==> UpToDate(env, objs, k))
    ensures !Estranged(env, objs, k)
  {
  }

  /** So if the lister sees every place of the set, the second apply is without error as well when no call fails. */
  lemma ApplyingTwiceWhenListed(st: Settings, view: SetView, order: seq<GVK>, w: Weather, world: World,
                                first: seq<Step>, w2: Weather, second: seq<Step>)
    requires Succeeds(st, view, order, w, world, first) && Concordant(st, view) && NoneFail(w2)
    requires Applies(st, view, order, w2, Final(world, first), second)
    requires forall g, k | k in WantsOf(st, view, g) :: ListedBy(st, g, k)
    ensures AllQuiet(second)
  {
    var final := Final(world, first);
    ApplyingTwice(st, view, order, w, world, first, w2, second);
    forall i | 0 <= i < |second| ensures IsQuiet(second[i]) {
      assert UnmovedAt(w2, final, second, i);
      SameEnvs(st, view, order, w, world, first, w2, final, second, i);
      StepWants(st, view, order, w, world, first, i);
      forall k ensures !Estranged(second[i].env, At(final, second[i].Kind()), k) {
        if k in second[i].env.wanted {
          ListedStaysFriendly(st, view, order, w, world, first, i, k);
        }
      }
    }
  }

  lemma ListedStaysFriendly(st: Settings, view: SetView, order: seq<GVK>, w: Weather, world: World, steps: seq<Step>,
                            i: nat, k: ObjectKey)
    requires Succeeds(st, view, order, w, world, steps) && Concordant(st, view)
    requires i < |steps| && k in steps[i].env.wanted && ListedBy(st, order[i], k)
    ensures !Estranged(steps[i].env, At(Final(world, steps), steps[i].Kind()), k)
  {
    SuccessIsCoherent(st, view, order, w, world, steps);
    ApplyConverges(w, world, steps);
    ConcordantHasNoRivals(st, view, order, w, world, steps, i, k);
    WantedIsUpToDate(world, steps, i, k, |steps|);
    StepWants(st, view, order, w, world, steps, i);
    ListedIsNotEstranged(steps[i].env, At(Final(world, steps), steps[i].Kind()), k);
  }

  lemma QuietIsSettled(st: Settings, view: SetView, order: seq<GVK>, w: Weather, world: World, steps: seq<Step>, i: nat)
    requires Straight(st, view) && IsCalm(st, w) && TidyWorld(world) && Applies(st, view, order, w, world, steps)
    requires AllQuiet(steps) && i < |steps|
    ensures IsEnv(st, view, order[i], steps[i].env) && steps[i].Kind() == order[i].GroupKind()
    ensures Settled(steps[i].env, At(world, steps[i].Kind())) && steps[i].env.wanted == WantsOf(st, view, order[i])
  {
    forall j | 0 <= j < |steps|
      ensures FineAt(w, steps, j) && steps[j].log == [] && IsEnv(st, view, order[j], steps[j].env)
      ensures steps[j].env.gvk == order[j] && steps[j].env.wanted == WantsOf(st, view, order[j])
    {
      assert IsQuiet(steps[j]);
      StepIsKnown(st, view, order, w, world, steps, j);
      EnvIsOwning(st, view, order[j], steps[j].env);
    }
    QuietMeansSettled(w, world, steps, |steps|);
    assert SettledAt(world, steps, i);
  }

  lemma SettledEnv(st: Settings, view: SetView, order: seq<GVK>, w: Weather, world: World, steps: seq<Step>, g: GVK)
      returns (env: Env)
    requires Straight(st, view) && IsCalm(st, w) && TidyWorld(world) && Applies(st, view, order, w, world, steps)
    requires AllQuiet(steps) && g in order
    ensures IsEnv(st, view, g, env) && Settled(env, At(world, g.GroupKind())) && env.wanted == WantsOf(st, view, g)
  {
    var i :| 0 <= i < |order| && order[i] == g;
    QuietIsSettled(st, view, order, w, world, steps, i);
    env := steps[i].env;
  }

  lemma SettledForBoth(a: Env, b: Env, objs: ByKey, k: ObjectKey)
    requires a.lib == b.lib && a.ownHash == b.ownHash && Settled(a, objs) && Settled(b, objs)
    requires k in a.wanted && k !in b.wanted && Visible(b, k) && !CrossVersion(b, k)
    ensures k in objs && !Prunable(a.lib, objs[k])
  {
    assert UpToDate(a, objs, k);
    assert !Stale(b, k, objs[k]);
  }

  /** Without everything in sight there is no rest either: an apply that has an object out of sight of another version,
      which lists its place, is quiet only over an object there that must not be pruned. */
  lemma HiddenNeverRests(st: Settings, view: SetView, order: seq<GVK>, w: Weather, world: World, steps: seq<Step>,
                         g: GVK, h: GVK, k: ObjectKey)
    requires Straight(st, view) && IsCalm(st, w) && TidyWorld(world) && Applies(st, view, order, w, world, steps)
    requires g in order && h in order && g.GroupKind() == h.GroupKind() && ListedBy(st, h, k)
    requires k in WantsOf(st, view, g) && k !in WantsOf(st, view, h) && !Spared(st, view, g.GroupKind(), k)
    ensures AllQuiet(steps) ==>
              var objs := At(world, g.GroupKind()); k in objs && !Prunable(st.lib, objs[k])
  {
    if AllQuiet(steps) {
      var a := SettledEnv(st, view, order, w, world, steps, g);
      var b := SettledEnv(st, view, order, w, world, steps, h);
      SettledForBoth(a, b, At(world, g.GroupKind()), k);
    }
  }

  /** Two versions that want different texts in a field at the top never come to rest: where deletions are immediate, no
      error-free apply of this input is quiet. */
  lemma RivalsNeverRest(st: Settings, view: SetView, order: seq<GVK>, w: Weather, world: World, steps: seq<Step>,
                        g: GVK, h: GVK, k: ObjectKey, field: string)
    requires Succeeds(st, view, order, w, world, steps) && g in order && h in order && g.GroupKind() == h.GroupKind()
    requires k in WantsOf(st, view, g) && k in WantsOf(st, view, h)
    requires field !in {"metadata", "kind", "apiVersion", "status"}
    requires field in WantsOf(st, view, g)[k] && WantsOf(st, view, g)[k][field].Str?
    requires field in WantsOf(st, view, h)[k] && WantsOf(st, view, h)[k][field].Str?
    requires WantsOf(st, view, g)[k][field] != WantsOf(st, view, h)[k][field]
    ensures !AllQuiet(steps)
  {
    if AllQuiet(steps) {
      var a := SettledText(st, view, order, w, world, steps, g, k, field);
      var b := SettledText(st, view, order, w, world, steps, h, k, field);
    }
  }

  /** In a settled kind, a text at the top of a wanted object is on the server. */
  lemma SettledText(st: Settings, view: SetView, order: seq<GVK>, w: Weather, world: World, steps: seq<Step>,
                    g: GVK, k: ObjectKey, field: string) returns (s: Step)
    requires Succeeds(st, view, order, w, world, steps) && g in order && k in WantsOf(st, view, g)
    requires AllQuiet(steps)
    requires field !in {"metadata", "kind", "apiVersion", "status"}
    requires field in WantsOf(st, view, g)[k] && WantsOf(st, view, g)[k][field].Str?
    ensures s.Kind() == g.GroupKind() && k in At(world, s.Kind())
    ensures Leaf(Obj(At(world, s.Kind())[k]), [field]) == Some(WantsOf(st, view, g)[k][field])
  {
    var i :| 0 <= i < |order| && order[i] == g;
    s := steps[i];
    SuccessIsCoherent(st, view, order, w, world, steps);
    QuietMeansSettled(w, world, steps, |steps|);
    StepWants(st, view, order, w, world, steps, i);
    assert SettledAt(world, steps, i) && UpToDate(s.env, At(world, s.Kind()), k);
    TextIsOnServer(st.lib, g, At(world, s.Kind())[k], s.env.wanted[k], field);
  }

  lemma ModifiedText(lib: Library, gvk: GVK, wanted: Fields, field: string)
    requires field !in {"metadata", "kind", "apiVersion"} && field in wanted && wanted[field].Str?
    ensures Get(Modified(lib, gvk, wanted), field) == Some(wanted[field])
  {
    ModifiedAt(lib, gvk, wanted, field);
    WireGet(lib, wanted, field);
  }

  lemma TopLeaf(doc: Fields, field: string)
    ensures Get(doc, field).Some? && Get(doc, field).value.Str? ==> Leaf(Obj(doc), [field]) == Get(doc, field)
    ensures Leaf(Obj(doc), [field]).Some? ==> Leaf(Obj(doc), [field]) == Get(doc, field)
  {
    assert [field][1..] == [];
  }

  lemma TextIsOnServer(lib: Library, gvk: GVK, before: Fields, wanted: Fields, field: string)
    requires WellFormed(before) && SentPatch(lib, gvk, before, wanted) == Ok(map[])
    requires field !in {"metadata", "kind", "apiVersion", "status"} && field in wanted && wanted[field].Str?
    ensures Leaf(Obj(before), [field]) == Some(wanted[field])
  {
    ModifiedText(lib, gvk, wanted, field);
    TopLeaf(Modified(lib, gvk, wanted), field);
    MergeNothing(before);
    WantedIsOnServer(lib, gvk, before, wanted, [field]);
  }
}
