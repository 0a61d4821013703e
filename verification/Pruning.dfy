/** Where pruning takes an object that somebody wants: another owner's, because the two share a label, or one that an
    earlier pass of the same apply created, because it moved (pkg/apply/desiredset_process.go:137-150, 409-415,
    pkg/apply/desiredset_apply.go:183-189). */
module Pruning {
  import opened Base
  import opened Kinds
  import opened Json
  import opened Prune
  import opened Sanitize
  import opened ApplyPatch
  import opened ObjectSet
  import opened Normalize
  import opened Ownership
  import opened Process
  import opened Convergence
  import opened WholeApply
  import opened Apply

  // ---------------------------------------------------------------- what a created object says

  /** Neither doomed nor opting out of pruning. */
  predicate MayGo(doc: Fields) {
    !IsDoomed(doc) && ANNOTATION_PRUNE !in Annotations(doc)
  }

  lemma ModifiedText(lib: Library, gvk: GVK, x: Fields, name: string)
    requires name != LABEL_APPLIED && (name in Annotations(x) ==> Annotations(x)[name].Str?)
    ensures Get(Annotations(Modified(lib, gvk, x)), name) == Get(Annotations(x), name)
  {
    ModifiedAt(lib, gvk, x, name);
    WireNested(lib, x);
    WireGet(lib, Annotations(x), name);
  }

  lemma ModifiedLabel(lib: Library, gvk: GVK, x: Fields, name: string)
    requires name in Labels(x) && Labels(x)[name].Str?
    ensures Get(Labels(Modified(lib, gvk, x)), name) == Get(Labels(x), name)
    ensures IsDoomed(Modified(lib, gvk, x)) <==> IsDoomed(x)
  {
    ModifiedAt(lib, gvk, x, "labels");
    ModifiedAt(lib, gvk, x, "deletionTimestamp");
    WireNested(lib, x);
    WireGet(lib, Metadata(x), "labels");
    WireGet(lib, Metadata(x), "deletionTimestamp");
    WireGet(lib, Labels(x), name);
  }

  lemma SameTexts(a: Fields, b: Fields)
    requires forall name | name in {LABEL_SUB_CONTEXT, LABEL_GVK, LABEL_NAME, LABEL_NAMESPACE} ::
               Get(Annotations(a), name) == Get(Annotations(b), name)
    ensures HashInput(AnnotationTexts(a)) == HashInput(AnnotationTexts(b))
  {
    forall name | name in {LABEL_SUB_CONTEXT, LABEL_GVK, LABEL_NAME, LABEL_NAMESPACE}
      ensures TextAt(AnnotationTexts(a), name) == TextAt(AnnotationTexts(b), name)
    {
      assert Get(Annotations(a), name) == Get(Annotations(b), name);
    }
  }

  /** A stamped object has its owner's texts. */
  predicate HasOwner(doc: Fields, hash: string) {
    && Carries(doc, hash)
    && forall name | name in {LABEL_SUB_CONTEXT, LABEL_GVK, LABEL_NAME, LABEL_NAMESPACE} ::
         name in Annotations(doc) && Annotations(doc)[name].Str?
  }

  lemma CreatedIsPrunable(lib: Library, gvk: GVK, x: Fields, hash: string)
    requires HasOwner(x, hash) && hash == HashOf(lib, x) && MayGo(x)
    ensures Carries(Modified(lib, gvk, x), hash) && Prunable(lib, Modified(lib, gvk, x))
  {
    var d := Modified(lib, gvk, x);
    ModifiedLabel(lib, gvk, x, LABEL_HASH);
    forall name | name in {LABEL_SUB_CONTEXT, LABEL_GVK, LABEL_NAME, LABEL_NAMESPACE}
      ensures Get(Annotations(d), name) == Get(Annotations(x), name)
    {
      assert |LABEL_APPLIED| == 22 && |name| != 22;
      ModifiedText(lib, gvk, x, name);
    }
    SameTexts(d, x);
    assert |ANNOTATION_PRUNE| == 20 && |LABEL_APPLIED| == 22;
    ModifiedText(lib, gvk, x, ANNOTATION_PRUNE);
  }

  lemma OwnerTextsAre(subContext: string, owner: Owner)
    ensures OwnerAnnotations(subContext, Some(owner)).Keys ==
              {LABEL_SUB_CONTEXT, LABEL_GVK, LABEL_NAME, LABEL_NAMESPACE}
    ensures ANNOTATION_PRUNE !in OwnerAnnotations(subContext, Some(owner))
  {
    assert |LABEL_SUB_CONTEXT| == 32 && |LABEL_GVK| == 24 && |LABEL_NAME| == 25 && |LABEL_NAMESPACE| == 30;
    assert |ANNOTATION_PRUNE| == 20;
  }

  lemma StampedLeaves(doc: Fields, labels: Texts, annotations: Texts)
    requires MayGo(doc) && ANNOTATION_PRUNE !in annotations
    ensures MayGo(Stamped(doc, labels, annotations))
    ensures forall name | name in annotations ::
              Get(Annotations(Stamped(doc, labels, annotations)), name) == Some(Str(annotations[name]))
  {
    var d := Stamped(doc, labels, annotations);
    assert Annotations(d) == Overlay(Annotations(doc) - {LABEL_APPLIED}, annotations);
  }

  lemma StampedHasOwner(st: Settings, doc: Fields)
    requires st.owner.Some? && MayGo(doc)
    ensures OwnHash(st).Some? && HasOwner(StampedDoc(st, doc), OwnHash(st).value)
    ensures OwnHash(st).value == HashOf(st.lib, StampedDoc(st, doc)) && MayGo(StampedDoc(st, doc))
  {
    var (labels, annotations) := OwnerStamp(st.lib, st.subContext, st.owner);
    OwnerTextsAre(st.subContext, st.owner.value);
    StampIsConsistent(st.lib, st.subContext, st.owner, doc);
    StampedCarries(doc, labels, annotations, labels[LABEL_HASH]);
    StampedLeaves(doc, labels, annotations);
    forall name | name in annotations
      ensures name in Annotations(StampedDoc(st, doc)) && Annotations(StampedDoc(st, doc))[name].Str?
    {
      assert Get(Annotations(StampedDoc(st, doc)), name) == Some(Str(annotations[name]));
    }
  }

  lemma WantedHasOwner(st: Settings, nsed: bool, k: ObjectKey, doc: Fields)
    requires st.owner.Some? && MayGo(doc)
    ensures OwnHash(st).Some? && HasOwner(WantedDoc(st, nsed, k, doc), OwnHash(st).value)
    ensures OwnHash(st).value == HashOf(st.lib, WantedDoc(st, nsed, k, doc)) && MayGo(WantedDoc(st, nsed, k, doc))
  {
    StampedHasOwner(st, doc);
    WantedKeeps(st, nsed, k, doc);
    SameTexts(WantedDoc(st, nsed, k, doc), StampedDoc(st, doc));
  }

  // ---------------------------------------------------------------- another owner's object

  /** An object that `b` created and `a` does not want is in the plan of a's pass, to be deleted, if and only if the two
      have one label. */
  lemma OthersObjectIsPrunedIff(a: Settings, b: Settings, env: Env, objs: ByKey, plan: Plan, gvk: GVK, k: ObjectKey,
                                doc: Fields)
    requires a.lib == b.lib == env.lib && b.owner.Some? && MayGo(doc) && env.ownHash == OwnHash(a) && env.ownHash.Some?
    requires Get(objs, k) == Some(Modified(b.lib, gvk, WantedDoc(b, env.namespaced, k, doc)))
    requires IsPlan(env, Existing(env, objs), plan)
    requires Visible(env, k) && k !in env.wanted && !CrossVersion(env, k)
    ensures k in plan.toDelete <==> OwnHash(a) == OwnHash(b)
  {
    WantedHasOwner(b, env.namespaced, k, doc);
    CreatedIsPrunable(b.lib, gvk, WantedDoc(b, env.namespaced, k, doc), OwnHash(b).value);
    assert k in Existing(env, objs) <==> OwnHash(a) == OwnHash(b);
  }

  /** Then it does go: after an error-free pass for `a`, the object of `b` is no more. */
  lemma OthersObjectGoes(a: Settings, b: Settings, env: Env, w: Weather, cluster: Cluster, plan: Plan,
                         gvk: GVK, k: ObjectKey, doc: Fields)
    requires a.lib == b.lib == env.lib && b.owner.Some? && MayGo(doc) && env.ownHash == OwnHash(a) == OwnHash(b)
    requires Get(cluster.objs, k) == Some(Modified(b.lib, gvk, WantedDoc(b, env.namespaced, k, doc)))
    requires IsPlan(env, Existing(env, cluster.objs), plan) && Calm(env, w) && Owning(env)
    requires Run(env, w, cluster, Existing(env, cluster.objs), plan).errors == 0
    requires Visible(env, k) && k !in env.wanted && !CrossVersion(env, k)
    ensures k !in Run(env, w, cluster, Existing(env, cluster.objs), plan).cluster.objs
  {
    WantedHasOwner(b, env.namespaced, k, doc);
    CreatedIsPrunable(b.lib, gvk, WantedDoc(b, env.namespaced, k, doc), OwnHash(b).value);
    PassReachesAim(env, w, cluster, plan, k);
    assert Get(Run(env, w, cluster, Existing(env, cluster.objs), plan).cluster.objs, k) == None;
  }

  // ---------------------------------------------------------------- an object that moved

  /** An object added bare moves into a namespaced owner's namespace, but the kind index keeps its bare name. The pass
      of a version that does not want it, if it lists it and may prune it, deletes it unless that namespace is the
      default one or the same key was also added with the namespace written out. */
  lemma MovedObjectIsPrunedIff(env: Env, objs: ByKey, plan: Plan, owner: Owner, name: string)
    requires owner.namespace != "" && ObjectKey("", name) in env.kindKeys && IsPlan(env, Existing(env, objs), plan)
    requires var k := OwnedKey(owner, true, ObjectKey("", name));
             k in Existing(env, objs) && Prunable(env.lib, objs[k]) && k !in env.wanted
    ensures var k := OwnedKey(owner, true, ObjectKey("", name));
            k in plan.toDelete <==> !(owner.namespace == env.defaultNamespace || k in env.kindKeys)
  {
    var k := OwnedKey(owner, true, ObjectKey("", name));
    assert k in plan.toDelete <==>
             k !in env.wanted && Prunable(env.lib, Existing(env, objs)[k]) && !CrossVersion(env, k);
  }

  /** Settings of a namespaced owner outside the default namespace. */
  predicate Moving(st: Settings, a: GVK, b: GVK) {
    && st.owner.Some? && st.owner.value.namespace !in {"", st.defaultNamespace} && !st.noPrune && !st.ensuring
    && st.listerNamespace in {"", st.owner.value.namespace}
    && a != b && a.GroupKind() == b.GroupKind() && a in st.scope && b in st.scope && st.scope[a] && st.scope[b]
  }

  const CALM := Weather(_ => false, _ => false)

  /** A set with one object, added bare in version `a`. */
  function OneObject(a: GVK, name: string, doc: Fields): SetView {
    var objs := map[ObjectKey("", name) := doc];
    SetView(map[a := objs], map[a.GroupKind() := objs])
  }

  function MovedKey(st: Settings, name: string): ObjectKey
    requires st.owner.Some?
  {
    ObjectKey(st.owner.value.namespace, name)
  }

  lemma OneObjectAgrees(a: GVK, name: string, doc: Fields)
    ensures OneObject(a, name, doc).Agreeing()
  {
    var view := OneObject(a, name, doc);
    forall gk, key
      ensures key in view.KindKeys(gk) <==> exists gvk: GVK :: gvk.GroupKind() == gk && key in view.OfVersion(gvk)
    {
      assert key in view.KindKeys(gk) ==> a.GroupKind() == gk && key in view.OfVersion(a);
    }
  }

  lemma OneObjectIs(a: GVK, b: GVK, name: string, doc: Fields)
    requires a != b && a.GroupKind() == b.GroupKind()
    ensures var view := OneObject(a, name, doc);
            && view.OfVersion(a) == map[ObjectKey("", name) := doc] && view.OfVersion(b) == map[]
            && view.KindKeys(b.GroupKind()) == {ObjectKey("", name)}
  {
  }

  lemma OwnedOne(owner: Owner, name: string, x: Fields)
    requires owner.namespace != ""
    ensures Owned(owner, true, map[ObjectKey("", name) := x]) ==
            map[ObjectKey(owner.namespace, name) := OwnedDoc(owner, true, ObjectKey("", name), x)]
  {
    var objs, k := map[ObjectKey("", name) := x], ObjectKey(owner.namespace, name);
    var r := map[k := OwnedDoc(owner, true, ObjectKey("", name), x)];
    forall q ensures Get(Owned(owner, true, objs), q) == Get(r, q) {
      OwnedGet(owner, true, objs, q);
    }
    SameByGet(Owned(owner, true, objs), r);
  }

  lemma AdjustedStays(namespace: string, objs: ByKey)
    requires forall k | k in objs :: k.namespace != ""
    ensures Adjusted(namespace, objs) == objs
  {
    forall q ensures Get(Adjusted(namespace, objs), q) == Get(objs, q) {
      AdjustedGet(namespace, objs, q);
    }
    SameByGet(Adjusted(namespace, objs), objs);
  }

  lemma MovedWanted(st: Settings, name: string, doc: Fields) returns (wanted: ByKey)
    requires st.owner.Some? && st.owner.value.namespace != ""
    ensures IsWanted(st, true, map[ObjectKey("", name) := doc], wanted)
    ensures wanted == map[MovedKey(st, name) := WantedDoc(st, true, ObjectKey("", name), doc)]
  {
    wanted := map[MovedKey(st, name) := WantedDoc(st, true, ObjectKey("", name), doc)];
    OneWithOwner(st, name, doc);
    AdjustedStays(st.defaultNamespace, wanted);
  }

  lemma OneWithOwner(st: Settings, name: string, doc: Fields)
    requires st.owner.Some? && st.owner.value.namespace != ""
    ensures WithOwner(st, true, StampedSet(st, map[ObjectKey("", name) := doc])) ==
            map[MovedKey(st, name) := WantedDoc(st, true, ObjectKey("", name), doc)]
  {
    OneStamped(st, ObjectKey("", name), doc);
    OwnedOne(st.owner.value, name, StampedDoc(st, doc));
  }

  lemma OneStamped(st: Settings, k: ObjectKey, doc: Fields)
    ensures StampedSet(st, map[k := doc]) == map[k := StampedDoc(st, doc)]
  {
    var one, x := map[k := doc], StampedDoc(st, doc);
    assert StampedSet(st, one).Keys == {k} && StampedSet(st, one)[k] == StampedDoc(st, one[k]) && one[k] == doc;
    OnlyEntry(StampedSet(st, one), k, x);
  }

  lemma OnlyEntry(objs: ByKey, k: ObjectKey, x: Fields)
    requires objs.Keys == {k} && objs[k] == x
    ensures objs == map[k := x]
  {
  }

  lemma NothingWanted(st: Settings)
    requires st.owner.Some?
    ensures IsWanted(st, true, map[], map[])
  {
    var none: ByKey := map[];
    assert StampedSet(st, none) == none;
    forall q ensures Get(Owned(st.owner.value, true, none), q) == None {
      OwnedGet(st.owner.value, true, none, q);
    }
    SameByGet(Owned(st.owner.value, true, none), none);
    AdjustedStays(st.defaultNamespace, none);
  }

  /** A pass that wants one object, over an empty kind. */
  lemma PassCreates(env: Env, k: ObjectKey)
    requires env.wanted.Keys == {k} && env.ownHash.Some? && !env.ensuring && Should(env.wanted[k], ANNOTATION_CREATE)
    ensures var d := Modified(env.lib, env.gvk, env.wanted[k]);
            IsPass(env, CALM, map[], [Created(k, d)], 0, map[k := d])
  {
    var plan, d := Plan([k], [], []), Modified(env.lib, env.gvk, env.wanted[k]);
    assert Existing(env, map[]) == map[];
    assert IsPlan(env, map[], plan);
    var s := Start(map[], plan, Cluster(map[], [], 0));
    assert plan.toCreate[..0] == [];
    assert CreateAll(env, CALM, s, plan.toCreate) == CreateF(env, CALM, s, k);
    assert IsRun(env, CALM, map[], 0, plan, [Created(k, d)], 0, map[k := d]);
  }

  /** A pass that wants nothing, over one object of the owner. */
  lemma PassPrunes(env: Env, k: ObjectKey, d: Fields)
    requires env.wanted == map[] && env.ownHash.Some? && !env.noPrune && Carries(d, env.ownHash.value)
    requires Visible(env, k) && Prunable(env.lib, d) && !CrossVersion(env, k)
    ensures IsPass(env, CALM, map[k := d], [Deleted(k, d)], 0, map[])
  {
    var plan := Plan([], [k], []);
    assert Existing(env, map[k := d]) == map[k := d];
    assert IsPlan(env, map[k := d], plan);
    var s := Start(map[k := d], plan, Cluster(map[k := d], [], 0));
    assert plan.toDelete[..0] == [];
    assert DeleteAll(CALM, s, plan.toDelete) == DeleteF(CALM, s, k);
    assert map[k := d] - {k} == map[];
    assert IsRun(env, CALM, map[k := d], 0, plan, [Deleted(k, d)], 0, map[]);
  }

  /** What the first pass creates. */
  function MovedDoc(st: Settings, a: GVK, name: string, doc: Fields): Fields {
    Modified(st.lib, a, WantedDoc(st, true, ObjectKey("", name), doc))
  }

  /** A pass, written down as a step. */
  lemma AsStep(st: Settings, view: SetView, gvk: GVK, env: Env, w: Weather, before: World, log: seq<Action>,
               after: ByKey)
    requires IsEnv(st, view, gvk, env) && env.gvk == gvk
    requires IsPass(env, w, At(before, gvk.GroupKind()), log, 0, after)
    ensures var s := Step(env, true, log, 0, before[gvk.GroupKind() := after]);
            IsStep(w, before, s) && IsStepOf(st, view, gvk, s)
  {
  }

  lemma CreatingStep(st: Settings, view: SetView, gvk: GVK, k: ObjectKey, x: Fields, wanted: ByKey) returns (s: Step)
    requires gvk in st.scope && st.scope[gvk] && IsWanted(st, true, view.OfVersion(gvk), wanted) &&
               wanted == map[k := x]
    requires OwnHash(st).Some? && !st.ensuring && Should(x, ANNOTATION_CREATE)
    ensures var d := Modified(st.lib, gvk, x);
            && IsStep(CALM, map[], s) && IsStepOf(st, view, gvk, s)
            && s.log == [Created(k, d)] && s.errors == 0 && s.after == map[gvk.GroupKind() := map[k := d]]
  {
    var env, d := EnvWith(st, view, gvk, true, wanted), Modified(st.lib, gvk, x);
    PassCreates(env, k);
    AsStep(st, view, gvk, env, CALM, map[], [Created(k, d)], map[k := d]);
    s := Step(env, true, [Created(k, d)], 0, map[gvk.GroupKind() := map[k := d]]);
  }

  lemma PruningStep(st: Settings, view: SetView, gvk: GVK, k: ObjectKey, d: Fields) returns (s: Step)
    requires gvk in st.scope && st.scope[gvk] && IsWanted(st, true, view.OfVersion(gvk), map[])
    requires OwnHash(st).Some? && !st.noPrune && Carries(d, OwnHash(st).value) && Prunable(st.lib, d)
    requires st.listerNamespace in {"", k.namespace} && k !in view.KindKeys(gvk.GroupKind()) &&
               k.namespace != st.defaultNamespace
    ensures IsStep(CALM, map[gvk.GroupKind() := map[k := d]], s) && IsStepOf(st, view, gvk, s)
    ensures s.log == [Deleted(k, d)] && s.errors == 0
  {
    var env, before := EnvWith(st, view, gvk, true, map[]), map[gvk.GroupKind() := map[k := d]];
    PassPrunes(env, k, d);
    AsStep(st, view, gvk, env, CALM, before, [Deleted(k, d)], map[]);
    s := Step(env, true, [Deleted(k, d)], 0, before[gvk.GroupKind() := map[]]);
  }

  lemma TwoSteps(st: Settings, view: SetView, a: GVK, b: GVK, w: Weather, world: World, one: Step, middle: World,
                 two: Step)
    requires view.Agreeing() && a != b && IsStepOf(st, view, a, one) && IsStepOf(st, view, b, two)
    requires IsStep(w, world, one) && one.after == middle && IsStep(w, middle, two)
    ensures Applies(st, view, [a, b], w, world, [one, two])
  {
    var steps := [one, two];
    assert StepAt(w, world, steps, 0) && StepAt(w, world, steps, 1);
    assert StepOfAt(st, view, [a, b], steps, 0) && StepOfAt(st, view, [a, b], steps, 1);
  }

  lemma WantedMayBeCreated(st: Settings, nsed: bool, k: ObjectKey, doc: Fields)
    requires st.owner.Some? && Should(doc, ANNOTATION_CREATE)
    ensures OwnHash(st).Some? && Should(WantedDoc(st, nsed, k, doc), ANNOTATION_CREATE)
  {
    StampedStays(st, doc);
    WantedKeeps(st, nsed, k, doc);
    assert AnnotationOf(WantedDoc(st, nsed, k, doc), ANNOTATION_CREATE) ==
             AnnotationOf(StampedDoc(st, doc), ANNOTATION_CREATE);
  }

  lemma FirstStep(st: Settings, view: SetView, a: GVK, name: string, doc: Fields) returns (one: Step)
    requires st.owner.Some? && st.owner.value.namespace != "" && !st.ensuring && a in st.scope && st.scope[a]
    requires view.OfVersion(a) == map[ObjectKey("", name) := doc] && Should(doc, ANNOTATION_CREATE)
    ensures IsStep(CALM, map[], one) && IsStepOf(st, view, a, one) && one.errors == 0
    ensures one.log == [Created(MovedKey(st, name), MovedDoc(st, a, name, doc))]
    ensures one.after == map[a.GroupKind() := map[MovedKey(st, name) := MovedDoc(st, a, name, doc)]]
  {
    var wanted := MovedWanted(st, name, doc);
    WantedMayBeCreated(st, true, ObjectKey("", name), doc);
    one := CreatingStep(st, view, a, MovedKey(st, name), WantedDoc(st, true, ObjectKey("", name), doc), wanted);
  }

  lemma SecondStep(st: Settings, view: SetView, a: GVK, b: GVK, name: string, doc: Fields) returns (two: Step)
    requires Moving(st, a, b) && MayGo(doc) && view.OfVersion(b) == map[]
    requires view.KindKeys(b.GroupKind()) == {ObjectKey("", name)}
    ensures IsStepOf(st, view, b, two) && two.errors == 0
    ensures IsStep(CALM, map[a.GroupKind() := map[MovedKey(st, name) := MovedDoc(st, a, name, doc)]], two)
    ensures two.log == [Deleted(MovedKey(st, name), MovedDoc(st, a, name, doc))]
  {
    NothingWanted(st);
    MovedDocIsPrunable(st, a, name, doc);
    two := PruningStep(st, view, b, MovedKey(st, name), MovedDoc(st, a, name, doc));
  }

  lemma MovedDocIsPrunable(st: Settings, a: GVK, name: string, doc: Fields)
    requires st.owner.Some? && MayGo(doc)
    ensures OwnHash(st).Some? && Carries(MovedDoc(st, a, name, doc), OwnHash(st).value)
    ensures Prunable(st.lib, MovedDoc(st, a, name, doc))
  {
    WantedHasOwner(st, true, ObjectKey("", name), doc);
    CreatedIsPrunable(st.lib, a, WantedDoc(st, true, ObjectKey("", name), doc), OwnHash(st).value);
  }

  /** So there is an apply, without any error, whose second pass deletes the object its first pass created. */
  lemma MovedObjectGoes(st: Settings, a: GVK, b: GVK, name: string, doc: Fields) returns (steps: seq<Step>)
    requires Moving(st, a, b) && MayGo(doc) && Should(doc, ANNOTATION_CREATE)
    ensures Applies(st, OneObject(a, name, doc), [a, b], CALM, map[], steps) && |steps| == 2
    ensures steps[0].log == [Created(MovedKey(st, name), MovedDoc(st, a, name, doc))]
    ensures steps[1].log == [Deleted(MovedKey(st, name), MovedDoc(st, a, name, doc))]
    ensures steps[0].errors == steps[1].errors == 0
  {
    var view := OneObject(a, name, doc);
    OneObjectIs(a, b, name, doc);
    var one := FirstStep(st, view, a, name, doc);
    var two := SecondStep(st, view, a, b, name, doc);
    OneObjectAgrees(a, name, doc);
    TwoSteps(st, view, a, b, CALM, map[], one,
        map[a.GroupKind() := map[MovedKey(st, name) := MovedDoc(st, a, name, doc)]], two);
    steps := [one, two];
  }

  /** One such input: an owner in "app", a bare object in v1, and v2 known for pruning. */
  lemma MovedObjectGoesForExample(lib: Library) returns (steps: seq<Step>)
    ensures |steps| == 2 && |steps[0].log| == |steps[1].log| == 1 && steps[0].errors == steps[1].errors == 0
    ensures steps[0].log[0].Created? && steps[1].log[0].Deleted?
    ensures steps[0].log[0].key == steps[1].log[0].key == ObjectKey("app", "x")
    ensures steps[0].log[0].after == steps[1].log[0].before
  {
    var a, b := GVK("g", "v1", "Thing"), GVK("g", "v2", "Thing");
    var owner := Owner(GVK("g", "v1", "App"), true, "app", "me", "1");
    var st := Settings(lib, (_, _, _) => NotHandled, map[a := true, b := true], Some(owner), "", "default", "", false,
        false, {});
    steps := MovedObjectGoes(st, a, b, "x", map[]);
  }
}
