/**
 What a pass may write and delete, and what it must leave alone, said in the labels and annotations themselves
 (pkg/apply/desiredset_process.go:137-174, 205-319, 391-415).
 */
module Rights {
  import opened Base
  import opened Kinds
  import opened Json
  import opened Prune
  import opened Sanitize
  import opened ApplyPatch
  import opened ObjectSet
  import opened Normalize
  import opened Ownership
  import opened Process
  import opened Safety
  import opened Convergence
  import opened WholeApply
  import opened Apply

  // ---------------------------------------------------------------- in plain terms

  /** The texts that record an owner. */
  datatype Record = Record(subContext: string, gvk: string, name: string, namespace: string) {
    function Joined(): string {
      subContext + gvk + name + namespace
    }
  }

  function RecordOf(doc: Fields): Record {
    Record(AnnotationOf(doc, "apply.acorn.io/owner-sub-context"), AnnotationOf(doc, "apply.acorn.io/owner-gvk"),
        AnnotationOf(doc, "apply.acorn.io/owner-name"), AnnotationOf(doc, "apply.acorn.io/owner-namespace"))
  }

  function Mark(doc: Fields): string {
    LabelOf(doc, "apply.acorn.io/hash")
  }

  /** Nobody's object; one that records the same owner; one of the same owner without a subcontext, when it is to get
      one; or one whose subcontext may be changed to the new one. */
  predicate MayTakeOver(validOwnerChange: set<string>, before: Fields, wanted: Fields) {
    var was, now := RecordOf(before), RecordOf(wanted);
    || Mark(before) == ""
    || (was == now && AnnotationOf(before, "apply.acorn.io/hash") == AnnotationOf(wanted, "apply.acorn.io/hash"))
    || (now.subContext != "" && was == now.(subContext := ""))
    || (&& now.subContext != "" && was.subContext + " => " + now.subContext in validOwnerChange
        && was.gvk in {"", now.gvk} && was.namespace in {"", now.namespace} && was.name in {"", now.name})
  }

  /** Without an owner everything wanted may be written; with one, its own objects and what it may take over. */
  predicate MayWrite(env: Env, k: ObjectKey, before: Fields)
    requires k in env.wanted
  {
    env.ownHash.Some? ==>
      Mark(before) == env.ownHash.value || MayTakeOver(env.validOwnerChange, before, env.wanted[k])
  }

  /** The owner's object, unwanted, listed, not in the set under another version, not opted out, not already deleted,
      and marked with the hash of its own record. */
  predicate IsForPruning(env: Env, k: ObjectKey, before: Fields) {
    && !env.noPrune && env.ownHash.Some? && Get(Labels(before), "apply.acorn.io/hash") == Some(Str(env.ownHash.value))
    && k !in env.wanted && k !in env.kindKeys
    && (k.namespace == env.defaultNamespace ==> ObjectKey("", k.name) !in env.kindKeys)
    && (env.namespaced ==> env.listerNamespace in {"", k.namespace})
    && AnnotationOf(before, "apply.acorn.io/prune") != "false" && "deletionTimestamp" !in Metadata(before)
    && Mark(before) == env.lib.sha1(RecordOf(before).Joined())
  }

  /** A wanted object that cannot be patched is replaced only if it insists, or the one there has not opted out. */
  predicate Replaceable(env: Env, k: ObjectKey, before: Fields)
    requires k in env.wanted
  {
    AnnotationOf(env.wanted[k], "apply.acorn.io/update") == "true" ||
    (AnnotationOf(before, "apply.acorn.io/prune") != "false" &&
     AnnotationOf(before, "apply.acorn.io/create") != "false")
  }

  predicate WasDeleted(log: seq<Action>, k: ObjectKey) {
    exists j :: 0 <= j < |log| && log[j].Deleted? && log[j].key == k
  }

  /** What may be in the log of a pass. */
  predicate Rightful(env: Env, log: seq<Action>, i: nat)
    requires i < |log|
  {
    match log[i]
    case Created(k, _) =>
      k in env.wanted && (AnnotationOf(env.wanted[k], "apply.acorn.io/create") != "false" || WasDeleted(log[..i], k))
    case Patched(k, before, _) =>
      k in env.wanted && AnnotationOf(env.wanted[k], "apply.acorn.io/update") != "false" && MayWrite(env, k, before)
    case Deleted(k, before) =>
      if k in env.wanted then
        AnnotationOf(env.wanted[k], "apply.acorn.io/update") != "false" && MayWrite(env, k, before) &&
        Replaceable(env, k, before)
      else IsForPruning(env, k, before)
  }

  // ---------------------------------------------------------------- the tests of the code

  lemma ForeignIff(env: Env, found: Fields, obj: Fields)
    ensures Foreign(env, found, obj) <==> !MayTakeOver(env.validOwnerChange, found, obj)
  {
    var was, now := RecordOf(found), RecordOf(obj);
    assert AnnotationsMatch(found, obj) <==>
             was == now && AnnotationOf(found, "apply.acorn.io/hash") == AnnotationOf(obj, "apply.acorn.io/hash");
    assert IsAssigningSubContext(found, obj) <==> now.subContext != "" && was == now.(subContext := "");
  }

  lemma RecordIsHashed(doc: Fields)
    ensures HashInput(AnnotationTexts(doc)) == RecordOf(doc).Joined()
  {
    assert forall name :: TextAt(AnnotationTexts(doc), name) == AnnotationOf(doc, name);
  }

  lemma StaleIff(env: Env, k: ObjectKey, before: Fields)
    ensures Stale(env, k, before) && !env.noPrune <==> IsForPruning(env, k, before)
  {
    RecordIsHashed(before);
  }

  /** Preparing an object keeps its annotations but for the record of what was applied. */
  lemma SentAnnotation(env: Env, k: ObjectKey, name: string)
    requires k in env.wanted && name != LABEL_APPLIED
    ensures AnnotationOf(ToSend(env, k), name) == AnnotationOf(env.wanted[k], name)
  {
    StampedPrepared(env.lib, env.gvk, env.wanted[k], !env.ensuring, name);
  }

  lemma SentTakesOver(env: Env, k: ObjectKey, before: Fields)
    requires k in env.wanted
    ensures Foreign(env, before, ToSend(env, k)) <==> !MayTakeOver(env.validOwnerChange, before, env.wanted[k])
    ensures Should(ToSend(env, k), ANNOTATION_UPDATE) <==>
              AnnotationOf(env.wanted[k], "apply.acorn.io/update") != "false"
  {
    ForeignIff(env, before, ToSend(env, k));
    assert |LABEL_APPLIED| == 22;
    SentAnnotation(env, k, "apply.acorn.io/owner-sub-context");
    SentAnnotation(env, k, "apply.acorn.io/owner-gvk");
    SentAnnotation(env, k, "apply.acorn.io/owner-name");
    SentAnnotation(env, k, "apply.acorn.io/owner-namespace");
    SentAnnotation(env, k, "apply.acorn.io/hash");
    SentAnnotation(env, k, "apply.acorn.io/update");
  }

  // ---------------------------------------------------------------- what each stage does

  /** Keys that may be created, patched and deleted. */
  datatype Scope = Scope(creates: set<ObjectKey>, patches: set<ObjectKey>, deletes: set<ObjectKey>) {
    predicate Has(a: Action) {
      match a
      case Created(k, _) => k in creates
      case Patched(k, _, _) => k in patches
      case Deleted(k, _) => k in deletes
    }

    predicate Within(other: Scope) {
      creates <= other.creates && patches <= other.patches && deletes <= other.deletes
    }
  }

  /** Errors only grow, and what is logged meanwhile is in scope. */
  ghost predicate Extends(s: State, r: State, scope: Scope) {
    && s.errors <= r.errors && s.cluster.log <= r.cluster.log
    && forall i | |s.cluster.log| <= i < |r.cluster.log| :: scope.Has(r.cluster.log[i])
  }

  /** One stage after the other. */
  lemma ExtendsOn(s: State, m: State, r: State, one: Scope, two: Scope, all: Scope)
    requires Extends(s, m, one) && Extends(m, r, two) && one.Within(all) && two.Within(all)
    ensures Extends(s, r, all)
  {
    forall i | |s.cluster.log| <= i < |r.cluster.log| ensures all.Has(r.cluster.log[i]) {
      if i < |m.cluster.log| {
        assert r.cluster.log[i] == m.cluster.log[i] && one.Has(m.cluster.log[i]);
      } else {
        assert two.Has(r.cluster.log[i]);
      }
    }
  }

  /** Nothing happened to the object. */
  predicate Untouched(s: State, r: State, k: ObjectKey) {
    Get(r.cluster.objs, k) == Get(s.cluster.objs, k)
  }

  lemma CreateExtends(env: Env, w: Weather, s: State, k: ObjectKey, q: ObjectKey)
    requires k in env.wanted
    ensures var r := CreateF(env, w, s, k);
            && Extends(s, r, Scope({k}, {}, {})) && (q != k ==> Untouched(s, r, q))
            && (k in s.cluster.objs ==> r.cluster.objs == s.cluster.objs && r.cluster.log == s.cluster.log)
  {
    CreateObjectExtends(env, w, s, k, ToSend(env, k), q);
  }

  lemma CreateObjectExtends(env: Env, w: Weather, s: State, k: ObjectKey, obj: Fields, q: ObjectKey)
    ensures var r := CreateObject(env, w, s, k, obj);
            && Extends(s, r, Scope({k}, {}, {})) && (q != k ==> Untouched(s, r, q))
            && (k in s.cluster.objs ==> r.cluster.objs == s.cluster.objs && r.cluster.log == s.cluster.log)
  {
  }

  /** Creating touches only keys without an object. */
  lemma {:induction false} CreatesKeep(env: Env, w: Weather, s: State, ks: Keys, q: ObjectKey)
    requires Ready(env, s) && forall k | k in ks :: k in env.wanted
    requires q !in ks || q in s.cluster.objs
    ensures Untouched(s, CreateAll(env, w, s, ks), q)
    decreases |ks|
  {
    if ks != [] {
      var init, k := ks[..|ks| - 1], ks[|ks| - 1];
      assert ks == init + [k];
      CreatesKeep(env, w, s, init, q);
      CreateExtends(env, w, CreateAll(env, w, s, init), k, q);
    }
  }

  predicate MayUpdate(env: Env, k: ObjectKey) {
    k in env.wanted && AnnotationOf(env.wanted[k], "apply.acorn.io/update") != "false"
  }

  lemma CreateQueues(env: Env, w: Weather, s: State, k: ObjectKey)
    requires k in env.wanted
    ensures var r := CreateF(env, w, s, k);
            r.toUpdate == s.toUpdate || (r.toUpdate == s.toUpdate + [k] && MayUpdate(env, k))
  {
    SentTakesOver(env, k, map[]);
  }

  lemma {:induction false} CreatesQueue(env: Env, w: Weather, s: State, ks: Keys, q: ObjectKey)
    requires Ready(env, s) && forall k | k in ks :: k in env.wanted
    ensures q in CreateAll(env, w, s, ks).toUpdate ==> q in s.toUpdate || MayUpdate(env, q)
    decreases |ks|
  {
    if ks != [] {
      var init, k := ks[..|ks| - 1], ks[|ks| - 1];
      CreatesQueue(env, w, s, init, q);
      CreateQueues(env, w, CreateAll(env, w, s, init), k);
    }
  }

  lemma {:induction false} CreatesExtend(env: Env, w: Weather, s: State, ks: Keys, all: Scope)
    requires Ready(env, s) && forall k | k in ks :: k in env.wanted && (k !in s.cluster.objs ==> k in all.creates)
    ensures Extends(s, CreateAll(env, w, s, ks), all)
    decreases |ks|
  {
    if ks != [] {
      var init, k := ks[..|ks| - 1], ks[|ks| - 1];
      assert ks == init + [k];
      CreatesExtend(env, w, s, init, all);
      CreateInScope(env, w, s, init, k, all);
    }
  }

  lemma CreateInScope(env: Env, w: Weather, s: State, init: Keys, k: ObjectKey, all: Scope)
    requires Ready(env, s) && k in env.wanted && (forall q | q in init :: q in env.wanted)
    requires k !in s.cluster.objs ==> k in all.creates
    requires Extends(s, CreateAll(env, w, s, init), all)
    ensures Extends(s, CreateF(env, w, CreateAll(env, w, s, init), k), all)
  {
    var m := CreateAll(env, w, s, init);
    CreateExtends(env, w, m, k, k);
    if k in s.cluster.objs {
      CreatesKeep(env, w, s, init, k);
      assert Get(m.cluster.objs, k) == Get(s.cluster.objs, k);
    } else {
      ExtendsOn(s, m, CreateF(env, w, m, k), all, Scope({k}, {}, {}), all);
    }
  }

  lemma UpdateExtends(env: Env, w: Weather, s: State, k: ObjectKey, outcome: Outcome)
    requires k in env.wanted && k in s.existing
    ensures Extends(s, UpdateBy(env, w, s, k, outcome), Scope({}, {k}, {}))
  {
  }

  lemma {:induction false} UpdatesExtend(env: Env, w: Weather, s: State, ks: Keys, verdicts: Verdicts, all: Scope)
    requires CanUpdate(env, s, ks, verdicts) && forall k | k in ks :: k in all.patches
    ensures Extends(s, UpdateAll(env, w, s, ks, verdicts), all)
    decreases |ks|
  {
    if ks != [] {
      var init, k := ks[..|ks| - 1], ks[|ks| - 1];
      assert ks == init + [k];
      UpdatesExtend(env, w, s, init, verdicts, all);
      var m := UpdateAll(env, w, s, init, verdicts);
      UpdateExtends(env, w, m, k, verdicts[k]);
      ExtendsOn(s, m, UpdateBy(env, w, m, k, verdicts[k]), all, Scope({}, {k}, {}), all);
    }
  }

  lemma DeleteExtends(w: Weather, s: State, k: ObjectKey)
    ensures Extends(s, DeleteF(w, s, k), Scope({}, {}, {k}))
    ensures k in s.cluster.objs && k !in DeleteF(w, s, k).cluster.objs ==> WasDeleted(DeleteF(w, s, k).cluster.log, k)
  {
    var r := DeleteF(w, s, k);
    if r.cluster.log != s.cluster.log {
      assert r.cluster.log[|s.cluster.log|].key == k;
    }
  }

  lemma {:induction false} DeletesExtend(w: Weather, s: State, ks: Keys, all: Scope)
    requires forall k | k in ks :: k in all.deletes
    ensures Extends(s, DeleteAll(w, s, ks), all)
    decreases |ks|
  {
    if ks != [] {
      var init, k := ks[..|ks| - 1], ks[|ks| - 1];
      assert ks == init + [k];
      DeletesExtend(w, s, init, all);
      var m := DeleteAll(w, s, init);
      DeleteExtends(w, m, k);
      ExtendsOn(s, m, DeleteF(w, m, k), all, Scope({}, {}, {k}), all);
    }
  }

  lemma WasDeletedStays(log: seq<Action>, more: seq<Action>, k: ObjectKey)
    requires WasDeleted(log, k) && log <= more
    ensures WasDeleted(more, k)
  {
    var j :| 0 <= j < |log| && log[j].Deleted? && log[j].key == k;
    assert more[j] == log[j];
  }

  /** What is no longer there was deleted. */
  lemma {:induction false} MissingWasDeleted(w: Weather, s: State, ks: Keys, q: ObjectKey)
    requires q in s.cluster.objs && q !in DeleteAll(w, s, ks).cluster.objs
    ensures WasDeleted(DeleteAll(w, s, ks).cluster.log, q)
    decreases |ks|
  {
    if ks != [] {
      var init, k := ks[..|ks| - 1], ks[|ks| - 1];
      var m := DeleteAll(w, s, init);
      DeleteExtends(w, m, k);
      if q in m.cluster.objs {
        if q != k {
          DeleteFrame(w, m, k, q);
        }
      } else {
        MissingWasDeleted(w, s, init, q);
        WasDeletedStays(m.cluster.log, DeleteAll(w, s, ks).cluster.log, q);
      }
    }
  }

  // ---------------------------------------------------------------- the whole pass

  /** What is to be updated or replaced has not opted out of updates. */
  lemma QueuedMayUpdate(env: Env, w: Weather, cluster: Cluster, existing: ByKey, plan: Plan)
    requires IsPlan(env, existing, plan)
    ensures forall k | k in CreateStage(env, w, cluster, existing, plan).toUpdate :: MayUpdate(env, k)
    ensures forall k | k in Pruned(env, w, cluster, existing, plan).toReplace :: MayUpdate(env, k)
  {
    var s := Start(existing, plan, cluster);
    forall k | k in CreateStage(env, w, cluster, existing, plan).toUpdate ensures MayUpdate(env, k) {
      CreatesQueue(env, w, s, plan.toCreate, k);
    }
  }

  /** Creating and updating what has not opted out, and deleting what is planned. */
  function Planned(env: Env, plan: Plan): Scope {
    Scope(set k | k in env.wanted && AnnotationOf(env.wanted[k], "apply.acorn.io/create") != "false",
        set k | k in env.wanted && MayUpdate(env, k), set k | k in plan.toDelete)
  }

  lemma CreateStageExtends(env: Env, w: Weather, cluster: Cluster, existing: ByKey, plan: Plan)
    requires IsPlan(env, existing, plan)
    ensures Extends(Start(existing, plan, cluster), CreateStage(env, w, cluster, existing, plan), Planned(env, plan))
  {
    forall k | k in plan.toCreate ensures k in Planned(env, plan).creates {
      assert Should(env.wanted[k], ANNOTATION_CREATE);
    }
    CreatesExtend(env, w, Start(existing, plan, cluster), plan.toCreate, Planned(env, plan));
  }

  lemma UpdateStageExtends(env: Env, w: Weather, created: State, all: Scope)
    requires Ready(env, created) && forall k | k in created.toUpdate :: k in all.patches
    ensures Extends(created, UpdateStage(env, w, created), all)
  {
    UpdatesExtend(env, w, created, created.toUpdate, Compared(env, created.existing), all);
  }

  lemma PrunedExtends(env: Env, w: Weather, cluster: Cluster, existing: ByKey, plan: Plan)
    requires IsPlan(env, existing, plan)
    ensures Extends(Start(existing, plan, cluster), Pruned(env, w, cluster, existing, plan), Planned(env, plan))
  {
    var s, all := Start(existing, plan, cluster), Planned(env, plan);
    var created := CreateStage(env, w, cluster, existing, plan);
    var updated := UpdateStage(env, w, created);
    CreateStageExtends(env, w, cluster, existing, plan);
    QueuedMayUpdate(env, w, cluster, existing, plan);
    UpdateStageExtends(env, w, created, all);
    ExtendsOn(s, created, updated, all, all, all);
    if !env.noPrune {
      DeletesExtend(w, updated, plan.toDelete, all);
      ExtendsOn(s, updated, DeleteAll(w, updated, plan.toDelete), all, all, all);
    }
  }

  /** What is created again was deleted before. */
  lemma ReplacedExtends(env: Env, w: Weather, s: State)
    requires Ready(env, s) && forall k | k in s.toReplace :: k in env.wanted && k in s.cluster.objs
    ensures var cleared := DeleteAll(w, s, s.toReplace);
            && Extends(s, cleared, Scope({}, {}, set k | k in s.toReplace))
            && Extends(cleared, Replaced(env, w, s),
                Scope(set k | k in s.toReplace && WasDeleted(cleared.cluster.log, k), {}, {}))
  {
    var cleared := DeleteAll(w, s, s.toReplace);
    DeletesExtend(w, s, s.toReplace, Scope({}, {}, set k | k in s.toReplace));
    forall k | k in s.toReplace && k !in cleared.cluster.objs ensures WasDeleted(cleared.cluster.log, k) {
      MissingWasDeleted(w, s, s.toReplace, k);
    }
    CreatesExtend(env, w, cleared, cleared.toReplace,
        Scope(set k | k in s.toReplace && WasDeleted(cleared.cluster.log, k), {}, {}));
  }

  lemma PermittedMayWrite(env: Env, k: ObjectKey, before: Fields)
    requires k in env.wanted && Permitted(env, k, before)
    ensures MayWrite(env, k, before)
  {
    SentTakesOver(env, k, before);
  }

  lemma PlannedIsRightful(env: Env, objs: ByKey, plan: Plan, log: seq<Action>, i: nat)
    requires IsPlan(env, Existing(env, objs), plan) && i < |log|
    requires Planned(env, plan).Has(log[i]) && SafeAction(env, log[i])
    ensures Rightful(env, log, i)
  {
    match log[i]
    case Created(k, _) =>
    case Patched(k, before, _) => PermittedMayWrite(env, k, before);
    case Deleted(k, before) => StaleIff(env, k, before);
  }

  lemma ReplacementIsRightful(env: Env, log: seq<Action>, i: nat)
    requires i < |log| && SafeAction(env, log[i]) && log[i].Deleted? && MayUpdate(env, log[i].key)
    ensures Rightful(env, log, i)
  {
    PermittedMayWrite(env, log[i].key, log[i].before);
  }

  /** Whatever fails and whatever lingers: everything a pass logs is rightful. */
  lemma EveryWriteIsRightful(env: Env, w: Weather, cluster: Cluster, plan: Plan, i: nat)
    requires IsPlan(env, Existing(env, cluster.objs), plan) && cluster.log == []
    requires i < |Run(env, w, cluster, Existing(env, cluster.objs), plan).cluster.log|
    ensures Rightful(env, Run(env, w, cluster, Existing(env, cluster.objs), plan).cluster.log, i)
  {
    var existing := Existing(env, cluster.objs);
    var pruned, r := Pruned(env, w, cluster, existing, plan), Run(env, w, cluster, existing, plan);
    var log := r.cluster.log;
    PassIsSafe(env, w, cluster, plan);
    PrunedIsSafe(env, w, cluster, plan);
    PrunedExtends(env, w, cluster, existing, plan);
    QueuedMayUpdate(env, w, cluster, existing, plan);
    forall k | k in pruned.toReplace ensures k in pruned.cluster.objs {
      assert MayBeReplaced(env, pruned, k);
    }
    ReplacedExtends(env, w, pruned);
    EntryIsRightful(env, cluster.objs, plan, pruned, DeleteAll(w, pruned, pruned.toReplace), r, i);
  }

  lemma EntryIsRightful(env: Env, objs: ByKey, plan: Plan, pruned: State, cleared: State, r: State, i: nat)
    requires IsPlan(env, Existing(env, objs), plan) && i < |r.cluster.log| && SafeLog(env, r.cluster.log)
    requires forall j | 0 <= j < |pruned.cluster.log| :: Planned(env, plan).Has(pruned.cluster.log[j])
    requires forall k | k in pruned.toReplace :: MayUpdate(env, k)
    requires Extends(pruned, cleared, Scope({}, {}, set k | k in pruned.toReplace))
    requires Extends(cleared, r, Scope(set k | k in pruned.toReplace && WasDeleted(cleared.cluster.log, k), {}, {}))
    ensures Rightful(env, r.cluster.log, i)
  {
    var log := r.cluster.log;
    assert SafeAction(env, log[i]);
    if i < |pruned.cluster.log| {
      assert log[i] == pruned.cluster.log[i];
      PlannedIsRightful(env, objs, plan, log, i);
    } else if i < |cleared.cluster.log| {
      assert log[i] == cleared.cluster.log[i];
      ReplacementIsRightful(env, log, i);
    } else {
      WasDeletedStays(cleared.cluster.log, log[..i], log[i].key);
    }
  }

  // ---------------------------------------------------------------- what is left alone

  lemma StagesKeep(env: Env, w: Weather, cluster: Cluster, existing: ByKey, plan: Plan, k: ObjectKey)
    requires IsPlan(env, existing, plan) && (k !in plan.toCreate || k in cluster.objs)
    requires k !in CreateStage(env, w, cluster, existing, plan).toUpdate
    ensures Untouched(Start(existing, plan, cluster),
              UpdateStage(env, w, CreateStage(env, w, cluster, existing, plan)), k)
    ensures k !in Pruned(env, w, cluster, existing, plan).toReplace
  {
    var s, created := Start(existing, plan, cluster), CreateStage(env, w, cluster, existing, plan);
    CreatesKeep(env, w, s, plan.toCreate, k);
    UpdatesFrame(env, w, created, created.toUpdate, Compared(env, created.existing), k);
  }

  /** What is neither updated nor to be deleted stays as it is through the whole pass. */
  lemma RunKeeps(env: Env, w: Weather, cluster: Cluster, existing: ByKey, plan: Plan, k: ObjectKey)
    requires IsPlan(env, existing, plan) && (k !in plan.toCreate || k in cluster.objs)
    requires k !in CreateStage(env, w, cluster, existing, plan).toUpdate && (env.noPrune || k !in plan.toDelete)
    ensures Get(Run(env, w, cluster, existing, plan).cluster.objs, k) == Get(cluster.objs, k)
  {
    var pruned := Pruned(env, w, cluster, existing, plan);
    StagesKeep(env, w, cluster, existing, plan, k);
    if !env.noPrune {
      DeletesFrame(w, UpdateStage(env, w, CreateStage(env, w, cluster, existing, plan)), plan.toDelete, k);
    }
    ReplacedKeeps(env, w, pruned, k);
  }

  lemma ReplacedKeeps(env: Env, w: Weather, s: State, k: ObjectKey)
    requires Ready(env, s) && (forall q | q in s.toReplace :: q in env.wanted) && k !in s.toReplace
    ensures Untouched(s, Replaced(env, w, s), k)
  {
    DeletesFrame(w, s, s.toReplace, k);
    var cleared := DeleteAll(w, s, s.toReplace);
    CreatesKeep(env, w, cleared, cleared.toReplace, k);
  }

  /** After its turn an object is deleted, unless the call failed. */
  lemma {:induction false} DeletesDelete(w: Weather, s: State, ks: Keys, q: ObjectKey)
    requires NoRepeats(ks) && q in ks && DeleteAll(w, s, ks).errors == s.errors
    ensures WasDeleted(DeleteAll(w, s, ks).cluster.log, q)
    ensures !w.lingers(q) ==> q !in DeleteAll(w, s, ks).cluster.objs
    decreases |ks|
  {
    var init, k := ks[..|ks| - 1], ks[|ks| - 1];
    var m, r := DeleteAll(w, s, init), DeleteAll(w, s, ks);
    assert ks == init + [k];
    DeletesExtend(w, s, init, Scope({}, {}, set p | p in init));
    DeleteExtends(w, m, k);
    if q == k {
      assert r.cluster.log[|m.cluster.log|] == Deleted(k, m.cluster.objs[k]);
    } else {
      DeletesDelete(w, s, init, q);
      DeleteFrame(w, m, k, q);
      WasDeletedStays(m.cluster.log, r.cluster.log, q);
    }
  }

  /** What a pass makes of an object nobody wants, whatever fails: one that is for pruning is deleted, or the pass
      reports an error; any other is afterwards as it was. */
  lemma PrunedIff(env: Env, w: Weather, cluster: Cluster, plan: Plan, k: ObjectKey)
    requires IsPlan(env, Existing(env, cluster.objs), plan) && cluster.log == []
    requires k in cluster.objs && k !in env.wanted
    ensures var r := Run(env, w, cluster, Existing(env, cluster.objs), plan);
            if IsForPruning(env, k, cluster.objs[k]) then
              r.errors > 0 || (WasDeleted(r.cluster.log, k) && (!w.lingers(k) ==> k !in r.cluster.objs))
            else
              Get(r.cluster.objs, k) == Some(cluster.objs[k])
  {
    var existing := Existing(env, cluster.objs);
    QueuedMayUpdate(env, w, cluster, existing, plan);
    StaleIff(env, k, cluster.objs[k]);
    if IsForPruning(env, k, cluster.objs[k]) {
      DueIsPruned(env, w, cluster, existing, plan, k);
    } else {
      RunKeeps(env, w, cluster, existing, plan, k);
    }
  }

  lemma ReplacedErrs(env: Env, w: Weather, s: State)
    requires Ready(env, s) && forall k | k in s.toReplace :: k in env.wanted
    ensures s.errors <= Replaced(env, w, s).errors && s.cluster.log <= Replaced(env, w, s).cluster.log
  {
    var cleared := DeleteAll(w, s, s.toReplace);
    var every := Scope(set k | k in s.toReplace, {}, set k | k in s.toReplace);
    DeletesExtend(w, s, s.toReplace, every);
    CreatesExtend(env, w, cleared, cleared.toReplace, every);
  }

  lemma DueIsPruned(env: Env, w: Weather, cluster: Cluster, existing: ByKey, plan: Plan, k: ObjectKey)
    requires IsPlan(env, existing, plan) && k in plan.toDelete && k !in env.wanted && !env.noPrune
    ensures var r := Run(env, w, cluster, existing, plan);
            r.errors > 0 || (WasDeleted(r.cluster.log, k) && (!w.lingers(k) ==> k !in r.cluster.objs))
  {
    var updated := UpdateStage(env, w, CreateStage(env, w, cluster, existing, plan));
    DueIsReplaced(env, w, updated, plan, k);
  }

  /** From the point where pruning begins. */
  lemma DueIsReplaced(env: Env, w: Weather, updated: State, plan: Plan, k: ObjectKey)
    requires Ready(env, updated) && (forall q | q in updated.toReplace :: q in env.wanted)
    requires NoRepeats(plan.toDelete) && k in plan.toDelete && k !in env.wanted
    ensures var r := Replaced(env, w, DeleteAll(w, updated, plan.toDelete));
            r.errors > 0 || (WasDeleted(r.cluster.log, k) && (!w.lingers(k) ==> k !in r.cluster.objs))
  {
    var pruned := DeleteAll(w, updated, plan.toDelete);
    DeletesExtend(w, updated, plan.toDelete, Scope({}, {}, set q | q in plan.toDelete));
    ReplacedErrs(env, w, pruned);
    ReplacedKeeps(env, w, pruned, k);
    if Replaced(env, w, pruned).errors == 0 {
      DeletesDelete(w, updated, plan.toDelete, k);
      WasDeletedStays(pruned.cluster.log, Replaced(env, w, pruned).cluster.log, k);
    }
  }

  // ---------------------------------------------------------------- taking over

  lemma MetIsLeft(env: Env, w: Weather, s: State, k: ObjectKey, obj: Fields)
    requires k in s.cluster.objs
    ensures var r, found := CreateObject(env, w, s, k, obj), s.cluster.objs[k];
            && r.cluster.objs == s.cluster.objs && r.cluster.log == s.cluster.log
            && (Foreign(env, found, obj) ==>
                 r.errors == s.errors + 1 && r.existing == s.existing && r.toUpdate == s.toUpdate)
            && (!Foreign(env, found, obj) && !w.fails(s.cluster.tick) && !w.fails(s.cluster.tick + 1) ==>
                 && r.errors == s.errors && Get(r.existing, k) == Some(found)
                 && r.toUpdate == s.toUpdate + (if Should(obj, ANNOTATION_UPDATE) then [k] else []))
  {
  }

  /** A create that meets an object takes it over or is an error, and leaves it as it was. */
  lemma TakenOverIff(env: Env, w: Weather, s: State, k: ObjectKey)
    requires k in env.wanted && k in s.cluster.objs
    requires !w.fails(s.cluster.tick) && !w.fails(s.cluster.tick + 1)
    ensures var r, found := CreateF(env, w, s, k), s.cluster.objs[k];
            && r.cluster.objs == s.cluster.objs && r.cluster.log == s.cluster.log
            && if MayTakeOver(env.validOwnerChange, found, env.wanted[k]) then
                 && r.errors == s.errors && Get(r.existing, k) == Some(found)
                 && r.toUpdate == s.toUpdate + (if MayUpdate(env, k) then [k] else [])
               else
                 r.errors == s.errors + 1 && r.existing == s.existing && r.toUpdate == s.toUpdate
  {
    SentTakesOver(env, k, s.cluster.objs[k]);
    MetIsLeft(env, w, s, k, ToSend(env, k));
  }

  /** While others are created, a wanted object that is not to be taken over is not noted. */
  lemma {:induction false} RefusedStays(env: Env, w: Weather, s: State, ks: Keys, k: ObjectKey)
    requires Ready(env, s) && forall q | q in ks :: q in env.wanted
    requires k in env.wanted && k in s.cluster.objs && k !in s.existing && k !in s.toUpdate
    requires !MayTakeOver(env.validOwnerChange, s.cluster.objs[k], env.wanted[k])
    ensures var r := CreateAll(env, w, s, ks);
            k !in r.existing && k !in r.toUpdate && r.errors >= s.errors && (k in ks ==> r.errors > s.errors)
    decreases |ks|
  {
    if ks != [] {
      var init, q := ks[..|ks| - 1], ks[|ks| - 1];
      assert ks == init + [q];
      RefusedStays(env, w, s, init, k);
      CreatesKeep(env, w, s, init, k);
      RefusedStep(env, w, CreateAll(env, w, s, init), q, k);
    }
  }

  lemma RefusedStep(env: Env, w: Weather, s: State, q: ObjectKey, k: ObjectKey)
    requires q in env.wanted && k in env.wanted && k in s.cluster.objs && k !in s.existing && k !in s.toUpdate
    requires !MayTakeOver(env.validOwnerChange, s.cluster.objs[k], env.wanted[k])
    ensures var r := CreateF(env, w, s, q);
            k !in r.existing && k !in r.toUpdate && r.errors >= s.errors && (q == k ==> r.errors > s.errors)
  {
    if q == k {
      SentTakesOver(env, k, s.cluster.objs[k]);
      MetIsLeft(env, w, s, k, ToSend(env, k));
    } else {
      CreateExtends(env, w, s, q, k);
    }
  }

  /** Over the whole pass, whatever fails: a wanted object that is there, not listed as the owner's and not to be taken
      over is afterwards as it was, and if it was to be created the pass reports an error. */
  lemma TakeOverIsRefused(env: Env, w: Weather, cluster: Cluster, plan: Plan, k: ObjectKey)
    requires IsPlan(env, Existing(env, cluster.objs), plan) && env.ownHash.Some?
    requires k in env.wanted && k in cluster.objs
    requires Mark(cluster.objs[k]) != env.ownHash.value || (env.namespaced && env.listerNamespace !in {"", k.namespace})
    requires !MayTakeOver(env.validOwnerChange, cluster.objs[k], env.wanted[k])
    ensures var r := Run(env, w, cluster, Existing(env, cluster.objs), plan);
            && Get(r.cluster.objs, k) == Some(cluster.objs[k])
            && (AnnotationOf(env.wanted[k], "apply.acorn.io/create") != "false" ==> r.errors > 0)
  {
    var existing := Existing(env, cluster.objs);
    RefusedStays(env, w, Start(existing, plan, cluster), plan.toCreate, k);
    RunKeeps(env, w, cluster, existing, plan, k);
    CreateStageErrs(env, w, cluster, existing, plan);
    assert Should(env.wanted[k], ANNOTATION_CREATE) ==> k in plan.toCreate;
  }

  /** An error while creating is an error of the pass. */
  lemma CreateStageErrs(env: Env, w: Weather, cluster: Cluster, existing: ByKey, plan: Plan)
    requires IsPlan(env, existing, plan)
    ensures CreateStage(env, w, cluster, existing, plan).errors <= Run(env, w, cluster, existing, plan).errors
  {
    var created := CreateStage(env, w, cluster, existing, plan);
    var updated := UpdateStage(env, w, created);
    UpdatesFrame(env, w, created, created.toUpdate, Compared(env, created.existing), ObjectKey("", ""));
    DeletesExtend(w, updated, plan.toDelete, Planned(env, plan));
    ReplacedErrs(env, w, Pruned(env, w, cluster, existing, plan));
  }

  // ---------------------------------------------------------------- what a reconciler decides

  /** The object is the owner's, up for an update, and there is something to change about it. */
  predicate Changes(env: Env, objs: ByKey, k: ObjectKey) {
    && k in Existing(env, objs) && MayUpdate(env, k)
    && SentPatch(env.lib, env.gvk, objs[k], env.wanted[k]).Ok?
    && SentPatch(env.lib, env.gvk, objs[k], env.wanted[k]).value != map[]
  }

  function Decision(env: Env, k: ObjectKey, before: Fields): Verdict
    requires k in env.wanted
  {
    env.reconcile(env.gvk, LastApplied(env.lib, env.gvk, before), Prepared(env.lib, env.gvk, env.wanted[k], true))
  }

  lemma ListedIsQueued(env: Env, w: Weather, cluster: Cluster, plan: Plan, k: ObjectKey)
    requires IsPlan(env, Existing(env, cluster.objs), plan) && Changes(env, cluster.objs, k)
    ensures var r := CreateStage(env, w, cluster, Existing(env, cluster.objs), plan);
            && k in r.toUpdate && Get(r.existing, k) == Some(cluster.objs[k])
            && Get(r.cluster.objs, k) == Some(cluster.objs[k])
  {
    var s := Start(Existing(env, cluster.objs), plan, cluster);
    assert Should(env.wanted[k], ANNOTATION_UPDATE);
    CreatesFrame(env, w, s, plan.toCreate, k);
    CreatesKeep(env, w, s, plan.toCreate, k);
  }

  /** A comparison that comes to the same whenever it is made, and does not patch. */
  lemma {:induction false} UpdatesSettle(env: Env, w: Weather, s: State, ks: Keys, verdicts: Verdicts, k: ObjectKey)
    requires CanUpdate(env, s, ks, verdicts) && k in ks && !verdicts[k].Send?
    ensures var r := UpdateAll(env, w, s, ks, verdicts);
            && Untouched(s, r, k) && r.errors >= s.errors
            && (verdicts[k].Failed? ==> r.errors > s.errors)
            && (verdicts[k].Replace? && Replaceable(env, k, s.existing[k]) ==> k in r.toReplace)
            && (k in r.toReplace && k !in s.toReplace ==> verdicts[k].Replace? && Replaceable(env, k, s.existing[k]))
    decreases |ks|
  {
    var init, q := ks[..|ks| - 1], ks[|ks| - 1];
    assert ks == init + [q];
    var m := UpdateAll(env, w, s, init, verdicts);
    if k in init {
      UpdatesSettle(env, w, s, init, verdicts, k);
    } else {
      UpdatesFrame(env, w, s, init, verdicts, k);
      assert k !in m.toReplace || k in s.toReplace;
    }
    UpdateSettles(env, w, m, q, verdicts[q], k);
  }

  lemma UpdateSettles(env: Env, w: Weather, s: State, q: ObjectKey, outcome: Outcome, k: ObjectKey)
    requires q in env.wanted && q in s.existing && (q == k ==> !outcome.Send?)
    ensures var r := UpdateBy(env, w, s, q, outcome);
            && Untouched(s, r, k) && r.errors >= s.errors && (q == k && outcome.Failed? ==> r.errors > s.errors)
            && (k in r.toReplace <==>
                k in s.toReplace || (q == k && outcome.Replace? && Replaceable(env, k, s.existing[k])))
  {
  }

  /** Creating without an error creates what is not there. */
  lemma {:induction false} CreatesCreate(env: Env, w: Weather, s: State, ks: Keys, k: ObjectKey)
    requires Ready(env, s) && forall q | q in ks :: q in env.wanted
    requires k in ks && k !in s.cluster.objs && CreateAll(env, w, s, ks).errors == s.errors
    ensures Get(CreateAll(env, w, s, ks).cluster.objs, k) == Some(WireFields(env.lib, ToSend(env, k)))
    decreases |ks|
  {
    var init, q := ks[..|ks| - 1], ks[|ks| - 1];
    assert ks == init + [q];
    var m := CreateAll(env, w, s, init);
    CreatesErr(env, w, s, init);
    if k in init {
      LastKeeps(env, w, s, m, q, k);
      CreatesCreate(env, w, s, init, k);
    } else {
      CreatesKeep(env, w, s, init, k);
      LastIsCreated(env, w, s, m, k);
    }
  }

  lemma CreatesErr(env: Env, w: Weather, s: State, ks: Keys)
    requires Ready(env, s) && forall q | q in ks :: q in env.wanted
    ensures CreateAll(env, w, s, ks).errors >= s.errors
  {
    CreatesExtend(env, w, s, ks, Scope(Set(ks), {}, {}));
  }

  lemma LastKeeps(env: Env, w: Weather, s: State, m: State, q: ObjectKey, k: ObjectKey)
    requires q in env.wanted && s.errors <= m.errors && CreateF(env, w, m, q).errors == s.errors
    ensures m.errors == s.errors
    ensures k in m.cluster.objs ==> Untouched(m, CreateF(env, w, m, q), k)
  {
    CreateExtends(env, w, m, q, k);
  }

  lemma LastIsCreated(env: Env, w: Weather, s: State, m: State, k: ObjectKey)
    requires k in env.wanted && k !in m.cluster.objs && s.errors <= m.errors && CreateF(env, w, m, k).errors == s.errors
    ensures Get(CreateF(env, w, m, k).cluster.objs, k) == Some(WireFields(env.lib, ToSend(env, k)))
  {
    CreateExtends(env, w, m, k, k);
    NewIsCreated(env, w, m, k, ToSend(env, k));
  }

  lemma NewIsCreated(env: Env, w: Weather, s: State, k: ObjectKey, obj: Fields)
    requires k !in s.cluster.objs && CreateObject(env, w, s, k, obj).errors == s.errors
    ensures Get(CreateObject(env, w, s, k, obj).cluster.objs, k) == Some(WireFields(env.lib, obj))
  {
  }

  lemma ReplacedComesBack(env: Env, w: Weather, s: State, k: ObjectKey)
    requires Ready(env, s) && (forall q | q in s.toReplace :: q in env.wanted) && NoRepeats(s.toReplace)
    requires k in s.toReplace && k in s.cluster.objs && !w.lingers(k) && Replaced(env, w, s).errors == s.errors
    ensures WasDeleted(Replaced(env, w, s).cluster.log, k)
    ensures Get(Replaced(env, w, s).cluster.objs, k) == Some(WireFields(env.lib, ToSend(env, k)))
  {
    var cleared := DeleteAll(w, s, s.toReplace);
    var every := Scope(set q | q in s.toReplace, {}, set q | q in s.toReplace);
    DeletesExtend(w, s, s.toReplace, every);
    CreatesExtend(env, w, cleared, cleared.toReplace, every);
    DeletesDelete(w, s, s.toReplace, k);
    CreatesCreate(env, w, cleared, cleared.toReplace, k);
    WasDeletedStays(cleared.cluster.log, Replaced(env, w, s).cluster.log, k);
  }

  lemma DecisionIs(env: Env, objs: ByKey, existing: ByKey, k: ObjectKey)
    requires Changes(env, objs, k) && Get(existing, k) == Some(objs[k]) && !Decision(env, k, objs[k]).NotHandled?
    ensures k in Compared(env, existing) && !Compared(env, existing)[k].Send?
    ensures Compared(env, existing)[k].Failed? <==> Decision(env, k, objs[k]).Refused?
    ensures Compared(env, existing)[k].Replace? <==> Decision(env, k, objs[k]).MustReplace?
  {
    ComparisonIs(env.lib, env.reconcile, env.gvk, objs[k], env.wanted[k]);
  }

  lemma ComparisonIs(lib: Library, reconcile: Reconciler, gvk: GVK, before: Fields, wanted: Fields)
    requires SentPatch(lib, gvk, before, wanted).Ok? && SentPatch(lib, gvk, before, wanted).value != map[]
    ensures var verdict := reconcile(gvk, LastApplied(lib, gvk, before), Prepared(lib, gvk, wanted, true));
            var outcome := Compare(lib, reconcile, gvk, before, wanted);
            && (outcome.Send? <==> verdict.NotHandled?) && (outcome.Failed? <==> verdict.Refused?)
            && (outcome.Replace? <==> verdict.MustReplace?)
  {
  }

  lemma UpdateKeepsQueue(env: Env, w: Weather, objs: ByKey, created: State, k: ObjectKey)
    requires Ready(env, created) && created.toReplace == [] && k in created.toUpdate
    requires Changes(env, objs, k) && !Decision(env, k, objs[k]).NotHandled?
    requires Get(created.existing, k) == Some(objs[k]) && Get(created.cluster.objs, k) == Some(objs[k])
    ensures var r := UpdateStage(env, w, created);
            && Get(r.cluster.objs, k) == Some(objs[k])
            && (Decision(env, k, objs[k]).Refused? ==> r.errors > 0)
            && (k in r.toReplace <==> Decision(env, k, objs[k]).MustReplace? && Replaceable(env, k, objs[k]))
  {
    DecisionIs(env, objs, created.existing, k);
    UpdatesSettle(env, w, created, created.toUpdate, Compared(env, created.existing), k);
  }

  lemma PrunedKeepsQueue(env: Env, w: Weather, cluster: Cluster, plan: Plan, k: ObjectKey)
    requires IsPlan(env, Existing(env, cluster.objs), plan) && Changes(env, cluster.objs, k)
    requires !Decision(env, k, cluster.objs[k]).NotHandled?
    ensures var r := Pruned(env, w, cluster, Existing(env, cluster.objs), plan);
            && Get(r.cluster.objs, k) == Some(cluster.objs[k])
            && (Decision(env, k, cluster.objs[k]).Refused? ==> r.errors > 0)
            && (k in r.toReplace <==>
                Decision(env, k, cluster.objs[k]).MustReplace? && Replaceable(env, k, cluster.objs[k]))
  {
    var created := CreateStage(env, w, cluster, Existing(env, cluster.objs), plan);
    ListedIsQueued(env, w, cluster, plan, k);
    UpdateKeepsQueue(env, w, cluster.objs, created, k);
    var updated := UpdateStage(env, w, created);
    if !env.noPrune {
      PruningErrs(w, updated, plan.toDelete);
      DeletesFrame(w, updated, plan.toDelete, k);
    }
  }

  lemma PruningErrs(w: Weather, s: State, ks: Keys)
    ensures DeleteAll(w, s, ks).errors >= s.errors
  {
    DeletesExtend(w, s, ks, Scope({}, {}, Set(ks)));
  }

  function Set(ks: Keys): set<ObjectKey> {
    set k | k in ks
  }

  /** Where there is something to change about an object of the owner and a reconciler takes the matter in hand: if it
      handles or refuses it, the pass leaves the object alone, a refusal being an error; if it asks for a replacement,
      the object is deleted and created anew where that is allowed, and otherwise left alone. */
  lemma ReconcilerDecides(env: Env, w: Weather, cluster: Cluster, plan: Plan, k: ObjectKey)
    requires IsPlan(env, Existing(env, cluster.objs), plan) && cluster.log == [] && Changes(env, cluster.objs, k)
    requires !Decision(env, k, cluster.objs[k]).NotHandled?
    ensures var r, was := Run(env, w, cluster, Existing(env, cluster.objs), plan), cluster.objs[k];
            if Decision(env, k, was).MustReplace? && Replaceable(env, k, was) then
              r.errors > 0 || w.lingers(k) ||
              (WasDeleted(r.cluster.log, k) && Get(r.cluster.objs, k) == Some(WireFields(env.lib, ToSend(env, k))))
            else
              Get(r.cluster.objs, k) == Some(was) && (Decision(env, k, was).Refused? ==> r.errors > 0)
  {
    var pruned := Pruned(env, w, cluster, Existing(env, cluster.objs), plan);
    PrunedKeepsQueue(env, w, cluster, plan, k);
    PrunedIsSafe(env, w, cluster, plan);
    ReplacedErrs(env, w, pruned);
    if k in pruned.toReplace {
      if Replaced(env, w, pruned).errors == 0 && !w.lingers(k) {
        ReplacedComesBack(env, w, pruned, k);
      }
    } else {
      ReplacedKeeps(env, w, pruned, k);
    }
  }

  // ---------------------------------------------------------------- whole applies

  lemma PassIsRightful(env: Env, w: Weather, before: ByKey, log: seq<Action>, errors: nat, after: ByKey, j: nat)
    requires IsPass(env, w, before, log, errors, after) && j < |log|
    ensures Rightful(env, log, j)
  {
    var tick: nat, plan :| IsRun(env, w, before, tick, plan, log, errors, after);
    EveryWriteIsRightful(env, w, Cluster(before, [], tick), plan, j);
  }

  /** Whatever goes wrong, every write and deletion of an apply is rightful, for the settings it was called with and
      over all versions in its set. */
  lemma ApplyIsRightful(st: Settings, view: SetView, order: seq<GVK>, w: Weather, world: World, steps: seq<Step>,
                        i: nat, j: nat)
    requires Applies(st, view, order, w, world, steps) && i < |steps| && j < |steps[i].log|
    ensures var env := steps[i].env;
            && Rightful(env, steps[i].log, j)
            && env.lib == st.lib && env.ownHash == OwnHash(st) && env.noPrune == st.noPrune
            && env.validOwnerChange == st.validOwnerChange
            && env.defaultNamespace == st.defaultNamespace && env.listerNamespace == st.listerNamespace
            && order[i] in st.scope && env.namespaced == st.scope[order[i]] && env.gvk == order[i]
            && forall k :: k in env.kindKeys <==>
                 exists g: GVK :: g.GroupKind() == order[i].GroupKind() && k in view.OfVersion(g)
  {
    assert StepOfAt(st, view, order, steps, i) && StepAt(w, world, steps, i);
    var s := steps[i];
    var before := At(WholeApply.After(world, steps, i), s.Kind());
    PassIsRightful(s.env, w, before, s.log, s.errors, At(s.after, s.Kind()), j);
  }
}
