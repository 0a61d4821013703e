/**
 Convergence and idempotence of the apply engine in owner mode, for kinds patched by JSON merge patch:
 what an error-free pass leaves behind, and that repeating it does nothing
 (pkg/apply/desiredset_process.go:176-290, pkg/apply/desiredset_apply.go:62-70).
 */
module Convergence {
  import opened Base
  import opened Kinds
  import opened Json
  import opened Prune
  import opened Sanitize
  import opened ApplyPatch
  import opened ObjectSet
  import opened Normalize
  import opened Ownership
  import opened Process

  // ---------------------------------------------------------------- assumptions

  /** Deletions are immediate, no reconciler steps in, packing can be undone. Calls may still fail. */
  ghost predicate Calm(env: Env, w: Weather) {
    && (forall k :: !w.lingers(k))
    && (forall g, a, b :: env.reconcile(g, a, b) == NotHandled)
    && Faithful(env.lib)
  }

  /** Owner mode with pruning; the wanted objects are stamped and opt out of nothing. */
  predicate Owning(env: Env) {
    && env.ownHash.Some? && !env.noPrune && !env.ensuring
    && forall k | k in env.wanted ::
         Carries(env.wanted[k], env.ownHash.value) &&
         Should(env.wanted[k], ANNOTATION_CREATE) && Should(env.wanted[k], ANNOTATION_UPDATE)
  }

  predicate Tidy(objs: ByKey) {
    forall k | k in objs :: WellFormed(objs[k])
  }

  // ---------------------------------------------------------------- what a pass leaves

  function Brought(env: Env, k: ObjectKey, before: Fields): Fields
    requires k in env.wanted
  {
    var patch := SentPatch(env.lib, env.gvk, before, env.wanted[k]);
    if patch.Ok? then MergeFields(before, patch.value) else before
  }

  predicate Stale(env: Env, k: ObjectKey, before: Fields) {
    && env.ownHash.Some? && Carries(before, env.ownHash.value) && Visible(env, k)
    && k !in env.wanted && Prunable(env.lib, before) && !CrossVersion(env, k)
  }

  /** Wanted objects created or brought up to date, stale ones gone, everything else as it was. */
  function Aim(env: Env, objs: ByKey, k: ObjectKey): Option<Fields> {
    if k in env.wanted then
      Some(if k in objs then Brought(env, k, objs[k]) else Modified(env.lib, env.gvk, env.wanted[k]))
    else if k in objs && Stale(env, k, objs[k]) then None
    else Get(objs, k)
  }

  lemma CreateCalm(env: Env, w: Weather, s: State, k: ObjectKey)
    requires Calm(env, w) && Owning(env) && k in env.wanted
    ensures var r := CreateF(env, w, s, k);
            && r.errors >= s.errors
            && (r.errors == s.errors ==>
                if k in s.cluster.objs then
                  r.cluster.objs == s.cluster.objs && r.existing == s.existing[k := s.cluster.objs[k]] &&
                      r.toUpdate == s.toUpdate + [k]
                else
                  r.cluster.objs == s.cluster.objs[k := Modified(env.lib, env.gvk, env.wanted[k])] &&
                  r.existing == s.existing && r.toUpdate == s.toUpdate)
  {
    StampedPrepared(env.lib, env.gvk, env.wanted[k], true, ANNOTATION_UPDATE);
    var obj := ToSend(env, k);
    assert Should(obj, ANNOTATION_UPDATE);
    CreateObjectCalm(env, w, s, k, obj);
  }

  lemma CreateObjectCalm(env: Env, w: Weather, s: State, k: ObjectKey, obj: Fields)
    requires Should(obj, ANNOTATION_UPDATE)
    ensures var r := CreateObject(env, w, s, k, obj);
            && r.errors >= s.errors
            && (r.errors == s.errors ==>
                if k in s.cluster.objs then
                  r.cluster.objs == s.cluster.objs && r.existing == s.existing[k := s.cluster.objs[k]] &&
                      r.toUpdate == s.toUpdate + [k]
                else
                  r.cluster.objs == s.cluster.objs[k := WireFields(env.lib, obj)] &&
                  r.existing == s.existing && r.toUpdate == s.toUpdate)
  {
  }

  /** How a key fares while objects are created: `done` when its turn has come. */
  predicate CreatedAt(env: Env, s: State, r: State, done: bool, q: ObjectKey) {
    if !done then
      Get(r.cluster.objs, q) == Get(s.cluster.objs, q) && Get(r.existing, q) == Get(s.existing, q) &&
      (q in r.toUpdate <==> q in s.toUpdate)
    else if q in s.cluster.objs then
      Get(r.existing, q) == Get(s.cluster.objs, q) == Get(r.cluster.objs, q) && q in r.toUpdate
    else
      q in env.wanted && Get(r.cluster.objs, q) == Some(Modified(env.lib, env.gvk, env.wanted[q])) &&
      q !in r.toUpdate && q !in r.existing
  }

  lemma {:induction false} CreatesCalm(env: Env, w: Weather, s: State, ks: Keys, q: ObjectKey)
    requires Calm(env, w) && Owning(env) && Ready(env, s) && NoRepeats(ks)
    requires forall k | k in ks :: k in env.wanted && k !in s.existing && k !in s.toUpdate
    ensures var r := CreateAll(env, w, s, ks);
            && r.errors >= s.errors
            && (r.errors == s.errors ==>
                 CreatedAt(env, s, r, q in ks, q) && (NoRepeats(s.toUpdate) ==> NoRepeats(r.toUpdate)))
    decreases |ks|
  {
    if ks != [] {
      var init, k := ks[..|ks| - 1], ks[|ks| - 1];
      assert ks == init + [k];
      CreatesCalm(env, w, s, init, q);
      CreatesCalm(env, w, s, init, k);
      var m := CreateAll(env, w, s, init);
      CreateCalm(env, w, m, k);
      CreatesStep(env, s, m, CreateF(env, w, m, k), k, q in init, q);
    }
  }

  lemma CreatesStep(env: Env, s: State, m: State, r: State, k: ObjectKey, done: bool, q: ObjectKey)
    requires k in env.wanted && k !in s.existing && k !in s.toUpdate
    requires r.errors == m.errors && m.errors == s.errors ==>
               CreatedAt(env, s, m, done, q) && CreatedAt(env, s, m, false, k)
    requires done ==> q != k
    requires r.errors == m.errors ==>
               if k in m.cluster.objs then
                 r.cluster.objs == m.cluster.objs && r.existing == m.existing[k := m.cluster.objs[k]] &&
                     r.toUpdate == m.toUpdate + [k]
               else
                 r.cluster.objs == m.cluster.objs[k := Modified(env.lib, env.gvk, env.wanted[k])] &&
                 r.existing == m.existing && r.toUpdate == m.toUpdate
    ensures r.errors == m.errors && m.errors == s.errors ==>
              CreatedAt(env, s, r, done || q == k, q) && (NoRepeats(m.toUpdate) ==> NoRepeats(r.toUpdate))
  {
  }

  /** What a comparison that found this patch comes to when no reconciler steps in. */
  function VerdictOn(sent: Result<Fields>): Outcome {
    match sent
    case Err(_) => Failed
    case Ok(patch) => if patch == map[] then NoChange else Send(patch)
  }

  lemma CompareCalm(lib: Library, reconcile: Reconciler, gvk: GVK, before: Fields, wanted: Fields)
    requires forall g, a, b :: reconcile(g, a, b) == NotHandled
    ensures Compare(lib, reconcile, gvk, before, wanted) == VerdictOn(SentPatch(lib, gvk, before, wanted))
  {
  }

  /** Patching is all that is ever done. */
  predicate OnlyPatches(verdicts: Verdicts) {
    forall k | k in verdicts :: !verdicts[k].Replace?
  }

  lemma ComparedCalm(env: Env, w: Weather, existing: ByKey)
    requires Calm(env, w)
    ensures OnlyPatches(Compared(env, existing))
    ensures forall k | k in existing && k in env.wanted ::
              k in Compared(env, existing) &&
              Compared(env, existing)[k] == VerdictOn(SentPatch(env.lib, env.gvk, existing[k], env.wanted[k]))
  {
    forall k | k in existing && k in env.wanted
      ensures Compared(env, existing)[k] == VerdictOn(SentPatch(env.lib, env.gvk, existing[k], env.wanted[k]))
    {
      CompareCalm(env.lib, env.reconcile, env.gvk, existing[k], env.wanted[k]);
    }
  }

  /** What an update that found this patch does. */
  lemma PatchCalm(env: Env, w: Weather, s: State, k: ObjectKey, sent: Result<Fields>)
    requires k in env.wanted && k in s.existing &&
               Get(s.cluster.objs, k) == Some(s.existing[k])
    ensures var r := UpdateBy(env, w, s, k, VerdictOn(sent));
            r.errors == s.errors ==> sent.Ok? && Get(r.cluster.objs, k) == Some(MergeFields(s.existing[k], sent.value))
  {
    MergeNothing(s.existing[k]);
  }

  lemma UpdateFrame(env: Env, w: Weather, s: State, k: ObjectKey, outcome: Outcome, q: ObjectKey)
    requires k in env.wanted && k in s.existing
    ensures q != k ==> Get(UpdateBy(env, w, s, k, outcome).cluster.objs, q) == Get(s.cluster.objs, q)
    ensures UpdateBy(env, w, s, k, outcome).errors >= s.errors
    ensures !outcome.Replace? ==> UpdateBy(env, w, s, k, outcome).toReplace == s.toReplace
  {
  }

  lemma {:induction false} UpdatesFrame(env: Env, w: Weather, s: State, ks: Keys, verdicts: Verdicts, q: ObjectKey)
    requires CanUpdate(env, s, ks, verdicts)
    ensures var r := UpdateAll(env, w, s, ks, verdicts);
            && r.errors >= s.errors && (OnlyPatches(verdicts) ==> r.toReplace == s.toReplace)
            && (q !in ks ==> Get(r.cluster.objs, q) == Get(s.cluster.objs, q))
    decreases |ks|
  {
    if ks != [] {
      var init, k := ks[..|ks| - 1], ks[|ks| - 1];
      assert ks == init + [k];
      UpdatesFrame(env, w, s, init, verdicts, q);
      UpdateFrame(env, w, UpdateAll(env, w, s, init, verdicts), k, verdicts[k], q);
    }
  }

  /** Without an error, the object is as its patch makes it. */
  lemma {:induction false} UpdatesBring(env: Env, w: Weather, s: State, ks: Keys, verdicts: Verdicts, q: ObjectKey,
                                        sent: Result<Fields>)
    requires CanUpdate(env, s, ks, verdicts) && NoRepeats(ks)
    requires q in ks && Get(s.cluster.objs, q) == Some(s.existing[q]) && verdicts[q] == VerdictOn(sent)
    ensures var r := UpdateAll(env, w, s, ks, verdicts);
            r.errors == s.errors ==> sent.Ok? && Get(r.cluster.objs, q) == Some(MergeFields(s.existing[q], sent.value))
    decreases |ks|
  {
    var init, k := ks[..|ks| - 1], ks[|ks| - 1];
    assert ks == init + [k];
    var m := UpdateAll(env, w, s, init, verdicts);
    UpdatesFrame(env, w, s, init, verdicts, q);
    UpdateFrame(env, w, m, k, verdicts[k], q);
    if q == k {
      PatchCalm(env, w, m, k, sent);
    } else {
      UpdatesBring(env, w, s, init, verdicts, q, sent);
    }
  }

  lemma {:induction false} DeletesCalm(env: Env, w: Weather, s: State, ks: Keys, q: ObjectKey)
    requires Calm(env, w) && NoRepeats(ks)
    ensures var r := DeleteAll(w, s, ks);
            && r.errors >= s.errors
            && (r.errors == s.errors ==>
                Get(r.cluster.objs, q) == if q in ks then None else Get(s.cluster.objs, q))
    decreases |ks|
  {
    if ks != [] {
      var init, k := ks[..|ks| - 1], ks[|ks| - 1];
      assert ks == init + [k];
      DeletesCalm(env, w, s, init, q);
    }
  }

  lemma HeadIn(ks: Keys)
    ensures |ks| > 0 ==> ks[0] in ks
  {
  }

  /** An error-free pass reaches its aim, key by key. */
  lemma PassReachesAim(env: Env, w: Weather, cluster: Cluster, plan: Plan, q: ObjectKey)
    requires Calm(env, w) && Owning(env)
    requires IsPlan(env, Existing(env, cluster.objs), plan)
    requires Run(env, w, cluster, Existing(env, cluster.objs), plan).errors == 0
    ensures Get(Run(env, w, cluster, Existing(env, cluster.objs), plan).cluster.objs, q) == Aim(env, cluster.objs, q)
    ensures q in env.wanted && q in cluster.objs ==> SentPatch(env.lib, env.gvk, cluster.objs[q], env.wanted[q]).Ok?
  {
    var s := Start(Existing(env, cluster.objs), plan, cluster);
    var created := CreateAll(env, w, s, plan.toCreate);
    PrunedCalm(env, w, cluster, plan, q);
    CreatesCalm(env, w, s, plan.toCreate, q);
    CreatedIsCurrent(env, w, cluster, plan);
    UpdatedCalm(env, w, created, q);
    AimIsReached(env, cluster, plan, created, UpdateStage(env, w, created), q);
  }

  lemma UpdatedCalm(env: Env, w: Weather, created: State, q: ObjectKey)
    requires Calm(env, w) && Ready(env, created)
    ensures var r := UpdateStage(env, w, created);
            && r.errors >= created.errors && r.toReplace == created.toReplace
            && (q !in created.toUpdate ==> Get(r.cluster.objs, q) == Get(created.cluster.objs, q))
            && (r.errors == created.errors && NoRepeats(created.toUpdate) && q in created.toUpdate &&
                Get(created.cluster.objs, q) == Some(created.existing[q]) ==>
                SentPatch(env.lib, env.gvk, created.existing[q], env.wanted[q]).Ok? &&
                Get(r.cluster.objs, q) == Some(Brought(env, q, created.existing[q])))
  {
    var verdicts := Compared(env, created.existing);
    ComparedCalm(env, w, created.existing);
    UpdatesFrame(env, w, created, created.toUpdate, verdicts, q);
    if NoRepeats(created.toUpdate) && q in created.toUpdate &&
        Get(created.cluster.objs, q) == Some(created.existing[q]) {
      var sent := SentPatch(env.lib, env.gvk, created.existing[q], env.wanted[q]);
      UpdatesBring(env, w, created, created.toUpdate, verdicts, q, sent);
    }
  }

  /** Pruning comes last: nothing is replaced. */
  lemma PrunedCalm(env: Env, w: Weather, cluster: Cluster, plan: Plan, q: ObjectKey)
    requires Calm(env, w) && Owning(env) && IsPlan(env, Existing(env, cluster.objs), plan)
    ensures var existing := Existing(env, cluster.objs);
            var updated := UpdateStage(env, w, CreateAll(env, w, Start(existing, plan, cluster), plan.toCreate));
            var r := Run(env, w, cluster, existing, plan);
            && r.errors >= updated.errors
            && (r.errors == updated.errors ==>
                Get(r.cluster.objs, q) == if q in plan.toDelete then None else Get(updated.cluster.objs, q))
  {
    var created := CreateAll(env, w, Start(Existing(env, cluster.objs), plan, cluster), plan.toCreate);
    UpdatedCalm(env, w, created, q);
    DeletesCalm(env, w, UpdateStage(env, w, created), plan.toDelete, q);
    assert DeleteAll(w, UpdateStage(env, w, created), plan.toDelete).toReplace == [];
  }

  lemma AimIsReached(env: Env, cluster: Cluster, plan: Plan, created: State, updated: State, q: ObjectKey)
    requires Owning(env) && IsPlan(env, Existing(env, cluster.objs), plan)
    requires CreatedAt(env, Start(Existing(env, cluster.objs), plan, cluster), created, q in plan.toCreate, q)
    requires q !in created.toUpdate ==> Get(updated.cluster.objs, q) == Get(created.cluster.objs, q)
    requires q in created.toUpdate ==> q in env.wanted && Get(created.cluster.objs, q) == Get(created.existing, q)
    requires q in created.toUpdate ==> q in created.existing &&
                                       Get(updated.cluster.objs, q) == Some(Brought(env, q, created.existing[q]))
    ensures (if q in plan.toDelete then None else Get(updated.cluster.objs, q)) == Aim(env, cluster.objs, q)
    ensures q in env.wanted && q in cluster.objs ==> q in created.toUpdate && created.existing[q] == cluster.objs[q]
  {
    assert q in Existing(env, cluster.objs) ==> Existing(env, cluster.objs)[q] == cluster.objs[q];
  }

  /** When updates begin, the pass has seen what is there. */
  lemma CreatedIsCurrent(env: Env, w: Weather, cluster: Cluster, plan: Plan)
    requires Calm(env, w) && Owning(env) && IsPlan(env, Existing(env, cluster.objs), plan)
    ensures var created := CreateAll(env, w, Start(Existing(env, cluster.objs), plan, cluster), plan.toCreate);
            created.errors == 0 ==>
              NoRepeats(created.toUpdate) &&
              forall k | k in created.toUpdate :: Get(created.cluster.objs, k) == Some(created.existing[k])
  {
    var s := Start(Existing(env, cluster.objs), plan, cluster);
    var created := CreateAll(env, w, s, plan.toCreate);
    if created.errors == 0 {
      forall k | k in created.toUpdate ensures Get(created.cluster.objs, k) == Some(created.existing[k]) {
        CreatesCalm(env, w, s, plan.toCreate, k);
      }
      CreatesCalm(env, w, s, plan.toCreate, ObjectKey("", ""));
    }
  }

  // ---------------------------------------------------------------- a settled kind

  /** The wanted object is there, with the owner's hash and nothing left to patch. */
  predicate UpToDate(env: Env, objs: ByKey, k: ObjectKey) {
    && k in env.wanted && k in objs && env.ownHash.Some? && Carries(objs[k], env.ownHash.value)
    && SentPatch(env.lib, env.gvk, objs[k], env.wanted[k]) == Ok(map[])
  }

  /** Every wanted object is there and up to date, and nothing stale is left. */
  ghost predicate Settled(env: Env, objs: ByKey) {
    && (forall k | k in env.wanted :: UpToDate(env, objs, k))
    && (forall k | k in objs :: !Stale(env, k, objs[k]))
  }

  lemma LabelLeaf(doc: Fields, name: string, text: string)
    ensures Leaf(Obj(doc), ["metadata", "labels", name]) == Some(Str(text)) <==>
              Get(Labels(doc), name) == Some(Str(text))
  {
    var path := ["metadata", "labels", name];
    LeafInto(doc, path);
    LeafInto(Metadata(doc), path[1..]);
    assert path[1..][1..] == [name];
  }

  lemma LabelPath(name: string)
    ensures var path := ["metadata", "labels", name]; !Protected(path, false) && !Bookkeeping(path)
  {
    var path := ["metadata", "labels", name];
    assert path[1] == "labels" && path[..2][1] == "labels";
  }

  lemma ModifiedCarries(lib: Library, gvk: GVK, wanted: Fields, hash: string)
    requires Carries(wanted, hash)
    ensures Carries(Modified(lib, gvk, wanted), hash) && WellFormed(Modified(lib, gvk, wanted))
  {
    ModifiedAt(lib, gvk, wanted, "labels");
    WireNested(lib, wanted);
    WireGet(lib, Metadata(wanted), "labels");
    WireGet(lib, Labels(wanted), LABEL_HASH);
  }

  lemma BroughtCarries(env: Env, k: ObjectKey, before: Fields, hash: string)
    requires k in env.wanted && Carries(env.wanted[k], hash) && WellFormed(before)
    requires SentPatch(env.lib, env.gvk, before, env.wanted[k]).Ok?
    ensures Carries(Brought(env, k, before), hash)
  {
    var path := ["metadata", "labels", LABEL_HASH];
    LabelPath(LABEL_HASH);
    ModifiedCarries(env.lib, env.gvk, env.wanted[k], hash);
    LabelLeaf(Modified(env.lib, env.gvk, env.wanted[k]), LABEL_HASH, hash);
    WantedIsOnServer(env.lib, env.gvk, before, env.wanted[k], path);
    LabelLeaf(Brought(env, k, before), LABEL_HASH, hash);
  }

  lemma BroughtIsTidy(env: Env, k: ObjectKey, before: Fields)
    requires k in env.wanted && WellFormed(before)
    ensures WellFormed(Brought(env, k, before))
  {
    var patch := SentPatch(env.lib, env.gvk, before, env.wanted[k]);
    if patch.Ok? {
      var o, m := Original(env.lib, env.gvk, before).value, Modified(env.lib, env.gvk, env.wanted[k]);
      ModifiedAt(env.lib, env.gvk, env.wanted[k], "");
      PatchIsWellFormed(o, m, before);
      StrippedAt(ThreeWay.Patch(o, m, before), false, "");
      MergedIsTidy(before, patch.value);
    }
  }

  lemma MergedIsTidy(before: Fields, patch: Fields)
    requires WellFormed(before) && WellFormed(patch)
    ensures WellFormed(MergeFields(before, patch))
  {
    MergeAt(before, patch, "metadata");
    MergeAt(Metadata(before), Metadata(patch), "annotations");
  }

  /** An error-free pass settles its kind. */
  lemma PassSettles(env: Env, w: Weather, cluster: Cluster, plan: Plan)
    requires Calm(env, w) && Owning(env) && Tidy(cluster.objs)
    requires IsPlan(env, Existing(env, cluster.objs), plan)
    requires Run(env, w, cluster, Existing(env, cluster.objs), plan).errors == 0
    ensures var objs := Run(env, w, cluster, Existing(env, cluster.objs), plan).cluster.objs;
            Settled(env, objs) && Tidy(objs)
  {
    var objs := Run(env, w, cluster, Existing(env, cluster.objs), plan).cluster.objs;
    forall k ensures Get(objs, k) == Aim(env, cluster.objs, k) {
      PassReachesAim(env, w, cluster, plan, k);
    }
    forall k | k in env.wanted && k in cluster.objs
      ensures SentPatch(env.lib, env.gvk, cluster.objs[k], env.wanted[k]).Ok?
    {
      PassReachesAim(env, w, cluster, plan, k);
    }
    AimSettles(env, cluster.objs, objs);
  }

  lemma AimSettles(env: Env, before: ByKey, after: ByKey)
    requires Owning(env) && Tidy(before) && Faithful(env.lib)
    requires forall k :: Get(after, k) == Aim(env, before, k)
    requires forall k | k in env.wanted && k in before :: SentPatch(env.lib, env.gvk, before[k], env.wanted[k]).Ok?
    ensures Settled(env, after) && Tidy(after)
  {
    forall k ensures SettledKey(env, after, k) {
      AimSettlesAt(env, before, after, k);
    }
    assert forall k | k in env.wanted :: SettledKey(env, after, k);
    assert forall k | k in after :: SettledKey(env, after, k);
  }

  predicate SettledKey(env: Env, objs: ByKey, k: ObjectKey) {
    && (k in env.wanted ==> UpToDate(env, objs, k))
    && (k in objs ==> !Stale(env, k, objs[k]) && WellFormed(objs[k]))
  }

  lemma AimSettlesAt(env: Env, before: ByKey, after: ByKey, k: ObjectKey)
    requires Owning(env) && Tidy(before) && Faithful(env.lib) && Get(after, k) == Aim(env, before, k)
    requires k in env.wanted && k in before ==> SentPatch(env.lib, env.gvk, before[k], env.wanted[k]).Ok?
    ensures SettledKey(env, after, k)
  {
    if k in env.wanted {
      AimUpToDate(env, before, k);
    } else if k in after {
      AimNotStale(env, before, k);
    }
  }

  lemma AimNotStale(env: Env, before: ByKey, k: ObjectKey)
    requires Tidy(before) && k !in env.wanted && Aim(env, before, k).Some?
    ensures !Stale(env, k, Aim(env, before, k).value) && WellFormed(Aim(env, before, k).value)
  {
  }

  lemma AimUpToDate(env: Env, before: ByKey, k: ObjectKey)
    requires Owning(env) && Tidy(before) && Faithful(env.lib) && k in env.wanted
    requires k in before ==> SentPatch(env.lib, env.gvk, before[k], env.wanted[k]).Ok?
    ensures var after := Aim(env, before, k);
            && after.Some? && Carries(after.value, env.ownHash.value) && WellFormed(after.value)
            && SentPatch(env.lib, env.gvk, after.value, env.wanted[k]) == Ok(map[])
  {
    if k in before {
      BroughtCarries(env, k, before[k], env.ownHash.value);
      BroughtIsTidy(env, k, before[k]);
      SecondCompareIsQuiet(env.lib, env.gvk, before[k], env.wanted[k]);
    } else {
      ModifiedCarries(env.lib, env.gvk, env.wanted[k], env.ownHash.value);
      CompareAfterCreateIsQuiet(env.lib, env.gvk, env.wanted[k]);
    }
  }

  // ---------------------------------------------------------------- a pass over a settled kind

  lemma {:induction false} UpdatesQuiet(env: Env, w: Weather, s: State, ks: Keys, verdicts: Verdicts)
    requires CanUpdate(env, s, ks, verdicts) && forall k | k in ks :: verdicts[k] == NoChange
    ensures UpdateAll(env, w, s, ks, verdicts) == s
    decreases |ks|
  {
    if ks != [] {
      UpdatesQuiet(env, w, s, ks[..|ks| - 1], verdicts);
    }
  }

  lemma CompareQuiet(lib: Library, reconcile: Reconciler, gvk: GVK, before: Fields, wanted: Fields)
    requires SentPatch(lib, gvk, before, wanted) == Ok(map[])
    ensures Compare(lib, reconcile, gvk, before, wanted) == NoChange
  {
  }

  /** A wanted object that the list does not show, and that is found to be another owner's when it is created again. */
  predicate Estranged(env: Env, objs: ByKey, k: ObjectKey) {
    k in env.wanted && k in objs && k !in Existing(env, objs) && Foreign(env, objs[k], ToSend(env, k))
  }

  lemma CreateQuiet(env: Env, w: Weather, s: State, k: ObjectKey, obj: Fields)
    requires k in s.cluster.objs
    ensures var r := CreateObject(env, w, s, k, obj);
            && r.cluster.objs == s.cluster.objs && r.cluster.log == s.cluster.log && r.errors >= s.errors
            && (r.existing == s.existing || r.existing == s.existing[k := s.cluster.objs[k]])
            && (NoneFail(w) ==> (r.errors == s.errors <==> !Foreign(env, s.cluster.objs[k], obj)))
  {
  }

  lemma {:induction false} CreatesQuiet(env: Env, w: Weather, s: State, ks: Keys)
    requires Ready(env, s) && forall k | k in ks :: k in env.wanted && k in s.cluster.objs
    requires forall k | k in s.existing :: Get(s.cluster.objs, k) == Some(s.existing[k])
    ensures var r := CreateAll(env, w, s, ks);
            && r.cluster.objs == s.cluster.objs && r.cluster.log == s.cluster.log && r.errors >= s.errors
            && (forall k | k in r.existing :: Get(s.cluster.objs, k) == Some(r.existing[k]))
            && (NoneFail(w) ==>
                (r.errors == s.errors <==> forall k | k in ks :: !Foreign(env, s.cluster.objs[k], ToSend(env, k))))
    decreases |ks|
  {
    if ks != [] {
      var init, k := ks[..|ks| - 1], ks[|ks| - 1];
      assert ks == init + [k];
      CreatesQuiet(env, w, s, init);
      CreateQuiet(env, w, CreateAll(env, w, s, init), k, ToSend(env, k));
    }
  }

  /** A pass over a settled kind creates, patches and deletes nothing, whatever calls fail. If none does, it reports an
      error exactly when a wanted object is estranged. */
  lemma SettledIsQuiet(env: Env, w: Weather, cluster: Cluster, plan: Plan)
    requires Owning(env) && Settled(env, cluster.objs)
    requires IsPlan(env, Existing(env, cluster.objs), plan)
    ensures var r := Run(env, w, cluster, Existing(env, cluster.objs), plan);
            && r.cluster.objs == cluster.objs && r.cluster.log == cluster.log
            && (NoneFail(w) ==> (r.errors == 0 <==> forall k :: !Estranged(env, cluster.objs, k)))
  {
    var existing, objs := Existing(env, cluster.objs), cluster.objs;
    var s := Start(existing, plan, cluster);
    SettledPlan(env, objs, plan);
    CreatesQuiet(env, w, s, plan.toCreate);
    var created := CreateAll(env, w, s, plan.toCreate);
    UpdatesOfSettled(env, w, objs, created);
    assert Run(env, w, cluster, existing, plan) == created;
  }

  /** What there is to do over a settled kind: nothing to delete, and only what the list does not show to create
      again. */
  lemma SettledPlan(env: Env, objs: ByKey, plan: Plan)
    requires Owning(env) && Settled(env, objs) && IsPlan(env, Existing(env, objs), plan)
    ensures plan.toDelete == [] && forall k | k in plan.toCreate :: k in objs
    ensures forall k :: Estranged(env, objs, k) <==> k in plan.toCreate && Foreign(env, objs[k], ToSend(env, k))
  {
    forall k | k in env.wanted ensures UpToDate(env, objs, k) {
    }
    forall k ensures k !in plan.toDelete {
      if k in objs && k in plan.toDelete {
        assert Stale(env, k, objs[k]);
      }
    }
    HeadIn(plan.toDelete);
    forall k ensures Estranged(env, objs, k) <==> k in plan.toCreate && Foreign(env, objs[k], ToSend(env, k)) {
    }
  }

  lemma UpdatesOfSettled(env: Env, w: Weather, objs: ByKey, s: State)
    requires Settled(env, objs) && Ready(env, s) && forall k | k in s.existing :: Get(objs, k) == Some(s.existing[k])
    ensures UpdateStage(env, w, s) == s
  {
    forall k | k in s.toUpdate ensures Compared(env, s.existing)[k] == NoChange {
      assert UpToDate(env, objs, k);
      CompareQuiet(env.lib, env.reconcile, env.gvk, s.existing[k], env.wanted[k]);
    }
    UpdatesQuiet(env, w, s, s.toUpdate, Compared(env, s.existing));
  }

  // ---------------------------------------------------------------- a pass that logs nothing

  predicate Grown(s: State, r: State) {
    s.cluster.log <= r.cluster.log && (r.cluster.log == s.cluster.log ==> r.cluster.objs == s.cluster.objs)
  }

  lemma GrownOn(r: State, s: State, t: State)
    requires Grown(r, s) && Grown(s, t)
    ensures Grown(r, t)
  {
  }

  lemma CreateGrows(env: Env, w: Weather, s: State, k: ObjectKey, obj: Fields)
    ensures Grown(s, CreateObject(env, w, s, k, obj))
  {
  }

  lemma {:induction false} CreatesGrow(env: Env, w: Weather, s: State, ks: Keys)
    requires Ready(env, s) && forall k | k in ks :: k in env.wanted
    ensures Grown(s, CreateAll(env, w, s, ks))
    decreases |ks|
  {
    if ks != [] {
      var m, k := CreateAll(env, w, s, ks[..|ks| - 1]), ks[|ks| - 1];
      CreatesGrow(env, w, s, ks[..|ks| - 1]);
      CreateGrows(env, w, m, k, ToSend(env, k));
      GrownOn(s, m, CreateAll(env, w, s, ks));
    }
  }

  lemma UpdateGrows(env: Env, w: Weather, s: State, k: ObjectKey, outcome: Outcome)
    requires k in env.wanted && k in s.existing
    ensures Grown(s, UpdateBy(env, w, s, k, outcome))
  {
  }

  lemma {:induction false} UpdatesGrow(env: Env, w: Weather, s: State, ks: Keys, verdicts: Verdicts)
    requires CanUpdate(env, s, ks, verdicts)
    ensures Grown(s, UpdateAll(env, w, s, ks, verdicts))
    decreases |ks|
  {
    if ks != [] {
      var m, k := UpdateAll(env, w, s, ks[..|ks| - 1], verdicts), ks[|ks| - 1];
      UpdatesGrow(env, w, s, ks[..|ks| - 1], verdicts);
      UpdateGrows(env, w, m, k, verdicts[k]);
      GrownOn(s, m, UpdateAll(env, w, s, ks, verdicts));
    }
  }

  lemma {:induction false} DeletesGrow(w: Weather, s: State, ks: Keys)
    ensures Grown(s, DeleteAll(w, s, ks))
    decreases |ks|
  {
    if ks != [] {
      DeletesGrow(w, s, ks[..|ks| - 1]);
    }
  }

  lemma PrunedGrows(env: Env, w: Weather, cluster: Cluster, existing: ByKey, plan: Plan)
    requires IsPlan(env, existing, plan)
    ensures Grown(Start(existing, plan, cluster), Pruned(env, w, cluster, existing, plan))
  {
    var s := Start(existing, plan, cluster);
    CreatesGrow(env, w, s, plan.toCreate);
    var created := CreateAll(env, w, s, plan.toCreate);
    UpdatesGrow(env, w, created, created.toUpdate, Compared(env, created.existing));
    var updated := UpdateStage(env, w, created);
    DeletesGrow(w, updated, plan.toDelete);
    GrownOn(s, created, updated);
    if !env.noPrune {
      GrownOn(s, updated, DeleteAll(w, updated, plan.toDelete));
    }
  }

  lemma ReplacedGrows(env: Env, w: Weather, s: State)
    requires Ready(env, s) && forall k | k in s.toReplace :: k in env.wanted
    ensures Grown(s, Replaced(env, w, s))
  {
    var cleared := DeleteAll(w, s, s.toReplace);
    DeletesGrow(w, s, s.toReplace);
    CreatesGrow(env, w, cleared, cleared.toReplace);
    GrownOn(s, cleared, Replaced(env, w, s));
  }

  /** What is not logged did not happen. */
  lemma QuietPassChangesNothing(env: Env, w: Weather, cluster: Cluster, plan: Plan)
    requires IsPlan(env, Existing(env, cluster.objs), plan)
    requires Run(env, w, cluster, Existing(env, cluster.objs), plan).cluster.log == cluster.log
    ensures Run(env, w, cluster, Existing(env, cluster.objs), plan).cluster.objs == cluster.objs
  {
    var existing := Existing(env, cluster.objs);
    var s, pruned := Start(existing, plan, cluster), Pruned(env, w, cluster, existing, plan);
    PrunedGrows(env, w, cluster, existing, plan);
    ReplacedGrows(env, w, pruned);
    GrownOn(s, pruned, Replaced(env, w, pruned));
  }

  // ---------------------------------------------------------------- versions of one kind

  lemma DeletionsByKey(o1: Fields, m1: Fields, o2: Fields, m2: Fields, k: string)
    requires Get(o1, k) == Get(o2, k) && Get(m1, k) == Get(m2, k)
    ensures Get(ThreeWay.Deletions(o1, m1), k) == Get(ThreeWay.Deletions(o2, m2), k)
  {
    DeletionsGet(o1, m1, k);
    DeletionsGet(o2, m2, k);
    assert (k in m1 <==> k in m2) && (k in o1 <==> k in o2);
  }

  lemma AdditionsByKey(c: Fields, m1: Fields, m2: Fields, k: string)
    requires Get(m1, k) == Get(m2, k)
    ensures Get(ThreeWay.Additions(c, m1), k) == Get(ThreeWay.Additions(c, m2), k)
  {
    ThreeWay.DiffGet(c, m1, k);
    ThreeWay.DiffGet(c, m2, k);
    ThreeWay.DropNullsGet(ThreeWay.Diff(c, m1), k);
    ThreeWay.DropNullsGet(ThreeWay.Diff(c, m2), k);
  }

  lemma MergeByKey(a1: Fields, b1: Fields, a2: Fields, b2: Fields, k: string)
    requires Get(a1, k) == Get(a2, k) && Get(b1, k) == Get(b2, k)
    ensures Get(MergeFields(a1, b1), k) == Get(MergeFields(a2, b2), k)
  {
    MergeAt(a1, b1, k);
    MergeAt(a2, b2, k);
    assert k in b1 <==> k in b2;
  }

  lemma PatchByKey(o1: Fields, m1: Fields, o2: Fields, m2: Fields, c: Fields, k: string)
    requires Get(o1, k) == Get(o2, k) && Get(m1, k) == Get(m2, k)
    ensures Get(ThreeWay.Patch(o1, m1, c), k) == Get(ThreeWay.Patch(o2, m2, c), k)
  {
    DeletionsByKey(o1, m1, o2, m2, k);
    AdditionsByKey(c, m1, m2, k);
    MergeByKey(ThreeWay.Deletions(o1, m1), ThreeWay.Additions(c, m1), ThreeWay.Deletions(o2, m2),
        ThreeWay.Additions(c, m2), k);
  }

  lemma SanitizedByKey(p: Fields, q: Fields)
    requires forall k | k !in {"apiVersion", "kind"} :: Get(p, k) == Get(q, k)
    ensures Sanitized(p, false) == Sanitized(q, false)
  {
    var s, t := WithoutServerFields(p), WithoutServerFields(q);
    forall k ensures Get(s, k) == Get(t, k) {
      assert k !in {"apiVersion", "kind"} ==> Get(p, k) == Get(q, k);
      assert Get(p, "metadata") == Get(q, "metadata");
    }
    SameByGet(s, t);
  }

  lemma ModifiedByKey(lib: Library, g: GVK, h: GVK, x: Fields, k: string)
    requires k !in {"apiVersion", "kind"}
    ensures Get(Modified(lib, g, x), k) == Get(Modified(lib, h, x), k)
  {
    WireGet(lib, Prepared(lib, g, x, true), k);
    WireGet(lib, Prepared(lib, h, x, true), k);
  }

  /** The version an object is compared in does not matter: the patch never mentions it. */
  lemma VersionDoesNotMatter(lib: Library, g: GVK, h: GVK, existing: Fields, wanted: Fields)
    ensures SentPatch(lib, g, existing, wanted) == SentPatch(lib, h, existing, wanted)
  {
    var o1, o2 := Original(lib, g, existing), Original(lib, h, existing);
    if o1.Ok? {
      var m1, m2 := Modified(lib, g, wanted), Modified(lib, h, wanted);
      forall k | k !in {"apiVersion", "kind"}
        ensures Get(ThreeWay.Patch(o1.value, m1, existing), k) == Get(ThreeWay.Patch(o2.value, m2, existing), k)
      {
        ModifiedByKey(lib, g, h, wanted, k);
        if Recorded(lib, existing).Doc? {
          var doc := Recorded(lib, existing).fields;
          ModifiedByKey(lib, g, h, WithMetadata(doc, Metadata(doc) - SERVER_OWNED), k);
        }
        PatchByKey(o1.value, m1, o2.value, m2, existing, k);
      }
      SanitizedByKey(ThreeWay.Patch(o1.value, m1, existing), ThreeWay.Patch(o2.value, m2, existing));
    }
  }

  /** Two versions that want different values somewhere are never both up to date. */
  lemma RivalsNeverAgree(lib: Library, g: GVK, h: GVK, doc: Fields, a: Fields, b: Fields, path: seq<string>)
    requires WellFormed(doc) && path != [] && !Protected(path, false) && !Bookkeeping(path)
    requires var x := Leaf(Obj(Modified(lib, g, a)), path); x.Some? && !x.value.Null?
    requires var y := Leaf(Obj(Modified(lib, h, b)), path); y.Some? && !y.value.Null?
    requires Leaf(Obj(Modified(lib, g, a)), path) != Leaf(Obj(Modified(lib, h, b)), path)
    ensures !(SentPatch(lib, g, doc, a) == Ok(map[]) && SentPatch(lib, h, doc, b) == Ok(map[]))
  {
    MergeNothing(doc);
    if SentPatch(lib, g, doc, a) == Ok(map[]) {
      WantedIsOnServer(lib, g, doc, a, path);
    }
    if SentPatch(lib, h, doc, b) == Ok(map[]) {
      WantedIsOnServer(lib, h, doc, b, path);
    }
  }
}
