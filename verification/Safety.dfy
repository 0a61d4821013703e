/**
 Ownership safety: in owner mode no step of a pass, whatever fails on the way, patches or deletes an
 object of another owner (pkg/apply/desiredset_process.go:176-319).
 */
module Safety {
  import opened Base
  import opened Kinds
  import opened Json
  import opened Prune
  import opened ApplyPatch
  import opened ObjectSet
  import opened Normalize
  import opened Ownership
  import opened Process

  /** An object the pass may write: with an owner, its own, nobody's, or one it may take over; without one, any wanted
      object. */
  predicate Permitted(env: Env, k: ObjectKey, before: Fields) {
    match env.ownHash
    case Some(hash) => Carries(before, hash) || (k in env.wanted && !Foreign(env, before, ToSend(env, k)))
    case None => k in env.wanted
  }

  predicate MayPrune(env: Env, k: ObjectKey, before: Fields) {
    !env.noPrune && k !in env.wanted && Prunable(env.lib, before) && !CrossVersion(env, k) &&
    env.ownHash.Some? && Carries(before, env.ownHash.value)
  }

  predicate SafeAction(env: Env, a: Action) {
    match a
    case Created(k, _) => k in env.wanted
    case Patched(k, before, _) => k in env.wanted && Permitted(env, k, before)
    case Deleted(k, before) =>
      MayPrune(env, k, before) || (k in env.wanted && Permitted(env, k, before) && MayReplace(env, before, k))
  }

  predicate SafeLog(env: Env, log: seq<Action>) {
    forall i | 0 <= i < |log| :: SafeAction(env, log[i])
  }

  /** Under this key the pass has seen what the server holds now. */
  predicate Current(s: State, k: ObjectKey) {
    k in s.existing && Get(s.cluster.objs, k) == Some(s.existing[k])
  }

  predicate AllCurrent(s: State) {
    forall k | k in s.existing :: Current(s, k)
  }

  ghost predicate Seen(env: Env, s: State) {
    forall k | k in s.existing :: Permitted(env, k, s.existing[k])
  }

  /** Creating touches no other key. */
  lemma {:induction false} CreatesFrame(env: Env, w: Weather, s: State, ks: Keys, k: ObjectKey)
    requires Ready(env, s) && (forall q | q in ks :: q in env.wanted) && k !in ks
    ensures var r := CreateAll(env, w, s, ks);
            Get(r.existing, k) == Get(s.existing, k) && (k in r.toUpdate <==> k in s.toUpdate)
    decreases |ks|
  {
    if ks != [] {
      assert ks == ks[..|ks| - 1] + [ks[|ks| - 1]];
      CreatesFrame(env, w, s, ks[..|ks| - 1], k);
    }
  }

  lemma {:induction false} CreatesAreSafe(env: Env, w: Weather, s: State, ks: Keys)
    requires Ready(env, s) && NoRepeats(ks) && forall k | k in ks :: k in env.wanted && k !in s.existing
    requires SafeLog(env, s.cluster.log) && Seen(env, s) && AllCurrent(s)
    requires NoRepeats(s.toUpdate)
    ensures var r := CreateAll(env, w, s, ks);
            SafeLog(env, r.cluster.log) && Seen(env, r) && AllCurrent(r) && NoRepeats(r.toUpdate)
    decreases |ks|
  {
    if ks != [] {
      var init, k := ks[..|ks| - 1], ks[|ks| - 1];
      assert ks == init + [k];
      CreatesAreSafe(env, w, s, init);
      CreatesFrame(env, w, s, init, k);
      CreateIsSafe(env, w, CreateAll(env, w, s, init), k);
    }
  }

  lemma CreateIsSafe(env: Env, w: Weather, s: State, k: ObjectKey)
    requires k in env.wanted && k !in s.existing && k !in s.toUpdate
    requires SafeLog(env, s.cluster.log) && Seen(env, s) && AllCurrent(s)
    requires NoRepeats(s.toUpdate)
    ensures var r := CreateF(env, w, s, k);
            && SafeLog(env, r.cluster.log) && Seen(env, r) && AllCurrent(r)
            && NoRepeats(r.toUpdate)
  {
    CreateLogs(env, w, s, k);
    CreateChanges(env, w, s, k, ToSend(env, k));
    SeenStays(env, s, CreateF(env, w, s, k), k);
  }

  lemma SeenStays(env: Env, s: State, r: State, k: ObjectKey)
    requires k in env.wanted && k !in s.existing && Seen(env, s) && AllCurrent(s)
    requires r.existing == s.existing || (k in r.existing && r.existing == s.existing[k := r.existing[k]])
    requires forall q | q != k :: Get(r.cluster.objs, q) == Get(s.cluster.objs, q)
    requires k in r.existing ==> Current(r, k) && !Foreign(env, r.existing[k], ToSend(env, k))
    ensures Seen(env, r) && AllCurrent(r)
  {
    forall q | q in r.existing ensures Current(r, q) && Permitted(env, q, r.existing[q]) {
      assert q in s.existing ==> Current(s, q) && Permitted(env, q, s.existing[q]);
    }
  }

  /** An object is created, or the one that is there is seen and may be taken over. */
  lemma CreateChanges(env: Env, w: Weather, s: State, k: ObjectKey, obj: Fields)
    requires k !in s.existing
    ensures var r := CreateObject(env, w, s, k, obj);
            && (forall q | q != k :: Get(r.cluster.objs, q) == Get(s.cluster.objs, q))
            && (k in r.existing ==> Current(r, k) && !Foreign(env, r.existing[k], obj))
  {
  }

  lemma CreateLogs(env: Env, w: Weather, s: State, k: ObjectKey)
    requires k in env.wanted
    ensures var before, after := s.cluster.log, CreateF(env, w, s, k).cluster.log;
            after == before || exists doc :: after == before + [Created(k, doc)]
  {
    var obj := ToSend(env, k);
    assert ServerCreate(w, s.cluster, k, WireFields(env.lib, obj)).0.log == s.cluster.log ||
           ServerCreate(w, s.cluster, k, WireFields(env.lib, obj)).0.log ==
               s.cluster.log + [Created(k, WireFields(env.lib, obj))];
  }

  /** Creating again after a replacement only adds creations to the log. */
  lemma {:induction false} RecreatesAreSafe(env: Env, w: Weather, s: State, ks: Keys)
    requires Ready(env, s) && forall k | k in ks :: k in env.wanted
    requires SafeLog(env, s.cluster.log)
    ensures SafeLog(env, CreateAll(env, w, s, ks).cluster.log)
    decreases |ks|
  {
    if ks != [] {
      RecreatesAreSafe(env, w, s, ks[..|ks| - 1]);
      CreateLogs(env, w, CreateAll(env, w, s, ks[..|ks| - 1]), ks[|ks| - 1]);
    }
  }

  lemma {:induction false} UpdatesAreSafe(env: Env, w: Weather, s: State, ks: Keys, verdicts: Verdicts)
    requires NoRepeats(ks) && CanUpdate(env, s, ks, verdicts)
    requires SafeLog(env, s.cluster.log) && Seen(env, s) && AllCurrent(s)
    requires s.toReplace == []
    ensures var r := UpdateAll(env, w, s, ks, verdicts);
            && SafeLog(env, r.cluster.log) && NoRepeats(r.toReplace)
            && (forall k | k in r.toReplace :: MayReplace(env, r.existing[k], k))
            && (forall k | k in s.existing && (k in ks ==> k in r.toReplace) :: Current(r, k))
    decreases |ks|
  {
    if ks != [] {
      var init, k := ks[..|ks| - 1], ks[|ks| - 1];
      assert ks == init + [k];
      UpdatesAreSafe(env, w, s, init, verdicts);
      var m := UpdateAll(env, w, s, init, verdicts);
      UpdateIsSafe(env, w, m, k, verdicts[k]);
    }
  }

  lemma UpdateIsSafe(env: Env, w: Weather, s: State, k: ObjectKey, outcome: Outcome)
    requires k in env.wanted && Current(s, k) && k !in s.toReplace
    requires SafeLog(env, s.cluster.log) && Permitted(env, k, s.existing[k])
    ensures var r := UpdateBy(env, w, s, k, outcome);
            && SafeLog(env, r.cluster.log)
            && (r.toReplace == s.toReplace ||
                (r.toReplace == s.toReplace + [k] && MayReplace(env, s.existing[k], k) && r.cluster == s.cluster))
            && (forall q | q != k :: Get(r.cluster.objs, q) == Get(s.cluster.objs, q))
  {
    if outcome.Send? {
      PatchIsSafe(env, w, s.cluster, k, s.existing[k], outcome.patch);
    }
  }

  lemma PatchIsSafe(env: Env, w: Weather, c: Cluster, k: ObjectKey, seen: Fields, patch: Fields)
    requires k in env.wanted && Permitted(env, k, seen) && Get(c.objs, k) == Some(seen) && SafeLog(env, c.log)
    ensures SafeLog(env, ServerPatch(w, c, k, patch).0.log)
  {
  }

  lemma DeleteIsSafe(env: Env, w: Weather, s: State, k: ObjectKey, before: Fields)
    requires SafeLog(env, s.cluster.log) && Get(s.cluster.objs, k) == Some(before) &&
               SafeAction(env, Deleted(k, before))
    ensures SafeLog(env, DeleteF(w, s, k).cluster.log)
  {
  }

  lemma DeleteFrame(w: Weather, s: State, k: ObjectKey, q: ObjectKey)
    requires q != k
    ensures Get(DeleteF(w, s, k).cluster.objs, q) == Get(s.cluster.objs, q)
  {
  }

  lemma {:induction false} DeletesFrame(w: Weather, s: State, ks: Keys, q: ObjectKey)
    requires q !in ks
    ensures Get(DeleteAll(w, s, ks).cluster.objs, q) == Get(s.cluster.objs, q)
    decreases |ks|
  {
    if ks != [] {
      var init, k := ks[..|ks| - 1], ks[|ks| - 1];
      assert ks == init + [k];
      DeletesFrame(w, s, init, q);
      DeleteFrame(w, DeleteAll(w, s, init), k, q);
    }
  }

  lemma {:induction false} DeletesAreSafe(env: Env, w: Weather, s: State, ks: Keys)
    requires NoRepeats(ks) && SafeLog(env, s.cluster.log)
    requires forall k | k in ks :: Current(s, k) && SafeAction(env, Deleted(k, s.existing[k]))
    ensures SafeLog(env, DeleteAll(w, s, ks).cluster.log)
    decreases |ks|
  {
    if ks != [] {
      var init, k := ks[..|ks| - 1], ks[|ks| - 1];
      assert ks == init + [k] && Current(s, k);
      DeletesAreSafe(env, w, s, init);
      DeletesFrame(w, s, init, k);
      DeleteIsSafe(env, w, DeleteAll(w, s, init), k, s.existing[k]);
    }
  }

  /** Creating is safe, and leaves what is to be deleted as it was seen. */
  lemma CreatedIsSafe(env: Env, w: Weather, cluster: Cluster, plan: Plan)
    requires IsPlan(env, Existing(env, cluster.objs), plan) && SafeLog(env, cluster.log)
    ensures var r := CreateStage(env, w, cluster, Existing(env, cluster.objs), plan);
            && SafeLog(env, r.cluster.log) && Seen(env, r) && AllCurrent(r) && NoRepeats(r.toUpdate)
            && forall k | k in plan.toDelete ::
                 k in r.existing && k !in r.toUpdate && r.existing[k] == Existing(env, cluster.objs)[k]
  {
    var existing := Existing(env, cluster.objs);
    var s := Start(existing, plan, cluster);
    CreatesAreSafe(env, w, s, plan.toCreate);
    forall k | k in plan.toDelete
      ensures var r := CreateStage(env, w, cluster, existing, plan);
              k in r.existing && k !in r.toUpdate && r.existing[k] == existing[k]
    {
      CreatesFrame(env, w, s, plan.toCreate, k);
    }
  }

  predicate MayBeReplaced(env: Env, s: State, k: ObjectKey) {
    Current(s, k) && k in env.wanted && SafeAction(env, Deleted(k, s.existing[k]))
  }

  /** Updating is safe, and what is left to replace may be replaced. */
  lemma UpdatedIsSafe(env: Env, w: Weather, created: State)
    requires Ready(env, created) && SafeLog(env, created.cluster.log) && Seen(env, created) && AllCurrent(created)
    requires NoRepeats(created.toUpdate) && created.toReplace == []
    ensures var r := UpdateStage(env, w, created);
            && SafeLog(env, r.cluster.log) && NoRepeats(r.toReplace)
            && (forall k | k in r.toReplace :: MayBeReplaced(env, r, k))
            && (forall k | k in r.existing && k !in created.toUpdate :: Current(r, k))
  {
    UpdatesAreSafe(env, w, created, created.toUpdate, Compared(env, created.existing));
    var r := UpdateStage(env, w, created);
    forall k | k in r.toReplace ensures MayBeReplaced(env, r, k) {
      assert k in env.wanted && Permitted(env, k, created.existing[k]);
    }
  }

  /** So is pruning. */
  lemma PrunedIsSafe(env: Env, w: Weather, cluster: Cluster, plan: Plan)
    requires IsPlan(env, Existing(env, cluster.objs), plan) && SafeLog(env, cluster.log)
    ensures var r := Pruned(env, w, cluster, Existing(env, cluster.objs), plan);
            && SafeLog(env, r.cluster.log) && NoRepeats(r.toReplace)
            && forall k | k in r.toReplace :: MayBeReplaced(env, r, k)
  {
    var created := CreateStage(env, w, cluster, Existing(env, cluster.objs), plan);
    var updated := UpdateStage(env, w, created);
    CreatedIsSafe(env, w, cluster, plan);
    UpdatedIsSafe(env, w, created);
    if !env.noPrune {
      PlannedIsSafe(env, cluster.objs, plan);
      DeletesAreSafe(env, w, updated, plan.toDelete);
      var pruned := DeleteAll(w, updated, plan.toDelete);
      forall k | k in pruned.toReplace ensures MayBeReplaced(env, pruned, k) {
        assert MayBeReplaced(env, updated, k) && k !in plan.toDelete;
        DeletesFrame(w, updated, plan.toDelete, k);
      }
    }
  }

  lemma PlannedIsSafe(env: Env, objs: ByKey, plan: Plan)
    requires IsPlan(env, Existing(env, objs), plan) && !env.noPrune
    ensures forall k | k in plan.toDelete :: k !in env.wanted && SafeAction(env, Deleted(k, Existing(env, objs)[k]))
  {
  }

  /** The whole pass, with or without an owner, whatever calls fail and whatever objects linger. */
  lemma PassIsSafe(env: Env, w: Weather, cluster: Cluster, plan: Plan)
    requires IsPlan(env, Existing(env, cluster.objs), plan)
    requires SafeLog(env, cluster.log)
    ensures SafeLog(env, Run(env, w, cluster, Existing(env, cluster.objs), plan).cluster.log)
  {
    var pruned := Pruned(env, w, cluster, Existing(env, cluster.objs), plan);
    PrunedIsSafe(env, w, cluster, plan);
    assert forall k | k in pruned.toReplace :: MayBeReplaced(env, pruned, k);
    DeletesAreSafe(env, w, pruned, pruned.toReplace);
    var cleared := DeleteAll(w, pruned, pruned.toReplace);
    RecreatesAreSafe(env, w, cleared, cleared.toReplace);
  }

  /** Without an owner and without a subcontext, as in Ensure, a pass prunes nothing, whatever fails: every deletion is
      that of a wanted object that asks to be replaced. */
  lemma EnsureNeverPrunes(env: Env, w: Weather, cluster: Cluster, plan: Plan, i: nat)
    requires env.ownHash == None && IsPlan(env, Existing(env, cluster.objs), plan) && cluster.log == []
    requires var log := Run(env, w, cluster, Existing(env, cluster.objs), plan).cluster.log;
             i < |log| && log[i].Deleted?
    ensures var a := Run(env, w, cluster, Existing(env, cluster.objs), plan).cluster.log[i];
            a.key in env.wanted && MayReplace(env, a.before, a.key)
  {
    PassIsSafe(env, w, cluster, plan);
    assert SafeAction(env, Run(env, w, cluster, Existing(env, cluster.objs), plan).cluster.log[i]);
  }
}
