/**
 A whole apply: one pass for each version of each kind, in order (pkg/apply/desiredset_apply.go:42-71).
 Passes over versions of one kind meet the same objects on the server.
 */
module WholeApply {
  import opened Base
  import opened Kinds
  import opened Json
  import opened Sanitize
  import opened ApplyPatch
  import opened ObjectSet
  import opened Ownership
  import opened Process
  import opened Safety
  import opened Convergence

  type World = map<GroupKind, ByKey>

  function At(world: World, gk: GroupKind): ByKey {
    if gk in world then world[gk] else map[]
  }

  /** What was done for one version, `known` telling whether its kind is: a pass, with what it logged and how many
      errors it met. */
  datatype Step = Step(env: Env, known: bool, log: seq<Action>, errors: nat, after: World) {
    function Kind(): GroupKind {
      env.gvk.GroupKind()
    }
  }

  /** A pass stops at a failed list, or runs a plan made from what was listed. */
  ghost predicate IsPass(env: Env, w: Weather, before: ByKey, log: seq<Action>, errors: nat, after: ByKey) {
    || (errors == 1 && after == before && log == [] && exists tick: nat :: ListFails(env, w, tick))
    || exists tick: nat, plan :: IsRun(env, w, before, tick, plan, log, errors, after)
  }

  ghost predicate IsRun(env: Env, w: Weather, before: ByKey, tick: nat, plan: Plan, log: seq<Action>, errors: nat,
                        after: ByKey) {
    IsPlan(env, Existing(env, before), plan) &&
    var r := Run(env, w, Cluster(before, [], tick), Existing(env, before), plan);
    r.cluster.objs == after && r.cluster.log == log && r.errors == errors
  }

  ghost predicate IsStep(w: Weather, before: World, s: Step) {
    && s.after == before[s.Kind() := At(s.after, s.Kind())]
    && if s.known then IsPass(s.env, w, At(before, s.Kind()), s.log, s.errors, At(s.after, s.Kind()))
       else s.errors == 1 && s.log == [] && At(s.after, s.Kind()) == At(before, s.Kind())
  }

  /** The world after `n` steps. */
  function After(world: World, steps: seq<Step>, n: nat): World
    requires n <= |steps|
  {
    if n == 0 then world else steps[n - 1].after
  }

  ghost predicate StepAt(w: Weather, world: World, steps: seq<Step>, i: nat)
    requires i < |steps|
  {
    IsStep(w, After(world, steps, i), steps[i])
  }

  /** Every step starts from where the one before it ended. */
  ghost predicate IsApply(w: Weather, world: World, steps: seq<Step>) {
    forall i | 0 <= i < |steps| :: StepAt(w, world, steps, i)
  }

  function Final(world: World, steps: seq<Step>): World {
    After(world, steps, |steps|)
  }

  // ---------------------------------------------------------------- safety

  lemma StepIsSafe(w: Weather, before: World, s: Step)
    requires IsStep(w, before, s)
    ensures SafeLog(s.env, s.log)
  {
    if s.log != [] {
      var objs, after := At(before, s.Kind()), At(s.after, s.Kind());
      var tick: nat, plan :| IsRun(s.env, w, objs, tick, plan, s.log, s.errors, after);
      PassIsSafe(s.env, w, Cluster(objs, [], tick), plan);
    }
  }

  /** No step of an apply touches what belongs to another owner, whatever goes wrong. */
  lemma ApplyIsSafe(w: Weather, world: World, steps: seq<Step>, i: nat)
    requires IsApply(w, world, steps) && i < |steps|
    ensures SafeLog(steps[i].env, steps[i].log)
  {
    assert StepAt(w, world, steps, i);
    StepIsSafe(w, After(world, steps, i), steps[i]);
  }

  // ---------------------------------------------------------------- convergence

  ghost predicate TidyWorld(world: World) {
    forall gk | gk in world :: Tidy(world[gk])
  }

  /** The passes are calm, in owner mode and without error, and know of each other what they want. */
  ghost predicate Coherent(w: Weather, steps: seq<Step>) {
    && (forall i | 0 <= i < |steps| :: FineAt(w, steps, i))
    && (forall i, j | 0 <= i < |steps| && 0 <= j < |steps| :: KnownAt(steps, i, j))
  }

  ghost predicate Fine(w: Weather, s: Step) {
    Calm(s.env, w) && Owning(s.env) && s.errors == 0
  }

  ghost predicate FineAt(w: Weather, steps: seq<Step>, i: nat)
    requires i < |steps|
  {
    Fine(w, steps[i])
  }

  /** What `a` wants, a pass `b` over the same kind wants too, or spares. */
  ghost predicate KnownTo(a: Env, b: Env) {
    a.gvk.GroupKind() == b.gvk.GroupKind() ==>
      a.lib == b.lib && a.ownHash == b.ownHash && forall k | k in a.wanted :: k in b.wanted || CrossVersion(b, k)
  }

  ghost predicate KnownAt(steps: seq<Step>, i: nat, j: nat)
    requires i < |steps| && j < |steps|
  {
    KnownTo(steps[i].env, steps[j].env)
  }

  /** How one key fares in an error-free pass: a wanted object ends up to date, and stays untouched if it was; any other
      goes exactly if it is stale. */
  ghost predicate Effect(env: Env, before: ByKey, after: ByKey, k: ObjectKey) {
    if k in env.wanted then UpToDate(env, after, k) && (UpToDate(env, before, k) ==> Get(after, k) == Get(before, k))
    else Get(after, k) == if k in before && Stale(env, k, before[k]) then None else Get(before, k)
  }

  lemma AimIsEffect(env: Env, before: ByKey, after: ByKey, k: ObjectKey)
    requires Get(after, k) == Aim(env, before, k) && Settled(env, after)
    ensures Effect(env, before, after, k)
  {
    if k in env.wanted && k in before {
      MergeNothing(before[k]);
    }
  }

  lemma PassFacts(env: Env, w: Weather, before: ByKey, log: seq<Action>, errors: nat, after: ByKey)
    requires IsPass(env, w, before, log, errors, after) && errors == 0
    requires Calm(env, w) && Owning(env) && Tidy(before)
    ensures Settled(env, after) && Tidy(after)
    ensures forall k :: Effect(env, before, after, k)
    ensures log == [] ==> after == before
  {
    var tick: nat, plan :| IsRun(env, w, before, tick, plan, log, errors, after);
    var cluster := Cluster(before, [], tick);
    PassSettles(env, w, cluster, plan);
    forall k ensures Effect(env, before, after, k) {
      PassReachesAim(env, w, cluster, plan, k);
      AimIsEffect(env, before, after, k);
    }
    if log == [] {
      QuietPassChangesNothing(env, w, cluster, plan);
    }
  }

  /** What an error-free step does to the world. */
  ghost predicate Moved(before: World, s: Step, after: World) {
    && (forall k :: Effect(s.env, At(before, s.Kind()), At(after, s.Kind()), k))
    && (forall gk | gk != s.Kind() :: At(after, gk) == At(before, gk))
  }

  lemma StepFacts(w: Weather, before: World, s: Step)
    requires IsStep(w, before, s) && Fine(w, s) && TidyWorld(before)
    ensures TidyWorld(s.after) && Settled(s.env, At(s.after, s.Kind())) && Moved(before, s, s.after)
    ensures s.log == [] ==> At(s.after, s.Kind()) == At(before, s.Kind())
  {
    var objs, after := At(before, s.Kind()), At(s.after, s.Kind());
    assert IsPass(s.env, w, objs, s.log, s.errors, after);
    PassFacts(s.env, w, objs, s.log, s.errors, after);
    OneKindChanged(before, s.Kind(), after, s.after);
  }

  lemma OneKindChanged(before: World, kind: GroupKind, objs: ByKey, after: World)
    requires after == before[kind := objs] && TidyWorld(before) && Tidy(objs)
    ensures TidyWorld(after) && At(after, kind) == objs && forall gk | gk != kind :: At(after, gk) == At(before, gk)
  {
  }

  ghost predicate MovedAt(world: World, steps: seq<Step>, n: nat)
    requires n < |steps|
  {
    Moved(After(world, steps, n), steps[n], After(world, steps, n + 1))
  }

  /** Every pass has its effect, and the passes know of each other what they want. */
  ghost predicate Converging(world: World, steps: seq<Step>) {
    && (forall n | 0 <= n < |steps| :: MovedAt(world, steps, n))
    && (forall i, j | 0 <= i < |steps| && 0 <= j < |steps| :: KnownAt(steps, i, j))
  }

  lemma TidyStep(w: Weather, world: World, steps: seq<Step>, n: nat)
    requires IsApply(w, world, steps) && forall i | 0 <= i < |steps| :: FineAt(w, steps, i)
    requires n < |steps| && TidyWorld(After(world, steps, n))
    ensures MovedAt(world, steps, n) && TidyWorld(After(world, steps, n + 1))
  {
    assert StepAt(w, world, steps, n) && FineAt(w, steps, n);
    StepFacts(w, After(world, steps, n), steps[n]);
  }

  lemma {:induction false} StaysTidy(w: Weather, world: World, steps: seq<Step>, n: nat)
    requires IsApply(w, world, steps) && TidyWorld(world) && n <= |steps|
    requires forall i | 0 <= i < |steps| :: FineAt(w, steps, i)
    ensures TidyWorld(After(world, steps, n))
    decreases n
  {
    if n > 0 {
      StaysTidy(w, world, steps, n - 1);
      TidyStep(w, world, steps, n - 1);
    }
  }

  /** Every pass of an error-free apply has its effect. */
  lemma ApplyConverges(w: Weather, world: World, steps: seq<Step>)
    requires IsApply(w, world, steps) && Coherent(w, steps) && TidyWorld(world)
    ensures Converging(world, steps) && TidyWorld(Final(world, steps))
  {
    forall n | 0 <= n < |steps| ensures MovedAt(world, steps, n) {
      StaysTidy(w, world, steps, n);
      TidyStep(w, world, steps, n);
    }
    StaysTidy(w, world, steps, |steps|);
  }

  // ---------------------------------------------------------------- what is wanted

  /** No other version wants the key differently. */
  predicate Unrivalled(steps: seq<Step>, i: nat, k: ObjectKey)
    requires i < |steps| && k in steps[i].env.wanted
  {
    forall j | 0 <= j < |steps| :: Alike(steps, i, j, k)
  }

  predicate Alike(steps: seq<Step>, i: nat, j: nat, k: ObjectKey)
    requires i < |steps| && j < |steps| && k in steps[i].env.wanted
  {
    steps[j].Kind() == steps[i].Kind() && k in steps[j].env.wanted ==> steps[j].env.wanted[k] == steps[i].env.wanted[k]
  }

  /** A pass that wants the same, or does not want the key, leaves it up to date. */
  lemma StaysUpToDate(a: Env, b: Env, before: ByKey, after: ByKey, k: ObjectKey)
    requires UpToDate(a, before, k) && KnownTo(a, b) && a.gvk.GroupKind() == b.gvk.GroupKind()
    requires k in b.wanted ==> b.wanted[k] == a.wanted[k]
    requires Effect(b, before, after, k)
    ensures Get(after, k) == Get(before, k)
  {
    if k in b.wanted {
      VersionDoesNotMatter(a.lib, a.gvk, b.gvk, before[k], a.wanted[k]);
    }
  }

  lemma FreshIsUpToDate(world: World, steps: seq<Step>, i: nat, k: ObjectKey)
    requires i < |steps| && MovedAt(world, steps, i) && k in steps[i].env.wanted
    ensures UpToDate(steps[i].env, At(After(world, steps, i + 1), steps[i].Kind()), k)
  {
    var gk := steps[i].Kind();
    assert Effect(steps[i].env, At(After(world, steps, i), gk), At(After(world, steps, i + 1), gk), k);
  }

  /** What later passes make of it: nothing. */
  lemma UpToDateStays(world: World, steps: seq<Step>, i: nat, k: ObjectKey, n: nat)
    requires i < n < |steps| && MovedAt(world, steps, i) && MovedAt(world, steps, n) && KnownAt(steps, i, n)
    requires k in steps[i].env.wanted && Alike(steps, i, n, k)
    requires SameAt(world, steps, i + 1, n, steps[i].Kind(), k)
    ensures SameAt(world, steps, i + 1, n + 1, steps[i].Kind(), k)
  {
    var gk := steps[i].Kind();
    FreshIsUpToDate(world, steps, i, k);
    if steps[n].Kind() == gk {
      StaysUpToDate(steps[i].env, steps[n].env, At(After(world, steps, n), gk), At(After(world, steps, n + 1), gk), k);
    }
  }

  /** The object is the same after `a` and after `b` steps. */
  predicate SameAt(world: World, steps: seq<Step>, a: nat, b: nat, gk: GroupKind, k: ObjectKey)
    requires a <= |steps| && b <= |steps|
  {
    Get(At(After(world, steps, a), gk), k) == Get(At(After(world, steps, b), gk), k)
  }

  lemma {:induction false} WantedStays(world: World, steps: seq<Step>, i: nat, k: ObjectKey, n: nat)
    requires Converging(world, steps)
    requires i < n <= |steps| && k in steps[i].env.wanted && Unrivalled(steps, i, k)
    ensures SameAt(world, steps, i + 1, n, steps[i].Kind(), k)
    decreases n
  {
    if i + 1 < n {
      WantedStays(world, steps, i, k, n - 1);
      assert MovedAt(world, steps, i) && MovedAt(world, steps, n - 1);
      assert KnownAt(steps, i, n - 1) && Alike(steps, i, n - 1, k);
      UpToDateStays(world, steps, i, k, n - 1);
    }
  }

  lemma WantedIsUpToDate(world: World, steps: seq<Step>, i: nat, k: ObjectKey, n: nat)
    requires Converging(world, steps)
    requires i < n <= |steps| && k in steps[i].env.wanted && Unrivalled(steps, i, k)
    ensures UpToDate(steps[i].env, At(After(world, steps, n), steps[i].Kind()), k)
  {
    assert MovedAt(world, steps, i);
    FreshIsUpToDate(world, steps, i, k);
    WantedStays(world, steps, i, k, n);
  }

  /** The object is there with the hash. */
  predicate IsThere(objs: ByKey, hash: Option<string>, k: ObjectKey) {
    k in objs && hash.Some? && Carries(objs[k], hash.value)
  }

  lemma StaysThere(a: Env, b: Env, before: ByKey, after: ByKey, k: ObjectKey)
    requires k in a.wanted && KnownTo(a, b) && a.gvk.GroupKind() == b.gvk.GroupKind()
    requires IsThere(before, a.ownHash, k) || k in b.wanted
    requires Effect(b, before, after, k)
    ensures IsThere(after, a.ownHash, k)
  {
  }

  /** Even if versions want it differently, a wanted object is there with the owner's hash. */
  lemma {:induction false} WantedIsThere(world: World, steps: seq<Step>, i: nat, k: ObjectKey, n: nat)
    requires Converging(world, steps) && i < n <= |steps| && k in steps[i].env.wanted
    ensures IsThere(At(After(world, steps, n), steps[i].Kind()), steps[i].env.ownHash, k)
    decreases n
  {
    var gk := steps[i].Kind();
    assert MovedAt(world, steps, n - 1);
    if i < n - 1 {
      WantedIsThere(world, steps, i, k, n - 1);
    }
    if steps[n - 1].Kind() == gk {
      assert KnownAt(steps, i, n - 1);
      StaysThere(steps[i].env, steps[n - 1].env, At(After(world, steps, n - 1), gk), At(After(world, steps, n), gk), k);
    }
  }

  // ---------------------------------------------------------------- what is not wanted

  predicate WantedBy(steps: seq<Step>, gk: GroupKind, k: ObjectKey) {
    exists i | 0 <= i < |steps| :: steps[i].Kind() == gk && k in steps[i].env.wanted
  }

  /** One of the first `n` passes prunes the object. */
  predicate StaleFor(steps: seq<Step>, n: nat, gk: GroupKind, k: ObjectKey, doc: Fields)
    requires n <= |steps|
  {
    exists i | 0 <= i < n :: steps[i].Kind() == gk && Stale(steps[i].env, k, doc)
  }

  lemma StaleForGrows(steps: seq<Step>, n: nat, gk: GroupKind, k: ObjectKey, doc: Fields)
    requires n < |steps|
    ensures StaleFor(steps, n + 1, gk, k, doc) <==>
              StaleFor(steps, n, gk, k, doc) || (steps[n].Kind() == gk && Stale(steps[n].env, k, doc))
  {
  }

  function Unless(gone: bool, doc: Option<Fields>): Option<Fields> {
    if gone then None else doc
  }

  /** What is left of an object nobody wants after the first `n` passes. */
  function LeftOf(world: World, steps: seq<Step>, gk: GroupKind, k: ObjectKey, n: nat): Option<Fields>
    requires n <= |steps|
  {
    var before := Get(At(world, gk), k);
    Unless(before.Some? && StaleFor(steps, n, gk, k, before.value), before)
  }

  lemma UnwantedOneMore(world: World, steps: seq<Step>, gk: GroupKind, k: ObjectKey, n: nat)
    requires n < |steps| && MovedAt(world, steps, n) && (steps[n].Kind() == gk ==> k !in steps[n].env.wanted)
    requires Get(At(After(world, steps, n), gk), k) == LeftOf(world, steps, gk, k, n)
    ensures Get(At(After(world, steps, n + 1), gk), k) == LeftOf(world, steps, gk, k, n + 1)
  {
    if k in At(world, gk) {
      StaleForGrows(steps, n, gk, k, At(world, gk)[k]);
    }
    if steps[n].Kind() == gk {
      UnwantedStep(steps[n].env, At(After(world, steps, n), gk), At(After(world, steps, n + 1), gk), k);
    }
  }

  /** What nobody wants goes exactly if some pass finds it stale; otherwise nobody touches it. */
  lemma {:induction false} UnwantedIs(world: World, steps: seq<Step>, gk: GroupKind, k: ObjectKey, n: nat)
    requires Converging(world, steps) && n <= |steps| && !WantedBy(steps, gk, k)
    ensures Get(At(After(world, steps, n), gk), k) == LeftOf(world, steps, gk, k, n)
    decreases n
  {
    if n > 0 {
      UnwantedIs(world, steps, gk, k, n - 1);
      UnwantedOneMore(world, steps, gk, k, n - 1);
    }
  }

  lemma UnwantedStep(env: Env, before: ByKey, after: ByKey, k: ObjectKey)
    requires Effect(env, before, after, k) && k !in env.wanted
    ensures Get(after, k) == Unless(k in before && Stale(env, k, before[k]), Get(before, k))
  {
  }

  lemma NothingStaleIsLeft(world: World, steps: seq<Step>, i: nat, k: ObjectKey)
    requires Converging(world, steps) && i < |steps| && k in At(Final(world, steps), steps[i].Kind())
    ensures !Stale(steps[i].env, k, At(Final(world, steps), steps[i].Kind())[k])
  {
    var gk := steps[i].Kind();
    if WantedBy(steps, gk, k) {
      var j :| 0 <= j < |steps| && steps[j].Kind() == gk && k in steps[j].env.wanted;
      assert KnownAt(steps, j, i);
    } else {
      UnwantedIs(world, steps, gk, k, |steps|);
    }
  }

  // ---------------------------------------------------------------- doing it again

  /** Each pass is over a settled kind. */
  ghost predicate AllSettled(world: World, steps: seq<Step>) {
    forall i | 0 <= i < |steps| :: SettledAt(world, steps, i)
  }

  ghost predicate SettledAt(world: World, steps: seq<Step>, i: nat)
    requires i < |steps|
  {
    SettledFor(world, steps[i])
  }

  /** No pass meets an estranged object. */
  ghost predicate AllFriendly(world: World, steps: seq<Step>) {
    forall i | 0 <= i < |steps| :: FriendlyAt(world, steps, i)
  }

  ghost predicate FriendlyAt(world: World, steps: seq<Step>, i: nat)
    requires i < |steps|
  {
    NoneEstranged(world, steps[i])
  }

  /** Both depend on what the passes want only. */
  lemma SameWants(world: World, a: seq<Step>, b: seq<Step>)
    requires |a| == |b| && forall i | 0 <= i < |a| :: a[i].env == b[i].env
    ensures AllSettled(world, a) <==> AllSettled(world, b)
    ensures AllFriendly(world, a) <==> AllFriendly(world, b)
  {
    forall i | 0 <= i < |a|
      ensures SettledAt(world, a, i) <==> SettledAt(world, b, i)
      ensures FriendlyAt(world, a, i) <==> FriendlyAt(world, b, i)
    {
      SameWant(world, a[i], b[i]);
    }
  }

  lemma SameWant(world: World, a: Step, b: Step)
    requires a.env == b.env
    ensures SettledFor(world, a) <==> SettledFor(world, b)
    ensures NoneEstranged(world, a) <==> NoneEstranged(world, b)
  {
  }

  ghost predicate SettledFor(world: World, s: Step) {
    Settled(s.env, At(world, s.Kind()))
  }

  ghost predicate NoneEstranged(world: World, s: Step) {
    forall k :: !Estranged(s.env, At(world, s.Kind()), k)
  }

  predicate IsQuiet(s: Step) {
    s.log == [] && s.errors == 0
  }

  ghost predicate SameWorld(a: World, b: World) {
    forall gk :: At(a, gk) == At(b, gk)
  }

  lemma QuietPass(env: Env, w: Weather, before: ByKey, log: seq<Action>, errors: nat, after: ByKey)
    requires IsPass(env, w, before, log, errors, after) && Owning(env) && Settled(env, before)
    ensures log == [] && after == before
    ensures NoneFail(w) ==> (errors == 0 <==> forall k :: !Estranged(env, before, k))
  {
    if tick: nat, plan :| IsRun(env, w, before, tick, plan, log, errors, after) {
      SettledIsQuiet(env, w, Cluster(before, [], tick), plan);
    }
  }

  /** What holds of a step over a settled kind. */
  ghost predicate Unmoved(w: Weather, before: World, s: Step) {
    && s.log == [] && SameWorld(s.after, before)
    && (NoneFail(w) ==> (s.errors == 0 <==> NoneEstranged(before, s)))
  }

  ghost predicate UnmovedAt(w: Weather, world: World, steps: seq<Step>, i: nat)
    requires i < |steps|
  {
    Unmoved(w, world, steps[i])
  }

  lemma QuietStep(w: Weather, before: World, s: Step)
    requires IsStep(w, before, s) && s.known && Owning(s.env) && SettledFor(before, s)
    ensures Unmoved(w, before, s)
  {
    var objs, after := At(before, s.Kind()), At(s.after, s.Kind());
    assert IsPass(s.env, w, objs, s.log, s.errors, after);
    QuietPass(s.env, w, objs, s.log, s.errors, after);
    OnlyKind(before, s);
  }

  lemma OnlyKind(before: World, s: Step)
    requires s.after == before[s.Kind() := At(s.after, s.Kind())] && At(s.after, s.Kind()) == At(before, s.Kind())
    ensures SameWorld(s.after, before)
  {
  }

  lemma SameStep(w: Weather, a: World, b: World, s: Step)
    requires SameWorld(a, b)
    ensures SettledFor(a, s) <==> SettledFor(b, s)
    ensures NoneEstranged(a, s) <==> NoneEstranged(b, s)
    ensures Unmoved(w, a, s) <==> Unmoved(w, b, s)
  {
    assert At(a, s.Kind()) == At(b, s.Kind());
  }

  ghost predicate ReadyAt(steps: seq<Step>, i: nat)
    requires i < |steps|
  {
    Owning(steps[i].env) && steps[i].known
  }

  lemma UnmovedStep(w: Weather, world: World, steps: seq<Step>, n: nat)
    requires IsApply(w, world, steps) && forall i | 0 <= i < |steps| :: SettledAt(world, steps, i) && ReadyAt(steps, i)
    requires n < |steps| && SameWorld(After(world, steps, n), world)
    ensures UnmovedAt(w, world, steps, n) && SameWorld(After(world, steps, n + 1), world)
  {
    assert StepAt(w, world, steps, n) && SettledAt(world, steps, n) && ReadyAt(steps, n);
    SameStep(w, After(world, steps, n), world, steps[n]);
    QuietStep(w, After(world, steps, n), steps[n]);
  }

  /** Repeating an apply over settled kinds creates, patches and deletes nothing, whatever calls fail. */
  lemma {:induction false} RepeatedApplyIsQuiet(w: Weather, world: World, steps: seq<Step>, n: nat)
    requires IsApply(w, world, steps) && n <= |steps|
    requires forall i | 0 <= i < |steps| :: SettledAt(world, steps, i) && ReadyAt(steps, i)
    ensures SameWorld(After(world, steps, n), world)
    ensures forall i | 0 <= i < n :: UnmovedAt(w, world, steps, i)
    decreases n
  {
    if n > 0 {
      RepeatedApplyIsQuiet(w, world, steps, n - 1);
      UnmovedStep(w, world, steps, n - 1);
    }
  }

  lemma QuietStepWasSettled(w: Weather, world: World, steps: seq<Step>, n: nat)
    requires IsApply(w, world, steps) && forall i | 0 <= i < |steps| :: FineAt(w, steps, i)
    requires n < |steps| && steps[n].log == []
    requires SameWorld(After(world, steps, n), world) && TidyWorld(After(world, steps, n))
    ensures SettledAt(world, steps, n)
    ensures SameWorld(After(world, steps, n + 1), world) && TidyWorld(After(world, steps, n + 1))
  {
    assert StepAt(w, world, steps, n) && FineAt(w, steps, n);
    StepFacts(w, After(world, steps, n), steps[n]);
    SameStep(w, After(world, steps, n), world, steps[n]);
  }

  /** An apply that logs nothing and meets no error changes nothing, so every kind was settled before. */
  lemma {:induction false} QuietMeansSettled(w: Weather, world: World, steps: seq<Step>, n: nat)
    requires IsApply(w, world, steps) && n <= |steps| && TidyWorld(world)
    requires forall i | 0 <= i < |steps| :: FineAt(w, steps, i)
    requires forall i | 0 <= i < |steps| :: steps[i].log == []
    ensures SameWorld(After(world, steps, n), world) && TidyWorld(After(world, steps, n))
    ensures forall i | 0 <= i < n :: SettledAt(world, steps, i)
    decreases n
  {
    if n > 0 {
      QuietMeansSettled(w, world, steps, n - 1);
      QuietStepWasSettled(w, world, steps, n - 1);
    }
  }

  lemma QuietMeansFriendly(w: Weather, world: World, steps: seq<Step>)
    requires IsApply(w, world, steps) && AllSettled(world, steps) && NoneFail(w)
    requires forall i | 0 <= i < |steps| :: ReadyAt(steps, i)
    ensures (forall i | 0 <= i < |steps| :: IsQuiet(steps[i])) <==> AllFriendly(world, steps)
  {
    RepeatedApplyIsQuiet(w, world, steps, |steps|);
    forall i | 0 <= i < |steps| ensures IsQuiet(steps[i]) <==> FriendlyAt(world, steps, i) {
      assert UnmovedAt(w, world, steps, i);
    }
  }

  ghost predicate CalmAt(w: Weather, steps: seq<Step>, i: nat)
    requires i < |steps|
  {
    Calm(steps[i].env, w)
  }

  predicate AllQuiet(steps: seq<Step>) {
    forall i | 0 <= i < |steps| :: IsQuiet(steps[i])
  }

  lemma QuietIsFine(w: Weather, steps: seq<Step>)
    requires AllQuiet(steps) && forall i | 0 <= i < |steps| :: ReadyAt(steps, i) && CalmAt(w, steps, i)
    ensures forall i | 0 <= i < |steps| :: FineAt(w, steps, i)
  {
    forall i | 0 <= i < |steps| ensures FineAt(w, steps, i) {
      assert ReadyAt(steps, i) && CalmAt(w, steps, i) && IsQuiet(steps[i]);
    }
  }

  /** When no call fails, an apply does nothing and meets no error exactly if every kind is settled and no object
      estranged. */
  lemma QuietIff(w: Weather, world: World, steps: seq<Step>)
    requires IsApply(w, world, steps) && TidyWorld(world) && NoneFail(w)
    requires forall i | 0 <= i < |steps| :: ReadyAt(steps, i) && CalmAt(w, steps, i)
    ensures AllQuiet(steps) <==> AllSettled(world, steps) && AllFriendly(world, steps)
  {
    if |steps| > 0 {
      assert CalmAt(w, steps, 0);
      if AllQuiet(steps) {
        QuietIsFine(w, steps);
        QuietMeansSettled(w, world, steps, |steps|);
      }
      if AllSettled(world, steps) {
        QuietMeansFriendly(w, world, steps);
      }
    }
  }

  /** The keys that versions of one kind want differently are up to date for each of them. */
  predicate RivalsAreUpToDate(world: World, steps: seq<Step>) {
    forall i, k | 0 <= i < |steps| && k in steps[i].env.wanted && !Unrivalled(steps, i, k) ::
      UpToDate(steps[i].env, At(world, steps[i].Kind()), k)
  }

  /** After an error-free apply every kind is settled, but for the keys that versions want differently. */
  lemma SettledIff(world: World, steps: seq<Step>)
    requires Converging(world, steps)
    ensures AllSettled(Final(world, steps), steps) <==> RivalsAreUpToDate(Final(world, steps), steps)
  {
    var final := Final(world, steps);
    if RivalsAreUpToDate(final, steps) {
      forall i | 0 <= i < |steps| ensures SettledAt(final, steps, i) {
        StepSettled(world, steps, i);
      }
    }
    if AllSettled(final, steps) {
      forall i, k | 0 <= i < |steps| &&
          k in steps[i].env.wanted ensures UpToDate(steps[i].env, At(final, steps[i].Kind()), k) {
        assert SettledAt(final, steps, i);
      }
    }
  }

  lemma StepSettled(world: World, steps: seq<Step>, i: nat)
    requires Converging(world, steps) && i < |steps| && RivalsAreUpToDate(Final(world, steps), steps)
    ensures SettledFor(Final(world, steps), steps[i])
  {
    var env, gk := steps[i].env, steps[i].Kind();
    var objs := At(Final(world, steps), gk);
    forall k | k in env.wanted ensures UpToDate(env, objs, k) {
      if Unrivalled(steps, i, k) {
        WantedIsUpToDate(world, steps, i, k, |steps|);
      }
    }
    forall k | k in objs ensures !Stale(env, k, objs[k]) {
      NothingStaleIsLeft(world, steps, i, k);
    }
  }
}
