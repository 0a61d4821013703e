/** Recent writes kept over an informer that lags behind (pkg/runtime/cached.go:20-40, 65-160). */
module Cached {
  import opened Base
  import opened Kinds
  import opened Versions

  const CACHE_DURATION: real := 10.0

  datatype Key = Key(gvk: GVK, namespace: string, name: string)

  /** An object of a registered kind; `gvk` is None where the scheme does not know the type. */
  datatype Object = Object(gvk: Option<GVK>, namespace: string, name: string, revision: string, body: string) {
    predicate HasKey(k: Key) {
      gvk == Some(k.gvk) && namespace == k.namespace && name == k.name
    }

    function Id(): Key
      requires gvk.Some?
    {
      Key(gvk.value, namespace, name)
    }
  }

  datatype Entry = Entry(obj: Object, inserted: real)

  type Recent = map<Key, Entry>

  /** What the informer's cache answers. */
  datatype Answer = Found(obj: Object) | NotFound | Failed(error: string)

  /** What the caller gets: an object, the not-found error, or another error. */
  datatype Reply = Read(obj: Object) | Missing | Error(error: string)

  // ---------------------------------------------------------------- what the operations compute

  function Stored(recent: Recent, obj: Object, now: real): Recent {
    if obj.gvk == None then recent else recent[obj.Id() := Entry(obj, now)]
  }

  function Unstored(recent: Recent, obj: Object): Recent {
    if obj.gvk == None then recent else recent - {obj.Id()}
  }

  function Purged(recent: Recent, now: real): Recent {
    map k | k in recent && !(recent[k].inserted + CACHE_DURATION < now) :: recent[k]
  }

  /** `out` is the object to fill, as the caller passed it; its type gives the kind. */
  function Got(recent: Recent, out: Object, answer: Answer): Reply {
    match answer
    case Failed(error) => Error(error)
    case NotFound =>
      if out.gvk == None then Error("no kind for type")
      else if out.Id() in recent then Read(recent[out.Id()].obj)
      else Missing
    case Found(obj) =>
      if obj.gvk == None then Error("no kind for type")
      else if obj.Id() in recent && Newer(obj.revision, recent[obj.Id()].obj.revision) then Read(recent[obj.Id()].obj)
      else Read(obj)
  }

  // ---------------------------------------------------------------- the code

  class CacheClient {
    var recent: Recent

    constructor ()
      ensures recent == map[]
    {
      recent := map[];
    }

    method Store(obj: Object, now: real)
      modifies this
      ensures recent == Stored(old(recent), obj, now)
    {
      if obj.gvk == None {
        return;
      }
      recent := recent[obj.Id() := Entry(obj, now)];
    }

    method DeleteStore(obj: Object)
      modifies this
      ensures recent == Unstored(old(recent), obj)
    {
      if obj.gvk == None {
        return;
      }
      recent := recent - {obj.Id()};
    }

    /** One round of the purge; entries are visited, and deleted, in any order. */
    method Purge(now: real)
      modifies this
      ensures recent == Purged(old(recent), now)
    {
      var rest := recent.Keys;
      while rest != {}
        invariant rest <= recent.Keys <= old(recent).Keys
        invariant forall k | k in recent :: recent[k] == old(recent)[k]
        invariant forall k | k in old(recent) :: k in recent <==>
                    k in rest || !(old(recent)[k].inserted + CACHE_DURATION < now)
      {
        var k :| k in rest;
        if recent[k].inserted + CACHE_DURATION < now {
          recent := recent - {k};
        }
        rest := rest - {k};
      }
    }

    method Get(out: Object, answer: Answer) returns (reply: Reply)
      ensures reply == Got(recent, out, answer)
    {
      var obj := out;
      if answer.Failed? {
        return Error(answer.error);
      }
      if answer.Found? {
        obj := answer.obj;
      }
      if obj.gvk == None {
        return Error("no kind for type");
      }
      var cacheKey := obj.Id();
      if answer.NotFound? {
        if cacheKey in recent {
          return Read(recent[cacheKey].obj);
        }
        return Missing;
      }
      if cacheKey in recent && Newer(obj.revision, recent[cacheKey].obj.revision) {
        return Read(recent[cacheKey].obj);
      }
      return Read(obj);
    }
  }

  // ---------------------------------------------------------------- a client, a server and a lagging informer

  /** The server accepted this version of the key's object at this time. */
  datatype Commit = Commit(key: Key, obj: Object, time: real)

  /** A version this client has seen: by a write that returned, or by a Get. */
  datatype Saw = Saw(key: Key, version: nat)

  datatype State = State(
    now: real,
    commits: seq<Commit>,
    informer: map<Key, Object>,
    inflight: map<Key, Object>,
    recent: Recent,
    log: seq<Saw>)

  const START := State(0.0, [], map[], map[], map[], [])

  datatype Move =
    | Write(key: Key, obj: Object)      // this client's write is committed
    | Return(key: Key)                  // and its answer stored
    | Foreign(key: Key, obj: Object)    // somebody else's write is committed
    | Observe(key: Key, commit: nat)    // the informer learns of a commit
    | Look(key: Key, out: Object)       // Get
    | Purge
    | Wait(time: real)

  function VersionOf(obj: Object): nat {
    if Version(obj.revision) then Value(obj.revision) else 0
  }

  /** The version the informer has of a key. */
  function Informed(s: State, k: Key): nat {
    if k in s.informer then VersionOf(s.informer[k]) else 0
  }

  function Overlaid(s: State, k: Key): nat {
    if k in s.recent then VersionOf(s.recent[k].obj) else 0
  }

  /** A version of the key newer than every version the server has had. */
  predicate Fresh(s: State, key: Key, obj: Object) {
    && obj.HasKey(key) && Version(obj.revision)
    && forall i | 0 <= i < |s.commits| && s.commits[i].key == key :: VersionOf(s.commits[i].obj) < VersionOf(obj)
  }

  /** Every commit that is old enough has reached the informer. */
  predicate LagIsBounded(s: State) {
    forall i | 0 <= i < |s.commits| && s.commits[i].time + CACHE_DURATION <= s.now ::
      VersionOf(s.commits[i].obj) <= Informed(s, s.commits[i].key)
  }

  function Ask(informer: map<Key, Object>, key: Key): Answer {
    if key in informer then Found(informer[key]) else NotFound
  }

  predicate Can(s: State, m: Move) {
    match m
    case Write(key, obj) => key !in s.inflight && Fresh(s, key, obj)
    case Return(key) => key in s.inflight
    case Foreign(key, obj) => Fresh(s, key, obj)
    case Observe(key, i) => i < |s.commits| && s.commits[i].key == key &&
        Informed(s, key) <= VersionOf(s.commits[i].obj)
    case Look(key, out) => key in s.informer || out.HasKey(key)
    case Purge => true
    case Wait(time) => time >= 0.0 && LagIsBounded(s.(now := s.now + time))
  }

  function Take(s: State, m: Move): State
    requires Can(s, m)
  {
    match m
    case Write(key, obj) => s.(commits := s.commits + [Commit(key, obj, s.now)], inflight := s.inflight[key := obj])
    case Return(key) =>
      var obj := s.inflight[key];
      s.(recent := Stored(s.recent, obj, s.now), inflight := s.inflight - {key},
         log := s.log + [Saw(key, VersionOf(obj))])
    case Foreign(key, obj) => s.(commits := s.commits + [Commit(key, obj, s.now)])
    case Observe(key, i) => s.(informer := s.informer[key := s.commits[i].obj])
    case Look(key, out) =>
      var reply := Got(s.recent, out, Ask(s.informer, key));
      if reply.Read? then s.(log := s.log + [Saw(key, VersionOf(reply.obj))]) else s
    case Purge => s.(recent := Purged(s.recent, s.now))
    case Wait(time) => s.(now := s.now + time)
  }

  predicate Leads(s: State, moves: seq<Move>, t: State)
    decreases |moves|
  {
    if moves == [] then t == s else Can(s, moves[0]) && Leads(Take(s, moves[0]), moves[1..], t)
  }

  // ---------------------------------------------------------------- what every run keeps

  predicate Good(k: Key, obj: Object) {
    obj.HasKey(k) && Version(obj.revision)
  }

  /** The object was committed by then. */
  ghost predicate Backed(s: State, k: Key, obj: Object, time: real) {
    exists i :: 0 <= i < |s.commits| && s.commits[i].key == k && s.commits[i].obj == obj && s.commits[i].time <= time
  }

  ghost predicate WellFormed(s: State) {
    && (forall i | 0 <= i < |s.commits| :: Good(s.commits[i].key, s.commits[i].obj))
    && (forall k | k in s.informer :: Good(k, s.informer[k]))
    && (forall k | k in s.inflight :: Good(k, s.inflight[k]))
    && (forall k | k in s.recent :: Good(k, s.recent[k].obj))
  }

  ghost predicate AllBacked(s: State) {
    && (forall k | k in s.inflight :: Backed(s, k, s.inflight[k], s.now))
    && (forall k | k in s.recent :: Backed(s, k, s.recent[k].obj, s.recent[k].inserted))
  }

  /** Writes of one key are serial. */
  ghost predicate Serial(s: State) {
    forall k | k in s.recent && k in s.inflight :: VersionOf(s.recent[k].obj) < VersionOf(s.inflight[k])
  }

  /** The overlay or the informer has everything this client has seen. */
  ghost predicate Remembers(s: State) {
    forall i | 0 <= i < |s.log| ::
        s.log[i].version <= Informed(s, s.log[i].key) || s.log[i].version <= Overlaid(s, s.log[i].key)
  }

  ghost predicate Sound(s: State) {
    WellFormed(s) && AllBacked(s) && Serial(s) && LagIsBounded(s) && Remembers(s)
  }

  /** For a key the informer knows, or the output object names, Get gives the newest of informer and overlay. */
  lemma GotIsNewest(s: State, key: Key, out: Object)
    requires WellFormed(s) && Can(s, Look(key, out))
    ensures var reply := Got(s.recent, out, Ask(s.informer, key));
            && !reply.Error?
            && (reply.Read? ==> reply.obj.HasKey(key))
            && (reply.Read? ==> Informed(s, key) <= VersionOf(reply.obj) && Overlaid(s, key) <= VersionOf(reply.obj))
            && (reply.Read? ==> VersionOf(reply.obj) == Informed(s, key) || VersionOf(reply.obj) == Overlaid(s, key))
            && (reply.Missing? <==> key !in s.informer && key !in s.recent)
  {
    if key in s.informer && key in s.recent {
      NewerIsLess(s.informer[key].revision, s.recent[key].obj.revision);
    }
  }

  lemma MoveKeepsWellFormed(s: State, m: Move)
    requires WellFormed(s) && Can(s, m)
    ensures WellFormed(Take(s, m))
  {
  }

  lemma BackedStays(s: State, m: Move, k: Key, obj: Object, time: real)
    requires Can(s, m) && Backed(s, k, obj, time)
    ensures forall later | later >= time :: Backed(Take(s, m), k, obj, later)
  {
    var i :| 0 <= i < |s.commits| && s.commits[i].key == k && s.commits[i].obj == obj && s.commits[i].time <= time;
    assert Take(s, m).commits[i] == s.commits[i];
  }

  lemma MoveKeepsBacked(s: State, m: Move)
    requires AllBacked(s) && WellFormed(s) && Can(s, m)
    ensures AllBacked(Take(s, m))
  {
    FlightsStayBacked(s, m);
    EntriesStayBacked(s, m);
  }

  lemma FlightsStayBacked(s: State, m: Move)
    requires AllBacked(s) && WellFormed(s) && Can(s, m)
    ensures var t := Take(s, m);
            forall k | k in t.inflight :: Backed(t, k, t.inflight[k], t.now)
  {
    var t := Take(s, m);
    forall k | k in t.inflight ensures Backed(t, k, t.inflight[k], t.now) {
      if m.Write? && m.key == k {
        assert t.commits[|s.commits|] == Commit(k, m.obj, s.now);
      } else {
        BackedStays(s, m, k, s.inflight[k], s.now);
      }
    }
  }

  lemma EntriesStayBacked(s: State, m: Move)
    requires AllBacked(s) && WellFormed(s) && Can(s, m)
    ensures var t := Take(s, m);
            forall k | k in t.recent :: Backed(t, k, t.recent[k].obj, t.recent[k].inserted)
  {
    var t := Take(s, m);
    forall k | k in t.recent ensures Backed(t, k, t.recent[k].obj, t.recent[k].inserted) {
      if m.Return? && m.key == k {
        BackedStays(s, m, k, s.inflight[k], s.now);
      } else {
        BackedStays(s, m, k, s.recent[k].obj, s.recent[k].inserted);
      }
    }
  }

  lemma WriteKeepsSerial(s: State, key: Key, obj: Object)
    requires AllBacked(s) && Serial(s) && Can(s, Write(key, obj))
    ensures Serial(Take(s, Write(key, obj)))
  {
    if key in s.recent {
      var entry := s.recent[key];
      var i :| 0 <= i < |s.commits| && s.commits[i].key == key && s.commits[i].obj == entry.obj;
      assert VersionOf(s.commits[i].obj) < VersionOf(obj);
    }
  }

  lemma ReturnKeepsSerial(s: State, key: Key)
    requires WellFormed(s) && Serial(s) && Can(s, Return(key))
    ensures Serial(Take(s, Return(key)))
  {
    assert s.inflight[key].HasKey(key);
  }

  lemma MoveKeepsSerial(s: State, m: Move)
    requires AllBacked(s) && WellFormed(s) && Serial(s) && Can(s, m)
    ensures Serial(Take(s, m))
  {
    match m
    case Write(key, obj) => WriteKeepsSerial(s, key, obj);
    case Return(key) => ReturnKeepsSerial(s, key);
    case _ =>
  }

  lemma MoveKeepsLag(s: State, m: Move)
    requires WellFormed(s) && LagIsBounded(s) && Can(s, m)
    ensures LagIsBounded(Take(s, m))
  {
    if !m.Wait? {
      var t := Take(s, m);
      forall i | 0 <= i < |t.commits| && t.commits[i].time + CACHE_DURATION <= t.now
        ensures VersionOf(t.commits[i].obj) <= Informed(t, t.commits[i].key)
      {
        assert t.commits[i] == s.commits[i];
        assert Informed(s, t.commits[i].key) <= Informed(t, t.commits[i].key);
      }
    }
  }

  /** What the purge drops is old enough to be in the informer. */
  lemma PurgedIsInformed(s: State, k: Key)
    requires Sound(s) && k in s.recent && k !in Purged(s.recent, s.now)
    ensures Overlaid(s, k) <= Informed(s, k)
  {
    var i :| 0 <= i < |s.commits| && s.commits[i].key == k && s.commits[i].obj == s.recent[k].obj &&
        s.commits[i].time <= s.recent[k].inserted;
  }

  lemma InformerGrows(s: State, m: Move, k: Key)
    requires WellFormed(s) && Can(s, m)
    ensures Informed(s, k) <= Informed(Take(s, m), k)
  {
  }

  lemma ReturnForgetsNothing(s: State, key: Key, k: Key)
    requires WellFormed(s) && Serial(s) && Can(s, Return(key))
    ensures Overlaid(s, k) <= Overlaid(Take(s, Return(key)), k)
  {
    assert s.inflight[key].HasKey(key);
  }

  lemma NothingIsForgotten(s: State, m: Move, k: Key)
    requires Sound(s) && Can(s, m)
    ensures Informed(s, k) <= Informed(Take(s, m), k)
    ensures Overlaid(s, k) <= Overlaid(Take(s, m), k) || Overlaid(s, k) <= Informed(Take(s, m), k)
  {
    InformerGrows(s, m, k);
    if m.Return? {
      ReturnForgetsNothing(s, m.key, k);
    } else if m.Purge? && k in s.recent && k !in Purged(s.recent, s.now) {
      PurgedIsInformed(s, k);
    }
  }

  lemma MoveRemembers(s: State, m: Move)
    requires Sound(s) && Can(s, m)
    ensures Remembers(Take(s, m))
  {
    var t := Take(s, m);
    forall i | 0 <= i < |t.log|
      ensures t.log[i].version <= Informed(t, t.log[i].key) || t.log[i].version <= Overlaid(t, t.log[i].key)
    {
      NothingIsForgotten(s, m, t.log[i].key);
      if i < |s.log| {
        assert t.log[i] == s.log[i];
      } else if m.Look? {
        GotIsNewest(s, m.key, m.out);
      }
    }
  }

  lemma MoveKeepsSound(s: State, m: Move)
    requires Sound(s) && Can(s, m)
    ensures Sound(Take(s, m))
  {
    MoveKeepsWellFormed(s, m);
    MoveKeepsBacked(s, m);
    MoveKeepsSerial(s, m);
    MoveKeepsLag(s, m);
    MoveRemembers(s, m);
  }

  lemma {:induction false} EveryRunIsSound(s: State, moves: seq<Move>, t: State)
    requires Sound(s) && Leads(s, moves, t)
    ensures Sound(t)
    decreases |moves|
  {
    if moves != [] {
      MoveKeepsSound(s, moves[0]);
      EveryRunIsSound(Take(s, moves[0]), moves[1..], t);
    }
  }

  /** Read your writes, and reads that never go back: in every reachable state, a Get of a key the informer knows or the
      output object names gives a version no older than any this client wrote or read before, and fails to find the
      object only if this client has seen none. */
  lemma GetNeverGoesBack(moves: seq<Move>, s: State, key: Key, out: Object, i: nat)
    requires Leads(START, moves, s) && Can(s, Look(key, out))
    requires i < |s.log| && s.log[i].key == key && s.log[i].version > 0
    ensures var reply := Got(s.recent, out, Ask(s.informer, key));
            reply.Read? && reply.obj.HasKey(key) && s.log[i].version <= VersionOf(reply.obj)
  {
    EveryRunIsSound(START, moves, s);
    GotIsNewest(s, key, out);
  }

  // ---------------------------------------------------------------- errors, and what is purged

  /** An error of the informer reaches the caller as it is; besides, only an object of an unknown kind is an error, and
      only what the informer does not find can be missing. */
  lemma ErrorsAre(recent: Recent, out: Object, answer: Answer)
    ensures answer.Failed? ==> Got(recent, out, answer) == Error(answer.error)
    ensures Got(recent, out, answer).Error? <==>
              answer.Failed? || (if answer.Found? then answer.obj else out).gvk == None
    ensures Got(recent, out, answer) == Missing <==>
              answer.NotFound? && out.gvk.Some? && forall k | k in recent :: !out.HasKey(k)
  {
    if answer.NotFound? && out.gvk.Some? {
      assert forall k: Key :: out.HasKey(k) <==> k == out.Id();
    }
  }

  /** A stored write is purged if and only if it is more than ten seconds old, and is kept as it is until then. */
  lemma PurgedIff(recent: Recent, now: real, k: Key)
    ensures Get(Purged(recent, now), k) ==
            if k in recent && now - recent[k].inserted <= 10.0 then Some(recent[k]) else None
  {
  }

  // ---------------------------------------------------------------- after a delete

  /** Once this client has deleted an object, the informer alone decides what Get says of it, however much newer the
      stored write was; what is stored of other objects counts as before. */
  lemma DeletedIsForgotten(recent: Recent, obj: Object, out: Object, answer: Answer)
    requires obj.gvk.Some? && out.gvk.Some?
    ensures var key := obj.Id();
            && (answer.NotFound? && out.HasKey(key) ==> Got(Unstored(recent, obj), out, answer) == Missing)
            && (answer.Found? && answer.obj.HasKey(key) ==> Got(Unstored(recent, obj), out, answer) == Read(answer.obj))
            && (answer.NotFound? && !out.HasKey(key) ==>
                 Got(Unstored(recent, obj), out, answer) == Got(recent, out, answer))
            && (answer.Found? && !answer.obj.HasKey(key) ==>
                 Got(Unstored(recent, obj), out, answer) == Got(recent, out, answer))
  {
  }

  // ---------------------------------------------------------------- the key that is looked up

  /** When the informer does not find the key, the overlay is asked for the key of the output object: the stored write
      is returned exactly when the caller had put the requested name and namespace there. */
  lemma NotFoundServesNamedKey(recent: Recent, key: Key, out: Object)
    requires forall k | k in recent :: recent[k].obj.HasKey(k)
    requires key in recent
    ensures Got(recent, out, NotFound) == Read(recent[key].obj) <==> out.HasKey(key)
    ensures out.gvk.Some? && !out.HasKey(key) && out.Id() in recent ==>
              Got(recent, out, NotFound) == Read(recent[out.Id()].obj)
    ensures out.gvk.Some? && out.Id() !in recent ==> Got(recent, out, NotFound) == Missing
  {
  }

  /** So a Get right after a write can miss it: the informer has not heard of the object and the output object is
      blank. */
  lemma BlankObjectMissesOwnWrite()
    ensures var kind := GVK("", "v1", "Secret");
            var written := Object(Some(kind), "ns", "a", "5", "data");
            var blank := Object(Some(kind), "", "", "", "");
            Got(Stored(map[], written, 0.0), blank, NotFound) == Missing
  {
  }
}
