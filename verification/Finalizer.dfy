/** Finalizer handlers of one object, interleaved in any way, against a server that refuses stale updates
    (pkg/router/finalizer.go:9-63). */
module Finalizer {
  import opened Base

  /** One version of the object; `deleting` tells whether it has a deletion timestamp. */
  datatype Object = Object(revision: nat, deleting: bool, finalizers: seq<string>, status: int)

  /** Where a run of Handle is: about to send its own ID, inside Next, about to send the status, about to send the
      shorter list. */
  datatype Pc = Idle | Adding(obj: Object) | Calling(obj: Object, newObj: Object)
    | Reporting(obj: Object, newObj: Object, delay: int) | Removing(obj: Object, newObj: Object)

  datatype Handler = Handler(id: string, pc: Pc)

  datatype Event =
    | Added(handler: nat, id: string)
    | Returned(handler: nat, failed: bool, delay: int)
    | Removed(handler: nat, id: string)

  /** All versions of the object, oldest first; `gone` when the server has removed it. */
  datatype State = State(versions: seq<Object>, gone: bool, handlers: seq<Handler>, log: seq<Event>) {
    ghost predicate Numbered() {
      |versions| > 0 && forall i | 0 <= i < |versions| :: versions[i].revision == i
    }

    function Current(): Object
      requires |versions| > 0
    {
      versions[|versions| - 1]
    }

    /** The server takes an update only of its latest version. */
    predicate Takes(obj: Object) {
      !gone && obj.revision == |versions| - 1
    }
  }

  datatype Step =
    | Start(version: nat)                                  // Handle begins with a cached object, however old
    | Add
    | NextReads(version: nat)                              // Next reads its copy again
    | NextWrites(status: int)                              // Next updates its copy, leaving the finalizers
    | NextReturns(failed: bool, delay: int, status: int)   // with this status in its copy
    | Report
    | Remove

  datatype Move =
    | Own(handler: nat, step: Step)
    | Bump(status: int)                                    // somebody else updates the object
    | Delete                                               // or deletes it

  predicate CanStep(s: State, pc: Pc, step: Step) {
    match step
    case Start(version) => pc == Idle && version < |s.versions|
    case Add => pc.Adding?
    case NextReads(version) => pc.Calling? && version < |s.versions|
    case NextWrites(_) => pc.Calling?
    case NextReturns(_, _, _) => pc.Calling?
    case Report => pc.Reporting?
    case Remove => pc.Removing?
  }

  predicate Can(s: State, m: Move) {
    |s.versions| > 0 &&
    match m
    case Bump(_) => !s.gone
    case Delete => !s.gone && !s.Current().deleting
    case Own(h, step) => h < |s.handlers| && CanStep(s, s.handlers[h].pc, step)
  }

  /** What Handle does first with the object it got. */
  function Begun(id: string, obj: Object): Pc {
    if !obj.deleting then
      if id in obj.finalizers then Idle else Adding(obj.(finalizers := obj.finalizers + [id]))
    else if |obj.finalizers| == 0 || obj.finalizers[0] != id then Idle
    else Calling(obj, obj)
  }

  /** What Handle does once Next has returned and the status is saved. */
  function Concluded(id: string, obj: Object, newObj: Object, delay: int): Pc {
    if delay == 0 && |newObj.finalizers| > 0 && newObj.finalizers[0] == id && |obj.finalizers| > 0
    then Removing(obj, newObj.(finalizers := obj.finalizers[1..]))
    else Idle
  }

  function ToPc(s: State, h: nat, pc: Pc): State
    requires h < |s.handlers|
  {
    s.(handlers := s.handlers[h := s.handlers[h].(pc := pc)])
  }

  /** No other handler is moved. */
  predicate LeavesOthers(s: State, h: nat, t: State) {
    && |t.handlers| == |s.handlers| && |t.versions| >= |s.versions|
    && forall g | 0 <= g < |s.handlers| && g != h :: t.handlers[g] == s.handlers[g]
  }

  /** A new version; a deleted object without finalizers is removed. */
  function Written(s: State, finalizers: seq<string>, deleting: bool, status: int): State {
    s.(versions := s.versions + [Object(|s.versions|, deleting, finalizers, status)],
       gone := deleting && finalizers == [])
  }

  function Logged(s: State, e: Event): State {
    s.(log := s.log + [e])
  }

  /** The update with the own ID appended. */
  function AfterAdd(s: State, h: nat): (t: State)
    requires |s.versions| > 0 && h < |s.handlers| && s.handlers[h].pc.Adding?
    ensures LeavesOthers(s, h, t)
  {
    var obj, cur := s.handlers[h].pc.obj, s.Current();
    if !s.Takes(obj) then ToPc(s, h, Idle)
    else Logged(ToPc(Written(s, obj.finalizers, cur.deleting, cur.status), h, Idle), Added(h, s.handlers[h].id))
  }

  /** An update of the copy inside Next. */
  function AfterWrite(s: State, h: nat, status: int): (t: State)
    requires |s.versions| > 0 && h < |s.handlers| && s.handlers[h].pc.Calling?
    ensures LeavesOthers(s, h, t)
  {
    var pc, cur := s.handlers[h].pc, s.Current();
    if !s.Takes(pc.newObj) then s
    else
      var u := Written(s, cur.finalizers, cur.deleting, status);
      ToPc(u, h, Calling(pc.obj, u.Current()))
  }

  /** Where a handler is when Next has returned. */
  function Returning(id: string, obj: Object, newObj: Object, failed: bool, delay: int): Pc {
    if failed then Idle
    else if newObj.status != obj.status then Reporting(obj, newObj, delay)
    else Concluded(id, obj, newObj, delay)
  }

  function AfterReturn(s: State, h: nat, failed: bool, delay: int, status: int): (t: State)
    requires h < |s.handlers| && s.handlers[h].pc.Calling?
    ensures LeavesOthers(s, h, t)
  {
    var id, pc := s.handlers[h].id, s.handlers[h].pc;
    ToPc(Logged(s, Returned(h, failed, delay)), h, Returning(id, pc.obj, pc.newObj.(status := status), failed, delay))
  }

  /** The status update. */
  function AfterReport(s: State, h: nat): (t: State)
    requires |s.versions| > 0 && h < |s.handlers| && s.handlers[h].pc.Reporting?
    ensures LeavesOthers(s, h, t)
  {
    var id, pc, cur := s.handlers[h].id, s.handlers[h].pc, s.Current();
    if !s.Takes(pc.newObj) then ToPc(s, h, Idle)
    else
      var u := Written(s, cur.finalizers, cur.deleting, pc.newObj.status);
      ToPc(u, h, Concluded(id, pc.obj, u.Current(), pc.delay))
  }

  /** The update with the shorter list. */
  function AfterRemove(s: State, h: nat): (t: State)
    requires |s.versions| > 0 && h < |s.handlers| && s.handlers[h].pc.Removing?
    ensures LeavesOthers(s, h, t)
  {
    var obj, cur := s.handlers[h].pc.newObj, s.Current();
    if !s.Takes(obj) then ToPc(s, h, Idle)
    else Logged(ToPc(Written(s, obj.finalizers, cur.deleting, cur.status), h, Idle), Removed(h, s.handlers[h].id))
  }

  function Stepped(s: State, h: nat, step: Step): (t: State)
    requires |s.versions| > 0 && h < |s.handlers| && CanStep(s, s.handlers[h].pc, step)
    ensures LeavesOthers(s, h, t)
  {
    match step
    case Start(version) => ToPc(s, h, Begun(s.handlers[h].id, s.versions[version]))
    case Add => AfterAdd(s, h)
    case NextReads(version) => ToPc(s, h, Calling(s.handlers[h].pc.obj, s.versions[version]))
    case NextWrites(status) => AfterWrite(s, h, status)
    case NextReturns(failed, delay, status) => AfterReturn(s, h, failed, delay, status)
    case Report => AfterReport(s, h)
    case Remove => AfterRemove(s, h)
  }

  function Take(s: State, m: Move): State
    requires Can(s, m)
  {
    var cur := s.Current();
    match m
    case Bump(status) => Written(s, cur.finalizers, cur.deleting, status)
    case Delete => Written(s, cur.finalizers, true, cur.status)
    case Own(h, step) => Stepped(s, h, step)
  }

  predicate Leads(s: State, moves: seq<Move>, t: State)
    decreases |moves|
  {
    if moves == [] then t == s else Can(s, moves[0]) && Leads(Take(s, moves[0]), moves[1..], t)
  }

  /** An object as the handlers first meet it. */
  predicate Initial(s: State) {
    && |s.versions| == 1 && s.versions[0].revision == 0 && !s.versions[0].deleting && Distinct(s.versions[0].finalizers)
    && !s.gone && s.log == [] && forall h | 0 <= h < |s.handlers| :: s.handlers[h].pc == Idle
  }

  predicate Distinct(ids: seq<string>) {
    forall i, j | 0 <= i < j < |ids| :: ids[i] != ids[j]
  }

  // ---------------------------------------------------------------- what every run keeps

  function AddedIds(log: seq<Event>): seq<string> {
    if log == [] then []
    else AddedIds(log[..|log| - 1]) + if log[|log| - 1].Added? then [log[|log| - 1].id] else []
  }

  function RemovedIds(log: seq<Event>): seq<string> {
    if log == [] then []
    else RemovedIds(log[..|log| - 1]) + if log[|log| - 1].Removed? then [log[|log| - 1].id] else []
  }

  /** From one version to the next: a deletion stays; before it the list can only grow at its end, after it only shrink
      at its front. */
  predicate Follows(a: Object, b: Object) {
    && (a.deleting ==> b.deleting)
    && (b.finalizers == a.finalizers || (a.deleting && a.finalizers != [] && b.finalizers == a.finalizers[1..]) ||
        (!b.deleting && a.finalizers <= b.finalizers))
  }

  ghost predicate Chained(versions: seq<Object>) {
    && (forall i | 0 <= i < |versions| :: Distinct(versions[i].finalizers))
    && (forall i | 0 < i < |versions| :: Follows(versions[i - 1], versions[i]))
  }

  predicate IsVersion(versions: seq<Object>, obj: Object) {
    obj.revision < |versions| && obj == versions[obj.revision]
  }

  /** Next can have changed the status of its copy, but nothing else. */
  predicate IsVersionButStatus(versions: seq<Object>, obj: Object) {
    obj.revision < |versions| && obj.(status := 0) == versions[obj.revision].(status := 0)
  }

  predicate Doomed(versions: seq<Object>, obj: Object, id: string) {
    IsVersion(versions, obj) && obj.deleting && obj.finalizers != [] && obj.finalizers[0] == id
  }

  /** What a handler on its way has in hand. */
  predicate InHand(versions: seq<Object>, id: string, pc: Pc) {
    match pc
    case Idle => true
    case Adding(obj) =>
      && obj.revision < |versions| && !versions[obj.revision].deleting && id !in versions[obj.revision].finalizers
      && obj.finalizers == versions[obj.revision].finalizers + [id]
    case Calling(obj, newObj) => Doomed(versions, obj, id) && IsVersionButStatus(versions, newObj)
    case Reporting(obj, newObj, _) => Doomed(versions, obj, id) && IsVersionButStatus(versions, newObj)
    case Removing(obj, newObj) =>
      && Doomed(versions, obj, id) && newObj.finalizers == obj.finalizers[1..] && newObj.revision < |versions|
      && versions[newObj.revision].finalizers != [] && versions[newObj.revision].finalizers[0] == id
  }

  /** The last thing this handler's run did was to come back from Next with neither an error nor a delay. */
  ghost predicate Cleared(log: seq<Event>, h: nat) {
    exists j :: 0 <= j < |log| && log[j] == Returned(h, false, 0) && forall k | j < k < |log| :: log[k].handler != h
  }

  predicate Concluding(pc: Pc) {
    pc.Removing? || (pc.Reporting? && pc.delay == 0)
  }

  /** Every ID ever on the list is still on it, or was removed: in the order of the list, and each once. */
  ghost predicate Conserved(s: State) {
    |s.versions| > 0 &&
    var all := s.versions[0].finalizers + AddedIds(s.log);
    && all == RemovedIds(s.log) + s.Current().finalizers
    && Distinct(all)
    && (!s.Current().deleting ==> RemovedIds(s.log) == [])
  }

  ghost predicate Orderly(s: State) {
    && (forall h | 0 <= h < |s.handlers| && Concluding(s.handlers[h].pc) :: Cleared(s.log, h))
    && (forall i | 0 <= i < |s.log| && s.log[i].Removed? :: Cleared(s.log[..i], s.log[i].handler))
  }

  ghost predicate Shaped(s: State) {
    && s.Numbered() && Chained(s.versions)
    && (forall h | 0 <= h < |s.handlers| :: InHand(s.versions, s.handlers[h].id, s.handlers[h].pc))
  }

  ghost predicate Sound(s: State) {
    Shaped(s) && Conserved(s) && Orderly(s)
  }

  /** Once deletion has begun, every later list is the end of every earlier one. */
  lemma {:induction false} ListsShrink(versions: seq<Object>, i: nat, j: nat) returns (k: nat)
    requires Chained(versions) && i <= j < |versions| && versions[i].deleting
    ensures versions[j].deleting
    ensures k <= |versions[i].finalizers| && versions[j].finalizers == versions[i].finalizers[k..]
  {
    k := 0;
    if i < j {
      k := ListsShrink(versions, i, j - 1);
      assert Follows(versions[j - 1], versions[j]);
      if versions[j].finalizers != versions[j - 1].finalizers {
        k := k + 1;
      }
    }
  }

  /** A handler that is first on a deleted object's list and first on the current one has the current list in hand. */
  lemma FrontIsCurrent(versions: seq<Object>, obj: Object, id: string)
    requires Chained(versions) && Doomed(versions, obj, id)
    requires versions[|versions| - 1].finalizers != [] && versions[|versions| - 1].finalizers[0] == id
    ensures versions[|versions| - 1].deleting && versions[|versions| - 1].finalizers == obj.finalizers
  {
    var k := ListsShrink(versions, obj.revision, |versions| - 1);
    assert obj.finalizers[k] == id;
  }

  lemma ChainGrows(versions: seq<Object>, obj: Object)
    requires Chained(versions) && |versions| > 0 && Distinct(obj.finalizers) && Follows(versions[|versions| - 1], obj)
    ensures Chained(versions + [obj])
  {
    var grown := versions + [obj];
    forall i | 0 < i < |grown| ensures Follows(grown[i - 1], grown[i]) {
      assert i < |versions| ==> Follows(versions[i - 1], versions[i]);
    }
  }

  lemma WrittenKeepsShape(s: State, finalizers: seq<string>, deleting: bool, status: int)
    requires Shaped(s) && Distinct(finalizers)
    requires Follows(s.Current(), Object(|s.versions|, deleting, finalizers, status))
    ensures Shaped(Written(s, finalizers, deleting, status))
  {
    ChainGrows(s.versions, Object(|s.versions|, deleting, finalizers, status));
    var t := Written(s, finalizers, deleting, status);
    forall h | 0 <= h < |t.handlers| ensures InHand(t.versions, t.handlers[h].id, t.handlers[h].pc) {
      assert InHand(s.versions, s.handlers[h].id, s.handlers[h].pc);
    }
  }

  lemma IdsGrow(log: seq<Event>, e: Event)
    ensures AddedIds(log + [e]) == AddedIds(log) + if e.Added? then [e.id] else []
    ensures RemovedIds(log + [e]) == RemovedIds(log) + if e.Removed? then [e.id] else []
  {
    assert (log + [e])[..|log|] == log;
  }

  lemma LogGrows(log: seq<Event>, e: Event)
    ensures forall h | Cleared(log, h) && e.handler != h :: Cleared(log + [e], h)
    ensures e.Returned? && !e.failed && e.delay == 0 ==> Cleared(log + [e], e.handler)
    ensures forall i | 0 <= i <= |log| :: (log + [e])[..i] == log[..i]
  {
    var grown := log + [e];
    forall h | Cleared(log, h) && e.handler != h ensures Cleared(grown, h) {
      var j :| 0 <= j < |log| && log[j] == Returned(h, false, 0) && forall k | j < k < |log| :: log[k].handler != h;
      assert grown[j] == Returned(h, false, 0);
    }
    assert grown[|log|] == e;
  }

  // ---------------------------------------------------------------- the pieces of a step

  /** A handler goes on without touching the object. */
  lemma ToPcKeepsSound(s: State, h: nat, pc: Pc)
    requires Sound(s) && h < |s.handlers| && InHand(s.versions, s.handlers[h].id, pc)
    requires Concluding(pc) ==> Cleared(s.log, h)
    ensures Sound(ToPc(s, h, pc))
  {
  }

  /** A new version with the same list. */
  lemma SameListKeepsSound(s: State, deleting: bool, status: int)
    requires Sound(s) && (s.Current().deleting ==> deleting)
    ensures Sound(Written(s, s.Current().finalizers, deleting, status))
  {
    WrittenKeepsShape(s, s.Current().finalizers, deleting, status);
    assert Written(s, s.Current().finalizers, deleting, status).versions[0] == s.versions[0];
  }

  lemma LoggedKeepsOrder(s: State, e: Event)
    requires Orderly(s) && e.handler < |s.handlers| && !Concluding(s.handlers[e.handler].pc)
    requires e.Removed? ==> Cleared(s.log, e.handler)
    ensures Orderly(Logged(s, e))
  {
    LogGrows(s.log, e);
    assert s.log[..|s.log|] == s.log;
  }

  /** Next returns. */
  lemma ReturnedKeepsSound(s: State, e: Event)
    requires Sound(s) && e.Returned? && e.handler < |s.handlers| && !Concluding(s.handlers[e.handler].pc)
    ensures Sound(Logged(s, e)) && (!e.failed && e.delay == 0 ==> Cleared(Logged(s, e).log, e.handler))
  {
    IdsGrow(s.log, e);
    assert AddedIds(Logged(s, e).log) == AddedIds(s.log) && RemovedIds(Logged(s, e).log) == RemovedIds(s.log);
    LogGrows(s.log, e);
    LoggedKeepsOrder(s, e);
  }

  lemma DistinctGrows(ids: seq<string>, id: string)
    requires Distinct(ids) && id !in ids
    ensures Distinct(ids + [id])
  {
  }

  /** What an accepted update with the own ID finds and leaves. */
  lemma AddFacts(s: State, h: nat)
    requires Shaped(s) && Can(s, Own(h, Add)) && s.Takes(s.handlers[h].pc.obj)
    ensures !s.Current().deleting && s.handlers[h].id !in s.Current().finalizers
    ensures s.handlers[h].pc.obj.finalizers == s.Current().finalizers + [s.handlers[h].id]
  {
    assert InHand(s.versions, s.handlers[h].id, s.handlers[h].pc);
  }

  lemma AddConserves(s: State, h: nat)
    requires Sound(s) && Can(s, Own(h, Add)) && s.Takes(s.handlers[h].pc.obj)
    ensures Conserved(AfterAdd(s, h))
  {
    var id, first, added, t := s.handlers[h].id, s.versions[0].finalizers, AddedIds(s.log), AfterAdd(s, h);
    AddFacts(s, h);
    assert t.log == s.log + [Added(h, id)] && t.versions[0] == s.versions[0];
    IdsGrow(s.log, Added(h, id));
    assert AddedIds(t.log) == added + [id] && RemovedIds(t.log) == RemovedIds(s.log) == [];
    assert first + added == s.Current().finalizers;
    DistinctGrows(first + added, id);
    assert first + (added + [id]) == first + added + [id];
  }

  lemma AddKeepsShape(s: State, h: nat)
    requires Shaped(s) && Can(s, Own(h, Add)) && s.Takes(s.handlers[h].pc.obj)
    ensures Shaped(AfterAdd(s, h))
  {
    var obj, cur := s.handlers[h].pc.obj, s.Current();
    AddFacts(s, h);
    DistinctGrows(cur.finalizers, s.handlers[h].id);
    WrittenKeepsShape(s, obj.finalizers, cur.deleting, cur.status);
    assert Shaped(ToPc(Written(s, obj.finalizers, cur.deleting, cur.status), h, Idle));
  }

  lemma AddKeepsSound(s: State, h: nat)
    requires Sound(s) && Can(s, Own(h, Add)) && s.Takes(s.handlers[h].pc.obj)
    ensures Sound(AfterAdd(s, h))
  {
    var obj, cur := s.handlers[h].pc.obj, s.Current();
    AddKeepsShape(s, h);
    AddConserves(s, h);
    LoggedKeepsOrder(ToPc(Written(s, obj.finalizers, cur.deleting, cur.status), h, Idle), Added(h, s.handlers[h].id));
  }

  /** What an accepted update with the shorter list finds and leaves. */
  lemma RemoveFacts(s: State, h: nat)
    requires Shaped(s) && Can(s, Own(h, Remove)) && s.Takes(s.handlers[h].pc.newObj)
    ensures s.Current().deleting && s.Current().finalizers == [s.handlers[h].id] + s.handlers[h].pc.newObj.finalizers
  {
    var pc, id := s.handlers[h].pc, s.handlers[h].id;
    assert InHand(s.versions, id, pc);
    FrontIsCurrent(s.versions, pc.obj, id);
  }

  lemma RemoveConserves(s: State, h: nat)
    requires Sound(s) && Can(s, Own(h, Remove)) && s.Takes(s.handlers[h].pc.newObj)
    ensures Conserved(AfterRemove(s, h))
  {
    var id, left, t := s.handlers[h].id, s.handlers[h].pc.newObj.finalizers, AfterRemove(s, h);
    RemoveFacts(s, h);
    assert t.log == s.log + [Removed(h, id)] && t.versions[0] == s.versions[0];
    IdsGrow(s.log, Removed(h, id));
    assert RemovedIds(s.log) + ([id] + left) == RemovedIds(s.log) + [id] + left;
  }

  lemma RemoveKeepsShape(s: State, h: nat)
    requires Shaped(s) && Can(s, Own(h, Remove)) && s.Takes(s.handlers[h].pc.newObj)
    ensures Shaped(AfterRemove(s, h))
  {
    var obj, cur := s.handlers[h].pc.newObj, s.Current();
    RemoveFacts(s, h);
    assert obj.finalizers == cur.finalizers[1..];
    WrittenKeepsShape(s, obj.finalizers, cur.deleting, cur.status);
    assert Shaped(ToPc(Written(s, obj.finalizers, cur.deleting, cur.status), h, Idle));
  }

  lemma RemoveKeepsSound(s: State, h: nat)
    requires Sound(s) && Can(s, Own(h, Remove)) && s.Takes(s.handlers[h].pc.newObj)
    ensures Sound(AfterRemove(s, h))
  {
    var obj, cur := s.handlers[h].pc.newObj, s.Current();
    RemoveKeepsShape(s, h);
    RemoveConserves(s, h);
    RemovedKeepsOrder(s, h, ToPc(Written(s, obj.finalizers, cur.deleting, cur.status), h, Idle));
  }

  lemma RemovedKeepsOrder(s: State, h: nat, t: State)
    requires Orderly(s) && h < |s.handlers| && s.handlers[h].pc.Removing?
    requires t.log == s.log && t.handlers == s.handlers[h := s.handlers[h].(pc := Idle)]
    ensures Orderly(Logged(t, Removed(h, s.handlers[h].id)))
  {
    assert Cleared(s.log, h);
    assert Orderly(t);
    LoggedKeepsOrder(t, Removed(h, s.handlers[h].id));
  }

  // ---------------------------------------------------------------- the steps

  lemma WriteKeepsSound(s: State, h: nat, status: int)
    requires Sound(s) && Can(s, Own(h, NextWrites(status)))
    ensures Sound(AfterWrite(s, h, status))
  {
    var pc, cur := s.handlers[h].pc, s.Current();
    assert InHand(s.versions, s.handlers[h].id, pc);
    if s.Takes(pc.newObj) {
      var t := Written(s, cur.finalizers, cur.deleting, status);
      SameListKeepsSound(s, cur.deleting, status);
      assert t.versions[pc.obj.revision] == pc.obj;
      ToPcKeepsSound(t, h, Calling(pc.obj, t.Current()));
    }
  }

  lemma ConcludedInHand(versions: seq<Object>, id: string, obj: Object, newObj: Object, delay: int)
    requires Doomed(versions, obj, id) && IsVersionButStatus(versions, newObj)
    ensures InHand(versions, id, Concluded(id, obj, newObj, delay))
    ensures Concluding(Concluded(id, obj, newObj, delay)) ==> delay == 0
  {
  }

  lemma ReturningInHand(versions: seq<Object>, id: string, pc: Pc, failed: bool, delay: int, status: int)
    requires pc.Calling? && InHand(versions, id, pc)
    ensures var next := Returning(id, pc.obj, pc.newObj.(status := status), failed, delay);
            InHand(versions, id, next) && (Concluding(next) ==> !failed && delay == 0)
  {
    ConcludedInHand(versions, id, pc.obj, pc.newObj.(status := status), delay);
  }

  lemma ReturnKeepsSound(s: State, h: nat, failed: bool, delay: int, status: int)
    requires Sound(s) && Can(s, Own(h, NextReturns(failed, delay, status)))
    ensures Sound(AfterReturn(s, h, failed, delay, status))
  {
    var id, pc := s.handlers[h].id, s.handlers[h].pc;
    ReturnedKeepsSound(s, Returned(h, failed, delay));
    ReturningInHand(s.versions, id, pc, failed, delay, status);
    ToPcKeepsSound(Logged(s, Returned(h, failed, delay)), h,
        Returning(id, pc.obj, pc.newObj.(status := status), failed, delay));
  }

  lemma ReportKeepsSound(s: State, h: nat)
    requires Sound(s) && Can(s, Own(h, Report))
    ensures Sound(AfterReport(s, h))
  {
    var id, pc, cur := s.handlers[h].id, s.handlers[h].pc, s.Current();
    assert InHand(s.versions, id, pc);
    if s.Takes(pc.newObj) {
      var t := Written(s, cur.finalizers, cur.deleting, pc.newObj.status);
      SameListKeepsSound(s, cur.deleting, pc.newObj.status);
      assert t.versions[pc.obj.revision] == pc.obj;
      ConcludedInHand(t.versions, id, pc.obj, t.Current(), pc.delay);
      ToPcKeepsSound(t, h, Concluded(id, pc.obj, t.Current(), pc.delay));
    } else {
      ToPcKeepsSound(s, h, Idle);
    }
  }

  lemma StartKeepsSound(s: State, h: nat, version: nat)
    requires Sound(s) && Can(s, Own(h, Start(version)))
    ensures Sound(Stepped(s, h, Start(version)))
  {
    ToPcKeepsSound(s, h, Begun(s.handlers[h].id, s.versions[version]));
  }

  lemma ReadKeepsSound(s: State, h: nat, version: nat)
    requires Sound(s) && Can(s, Own(h, NextReads(version)))
    ensures Sound(Stepped(s, h, NextReads(version)))
  {
    assert InHand(s.versions, s.handlers[h].id, s.handlers[h].pc);
    ToPcKeepsSound(s, h, Calling(s.handlers[h].pc.obj, s.versions[version]));
  }

  lemma StepKeepsSound(s: State, h: nat, step: Step)
    requires Sound(s) && Can(s, Own(h, step))
    ensures Sound(Stepped(s, h, step))
  {
    match step
    case Start(version) => StartKeepsSound(s, h, version);
    case Add => if s.Takes(s.handlers[h].pc.obj) { AddKeepsSound(s, h); } else { ToPcKeepsSound(s, h, Idle); }
    case NextReads(version) => ReadKeepsSound(s, h, version);
    case NextWrites(status) => WriteKeepsSound(s, h, status);
    case NextReturns(failed, delay, status) => ReturnKeepsSound(s, h, failed, delay, status);
    case Report => ReportKeepsSound(s, h);
    case Remove => if s.Takes(s.handlers[h].pc.newObj) { RemoveKeepsSound(s, h); } else { ToPcKeepsSound(s, h, Idle); }
  }

  lemma FirstStays(s: State, m: Move)
    requires Can(s, m)
    ensures |Take(s, m).versions| > 0 && Take(s, m).versions[0] == s.versions[0]
  {
  }

  lemma MoveKeepsSound(s: State, m: Move)
    requires Sound(s) && Can(s, m)
    ensures Sound(Take(s, m))
  {
    match m
    case Bump(status) => SameListKeepsSound(s, s.Current().deleting, status);
    case Delete => SameListKeepsSound(s, true, s.Current().status);
    case Own(h, step) => StepKeepsSound(s, h, step);
  }

  lemma {:induction false} EveryRunIsSound(s: State, moves: seq<Move>, t: State)
    requires Sound(s) && Leads(s, moves, t)
    ensures Sound(t) && t.versions[0] == s.versions[0]
    decreases |moves|
  {
    if moves != [] {
      MoveKeepsSound(s, moves[0]);
      FirstStays(s, moves[0]);
      EveryRunIsSound(Take(s, moves[0]), moves[1..], t);
    }
  }

  lemma InitialIsSound(s: State)
    requires Initial(s)
    ensures Sound(s)
  {
  }

  // ---------------------------------------------------------------- the protocol

  /** Over any interleaving: the IDs first on the object and those added since are those removed, in order, followed by
      those still on it. No ID comes twice, so none is added twice, and before deletion none is removed. */
  lemma FinalizersAreConserved(s: State, moves: seq<Move>, t: State)
    requires Initial(s) && Leads(s, moves, t)
    ensures |t.versions| > 0
    ensures s.versions[0].finalizers + AddedIds(t.log) == RemovedIds(t.log) + t.Current().finalizers
    ensures Distinct(s.versions[0].finalizers + AddedIds(t.log))
    ensures !t.Current().deleting ==> RemovedIds(t.log) == []
  {
    InitialIsSound(s);
    EveryRunIsSound(s, moves, t);
  }

  /** Every other step leaves the list as it is. */
  lemma ListStays(s: State, m: Move)
    requires Can(s, m)
    requires m.Own? && m.step == Add ==> !s.Takes(s.handlers[m.handler].pc.obj)
    requires m.Own? && m.step == Remove ==> !s.Takes(s.handlers[m.handler].pc.newObj)
    ensures |Take(s, m).versions| > 0 && Take(s, m).Current().finalizers == s.Current().finalizers
    ensures s.Current().deleting ==> Take(s, m).Current().deleting
  {
  }

  /** An ID leaves only as the first of a deleted object's list, by a handler of that ID whose Next has just returned
      neither an error nor a delay. An ID comes only at the end of a list that lacks it, on an object that is not
      deleted. */
  lemma ListChangesInOrder(s: State, moves: seq<Move>, t: State, m: Move)
    requires Initial(s) && Leads(s, moves, t) && Can(t, m)
    ensures |t.versions| > 0 && |Take(t, m).versions| > 0
    ensures var was, now := t.Current(), Take(t, m).Current();
            was.finalizers != now.finalizers ==>
              && m.Own?
              && var id := t.handlers[m.handler].id;
              || (m.step == Remove && was.deleting && was.finalizers == [id] + now.finalizers &&
                   Cleared(t.log, m.handler))
              || (m.step == Add && !was.deleting && id !in was.finalizers && now.finalizers == was.finalizers + [id])
  {
    InitialIsSound(s);
    EveryRunIsSound(s, moves, t);
    if m.Own? && m.step == Add && t.Takes(t.handlers[m.handler].pc.obj) {
      AddFacts(t, m.handler);
    } else if m.Own? && m.step == Remove && t.Takes(t.handlers[m.handler].pc.newObj) {
      RemoveFacts(t, m.handler);
    } else {
      ListStays(t, m);
    }
  }

  /** The list at the time of deletion is what has been removed since, followed by what is left. */
  lemma RemovedIsPrefix(s: State, before: seq<Move>, t: State, after: seq<Move>, u: State)
    requires Initial(s) && Leads(s, before, t) && Can(t, Delete) && Leads(Take(t, Delete), after, u)
    ensures |t.versions| > 0 && |u.versions| > 0
    ensures t.Current().finalizers == RemovedIds(u.log) + u.Current().finalizers
  {
    InitialIsSound(s);
    EveryRunIsSound(s, before, t);
    var d := Take(t, Delete);
    MoveKeepsSound(t, Delete);
    EveryRunIsSound(d, after, u);
    NoneAdded(d, after, u);
  }

  lemma StepAddsNone(s: State, h: nat, step: Step)
    requires Shaped(s) && s.Current().deleting && Can(s, Own(h, step))
    ensures AddedIds(Stepped(s, h, step).log) == AddedIds(s.log)
  {
    match step
    case Add => if s.Takes(s.handlers[h].pc.obj) { AddFacts(s, h); }
    case NextReturns(failed, delay, _) => IdsGrow(s.log, Returned(h, failed, delay));
    case Remove => IdsGrow(s.log, Removed(h, s.handlers[h].id));
    case _ =>
  }

  lemma StaysDeleting(s: State, m: Move)
    requires Shaped(s) && s.Current().deleting && Can(s, m)
    ensures |Take(s, m).versions| > 0 && Take(s, m).Current().deleting
  {
  }

  lemma {:induction false} NoneAdded(s: State, moves: seq<Move>, t: State)
    requires Sound(s) && s.Current().deleting && Leads(s, moves, t)
    ensures AddedIds(t.log) == AddedIds(s.log)
    decreases |moves|
  {
    if moves != [] {
      MoveKeepsSound(s, moves[0]);
      StaysDeleting(s, moves[0]);
      if moves[0].Own? {
        StepAddsNone(s, moves[0].handler, moves[0].step);
      }
      NoneAdded(Take(s, moves[0]), moves[1..], t);
    }
  }

  lemma OthersLeaveIt(s: State, m: Move, h: nat)
    requires Can(s, m) && h < |s.handlers| && (m.Own? ==> m.handler != h)
    ensures |Take(s, m).handlers| == |s.handlers| && Take(s, m).handlers[h] == s.handlers[h]
    ensures |Take(s, m).versions| >= |s.versions|
  {
  }
}
