/** That finalizers do leave: what a run of Handle brings about, interleaved with others or left alone
    (pkg/router/finalizer.go:14-63). */
module Release {
  import opened Base
  import opened Finalizer

  // ---------------------------------------------------------------- what must happen

  /** The copy of the object that a handler works on. */
  function Copy(pc: Pc): Option<Object> {
    match pc
    case Idle => None
    case Adding(obj) => Some(obj)
    case Calling(_, newObj) => Some(newObj)
    case Reporting(_, newObj, _) => Some(newObj)
    case Removing(_, newObj) => Some(newObj)
  }

  /** The copy is not the latest version of an object that is still there. */
  predicate OutOfDate(s: State, h: nat)
    requires h < |s.handlers|
  {
    Copy(s.handlers[h].pc).Some? &&
    (s.gone || Copy(s.handlers[h].pc).value.revision != |s.versions| - 1)
  }

  /** What makes Handle return an error: Next fails, or the server refuses an update. */
  predicate Fails(s: State, m: Move, h: nat) {
    && m.Own? && m.handler == h && h < |s.handlers|
    && ((m.step.NextReturns? && m.step.failed) ||
        ((m.step.Add? || m.step.Report? || m.step.Remove?) && OutOfDate(s, h)))
  }

  predicate FailsIn(s: State, moves: seq<Move>, h: nat)
    decreases |moves|
  {
    moves != [] && Can(s, moves[0]) && (Fails(s, moves[0], h) || FailsIn(Take(s, moves[0]), moves[1..], h))
  }

  /** Next returns, and its copy is out of date. */
  predicate Misled(s: State, m: Move, h: nat) {
    m.Own? && m.handler == h && h < |s.handlers| && m.step.NextReturns? && OutOfDate(s, h)
  }

  predicate MisledIn(s: State, moves: seq<Move>, h: nat)
    decreases |moves|
  {
    moves != [] && Can(s, moves[0]) && (Misled(s, moves[0], h) || MisledIn(Take(s, moves[0]), moves[1..], h))
  }

  predicate NoStart(h: nat, moves: seq<Move>) {
    forall i | 0 <= i < |moves| :: moves[i].Own? && moves[i].handler == h ==> !moves[i].step.Start?
  }

  /** Next comes back with neither an error nor a delay. */
  predicate Clean(h: nat, moves: seq<Move>) {
    exists i | 0 <= i < |moves| :: IsClean(moves[i], h)
  }

  predicate IsClean(m: Move, h: nat) {
    m.Own? && m.handler == h && m.step.NextReturns? && !m.step.failed && m.step.delay == 0
  }

  lemma RestIs(h: nat, moves: seq<Move>)
    requires moves != []
    ensures NoStart(h, moves) ==> NoStart(h, moves[1..])
    ensures Clean(h, moves) <==> IsClean(moves[0], h) || Clean(h, moves[1..])
  {
    if Clean(h, moves) && !IsClean(moves[0], h) {
      var i :| 0 <= i < |moves| && IsClean(moves[i], h);
      assert moves[1..][i - 1] == moves[i];
    }
    if Clean(h, moves[1..]) {
      var i :| 0 <= i < |moves| - 1 && IsClean(moves[1..][i], h);
      assert moves[i + 1] == moves[1..][i];
    }
  }

  /** The object is deleted and the ID no longer on it. */
  predicate Released(s: State, id: string) {
    |s.versions| > 0 && s.Current().deleting && id !in s.Current().finalizers
  }

  /** Once first on a deleted object's list, an ID that is not first any more is gone for good. */
  lemma NotFirstIsReleased(versions: seq<Object>, obj: Object, id: string)
    requires Chained(versions) && Doomed(versions, obj, id)
    requires versions[|versions| - 1].finalizers == [] || versions[|versions| - 1].finalizers[0] != id
    ensures versions[|versions| - 1].deleting && id !in versions[|versions| - 1].finalizers
  {
    var k := ListsShrink(versions, obj.revision, |versions| - 1);
    assert Distinct(versions[obj.revision].finalizers);
  }

  lemma ReleasedStays(s: State, m: Move, id: string)
    requires Shaped(s) && Can(s, m) && Released(s, id)
    ensures Released(Take(s, m), id)
  {
    if m.Own? && m.step == Add && s.Takes(s.handlers[m.handler].pc.obj) {
      AddFacts(s, m.handler);
    } else if m.Own? && m.step == Remove && s.Takes(s.handlers[m.handler].pc.newObj) {
      RemoveFacts(s, m.handler);
    } else {
      ListStays(s, m);
    }
  }

  /** After a clean return: about to save the status or to remove the ID, or nothing is left to do. */
  predicate Ending(s: State, h: nat) {
    h < |s.handlers| &&
    match s.handlers[h].pc
    case Reporting(_, _, delay) => delay == 0
    case Removing(_, _) => true
    case Idle => Released(s, s.handlers[h].id)
    case _ => false
  }

  /** A copy that is up to date leads on to the removal, unless the ID is gone. */
  lemma ConcludedIsEnding(s: State, h: nat, obj: Object, newObj: Object)
    requires Shaped(s) && h < |s.handlers| && Doomed(s.versions, obj, s.handlers[h].id)
    requires newObj.finalizers == s.Current().finalizers
    ensures Ending(ToPc(s, h, Concluded(s.handlers[h].id, obj, newObj, 0)), h)
  {
    var id := s.handlers[h].id;
    if s.Current().finalizers == [] || s.Current().finalizers[0] != id {
      NotFirstIsReleased(s.versions, obj, id);
    }
  }

  lemma ReportIsEnding(s: State, h: nat)
    requires Sound(s) && Can(s, Own(h, Report)) && Ending(s, h) && !OutOfDate(s, h)
    ensures Ending(AfterReport(s, h), h)
  {
    var pc, cur := s.handlers[h].pc, s.Current();
    assert InHand(s.versions, s.handlers[h].id, pc);
    SameListKeepsSound(s, cur.deleting, pc.newObj.status);
    var t := Written(s, cur.finalizers, cur.deleting, pc.newObj.status);
    assert t.versions[pc.obj.revision] == pc.obj;
    ConcludedIsEnding(t, h, pc.obj, t.Current());
  }

  lemma RemoveIsEnding(s: State, h: nat)
    requires Sound(s) && Can(s, Own(h, Remove)) && !OutOfDate(s, h)
    ensures Ending(AfterRemove(s, h), h)
  {
    RemoveFacts(s, h);
    assert Distinct(s.versions[|s.versions| - 1].finalizers);
  }

  lemma EndingStep(s: State, m: Move, h: nat)
    requires Sound(s) && Can(s, m) && Ending(s, h) && NoStart(h, [m])
    ensures Fails(s, m, h) || Ending(Take(s, m), h)
  {
    if !Fails(s, m, h) {
      assert m == [m][0];
      if m.Own? && m.handler == h && m.step == Report {
        ReportIsEnding(s, h);
      } else if m.Own? && m.handler == h && m.step == Remove {
        RemoveIsEnding(s, h);
      } else {
        OthersLeaveIt(s, m, h);
        if s.handlers[h].pc == Idle {
          ReleasedStays(s, m, s.handlers[h].id);
        }
      }
    }
  }

  lemma {:induction false} EndsReleased(s: State, moves: seq<Move>, t: State, h: nat)
    requires Sound(s) && Leads(s, moves, t) && NoStart(h, moves) && Ending(s, h)
    requires h < |t.handlers| && t.handlers[h] == Handler(s.handlers[h].id, Idle)
    ensures Released(t, s.handlers[h].id) || FailsIn(s, moves, h)
    decreases |moves|
  {
    if moves != [] {
      var m := moves[0];
      RestIs(h, moves);
      EndingStep(s, m, h);
      MoveKeepsSound(s, m);
      IdStays(s, m, h);
      if !Fails(s, m, h) {
        EndsReleased(Take(s, m), moves[1..], t, h);
      }
    }
  }

  lemma IdStays(s: State, m: Move, h: nat)
    requires Can(s, m) && h < |s.handlers|
    ensures |Take(s, m).handlers| == |s.handlers| && Take(s, m).handlers[h].id == s.handlers[h].id
  {
  }

  /** A clean return out of a copy that is up to date. */
  lemma CleanIsEnding(s: State, m: Move, h: nat)
    requires Sound(s) && Can(s, m) && IsClean(m, h) && !Misled(s, m, h)
    ensures Ending(Take(s, m), h)
  {
    var id, pc := s.handlers[h].id, s.handlers[h].pc;
    assert InHand(s.versions, id, pc);
    var newObj := pc.newObj.(status := m.step.status);
    if newObj.status == pc.obj.status {
      ConcludedIsEnding(s, h, pc.obj, newObj);
    }
  }

  /** Outside Next, nothing comes back from Next. */
  lemma {:induction false} NoneReturns(s: State, moves: seq<Move>, t: State, h: nat)
    requires Leads(s, moves, t) && NoStart(h, moves) && h < |s.handlers| && !s.handlers[h].pc.Calling?
    ensures !Clean(h, moves)
    decreases |moves|
  {
    if moves != [] {
      RestIs(h, moves);
      IdStays(s, moves[0], h);
      StaysOutside(s, moves[0], h);
      NoneReturns(Take(s, moves[0]), moves[1..], t, h);
    }
  }

  lemma StaysOutside(s: State, m: Move, h: nat)
    requires Can(s, m) && h < |s.handlers| && !s.handlers[h].pc.Calling?
    requires m.Own? && m.handler == h ==> !m.step.Start?
    ensures !IsClean(m, h) && h < |Take(s, m).handlers| && !Take(s, m).handlers[h].pc.Calling?
  {
    if !(m.Own? && m.handler == h) {
      OthersLeaveIt(s, m, h);
    }
  }

  /** From inside Next: if it comes back clean, the ID is off the list when the handler is at rest again, or the handler
      worked on a copy that was out of date. */
  lemma {:induction false} CleanRunReleases(s: State, moves: seq<Move>, t: State, h: nat)
    requires Sound(s) && Leads(s, moves, t) && NoStart(h, moves) && Clean(h, moves)
    requires h < |s.handlers| && s.handlers[h].pc.Calling?
    requires h < |t.handlers| && t.handlers[h] == Handler(s.handlers[h].id, Idle)
    ensures Released(t, s.handlers[h].id) || FailsIn(s, moves, h) || MisledIn(s, moves, h)
    decreases |moves|
  {
    var m := moves[0];
    RestIs(h, moves);
    MoveKeepsSound(s, m);
    IdStays(s, m, h);
    if IsClean(m, h) {
      if !Misled(s, m, h) {
        CleanIsEnding(s, m, h);
        EndsReleased(Take(s, m), moves[1..], t, h);
      }
    } else {
      if !Take(s, m).handlers[h].pc.Calling? {
        NoneReturns(Take(s, m), moves[1..], t, h);
        assert false;
      }
      CleanRunReleases(Take(s, m), moves[1..], t, h);
    }
  }

  /** Any run of Handle in any interleaving, over a deleted object with its ID first: if Next comes back clean, then in
      the end the ID is off the list, unless an update was refused or the copy that Next left was out of date. */
  lemma FinalizerIsReleased(s: State, version: nat, moves: seq<Move>, t: State, h: nat)
    requires Sound(s) && h < |s.handlers| && version < |s.versions| && s.handlers[h].pc == Idle
    requires Leads(s, [Own(h, Start(version))] + moves, t) && NoStart(h, moves) && Clean(h, moves)
    requires h < |t.handlers| && t.handlers[h] == Handler(s.handlers[h].id, Idle)
    requires Doomed(s.versions, s.versions[version], s.handlers[h].id)
    ensures Released(t, s.handlers[h].id) ||
              FailsIn(s, [Own(h, Start(version))] + moves, h) || MisledIn(s, [Own(h, Start(version))] + moves, h)
  {
    var all := [Own(h, Start(version))] + moves;
    assert all[1..] == moves;
    MoveKeepsSound(s, all[0]);
    CleanRunReleases(Take(s, all[0]), moves, t, h);
  }

  // ---------------------------------------------------------------- left alone

  /** Nobody else moves, and what the handler reads is the latest version. */
  predicate Undisturbed(s: State, moves: seq<Move>, h: nat)
    decreases |moves|
  {
    moves == [] ||
    (&& Can(s, moves[0]) && moves[0].Own? && moves[0].handler == h
     && (moves[0].step.NextReads? ==> moves[0].step.version == |s.versions| - 1)
     && Undisturbed(Take(s, moves[0]), moves[1..], h))
  }

  predicate IsFailure(m: Move, h: nat) {
    m.Own? && m.handler == h && m.step.NextReturns? && m.step.failed
  }

  predicate Failure(h: nat, moves: seq<Move>) {
    exists i | 0 <= i < |moves| :: IsFailure(moves[i], h)
  }

  lemma FailureIs(h: nat, moves: seq<Move>)
    requires moves != []
    ensures Failure(h, moves) <==> IsFailure(moves[0], h) || Failure(h, moves[1..])
  {
    if Failure(h, moves) && !IsFailure(moves[0], h) {
      var i :| 0 <= i < |moves| && IsFailure(moves[i], h);
      assert moves[1..][i - 1] == moves[i];
    }
    if Failure(h, moves[1..]) {
      var i :| 0 <= i < |moves| - 1 && IsFailure(moves[1..][i], h);
      assert moves[i + 1] == moves[1..][i];
    }
  }

  /** The object ends with this list, gone exactly if that leaves nothing to wait for, and Handle returns an error
      exactly if Next did. */
  predicate EndsWith(s: State, moves: seq<Move>, t: State, h: nat, finalizers: seq<string>) {
    && |t.versions| > 0 && t.Current().finalizers == finalizers
    && (t.gone <==> t.Current().deleting && finalizers == [])
    && (FailsIn(s, moves, h) <==> Failure(h, moves))
  }

  lemma IdleAlone(s: State, moves: seq<Move>, t: State, h: nat)
    requires h < |s.handlers| && s.handlers[h].pc == Idle && NoStart(h, moves) && Undisturbed(s, moves, h)
    ensures moves == []
  {
  }

  /** The object is there with this list, and the handler's ID first on it. */
  predicate Waiting(s: State, h: nat, list: seq<string>) {
    && |s.versions| > 0 && !s.gone && s.Current().deleting && s.Current().finalizers == list
    && s.Current().revision == |s.versions| - 1
    && h < |s.handlers| && list != [] && list[0] == s.handlers[h].id
  }

  lemma RemovingAlone(s: State, moves: seq<Move>, t: State, h: nat, list: seq<string>)
    requires Waiting(s, h, list) && s.handlers[h].pc.Removing?
    requires s.handlers[h].pc.newObj.finalizers == list[1..] && !OutOfDate(s, h)
    requires NoStart(h, moves) && Undisturbed(s, moves, h) && Leads(s, moves, t)
    requires h < |t.handlers| && t.handlers[h].pc == Idle
    ensures EndsWith(s, moves, t, h, list[1..]) && t.Current().status == s.Current().status
  {
    assert moves[0] == Own(h, Remove);
    var u := Take(s, moves[0]);
    RestIs(h, moves);
    FailureIs(h, moves);
    IdleAlone(u, moves[1..], t, h);
  }

  lemma ReportingAlone(s: State, moves: seq<Move>, t: State, h: nat, list: seq<string>)
    requires Waiting(s, h, list) && s.handlers[h].pc.Reporting? && !OutOfDate(s, h)
    requires s.handlers[h].pc.obj.finalizers == list
    requires NoStart(h, moves) && Undisturbed(s, moves, h) && Leads(s, moves, t)
    requires h < |t.handlers| && t.handlers[h].pc == Idle
    ensures EndsWith(s, moves, t, h, if s.handlers[h].pc.delay == 0 then list[1..] else list)
    ensures t.Current().status == s.handlers[h].pc.newObj.status
  {
    assert moves[0] == Own(h, Report);
    var u := Take(s, moves[0]);
    RestIs(h, moves);
    FailureIs(h, moves);
    if s.handlers[h].pc.delay == 0 {
      RemovingAlone(u, moves[1..], t, h, list);
    } else {
      IdleAlone(u, moves[1..], t, h);
    }
  }

  lemma ReturnedAlone(s: State, m: Move, h: nat, list: seq<string>)
    requires Waiting(s, h, list) && s.handlers[h].pc.Calling? && s.handlers[h].pc.obj.finalizers == list
    requires s.handlers[h].pc.newObj == s.Current()
    requires Can(s, m) && m.Own? && m.handler == h && m.step.NextReturns?
    ensures var u, step := Take(s, m), m.step;
            && Waiting(u, h, list) && !u.handlers[h].pc.Calling? && !u.handlers[h].pc.Adding?
            && (!u.handlers[h].pc.Idle? ==> !OutOfDate(u, h))
            && (step.failed ==> u.handlers[h].pc == Idle)
            && (u.handlers[h].pc.Reporting? ==> u.handlers[h].pc.delay == step.delay &&
                                                u.handlers[h].pc.obj.finalizers == list)
            && (u.handlers[h].pc.Removing? ==> IsClean(m, h) && u.handlers[h].pc.newObj.finalizers == list[1..])
            && (u.handlers[h].pc.Idle? ==> !IsClean(m, h))
            && u.Current() == s.Current()
            && (!step.failed ==> (u.handlers[h].pc.Reporting? <==> step.status != s.handlers[h].pc.obj.status))
            && (u.handlers[h].pc.Reporting? ==> u.handlers[h].pc.newObj.status == step.status)
  {
  }

  /** Next returns to a handler that is left alone. If it left another status than the object had when Handle began,
      that is the status in the end; otherwise the status stays as it is. */
  lemma ReturnAlone(s: State, moves: seq<Move>, t: State, h: nat, list: seq<string>)
    requires Waiting(s, h, list) && s.handlers[h].pc.Calling? && s.handlers[h].pc.obj.finalizers == list
    requires s.handlers[h].pc.newObj == s.Current()
    requires NoStart(h, moves) && Undisturbed(s, moves, h) && Leads(s, moves, t)
    requires h < |t.handlers| && t.handlers[h].pc == Idle
    requires moves != [] && moves[0].step.NextReturns?
    ensures EndsWith(s, moves, t, h, if IsClean(moves[0], h) then list[1..] else list)
    ensures var step := moves[0].step;
            t.Current().status ==
            if !step.failed && step.status != s.handlers[h].pc.obj.status then step.status else s.Current().status
  {
    var u, rest := Take(s, moves[0]), moves[1..];
    RestIs(h, moves);
    FailureIs(h, moves);
    ReturnedAlone(s, moves[0], h, list);
    match u.handlers[h].pc {
      case Idle => IdleAlone(u, rest, t, h);
      case Reporting(_, _, _) => ReportingAlone(u, rest, t, h, list);
      case Removing(_, _) => RemovingAlone(u, rest, t, h, list);
    }
  }

  lemma {:induction false} CallingAlone(s: State, moves: seq<Move>, t: State, h: nat, list: seq<string>)
    requires Waiting(s, h, list) && s.handlers[h].pc.Calling? && s.handlers[h].pc.obj.finalizers == list
    requires s.handlers[h].pc.newObj == s.Current() && s.Numbered()
    requires NoStart(h, moves) && Undisturbed(s, moves, h) && Leads(s, moves, t)
    requires h < |t.handlers| && t.handlers[h].pc == Idle
    ensures EndsWith(s, moves, t, h, if Clean(h, moves) then list[1..] else list)
    decreases |moves|
  {
    RestIs(h, moves);
    FailureIs(h, moves);
    if moves[0].step.NextReturns? {
      ReturnAlone(s, moves, t, h, list);
      NoneReturns(Take(s, moves[0]), moves[1..], t, h);
    } else {
      CallingAlone(Take(s, moves[0]), moves[1..], t, h, list);
    }
  }

  lemma AddingAlone(s: State, moves: seq<Move>, t: State, h: nat)
    requires |s.versions| > 0 && !s.gone && !s.Current().deleting && h < |s.handlers| && s.handlers[h].pc.Adding?
    requires !OutOfDate(s, h) && NoStart(h, moves) && Undisturbed(s, moves, h) && Leads(s, moves, t)
    requires h < |t.handlers| && t.handlers[h].pc == Idle
    ensures EndsWith(s, moves, t, h, s.handlers[h].pc.obj.finalizers)
  {
    assert moves[0] == Own(h, Add);
    RestIs(h, moves);
    FailureIs(h, moves);
    IdleAlone(Take(s, moves[0]), moves[1..], t, h);
  }

  /** What a run that is left alone makes of the list: an ID is added at the end where it is missing, and taken from the
      front of a deleted object when Next comes back clean. */
  function Due(obj: Object, id: string, clean: bool): seq<string> {
    if !obj.deleting && id !in obj.finalizers then obj.finalizers + [id]
    else if obj.deleting && clean && obj.finalizers != [] && obj.finalizers[0] == id then obj.finalizers[1..]
    else obj.finalizers
  }

  lemma StartedAlone(s: State, h: nat)
    requires s.Numbered() && !s.gone && h < |s.handlers| && s.handlers[h].pc == Idle
    requires s.Current().deleting ==> s.Current().finalizers != []
    ensures var u := Take(s, Own(h, Start(|s.versions| - 1)));
            u.versions == s.versions && Begins(u, h, s.Current(), s.handlers[h].id)
  {
  }

  /** Begun with the latest version and left alone, a run of Handle does its work: the object, gone if nothing is left
      on the list of a deleted one, ends with the list that is due, and there is no error but that of Next. */
  lemma UndisturbedRun(s: State, moves: seq<Move>, t: State, h: nat)
    requires s.Numbered() && !s.gone && (s.Current().deleting ==> s.Current().finalizers != [])
    requires h < |s.handlers| && s.handlers[h].pc == Idle
    requires moves != [] && moves[0] == Own(h, Start(|s.versions| - 1)) && NoStart(h, moves[1..])
    requires Undisturbed(s, moves, h) && Leads(s, moves, t)
    requires h < |t.handlers| && t.handlers[h].pc == Idle
    ensures EndsWith(s, moves, t, h, Due(s.Current(), s.handlers[h].id, Clean(h, moves)))
  {
    var u, rest := Take(s, moves[0]), moves[1..];
    StartedAlone(s, h);
    RestAlone(u, rest, t, h, s.Current(), s.handlers[h].id);
    StartIsQuiet(s, moves, t, h, Due(s.Current(), s.handlers[h].id, Clean(h, rest)));
  }

  lemma StartIsQuiet(s: State, moves: seq<Move>, t: State, h: nat, list: seq<string>)
    requires moves != [] && Can(s, moves[0]) && moves[0].Own? && moves[0].step.Start?
    requires EndsWith(Take(s, moves[0]), moves[1..], t, h, list)
    ensures EndsWith(s, moves, t, h, list) && (Clean(h, moves) <==> Clean(h, moves[1..]))
  {
    RestIs(h, moves);
    FailureIs(h, moves);
  }

  /** From the point where the object has been looked at. */
  predicate Begins(u: State, h: nat, cur: Object, id: string) {
    && |u.versions| > 0 && u.Current() == cur && !u.gone && h < |u.handlers| && u.handlers[h].id == id
    && match u.handlers[h].pc
       case Idle => Due(cur, id, true) == cur.finalizers && (cur.deleting ==> cur.finalizers != [])
       case Adding(obj) => !cur.deleting && obj.finalizers == Due(cur, id, false) && !OutOfDate(u, h)
       case Calling(obj, newObj) => Waiting(u, h, cur.finalizers) && obj == newObj == cur
       case _ => false
  }

  lemma RestAlone(u: State, rest: seq<Move>, t: State, h: nat, cur: Object, id: string)
    requires u.Numbered() && Begins(u, h, cur, id)
    requires NoStart(h, rest) && Undisturbed(u, rest, h) && Leads(u, rest, t)
    requires h < |t.handlers| && t.handlers[h].pc == Idle
    ensures EndsWith(u, rest, t, h, Due(cur, id, Clean(h, rest)))
  {
    match u.handlers[h].pc {
      case Idle => IdleAlone(u, rest, t, h);
      case Adding(_) => AddingAlone(u, rest, t, h);
      case Calling(_, _) => CallingAlone(u, rest, t, h, cur.finalizers);
    }
  }

  /** The server removes a deleted object as soon as its list is empty. */
  predicate GoneWhenDone(s: State) {
    |s.versions| > 0 && (s.gone <==> s.Current().deleting && s.Current().finalizers == [])
  }

  lemma {:induction false} GoneIff(s: State, moves: seq<Move>, t: State)
    requires GoneWhenDone(s) && Leads(s, moves, t)
    ensures GoneWhenDone(t)
    decreases |moves|
  {
    if moves != [] {
      GoneIff(Take(s, moves[0]), moves[1..], t);
    }
  }
}
