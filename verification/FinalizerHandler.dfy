/** Handle itself, each run of it a part of a run of the protocol (pkg/router/finalizer.go:14-63,
    pkg/router/response_wrapper.go). */
module FinalizerHandler {
  import opened Base
  import opened Finalizer
  import opened Release

  lemma {:induction false} LeadsOn(s: State, moves: seq<Move>, t: State, m: Move)
    requires Leads(s, moves, t) && Can(t, m)
    ensures Leads(s, moves + [m], Take(t, m))
    decreases |moves|
  {
    if moves == [] {
      assert [] + [m] == [m] && [m][1..] == [];
    } else {
      LeadsOn(Take(s, moves[0]), moves[1..], t, m);
      assert (moves + [m])[1..] == moves[1..] + [m];
    }
  }

  /** The delay of the response that Next gets: the last one it set. */
  class ResponseWrapper {
    var delay: int

    constructor ()
      ensures delay == 0
    {
      delay := 0;
    }

    method RetryAfter(d: int)
      modifies this
      ensures delay == d
    {
      delay := d;
    }
  }

  lemma {:induction false} FailsSplit(s: State, first: seq<Move>, u: State, rest: seq<Move>, h: nat)
    requires Leads(s, first, u)
    ensures FailsIn(s, first + rest, h) <==> FailsIn(s, first, h) || FailsIn(u, rest, h)
    decreases |first|
  {
    if first == [] {
      assert [] + rest == rest;
    } else {
      assert (first + rest)[1..] == first[1..] + rest && (first + rest)[0] == first[0];
      FailsSplit(Take(s, first[0]), first[1..], u, rest, h);
    }
  }

  lemma {:induction false} LeadsJoin(s: State, first: seq<Move>, u: State, rest: seq<Move>, t: State)
    requires Leads(s, first, u) && Leads(u, rest, t)
    ensures Leads(s, first + rest, t)
    decreases |first|
  {
    if first == [] {
      assert [] + rest == rest;
    } else {
      assert (first + rest)[1..] == first[1..] + rest;
      LeadsJoin(Take(s, first[0]), first[1..], u, rest, t);
    }
  }

  predicate IsReturn(m: Move, h: nat) {
    m.Own? && m.handler == h && m.step.NextReturns?
  }

  /** What Next came back with, if it did. */
  predicate Back(h: nat, moves: seq<Move>, failed: bool, delay: int) {
    forall i | 0 <= i < |moves| && IsReturn(moves[i], h) ::
      moves[i].step.failed == failed && moves[i].step.delay == delay
  }

  predicate NoneRemoves(h: nat, moves: seq<Move>) {
    forall i | 0 <= i < |moves| :: moves[i] != Own(h, Remove)
  }

  /** A part of a run of Handle: where it leads, and whether it makes Handle fail. */
  ghost predicate Part(s: State, moves: seq<Move>, t: State, h: nat, failed: bool) {
    Leads(s, moves, t) && NoStart(h, moves) && (FailsIn(s, moves, h) <==> failed)
  }

  lemma PartsJoin(s: State, first: seq<Move>, u: State, a: bool, rest: seq<Move>, t: State, b: bool, h: nat)
    requires Part(s, first, u, h, a) && Part(u, rest, t, h, b)
    ensures Part(s, first + rest, t, h, a || b)
    ensures forall failed, delay | Back(h, first, failed, delay) && Back(h, rest, failed, delay) ::
              Back(h, first + rest, failed, delay)
    ensures NoneRemoves(h, first) && NoneRemoves(h, rest) ==> NoneRemoves(h, first + rest)
  {
    LeadsJoin(s, first, u, rest, t);
    FailsSplit(s, first, u, rest, h);
  }

  lemma OneStep(s: State, m: Move, h: nat)
    requires Can(s, m) && NoStart(h, [m])
    ensures Part(s, [m], Take(s, m), h, Fails(s, m, h))
  {
    assert [m][1..] == [] && [m][0] == m;
  }

  /** How a run of Handle comes out. */
  ghost predicate Handled(s: State, version: nat, moves: seq<Move>, t: State, h: nat, err: bool, retryAfter: int)
  {
    && moves != [] && moves[0] == Own(h, Start(version)) && NoStart(h, moves[1..]) && Leads(s, moves, t)
    && h < |s.handlers| && h < |t.handlers| && t.handlers[h] == Handler(s.handlers[h].id, Idle)
    && (err <==> FailsIn(s, moves, h))
    && (forall i | 0 <= i < |moves| && IsReturn(moves[i], h) && !moves[i].step.failed ::
          retryAfter == moves[i].step.delay)
    && (retryAfter != 0 ==> NoneRemoves(h, moves))
  }

  lemma HandledFrom(s: State, version: nat, moves: seq<Move>, t: State, h: nat, err: bool, retryAfter: int,
                    failed: bool, delay: int)
    requires h < |s.handlers| && s.handlers[h].pc == Idle && version < |s.versions|
    requires Part(Take(s, Own(h, Start(version))), moves, t, h, err) && Back(h, moves, failed, delay)
    requires retryAfter == (if failed then 0 else delay) && (retryAfter != 0 ==> NoneRemoves(h, moves))
    requires h < |t.handlers| && t.handlers[h] == Handler(s.handlers[h].id, Idle)
    ensures Handled(s, version, [Own(h, Start(version))] + moves, t, h, err, retryAfter)
  {
    var all := [Own(h, Start(version))] + moves;
    assert all[1..] == moves;
    forall i | 0 <= i < |all| && IsReturn(all[i], h) && !all[i].step.failed ensures retryAfter == all[i].step.delay {
      assert all[i] == moves[i - 1];
    }
  }

  /** A server with one object and any number of handlers at work on it. */
  class World {
    ghost const start: State
    ghost var trace: seq<Move>
    var state: State

    constructor (start: State)
      requires Initial(start)
      ensures Valid() && state == start && trace == []
    {
      this.start, state, trace := start, start, [];
    }

    ghost predicate Valid()
      reads this
    {
      Initial(start) && Leads(start, trace, state) && |state.versions| > 0
    }

    /** One step of the protocol happens. */
    method Do(m: Move)
      requires Valid() && Can(state, m)
      modifies this
      ensures Valid() && state == Take(old(state), m) && trace == old(trace) + [m]
    {
      LeadsOn(start, trace, state, m);
      state, trace := Take(state, m), trace + [m];
    }

    /** Anything that others do meanwhile. */
    method Interfere(h: nat) returns (ghost moves: seq<Move>)
      requires Valid() && h < |state.handlers|
      modifies this
      ensures Valid() && trace == old(trace) + moves && Part(old(state), moves, state, h, false)
      ensures forall failed, delay :: Back(h, moves, failed, delay)
      ensures NoneRemoves(h, moves)
      ensures h < |state.handlers| && state.handlers[h] == old(state.handlers[h])
      ensures |state.versions| >= |old(state.versions)|
    {
      moves := [];
      var times: int := *;
      while times > 0
        invariant Valid() && trace == old(trace) + moves && Part(old(state), moves, state, h, false)
        invariant (forall failed, delay :: Back(h, moves, failed, delay)) && NoneRemoves(h, moves)
        invariant h < |state.handlers| && state.handlers[h] == old(state.handlers[h])
        invariant |state.versions| >= |old(state.versions)|
      {
        times := times - 1;
        var m: Move := *;
        if Can(state, m) && (m.Own? ==> m.handler != h) {
          OthersLeaveIt(state, m, h);
          OneStep(state, m, h);
          PartsJoin(old(state), moves, state, false, [m], Take(state, m), false, h);
          moves := moves + [m];
          Do(m);
        }
      }
    }

    /** Next, which may read and update its copy and ask for delays, in any order. `asked` are the delays it asked
        for. */
    method Next(h: nat)
        returns (newObj: Object, failed: bool, delay: int, ghost asked: seq<int>, ghost moves: seq<Move>)
      requires Valid() && h < |state.handlers| && state.handlers[h].pc.Calling?
      modifies this
      ensures Valid() && trace == old(trace) + moves && Part(old(state), moves, state, h, failed)
      ensures Back(h, moves, failed, delay) && NoneRemoves(h, moves)
      ensures delay == if asked == [] then 0 else asked[|asked| - 1]
      ensures h < |state.handlers| && state.handlers[h].id == old(state.handlers[h].id)
      ensures var obj := old(state.handlers[h].pc.obj);
              state.handlers[h].pc == Returning(state.handlers[h].id, obj, newObj, failed, delay)
    {
      delay, asked, moves := Work(h);
      var status: int := *;
      failed := *;
      newObj := state.handlers[h].pc.newObj.(status := status);
      ghost var m := Own(h, NextReturns(failed, delay, status));
      OneStep(state, m, h);
      PartsJoin(old(state), moves, state, false, [m], Take(state, m), failed, h);
      moves := moves + [m];
      Do(Own(h, NextReturns(failed, delay, status)));
    }

    method Work(h: nat) returns (delay: int, ghost asked: seq<int>, ghost moves: seq<Move>)
      requires Valid() && h < |state.handlers| && state.handlers[h].pc.Calling?
      modifies this
      ensures Valid() && trace == old(trace) + moves && Part(old(state), moves, state, h, false)
      ensures (forall f, d :: Back(h, moves, f, d)) && NoneRemoves(h, moves)
      ensures delay == if asked == [] then 0 else asked[|asked| - 1]
      ensures h < |state.handlers| && state.handlers[h].id == old(state.handlers[h].id)
      ensures state.handlers[h].pc.Calling? && state.handlers[h].pc.obj == old(state.handlers[h].pc.obj)
    {
      var resp := new ResponseWrapper();
      asked, moves := [], [];
      var times: int := *;
      while times > 0
        invariant Valid() && fresh(resp) && trace == old(trace) + moves && Part(old(state), moves, state, h, false)
        invariant (forall f, d :: Back(h, moves, f, d)) && NoneRemoves(h, moves)
        invariant resp.delay == if asked == [] then 0 else asked[|asked| - 1]
        invariant h < |state.handlers| && state.handlers[h].id == old(state.handlers[h].id)
        invariant state.handlers[h].pc.Calling? && state.handlers[h].pc.obj == old(state.handlers[h].pc.obj)
      {
        times := times - 1;
        ghost var before := state;
        ghost var more := Touch(h);
        PartsJoin(old(state), moves, before, false, more, state, false, h);
        moves := moves + more;
        var asks: bool, d: int := *, *;
        if asks {
          resp.RetryAfter(d);
          asked := asked + [d];
        }
      }
      delay := resp.delay;
    }

    /** Next reads or updates its copy, or leaves it. */
    method Touch(h: nat) returns (ghost moves: seq<Move>)
      requires Valid() && h < |state.handlers| && state.handlers[h].pc.Calling?
      modifies this
      ensures Valid() && trace == old(trace) + moves && Part(old(state), moves, state, h, false)
      ensures (forall f, d :: Back(h, moves, f, d)) && NoneRemoves(h, moves)
      ensures h < |state.handlers| && state.handlers[h].id == old(state.handlers[h].id)
      ensures state.handlers[h].pc.Calling? && state.handlers[h].pc.obj == old(state.handlers[h].pc.obj)
    {
      moves := Interfere(h);
      var step: Step := *;
      if (step.NextReads? || step.NextWrites?) && Can(state, Own(h, step)) {
        OneStep(state, Own(h, step), h);
        PartsJoin(old(state), moves, state, false, [Own(h, step)], Take(state, Own(h, step)), false, h);
        moves := moves + [Own(h, step)];
        Do(Own(h, step));
      }
    }

    /** One run of Handle, as others interfere: it is one handler's part in a run of the protocol, from its first step
        to its last, and it fails exactly if Next does or an update is refused. If Next comes back clean over a deleted
        object with the ID first, the ID is off the list, or Next was misled by an old copy. Left alone with the latest
        version, it leaves the list that is due. */
    method Handle(h: nat, version: nat) returns (err: bool, retryAfter: int, ghost moves: seq<Move>)
      requires Valid() && h < |state.handlers| && state.handlers[h].pc == Idle && version < |state.versions|
      modifies this
      ensures Valid() && trace == old(trace) + moves
      ensures Handled(old(state), version, moves, state, h, err, retryAfter)
      ensures var obj, id := old(state.versions[version]), old(state.handlers[h].id);
              obj.deleting && obj.finalizers != [] && obj.finalizers[0] == id && Clean(h, moves) && !err ==>
                Released(state, id) || MisledIn(old(state), moves, h)
      ensures Undisturbed(old(state), moves, h) && version == |old(state.versions)| - 1 && !old(state.gone) ==>
                EndsWith(old(state), moves, state, h,
                  Due(old(state.versions[version]), old(state.handlers[h].id), Clean(h, moves)))
    {
      err, retryAfter, moves := Run(h, version);
      Outcome(start, old(trace), old(state), version, moves, state, h, err, retryAfter);
    }

    method Run(h: nat, version: nat) returns (err: bool, retryAfter: int, ghost moves: seq<Move>)
      requires Valid() && h < |state.handlers| && state.handlers[h].pc == Idle && version < |state.versions|
      modifies this
      ensures Valid() && trace == old(trace) + moves
      ensures Handled(old(state), version, moves, state, h, err, retryAfter)
    {
      var finalizerID := state.handlers[h].id;
      var obj := state.versions[version];
      Do(Own(h, Start(version)));
      ghost var failed, delay;
      err, retryAfter, failed, delay, moves := Proceed(h, obj, finalizerID);
      HandledFrom(old(state), version, moves, state, h, err, retryAfter, failed, delay);
      moves := [Own(h, Start(version))] + moves;
    }

    /** What Handle does with the object it got. */
    method Proceed(h: nat, obj: Object, finalizerID: string)
        returns (err: bool, retryAfter: int, ghost failed: bool, ghost delay: int, ghost moves: seq<Move>)
      requires Valid() && h < |state.handlers|
      requires state.handlers[h] == Handler(finalizerID, Begun(finalizerID, obj))
      modifies this
      ensures Valid() && trace == old(trace) + moves && Part(old(state), moves, state, h, err)
      ensures Back(h, moves, failed, delay) && retryAfter == (if failed then 0 else delay)
      ensures retryAfter != 0 ==> NoneRemoves(h, moves)
      ensures h < |state.handlers| && state.handlers[h] == Handler(finalizerID, Idle)
    {
      err, retryAfter, failed, delay := false, 0, false, 0;
      moves := Interfere(h);
      ghost var before := state;
      ghost var more: seq<Move> := [];
      if !obj.deleting {
        if finalizerID !in obj.finalizers {
          var longer := obj.(finalizers := obj.finalizers + [finalizerID]);
          err, more := AddLast(h, longer);
        }
      } else if |obj.finalizers| > 0 && obj.finalizers[0] == finalizerID {
        err, retryAfter, failed, delay, more := Finalize(h, obj, finalizerID);
      }
      PartsJoin(old(state), moves, before, false, more, state, err, h);
      moves := moves + more;
    }

    method AddLast(h: nat, obj: Object) returns (err: bool, ghost moves: seq<Move>)
      requires Valid() && h < |state.handlers| && state.handlers[h].pc == Adding(obj)
      modifies this
      ensures Valid() && trace == old(trace) + moves && Part(old(state), moves, state, h, err)
      ensures moves == [Own(h, Add)] && (err <==> !old(state).Takes(obj))
      ensures h < |state.handlers| && state.handlers[h] == old(state.handlers[h]).(pc := Idle)
    {
      err := !state.Takes(obj);
      moves := [Own(h, Add)];
      OneStep(state, Own(h, Add), h);
      Do(Own(h, Add));
    }

    /** The rest of Handle, for a deleted object whose first finalizer is the handler's. */
    method Finalize(h: nat, obj: Object, finalizerID: string)
        returns (err: bool, retryAfter: int, ghost failed: bool, ghost delay: int, ghost moves: seq<Move>)
      requires Valid() && h < |state.handlers| && state.handlers[h] == Handler(finalizerID, Calling(obj, obj))
      requires |obj.finalizers| > 0
      modifies this
      ensures Valid() && trace == old(trace) + moves && Part(old(state), moves, state, h, err)
      ensures Back(h, moves, failed, delay) && retryAfter == (if failed then 0 else delay)
      ensures retryAfter != 0 ==> NoneRemoves(h, moves)
      ensures h < |state.handlers| && state.handlers[h] == Handler(finalizerID, Idle)
    {
      err, retryAfter := false, 0;
      var newObj, bad, later;
      ghost var asked, more;
      newObj, bad, later, asked, moves := Next(h);
      failed, delay := bad, later;
      if bad {
        return true, retryAfter, failed, delay, moves;
      }
      if later != 0 {
        retryAfter := later;
      }
      ghost var before := state;
      err, more := Conclude(h, obj, newObj, later, finalizerID);
      PartsJoin(old(state), moves, before, false, more, state, err, h);
      moves := moves + more;
    }

    /** The status is saved if it has changed, and the ID removed if there was no delay. */
    method Conclude(h: nat, obj: Object, copy: Object, delay: int, finalizerID: string)
        returns (err: bool, ghost moves: seq<Move>)
      requires Valid() && h < |state.handlers| && |obj.finalizers| > 0
      requires state.handlers[h] == Handler(finalizerID, Returning(finalizerID, obj, copy, false, delay))
      modifies this
      ensures Valid() && trace == old(trace) + moves && Part(old(state), moves, state, h, err)
      ensures (forall f, d :: Back(h, moves, f, d)) && (delay != 0 ==> NoneRemoves(h, moves))
      ensures h < |state.handlers| && state.handlers[h] == Handler(finalizerID, Idle)
    {
      var newObj := copy;
      ghost var more, before;
      err, moves := false, [];
      if obj.status != newObj.status {
        err, newObj, moves := SaveStatus(h, obj, newObj, delay);
      }
      if !err {
        before := state;
        err, more := RemoveFirst(h, obj, newObj, delay, finalizerID);
        PartsJoin(old(state), moves, before, false, more, state, err, h);
        moves := moves + more;
      }
    }

    method RemoveFirst(h: nat, obj: Object, newObj: Object, delay: int, finalizerID: string)
        returns (err: bool, ghost moves: seq<Move>)
      requires Valid() && h < |state.handlers| && |obj.finalizers| > 0
      requires state.handlers[h] == Handler(finalizerID, Concluded(finalizerID, obj, newObj, delay))
      modifies this
      ensures Valid() && trace == old(trace) + moves && Part(old(state), moves, state, h, err)
      ensures (forall f, d :: Back(h, moves, f, d)) && (delay != 0 ==> NoneRemoves(h, moves))
      ensures h < |state.handlers| && state.handlers[h] == Handler(finalizerID, Idle)
    {
      err := false;
      moves := [];
      if delay == 0 && |newObj.finalizers| > 0 && newObj.finalizers[0] == finalizerID {
        moves := Interfere(h);
        var shorter := newObj.(finalizers := obj.finalizers[1..]);
        err := !state.Takes(shorter);
        OneStep(state, Own(h, Remove), h);
        PartsJoin(old(state), moves, state, false, [Own(h, Remove)], Take(state, Own(h, Remove)), err, h);
        moves := moves + [Own(h, Remove)];
        Do(Own(h, Remove));
      }
    }

    method SaveStatus(h: nat, obj: Object, newObj: Object, delay: int)
        returns (err: bool, saved: Object, ghost moves: seq<Move>)
      requires Valid() && h < |state.handlers| && state.handlers[h].pc == Reporting(obj, newObj, delay)
      modifies this
      ensures Valid() && trace == old(trace) + moves && Part(old(state), moves, state, h, err)
      ensures exists before :: moves == before + [Own(h, Report)]
      ensures (forall f, d :: Back(h, moves, f, d)) && NoneRemoves(h, moves)
      ensures h < |state.handlers| && state.handlers[h].id == old(state.handlers[h].id)
      ensures state.handlers[h].pc == if err then Idle else Concluded(state.handlers[h].id, obj, saved, delay)
      ensures !err ==> saved == state.Current() && saved.status == newObj.status
    {
      moves := Interfere(h);
      err := !state.Takes(newObj);
      OneStep(state, Own(h, Report), h);
      PartsJoin(old(state), moves, state, false, [Own(h, Report)], Take(state, Own(h, Report)), err, h);
      moves := moves + [Own(h, Report)];
      Do(Own(h, Report));
      saved := if err then newObj else state.Current();
    }
  }

  lemma Outcome(start: State, trace: seq<Move>, s: State, version: nat, moves: seq<Move>, t: State, h: nat,
                err: bool, retryAfter: int)
    requires Initial(start) && Leads(start, trace, s) && version < |s.versions|
    requires Handled(s, version, moves, t, h, err, retryAfter) && s.handlers[h].pc == Idle
    ensures var obj, id := s.versions[version], s.handlers[h].id;
            obj.deleting && obj.finalizers != [] && obj.finalizers[0] == id && Clean(h, moves) && !err ==>
              Released(t, id) || MisledIn(s, moves, h)
    ensures Undisturbed(s, moves, h) && version == |s.versions| - 1 && !s.gone ==>
              EndsWith(s, moves, t, h, Due(s.versions[version], s.handlers[h].id, Clean(h, moves)))
  {
    InitialIsSound(start);
    EveryRunIsSound(start, trace, s);
    GoneIff(start, trace, s);
    assert moves == [moves[0]] + moves[1..];
    RestIs(h, moves);
    if Doomed(s.versions, s.versions[version], s.handlers[h].id) && Clean(h, moves) {
      FinalizerIsReleased(s, version, moves[1..], t, h);
    }
    if Undisturbed(s, moves, h) && version == |s.versions| - 1 && !s.gone {
      UndisturbedRun(s, moves, t, h);
    }
  }
}
