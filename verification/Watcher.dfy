/** Watching until a callback is done, across restarts of the watch (pkg/watcher/watcher.go:29-131, 177-220). */
module Watcher {
  import opened Base

  /** `deletion` is the deletion timestamp; None where it is zero. */
  datatype Object = Object(revision: string, deletion: Option<nat>, finalizers: seq<string>, body: string)

  datatype Kind = Added | Modified | Deleted

  datatype Event = Event(kind: Kind, obj: Object)

  /** All events a watch would ever carry, oldest first, and the age of revisions, which only the server can compare. */
  datatype Server = Server(log: seq<Event>, age: string -> int) {
    ghost predicate Valid() {
      && (forall i | 0 <= i < |log| :: log[i].obj.revision != "")
      && (forall i, j | 0 <= i < j < |log| :: age(log[i].obj.revision) < age(log[j].obj.revision))
    }

    /** A watch from this revision starts with event number `i`. */
    predicate Resumes(revision: string, i: nat) {
      i <= |log| && forall k | 0 <= k < |log| :: k < i <==> age(log[k].obj.revision) <= age(revision)
    }
  }

  /** The errors the code tells apart. */
  datatype Err = Nil | Conflict(text: string) | Gone(text: string) | Other(text: string)

  const CANCELLED := Other("context done")

  /** What a watch channel yields; Next stands for the next event of the log. */
  datatype Received = Next | Bookmark(revision: string) | Trouble(err: Err) | Unknown | Closed

  /** One call of the callback: event number `index` was shown as `obj`. */
  datatype Call = Call(index: nat, obj: Object, done: bool, err: Err) {
    predicate Accepted() {
      err == Nil
    }
  }

  /** The answer to the list request. */
  datatype Listing = Items(items: seq<Object>, revision: string) | Refused(err: Err)

  datatype Listed = Listed(obj: Object, done: bool, err: Err)

  /** A deleted object is shown with a deletion timestamp and without finalizers. */
  predicate ShownAs(e: Event, obj: Object) {
    if e.kind == Deleted then
      obj.deletion.Some? && (e.obj.deletion.Some? ==> obj.deletion == e.obj.deletion) && obj.finalizers == [] &&
      obj.revision == e.obj.revision && obj.body == e.obj.body
    else obj == e.obj
  }

  /** How many calls accepted their event. */
  function Accepted(calls: seq<Call>): nat {
    if calls == [] then 0 else Accepted(calls[..|calls| - 1]) + if calls[|calls| - 1].Accepted() then 1 else 0
  }

  function Nexts(received: seq<Received>): nat {
    if received == [] then 0 else Nexts(received[..|received| - 1]) + if received[|received| - 1] == Next then 1 else 0
  }

  /** Each call is about the event that follows those accepted before it. */
  ghost predicate InStep(server: Server, first: nat, calls: seq<Call>) {
    forall j | 0 <= j < |calls| :: StepAt(server, first, calls, j)
  }

  predicate StepAt(server: Server, first: nat, calls: seq<Call>, j: nat) {
    && j < |calls|
    && calls[j].index == first + Accepted(calls[..j])
    && calls[j].index < |server.log|
    && ShownAs(server.log[calls[j].index], calls[j].obj)
  }

  /** A watch was opened from this revision, when so much had been received and so many calls made. */
  datatype Opening = Opening(revision: string, err: Err, received: nat, calls: nat)

  /** Where to go on from: the revision of the last bookmark that has one, or of the last event accepted without being
      done, whichever came later; where there is neither, the first revision. */
  function Reached(revision: string, received: seq<Received>, calls: seq<Call>): string {
    if received == [] then revision
    else
      var rest := received[..|received| - 1];
      match received[|received| - 1]
      case Bookmark(r) => if r != "" then r else Reached(revision, rest, calls)
      case Next =>
        if calls == [] then revision
        else
          var call, before := calls[|calls| - 1], calls[..|calls| - 1];
          if call.err == Nil && !call.done then call.obj.revision else Reached(revision, rest, before)
      case _ => Reached(revision, rest, calls)
  }

  lemma ReachedOn(revision: string, received: seq<Received>, calls: seq<Call>, r: Received)
    ensures r != Next ==>
              Reached(revision, received + [r], calls) ==
              if r.Bookmark? && r.revision != "" then r.revision else Reached(revision, received, calls)
    ensures forall call: Call :: r == Next ==>
              Reached(revision, received + [r], calls + [call]) ==
              if call.err == Nil && !call.done then call.obj.revision else Reached(revision, received, calls)
  {
    assert (received + [r])[..|received|] == received;
    assert forall call: Call :: (calls + [call])[..|calls|] == calls;
  }

  lemma {:induction false} ReachedSplit(revision: string, ra: seq<Received>, rb: seq<Received>, ca: seq<Call>,
                                        cb: seq<Call>)
    requires |cb| == Nexts(rb)
    ensures Reached(revision, ra + rb, ca + cb) == Reached(Reached(revision, ra, ca), rb, cb)
    decreases |rb|
  {
    if rb == [] {
      assert ra + rb == ra && ca + cb == ca;
    } else {
      var rest, r := rb[..|rb| - 1], rb[|rb| - 1];
      assert ra + rb == (ra + rest) + [r] && rb == rest + [r];
      if r == Next {
        var before, call := cb[..|cb| - 1], cb[|cb| - 1];
        assert ca + cb == (ca + before) + [call] && cb == before + [call];
        ReachedSplit(revision, ra, rest, ca, before);
        ReachedOn(revision, ra + rest, ca + before, r);
        ReachedOn(Reached(revision, ra, ca), rest, before, r);
      } else {
        ReachedSplit(revision, ra, rest, ca, cb);
        ReachedOn(revision, ra + rest, ca + cb, r);
        ReachedOn(Reached(revision, ra, ca), rest, cb, r);
      }
    }
  }

  lemma {:induction false} NextsSplit(ra: seq<Received>, rb: seq<Received>)
    ensures Nexts(ra + rb) == Nexts(ra) + Nexts(rb)
    decreases |rb|
  {
    if rb == [] {
      assert ra + rb == ra;
    } else {
      assert (ra + rb)[..|ra + rb| - 1] == ra + rb[..|rb| - 1];
      NextsSplit(ra, rb[..|rb| - 1]);
    }
  }

  /** From the start to a point, and from there on. */
  lemma ReachedFurther(revision: string, r0: seq<Received>, r1: seq<Received>, r2: seq<Received>,
                       c0: seq<Call>, c1: seq<Call>, c2: seq<Call>)
    requires r0 <= r1 <= r2 && c0 <= c1 <= c2 && |c1| == Nexts(r1) && |c2| == Nexts(r2)
    ensures Reached(revision, r2[|r0|..], c2[|c0|..]) ==
            Reached(Reached(revision, r1[|r0|..], c1[|c0|..]), r2[|r1|..], c2[|c1|..])
  {
    NextsSplit(r1, r2[|r1|..]);
    assert r2 == r1 + r2[|r1|..];
    assert r2[|r0|..] == r1[|r0|..] + r2[|r1|..] && c2[|c0|..] == c1[|c0|..] + c2[|c1|..];
    ReachedSplit(revision, r1[|r0|..], r2[|r1|..], c1[|c0|..], c2[|c1|..]);
  }

  /** A watch is opened from where those before it, since the first revision, got to. */
  predicate GoesOnFrom(revision: string, r0: seq<Received>, r: seq<Received>, c0: seq<Call>, c: seq<Call>, o: Opening) {
    && |r0| <= o.received <= |r| && |c0| <= o.calls <= |c|
    && o.revision == Reached(revision, r[|r0|..o.received], c[|c0|..o.calls])
  }

  /** All watches from number `n` on. */
  predicate AllGoOn(revision: string, n: nat, opens: seq<Opening>, r0: seq<Received>, r: seq<Received>, c0: seq<Call>,
                    c: seq<Call>) {
    forall k | n <= k < |opens| :: GoesOnFrom(revision, r0, r, c0, c, opens[k])
  }

  /** What has happened so far. */
  datatype Story = Story(opens: seq<Opening>, received: seq<Received>, calls: seq<Call>) {
    predicate Extends(s: Story) {
      s.opens <= opens && s.received <= received && s.calls <= calls
    }

    predicate Even() {
      |calls| == Nexts(received)
    }

    function ReachedSince(s: Story, revision: string): string
      requires Extends(s)
    {
      Reached(revision, received[|s.received|..], calls[|s.calls|..])
    }

    function LastShown(s: Story): Option<Object>
      requires Extends(s)
    {
      if |calls| > |s.calls| then Some(calls[|calls| - 1].obj) else None
    }
  }

  /** The watches since `s` were opened where those before them got to, and none but the last was told that its revision
      is gone, received trouble, or made a last call. */
  ghost predicate Carried(revision: string, s: Story, t: Story) {
    && t.Extends(s)
    && (forall k | |s.opens| <= k < |t.opens| - 1 :: !t.opens[k].err.Gone?)
    && AllGoOn(revision, |s.opens|, t.opens, s.received, t.received, s.calls, t.calls)
    && (forall k | |s.received| <= k < |t.received| - 1 :: !t.received[k].Trouble?)
    && (forall j | |s.calls| <= j < |t.calls| - 1 :: GoesOn(t.calls[j]))
  }

  /** How watching ends: with the first call that is done or fails, with the first trouble, when the revision is gone,
      or with the context. */
  ghost predicate Ended(revision: string, s: Story, t: Story, last: Option<Object>, err: Err) {
    && Carried(revision, s, t)
    && (|t.opens| > |s.opens| && t.opens[|t.opens| - 1].err.Gone? ==> err == t.opens[|t.opens| - 1].err)
    && (|t.received| > |s.received| && t.received[|t.received| - 1].Trouble? ==> err != Nil)
    && last == t.LastShown(s)
    && (err == Nil <==> |t.calls| > |s.calls| && Finished(t.calls[|t.calls| - 1]))
    && (|t.calls| > |s.calls| && !GoesOn(t.calls[|t.calls| - 1]) ==> err == t.calls[|t.calls| - 1].err)
  }

  /** Nothing that ends it has happened. */
  ghost predicate Unbroken(revision: string, s: Story, t: Story, from: string, last: Option<Object>) {
    && Carried(revision, s, t)
    && (|t.opens| > |s.opens| ==> !t.opens[|t.opens| - 1].err.Gone?)
    && (|t.received| > |s.received| ==> !t.received[|t.received| - 1].Trouble?)
    && (|t.calls| > |s.calls| ==> GoesOn(t.calls[|t.calls| - 1]))
    && t.Even() && from == t.ReachedSince(s, revision) && last == t.LastShown(s)
  }

  /** One watch more. */
  ghost predicate OneMore(s: Story, t: Story, from: string, before: Option<Object>, stop: bool, next: string,
                          last: Option<Object>, err: Err) {
    && t.Extends(s) && t.Even() && |t.opens| == |s.opens| + 1
    && t.opens[|s.opens|] == Opening(from, t.opens[|s.opens|].err, |s.received|, |s.calls|)
    && (forall k | |s.received| <= k < |t.received| - 1 :: !t.received[k].Trouble?)
    && (forall j | |s.calls| <= j < |t.calls| - 1 :: GoesOn(t.calls[j]))
    && last == (if |t.calls| > |s.calls| then t.LastShown(s) else before)
    && (stop <==> err != Nil || (|t.calls| > |s.calls| && Finished(t.calls[|t.calls| - 1])))
    && (|t.calls| > |s.calls| && !GoesOn(t.calls[|t.calls| - 1]) ==> stop && err == t.calls[|t.calls| - 1].err)
    && (|t.calls| > |s.calls| && Finished(t.calls[|t.calls| - 1]) ==> err == Nil)
    && (t.opens[|s.opens|].err.Gone? ==> stop && err == t.opens[|s.opens|].err)
    && (|t.received| > |s.received| && t.received[|t.received| - 1].Trouble? ==> stop && err != Nil)
    && (!stop ==> next == t.ReachedSince(s, from))
  }

  lemma BeginsUnbroken(revision: string, s: Story)
    requires s.Even()
    ensures Unbroken(revision, s, s, revision, None)
  {
  }

  lemma CarriedOn(revision: string, s: Story, m: Story, t: Story, from: string, before: Option<Object>, stop: bool,
                  next: string, last: Option<Object>, err: Err)
    requires Unbroken(revision, s, m, from, before) && OneMore(m, t, from, before, stop, next, last, err)
    ensures Carried(revision, s, t) && t.ReachedSince(s, revision) == t.ReachedSince(m, from)
    ensures last == t.LastShown(s)
  {
    OpensGoOn(revision, from, s.opens, m.opens, t.opens, s.received, m.received, t.received, s.calls, m.calls, t.calls);
    forall k | |s.opens| <= k < |t.opens| - 1 ensures !t.opens[k].err.Gone? {
      assert t.opens[k] == m.opens[k];
    }
    forall k | |s.received| <= k < |t.received| - 1 ensures !t.received[k].Trouble? {
      assert k < |m.received| ==> t.received[k] == m.received[k];
    }
    forall j | |s.calls| <= j < |t.calls| - 1 ensures GoesOn(t.calls[j]) {
      assert j < |m.calls| ==> t.calls[j] == m.calls[j];
    }
  }

  lemma StaysUnbroken(revision: string, s: Story, m: Story, t: Story, from: string, before: Option<Object>,
                      next: string, last: Option<Object>, err: Err)
    requires Unbroken(revision, s, m, from, before) && OneMore(m, t, from, before, false, next, last, err)
    ensures Unbroken(revision, s, t, next, last)
    ensures Ended(revision, s, t, last, CANCELLED)
  {
    CarriedOn(revision, s, m, t, from, before, false, next, last, err);
  }

  lemma EndsHere(revision: string, s: Story, m: Story, t: Story, from: string, before: Option<Object>,
                 next: string, last: Option<Object>, err: Err)
    requires Unbroken(revision, s, m, from, before) && OneMore(m, t, from, before, true, next, last, err)
    ensures Ended(revision, s, t, last, err)
  {
    CarriedOn(revision, s, m, t, from, before, true, next, last, err);
  }

  lemma OpensGoOn(revision: string, from: string, o0: seq<Opening>, o1: seq<Opening>, o2: seq<Opening>,
                  r0: seq<Received>, r1: seq<Received>, r2: seq<Received>, c0: seq<Call>, c1: seq<Call>, c2: seq<Call>)
    requires r0 <= r1 <= r2 && c0 <= c1 <= c2 && |c1| == Nexts(r1) && |c2| == Nexts(r2)
    requires o0 <= o1 <= o2 && |o2| == |o1| + 1 && from == Reached(revision, r1[|r0|..], c1[|c0|..])
    requires AllGoOn(revision, |o0|, o1, r0, r1, c0, c1)
    requires o2[|o1|] == Opening(from, o2[|o1|].err, |r1|, |c1|)
    ensures AllGoOn(revision, |o0|, o2, r0, r2, c0, c2)
    ensures Reached(revision, r2[|r0|..], c2[|c0|..]) == Reached(from, r2[|r1|..], c2[|c1|..])
  {
    ReachedFurther(revision, r0, r1, r2, c0, c1, c2);
    assert r1[|r0|..|r1|] == r1[|r0|..] && c1[|c0|..|c1|] == c1[|c0|..];
    forall k | |o0| <= k < |o2| ensures GoesOnFrom(revision, r0, r2, c0, c2, o2[k]) {
      assert k < |o1| ==> o2[k] == o1[k];
      OpensStay(revision, r0, r1, r2, c0, c1, c2, o2[k]);
    }
  }

  lemma OpensStay(revision: string, r0: seq<Received>, r1: seq<Received>, r2: seq<Received>,
                  c0: seq<Call>, c1: seq<Call>, c2: seq<Call>, o: Opening)
    requires r1 <= r2 && c1 <= c2 && GoesOnFrom(revision, r0, r1, c0, c1, o)
    ensures GoesOnFrom(revision, r0, r2, c0, c2, o)
  {
    assert r2[|r0|..o.received] == r1[|r0|..o.received] && c2[|c0|..o.calls] == c1[|c0|..o.calls];
  }

  predicate Finished(call: Call) {
    call.err == Nil && call.done
  }

  /** After such a call the watch goes on, or starts again. */
  predicate GoesOn(call: Call) {
    call.err.Conflict? || (call.err == Nil && !call.done)
  }

  class Watch {
    const server: Server
    /** The event the first watch starts with. */
    const first: nat
    var listed: seq<Listed>
    var opens: seq<Opening>
    var received: seq<Received>
    var calls: seq<Call>
    /** How many more times a select finds the context alive. */
    var life: nat

    constructor (server: Server, first: nat, life: nat)
      ensures this.server == server && this.first == first && calls == [] && listed == [] && received == []
    {
      this.server, this.first, this.life, calls, listed, opens, received := server, first, life, [], [], [], [];
    }

    ghost predicate Valid()
      reads this
    {
      server.Valid() && InStep(server, first, calls) && |calls| == Nexts(received)
    }

    ghost function Now(): Story
      reads this
    {
      Story(opens, received, calls)
    }

    ghost function Position(): nat
      reads this
    {
      first + Accepted(calls)
    }

    /** `watchFunc`: it may fail in any way, or give a channel whose first event is number `at`. */
    method Open(revision: string) returns (err: Err, at: nat)
      requires exists i :: server.Resumes(revision, i)
      modifies this`opens
      ensures server.Resumes(revision, at) && opens == old(opens) + [Opening(revision, err, |received|, |calls|)]
    {
      err := *;
      opens := opens + [Opening(revision, err, |received|, |calls|)];
      at := 0;
      while at < |server.log| && server.age(server.log[at].obj.revision) <= server.age(revision)
        invariant at <= |server.log|
        invariant forall k | 0 <= k < at :: server.age(server.log[k].obj.revision) <= server.age(revision)
      {
        at := at + 1;
      }
    }

    /** Anything a channel that comes to event number `at` can yield: a bookmark's revision is "" or lies between the
        event shown last and the next one. */
    method Receive(at: nat) returns (r: Received)
      modifies this`received
      ensures received == old(received) + [r] && Nexts(received) == Nexts(old(received)) + if r == Next then 1 else 0
      ensures r == Next ==> at < |server.log|
      ensures r.Bookmark? && r.revision != "" ==> server.Resumes(r.revision, at)
      ensures r.Trouble? ==> r.err != Nil
    {
      r := *;
      if (r == Next && at >= |server.log|) || r == Trouble(Nil) ||
          (r.Bookmark? && r.revision != "" && !server.Resumes(r.revision, at)) {
        r := Closed;
      }
      assert (received + [r])[..|received|] == received;
      received := received + [r];
    }

    /** The object an event is shown with. */
    method Show(event: Event) returns (obj: Object)
      ensures ShownAs(event, obj)
    {
      obj := event.obj;
      if event.kind == Deleted {
        if obj.deletion == None {
          var now: nat := *;
          obj := obj.(deletion := Some(now));
        }
        if |obj.finalizers| > 0 {
          obj := obj.(finalizers := []);
        }
      }
    }

    /** `cb`: any answer. */
    method Callback(index: nat, obj: Object) returns (done: bool, err: Err)
      requires InStep(server, first, calls) && index == Position() && index < |server.log| &&
                 ShownAs(server.log[index], obj)
      modifies this`calls
      ensures InStep(server, first, calls) && calls == old(calls) + [Call(index, obj, done, err)]
      ensures Position() == old(Position()) + if err == Nil then 1 else 0
    {
      done := *;
      err := *;
      CallsGrow(server, first, calls, Call(index, obj, done, err));
      calls := calls + [Call(index, obj, done, err)];
    }

    /** The callback on the next event. */
    method Deliver(at: nat) returns (obj: Object, done: bool, err: Err)
      requires server.Valid() && InStep(server, first, calls) && at == Position() && at < |server.log|
      modifies this`calls
      ensures InStep(server, first, calls) && calls == old(calls) + [Call(at, obj, done, err)]
      ensures Position() == at + if err == Nil then 1 else 0
      ensures obj.revision != "" && server.Resumes(obj.revision, at + 1)
    {
      obj := Show(server.log[at]);
      done, err := Callback(at, obj);
    }

    /** One watch. It ends with the first call that is done, fails or conflicts; without one, with the channel or the
        context. */
    method DoWatch(revision: string) returns (cont: bool, lastRevision: string, nonTerminal: Err, terminal: Err)
      requires Valid() && server.Resumes(revision, Position())
      modifies this`opens, this`received, this`calls, this`life
      ensures |opens| == |old(opens)| + 1 && old(opens) <= opens
      ensures opens[|opens| - 1] == Opening(revision, opens[|opens| - 1].err, |old(received)|, |old(calls)|)
      ensures var answer := opens[|opens| - 1].err;
              answer != Nil ==>
                calls == old(calls) && received == old(received) &&
                (if answer.Gone? then terminal else nonTerminal) == answer
      ensures Valid() && old(calls) <= calls && life <= old(life)
      ensures forall j | |old(calls)| <= j < |calls| - 1 :: calls[j].err == Nil && !calls[j].done
      ensures cont <==> |calls| > |old(calls)| && Finished(calls[|calls| - 1])
      ensures |calls| > |old(calls)| && calls[|calls| - 1].err.Conflict? ==> nonTerminal == calls[|calls| - 1].err
      ensures |calls| > |old(calls)| && !GoesOn(calls[|calls| - 1]) ==>
                nonTerminal == Nil && terminal == calls[|calls| - 1].err
      ensures nonTerminal != Nil ==> terminal == Nil
      ensures old(received) <= received
      ensures forall k | |old(received)| <= k < |received| - 1 :: received[k] != Closed && !received[k].Trouble?
      ensures !cont && nonTerminal == terminal == Nil ==>
                |received| > |old(received)| && received[|received| - 1] == Closed
      ensures |received| > |old(received)| && received[|received| - 1].Trouble? ==>
                terminal == received[|received| - 1].err && terminal != Nil
      ensures !cont && lastRevision != "" ==> server.Resumes(lastRevision, Position())
      ensures !cont && lastRevision == "" ==> revision == "" && server.Resumes(revision, Position())
      ensures lastRevision == Reached(revision, received[|old(received)|..], calls[|old(calls)|..])
    {
      lastRevision := revision;
      ResumesOnce(server, revision, Position());
      var err, at := Open(revision);
      if err.Gone? {
        return false, lastRevision, Nil, err;
      } else if err != Nil {
        return false, lastRevision, err, Nil;
      }
      cont, lastRevision, nonTerminal, terminal := Follow(revision, at);
    }

    /** One turn of the loop: one thing is received, and at most one call made. */
    method Turn(revision: string, at: nat)
        returns (stop: bool, next: nat, cont: bool, lastRevision: string, nonTerminal: Err, terminal: Err)
      requires Valid() && server.Resumes(revision, at) && at == Position()
      modifies this`received, this`calls
      ensures Valid() && |received| == |old(received)| + 1 && old(received) <= received
      ensures calls == old(calls) || (|calls| == |old(calls)| + 1 && old(calls) <= calls)
      ensures !stop ==> next == Position() && server.Resumes(lastRevision, next)
      ensures !stop && lastRevision == "" ==> revision == ""
      ensures !stop ==> received[|received| - 1] != Closed && !received[|received| - 1].Trouble?
      ensures !stop && |calls| > |old(calls)| ==> calls[|calls| - 1].err == Nil && !calls[|calls| - 1].done
      ensures stop ==> (cont <==> |calls| > |old(calls)| && Finished(calls[|calls| - 1]))
      ensures stop && |calls| > |old(calls)| ==>
                received[|received| - 1] == Next && !(calls[|calls| - 1].err == Nil && !calls[|calls| - 1].done)
      ensures stop && |calls| > |old(calls)| ==>
                if calls[|calls| - 1].err.Conflict? then nonTerminal == calls[|calls| - 1].err && terminal == Nil
                else nonTerminal == Nil && terminal == calls[|calls| - 1].err
      ensures stop && calls == old(calls) ==> nonTerminal == Nil
      ensures stop && calls == old(calls) && received[|received| - 1].Trouble? ==>
                terminal == received[|received| - 1].err && terminal != Nil
      ensures stop && calls == old(calls) && !received[|received| - 1].Trouble? ==>
                received[|received| - 1] == Closed && terminal == Nil
      ensures stop ==> lastRevision == revision && (!cont ==> Position() == old(Position()))
      ensures |calls| > |old(calls)| <==> received[|received| - 1] == Next
      ensures lastRevision == Reached(revision, received[|old(received)|..], calls[|old(calls)|..])
    {
      stop, next, cont, lastRevision, nonTerminal, terminal := true, at, false, revision, Nil, Nil;
      var event := Receive(at);
      ReachedOn(revision, [], [], event);
      assert received[|old(received)|..] == [] + [event] && calls[|old(calls)|..] == [];
      match event
      case Closed =>
      case Bookmark(r) =>
        stop := false;
        if r != "" {
          lastRevision := r;
        }
      case Next =>
        var obj, done, e := Deliver(at);
        assert calls[|old(calls)|..] == [] + [Call(at, obj, done, e)];
        if e.Conflict? {
          nonTerminal := e;
        } else if e != Nil {
          terminal := e;
        } else if done {
          cont := true;
        } else {
          stop, next := false, at + 1;
          if obj.revision != "" {
            lastRevision := obj.revision;
          }
        }
      case Trouble(e) =>
        terminal := e;
      case Unknown =>
        stop := false;
    }

    /** The loop over the channel that was opened at event number `start`. */
    method Follow(revision: string, start: nat)
        returns (cont: bool, lastRevision: string, nonTerminal: Err, terminal: Err)
      requires Valid() && server.Resumes(revision, start) && start == Position()
      modifies this`received, this`calls, this`life
      ensures Valid() && old(calls) <= calls && life <= old(life)
      ensures forall j | |old(calls)| <= j < |calls| - 1 :: calls[j].err == Nil && !calls[j].done
      ensures cont <==> |calls| > |old(calls)| && Finished(calls[|calls| - 1])
      ensures |calls| > |old(calls)| && calls[|calls| - 1].err.Conflict? ==> nonTerminal == calls[|calls| - 1].err
      ensures |calls| > |old(calls)| && !GoesOn(calls[|calls| - 1]) ==>
                nonTerminal == Nil && terminal == calls[|calls| - 1].err
      ensures nonTerminal != Nil ==> terminal == Nil
      ensures old(received) <= received
      ensures forall k | |old(received)| <= k < |received| - 1 :: received[k] != Closed && !received[k].Trouble?
      ensures !cont && nonTerminal == terminal == Nil ==>
                |received| > |old(received)| && received[|received| - 1] == Closed
      ensures |received| > |old(received)| && received[|received| - 1].Trouble? ==>
                terminal == received[|received| - 1].err && terminal != Nil
      ensures !cont && lastRevision != "" ==> server.Resumes(lastRevision, Position())
      ensures !cont && lastRevision == "" ==> revision == "" && server.Resumes(revision, Position())
      ensures lastRevision == Reached(revision, received[|old(received)|..], calls[|old(calls)|..])
    {
      lastRevision := revision;
      var at := start;
      while true
        invariant Valid() && old(calls) <= calls && life <= old(life)
        invariant old(received) <= received
        invariant lastRevision == Reached(revision, received[|old(received)|..], calls[|old(calls)|..])
        invariant forall k | |old(received)| <= k < |received| :: received[k] != Closed && !received[k].Trouble?
        invariant at == Position() && server.Resumes(lastRevision, at) && (lastRevision == "" ==> revision == "")
        invariant forall j | |old(calls)| <= j < |calls| :: calls[j].err == Nil && !calls[j].done
        decreases life
      {
        if life == 0 {
          return false, lastRevision, Nil, CANCELLED;
        }
        life := life - 1;
        var stop;
        ghost var r, c := received, calls;
        stop, at, cont, lastRevision, nonTerminal, terminal := Turn(lastRevision, at);
        ReachedFurther(revision, old(received), r, received, old(calls), c, calls);
        if stop {
          return;
        }
      }
    }

    /** Watches again and again, each from where the last one got to, until the callback is done or an error is
        terminal. */
    method RetryWatch(revision: string) returns (last: Option<Object>, err: Err)
      requires Valid() && server.Resumes(revision, Position())
      modifies this`opens, this`received, this`calls, this`life
      ensures Valid() && Ended(revision, old(Now()), Now(), last, err)
    {
      var from := revision;
      last := None;
      ghost var start := Now();
      BeginsUnbroken(revision, start);
      while true
        invariant Valid() && server.Resumes(from, Position())
        invariant Unbroken(revision, start, Now(), from, last)
        decreases life
      {
        ghost var before, was := Now(), last;
        var stop, next;
        stop, next, last, err := Round(from, last);
        if stop {
          EndsHere(revision, start, before, Now(), from, was, next, last, err);
          return;
        }
        StaysUnbroken(revision, start, before, Now(), from, was, next, last, err);
        from := next;
        if life == 0 {
          return last, CANCELLED;
        }
        life := life - 1;
      }
    }

    /** One watch of the many, and whether it is the last. */
    method Round(from: string, before: Option<Object>)
        returns (stop: bool, next: string, last: Option<Object>, err: Err)
      requires Valid() && server.Resumes(from, Position())
      modifies this`opens, this`received, this`calls, this`life
      ensures Valid() && life <= old(life)
      ensures OneMore(old(Now()), Now(), from, before, stop, next, last, err)
      ensures !stop ==> server.Resumes(next, Position())
    {
      err := Nil;
      next := from;
      var made := |calls|;
      var done, lastRevision, nonTerminal, terminal := DoWatch(from);
      last := if |calls| > made then Some(calls[|calls| - 1].obj) else before;
      stop := nonTerminal == Nil && (terminal != Nil || done);
      if nonTerminal == Nil {
        err := terminal;
      }
      if lastRevision != "" {
        next := lastRevision;
      }
    }

    /** The list first: every object in turn until an error; the last one that was done wins. Then the watch, from the
        list's revision. */
    method BySelector(listing: Listing) returns (found: Option<Object>, err: Err)
      requires Valid() && calls == [] && listed == []
      requires listing.Items? ==> server.Resumes(listing.revision, first)
      requires listing.Refused? ==> listing.err != Nil
      modifies this
      ensures Valid()
      ensures listing.Refused? ==> listed == [] && calls == [] && found == None && err == listing.err
      ensures listing.Items? ==> |listed| <= |listing.items| && forall k | 0 <= k < |listed| ::
                listed[k].obj == listing.items[k]
      ensures forall k | 0 <= k < |listed| - 1 :: listed[k].err == Nil
      ensures listing.Items? && |listed| < |listing.items| ==> |listed| > 0 && listed[|listed| - 1].err != Nil
      ensures LastDone(listed).Some? || (|listed| > 0 && listed[|listed| - 1].err != Nil) ==>
                calls == [] && found == LastDone(listed) && err == listed[|listed| - 1].err
      ensures listing.Items? && LastDone(listed) == None && (|listed| > 0 ==> listed[|listed| - 1].err == Nil) ==>
                && (forall j | 0 <= j < |calls| - 1 :: GoesOn(calls[j]))
                && found == (if |calls| > 0 then Some(calls[|calls| - 1].obj) else None)
                && (err == Nil <==> |calls| > 0 && Finished(calls[|calls| - 1]))
      ensures listing.Items? && LastDone(listed) == None && (|listed| > 0 ==> listed[|listed| - 1].err == Nil) ==>
                Ended(listing.revision, old(Now()), Now(), found, err)
    {
      if listing.Refused? {
        return None, listing.err;
      }
      var doneObj: Option<Object> := None;
      err := Nil;
      var i := 0;
      while i < |listing.items| && err == Nil
        invariant 0 <= i == |listed| <= |listing.items| && Now() == old(Now())
        invariant forall k | 0 <= k < |listed| :: listed[k].obj == listing.items[k]
        invariant forall k | 0 <= k < |listed| - 1 :: listed[k].err == Nil
        invariant |listed| > 0 ==> listed[|listed| - 1].err == err
        invariant listed == [] ==> err == Nil
        invariant doneObj == LastDone(listed)
      {
        var done: bool := *;
        err := *;
        ghost var before := listed;
        listed := listed + [Listed(listing.items[i], done, err)];
        assert listed[..|listed| - 1] == before;
        if done {
          doneObj := Some(listing.items[i]);
        }
        i := i + 1;
      }
      if doneObj.Some? || err != Nil {
        return doneObj, err;
      }
      found, err := RetryWatch(listing.revision);
    }
  }

  function LastDone(listed: seq<Listed>): Option<Object> {
    if listed == [] then None
    else if listed[|listed| - 1].done then Some(listed[|listed| - 1].obj)
    else LastDone(listed[..|listed| - 1])
  }

  lemma CallsGrow(server: Server, first: nat, calls: seq<Call>, call: Call)
    requires InStep(server, first, calls)
    requires call.index == first + Accepted(calls) && call.index < |server.log| &&
               ShownAs(server.log[call.index], call.obj)
    ensures InStep(server, first, calls + [call])
    ensures Accepted(calls + [call]) == Accepted(calls) + if call.Accepted() then 1 else 0
  {
    var grown := calls + [call];
    assert grown[..|calls|] == calls;
    forall j | 0 <= j < |grown| ensures StepAt(server, first, grown, j) {
      assert j < |calls| ==> grown[..j] == calls[..j] && StepAt(server, first, calls, j);
    }
  }

  lemma ResumesOnce(server: Server, revision: string, i: nat)
    requires server.Resumes(revision, i)
    ensures forall j: nat | server.Resumes(revision, j) :: j == i
  {
    assert i < |server.log| ==> server.age(server.log[i].obj.revision) > server.age(revision);
    forall j: nat | server.Resumes(revision, j) ensures j == i {
      assert j < |server.log| ==> server.age(server.log[j].obj.revision) > server.age(revision);
    }
  }

  // ---------------------------------------------------------------- what the callback accepted

  function Taken(calls: seq<Call>): seq<nat> {
    if calls == [] then []
    else Taken(calls[..|calls| - 1]) + if calls[|calls| - 1].Accepted() then [calls[|calls| - 1].index] else []
  }

  /** Across all restarts, the accepted events are a run of the log without gap or repetition, from the first event
      on. */
  lemma {:induction false} AcceptedExactlyOnce(server: Server, first: nat, calls: seq<Call>)
    requires InStep(server, first, calls)
    ensures |Taken(calls)| == Accepted(calls)
    ensures forall i | 0 <= i < |Taken(calls)| :: Taken(calls)[i] == first + i
    ensures first + Accepted(calls) <= |server.log| || calls == []
  {
    if calls != [] {
      var before := calls[..|calls| - 1];
      forall j | 0 <= j < |before| ensures StepAt(server, first, before, j) {
        assert before[..j] == calls[..j] && StepAt(server, first, calls, j);
      }
      AcceptedExactlyOnce(server, first, before);
      assert StepAt(server, first, calls, |calls| - 1);
    }
  }

  /** An event that was not accepted, as after a conflict, is the one shown next, before any later one. */
  lemma {:induction false} ConflictComesAgain(server: Server, first: nat, calls: seq<Call>, i: nat, j: nat)
    requires InStep(server, first, calls) && i < j < |calls|
    requires forall k | i <= k < j :: !calls[k].Accepted()
    ensures calls[j].index == calls[i].index
  {
    assert calls[..j][..j - 1] == calls[..j - 1];
    assert StepAt(server, first, calls, j) && StepAt(server, first, calls, j - 1);
    if i + 1 < j {
      ConflictComesAgain(server, first, calls, i, j - 1);
    }
  }

  /** A later event is shown only after every earlier one was accepted. */
  lemma {:induction false} NothingIsSkipped(server: Server, first: nat, calls: seq<Call>, j: nat, e: nat)
    requires InStep(server, first, calls) && j < |calls| && first <= e < calls[j].index
    ensures exists i | 0 <= i < j :: calls[i].index == e && calls[i].Accepted()
  {
    assert StepAt(server, first, calls, j);
    assert calls[..j][..j - 1] == calls[..j - 1];
    assert StepAt(server, first, calls, j - 1);
    if calls[j - 1].index == e && calls[j - 1].Accepted() {
      assert 0 <= j - 1 < j;
    } else {
      NothingIsSkipped(server, first, calls, j - 1, e);
    }
  }
}
