/** The pending map and its single background worker (pkg/router/trigger.go:65-73, 98-145). Every step runs under
    triggerLock. */
module TriggerWorker {
  import opened Base
  import opened Kinds
  import opened Matcher
  import opened Triggers

  /** A goroutine of kick: about to take the lock, asleep in Wait, or processing a batch with the lock released. */
  datatype Worker = Runnable | Waiting | Processing(batch: Pending)

  datatype Event = Handed(key: TriggerKey, obj: Option<Seen>) | Began(batch: Pending)

  /** `toTrigger` is None where the code holds a nil map; `log` records what was handed over and which batches began. */
  datatype State = State(toTrigger: Option<Pending>, running: bool, workers: seq<Worker>, log: seq<Event>) {
    function Waiters(): Pending {
      if toTrigger == None then map[] else toTrigger.value
    }
  }

  const START := State(None, false, [], [])

  datatype Move = Hand(key: TriggerKey, obj: Option<Seen>) | Check(worker: nat) | Finish(worker: nat)

  predicate Can(s: State, m: Move) {
    match m
    case Hand(_, _) => true
    case Check(i) => i < |s.workers| && s.workers[i] == Runnable
    case Finish(i) => i < |s.workers| && s.workers[i].Processing?
  }

  function Woken(workers: seq<Worker>): seq<Worker> {
    seq(|workers|, i requires 0 <= i < |workers| => if workers[i] == Waiting then Runnable else workers[i])
  }

  function Kicked(s: State): State {
    if s.running then s.(workers := Woken(s.workers)) else s.(running := true, workers := s.workers + [Runnable])
  }

  function Take(s: State, m: Move): State
    requires Can(s, m)
  {
    match m
    case Hand(key, obj) => Kicked(s.(toTrigger := Some(s.Waiters()[key := obj]), log := s.log + [Handed(key, obj)]))
    case Check(i) =>
      if s.Waiters() == map[] then s.(workers := s.workers[i := Waiting])
      else State(None, s.running, s.workers[i := Processing(s.Waiters())], s.log + [Began(s.Waiters())])
    case Finish(i) => s.(workers := s.workers[i := Runnable])
  }

  /** Any interleaving of callers and workers. */
  predicate Leads(r: State, moves: seq<Move>, s: State)
    decreases |moves|
  {
    if moves == [] then s == r else Can(r, moves[0]) && Leads(Take(r, moves[0]), moves[1..], s)
  }

  predicate Reaches(moves: seq<Move>, s: State) {
    Leads(START, moves, s)
  }

  // ---------------------------------------------------------------- the code

  class TriggerQueue {
    var toTrigger: Option<Pending>
    var triggerRunning: bool
    var workers: seq<Worker>
    ghost var log: seq<Event>
    const index: TriggerIndex

    constructor (index: TriggerIndex)
      ensures Now() == START && this.index == index
    {
      this.index := index;
      toTrigger, triggerRunning, workers, log := None, false, [], [];
    }

    ghost function Now(): State
      reads this
    {
      State(toTrigger, triggerRunning, workers, log)
    }

    /** Trigger with the object, UnregisterAndTrigger with None. */
    method Trigger(key: TriggerKey, obj: Option<Seen>)
      modifies this
      ensures Now() == Take(old(Now()), Hand(key, obj))
    {
      if toTrigger == None {
        toTrigger := Some(map[]);
      }
      toTrigger := Some(toTrigger.value[key := obj]);
      log := log + [Handed(key, obj)];
      Kick();
    }

    method Kick()
      modifies this
      ensures Now() == Kicked(old(Now()))
    {
      if triggerRunning {
        workers := Woken(workers);
        return;
      }
      triggerRunning := true;
      workers := workers + [Runnable];
    }

    /** The worker holds the lock at the top of its loop. */
    method LoopTop(i: nat)
      requires Can(Now(), Check(i))
      modifies this
      ensures Now() == Take(old(Now()), Check(i))
    {
      if toTrigger == None || |toTrigger.value| == 0 {
        workers := workers[i := Waiting];
        return;
      }
      var workingTrigger := toTrigger.value;
      toTrigger := None;
      workers := workers[i := Processing(workingTrigger)];
      log := log + [Began(workingTrigger)];
    }

    /** The batch is processed with the lock released, which the worker then takes again. */
    method Work(i: nat)
      requires Can(Now(), Finish(i))
      modifies this, index
      ensures Now() == Take(old(Now()), Finish(i))
      ensures index.matchers == Cleaned(old(workers[i].batch), old(index.matchers))
      ensures Elements(index.enqueued) ==
                Elements(old(index.enqueued)) + Fired(index.how, old(workers[i].batch), old(index.matchers))
    {
      var checks := index.Process(workers[i].batch);
      workers := workers[i := Runnable];
    }
  }

  // ---------------------------------------------------------------- what every run keeps

  /** What is still waiting after a log: everything handed over since the last batch began, latest object first. */
  function WaitingAfter(log: seq<Event>): Pending {
    if log == [] then map[]
    else match log[|log| - 1]
      case Handed(key, obj) => WaitingAfter(log[..|log| - 1])[key := obj]
      case Began(_) => map[]
  }

  ghost predicate BatchesAreWhole(log: seq<Event>) {
    forall j | 0 <= j < |log| && log[j].Began? :: log[j].batch == WaitingAfter(log[..j]) && log[j].batch != map[]
  }

  /** At most one worker, none asleep while something waits, and no batch but the last one in progress. */
  ghost predicate Sound(s: State) {
    && |s.workers| == (if s.running then 1 else 0)
    && (s.Waiters() != map[] ==> s.running && s.workers[0] != Waiting)
    && s.Waiters() == WaitingAfter(s.log)
    && BatchesAreWhole(s.log)
    && (s.running && s.workers[0].Processing? ==> InProgress(s.log, s.workers[0].batch))
  }

  ghost predicate InProgress(log: seq<Event>, batch: Pending) {
    exists j :: 0 <= j < |log| && log[j] == Began(batch) && forall k | j < k < |log| :: log[k].Handed?
  }

  lemma LogGrows(log: seq<Event>, e: Event)
    requires BatchesAreWhole(log)
    requires e.Began? ==> e.batch == WaitingAfter(log) && e.batch != map[]
    ensures BatchesAreWhole(log + [e])
    ensures WaitingAfter(log + [e]) == if e.Handed? then WaitingAfter(log)[e.key := e.obj] else map[]
    ensures e.Began? ==> InProgress(log + [e], e.batch)
    ensures forall b | e.Handed? && InProgress(log, b) :: InProgress(log + [e], b)
  {
    var grown := log + [e];
    assert grown[..|log|] == log;
    forall j | 0 <= j < |grown| && grown[j].Began? ensures grown[j].batch == WaitingAfter(grown[..j]) &&
        grown[j].batch != map[] {
      assert j < |log| ==> grown[..j] == log[..j];
    }
    assert grown[|log|] == e;
    forall b | e.Handed? && InProgress(log, b) ensures InProgress(grown, b) {
      var j :| 0 <= j < |log| && log[j] == Began(b) && forall k | j < k < |log| :: log[k].Handed?;
      assert grown[j] == Began(b);
    }
  }

  lemma MoveKeepsSound(s: State, m: Move)
    requires Sound(s) && Can(s, m)
    ensures Sound(Take(s, m))
  {
    match m
    case Hand(key, obj) =>
      LogGrows(s.log, Handed(key, obj));
      var t := Take(s, m);
      assert s.running ==> t.workers[0] == (if s.workers[0] == Waiting then Runnable else s.workers[0]);
    case Check(i) =>
      if s.Waiters() != map[] {
        LogGrows(s.log, Began(s.Waiters()));
      }
    case Finish(_) =>
  }

  lemma {:induction false} EveryRunIsSound(r: State, moves: seq<Move>, s: State)
    requires Sound(r) && Leads(r, moves, s)
    ensures Sound(s)
    decreases |moves|
  {
    if moves != [] {
      MoveKeepsSound(r, moves[0]);
      EveryRunIsSound(Take(r, moves[0]), moves[1..], s);
    }
  }

  /** The object last handed over for a key, if any was. */
  function Latest(log: seq<Event>, key: TriggerKey): Option<Option<Seen>> {
    if log == [] then None
    else if log[|log| - 1].Handed? && log[|log| - 1].key == key then Some(log[|log| - 1].obj)
    else Latest(log[..|log| - 1], key)
  }

  lemma {:induction false} WaitingIsLatest(log: seq<Event>, key: TriggerKey)
    ensures key in WaitingAfter(log) ==> Latest(log, key) == Some(WaitingAfter(log)[key])
  {
    if log != [] && log[|log| - 1].Handed? {
      WaitingIsLatest(log[..|log| - 1], key);
    }
  }

  /** A batch that took the key with the object last handed over before it began. */
  predicate TookLatest(log: seq<Event>, j: nat, key: TriggerKey) {
    j < |log| && log[j].Began? && key in log[j].batch && Latest(log[..j], key) == Some(log[j].batch[key])
  }

  lemma {:induction false} HandedIsCovered(log: seq<Event>, i: nat)
    requires BatchesAreWhole(log) && i < |log| && log[i].Handed?
    ensures log[i].key in WaitingAfter(log) || exists j | i < j < |log| :: TookLatest(log, j, log[i].key)
  {
    var n, key := |log| - 1, log[i].key;
    if i < n {
      var before := log[..n];
      assert forall j | 0 <= j < n :: before[..j] == log[..j];
      HandedIsCovered(before, i);
      if key in WaitingAfter(before) {
        if log[n].Began? {
          WaitingIsLatest(before, key);
          assert TookLatest(log, n, key);
        }
      } else {
        var j :| i < j < n && TookLatest(before, j, key);
        assert TookLatest(log, j, key);
      }
    }
  }

  /** No lost trigger: in every reachable state, a key handed over is still pending with its latest object, or a batch
      begun after that call took it with what was then its latest object. That batch is in progress, or done. */
  lemma NoTriggerIsLost(moves: seq<Move>, s: State, i: nat)
    requires Reaches(moves, s) && i < |s.log| && s.log[i].Handed?
    ensures var key := s.log[i].key;
            || (key in s.Waiters() && Latest(s.log, key) == Some(s.Waiters()[key]))
            || exists j | i < j < |s.log| :: TookLatest(s.log, j, key)
  {
    EveryRunIsSound(START, moves, s);
    HandedIsCovered(s.log, i);
    WaitingIsLatest(s.log, s.log[i].key);
  }

  lemma {:induction false} WaitingWasHanded(log: seq<Event>, key: TriggerKey)
    requires key in WaitingAfter(log)
    ensures exists i | 0 <= i < |log| :: log[i] == Handed(key, WaitingAfter(log)[key]) && forall k | i < k < |log| ::
              log[k].Handed?
  {
    var n := |log| - 1;
    if log[n] != Handed(key, WaitingAfter(log)[key]) {
      WaitingWasHanded(log[..n], key);
      var i :| 0 <= i < n && log[..n][i] == Handed(key, WaitingAfter(log)[key]) && forall k | i < k < n ::
          log[..n][k].Handed?;
      assert log[i] == Handed(key, WaitingAfter(log)[key]);
      assert forall k | i < k < n :: log[k] == log[..n][k];
    }
  }

  /** Nothing runs twice: a key in a batch was handed over after the batch before it began. */
  lemma BatchesAreFresh(moves: seq<Move>, s: State, a: nat, b: nat, key: TriggerKey)
    requires Reaches(moves, s) && a < b < |s.log| && s.log[a].Began? && s.log[b].Began? && key in s.log[b].batch
    ensures exists i | a < i < b :: s.log[i] == Handed(key, s.log[b].batch[key])
  {
    EveryRunIsSound(START, moves, s);
    var before := s.log[..b];
    WaitingWasHanded(before, key);
    var i :| 0 <= i < b && before[i] == Handed(key, s.log[b].batch[key]) && forall k | i < k < b :: before[k].Handed?;
    assert before[a] == s.log[a];
    assert s.log[i] == before[i];
  }

  /** What waits never waits for another call: the one worker is awake, and its next two steps begin a batch of all of
      it. */
  lemma PendingIsTaken(moves: seq<Move>, s: State)
    requires Reaches(moves, s) && s.Waiters() != map[]
    ensures |s.workers| == 1
    ensures s.workers[0].Processing? || Can(s, Check(0))
    ensures var free := if s.workers[0].Processing? then Take(s, Finish(0)) else s;
            Can(free, Check(0)) && Take(free, Check(0)).log == s.log + [Began(s.Waiters())]
  {
    EveryRunIsSound(START, moves, s);
  }
}
