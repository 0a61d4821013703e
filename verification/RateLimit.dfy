/** Delaying change events of one key: a token bucket and a set of waiting keys (pkg/router/handler.go:208-253). */
module RateLimit {
  import opened Base
  import opened Kinds

  datatype LimiterKey = LimiterKey(key: string, gvk: GVK)

  /** A token bucket: what it held at `last`. A negative amount is owed. */
  datatype Limiter = Limiter(tokens: real, last: real) {
    function Holds(now: real): real {
      var filled := tokens + (now - last) * RATE;
      if filled > BURST then BURST else filled
    }

    function Reserve(now: real): Limiter {
      Limiter(Holds(now) - 1.0, now)
    }

    /** How long a reservation just made has to wait for its token. */
    function Delay(): real {
      if tokens < 0.0 then -tokens / RATE else 0.0
    }
  }

  const RATE: real := 1.0 / 5.0
  const BURST: real := 10.0

  /** A goroutine asleep until `due` at the earliest. */
  datatype Sleeper = Sleeper(key: LimiterKey, due: real)

  datatype Event = Passed(key: LimiterKey) | Dropped(key: LimiterKey) | Replayed(key: LimiterKey)

  datatype State = State(limiters: map<LimiterKey, Limiter>, waiting: set<LimiterKey>, sleeping: seq<Sleeper>,
      now: real, log: seq<Event>) {
    /** The tokens a key could take; without a limiter, a full bucket. */
    function Holds(k: LimiterKey): real {
      if k in limiters then limiters[k].Holds(now) else BURST
    }
  }

  const START := State(map[], {}, [], 0.0, [])

  datatype Move = Check(key: LimiterKey) | Wake(sleeper: nat) | Forget(key: LimiterKey) | Wait(time: real)

  predicate Can(s: State, m: Move) {
    match m
    case Wake(i) => i < |s.sleeping| && s.sleeping[i].due <= s.now
    case Wait(time) => time >= 0.0
    case _ => true
  }

  function Checked(s: State, k: LimiterKey): State {
    if k in s.waiting then s.(log := s.log + [Dropped(k)])
    else
      var bucket := if k in s.limiters then s.limiters[k] else Limiter(BURST, s.now);
      var taken := bucket.Reserve(s.now);
      var limited := s.(limiters := s.limiters[k := taken]);
      if taken.Delay() > 0.0 then
        limited.(waiting := s.waiting + {k}, sleeping := s.sleeping + [Sleeper(k, s.now + taken.Delay())],
                 log := s.log + [Dropped(k)])
      else limited.(log := s.log + [Passed(k)])
  }

  function Take(s: State, m: Move): State
    requires Can(s, m)
  {
    match m
    case Check(k) => Checked(s, k)
    case Wake(i) =>
      var k := s.sleeping[i].key;
      s.(waiting := s.waiting - {k}, sleeping := s.sleeping[..i] + s.sleeping[i + 1..], log := s.log + [Replayed(k)])
    case Forget(k) => s.(limiters := s.limiters - {k})
    case Wait(time) => s.(now := s.now + time)
  }

  predicate Leads(s: State, moves: seq<Move>, t: State)
    decreases |moves|
  {
    if moves == [] then t == s else Can(s, moves[0]) && Leads(Take(s, moves[0]), moves[1..], t)
  }

  // ---------------------------------------------------------------- the code

  class Delays {
    var limiters: map<LimiterKey, Limiter>
    var waiting: set<LimiterKey>
    var sleeping: seq<Sleeper>
    var replays: seq<LimiterKey>
    var clock: real
    ghost var log: seq<Event>

    constructor ()
      ensures Now() == START && replays == []
    {
      limiters, waiting, sleeping, replays, clock, log := map[], {}, [], [], 0.0, [];
    }

    ghost function Now(): State
      reads this
    {
      State(limiters, waiting, sleeping, clock, log)
    }

    method CheckDelay(gvk: GVK, key: string) returns (pass: bool)
      modifies this
      ensures Now() == Take(old(Now()), Check(LimiterKey(key, gvk))) && replays == old(replays)
      ensures log == old(log) + [if pass then Passed(LimiterKey(key, gvk)) else Dropped(LimiterKey(key, gvk))]
    {
      var lKey := LimiterKey(key, gvk);
      if lKey in waiting {
        log := log + [Dropped(lKey)];
        return false;
      }
      if lKey !in limiters {
        limiters := limiters[lKey := Limiter(BURST, clock)];
      }
      limiters := limiters[lKey := limiters[lKey].Reserve(clock)];
      var delay := limiters[lKey].Delay();
      if delay > 0.0 {
        waiting := waiting + {lKey};
        sleeping := sleeping + [Sleeper(lKey, clock + delay)];
        log := log + [Dropped(lKey)];
        return false;
      }
      log := log + [Passed(lKey)];
      return true;
    }

    /** A sleeper whose time has come; how late it runs is up to the scheduler. */
    method WakeUp(i: nat)
      requires Can(Now(), Wake(i))
      modifies this
      ensures Now() == Take(old(Now()), Wake(i)) && replays == old(replays) + [old(sleeping[i].key)]
    {
      var lKey := sleeping[i].key;
      sleeping := sleeping[..i] + sleeping[i + 1..];
      waiting := waiting - {lKey};
      replays := replays + [lKey];
      log := log + [Replayed(lKey)];
    }

    method ForgetBackoff(gvk: GVK, key: string)
      modifies this
      ensures Now() == Take(old(Now()), Forget(LimiterKey(key, gvk))) && replays == old(replays)
    {
      limiters := limiters - {LimiterKey(key, gvk)};
    }
  }

  // ---------------------------------------------------------------- what every run keeps

  ghost predicate Sound(s: State) {
    OneEach(s) && Level(s)
  }

  /** Exactly one sleeper for each waiting key. */
  ghost predicate OneEach(s: State) {
    && (forall k :: k in s.waiting <==> exists i :: 0 <= i < |s.sleeping| && s.sleeping[i].key == k)
    && (forall i, j | 0 <= i < j < |s.sleeping| :: s.sleeping[i].key != s.sleeping[j].key)
  }

  /** No key owes more than one token, one that does not wait owes none, and a sleeper is due when its key's bucket is
      level. */
  ghost predicate Level(s: State) {
    && (forall k | k in s.limiters :: s.limiters[k].tokens >= -1.0 && s.limiters[k].last <= s.now)
    && (forall k | k in s.limiters && k !in s.waiting :: s.Holds(k) >= 0.0)
    && (forall i | 0 <= i < |s.sleeping| && s.sleeping[i].key in s.limiters ::
         LevelAt(s.limiters[s.sleeping[i].key], s.sleeping[i].due))
    && (forall i | 0 <= i < |s.sleeping| :: s.sleeping[i].due <= s.now + 5.0)
  }

  /** At time `due` and after, nothing is owed. */
  predicate LevelAt(l: Limiter, due: real) {
    l.tokens + (due - l.last) * RATE >= 0.0
  }

  lemma CheckKeepsOneEach(s: State, k: LimiterKey)
    requires OneEach(s)
    ensures OneEach(Checked(s, k))
  {
    var t := Checked(s, k);
    if k !in s.waiting && k in t.waiting {
      forall j | j in t.waiting ensures exists i :: 0 <= i < |t.sleeping| && t.sleeping[i].key == j {
        if j == k {
          assert t.sleeping[|s.sleeping|].key == k;
        } else {
          var i :| 0 <= i < |s.sleeping| && s.sleeping[i].key == j;
          assert t.sleeping[i].key == j;
        }
      }
    }
  }

  lemma CheckKeepsLevel(s: State, k: LimiterKey)
    requires Sound(s)
    ensures Level(Checked(s, k))
  {
    if k !in s.waiting {
      var t := Checked(s, k);
      assert s.Holds(k) >= 0.0;
      assert t.limiters[k].tokens == s.Holds(k) - 1.0;
      assert forall j | j in t.limiters && j != k :: t.limiters[j] == s.limiters[j];
    }
  }

  lemma WakeKeepsOneEach(s: State, n: nat)
    requires OneEach(s) && Can(s, Wake(n))
    ensures OneEach(Take(s, Wake(n)))
  {
    var t := Take(s, Wake(n));
    forall i | 0 <= i < |t.sleeping| ensures t.sleeping[i] == s.sleeping[if i < n then i else i + 1] {
    }
    forall j | j in t.waiting ensures exists i :: 0 <= i < |t.sleeping| && t.sleeping[i].key == j {
      var i :| 0 <= i < |s.sleeping| && s.sleeping[i].key == j;
      assert t.sleeping[if i < n then i else i - 1].key == j;
    }
  }

  lemma WakeKeepsLevel(s: State, n: nat)
    requires Sound(s) && Can(s, Wake(n))
    ensures Level(Take(s, Wake(n)))
  {
    var k := s.sleeping[n].key;
    if k in s.limiters {
      assert LevelAt(s.limiters[k], s.sleeping[n].due);
    }
  }

  lemma MoveKeepsSound(s: State, m: Move)
    requires Sound(s) && Can(s, m)
    ensures Sound(Take(s, m))
  {
    match m
    case Check(k) =>
      CheckKeepsOneEach(s, k);
      CheckKeepsLevel(s, k);
    case Wake(i) =>
      WakeKeepsOneEach(s, i);
      WakeKeepsLevel(s, i);
    case Forget(_) =>
    case Wait(time) =>
      forall k | k in s.limiters ensures Take(s, m).Holds(k) >= s.Holds(k) {
      }
  }

  lemma {:induction false} EveryRunIsSound(s: State, moves: seq<Move>, t: State)
    requires Sound(s) && Leads(s, moves, t)
    ensures Sound(t)
    decreases |moves|
  {
    if moves != [] {
      MoveKeepsSound(s, moves[0]);
      EveryRunIsSound(Take(s, moves[0]), moves[1..], t);
    }
  }

  // ---------------------------------------------------------------- no event is lost

  /** Every dropped event was followed by a replay of its key, or its key is waiting. */
  ghost predicate Remembered(s: State) {
    forall i | 0 <= i < |s.log| && s.log[i].Dropped? ::
      s.log[i].key in s.waiting || exists j | i < j < |s.log| :: s.log[j] == Replayed(s.log[i].key)
  }

  lemma MoveRemembers(s: State, m: Move)
    requires Remembered(s) && Can(s, m)
    ensures Remembered(Take(s, m))
  {
    var t := Take(s, m);
    forall i | 0 <= i < |t.log| && t.log[i].Dropped?
      ensures t.log[i].key in t.waiting || exists j | i < j < |t.log| :: t.log[j] == Replayed(t.log[i].key)
    {
      if i < |s.log| {
        assert s.log[i] == t.log[i];
        if s.log[i].key in s.waiting {
          assert s.log[i].key !in t.waiting ==> t.log[|s.log|] == Replayed(t.log[i].key);
        } else {
          var j :| i < j < |s.log| && s.log[j] == Replayed(s.log[i].key);
          assert t.log[j] == s.log[j];
        }
      }
    }
  }

  lemma {:induction false} EveryRunRemembers(s: State, moves: seq<Move>, t: State)
    requires Remembered(s) && Leads(s, moves, t)
    ensures Remembered(t)
    decreases |moves|
  {
    if moves != [] {
      MoveRemembers(s, moves[0]);
      EveryRunRemembers(Take(s, moves[0]), moves[1..], t);
    }
  }

  /** In every reachable state, a dropped event has been replayed since, or exactly one replay of its key is asleep,
      due no later than five seconds from now. */
  lemma NoEventIsLost(moves: seq<Move>, s: State, i: nat)
    requires Leads(START, moves, s) && i < |s.log| && s.log[i].Dropped?
    ensures var k := s.log[i].key;
            || (exists j | i < j < |s.log| :: s.log[j] == Replayed(k))
            || (exists n | 0 <= n < |s.sleeping| ::
                  s.sleeping[n].key == k && s.sleeping[n].due <= s.now + 5.0 &&
                  forall o | 0 <= o < |s.sleeping| && s.sleeping[o].key == k :: o == n)
  {
    EveryRunIsSound(START, moves, s);
    EveryRunRemembers(START, moves, s);
    if s.log[i].key in s.waiting {
      var n :| 0 <= n < |s.sleeping| && s.sleeping[n].key == s.log[i].key;
      assert forall o | 0 <= o < |s.sleeping| && s.sleeping[o].key == s.log[i].key :: o == n;
    }
  }

  // ---------------------------------------------------------------- the rate

  /** How often a key went to its handlers at once or by a replay. */
  function Runs(log: seq<Event>, k: LimiterKey): nat {
    if log == [] then 0
    else Runs(log[..|log| - 1], k) + if log[|log| - 1] in {Passed(k), Replayed(k)} then 1 else 0
  }

  lemma RunsGrow(log: seq<Event>, e: Event, k: LimiterKey)
    ensures Runs(log + [e], k) == Runs(log, k) + if e in {Passed(k), Replayed(k)} then 1 else 0
  {
    assert (log + [e])[..|log|] == log;
  }

  /** What a key has used and may still use: its runs, the tokens it could take, and a replay already paid for. */
  function Spent(s: State, k: LimiterKey): real {
    Runs(s.log, k) as real + s.Holds(k) + if k in s.waiting then 1.0 else 0.0
  }

  /** Unless the limiter is forgotten, only time adds to what a key may use. */
  lemma MoveSpends(s: State, m: Move, k: LimiterKey)
    requires Sound(s) && Can(s, m) && m != Forget(k)
    ensures Spent(Take(s, m), k) <= Spent(s, k) + (Take(s, m).now - s.now) * RATE
  {
    var t := Take(s, m);
    match m
    case Check(j) =>
      RunsGrow(s.log, Passed(j), k);
      RunsGrow(s.log, Dropped(j), k);
    case Wake(i) =>
      RunsGrow(s.log, Replayed(s.sleeping[i].key), k);
      assert s.sleeping[i].key in s.waiting;
    case Forget(_) =>
    case Wait(_) =>
  }

  lemma {:induction false} RunSpends(s: State, moves: seq<Move>, t: State, k: LimiterKey)
    requires Sound(s) && Leads(s, moves, t) && Forget(k) !in moves
    ensures Spent(t, k) <= Spent(s, k) + (t.now - s.now) * RATE
    decreases |moves|
  {
    if moves != [] {
      MoveSpends(s, moves[0], k);
      MoveKeepsSound(s, moves[0]);
      assert forall m | m in moves[1..] :: m in moves;
      RunSpends(Take(s, moves[0]), moves[1..], t, k);
    }
  }

  /** Between any two reachable states without a forgetBackoff of the key, T seconds apart, at most 11 + T/5 runs. */
  lemma RateIsBounded(first: seq<Move>, s: State, moves: seq<Move>, t: State, k: LimiterKey)
    requires Leads(START, first, s) && Leads(s, moves, t) && Forget(k) !in moves
    ensures (Runs(t.log, k) - Runs(s.log, k)) as real <= 11.0 + (t.now - s.now) / 5.0
  {
    EveryRunIsSound(START, first, s);
    EveryRunIsSound(s, moves, t);
    RunSpends(s, moves, t, k);
    assert k in t.waiting || t.Holds(k) >= 0.0;
    assert t.Holds(k) >= -1.0;
  }

  // ---------------------------------------------------------------- the bound is met

  /** And a key is not held back longer than that: in every reachable state in which no replay of it is pending, five
      seconds later it passes at once. */
  lemma FiveSecondsAreEnough(moves: seq<Move>, s: State, k: LimiterKey, time: real)
    requires Leads(START, moves, s) && k !in s.waiting && time >= 5.0
    ensures Take(Take(s, Wait(time)), Check(k)).log == s.log + [Passed(k)]
  {
    EveryRunIsSound(START, moves, s);
    assert s.Holds(k) >= 0.0;
    assert Take(s, Wait(time)).Holds(k) >= 1.0;
  }

  function Repeated(m: Move, n: nat): seq<Move> {
    if n == 0 then [] else [m] + Repeated(m, n - 1)
  }

  lemma {:induction false} Burst(s: State, k: LimiterKey, n: nat) returns (t: State)
    requires k !in s.waiting && s.Holds(k) >= n as real
    requires k in s.limiters ==> s.limiters[k].last <= s.now
    ensures Leads(s, Repeated(Check(k), n), t)
    ensures t.waiting == s.waiting && t.sleeping == s.sleeping && t.now == s.now
    ensures t.Holds(k) == s.Holds(k) - n as real && Runs(t.log, k) == Runs(s.log, k) + n
    ensures k in t.limiters ==> t.limiters[k].last <= t.now
    decreases n
  {
    t := s;
    if n > 0 {
      var u := Checked(s, k);
      RunsGrow(s.log, Passed(k), k);
      t := Burst(u, k, n - 1);
      assert Repeated(Check(k), n)[1..] == Repeated(Check(k), n - 1);
    }
  }

  lemma {:induction false} LeadsOn(s: State, a: seq<Move>, t: State, b: seq<Move>, u: State)
    requires Leads(s, a, t) && Leads(t, b, u)
    ensures Leads(s, a + b, u)
    decreases |a|
  {
    if a == [] {
      assert a + b == b;
    } else {
      LeadsOn(Take(s, a[0]), a[1..], t, b, u);
      assert (a + b)[1..] == a[1..] + b;
    }
  }

  lemma NoForget(k: LimiterKey, n: nat)
    ensures Forget(k) !in Repeated(Check(k), n)
  {
  }

  /** A key dropped for want of a token is due for its replay exactly when the bucket will be level. */
  lemma SleepsUntilLevel(moves: seq<Move>, s: State, k: LimiterKey)
    requires Leads(START, moves, s) && k !in s.waiting && k in Checked(s, k).waiting
    ensures var t := Checked(s, k);
            && t.sleeping == s.sleeping + [Sleeper(k, t.sleeping[|s.sleeping|].due)]
            && Take(t, Wait(t.sleeping[|s.sleeping|].due - s.now)).Holds(k) == 0.0
  {
    EveryRunIsSound(START, moves, s);
    assert s.Holds(k) >= 0.0;
  }

  /** Once its limiter is forgotten, a key that is not waiting may pass ten times at once again. */
  lemma ForgottenStartsAnew(moves: seq<Move>, s: State, k: LimiterKey) returns (t: State)
    requires Leads(START, moves, s) && k !in s.waiting
    ensures Leads(Take(s, Forget(k)), Repeated(Check(k), 10), t)
    ensures t.now == s.now && Runs(t.log, k) == Runs(s.log, k) + 10
  {
    t := Burst(Take(s, Forget(k)), k, 10);
  }

  /** A replay that oversleeps until the bucket is full runs in the same instant as ten passes. */
  lemma BoundIsMet(k: LimiterKey) returns (first: seq<Move>, s: State, moves: seq<Move>, t: State)
    ensures Leads(START, first, s) && Leads(s, moves, t) && Forget(k) !in moves
    ensures t.now == s.now && Runs(t.log, k) - Runs(s.log, k) == 11
  {
    var a := Burst(START, k, 10);
    var b := Take(a, Check(k));
    s := Take(b, Wait(55.0));
    assert Leads(a, [Check(k), Wait(55.0)], s) by {
      assert [Check(k), Wait(55.0)][1..] == [Wait(55.0)];
      assert Leads(b, [Wait(55.0)], s);
    }
    first := Repeated(Check(k), 10) + [Check(k), Wait(55.0)];
    LeadsOn(START, Repeated(Check(k), 10), a, [Check(k), Wait(55.0)], s);
    assert s.sleeping == [Sleeper(k, s.sleeping[0].due)] && Can(s, Wake(0));
    var c := Take(s, Wake(0));
    RunsGrow(s.log, Replayed(k), k);
    t := Burst(c, k, 10);
    moves := [Wake(0)] + Repeated(Check(k), 10);
    assert moves[1..] == Repeated(Check(k), 10);
    NoForget(k, 10);
  }
}
