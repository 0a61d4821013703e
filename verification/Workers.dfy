/** The workers of a controller: one loop for each queue, and a semaphore for its handlers
    (pkg/runtime/controller.go:246-302). */
module Workers {

  /** Where the loop of a queue is: in Get, between Get and the semaphore, between the semaphore and the check for
      shutdown, or gone. */
  datatype Loop = Getting | Holding | Acquired | Gone(keptSlot: bool)

  /** `slots` are taken in the channel `running`, `handlers` are goroutines that process an item. */
  datatype Queue = Queue(loop: Loop, slots: nat, handlers: nat, shuttingDown: bool)

  const IDLE := Queue(Getting, 0, 0, false)

  datatype Step = Get | Acquire | Launch | Finish | ShutDown

  /** How many handlers one queue may run. */
  function Share(workers: nat, queues: nat): nat
    requires queues > 0
  {
    if workers / queues == 0 then 1 else workers / queues
  }

  predicate Can(share: nat, q: Queue, step: Step) {
    match step
    case Get => q.loop == Getting
    case Acquire => q.loop == Holding && q.slots < share
    case Launch => q.loop == Acquired
    case Finish => q.handlers > 0 && q.slots > 0
    case ShutDown => true
  }

  /** `item` says whether Get, on a queue that is shut down, still hands out an item. */
  function Next(q: Queue, step: Step, item: bool): Queue
    requires step == Finish ==> q.handlers > 0 && q.slots > 0
  {
    match step
    case Get => if q.shuttingDown && !item then q.(loop := Gone(false)) else q.(loop := Holding)
    case Acquire => q.(loop := Acquired, slots := q.slots + 1)
    case Launch => if q.shuttingDown then q.(loop := Gone(true)) else q.(loop := Getting, handlers := q.handlers + 1)
    case Finish => q.(slots := q.slots - 1, handlers := q.handlers - 1)
    case ShutDown => q.(shuttingDown := true)
  }

  datatype Move = Move(queue: nat, step: Step, item: bool)

  predicate Leads(share: nat, s: seq<Queue>, moves: seq<Move>, t: seq<Queue>)
    decreases |moves|
  {
    if moves == [] then t == s
    else
      var m := moves[0];
      m.queue < |s| && Can(share, s[m.queue], m.step) &&
      Leads(share, s[m.queue := Next(s[m.queue], m.step, m.item)], moves[1..], t)
  }

  /** A slot for every handler, and one for an item that has passed the semaphore but is not running. */
  predicate Sound(share: nat, q: Queue) {
    && q.slots == q.handlers + (if q.loop == Acquired || q.loop == Gone(true) then 1 else 0)
    && q.slots <= share
  }

  lemma {:induction false} EveryRunIsSound(share: nat, s: seq<Queue>, moves: seq<Move>, t: seq<Queue>)
    requires forall i | 0 <= i < |s| :: Sound(share, s[i])
    requires Leads(share, s, moves, t)
    ensures |t| == |s| && forall i | 0 <= i < |t| :: Sound(share, t[i])
    decreases |moves|
  {
    if moves != [] {
      var m := moves[0];
      EveryRunIsSound(share, s[m.queue := Next(s[m.queue], m.step, m.item)], moves[1..], t);
    }
  }

  function Handlers(s: seq<Queue>): nat {
    if s == [] then 0 else Handlers(s[..|s| - 1]) + s[|s| - 1].handlers
  }

  lemma {:induction false} HandlersAreFew(share: nat, s: seq<Queue>)
    requires forall i | 0 <= i < |s| :: s[i].handlers <= share
    ensures Handlers(s) <= |s| * share
  {
    if s != [] {
      HandlersAreFew(share, s[..|s| - 1]);
      assert |s| * share == (|s| - 1) * share + share;
    }
  }

  lemma SharesFit(workers: nat, queues: nat)
    requires queues > 0
    ensures queues * Share(workers, queues) <= if workers < queues then queues else workers
  {
    assert workers == workers / queues * queues + workers % queues;
    if workers / queues == 0 {
      assert workers < queues;
    } else {
      assert workers / queues * queues >= queues;
    }
  }

  /** In every reachable state, all queues together run no more handlers than there are workers, or queues if that is
      more. */
  lemma HandlersAreBounded(workers: nat, queues: nat, moves: seq<Move>, t: seq<Queue>)
    requires queues > 0
    requires Leads(Share(workers, queues), seq(queues, _ => IDLE), moves, t)
    ensures Handlers(t) <= if workers < queues then queues else workers
  {
    var share := Share(workers, queues);
    EveryRunIsSound(share, seq(queues, _ => IDLE), moves, t);
    assert forall i | 0 <= i < |t| :: Sound(share, t[i]);
    HandlersAreFew(share, t);
    SharesFit(workers, queues);
  }

  /** No handler is stuck on its way out: it always has a slot to give back. */
  lemma HandlersFinish(workers: nat, queues: nat, moves: seq<Move>, t: seq<Queue>, i: nat)
    requires queues > 0 && i < queues
    requires Leads(Share(workers, queues), seq(queues, _ => IDLE), moves, t)
    ensures i < |t| && (t[i].handlers > 0 ==> Can(Share(workers, queues), t[i], Finish))
    ensures t[i].loop == Holding && t[i].handlers == 0 ==> Can(Share(workers, queues), t[i], Acquire)
  {
    EveryRunIsSound(Share(workers, queues), seq(queues, _ => IDLE), moves, t);
    assert Sound(Share(workers, queues), t[i]);
  }

  /** As long as a queue runs no handler, or fewer than its part of the workers, an item in hand is launched in two
      steps. */
  lemma SpareSlotLaunches(workers: nat, queues: nat, q: Queue)
    requires queues > 0 && q.loop == Holding && !q.shuttingDown
    requires q.slots == 0 || (q.slots + 1) * queues <= workers
    ensures Can(Share(workers, queues), q, Acquire)
    ensures var acquired := Next(q, Acquire, true);
            Can(Share(workers, queues), acquired, Launch) &&
            Next(acquired, Launch, true) == q.(loop := Getting, slots := q.slots + 1, handlers := q.handlers + 1)
  {
    FitsInShare(workers, queues, q.slots);
  }

  lemma FitsInShare(workers: nat, queues: nat, slots: nat)
    requires queues > 0 && (slots == 0 || (slots + 1) * queues <= workers)
    ensures slots < Share(workers, queues)
  {
    assert workers < (workers / queues) * queues + queues;
    if slots > workers / queues - 1 {
      TimesGrows(workers / queues, slots, queues);
    }
  }

  lemma TimesGrows(a: nat, b: nat, n: nat)
    requires a <= b
    ensures a * n + n <= (b + 1) * n
  {
    assert (b + 1) * n == a * n + (b - a) * n + n;
  }

  lemma {:induction false} LeadsOn(share: nat, s: seq<Queue>, moves: seq<Move>, t: seq<Queue>, m: Move)
    requires Leads(share, s, moves, t) && m.queue < |t| && Can(share, t[m.queue], m.step)
    ensures Leads(share, s, moves + [m], t[m.queue := Next(t[m.queue], m.step, m.item)])
    decreases |moves|
  {
    if moves == [] {
      assert [] + [m] == [m] && [m][1..] == [];
    } else {
      var n := moves[0];
      LeadsOn(share, s[n.queue := Next(s[n.queue], n.step, n.item)], moves[1..], t, m);
      assert (moves + [m])[1..] == moves[1..] + [m] && (moves + [m])[0] == n;
    }
  }

  /** So the bound is met: with items enough, a queue comes to run its whole part of the workers. */
  lemma {:induction false} QueueFillsUp(workers: nat, queues: nat, i: nat, n: nat)
      returns (moves: seq<Move>, t: seq<Queue>)
    requires i < queues && (n <= 1 || n * queues <= workers)
    ensures Leads(Share(workers, queues), seq(queues, _ => IDLE), moves, t)
    ensures |t| == queues && t[i] == Queue(Getting, n, n, false)
    decreases n
  {
    var share, start := Share(workers, queues), seq(queues, _ => IDLE);
    if n == 0 {
      return [], start;
    }
    assert n * queues == (n - 1) * queues + queues;
    moves, t := QueueFillsUp(workers, queues, i, n - 1);
    SpareSlotLaunches(workers, queues, Queue(Holding, n - 1, n - 1, false));
    LeadsOn(share, start, moves, t, Move(i, Get, true));
    var held := t[i := Next(t[i], Get, true)];
    LeadsOn(share, start, moves + [Move(i, Get, true)], held, Move(i, Acquire, true));
    var acquired := held[i := Next(held[i], Acquire, true)];
    LeadsOn(share, start, moves + [Move(i, Get, true)] + [Move(i, Acquire, true)], acquired, Move(i, Launch, true));
    t := acquired[i := Next(acquired[i], Launch, true)];
    moves := moves + [Move(i, Get, true)] + [Move(i, Acquire, true)] + [Move(i, Launch, true)];
  }
}
