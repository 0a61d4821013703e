/** Keys enqueued before a controller runs, and after (pkg/runtime/controller.go:50-90, 152-174, 358-425). Every step
    runs under startLock. */
module Controller {
  import opened Base
  import opened Kinds

  /** A splitter sends every key to one of its queues. */
  datatype Splitter = Splitter(queues: nat, split: string -> nat) {
    ghost predicate Valid() {
      forall key :: split(key) < queues
    }
  }

  datatype StartKey = StartKey(key: string, after: int)

  /** What was called on a work queue. */
  datatype Item = Add(key: string) | AddAfter(key: string, after: int)

  /** EnqueueKeyAfter and EnqueueAfter ask for a delay; `enqueue`, called for an informer event, does not. */
  datatype Request = Delayed(key: string, after: int) | Event(key: string)

  datatype Move = Ask(request: Request) | Run

  datatype State = State(workqueues: Option<seq<seq<Item>>>, startKeys: seq<StartKey>)

  const START := State(None, [])

  predicate Can(s: State, m: Move) {
    m == Run ==> s.workqueues == None
  }

  function Buffered(request: Request): StartKey {
    match request
    case Delayed(key, after) => StartKey(key, after)
    case Event(key) => StartKey(key, 0)
  }

  /** How a buffered key is queued when the controller runs. */
  function Released(start: StartKey): Item {
    if start.after == 0 then Add(start.key) else AddAfter(start.key, start.after)
  }

  /** How a key is queued while the controller runs. */
  function Live(request: Request): Item {
    match request
    case Delayed(key, after) => AddAfter(key, after)
    case Event(key) => Add(key)
  }

  function Pushed(splitter: Splitter, queues: seq<seq<Item>>, item: Item): seq<seq<Item>>
    requires splitter.Valid() && |queues| == splitter.queues
  {
    queues[splitter.split(item.key) := queues[splitter.split(item.key)] + [item]]
  }

  function AllReleased(splitter: Splitter, startKeys: seq<StartKey>): (r: seq<seq<Item>>)
    requires splitter.Valid()
    ensures |r| == splitter.queues
  {
    if startKeys == [] then seq(splitter.queues, i => [])
    else Pushed(splitter, AllReleased(splitter, startKeys[..|startKeys| - 1]), Released(startKeys[|startKeys| - 1]))
  }

  predicate Fits(splitter: Splitter, s: State) {
    s.workqueues.Some? ==> |s.workqueues.value| == splitter.queues
  }

  function Take(splitter: Splitter, s: State, m: Move): (t: State)
    requires splitter.Valid() && Fits(splitter, s) && Can(s, m)
    ensures Fits(splitter, t)
  {
    match m
    case Ask(request) =>
      if s.workqueues == None then s.(startKeys := s.startKeys + [Buffered(request)])
      else s.(workqueues := Some(Pushed(splitter, s.workqueues.value, Live(request))))
    case Run => State(Some(AllReleased(splitter, s.startKeys)), [])
  }

  predicate Leads(splitter: Splitter, s: State, moves: seq<Move>, t: State)
    requires splitter.Valid() && Fits(splitter, s)
    decreases |moves|
  {
    if moves == [] then t == s else Can(s, moves[0]) && Leads(splitter, Take(splitter, s, moves[0]), moves[1..], t)
  }

  // ---------------------------------------------------------------- the code

  class QueueController {
    const splitter: Splitter
    var workqueues: Option<seq<seq<Item>>>
    var startKeys: seq<StartKey>

    constructor (splitter: Splitter)
      ensures this.splitter == splitter && Now() == START
    {
      this.splitter := splitter;
      workqueues, startKeys := None, [];
    }

    ghost function Now(): State
      reads this
    {
      State(workqueues, startKeys)
    }

    ghost predicate Valid()
      reads this
    {
      splitter.Valid() && Fits(splitter, Now())
    }

    method EnqueueKeyAfter(key: string, after: int)
      requires Valid()
      modifies this
      ensures Valid() && Now() == Take(splitter, old(Now()), Ask(Delayed(key, after)))
    {
      if workqueues == None {
        startKeys := startKeys + [StartKey(key, after)];
      } else {
        Push(AddAfter(key, after));
      }
    }

    method EnqueueAfter(namespace: string, name: string, duration: int)
      requires Valid()
      modifies this
      ensures Valid() && Now() == Take(splitter, old(Now()), Ask(Delayed(ObjectKey(namespace, name).Text(), duration)))
    {
      var key := ObjectKey(namespace, name).Text();
      if workqueues == None {
        startKeys := startKeys + [StartKey(key, duration)];
      } else {
        Push(AddAfter(key, duration));
      }
    }

    /** `enqueue`: an informer event about the object of this key. */
    method EnqueueObject(key: string)
      requires Valid()
      modifies this
      ensures Valid() && Now() == Take(splitter, old(Now()), Ask(Event(key)))
    {
      if workqueues == None {
        startKeys := startKeys + [StartKey(key, 0)];
      } else {
        Push(Add(key));
      }
    }

    method Push(item: Item)
      requires Valid() && workqueues.Some?
      modifies this`workqueues
      ensures Valid() && workqueues == Some(Pushed(splitter, old(workqueues.value), item))
    {
      var queues := workqueues.value;
      var i := splitter.split(item.key);
      workqueues := Some(queues[i := queues[i] + [item]]);
    }

    /** The first part of `run`, up to where the lock is released. */
    method CreateQueues()
      requires Valid() && workqueues == None
      modifies this
      ensures Valid() && Now() == Take(splitter, old(Now()), Run)
    {
      workqueues := Some(seq(splitter.queues, i => []));
      for n := 0 to |startKeys|
        invariant Valid() && startKeys == old(startKeys)
        invariant workqueues == Some(AllReleased(splitter, startKeys[..n]))
      {
        var start := startKeys[n];
        assert startKeys[..n + 1][..n] == startKeys[..n];
        if start.after == 0 {
          Push(Add(start.key));
        } else {
          Push(AddAfter(start.key, start.after));
        }
      }
      assert startKeys[..|startKeys|] == startKeys;
      startKeys := [];
    }
  }

  // ---------------------------------------------------------------- what every run keeps

  /** The items that belong into queue `q`, in order. */
  function Routed(splitter: Splitter, items: seq<Item>, q: nat): seq<Item> {
    if items == [] then []
    else
      var last := items[|items| - 1];
      Routed(splitter, items[..|items| - 1], q) + if splitter.split(last.key) == q then [last] else []
  }

  /** The calls a run makes on its queues, in order: the requests before Run as they are released, the others as they
      come. */
  function Calls(moves: seq<Move>): seq<Item> {
    if moves == [] then []
    else Calls(moves[..|moves| - 1]) + CallsOf(moves, |moves| - 1)
  }

  /** What move number `i` of a run leads to, in the end. */
  function CallsOf(moves: seq<Move>, i: nat): seq<Item>
    requires i < |moves|
  {
    match moves[i]
    case Run => []
    case Ask(request) => [if Run in moves[..i] then Live(request) else Released(Buffered(request))]
  }

  function Starts(moves: seq<Move>): seq<StartKey> {
    if moves == [] then []
    else Starts(moves[..|moves| - 1]) + match moves[|moves| - 1] case Run => [] case Ask(request) => [Buffered(request)]
  }

  /** Before Run, every request is buffered; after, every request made so far is in the queue of its key, and only
      there. */
  ghost predicate Kept(splitter: Splitter, moves: seq<Move>, s: State) {
    if Run in moves then
      && s.startKeys == []
      && s.workqueues.Some? && |s.workqueues.value| == splitter.queues
      && forall q | 0 <= q < splitter.queues :: s.workqueues.value[q] == Routed(splitter, Calls(moves), q)
    else
      s.workqueues == None && s.startKeys == Starts(moves)
  }

  lemma {:induction false} ReleasedIsRouted(splitter: Splitter, moves: seq<Move>)
    requires splitter.Valid() && Run !in moves
    ensures forall q | 0 <= q < splitter.queues ::
              AllReleased(splitter, Starts(moves))[q] == Routed(splitter, Calls(moves), q)
  {
    if moves != [] {
      var n := |moves| - 1;
      ReleasedIsRouted(splitter, moves[..n]);
      var request := moves[n].request;
      assert Starts(moves)[..|Starts(moves)| - 1] == Starts(moves[..n]);
      RoutedGrows(splitter, Calls(moves[..n]), Released(Buffered(request)));
    }
  }

  lemma RoutedGrows(splitter: Splitter, items: seq<Item>, item: Item)
    ensures forall q: nat :: Routed(splitter, items + [item], q) ==
              Routed(splitter, items, q) + if splitter.split(item.key) == q then [item] else []
  {
    assert (items + [item])[..|items|] == items;
  }

  lemma MoveKeeps(splitter: Splitter, moves: seq<Move>, s: State, m: Move)
    requires splitter.Valid() && Kept(splitter, moves, s) && Can(s, m)
    ensures Kept(splitter, moves + [m], Take(splitter, s, m))
  {
    var more := moves + [m];
    assert more[..|moves|] == moves;
    match m
    case Run =>
      ReleasedIsRouted(splitter, moves);
      assert more[|moves|] == Run;
      assert Calls(more) == Calls(moves);
    case Ask(request) =>
      if Run in moves {
        RoutedGrows(splitter, Calls(moves), Live(request));
      }
  }

  lemma {:induction false} EveryRunKeeps(splitter: Splitter, before: seq<Move>, s: State, moves: seq<Move>, t: State)
    requires splitter.Valid() && Kept(splitter, before, s) && Leads(splitter, s, moves, t)
    ensures Kept(splitter, before + moves, t)
    decreases |moves|
  {
    if moves == [] {
      assert before + moves == before;
    } else {
      MoveKeeps(splitter, before, s, moves[0]);
      EveryRunKeeps(splitter, before + [moves[0]], Take(splitter, s, moves[0]), moves[1..], t);
      assert before + [moves[0]] + moves[1..] == before + moves;
    }
  }

  /** Over all interleavings of requests and the first run: buffered keys and queues never coexist, and once there are
      queues, queue `q` holds exactly the requests whose keys the splitter sends there, each once and in the order of
      the requests. */
  lemma EveryKeyIsQueuedOnce(splitter: Splitter, moves: seq<Move>, s: State)
    requires splitter.Valid() && Leads(splitter, START, moves, s)
    ensures s.startKeys == [] || s.workqueues == None
    ensures s.workqueues == None <==> Run !in moves
    ensures s.workqueues == None ==> s.startKeys == Starts(moves)
    ensures s.workqueues.Some? ==> |s.workqueues.value| == splitter.queues
    ensures s.workqueues.Some? ==>
              forall q | 0 <= q < splitter.queues :: s.workqueues.value[q] == Routed(splitter, Calls(moves), q)
  {
    EveryRunKeeps(splitter, [], START, moves, s);
    assert [] + moves == moves;
  }

  /** A key and how long it is to wait. */
  datatype Wait = Wait(key: string, delay: int)

  function Asked(moves: seq<Move>): seq<Wait> {
    if moves == [] then []
    else
      Asked(moves[..|moves| - 1]) +
      match moves[|moves| - 1]
      case Run => []
      case Ask(Delayed(key, after)) => [Wait(key, after)]
      case Ask(Event(key)) => [Wait(key, 0)]
  }

  /** Add makes a key wait for nothing. */
  function Waits(items: seq<Item>): seq<Wait> {
    if items == [] then []
    else
      Waits(items[..|items| - 1]) +
      match items[|items| - 1]
      case Add(key) => [Wait(key, 0)]
      case AddAfter(key, after) => [Wait(key, after)]
  }

  /** Whether it was buffered or not, every request is queued with the key and the delay it was made with. */
  lemma {:induction false} DelaysAreKept(moves: seq<Move>)
    ensures Waits(Calls(moves)) == Asked(moves)
  {
    if moves != [] {
      var n := |moves| - 1;
      DelaysAreKept(moves[..n]);
      if moves[n].Ask? {
        var item := CallsOf(moves, n)[0];
        assert Calls(moves)[..|Calls(moves)| - 1] == Calls(moves[..n]);
      } else {
        assert Calls(moves) == Calls(moves[..n]);
      }
    }
  }

  function OfKey(items: seq<Item>, key: string): seq<Item> {
    if items == [] then []
    else OfKey(items[..|items| - 1], key) + if items[|items| - 1].key == key then [items[|items| - 1]] else []
  }

  lemma OfKeyGrows(items: seq<Item>, item: Item, key: string)
    ensures OfKey(items + [item], key) == OfKey(items, key) + if item.key == key then [item] else []
  {
    assert (items + [item])[..|items|] == items;
  }

  /** The queue of a key gets all calls for that key, in order; every other queue gets none. */
  lemma {:induction false} KeyStaysInItsQueue(splitter: Splitter, items: seq<Item>, key: string, q: nat)
    ensures splitter.split(key) == q ==> OfKey(Routed(splitter, items, q), key) == OfKey(items, key)
    ensures splitter.split(key) != q ==> OfKey(Routed(splitter, items, q), key) == []
  {
    if items != [] {
      var n := |items| - 1;
      KeyStaysInItsQueue(splitter, items[..n], key, q);
      var routed := Routed(splitter, items[..n], q);
      assert Routed(splitter, items, q) == if splitter.split(items[n].key) == q then routed + [items[n]] else routed;
      OfKeyGrows(routed, items[n], key);
    }
  }

  /** Nothing is lost and nothing is added: queue lengths add up to the number of requests. */
  lemma {:induction false} RoutedAddsUp(splitter: Splitter, items: seq<Item>)
    requires splitter.Valid()
    ensures Sizes(splitter, items, splitter.queues) == |items|
  {
    if items == [] {
      NoSizes(splitter, splitter.queues);
    } else {
      var n := |items| - 1;
      RoutedAddsUp(splitter, items[..n]);
      OneMoreSize(splitter, items, splitter.queues);
    }
  }

  function Sizes(splitter: Splitter, items: seq<Item>, queues: nat): nat {
    if queues == 0 then 0 else Sizes(splitter, items, queues - 1) + |Routed(splitter, items, queues - 1)|
  }

  lemma {:induction false} NoSizes(splitter: Splitter, queues: nat)
    ensures Sizes(splitter, [], queues) == 0
  {
    if queues > 0 {
      NoSizes(splitter, queues - 1);
    }
  }

  lemma {:induction false} OneMoreSize(splitter: Splitter, items: seq<Item>, queues: nat)
    requires items != []
    ensures var n := |items| - 1;
            Sizes(splitter, items, queues) ==
            Sizes(splitter, items[..n], queues) + if splitter.split(items[n].key) < queues then 1 else 0
  {
    if queues > 0 {
      OneMoreSize(splitter, items, queues - 1);
    }
  }
}
