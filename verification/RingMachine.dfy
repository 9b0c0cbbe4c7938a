/**
 The single-producer single-consumer frame ring at the granularity of its atomic accesses.

 One producer, one consumer and any number of statistics observers share the index words, the slots, the
 watermark and the counters. Every action performs exactly one atomic access (or one slot copy) and is
 sequentially consistent. An action that its thread is not ready to take leaves the state alone, so a run is
 simply a sequence of actions.

 Index words are read modulo `m`. `m == 0` stands for unbounded indices, which is the form the invariants
 are stated on; RingWords.dfy relates it to real `size_t` words.
*/
module RingMachine {
  import opened Frames

  // Positions of the nine interval counters, in the order in which a snapshot visits them.
  const RECEIVED := 0
  const QUEUED := 1
  const DELIVERED := 2
  const DROPPED := 3
  const OVERFLOWS := 4
  const COUNTERS := 9

  datatype Producer =
    | PIdle
    | PLoadHead(frame: RawCanFrame)
    | PLoadTail(frame: RawCanFrame, head: nat)
    | PCountDrop
    | PCountOverflow
    | PWriteSlot(frame: RawCanFrame, head: nat, tail: nat)
    | PPublish(frame: RawCanFrame, head: nat, tail: nat)
    | PLoadMark(depth: int)
    | PRaise(depth: int, seen: int)
    | PCountQueued

  datatype Consumer =
    | CIdle
    | CLoadHead(tail: nat)
    | CReadSlot(tail: nat)
    | CPublish(tail: nat, frame: RawCanFrame)
    | CCount

  /** Which depth read of a snapshot is under way: the first one, or the one that follows the reset. */
  datatype Purpose = Sample(reset: bool) | Reconcile

  /**
   `start`, `retries`, `tailSeen` and `depthSeen` are history: the pop count when the depth read began, the
   number of times it started over, and the pop count and depth at the instant head was loaded.
  */
  datatype Observer =
    | OIdle
    | OTailBefore(purpose: Purpose, start: nat, retries: nat)
    | OHead(purpose: Purpose, start: nat, retries: nat, tailBefore: nat)
    | OTailAfter(purpose: Purpose, start: nat, retries: nat, tailBefore: nat, head: nat,
                 tailSeen: nat, depthSeen: int)
    | OCounters(reset: bool, depth: int, got: seq<nat>)
    | OLoadMark(depth: int)
    | ORaise(depth: int, seen: int)

  /**
   History variables: `accepted` lists the published frames and `popped` those that left the ring again, delivered or
   discarded by clear(); `recorded` counts every event ever recorded, `reports` holds the counter part of every
   completed reset snapshot.
  */
  datatype State = State(
    slots: seq<RawCanFrame>,
    head: nat,
    tail: nat,
    mark: int,
    counters: seq<nat>,
    producer: Producer,
    consumer: Consumer,
    observers: seq<Observer>,
    accepted: seq<RawCanFrame>,
    popped: seq<RawCanFrame>,
    recorded: seq<nat>,
    reports: seq<seq<nat>>)

  /**
   `spurious` lets a weak compare-exchange fail although the expected value is there. clear(), whose caller keeps
   producer and consumer away, is Discard (so that head is the same when tail is stored), a reset snapshot by one of
   the observers, and ZeroMark, at which the ring is still empty.
  */
  datatype Action =
    | BeginPush(frame: RawCanFrame)
    | Produce(spurious: bool)
    | Consume
    | RecordEvent(counter: nat, count: nat)
    | BeginSnapshot(observer: nat, reset: bool)
    | Observe(observer: nat, spurious: bool)
    | Discard
    | ZeroMark

  function Successor(m: nat, word: nat): nat {
    if m == 0 then word + 1 else (word + 1) % m
  }

  /** Unsigned subtraction of index words. */
  function Distance(m: nat, a: nat, b: nat): int {
    if m == 0 then a - b else (a - b) % m
  }

  function Record(s: State, counter: nat, count: nat): State {
    if counter < |s.counters| && counter < |s.recorded| then
      s.(counters := s.counters[counter := s.counters[counter] + count],
         recorded := s.recorded[counter := s.recorded[counter] + count])
    else s
  }

  /** The next atomic access of push(). */
  function ProducerStep(c: nat, m: nat, s: State, spurious: bool): State
    requires c > 0
  {
    match s.producer
    case PIdle => s
    case PLoadHead(frame) => s.(producer := PLoadTail(frame, s.head))
    case PLoadTail(frame, head) =>
      if Distance(m, head, s.tail) >= c then s.(producer := PCountDrop)
      else s.(producer := PWriteSlot(frame, head, s.tail))
    case PCountDrop => Record(s, DROPPED, 1).(producer := PCountOverflow)
    case PCountOverflow => Record(s, OVERFLOWS, 1).(producer := PIdle)
    case PWriteSlot(frame, head, tail) =>
      if head % c < |s.slots| then
        s.(slots := s.slots[head % c := frame], producer := PPublish(frame, head, tail))
      else s
    case PPublish(frame, head, tail) =>
      s.(head := Successor(m, head),
         accepted := s.accepted + [frame],
         producer := PLoadMark(Distance(m, Successor(m, head), tail)))
    case PLoadMark(depth) =>
      s.(producer := if depth > s.mark then PRaise(depth, s.mark) else PCountQueued)
    case PRaise(depth, seen) =>
      if s.mark == seen && !spurious then s.(mark := depth, producer := PCountQueued)
      else s.(producer := if depth > s.mark then PRaise(depth, s.mark) else PCountQueued)
    case PCountQueued => Record(s, QUEUED, 1).(producer := PIdle)
  }

  /** The next atomic access of pop(). */
  function ConsumerStep(c: nat, m: nat, s: State): State
    requires c > 0
  {
    match s.consumer
    case CIdle => s.(consumer := CLoadHead(s.tail))
    case CLoadHead(tail) =>
      if tail == s.head then s.(consumer := CIdle) else s.(consumer := CReadSlot(tail))
    case CReadSlot(tail) =>
      if tail % c < |s.slots| then s.(consumer := CPublish(tail, s.slots[tail % c])) else s
    case CPublish(tail, frame) =>
      s.(tail := Successor(m, tail), popped := s.popped + [frame], consumer := CCount)
    case CCount => Record(s, DELIVERED, 1).(consumer := CIdle)
  }

  function SetObserver(s: State, i: nat, o: Observer): State
    requires i < |s.observers|
  {
    s.(observers := s.observers[i := o])
  }

  function DepthTaken(purpose: Purpose, depth: int): Observer {
    match purpose
    case Sample(reset) => OCounters(reset, depth, [])
    case Reconcile => OLoadMark(depth)
  }

  /** The next atomic access of observer i's snapshot(). */
  function ObserverStep(c: nat, m: nat, s: State, i: nat, spurious: bool): State
    requires i < |s.observers|
  {
    match s.observers[i]
    case OIdle => s
    case OTailBefore(p, start, retries) => SetObserver(s, i, OHead(p, start, retries, s.tail))
    case OHead(p, start, retries, tailBefore) =>
      SetObserver(s, i, OTailAfter(p, start, retries, tailBefore, s.head,
                                   |s.popped|, |s.accepted| - |s.popped|))
    case OTailAfter(p, start, retries, tailBefore, head, _, _) =>
      var distance := Distance(m, head, s.tail);
      if tailBefore != s.tail || !(0 <= distance <= c) then
        SetObserver(s, i, OTailBefore(p, start, retries + 1))
      else
        SetObserver(s, i, DepthTaken(p, distance))
    case OCounters(reset, depth, got) =>
      if |got| < |s.counters| then
        var k := |got|;
        var s1 := if reset then s.(counters := s.counters[k := 0]) else s;
        SetObserver(s1, i, OCounters(reset, depth, got + [s.counters[k]]))
      else if reset then
        SetObserver(s.(mark := depth, reports := s.reports + [got]), i, OTailBefore(Reconcile, |s.popped|, 0))
      else
        SetObserver(s, i, OIdle)
    case OLoadMark(depth) =>
      SetObserver(s, i, if s.mark < depth then ORaise(depth, s.mark) else OIdle)
    case ORaise(depth, seen) =>
      if s.mark == seen && !spurious then SetObserver(s.(mark := depth), i, OIdle)
      else SetObserver(s, i, if s.mark < depth then ORaise(depth, s.mark) else OIdle)
  }

  /** No push and no pop is in progress. */
  predicate Undisturbed(s: State) {
    s.producer.PIdle? && s.consumer.CIdle?
  }

  function Step(c: nat, m: nat, s: State, a: Action): State
    requires c > 0
  {
    match a
    case BeginPush(frame) =>
      if s.producer.PIdle? then Record(s, RECEIVED, 1).(producer := PLoadHead(frame)) else s
    case Produce(spurious) => ProducerStep(c, m, s, spurious)
    case Consume => ConsumerStep(c, m, s)
    case RecordEvent(counter, count) =>
      if OVERFLOWS < counter < COUNTERS then Record(s, counter, count) else s
    case BeginSnapshot(i, reset) =>
      if i < |s.observers| && s.observers[i].OIdle? then
        SetObserver(s, i, OTailBefore(Sample(reset), |s.popped|, 0))
      else s
    case Observe(i, spurious) =>
      if i < |s.observers| then ObserverStep(c, m, s, i, spurious) else s
    case Discard => if Undisturbed(s) then s.(tail := s.head, popped := s.accepted) else s
    case ZeroMark => if Undisturbed(s) && s.head == s.tail then s.(mark := 0) else s
  }

  /** An empty ring of capacity `c` watched by `n` observers. The slots' initial content is irrelevant. */
  function Initial(c: nat, n: nat, blank: RawCanFrame): State {
    State(seq(c, i => blank), 0, 0, 0, seq(COUNTERS, i => 0), PIdle, CIdle, seq(n, i => OIdle),
          [], [], seq(COUNTERS, i => 0), [])
  }

  function Run(c: nat, m: nat, s: State, actions: seq<Action>): State
    requires c > 0
  {
    if actions == [] then s
    else Step(c, m, Run(c, m, s, actions[..|actions| - 1]), actions[|actions| - 1])
  }
}
