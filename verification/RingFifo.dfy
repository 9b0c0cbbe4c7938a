/**
 What the interleaved ring means: it refines a bounded drop-newest FIFO, the slot being written is never the
 slot being read, and the retrying depth read is exact.
*/
module RingFifo {
  import opened Frames
  import opened RingMachine
  import opened RingSafety

  datatype Offered = Nothing | Pending(frame: RawCanFrame)

  /** The specification: a queue, and the frame the producer is currently offering. */
  datatype Fifo = Fifo(queue: seq<RawCanFrame>, offered: Offered)

  datatype Event =
    | Offer(frame: RawCanFrame)
    | Accept
    | Reject
    | Take(frame: RawCanFrame)
    | Clear(frames: seq<RawCanFrame>)
    | Empty
    | Silent

  datatype Replayed = Impossible | Reached(fifo: Fifo)

  /** Drop-newest: an offer is refused only by a full queue; an empty answer only comes from an empty queue. */
  function Apply(c: nat, q: Fifo, e: Event): Replayed {
    match e
    case Offer(frame) => if q.offered.Nothing? then Reached(q.(offered := Pending(frame))) else Impossible
    case Accept =>
      if q.offered.Pending? && |q.queue| < c then Reached(Fifo(q.queue + [q.offered.frame], Nothing))
      else Impossible
    case Reject => if q.offered.Pending? && |q.queue| == c then Reached(q.(offered := Nothing)) else Impossible
    case Take(frame) =>
      if q.queue != [] && q.queue[0] == frame then Reached(q.(queue := q.queue[1..])) else Impossible
    case Clear(frames) => if q == Fifo(frames, Nothing) then Reached(q.(queue := [])) else Impossible
    case Empty => if q.queue == [] then Reached(q) else Impossible
    case Silent => Reached(q)
  }

  function Replay(c: nat, events: seq<Event>): Replayed {
    if events == [] then Reached(Fifo([], Nothing))
    else
      match Replay(c, events[..|events| - 1])
      case Impossible => Impossible
      case Reached(q) => Apply(c, q, events[|events| - 1])
  }

  /** When each event is possible: exactly the histories of a bounded queue that drops the newest frame when full. */
  lemma LegalEvents(c: nat, q: Fifo, frame: RawCanFrame, frames: seq<RawCanFrame>)
    ensures Apply(c, q, Offer(frame)).Reached? <==> q.offered == Nothing
    ensures Apply(c, q, Accept).Reached? <==> q.offered != Nothing && |q.queue| < c
    ensures Apply(c, q, Reject).Reached? <==> q.offered != Nothing && |q.queue| == c
    ensures Apply(c, q, Take(frame)).Reached? <==> |q.queue| > 0 && q.queue[0] == frame
    ensures Apply(c, q, Clear(frames)).Reached? <==> q.offered == Nothing && q.queue == frames
    ensures Apply(c, q, Empty).Reached? <==> |q.queue| == 0
  {
  }

  /** The frames that leave the queue with an event: handed to the consumer, or discarded. */
  function Leaving(e: Event): seq<RawCanFrame> {
    match e
    case Take(frame) => [frame]
    case Clear(frames) => frames
    case _ => []
  }

  /** The frames that left the queue in a history, in order. */
  function Taken(events: seq<Event>): seq<RawCanFrame> {
    if events == [] then []
    else Taken(events[..|events| - 1]) + Leaving(events[|events| - 1])
  }

  /** The FIFO event that takes effect with an atomic access, on index words modulo `m`. */
  function Effect(c: nat, m: nat, s: State, a: Action): Event {
    match a
    case BeginPush(frame) => if s.producer.PIdle? then Offer(frame) else Silent
    case Produce(_) =>
      (match s.producer
       case PLoadTail(_, head) => if Distance(m, head, s.tail) >= c then Reject else Silent
       case PPublish(_, _, _) => Accept
       case _ => Silent)
    case Consume =>
      (match s.consumer
       case CLoadHead(tail) => if tail == s.head then Empty else Silent
       case CPublish(_, frame) => Take(frame)
       case _ => Silent)
    case Discard => if Undisturbed(s) then Clear(Queue(s)) else Silent
    case _ => Silent
  }

  function Queue(s: State): seq<RawCanFrame> {
    if |s.popped| <= |s.accepted| then s.accepted[|s.popped|..] else []
  }

  function Abstraction(s: State): Fifo {
    Fifo(Queue(s),
         match s.producer
         case PLoadHead(frame) => Pending(frame)
         case PLoadTail(frame, _) => Pending(frame)
         case PWriteSlot(frame, _, _) => Pending(frame)
         case PPublish(frame, _, _) => Pending(frame)
         case _ => Nothing)
  }

  /** The part of the invariant that the queue depends on. */
  ghost predicate Lined(c: nat, s: State) {
    && s.tail <= s.head <= s.tail + c
    && |s.accepted| == s.head
    && s.popped == s.accepted[..s.tail]
    && ConsumerOk(s)
    && match s.producer
       case PLoadTail(_, head) => head == s.head
       case PPublish(_, head, _) => head == s.head && s.head - s.tail < c
       case _ => true
  }

  lemma ProducerRefines(c: nat, s: State, spurious: bool)
    requires c > 0 && Lined(c, s)
    ensures Apply(c, Abstraction(s), Effect(c, 0, s, Produce(spurious)))
            == Reached(Abstraction(ProducerStep(c, 0, s, spurious)))
  {
    if s.producer.PPublish? {
      assert Queue(ProducerStep(c, 0, s, spurious)) == Queue(s) + [s.producer.frame];
    }
  }

  lemma PopRefines(c: nat, s: State)
    requires c > 0 && Lined(c, s) && s.consumer.CPublish?
    ensures var t := ConsumerStep(c, 0, s);
            Queue(s) != [] && Queue(s)[0] == s.consumer.frame && Queue(t) == Queue(s)[1..]
  {
    assert s.accepted[s.tail..][1..] == s.accepted[s.tail + 1..];
  }

  lemma ConsumerRefines(c: nat, s: State)
    requires c > 0 && Lined(c, s)
    ensures Apply(c, Abstraction(s), Effect(c, 0, s, Consume)) == Reached(Abstraction(ConsumerStep(c, 0, s)))
  {
    if s.consumer.CPublish? {
      PopRefines(c, s);
    }
  }

  lemma OthersRefine(c: nat, s: State, a: Action)
    requires c > 0 && !a.Produce? && !a.Consume? && !a.Discard?
    ensures Apply(c, Abstraction(s), Effect(c, 0, s, a)) == Reached(Abstraction(Step(c, 0, s, a)))
  {
    var t := Step(c, 0, s, a);
    assert t.accepted == s.accepted && t.popped == s.popped;
  }

  lemma StepRefines(c: nat, s: State, a: Action)
    requires c > 0 && Inv(c, s)
    ensures Apply(c, Abstraction(s), Effect(c, 0, s, a)) == Reached(Abstraction(Step(c, 0, s, a)))
  {
    match a {
      case Produce(spurious) => ProducerRefines(c, s, spurious);
      case Consume => ConsumerRefines(c, s);
      case Discard =>
      case _ => OthersRefine(c, s, a);
    }
  }

  function History(c: nat, m: nat, s: State, actions: seq<Action>): seq<Event>
    requires c > 0
  {
    if actions == [] then []
    else
      var before := actions[..|actions| - 1];
      History(c, m, s, before) + [Effect(c, m, Run(c, m, s, before), actions[|actions| - 1])]
  }

  lemma StepTakes(c: nat, s: State, a: Action)
    requires c > 0 && Inv(c, s)
    ensures var e := Effect(c, 0, s, a);
            Step(c, 0, s, a).popped == s.popped + Leaving(e)
  {
  }

  lemma QueueSplitsAccepted(c: nat, s: State)
    requires c > 0 && Inv(c, s)
    ensures s.popped + Queue(s) == s.accepted && |Queue(s)| == s.head - s.tail <= c
  {
  }

  lemma {:induction false} HistoryReplays(c: nat, n: nat, blank: RawCanFrame, actions: seq<Action>)
    requires c > 0
    ensures var s0 := Initial(c, n, blank);
            var s := Run(c, 0, s0, actions);
            && Replay(c, History(c, 0, s0, actions)) == Reached(Abstraction(s))
            && s.popped == Taken(History(c, 0, s0, actions))
  {
    var s0 := Initial(c, n, blank);
    if actions == [] {
    } else {
      var before, a := actions[..|actions| - 1], actions[|actions| - 1];
      var s := Run(c, 0, s0, before);
      HistoryReplays(c, n, blank, before);
      RunKeepsInv(c, n, blank, before);
      StepRefines(c, s, a);
      StepTakes(c, s, a);
      var events := History(c, 0, s0, actions);
      assert events[..|events| - 1] == History(c, 0, s0, before) && events[|events| - 1] == Effect(c, 0, s, a);
    }
  }

  /**
   In every interleaving the ring's history is a legal history of the bounded drop-newest FIFO and leads to
   exactly the frames still queued; the frames that left followed by the queued frames are the accepted frames.
  */
  lemma RunRefinesFifo(c: nat, n: nat, blank: RawCanFrame, actions: seq<Action>)
    requires c > 0
    ensures var s0 := Initial(c, n, blank);
            var s := Run(c, 0, s0, actions);
            && Replay(c, History(c, 0, s0, actions)) == Reached(Abstraction(s))
            && s.popped == Taken(History(c, 0, s0, actions))
            && s.popped + Queue(s) == s.accepted
            && |Queue(s)| == s.head - s.tail <= c
  {
    HistoryReplays(c, n, blank, actions);
    RunKeepsInv(c, n, blank, actions);
    QueueSplitsAccepted(c, Run(c, 0, Initial(c, n, blank), actions));
  }

  /** Producer and consumer never touch the same slot at the same time. */
  lemma SlotsNeverCollide(c: nat, n: nat, blank: RawCanFrame, actions: seq<Action>)
    requires c > 0
    ensures var s := Run(c, 0, Initial(c, n, blank), actions);
            s.producer.PWriteSlot? && s.consumer.CReadSlot? ==> s.producer.head % c != s.consumer.tail % c
  {
    var s := Run(c, 0, Initial(c, n, blank), actions);
    RunKeepsInv(c, n, blank, actions);
    if s.producer.PWriteSlot? && s.consumer.CReadSlot? {
      SlotsDiffer(c, s.consumer.tail, s.producer.head);
    }
  }

  /**
   The depth read, in every interleaving: loading head records the number of queued frames at that instant,
   an unchanged tail makes the read return exactly that number (the out-of-capacity retry is never taken), a
   changed tail makes it start over, and every retry is paid for by a frame that left since the read began.
  */
  lemma DepthReadIsExact(c: nat, n: nat, blank: RawCanFrame, actions: seq<Action>, i: nat, spurious: bool)
    requires c > 0 && i < n
    ensures var s := Run(c, 0, Initial(c, n, blank), actions);
            && i < |s.observers|
            && var o := s.observers[i];
            var o' := Step(c, 0, s, Observe(i, spurious)).observers[i];
            && (o.OHead? ==> o'.OTailAfter? && o'.depthSeen == |Queue(s)|)
            && (o.OTailAfter? && o.tailBefore == s.tail ==> o' == DepthTaken(o.purpose, o.depthSeen))
            && (o.OTailAfter? && o.tailBefore != s.tail ==>
                  o' == OTailBefore(o.purpose, o.start, o.retries + 1) && o.retries + 1 <= |s.popped| - o.start)
            && (o.OTailBefore? || o.OHead? || o.OTailAfter? ==> o.retries <= |s.popped| - o.start)
  {
    var s := Run(c, 0, Initial(c, n, blank), actions);
    RunKeepsInv(c, n, blank, actions);
    ObserverCount(c, n, blank, actions);
    assert ObserverOk(c, s, s.observers[i]);
  }

  lemma StepKeepsObserverCount(c: nat, s: State, a: Action)
    requires c > 0
    ensures |Step(c, 0, s, a).observers| == |s.observers|
  {
    match a {
      case Produce(_) =>
      case Consume =>
      case _ =>
    }
  }

  lemma {:induction false} ObserverCount(c: nat, n: nat, blank: RawCanFrame, actions: seq<Action>)
    requires c > 0
    ensures |Run(c, 0, Initial(c, n, blank), actions).observers| == n
  {
    if actions == [] {
    } else {
      var before := actions[..|actions| - 1];
      ObserverCount(c, n, blank, before);
      StepKeepsObserverCount(c, Run(c, 0, Initial(c, n, blank), before), actions[|actions| - 1]);
    }
  }
}
