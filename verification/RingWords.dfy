/**
 The ring on real `size_t` words. As long as no depth read is overtaken by a whole turn of the tail word, the
 machine of RingMachine.dfy, run on words modulo `m`, is a step-for-step image of the unbounded machine. Needs a
 modulus that the capacity divides and exceeds (64 divides 2^32 and 2^64). RingWordsFifo.dfy does without that proviso
 for the producer, the consumer and the queue.
*/
module RingWords {
  import opened Frames
  import opened RingMachine
  import opened Arithmetic
  import opened RingSafety

  /** Divisibility by counting down; MultipleIsDivisible relates it to the remainder. */
  predicate Multiple(c: nat, m: nat)
    requires c > 0
  {
    m == 0 || (c <= m && Multiple(c, m - c))
  }

  ghost predicate Modulus(c: nat, m: nat) {
    0 < c < m && Multiple(c, m)
  }

  function WrapProducer(m: nat, p: Producer): Producer
    requires m > 0
  {
    match p
    case PLoadTail(frame, head) => PLoadTail(frame, head % m)
    case PWriteSlot(frame, head, tail) => PWriteSlot(frame, head % m, tail % m)
    case PPublish(frame, head, tail) => PPublish(frame, head % m, tail % m)
    case _ => p
  }

  function WrapConsumer(m: nat, c: Consumer): Consumer
    requires m > 0
  {
    match c
    case CLoadHead(tail) => CLoadHead(tail % m)
    case CReadSlot(tail) => CReadSlot(tail % m)
    case CPublish(tail, frame) => CPublish(tail % m, frame)
    case _ => c
  }

  function WrapObserver(m: nat, o: Observer): Observer
    requires m > 0
  {
    match o
    case OHead(p, start, retries, tailBefore) => OHead(p, start, retries, tailBefore % m)
    case OTailAfter(p, start, retries, tailBefore, head, tailSeen, depthSeen) =>
      OTailAfter(p, start, retries, tailBefore % m, head % m, tailSeen, depthSeen)
    case _ => o
  }

  function WrapObservers(m: nat, os: seq<Observer>): seq<Observer>
    requires m > 0
  {
    seq(|os|, i requires 0 <= i < |os| => WrapObserver(m, os[i]))
  }

  /** Reduce every index word; the history variables stay as they are. */
  function Wrap(m: nat, s: State): State
    requires m > 0
  {
    s.(head := s.head % m,
       tail := s.tail % m,
       producer := WrapProducer(m, s.producer),
       consumer := WrapConsumer(m, s.consumer),
       observers := WrapObservers(m, s.observers))
  }

  /**
   The observer is about to compare its two tail loads and fewer than `m` pops happened between them. Only a
   full turn of the tail word could make an outdated sample look unchanged.
  */
  ghost predicate NotLapped(m: nat, s: State, a: Action) {
    a.Observe? && a.observer < |s.observers| && s.observers[a.observer].OTailAfter? ==>
      s.tail - s.observers[a.observer].tailBefore < m
  }

  lemma Congruent(m: nat, a: int, b: int, q: int)
    requires m > 0 && a == b + m * q
    ensures a % m == b % m
  {
    var d := a / m - b / m - q;
    assert a % m - b % m == -(m * d);
    if a % m > b % m {
      NotAMultiple(m, -d, a % m - b % m);
    } else if a % m < b % m {
      NotAMultiple(m, d, b % m - a % m);
    }
  }

  lemma {:induction false} MultipleIsDivisible(c: nat, m: nat)
    requires c > 0
    ensures Multiple(c, m) <==> m % c == 0
  {
    if m < c {
    } else {
      MultipleIsDivisible(c, m - c);
      Congruent(c, m, m - c, 1);
    }
  }

  /** The capacity the bus uses, on 32-bit and on 64-bit words. */
  lemma SizeTWords()
    ensures Modulus(64, 0x1_0000_0000) && Modulus(64, 0x1_0000_0000_0000_0000)
  {
    MultipleIsDivisible(64, 0x1_0000_0000);
    MultipleIsDivisible(64, 0x1_0000_0000_0000_0000);
  }

  lemma ModOfMod(c: nat, m: nat, x: nat)
    requires Modulus(c, m)
    ensures (x % m) % c == x % c
  {
    MultipleIsDivisible(c, m);
    var q, r := m / c, x / m;
    assert x == x % m + m * r && m == c * q;
    assert m * r == c * (q * r);
    Congruent(c, x, x % m, q * r);
  }

  lemma SuccessorOfMod(m: nat, x: nat)
    requires m > 0
    ensures Successor(m, x % m) == (x + 1) % m
  {
    Congruent(m, x + 1, x % m + 1, x / m);
  }

  lemma DistanceOfMods(m: nat, a: nat, b: nat)
    requires m > 0
    ensures Distance(m, a % m, b % m) == (a - b) % m
  {
    Congruent(m, a - b, a % m - b % m, a / m - b / m);
  }

  /** Words that are less than a full turn apart are equal exactly when the indices are. */
  lemma EqualWords(m: nat, a: nat, b: nat)
    requires m > 0 && a <= b < a + m
    ensures a % m == b % m <==> a == b
  {
    if a < b {
      SlotsDiffer(m, a, b);
    }
  }

  lemma PublishWraps(c: nat, m: nat, s: State)
    requires Modulus(c, m) && Inv(c, s) && s.producer.PPublish?
    ensures ProducerStep(c, m, Wrap(m, s), false) == Wrap(m, ProducerStep(c, 0, s, false))
  {
    var head, tail := s.producer.head, s.producer.tail;
    SuccessorOfMod(m, head);
    DistanceOfMods(m, head + 1, tail);
    NearWords(m, head + 1, tail);
  }

  /** Indices no further apart than the capacity have that very distance as words. */
  lemma NearWords(m: nat, a: nat, b: nat)
    requires b <= a < b + m
    ensures (a - b) % m == a - b
  {
  }

  lemma LoadTailWraps(c: nat, m: nat, s: State)
    requires Modulus(c, m) && Inv(c, s) && s.producer.PLoadTail?
    ensures ProducerStep(c, m, Wrap(m, s), false) == Wrap(m, ProducerStep(c, 0, s, false))
  {
    DistanceOfMods(m, s.producer.head, s.tail);
    NearWords(m, s.producer.head, s.tail);
  }

  lemma WriteSlotWraps(c: nat, m: nat, s: State)
    requires Modulus(c, m) && Inv(c, s) && s.producer.PWriteSlot?
    ensures ProducerStep(c, m, Wrap(m, s), false) == Wrap(m, ProducerStep(c, 0, s, false))
  {
    ModOfMod(c, m, s.producer.head);
  }

  lemma ProducerWraps(c: nat, m: nat, s: State, spurious: bool)
    requires Modulus(c, m) && Inv(c, s)
    ensures ProducerStep(c, m, Wrap(m, s), spurious) == Wrap(m, ProducerStep(c, 0, s, spurious))
  {
    hide Inv, Modulus, Distance, Successor;
    HasCapacity(c, m);
    match s.producer {
      case PLoadTail(_, _) => LoadTailWraps(c, m, s);
      case PWriteSlot(_, _, _) => WriteSlotWraps(c, m, s);
      case PPublish(_, _, _) => PublishWraps(c, m, s);
      case _ =>
    }
  }

  lemma ConsumerWraps(c: nat, m: nat, s: State)
    requires Modulus(c, m) && Inv(c, s)
    ensures ConsumerStep(c, m, Wrap(m, s)) == Wrap(m, ConsumerStep(c, 0, s))
  {
    match s.consumer {
      case CLoadHead(tail) => EqualWords(m, tail, s.head);
      case CReadSlot(tail) => ModOfMod(c, m, tail);
      case CPublish(tail, _) => SuccessorOfMod(m, tail);
      case _ =>
    }
  }

  lemma SampleWraps(c: nat, m: nat, s: State, o: Observer)
    requires Modulus(c, m) && Indices(c, s) && ObserverOk(c, s, o) && o.OTailAfter? && s.tail - o.tailBefore < m
    ensures o.tailBefore % m == s.tail % m <==> o.tailBefore == s.tail
    ensures o.tailBefore == s.tail ==> Distance(m, o.head % m, s.tail % m) == Distance(0, o.head, s.tail) <= c
  {
    EqualWords(m, o.tailBefore, s.tail);
    DistanceOfMods(m, o.head, s.tail);
    if o.tailBefore == s.tail {
      NearWords(m, o.head, s.tail);
    }
  }

  lemma ObserverWraps(c: nat, m: nat, s: State, i: nat, spurious: bool)
    requires Modulus(c, m) && Inv(c, s) && i < |s.observers| && NotLapped(m, s, Observe(i, spurious))
    ensures ObserverStep(c, m, Wrap(m, s), i, spurious) == Wrap(m, ObserverStep(c, 0, s, i, spurious))
  {
    hide Inv, Modulus;
    var o := s.observers[i];
    ObserverHasInv(c, m, s, i);
    if o.OTailAfter? {
      SampleWraps(c, m, s, o);
    }
    var t := ObserverStep(c, 0, s, i, spurious);
    UpdateWraps(m, s.observers, i, t.observers[i]);
  }

  lemma ObserverHasInv(c: nat, m: nat, s: State, i: nat)
    requires Modulus(c, m) && Inv(c, s) && i < |s.observers|
    ensures 0 < c < m && Indices(c, s) && ObserverOk(c, s, s.observers[i])
  {
  }

  lemma UpdateWraps(m: nat, os: seq<Observer>, i: nat, o: Observer)
    requires m > 0 && i < |os|
    ensures WrapObservers(m, os[i := o]) == WrapObservers(m, os)[i := WrapObserver(m, o)]
  {
  }

  lemma HasCapacity(c: nat, m: nat)
    requires Modulus(c, m)
    ensures 0 < c < m
  {
  }

  /** The words are equal only when the ring is empty. */
  lemma ZeroMarkWraps(c: nat, m: nat, s: State)
    requires Modulus(c, m) && Inv(c, s)
    ensures Step(c, m, Wrap(m, s), ZeroMark) == Wrap(m, Step(c, 0, s, ZeroMark))
  {
    EqualWords(m, s.tail, s.head);
  }

  lemma StepWraps(c: nat, m: nat, s: State, a: Action)
    requires Modulus(c, m) && Inv(c, s) && NotLapped(m, s, a)
    ensures Step(c, m, Wrap(m, s), a) == Wrap(m, Step(c, 0, s, a))
  {
    hide Inv, Modulus, ProducerStep, ConsumerStep, ObserverStep;
    HasCapacity(c, m);
    match a {
      case Produce(spurious) => ProducerWraps(c, m, s, spurious);
      case Consume => ConsumerWraps(c, m, s);
      case Observe(i, spurious) => if i < |s.observers| { ObserverWraps(c, m, s, i, spurious); }
      case ZeroMark => ZeroMarkWraps(c, m, s);
      case BeginSnapshot(i, reset) =>
        if i < |s.observers| {
          UpdateWraps(m, s.observers, i, OTailBefore(Sample(reset), |s.popped|, 0));
        }
      case _ =>
    }
  }

  ghost predicate NeverLapped(c: nat, m: nat, s: State, actions: seq<Action>)
    requires c > 0
  {
    forall k :: 0 <= k < |actions| ==> NotLapped(m, Run(c, 0, s, actions[..k]), actions[k])
  }

  /**
   A run on wrapped words is the image of the same run on unbounded indices: same frames delivered and
   queued, same watermark, same counters and reports, at every point of every interleaving.
  */
  lemma {:induction false} RunWraps(c: nat, m: nat, n: nat, blank: RawCanFrame, actions: seq<Action>)
    requires Modulus(c, m) && NeverLapped(c, m, Initial(c, n, blank), actions)
    ensures Run(c, m, Initial(c, n, blank), actions) == Wrap(m, Run(c, 0, Initial(c, n, blank), actions))
  {
    var s0 := Initial(c, n, blank);
    if actions == [] {
      assert Wrap(m, s0).observers == s0.observers;
    } else {
      var last := |actions| - 1;
      var before := actions[..last];
      forall k | 0 <= k < last ensures NotLapped(m, Run(c, 0, s0, before[..k]), before[k]) {
        assert before[..k] == actions[..k];
      }
      RunWraps(c, m, n, blank, before);
      RunKeepsInv(c, n, blank, before);
      StepWraps(c, m, Run(c, 0, s0, before), actions[last]);
    }
  }
}
