/**
 What producer and consumer do on real index words, whatever the observers do. Observers never write an index or a
 slot, so even one that is delayed for whole turns of the words cannot disturb the queue.
*/
module RingWordsFifo {
  import opened Frames
  import opened RingMachine
  import opened RingSafety
  import opened RingFifo
  import opened RingWords

  /**
   `u` is the ring on unbounded indices that `w` stands for, without any observers. Only the reports of finished
   snapshots are theirs as well.
  */
  ghost predicate Twin(c: nat, m: nat, w: State, u: State) {
    && Modulus(c, m) && Inv(c, u) && u.observers == []
    && w == Wrap(m, u).(observers := w.observers, reports := w.reports)
  }

  ghost predicate WordOf(m: nat, word: nat, index: int) {
    m > 0 && word == index % m
  }

  /** The head word an observer loaded is that of its instant; every accepted sample is within the capacity. */
  ghost predicate SampleOk(c: nat, m: nat, o: Observer) {
    match o
    case OTailAfter(_, _, _, _, head, tailSeen, depthSeen) =>
      0 <= depthSeen <= c && WordOf(m, head, tailSeen + depthSeen)
    case OCounters(_, depth, got) => 0 <= depth <= c && |got| <= COUNTERS
    case OLoadMark(depth) => 0 <= depth <= c
    case ORaise(depth, seen) => 0 <= seen < depth <= c
    case _ => true
  }

  ghost predicate SamplesOk(c: nat, m: nat, w: State) {
    forall i :: 0 <= i < |w.observers| ==> SampleOk(c, m, w.observers[i])
  }

  /** The same ring under other observers. */
  function Under(s: State, observers: seq<Observer>, reports: seq<seq<nat>>): State {
    s.(observers := observers, reports := reports)
  }

  lemma RecordIgnores(s: State, os: seq<Observer>, rs: seq<seq<nat>>, counter: nat, count: nat)
    ensures Record(Under(s, os, rs), counter, count) == Under(Record(s, counter, count), os, rs)
  {
  }

  lemma CountingIgnores(c: nat, m: nat, s: State, os: seq<Observer>, rs: seq<seq<nat>>, spurious: bool)
    requires c > 0 && (s.producer.PCountDrop? || s.producer.PCountOverflow? || s.producer.PCountQueued?)
    ensures ProducerStep(c, m, Under(s, os, rs), spurious) == Under(ProducerStep(c, m, s, spurious), os, rs)
  {
    hide Record;
    RecordIgnores(s, os, rs, DROPPED, 1);
    RecordIgnores(s, os, rs, OVERFLOWS, 1);
    RecordIgnores(s, os, rs, QUEUED, 1);
  }

  /** Producer and consumer read nothing of the observers. */
  lemma ProducerIgnores(c: nat, m: nat, s: State, os: seq<Observer>, rs: seq<seq<nat>>, spurious: bool)
    requires c > 0
    ensures ProducerStep(c, m, Under(s, os, rs), spurious) == Under(ProducerStep(c, m, s, spurious), os, rs)
  {
    hide Record, Distance, Successor;
    if s.producer.PCountDrop? || s.producer.PCountOverflow? || s.producer.PCountQueued? {
      CountingIgnores(c, m, s, os, rs, spurious);
    }
  }

  lemma ConsumerIgnores(c: nat, m: nat, s: State, os: seq<Observer>, rs: seq<seq<nat>>)
    requires c > 0
    ensures ConsumerStep(c, m, Under(s, os, rs)) == Under(ConsumerStep(c, m, s), os, rs)
  {
    hide Record, Successor;
    RecordIgnores(s, os, rs, DELIVERED, 1);
  }

  lemma StepsKeepObservers(c: nat, m: nat, s: State, spurious: bool)
    requires c > 0
    ensures ProducerStep(c, m, s, spurious).observers == s.observers
    ensures ConsumerStep(c, m, s).observers == s.observers
    ensures ProducerStep(c, m, s, spurious).reports == s.reports
    ensures ConsumerStep(c, m, s).reports == s.reports
  {
  }

  lemma ProducerTwins(c: nat, m: nat, w: State, u: State, spurious: bool)
    requires Twin(c, m, w, u)
    ensures Twin(c, m, ProducerStep(c, m, w, spurious), ProducerStep(c, 0, u, spurious))
  {
    hide ProducerStep, Inv, Modulus;
    HasCapacity(c, m);
    ProducerKeepsInv(c, u, spurious);
    ProducerWraps(c, m, u, spurious);
    ProducerIgnores(c, m, Wrap(m, u), w.observers, w.reports, spurious);
    StepsKeepObservers(c, m, w, spurious);
    StepsKeepObservers(c, 0, u, spurious);
  }

  lemma ConsumerTwins(c: nat, m: nat, w: State, u: State)
    requires Twin(c, m, w, u)
    ensures Twin(c, m, ConsumerStep(c, m, w), ConsumerStep(c, 0, u))
  {
    hide ConsumerStep, Inv, Modulus;
    HasCapacity(c, m);
    ConsumerKeepsInv(c, u);
    ConsumerWraps(c, m, u);
    ConsumerIgnores(c, m, Wrap(m, u), w.observers, w.reports);
    StepsKeepObservers(c, m, w, false);
    StepsKeepObservers(c, 0, u, false);
  }

  /** The head word counts the accepted frames, and never more than the capacity are queued. */
  ghost predicate Counted(c: nat, m: nat, w: State) {
    && WordOf(m, w.head, |w.accepted|)
    && |w.popped| <= |w.accepted| <= |w.popped| + c
    && 0 <= w.mark <= c && |w.counters| == COUNTERS
  }

  lemma TwinIsCounted(c: nat, m: nat, w: State, u: State)
    requires Twin(c, m, w, u)
    ensures 0 < c < m && Counted(c, m, w)
  {
  }

  /** An observer moves the watermark and the counters within their bounds, and itself. */
  lemma ObserverTouches(c: nat, m: nat, w: State, i: nat, spurious: bool)
    requires i < |w.observers| && SamplesOk(c, m, w) && Counted(c, m, w)
    ensures var t := ObserverStep(c, m, w, i, spurious);
            && t == w.(observers := t.observers, mark := t.mark, counters := t.counters, reports := t.reports)
            && 0 <= t.mark <= c && |t.counters| == COUNTERS && SamplesOk(c, m, t)
  {
    hide WordOf, Distance;
    assert SampleOk(c, m, w.observers[i]);
    var t := ObserverStep(c, m, w, i, spurious);
    assert SampleOk(c, m, t.observers[i]) by {
      assert |w.popped| + (|w.accepted| - |w.popped|) == |w.accepted|;
    }
    forall j | 0 <= j < |t.observers| ensures SampleOk(c, m, t.observers[j]) {
      assert j != i ==> SampleOk(c, m, w.observers[j]);
    }
  }

  /** The twin of an observer's step only takes over the watermark and the counters. */
  lemma ObserverTwins(c: nat, m: nat, w: State, u: State, t: State)
    requires Twin(c, m, w, u)
    requires t == w.(observers := t.observers, mark := t.mark, counters := t.counters, reports := t.reports)
    requires 0 <= t.mark <= c && |t.counters| == COUNTERS
    ensures Twin(c, m, t, u.(mark := t.mark, counters := t.counters))
  {
    QuietStepKeepsInv(c, u, u.(mark := t.mark, counters := t.counters));
  }

  /** The twin of a step: the same step, or for an observer only its effect on watermark and counters. */
  function TwinStep(c: nat, m: nat, w: State, u: State, a: Action): State
    requires c > 0
  {
    match a
    case Observe(_, _) => var t := Step(c, m, w, a); u.(mark := t.mark, counters := t.counters)
    case BeginSnapshot(_, _) => u
    case _ => Step(c, 0, u, a)
  }

  lemma ObserveTwins(c: nat, m: nat, w: State, u: State, i: nat, spurious: bool)
    requires Twin(c, m, w, u) && SamplesOk(c, m, w)
    ensures c > 0
    ensures var a := Observe(i, spurious);
            Twin(c, m, Step(c, m, w, a), TwinStep(c, m, w, u, a)) && SamplesOk(c, m, Step(c, m, w, a))
  {
    hide Twin, SamplesOk, ObserverStep;
    TwinIsCounted(c, m, w, u);
    if i < |w.observers| {
      ObserverTouches(c, m, w, i, spurious);
    }
    ObserverTwins(c, m, w, u, Step(c, m, w, Observe(i, spurious)));
  }

  lemma BeginSnapshotTwins(c: nat, m: nat, w: State, u: State, i: nat, reset: bool)
    requires Twin(c, m, w, u) && SamplesOk(c, m, w)
    ensures c > 0
    ensures var t := Step(c, m, w, BeginSnapshot(i, reset)); Twin(c, m, t, u) && SamplesOk(c, m, t)
  {
    hide WordOf, Inv, Modulus;
    HasCapacity(c, m);
    var t := Step(c, m, w, BeginSnapshot(i, reset));
    forall j | 0 <= j < |t.observers| ensures SampleOk(c, m, t.observers[j]) {
      assert j < |w.observers| && SampleOk(c, m, w.observers[j]);
    }
  }

  /** The actions that neither a push, a pop nor an observer makes. */
  predicate Apart(a: Action) {
    a.BeginPush? || a.RecordEvent? || a.Discard? || a.ZeroMark?
  }

  lemma ApartTwins(c: nat, m: nat, w: State, u: State, a: Action)
    requires Twin(c, m, w, u) && Apart(a)
    ensures c > 0 && Twin(c, m, Step(c, m, w, a), Step(c, 0, u, a))
    ensures Step(c, m, w, a).observers == w.observers
  {
    hide Inv, Modulus;
    HasCapacity(c, m);
    StepKeepsInv(c, u, a);
    if a.ZeroMark? {
      EmptyWords(c, m, u);
    }
  }

  lemma EmptyWords(c: nat, m: nat, u: State)
    requires Modulus(c, m) && Inv(c, u)
    ensures u.head % m == u.tail % m <==> u.head == u.tail
  {
    EqualWords(m, u.tail, u.head);
  }

  lemma StepTwins(c: nat, m: nat, w: State, u: State, a: Action)
    requires Twin(c, m, w, u) && SamplesOk(c, m, w)
    ensures c > 0 && Twin(c, m, Step(c, m, w, a), TwinStep(c, m, w, u, a)) && SamplesOk(c, m, Step(c, m, w, a))
  {
    hide Twin, SampleOk, ProducerStep, ConsumerStep, ObserverStep;
    TwinIsCounted(c, m, w, u);
    match a {
      case Produce(spurious) =>
        ProducerTwins(c, m, w, u, spurious);
        StepsKeepObservers(c, m, w, spurious);
      case Consume =>
        ConsumerTwins(c, m, w, u);
        StepsKeepObservers(c, m, w, false);
      case Observe(i, spurious) => ObserveTwins(c, m, w, u, i, spurious);
      case BeginSnapshot(i, reset) => BeginSnapshotTwins(c, m, w, u, i, reset);
      case _ => ApartTwins(c, m, w, u, a);
    }
  }

  // --- runs ----------------------------------------------------------------------------------------------------

  /** The ring on unbounded indices that a run on words stands for. */
  function TwinRun(c: nat, m: nat, n: nat, blank: RawCanFrame, actions: seq<Action>): State
    requires c > 0
  {
    if actions == [] then Initial(c, 0, blank)
    else
      var before := actions[..|actions| - 1];
      TwinStep(c, m, Run(c, m, Initial(c, n, blank), before), TwinRun(c, m, n, blank, before), actions[|actions| - 1])
  }

  lemma InitialTwins(c: nat, m: nat, n: nat, blank: RawCanFrame)
    requires Modulus(c, m)
    ensures Twin(c, m, Initial(c, n, blank), Initial(c, 0, blank)) && SamplesOk(c, m, Initial(c, n, blank))
  {
    RingSafety.RunKeepsInv(c, 0, blank, []);
  }

  lemma {:induction false} RunTwins(c: nat, m: nat, n: nat, blank: RawCanFrame, actions: seq<Action>)
    requires Modulus(c, m)
    ensures var w := Run(c, m, Initial(c, n, blank), actions);
            Twin(c, m, w, TwinRun(c, m, n, blank, actions)) && SamplesOk(c, m, w)
  {
    hide Twin, SamplesOk, Step, TwinStep, Initial;
    if actions == [] {
      InitialTwins(c, m, n, blank);
    } else {
      var before := actions[..|actions| - 1];
      RunTwins(c, m, n, blank, before);
      StepTwins(c, m, Run(c, m, Initial(c, n, blank), before), TwinRun(c, m, n, blank, before), actions[|actions| - 1]);
    }
  }

  /** The frames that the index words delimit, oldest first. */
  function Window(c: nat, m: nat, w: State): seq<RawCanFrame>
    requires c > 0 && m > 0 && |w.slots| == c && |w.popped| <= |w.accepted|
  {
    seq(|w.accepted| - |w.popped|, k requires k >= 0 => w.slots[((w.tail + k) % m) % c])
  }

  lemma WindowIsQueue(c: nat, m: nat, w: State, u: State)
    requires Twin(c, m, w, u)
    ensures |w.slots| == c && |w.popped| <= |w.accepted| && Window(c, m, w) == Queue(u)
  {
    var q := Window(c, m, w);
    assert |q| == |Queue(u)|;
    forall k | 0 <= k < |q| ensures q[k] == Queue(u)[k] {
      Congruent(m, u.tail % m + k, u.tail + k, -(u.tail / m));
      ModOfMod(c, m, u.tail + k);
    }
  }

  /**
   On words modulo any multiple of the capacity above it, for any number of observers, lapped or not: the index
   words count the frames accepted and those that left, the slots between them hold exactly the frames accepted that
   have not left, in order and never more than the capacity, the watermark is within the capacity, and the slot being
   written is not the slot being read.
  */
  lemma WordsKeepOrder(c: nat, m: nat, n: nat, blank: RawCanFrame, actions: seq<Action>)
    requires Modulus(c, m)
    ensures var w := Run(c, m, Initial(c, n, blank), actions);
            && w.head == |w.accepted| % m && w.tail == |w.popped| % m
            && |w.slots| == c && |w.popped| <= |w.accepted| <= |w.popped| + c
            && w.popped + Window(c, m, w) == w.accepted
            && 0 <= w.mark <= c
            && (w.producer.PWriteSlot? && w.consumer.CReadSlot? ==> w.producer.head % c != w.consumer.tail % c)
  {
    hide Run, TwinRun;
    var w, u := Run(c, m, Initial(c, n, blank), actions), TwinRun(c, m, n, blank, actions);
    RunTwins(c, m, n, blank, actions);
    WindowIsQueue(c, m, w, u);
    QueueSplitsAccepted(c, u);
    if w.producer.PWriteSlot? && w.consumer.CReadSlot? {
      SlotsDiffer(c, u.consumer.tail, u.producer.head);
      ModOfMod(c, m, u.producer.head);
      ModOfMod(c, m, u.consumer.tail);
    }
  }

  // --- the depth read on words ---------------------------------------------------------------------------------

  lemma ShiftedDepth(m: nat, depth: nat, lag: int)
    requires depth < m
    ensures (depth + lag) % m == depth <==> lag % m == 0
  {
    if lag % m == 0 {
      WholeTurns(m, depth, lag);
    } else if (depth + lag) % m == depth {
      LagIsTurns(m, depth, lag);
    }
  }

  lemma WholeTurns(m: nat, depth: nat, lag: int)
    requires depth < m && lag % m == 0
    ensures (depth + lag) % m == depth
  {
    Congruent(m, depth + lag, depth, lag / m);
  }

  lemma LagIsTurns(m: nat, depth: nat, lag: int)
    requires depth < m && (depth + lag) % m == depth
    ensures lag % m == 0
  {
    Congruent(m, lag, 0, (depth + lag) / m);
  }

  /** Two words differ by whole turns exactly when they are equal. */
  lemma TurnsApart(m: nat, index: int, word: nat)
    requires word < m
    ensures (index - word) % m == 0 <==> index % m == word
  {
    ShiftedDepth(m, word, index - word);
  }

  lemma SampleIsExactIff(c: nat, m: nat, tail: nat, head: nat, tailSeen: nat, depthSeen: int)
    requires 0 <= depthSeen <= c < m && tail < m && WordOf(m, head, tailSeen + depthSeen)
    ensures Distance(m, head, tail) == depthSeen <==> tailSeen % m == tail
  {
    var index := tailSeen + depthSeen;
    Congruent(m, index - tail, head - tail, index / m);
    ShiftedDepth(m, depthSeen, tailSeen - tail);
    TurnsApart(m, tailSeen, tail);
  }

  /**
   On words, for any observers, however often earlier reads were lapped: a depth read ends with the depth at its head
   load if and only if its two tail loads agree and that load fell on the same tail word. The first half is what the
   code checks; without the second a whole turn of the tail word goes unnoticed.
  */
  lemma LappedSampleIsExactIff(c: nat, m: nat, n: nat, blank: RawCanFrame, actions: seq<Action>, i: nat, spurious: bool)
    requires Modulus(c, m)
    ensures var w := Run(c, m, Initial(c, n, blank), actions);
            i < |w.observers| && w.observers[i].OTailAfter? ==>
              var o := w.observers[i];
              && (Distance(m, o.head, w.tail) == o.depthSeen <==> o.tailSeen % m == w.tail)
              && (Step(c, m, w, Observe(i, spurious)).observers[i] == DepthTaken(o.purpose, o.depthSeen) <==>
                    o.tailBefore == w.tail && o.tailSeen % m == w.tail)
  {
    hide Run, TwinRun, WordOf;
    var w := Run(c, m, Initial(c, n, blank), actions);
    RunTwins(c, m, n, blank, actions);
    WordsKeepOrder(c, m, n, blank, actions);
    if i < |w.observers| && w.observers[i].OTailAfter? {
      var o := w.observers[i];
      assert SampleOk(c, m, o);
      SampleIsExactIff(c, m, w.tail, o.head, o.tailSeen, o.depthSeen);
    }
  }

  // --- the queue on words --------------------------------------------------------------------------------------

  lemma EffectTwins(c: nat, m: nat, w: State, u: State, a: Action)
    requires Twin(c, m, w, u)
    ensures c > 0 && Effect(c, m, w, a) == Effect(c, 0, u, a) && Abstraction(w) == Abstraction(u)
  {
    if a.Produce? && u.producer.PLoadTail? {
      DistanceOfMods(m, u.producer.head, u.tail);
      NearWords(m, u.producer.head, u.tail);
    }
    if a.Consume? && u.consumer.CLoadHead? {
      EqualWords(m, u.consumer.tail, u.head);
    }
  }

  lemma TwinStepApplies(c: nat, m: nat, w: State, u: State, a: Action)
    requires Twin(c, m, w, u)
    ensures c > 0 && Apply(c, Abstraction(u), Effect(c, 0, u, a)) == Reached(Abstraction(TwinStep(c, m, w, u, a)))
    ensures var e := Effect(c, 0, u, a);
            TwinStep(c, m, w, u, a).popped == u.popped + Leaving(e)
  {
    match a {
      case Observe(_, _) =>
      case BeginSnapshot(_, _) =>
      case _ =>
        StepRefines(c, u, a);
        StepTakes(c, u, a);
    }
  }

  lemma {:induction false} WordHistoryReplays(c: nat, m: nat, n: nat, blank: RawCanFrame, actions: seq<Action>)
    requires Modulus(c, m)
    ensures var events := History(c, m, Initial(c, n, blank), actions);
            var u := TwinRun(c, m, n, blank, actions);
            Replay(c, events) == Reached(Abstraction(u)) && u.popped == Taken(events)
  {
    hide Twin, SamplesOk, Step, TwinStep, Effect, Apply, Abstraction;
    if actions == [] {
      NothingHappened(c, blank);
    } else {
      var before, a := actions[..|actions| - 1], actions[|actions| - 1];
      var w, u := Run(c, m, Initial(c, n, blank), before), TwinRun(c, m, n, blank, before);
      WordHistoryReplays(c, m, n, blank, before);
      RunTwins(c, m, n, blank, before);
      EffectTwins(c, m, w, u, a);
      TwinStepApplies(c, m, w, u, a);
      var events := History(c, m, Initial(c, n, blank), actions);
      assert events[..|events| - 1] == History(c, m, Initial(c, n, blank), before);
    }
  }

  lemma NothingHappened(c: nat, blank: RawCanFrame)
    requires c > 0
    ensures Reached(Abstraction(Initial(c, 0, blank))) == Replay(c, []) && Initial(c, 0, blank).popped == Taken([])
  {
  }

  /** On words, for any observers: the history is a legal one of the bounded drop-newest FIFO and ends in its queue. */
  lemma WordsRefineFifo(c: nat, m: nat, n: nat, blank: RawCanFrame, actions: seq<Action>)
    requires Modulus(c, m)
    ensures var w := Run(c, m, Initial(c, n, blank), actions);
            var events := History(c, m, Initial(c, n, blank), actions);
            && Replay(c, events) == Reached(Abstraction(w))
            && w.popped == Taken(events)
  {
    hide Run, TwinRun, History, SamplesOk, Effect;
    RunTwins(c, m, n, blank, actions);
    WordHistoryReplays(c, m, n, blank, actions);
    EffectTwins(c, m, Run(c, m, Initial(c, n, blank), actions), TwinRun(c, m, n, blank, actions), Consume);
  }
}
