/**
 What one operation of the ring does when nobody disturbs it, wherever a run has led: pop(), a watermark raise and a
 snapshot come to their end and have the effect of the sequential code (FrameRing.dfy). UndisturbedPushMarks in
 RingPeak.dfy does the same for push().
*/
module RingProgress {
  import opened Frames
  import opened RingMachine
  import opened RingSafety
  import opened RingFifo
  import opened RingPeak

  /** A new ring is empty, at rest and has counted nothing. */
  lemma NewRingIsEmpty(c: nat, n: nat, blank: RawCanFrame)
    requires c > 0
    ensures var s := Run(c, 0, Initial(c, n, blank), []);
            && Queue(s) == [] && s.accepted == [] && s.mark == 0 && s.reports == []
            && s.counters == s.recorded == seq(COUNTERS, k => 0)
            && s.producer.PIdle? && s.consumer.CIdle? && s.observers == seq(n, k => OIdle)
  {
  }

  // --- pop() ---------------------------------------------------------------------------------------------------

  function Pops(c: nat, s: State, n: nat): State
    requires c > 0
  {
    if n == 0 then s else ConsumerStep(c, 0, Pops(c, s, n - 1))
  }

  /**
   An undisturbed pop() takes two steps on an empty ring, which it leaves alone, and five otherwise: the oldest queued
   frame has left, one delivery is counted, and nothing else has changed.
  */
  lemma UndisturbedPop(c: nat, n: nat, blank: RawCanFrame, actions: seq<Action>)
    requires c > 0
    ensures var s := Run(c, 0, Initial(c, n, blank), actions);
            s.consumer.CIdle? ==>
              if Queue(s) == [] then Pops(c, s, 2) == s
              else
                var t := Pops(c, s, 5);
                && |s.recorded| == |s.counters| == COUNTERS
                && t == s.(tail := s.tail + 1, popped := s.popped + [Queue(s)[0]],
                           counters := s.counters[DELIVERED := s.counters[DELIVERED] + 1],
                           recorded := s.recorded[DELIVERED := s.recorded[DELIVERED] + 1])
                && Queue(t) == Queue(s)[1..]
  {
    hide Run;
    RunKeepsInv(c, n, blank, actions);
    var s := Run(c, 0, Initial(c, n, blank), actions);
    if s.consumer.CIdle? {
      PopsFrom(c, s);
    }
  }

  lemma PopsFrom(c: nat, s: State)
    requires c > 0 && Inv(c, s) && s.consumer.CIdle?
    ensures Queue(s) == [] ==> Pops(c, s, 2) == s
    ensures Queue(s) != [] ==>
              var t := Pops(c, s, 5);
              && t == s.(tail := s.tail + 1, popped := s.popped + [Queue(s)[0]],
                         counters := s.counters[DELIVERED := s.counters[DELIVERED] + 1],
                         recorded := s.recorded[DELIVERED := s.recorded[DELIVERED] + 1])
              && Queue(t) == Queue(s)[1..]
  {
    assert Pops(c, s, 0) == s;
    var s1 := Pops(c, s, 1);
    assert s1 == s.(consumer := CLoadHead(s.tail));
    var s2 := Pops(c, s, 2);
    if s.tail == s.head {
      assert s2 == s;
    } else {
      assert s2 == s.(consumer := CReadSlot(s.tail));
      var s3 := Pops(c, s, 3);
      assert s3 == s.(consumer := CPublish(s.tail, s.slots[s.tail % c])) && s.slots[s.tail % c] == s.accepted[s.tail];
      var s4 := Pops(c, s, 4);
      assert s4 == s.(consumer := CCount, tail := s.tail + 1, popped := s.popped + [s.accepted[s.tail]]);
      assert Pops(c, s, 5) == ConsumerStep(c, 0, s4);
      assert s.accepted[s.tail..][1..] == s.accepted[s.tail + 1..];
    }
  }

  // --- the watermark -------------------------------------------------------------------------------------------

  /** An undisturbed raise ends within three steps and leaves the larger of mark and depth, whatever it saw before. */
  lemma UndisturbedRaise(c: nat, s: State)
    requires c > 0 && Inv(c, s) && (s.producer.PLoadMark? || s.producer.PRaise?)
    ensures var depth := s.producer.depth;
            var t := Alone(c, s, [false, false, false]);
            && t.mark == (if depth > s.mark then depth else s.mark)
            && (t.producer.PCountQueued? || t.producer.PIdle?)
  {
    assert [false, false, false][..2] == [false, false] && [false, false][..1] == [false] && [false][..0] == [];
    assert Alone(c, s, []) == s;
    var s1 := Alone(c, s, [false]);
    assert s1 == ProducerStep(c, 0, s, false);
    var s2 := Alone(c, s, [false, false]);
    assert s2 == ProducerStep(c, 0, s1, false);
    assert Alone(c, s, [false, false, false]) == ProducerStep(c, 0, s2, false);
  }

  /** The watermark exchange of a reset, or the last store of clear(). */
  predicate Restarts(s: State, a: Action) {
    || a.ZeroMark?
    || (a.Observe? && a.observer < |s.observers| && s.observers[a.observer].OCounters?
        && s.observers[a.observer].reset && |s.observers[a.observer].got| == COUNTERS)
  }

  /** Between resets the watermark never goes down, however raises interleave. */
  lemma OnlyResetsLowerMark(c: nat, n: nat, blank: RawCanFrame, actions: seq<Action>, a: Action)
    requires c > 0
    ensures var s := Run(c, 0, Initial(c, n, blank), actions); !Restarts(s, a) ==> Step(c, 0, s, a).mark >= s.mark
  {
    hide Run;
    RunKeepsInv(c, n, blank, actions);
    var s := Run(c, 0, Initial(c, n, blank), actions);
    if !Restarts(s, a) {
      StepRaises(c, s, a);
    }
  }

  lemma StepRaises(c: nat, s: State, a: Action)
    requires c > 0 && Inv(c, s) && !Restarts(s, a)
    ensures Step(c, 0, s, a).mark >= s.mark
  {
    match a {
      case Observe(i, spurious) => if i < |s.observers| { assert ObserverOk(c, s, s.observers[i]); }
      case _ =>
    }
  }

  // --- snapshot() ----------------------------------------------------------------------------------------------

  function Observes(c: nat, s: State, i: nat, n: nat): (t: State)
    requires i < |s.observers|
    ensures |t.observers| == |s.observers|
  {
    if n == 0 then s else ObserverStep(c, 0, Observes(c, s, i, n - 1), i, false)
  }

  lemma {:induction false} ObservesMore(c: nat, s: State, i: nat, n: nat, k: nat)
    requires i < |s.observers|
    ensures Observes(c, s, i, n + k) == Observes(c, Observes(c, s, i, n), i, k)
  {
    hide ObserverStep;
    if k == 0 {
    } else {
      ObservesMore(c, s, i, n, k - 1);
    }
  }

  /** An undisturbed depth read takes three steps. */
  lemma DepthRead(c: nat, s: State, i: nat)
    requires c > 0 && Inv(c, s) && i < |s.observers| && s.observers[i].OTailBefore?
    ensures Observes(c, s, i, 3)
            == s.(observers := s.observers[i := DepthTaken(s.observers[i].purpose, s.head - s.tail)])
  {
    var o := s.observers[i];
    assert Observes(c, s, i, 0) == s;
    var s1 := Observes(c, s, i, 1);
    assert s1 == s.(observers := s.observers[i := OHead(o.purpose, o.start, o.retries, s.tail)]);
    var s2 := Observes(c, s, i, 2);
    assert s2.observers[i] == OTailAfter(o.purpose, o.start, o.retries, s.tail, s.head, s.tail, s.head - s.tail);
    assert s2 == s.(observers := s.observers[i := s2.observers[i]]);
  }

  function Zeroed(counters: seq<nat>, k: nat): seq<nat>
    requires k <= |counters|
  {
    seq(k, j => 0) + counters[k..]
  }

  /** One counter is read, by an exchange with zero if it is a reset. */
  lemma CounterRead(c: nat, s: State, i: nat)
    requires i < |s.observers| && s.observers[i].OCounters? && |s.observers[i].got| < |s.counters|
    ensures var o := s.observers[i];
            var k := |o.got|;
            ObserverStep(c, 0, s, i, false)
            == s.(observers := s.observers[i := OCounters(o.reset, o.depth, o.got + [s.counters[k]])],
                  counters := if o.reset then s.counters[k := 0] else s.counters)
  {
  }

  /** The first k counters are read one by one. */
  lemma {:induction false} CountersRead(c: nat, s: State, i: nat, k: nat)
    requires i < |s.observers| && s.observers[i].OCounters? && s.observers[i].got == [] && k <= |s.counters|
    ensures var o := s.observers[i];
            Observes(c, s, i, k)
            == s.(observers := s.observers[i := OCounters(o.reset, o.depth, s.counters[..k])],
                  counters := if o.reset then Zeroed(s.counters, k) else s.counters)
  {
    hide ObserverStep;
    var o := s.observers[i];
    if k == 0 {
      assert s.observers[i := o] == s.observers && Zeroed(s.counters, 0) == s.counters;
    } else {
      CountersRead(c, s, i, k - 1);
      CounterRead(c, Observes(c, s, i, k - 1), i);
      assert s.counters[..k - 1] + [s.counters[k - 1]] == s.counters[..k];
      assert o.reset ==> Zeroed(s.counters, k - 1)[k - 1 := 0] == Zeroed(s.counters, k);
    }
  }

  /** The reconciliation of a reset, undisturbed, leaves the larger of mark and depth just as a push does. */
  lemma UndisturbedReconcile(c: nat, s: State, i: nat)
    requires c > 0 && Inv(c, s) && i < |s.observers| && (s.observers[i].OLoadMark? || s.observers[i].ORaise?)
    ensures var depth := s.observers[i].depth;
            Observes(c, s, i, 3).mark == (if depth > s.mark then depth else s.mark)
            && Observes(c, s, i, 3).observers[i].OIdle?
  {
    assert ObserverOk(c, s, s.observers[i]);
    assert Observes(c, s, i, 0) == s;
    var s1 := Observes(c, s, i, 1);
    var s2 := Observes(c, s, i, 2);
    assert s1 == ObserverStep(c, 0, s, i, false) && s2 == ObserverStep(c, 0, s1, i, false);
  }

  /** The ninth counter read of a reset makes the report and restarts the watermark at the depth read before. */
  lemma ResetReports(c: nat, s: State, i: nat)
    requires c > 0 && Inv(c, s) && i < |s.observers|
    requires s.observers[i].OCounters? && s.observers[i].reset && |s.observers[i].got| == COUNTERS
    ensures var o := s.observers[i];
            var t := Observes(c, s, i, 1);
            && t == s.(observers := s.observers[i := OTailBefore(Reconcile, |s.popped|, 0)], mark := o.depth,
                       reports := s.reports + [o.got])
            && Inv(c, t)
  {
    assert Observes(c, s, i, 0) == s;
    ObserverKeepsInv(c, s, i, false);
  }

  /** A reset whose depth read is still true reconciles nothing: the watermark stays at the live depth. */
  lemma ResetConcludes(c: nat, s: State, i: nat)
    requires c > 0 && Inv(c, s) && i < |s.observers|
    requires s.observers[i].OCounters? && |s.observers[i].got| == COUNTERS
    requires s.observers[i] == OCounters(true, s.head - s.tail, s.observers[i].got)
    ensures Observes(c, s, i, 5)
            == s.(observers := s.observers[i := OIdle], mark := s.head - s.tail,
                  reports := s.reports + [s.observers[i].got])
  {
    hide Inv, ObserverStep;
    ResetReports(c, s, i);
    var s1 := Observes(c, s, i, 1);
    DepthRead(c, s1, i);
    ObservesMore(c, s, i, 1, 3);
    var s4 := Observes(c, s, i, 4);
    assert s4 == s1.(observers := s.observers[i := OLoadMark(s.head - s.tail)]);
    MarkHolds(c, s4, i);
    ObservesMore(c, s, i, 4, 1);
  }

  lemma MarkHolds(c: nat, s: State, i: nat)
    requires i < |s.observers| && s.observers[i].OLoadMark? && s.observers[i].depth <= s.mark
    ensures Observes(c, s, i, 1) == s.(observers := s.observers[i := OIdle])
  {
    assert Observes(c, s, i, 0) == s;
  }

  /** Twelve steps into an undisturbed snapshot the depth and all the counters have been read. */
  lemma SnapshotReads(c: nat, s: State, i: nat, reset: bool)
    requires c > 0 && Inv(c, s) && i < |s.observers| && s.observers[i].OIdle?
    ensures var t := Step(c, 0, s, BeginSnapshot(i, reset));
            && i < |t.observers|
            && Observes(c, t, i, 12)
               == s.(observers := s.observers[i := OCounters(reset, s.head - s.tail, s.counters)],
                     counters := if reset then Zeroed(s.counters, COUNTERS) else s.counters)
  {
    hide Inv, ObserverStep, Observes;
    var t := Step(c, 0, s, BeginSnapshot(i, reset));
    StepKeepsInv(c, s, BeginSnapshot(i, reset));
    DepthRead(c, t, i);
    var t3 := Observes(c, t, i, 3);
    InvCounts(c, s);
    CountersRead(c, t3, i, COUNTERS);
    ObservesMore(c, t, i, 3, COUNTERS);
    assert t3.counters[..COUNTERS] == s.counters;
  }

  lemma InvCounts(c: nat, s: State)
    requires c > 0 && Inv(c, s)
    ensures |s.counters| == COUNTERS
  {
  }

  lemma SnapshotFrom(c: nat, s: State, i: nat, reset: bool)
    requires c > 0 && Inv(c, s) && i < |s.observers| && s.observers[i].OIdle?
    ensures var t := Step(c, 0, s, BeginSnapshot(i, reset));
            && i < |t.observers|
            && Observes(c, t, i, if reset then 17 else 13) ==
                 if reset then s.(counters := Zeroed(s.counters, COUNTERS), mark := s.head - s.tail,
                                  reports := s.reports + [s.counters])
                 else s
  {
    hide Inv, ObserverStep, Observes;
    var t := Step(c, 0, s, BeginSnapshot(i, reset));
    SnapshotReads(c, s, i, reset);
    InvCounts(c, s);
    var t12 := Observes(c, t, i, 12);
    assert s.observers[i := OIdle] == s.observers;
    if reset {
      ResetReadsKeepInv(c, s, t12, i);
      ResetConcludes(c, t12, i);
      ObservesMore(c, t, i, 12, 5);
    } else {
      LastRead(c, t12, i);
      ObservesMore(c, t, i, 12, 1);
    }
  }

  /** A snapshot that resets nothing is over once it has read all the counters. */
  lemma LastRead(c: nat, s: State, i: nat)
    requires i < |s.observers| && s.observers[i].OCounters? && !s.observers[i].reset
    requires |s.observers[i].got| == |s.counters| == COUNTERS
    ensures Observes(c, s, i, 1) == s.(observers := s.observers[i := OIdle])
  {
    assert Observes(c, s, i, 0) == s;
  }

  lemma ResetReadsKeepInv(c: nat, s: State, t: State, i: nat)
    requires c > 0 && Inv(c, s) && i < |s.observers|
    requires t == s.(observers := s.observers[i := OCounters(true, s.head - s.tail, s.counters)],
                     counters := Zeroed(s.counters, COUNTERS))
    ensures Inv(c, t)
  {
    forall j | 0 <= j < |t.observers| ensures ObserverOk(c, t, t.observers[j]) {
      assert j != i ==> ObserverOk(c, s, s.observers[j]);
    }
  }

  /**
   An undisturbed snapshot, from every reachable state: without a reset it changes nothing; with one it reports all the
   counters, leaves them at zero and restarts the watermark at the live depth.
  */
  lemma UndisturbedSnapshot(c: nat, n: nat, blank: RawCanFrame, actions: seq<Action>, i: nat, reset: bool)
    requires c > 0
    ensures var s := Run(c, 0, Initial(c, n, blank), actions);
            var t := Step(c, 0, s, BeginSnapshot(i, reset));
            i < |s.observers| && s.observers[i].OIdle? ==>
              && i < |t.observers|
              && var u := Observes(c, t, i, if reset then 17 else 13);
              if reset then
                && u == s.(counters := u.counters, mark := s.head - s.tail, reports := s.reports + [s.counters])
                && |u.counters| == COUNTERS && forall k :: 0 <= k < COUNTERS ==> u.counters[k] == 0
              else u == s
  {
    hide Run;
    RunKeepsInv(c, n, blank, actions);
    var s := Run(c, 0, Initial(c, n, blank), actions);
    if i < |s.observers| && s.observers[i].OIdle? {
      SnapshotFrom(c, s, i, reset);
    }
  }

  // --- clear() -------------------------------------------------------------------------------------------------

  /**
   clear(), which no push or pop accompanies, from every reachable state: the queue is empty, every counter and the
   watermark are zero, and what the counters held has been reported.
  */
  lemma UndisturbedClear(c: nat, n: nat, blank: RawCanFrame, actions: seq<Action>, i: nat)
    requires c > 0
    ensures var s := Run(c, 0, Initial(c, n, blank), actions);
            var t := Step(c, 0, Step(c, 0, s, Discard), BeginSnapshot(i, true));
            s.producer.PIdle? && s.consumer.CIdle? && i < |s.observers| && s.observers[i].OIdle? ==>
              && i < |t.observers|
              && var u := Step(c, 0, Observes(c, t, i, 17), ZeroMark);
              && u == s.(tail := s.head, popped := s.accepted, counters := u.counters, mark := 0,
                         reports := s.reports + [s.counters])
              && Queue(u) == []
              && |u.counters| == COUNTERS && forall k :: 0 <= k < COUNTERS ==> u.counters[k] == 0
  {
    hide Run;
    RunKeepsInv(c, n, blank, actions);
    var s := Run(c, 0, Initial(c, n, blank), actions);
    if s.producer.PIdle? && s.consumer.CIdle? && i < |s.observers| && s.observers[i].OIdle? {
      ClearFrom(c, s, i);
    }
  }

  lemma ClearFrom(c: nat, s: State, i: nat)
    requires c > 0 && Inv(c, s) && s.producer.PIdle? && s.consumer.CIdle?
    requires i < |s.observers| && s.observers[i].OIdle?
    ensures var t := Step(c, 0, Step(c, 0, s, Discard), BeginSnapshot(i, true));
            && i < |t.observers|
            && var u := Step(c, 0, Observes(c, t, i, 17), ZeroMark);
            && u == s.(tail := s.head, popped := s.accepted, counters := Zeroed(s.counters, COUNTERS), mark := 0,
                       reports := s.reports + [s.counters])
            && Queue(u) == [] && |s.counters| == COUNTERS
  {
    hide Inv, ProducerStep, ConsumerStep, ObserverStep, Observes;
    var s1 := Step(c, 0, s, Discard);
    StepKeepsInv(c, s, Discard);
    InvCounts(c, s);
    InvIndices(c, s);
    SnapshotFrom(c, s1, i, true);
  }

  lemma InvIndices(c: nat, s: State)
    requires c > 0 && Inv(c, s)
    ensures |s.accepted| == s.head && |s.popped| == s.tail
  {
  }
}
