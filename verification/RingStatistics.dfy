/**
 Conservation of the interval counters while any number of observers resets them. It does not depend on the index
 words, so it holds for any modulus, unbounded indices (m == 0) and lapped observers included.
*/
module RingStatistics {
  import opened Frames
  import opened RingMachine

  /** What a reset in progress has already taken out of counter k. */
  function HeldBy(o: Observer, k: nat): nat {
    if o.OCounters? && o.reset && k < |o.got| then o.got[k] else 0
  }

  function Held(observers: seq<Observer>, k: nat): nat {
    if observers == [] then 0
    else Held(observers[..|observers| - 1], k) + HeldBy(observers[|observers| - 1], k)
  }

  /** The sum of field k over the completed reset snapshots. */
  function Reported(reports: seq<seq<nat>>, k: nat): nat {
    if reports == [] then 0
    else
      var last := reports[|reports| - 1];
      Reported(reports[..|reports| - 1], k) + (if k < |last| then last[k] else 0)
  }

  ghost predicate Conserved(s: State, k: nat) {
    && |s.counters| == |s.recorded| == COUNTERS
    && (forall i :: 0 <= i < |s.observers| && s.observers[i].OCounters? ==> |s.observers[i].got| <= COUNTERS)
    && (k < COUNTERS ==> s.recorded[k] == s.counters[k] + Reported(s.reports, k) + Held(s.observers, k))
  }

  lemma {:induction false} HeldUpdate(observers: seq<Observer>, i: nat, o: Observer, k: nat)
    requires i < |observers|
    ensures Held(observers[i := o], k) == Held(observers, k) - HeldBy(observers[i], k) + HeldBy(o, k)
  {
    var last := |observers| - 1;
    if i < last {
      HeldUpdate(observers[..last], i, o, k);
      assert observers[i := o][..last] == observers[..last][i := o];
    } else {
      assert observers[i := o][..last] == observers[..last];
    }
  }

  lemma {:induction false} NothingHeld(n: nat, k: nat)
    ensures Held(seq(n, i => OIdle), k) == 0
  {
    if n == 0 {
    } else {
      NothingHeld(n - 1, k);
      assert seq(n, i => OIdle)[..n - 1] == seq(n - 1, i => OIdle);
    }
  }

  lemma ReportedAppend(reports: seq<seq<nat>>, got: seq<nat>, k: nat)
    requires k < |got|
    ensures Reported(reports + [got], k) == Reported(reports, k) + got[k]
  {
    assert (reports + [got])[..|reports|] == reports;
  }

  lemma ReadingConserves(c: nat, m: nat, s: State, i: nat, spurious: bool, k: nat)
    requires i < |s.observers| && s.observers[i].OCounters? && k < COUNTERS && Conserved(s, k)
    ensures Conserved(ObserverStep(c, m, s, i, spurious), k)
  {
    var o := s.observers[i];
    var t := ObserverStep(c, m, s, i, spurious);
    HeldUpdate(s.observers, i, t.observers[i], k);
    assert t.observers == s.observers[i := t.observers[i]];
    if o.reset && |o.got| == COUNTERS {
      ReportedAppend(s.reports, o.got, k);
    }
  }

  lemma ObserverConserves(c: nat, m: nat, s: State, i: nat, spurious: bool, k: nat)
    requires i < |s.observers| && k < COUNTERS && Conserved(s, k)
    ensures Conserved(ObserverStep(c, m, s, i, spurious), k)
  {
    hide Distance;
    if s.observers[i].OCounters? {
      ReadingConserves(c, m, s, i, spurious, k);
    } else {
      var t := ObserverStep(c, m, s, i, spurious);
      HeldUpdate(s.observers, i, t.observers[i], k);
      assert t.observers == s.observers[i := t.observers[i]];
    }
  }

  lemma RecordConserves(s: State, counter: nat, count: nat, k: nat)
    requires k < COUNTERS && Conserved(s, k)
    ensures Conserved(Record(s, counter, count), k)
  {
  }

  lemma ProducerConserves(c: nat, m: nat, s: State, spurious: bool, k: nat)
    requires c > 0 && k < COUNTERS && Conserved(s, k)
    ensures Conserved(ProducerStep(c, m, s, spurious), k)
  {
    hide Record, Distance, Successor, Held, Reported;
    RecordConserves(s, DROPPED, 1, k);
    RecordConserves(s, OVERFLOWS, 1, k);
    RecordConserves(s, QUEUED, 1, k);
  }

  lemma ConsumerConserves(c: nat, m: nat, s: State, k: nat)
    requires c > 0 && k < COUNTERS && Conserved(s, k)
    ensures Conserved(ConsumerStep(c, m, s), k)
  {
    hide Record, Successor, Held, Reported;
    RecordConserves(s, DELIVERED, 1, k);
  }

  lemma StepConserves(c: nat, m: nat, s: State, a: Action, k: nat)
    requires c > 0 && k < COUNTERS && Conserved(s, k)
    ensures Conserved(Step(c, m, s, a), k)
  {
    hide ProducerStep, ConsumerStep, ObserverStep;
    match a {
      case Produce(spurious) => ProducerConserves(c, m, s, spurious, k);
      case Consume => ConsumerConserves(c, m, s, k);
      case Observe(i, spurious) => if i < |s.observers| { ObserverConserves(c, m, s, i, spurious, k); }
      case BeginSnapshot(i, reset) =>
        if i < |s.observers| {
          HeldUpdate(s.observers, i, OTailBefore(Sample(reset), |s.popped|, 0), k);
        }
      case RecordEvent(counter, count) => RecordConserves(s, counter, count, k);
      case BeginPush(_) => RecordConserves(s, RECEIVED, 1, k);
      case _ =>
    }
  }

  lemma {:induction false} RunConserves(c: nat, m: nat, n: nat, blank: RawCanFrame, actions: seq<Action>, k: nat)
    requires c > 0 && k < COUNTERS
    ensures Conserved(Run(c, m, Initial(c, n, blank), actions), k)
  {
    hide Step;
    if actions == [] {
      NothingHeld(n, k);
    } else {
      var before := actions[..|actions| - 1];
      RunConserves(c, m, n, blank, before, k);
      StepConserves(c, m, Run(c, m, Initial(c, n, blank), before), actions[|actions| - 1], k);
    }
  }

  /**
   In every interleaving, on any index words and for every counter: all events ever recorded are the completed
   reset snapshots, plus what resets in progress have already taken, plus the live value. Nothing is lost or
   counted twice.
  */
  lemma CountersAreConserved(c: nat, m: nat, n: nat, blank: RawCanFrame, actions: seq<Action>, k: nat)
    requires c > 0 && k < COUNTERS
    ensures var s := Run(c, m, Initial(c, n, blank), actions);
            && |s.counters| == |s.recorded| == COUNTERS
            && s.recorded[k] == s.counters[k] + Reported(s.reports, k) + Held(s.observers, k)
  {
    hide Run;
    RunConserves(c, m, n, blank, actions, k);
  }

  /** The events of counter k that an action stands for; the counters of push() and pop() but the first are left out. */
  function EventsOf(s: State, a: Action, k: nat): nat {
    match a
    case RecordEvent(counter, count) => if counter == k && k > OVERFLOWS then count else 0
    case BeginPush(_) => if s.producer.PIdle? && k == RECEIVED then 1 else 0
    case _ => 0
  }

  function Events(c: nat, m: nat, s0: State, actions: seq<Action>, k: nat): nat
    requires c > 0
  {
    if actions == [] then 0
    else
      var before := actions[..|actions| - 1];
      Events(c, m, s0, before, k) + EventsOf(Run(c, m, s0, before), actions[|actions| - 1], k)
  }

  lemma ThreadsRecordTheirOwn(c: nat, m: nat, s: State, spurious: bool, k: nat)
    requires c > 0 && |s.counters| == |s.recorded| == COUNTERS && (k == RECEIVED || OVERFLOWS < k < COUNTERS)
    ensures ProducerStep(c, m, s, spurious).recorded[k] == s.recorded[k]
    ensures ConsumerStep(c, m, s).recorded[k] == s.recorded[k]
  {
    hide Distance, Successor;
  }

  lemma StepCounts(c: nat, m: nat, s: State, a: Action, k: nat)
    requires c > 0 && |s.counters| == |s.recorded| == COUNTERS && (k == RECEIVED || OVERFLOWS < k < COUNTERS)
    ensures var t := Step(c, m, s, a);
            |t.recorded| == COUNTERS && t.recorded[k] == s.recorded[k] + EventsOf(s, a, k)
  {
    hide ProducerStep, ConsumerStep, Distance;
    if a.Produce? || a.Consume? {
      ThreadsRecordTheirOwn(c, m, s, a.Produce? && a.spurious, k);
      if a.Produce? { ProducerConservesLengths(c, m, s, a.spurious); } else { ConsumerConservesLengths(c, m, s); }
    }
  }

  lemma ProducerConservesLengths(c: nat, m: nat, s: State, spurious: bool)
    requires c > 0
    ensures |ProducerStep(c, m, s, spurious).recorded| == |s.recorded|
  {
    hide Distance, Successor;
  }

  lemma ConsumerConservesLengths(c: nat, m: nat, s: State)
    requires c > 0
    ensures |ConsumerStep(c, m, s).recorded| == |s.recorded|
  {
    hide Distance, Successor;
  }

  lemma {:induction false} RunCounts(c: nat, m: nat, n: nat, blank: RawCanFrame, actions: seq<Action>, k: nat)
    requires c > 0 && (k == RECEIVED || OVERFLOWS < k < COUNTERS)
    ensures var s0 := Initial(c, n, blank);
            var s := Run(c, m, s0, actions);
            |s.recorded| == COUNTERS && s.recorded[k] == Events(c, m, s0, actions, k)
  {
    hide Step, EventsOf;
    if actions == [] {
    } else {
      var s0, before := Initial(c, n, blank), actions[..|actions| - 1];
      RunCounts(c, m, n, blank, before, k);
      RunConserves(c, m, n, blank, before, k);
      StepCounts(c, m, Run(c, m, s0, before), actions[|actions| - 1], k);
    }
  }

  /**
   Every push begun, and every bus error, missed frame, controller reset and bus-off event with its count, is in
   exactly one place: in a completed report, in a reset under way or in the live counter.
  */
  lemma EventsAreReportedOnce(c: nat, m: nat, n: nat, blank: RawCanFrame, actions: seq<Action>, k: nat)
    requires c > 0 && (k == RECEIVED || OVERFLOWS < k < COUNTERS)
    ensures var s0 := Initial(c, n, blank);
            var s := Run(c, m, s0, actions);
            && |s.counters| == COUNTERS
            && Events(c, m, s0, actions, k) == s.counters[k] + Reported(s.reports, k) + Held(s.observers, k)
  {
    hide Run, Events;
    RunCounts(c, m, n, blank, actions, k);
    RunConserves(c, m, n, blank, actions, k);
  }

  /** How many queued frames clear() has discarded so far. */
  function Discarded(c: nat, m: nat, s0: State, actions: seq<Action>): int
    requires c > 0
  {
    if actions == [] then 0
    else
      var before := actions[..|actions| - 1];
      Discarded(c, m, s0, before) + DiscardedBy(Run(c, m, s0, before), actions[|actions| - 1])
  }

  function DiscardedBy(s: State, a: Action): int {
    if a.Discard? && Undisturbed(s) then |s.accepted| - |s.popped| else 0
  }

  /** How far the event counts of the push and pop in progress lag behind the frames accepted and popped. */
  ghost predicate Tallied(s: State, discarded: int) {
    && |s.counters| == |s.recorded| == COUNTERS
    && var p := s.producer;
    && s.recorded[RECEIVED]
       == s.recorded[QUEUED] + s.recorded[DROPPED] + (if p.PIdle? || p.PCountOverflow? then 0 else 1)
    && s.recorded[DROPPED] == s.recorded[OVERFLOWS] + (if p.PCountOverflow? then 1 else 0)
    && |s.accepted|
       == s.recorded[QUEUED] + (if p.PLoadMark? || p.PRaise? || p.PCountQueued? then 1 else 0)
    && |s.popped| == s.recorded[DELIVERED] + discarded + (if s.consumer.CCount? then 1 else 0)
  }

  lemma ProducerTallies(c: nat, m: nat, s: State, spurious: bool, discarded: int)
    requires c > 0 && Tallied(s, discarded)
    ensures Tallied(ProducerStep(c, m, s, spurious), discarded)
  {
    hide Distance, Successor;
  }

  lemma ConsumerTallies(c: nat, m: nat, s: State, discarded: int)
    requires c > 0 && Tallied(s, discarded)
    ensures Tallied(ConsumerStep(c, m, s), discarded)
  {
    hide Successor;
  }

  lemma ObserverTallies(c: nat, m: nat, s: State, i: nat, spurious: bool, discarded: int)
    requires i < |s.observers| && Tallied(s, discarded)
    ensures Tallied(ObserverStep(c, m, s, i, spurious), discarded)
  {
    hide Distance;
  }

  lemma StepTallies(c: nat, m: nat, s: State, a: Action, discarded: int)
    requires c > 0 && Tallied(s, discarded)
    ensures Tallied(Step(c, m, s, a), discarded + DiscardedBy(s, a))
  {
    hide ProducerStep, ConsumerStep, ObserverStep;
    match a {
      case Produce(spurious) => ProducerTallies(c, m, s, spurious, discarded);
      case Consume => ConsumerTallies(c, m, s, discarded);
      case Observe(i, spurious) => if i < |s.observers| { ObserverTallies(c, m, s, i, spurious, discarded); }
      case _ =>
    }
  }

  lemma {:induction false} RunTallies(c: nat, m: nat, n: nat, blank: RawCanFrame, actions: seq<Action>)
    requires c > 0
    ensures var s0 := Initial(c, n, blank);
            Tallied(Run(c, m, s0, actions), Discarded(c, m, s0, actions))
  {
    hide Step;
    if actions == [] {
    } else {
      var s0, before := Initial(c, n, blank), actions[..|actions| - 1];
      RunTallies(c, m, n, blank, before);
      StepTallies(c, m, Run(c, m, s0, before), actions[|actions| - 1], Discarded(c, m, s0, before));
    }
  }

  /**
   On any index words: with no push in progress, every received frame was either queued or dropped and every drop is
   an overflow; with no pop in progress either, what is still in the ring is what was queued and neither delivered
   nor discarded.
  */
  lemma TotalsBalance(c: nat, m: nat, n: nat, blank: RawCanFrame, actions: seq<Action>)
    requires c > 0
    ensures var s0 := Initial(c, n, blank);
            var s := Run(c, m, s0, actions);
            && |s.recorded| == COUNTERS
            && (s.producer.PIdle? ==>
                  && s.recorded[RECEIVED] == s.recorded[QUEUED] + s.recorded[DROPPED]
                  && s.recorded[OVERFLOWS] == s.recorded[DROPPED])
            && (Undisturbed(s) ==>
                  |s.accepted| - |s.popped|
                  == s.recorded[QUEUED] - s.recorded[DELIVERED] - Discarded(c, m, s0, actions))
  {
    hide Run, Discarded;
    RunTallies(c, m, n, blank, actions);
  }
}
