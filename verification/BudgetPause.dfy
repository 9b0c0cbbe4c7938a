/**
 The budget pause: on a host a wait on a condition variable that any number of threads may end by requesting a
 stop, interleaved over the mutex, the predicate and the notification; on the tick backend a loop of one-tick
 delays.
*/
module BudgetPauses {

  // --- the condition variable ----------------------------------------------------------------------------------

  /** Where the worker is in budget_pause(). `Blocked` is inside the wait, with the mutex released. */
  datatype Waiter =
    | Outside(completed: bool)
    | WantLock
    | Check
    | Record
    | Test
    | Block
    | Blocked
    | Relock(timedOut: bool)
    | LastTest
    | Unlock(completed: bool)

  /** A thread inside request_stop(). */
  datatype Stopper = Away | Locking | Storing | Notifying | Unlocking

  datatype Owner = Nobody | Worker | ThreadAt(index: nat)

  /** `expired` is history: the time-out of this pause has fired. */
  datatype State = State(owner: Owner, stop: bool, worker: Waiter, stoppers: seq<Stopper>, expired: bool)

  datatype Action =
    | BeginPause
    | WorkerStep
    | TimeOut
    | WakeSpuriously
    | RequestStop(thread: nat)
    | StopperStep(thread: nat)

  function Initial(threads: nat): State {
    State(Nobody, false, Outside(false), seq(threads, i => Away), false)
  }

  /** An attempt to lock: the thread waits where it is while the mutex is taken. */
  function LockWorker(s: State, next: Waiter): State {
    if s.owner.Nobody? then s.(owner := Worker, worker := next) else s
  }

  function RunWorker(s: State): State {
    match s.worker
    case Outside(_) => s
    case WantLock => LockWorker(s, Check)
    case Check => s.(worker := if s.stop then Unlock(false) else Record)
    case Record => s.(worker := Test)
    case Test => s.(worker := if s.stop then Unlock(false) else Block)
    case Block => s.(owner := Nobody, worker := Blocked)
    case Blocked => s
    case Relock(timedOut) => LockWorker(s, if timedOut then LastTest else Test)
    case LastTest => s.(worker := Unlock(!s.stop))
    case Unlock(completed) => s.(owner := Nobody, worker := Outside(completed))
  }

  /** notify_all() ends the wait of a worker that is blocked in it. */
  function Notify(w: Waiter): Waiter {
    if w.Blocked? then Relock(false) else w
  }

  function At(s: State, i: nat, next: Stopper): State
    requires i < |s.stoppers|
  {
    s.(stoppers := s.stoppers[i := next])
  }

  function RunStopper(s: State, i: nat): State
    requires i < |s.stoppers|
  {
    match s.stoppers[i]
    case Away => s
    case Locking => if s.owner.Nobody? then At(s.(owner := ThreadAt(i)), i, Storing) else s
    case Storing => At(s.(stop := true), i, Notifying)
    case Notifying => At(s.(worker := Notify(s.worker)), i, Unlocking)
    case Unlocking => At(s.(owner := Nobody), i, Away)
  }

  /** The deadline passes while the worker waits or is about to relock. */
  function Expire(s: State): State {
    if s.worker.Blocked? || s.worker.Relock? then s.(worker := Relock(true), expired := true) else s
  }

  function Step(s: State, a: Action): State {
    match a
    case BeginPause => if s.worker.Outside? then s.(worker := WantLock, expired := false) else s
    case WorkerStep => RunWorker(s)
    case TimeOut => Expire(s)
    case WakeSpuriously => s.(worker := Notify(s.worker))
    case RequestStop(i) => if i < |s.stoppers| && s.stoppers[i].Away? then At(s, i, Locking) else s
    case StopperStep(i) => if i < |s.stoppers| then RunStopper(s, i) else s
  }

  function Run(threads: nat, actions: seq<Action>): State {
    if actions == [] then Initial(threads)
    else Step(Run(threads, actions[..|actions| - 1]), actions[|actions| - 1])
  }

  predicate WorkerHolds(w: Waiter) {
    w.Check? || w.Record? || w.Test? || w.Block? || w.LastTest? || w.Unlock?
  }

  predicate StopperHolds(t: Stopper) {
    t.Storing? || t.Notifying? || t.Unlocking?
  }

  ghost predicate Inv(s: State) {
    && (s.owner.Worker? <==> WorkerHolds(s.worker))
    && (s.owner.ThreadAt? ==> s.owner.index < |s.stoppers|)
    && (forall i: nat | i < |s.stoppers| :: StopperHolds(s.stoppers[i]) <==> s.owner == ThreadAt(i))
    && (forall i: nat | i < |s.stoppers| :: s.stoppers[i].Notifying? || s.stoppers[i].Unlocking? ==> s.stop)
    && (s.worker.Block? ==> !s.stop)
    && (s.worker.Blocked? && s.stop ==> s.owner.ThreadAt? && s.stoppers[s.owner.index].Notifying?)
    && (s.worker == Relock(true) || s.worker.LastTest? || s.worker == Unlock(true) || s.worker == Outside(true) ==>
          s.expired)
    && (s.worker == Unlock(false) ==> s.stop)
    && (s.worker.Record? ==> !s.stop)
  }

  lemma StopperKeepsInv(s: State, i: nat)
    requires Inv(s) && i < |s.stoppers|
    ensures Inv(RunStopper(s, i))
  {
  }

  lemma StepKeepsInv(s: State, a: Action)
    requires Inv(s)
    ensures Inv(Step(s, a))
  {
    match a {
      case StopperStep(i) => if i < |s.stoppers| { StopperKeepsInv(s, i); }
      case _ =>
    }
  }

  lemma {:induction false} RunKeepsInv(threads: nat, actions: seq<Action>)
    ensures Inv(Run(threads, actions))
  {
    if actions == [] {
    } else {
      RunKeepsInv(threads, actions[..|actions| - 1]);
      StepKeepsInv(Run(threads, actions[..|actions| - 1]), actions[|actions| - 1]);
    }
  }

  /**
   No wakeup is lost: whenever the worker is blocked although a stop is requested, the thread that requested it
   holds the mutex, and its next step, which nothing can hinder, ends the wait.
  */
  lemma NoWakeupIsLost(threads: nat, actions: seq<Action>)
    ensures var s := Run(threads, actions);
            s.worker.Blocked? && s.stop ==>
              exists i: nat :: i < |s.stoppers| && s.stoppers[i].Notifying? && !Step(s, StopperStep(i)).worker.Blocked?
  {
    RunKeepsInv(threads, actions);
    var s := Run(threads, actions);
    if s.worker.Blocked? && s.stop {
      var i := s.owner.index;
      assert s.stoppers[i].Notifying? && !Step(s, StopperStep(i)).worker.Blocked?;
    }
  }

  /** A pause that reports completion lasted until its time-out; notifications and spurious wakes do not complete it. */
  lemma CompletedPauseExpired(threads: nat, actions: seq<Action>)
    ensures var s := Run(threads, actions); s.worker == Outside(true) ==> s.expired
  {
    RunKeepsInv(threads, actions);
  }

  /** A pause is recorded only without a requested stop, and given up only for one. */
  lemma AbandonedPauseWasStopped(threads: nat, actions: seq<Action>)
    ensures var s := Run(threads, actions);
            (s.worker.Record? ==> !s.stop) && (s.worker == Unlock(false) ==> s.stop)
  {
    RunKeepsInv(threads, actions);
  }

  function RunOn(s: State, actions: seq<Action>): State
    decreases |actions|
  {
    if actions == [] then s else RunOn(Step(s, actions[0]), actions[1..])
  }

  lemma RunOnTwo(s: State, a: Action, b: Action)
    ensures RunOn(s, [a, b]) == Step(Step(s, a), b)
  {
    assert [a, b][1..] == [b] && [b][1..] == [];
    assert RunOn(Step(s, a), [b]) == RunOn(Step(Step(s, a), b), []);
  }

  lemma RunOnFour(s: State, a: Action, b: Action, c: Action, d: Action)
    ensures RunOn(s, [a, b, c, d]) == Step(Step(Step(Step(s, a), b), c), d)
  {
    assert [a, b, c, d][1..] == [b, c, d] && [b, c, d][1..] == [c, d];
    RunOnTwo(Step(Step(s, a), b), c, d);
  }

  /**
   Undisturbed and not stopped, a pause is recorded after three steps and waits after three more, with the mutex free
   and the time-out of an earlier pause forgotten.
  */
  lemma PauseEntersWait(s: State)
    requires s.owner.Nobody? && !s.stop && s.worker.Outside?
    ensures var recorded := Step(RunOn(s, [BeginPause, WorkerStep]), WorkerStep);
            && recorded.worker.Record?
            && Step(RunOn(recorded, [WorkerStep, WorkerStep]), WorkerStep) == s.(worker := Blocked, expired := false)
  {
    RunOnTwo(s, BeginPause, WorkerStep);
    RunOnTwo(Step(RunOn(s, [BeginPause, WorkerStep]), WorkerStep), WorkerStep, WorkerStep);
  }

  /** Then its time-out completes it in three steps. */
  lemma PauseExpires(s: State)
    requires s.owner.Nobody? && !s.stop && s.worker.Blocked?
    ensures RunOn(s, [TimeOut, WorkerStep, WorkerStep, WorkerStep])
            == s.(worker := Outside(true), owner := Nobody, expired := true)
  {
    RunOnFour(s, TimeOut, WorkerStep, WorkerStep, WorkerStep);
  }

  /** A thread that requests the stop stores it, ends a wait in progress and gives the mutex back, in four steps. */
  lemma StopperFinishes(s: State, i: nat)
    requires s.owner.Nobody? && i < |s.stoppers| && s.stoppers[i].Away?
    ensures RunOn(Step(s, RequestStop(i)), [StopperStep(i), StopperStep(i), StopperStep(i), StopperStep(i)])
            == s.(stop := true, worker := if s.worker.Blocked? then Relock(false) else s.worker)
  {
    var s1 := Step(s, RequestStop(i));
    var s2 := Step(s1, StopperStep(i));
    assert s2 == s.(owner := ThreadAt(i), stoppers := s.stoppers[i := Storing]);
    var s3 := Step(s2, StopperStep(i));
    assert s3 == s2.(stop := true, stoppers := s.stoppers[i := Notifying]);
    var s4 := Step(s3, StopperStep(i));
    assert s4 == s3.(worker := Notify(s.worker), stoppers := s.stoppers[i := Unlocking]);
    RunOnFour(s1, StopperStep(i), StopperStep(i), StopperStep(i), StopperStep(i));
    assert s4.stoppers[i := Away] == s.stoppers;
  }

  /** After that a pause that waited ends as not completed in three steps, and a new one in four, unrecorded. */
  lemma StoppedPauseEnds(s: State)
    requires s.owner.Nobody? && s.stop
    ensures s.worker == Relock(false) ==>
              Step(RunOn(s, [WorkerStep, WorkerStep]), WorkerStep) == s.(worker := Outside(false))
    ensures s.worker.Outside? ==>
              RunOn(s, [BeginPause, WorkerStep, WorkerStep, WorkerStep])
              == s.(worker := Outside(false), expired := false)
  {
    RunOnTwo(s, WorkerStep, WorkerStep);
    RunOnFour(s, BeginPause, WorkerStep, WorkerStep, WorkerStep);
  }

  /** Once the stop is requested the worker neither blocks any more nor decides that its pause completed. */
  lemma StoppedPauseDoesNotBlock(threads: nat, actions: seq<Action>, a: Action)
    ensures var s := Run(threads, actions);
            var t := Step(s, a);
            s.stop ==>
              && (t.worker.Blocked? ==> s.worker.Blocked?)
              && (t.worker == Unlock(true) ==> s.worker == Unlock(true))
  {
    RunKeepsInv(threads, actions);
  }

  // --- the tick backend ----------------------------------------------------------------------------------------

  /** A load of the stop flag, or a delay of one tick. */
  datatype Event = Load(seen: bool) | Delay

  function Delays(events: seq<Event>): nat {
    if events == [] then 0 else Delays(events[..|events| - 1]) + if events[|events| - 1].Delay? then 1 else 0
  }

  lemma AppendDelays(events: seq<Event>, e: Event)
    ensures Delays(events + [e]) == Delays(events) + if e.Delay? then 1 else 0
  {
    assert (events + [e])[..|events|] == events;
  }

  /** The stop is seen by every load from event number `requested` on. */
  ghost predicate SeenFrom(events: seq<Event>, requested: nat) {
    forall i :: 0 <= i < |events| && events[i].Load? ==> events[i].seen == (i >= requested)
  }

  /** The whole number of ticks that covers `ms` milliseconds at `hz` ticks per second. */
  function TicksFor(ms: nat, hz: nat): nat {
    (ms * hz + 999) / 1000
  }

  lemma TicksAreTheCeiling(ms: nat, hz: nat)
    requires ms > 0 && hz > 0
    ensures TicksFor(ms, hz) >= 1
    ensures (TicksFor(ms, hz) - 1) * 1000 < ms * hz <= TicksFor(ms, hz) * 1000
  {
    assert ms * hz >= 1 by {
      assert ms * hz == (ms - 1) * hz + hz;
    }
  }

  /** The ticks that pass after a stop request before event number `requested`. */
  function TicksAfter(events: seq<Event>, requested: nat): nat {
    if requested <= |events| then Delays(events[requested..]) else 0
  }

  /** The last load after at most one more event leaves at most one tick after the request. */
  lemma OneMoreTick(events: seq<Event>, seen: bool, requested: nat)
    requires |events| <= requested + 1
    ensures TicksAfter(events + [Load(seen)], requested) <= 1
  {
    if requested <= |events| + 1 {
      var rest := (events + [Load(seen)])[requested..];
      if |rest| == 2 {
        assert rest == [events[requested]] + [Load(seen)];
        AppendDelays([events[requested]], Load(seen));
        AppendDelays([], events[requested]);
        assert [] + [events[requested]] == [events[requested]];
      } else if |rest| == 1 {
        AppendDelays([], Load(seen));
        assert rest == [] + [Load(seen)];
      }
    }
  }

  lemma SeenAppend(events: seq<Event>, requested: nat)
    requires SeenFrom(events, requested)
    ensures SeenFrom(events + [Load(|events| >= requested)], requested)
    ensures SeenFrom(events + [Delay], requested)
  {
  }

  lemma NothingYet(requested: nat)
    ensures SeenFrom([], requested) && Delays([]) == 0
  {
  }

  /** The delays of the pause; `requested` numbers the first event after the stop request. */
  method DelayTicks(ticks: nat, requested: nat) returns (completed: bool, events: seq<Event>)
    ensures SeenFrom(events, requested) && TicksAfter(events, requested) <= 1
    ensures completed <==> requested >= |events|
    ensures if completed then Delays(events) == ticks else Delays(events) <= ticks
  {
    hide Delays, TicksAfter, SeenFrom;
    var before := [];
    var remaining: nat := ticks;
    NothingYet(requested);
    while remaining != 0
      invariant remaining <= ticks && Delays(before) == ticks - remaining
      invariant SeenFrom(before, requested) && |before| <= requested + 1
      decreases remaining
    {
      var seen := |before| >= requested;
      events := before + [Load(seen)];
      AppendDelays(before, Load(seen));
      SeenAppend(before, requested);
      OneMoreTick(before, seen, requested);
      if seen {
        return false, events;
      }
      AppendDelays(events, Delay);
      SeenAppend(events, requested);
      before := events + [Delay];
      remaining := remaining - 1;
    }
    var seen := |before| >= requested;
    events := before + [Load(seen)];
    AppendDelays(before, Load(seen));
    SeenAppend(before, requested);
    OneMoreTick(before, seen, requested);
    completed := !seen;
  }

  /**
   budget_pause() on the tick backend. The flag is loaded once before anything is recorded; `requested` numbers
   the first event after the stop request. At most one tick follows the request, and a pause that completes has
   delayed for the whole ceiling.
  */
  method TickPause(ms: nat, hz: nat, requested: nat) returns (completed: bool, events: seq<Event>)
    ensures SeenFrom(events, requested) && TicksAfter(events, requested) <= 1
    ensures completed <==> requested >= |events|
    ensures if completed then Delays(events) == TicksFor(ms, hz) else Delays(events) <= TicksFor(ms, hz)
  {
    if requested == 0 {
      OneMoreTick([], true, 0);
      AppendDelays([], Load(true));
      completed, events := false, [] + [Load(true)];
      return;
    }
    var rest;
    completed, rest := DelayTicks(TicksFor(ms, hz), requested - 1);
    PrependLoad(rest);
    events := [Load(false)] + rest;
    Shifted(rest, requested);
  }

  lemma Shifted(rest: seq<Event>, requested: nat)
    requires requested > 0
    ensures TicksAfter([Load(false)] + rest, requested) == TicksAfter(rest, requested - 1)
    ensures SeenFrom(rest, requested - 1) ==> SeenFrom([Load(false)] + rest, requested)
  {
    var events := [Load(false)] + rest;
    if requested <= |events| {
      assert events[requested..] == rest[requested - 1..];
    }
    if SeenFrom(rest, requested - 1) {
      forall i | 0 <= i < |events| && events[i].Load? ensures events[i].seen == (i >= requested) {
        assert i > 0 ==> events[i] == rest[i - 1];
      }
    }
  }

  lemma {:induction false} PrependLoad(rest: seq<Event>)
    ensures Delays([Load(false)] + rest) == Delays(rest)
  {
    if rest == [] {
      AppendDelays([], Load(false));
      assert [] + [Load(false)] == [Load(false)] + rest;
    } else {
      var last := |rest| - 1;
      PrependLoad(rest[..last]);
      assert [Load(false)] + rest == [Load(false)] + rest[..last] + [rest[last]];
      AppendDelays([Load(false)] + rest[..last], rest[last]);
    }
  }
}
