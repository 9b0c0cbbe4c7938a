/**
 What a late acknowledgement costs a consumer. A task that outlives its stop can give the wakeup of its fault in a later
 run: a token without a frame. The receive() that takes it finds the ring empty, and the next one waits for a wakeup
 that was given already. Prompt is the exact condition for receive() as it is for the driver.
*/
module BusStarvation {
  import opened BusMachine
  import opened BusOwnership
  import opened BusSafety
  import opened BusProgress
  import BusDelayedAck
  import BusTheorems

  /** Moves without a breach, and where they lead. */
  datatype Walk = Walk(start: Bus, moves: seq<Action>, end: Bus)

  ghost predicate Walked(w: Walk) {
    RunFrom(w.start, w.moves) == w.end && Unbreached(w.start, w.moves) && OwnInv(w.end)
  }

  lemma {:induction false} Joined(b: Bus, first: seq<Action>, second: seq<Action>)
    ensures RunFrom(b, first + second) == RunFrom(RunFrom(b, first), second)
    ensures Unbreached(b, first + second) <==> Unbreached(b, first) && Unbreached(RunFrom(b, first), second)
    decreases |first|
  {
    hide Step, Breach;
    if first == [] {
      assert first + second == second;
    } else {
      assert (first + second)[1..] == first[1..] + second;
      Joined(Step(b, first[0]), first[1..], second);
    }
  }

  lemma Onward(w: Walk, moves: seq<Action>, end: Bus) returns (v: Walk)
    requires Walked(w) && RunFrom(w.end, moves) == end && Unbreached(w.end, moves) && OwnInv(end)
    ensures Walked(v) && v.start == w.start && v.end == end
  {
    Joined(w.start, w.moves, moves);
    v := Walk(w.start, w.moves + moves, end);
  }

  lemma Then(w: Walk, a: Action) returns (v: Walk)
    requires Walked(w) && !Breach(w.end, a)
    ensures Walked(v) && v.start == w.start && v.end == Step(w.end, a)
  {
    hide Step, OwnInv, Breach;
    StepKeepsOwnership(w.end, a);
    OneMove(w.end, a);
    v := Onward(w, [a], Step(w.end, a));
  }

  lemma OneMove(b: Bus, a: Action)
    requires !Breach(b, a)
    ensures RunFrom(b, [a]) == Step(b, a) && Unbreached(b, [a])
  {
    hide Step, Breach;
    assert [a][1..] == [];
  }

  // --- from a breach to a token without a frame ----------------------------------------------------------------

  /** Between two lifecycle calls, with nobody receiving. */
  ghost predicate Rests(b: Bus, tasks: seq<Task>) {
    b.app.AIdle? && b.consumer.CIdle? && b.tasks == tasks
  }

  ghost predicate NoGive(tasks: seq<Task>) {
    forall i :: 0 <= i < |tasks| ==> !tasks[i].TGiveAck?
  }

  /** The consumer leaves a receive() in progress, and nothing else moves. */
  lemma {:induction false} ConsumerEnds(w: Walk) returns (v: Walk)
    requires Walked(w) && w.end.app.AIdle?
    ensures Walked(v) && v.start == w.start && Rests(v.end, w.end.tasks)
    ensures v.end.control == w.end.control && v.end.driver == w.end.driver && v.end.shared.acks == w.end.shared.acks
    decreases Patience(w.end.consumer)
  {
    hide OwnInv, Walked, RunFrom, Unbreached;
    if w.end.consumer.CIdle? {
      v := w;
    } else {
      ConsumerProgresses(w.end);
      v := Then(w, ConsumerStep);
      v := ConsumerEnds(v);
    }
  }

  /** The delayed tasks give their acknowledgements, of which the semaphore keeps one. */
  lemma {:induction false} AcksAreGiven(w: Walk, tasks: seq<Task>) returns (v: Walk, rest: seq<Task>)
    requires Walked(w) && Rests(w.end, tasks + [TLoop]) && (w.end.shared.acks == 1 || !NoGive(tasks))
    ensures Walked(v) && v.start == w.start && Rests(v.end, rest + [TLoop]) && NoGive(rest)
    ensures v.end.control == w.end.control && v.end.driver == w.end.driver && v.end.shared.acks == 1
    decreases |tasks|
  {
    hide OwnInv, Walked, RunFrom, Unbreached;
    if NoGive(tasks) {
      v, rest := w, tasks;
    } else {
      var i :| 0 <= i < |tasks| && tasks[i].TGiveAck?;
      assert w.end.tasks[i] == tasks[i];
      v := Then(w, TaskStep(i, Idle, true, false));
      assert v.end.tasks == tasks[..i] + tasks[i + 1..] + [TLoop];
      v, rest := AcksAreGiven(v, tasks[..i] + tasks[i + 1..]);
    }
  }

  /** A stop() that takes an acknowledgement it finds, while no task moves. */
  lemma Stops(w: Walk, tasks: seq<Task>) returns (v: Walk)
    requires Walked(w) && Rests(w.end, tasks) && w.end.driver.installed && w.end.shared.acks == 1
    ensures Walked(v) && v.start == w.start && Rests(v.end, tasks) && v.end.control.state.Stopped?
  {
    hide OwnInv, RunFrom, Unbreached, Step;
    BeginsSupplied(w.end);
    v := Then(w, BeginStop);
    var more := StopEndsOnAck(v.end);
    v := Onward(v, more, RunFrom(v.end, more));
    ReleasedIsStopped(v.end);
  }

  lemma BeginsSupplied(b: Bus)
    requires OwnInv(b) && b.app.AIdle? && b.driver.installed && b.shared.acks == 1
    ensures var t := Step(b, BeginStop);
            Supplied(t) && t.tasks == b.tasks && t.consumer == b.consumer && !Breach(b, BeginStop)
  {
    hide OwnInv;
    StopBegins(b);
  }

  lemma ReleasedIsStopped(b: Bus)
    requires OwnInv(b) && b.app.AIdle? && !b.driver.installed
    ensures b.control.state.Stopped?
  {
  }

  /** Running after a start, with nothing left over. */
  ghost predicate Started(b: Bus, tasks: seq<Task>) {
    && Rests(b, tasks + [TLoop]) && b.control.state.Running? && b.driver.installed
    && b.shared.receiveRequested && b.shared.depth == b.shared.tokens == b.shared.acks == 0 && b.shared.semaphores
    && b.history.fault == Fault(false, false, false)
  }

  lemma Starts(w: Walk, tasks: seq<Task>) returns (v: Walk)
    requires Walked(w) && Rests(w.end, tasks) && w.end.control.state.Stopped? && NoGive(tasks)
    ensures Walked(v) && v.start == w.start && Started(v.end, tasks)
  {
    hide OwnInv, RunFrom, Unbreached, Step;
    StartBegins(w.end);
    v := Then(w, BeginStart(true));
    var more := StartEnds(v.end);
    v := Onward(v, more, RunFrom(v.end, more));
    RunningHasDriver(v.end);
  }

  lemma RunningHasDriver(b: Bus)
    requires OwnInv(b) && b.app.AIdle? && b.control.state.Running?
    ensures b.driver.installed
  {
  }

  lemma TaskMoves(w: Walk, i: nat, reception: Reception) returns (v: Walk)
    requires Walked(w) && w.end.app.AIdle? && i < |w.end.tasks|
    ensures Walked(v) && v.start == w.start && v.end == OneTaskStep(w.end, i, reception, true, false)
  {
    hide OwnInv, RunFrom, Unbreached, OneTaskStep;
    v := Then(w, TaskStep(i, reception, true, false));
  }

  /** The last task but one finds the driver broken and asks everybody to stop receiving. */
  lemma OldTaskMeetsFault(w: Walk, tasks: seq<Task>) returns (v: Walk)
    requires Walked(w) && Started(w.end, tasks + [TLoop])
    ensures Walked(v) && v.start == w.start && Rests(v.end, tasks + [TLatchLoad, TLoop])
    ensures v.end.control.state.Running? && v.end.driver.installed && !v.end.shared.receiveRequested
  {
    hide OwnInv, Walked;
    assert w.end.tasks == tasks + [TLoop, TLoop];
    v := TaskMoves(w, |tasks|, Idle);
    assert v.end.tasks == tasks + [TReceive, TLoop];
    v := TaskMoves(v, |tasks|, Broken);
    assert v.end.tasks == tasks + [TLatchFlag, TLoop];
    v := TaskMoves(v, |tasks|, Idle);
    assert v.end.tasks == tasks + [TLatchLoad, TLoop];
  }

  /** It latches the fault, and does not signal it yet. */
  lemma OldTaskLatches(w: Walk, tasks: seq<Task>) returns (v: Walk)
    requires Walked(w) && Rests(w.end, tasks + [TLatchLoad, TLoop])
    requires w.end.control.state.Running? && w.end.driver.installed && !w.end.shared.receiveRequested
    ensures Walked(v) && v.start == w.start && Rests(v.end, tasks + [TLatchSignal, TLoop])
    ensures v.end.driver.installed && !v.end.shared.receiveRequested
  {
    hide OwnInv, Walked;
    v := TaskMoves(w, |tasks|, Idle);
    assert v.end.tasks == tasks + [TLatchExchange(Running), TLoop];
    v := TaskMoves(v, |tasks|, Idle);
    assert v.end.tasks == tasks + [TLatchSignal, TLoop];
  }

  /** The last task leaves its loop and acknowledges. */
  lemma NewTaskLeaves(w: Walk, tasks: seq<Task>) returns (v: Walk)
    requires Walked(w) && Rests(w.end, tasks + [TLoop])
    requires w.end.driver.installed && !w.end.shared.receiveRequested
    ensures Walked(v) && v.start == w.start && Rests(v.end, tasks)
    ensures v.end.driver.installed && v.end.shared.acks == 1
  {
    hide OwnInv, Walked;
    v := TaskMoves(w, |tasks|, Idle);
    assert v.end.tasks == tasks + [TExit];
    v := TaskMoves(v, |tasks|, Idle);
    assert v.end.tasks == tasks;
  }

  /** A fault's wakeup is still to be given when the next run begins. */
  lemma WakeupOutlivesRun(w: Walk, tasks: seq<Task>) returns (v: Walk)
    requires Walked(w) && Rests(w.end, tasks + [TLoop]) && NoGive(tasks)
    requires w.end.driver.installed && w.end.shared.acks == 1
    ensures Walked(v) && v.start == w.start && Started(v.end, tasks + [TLatchSignal])
  {
    hide OwnInv, Walked, Started, Rests;
    v := Stops(w, tasks + [TLoop]);
    v := Starts(v, tasks + [TLoop]);
    v := OldTaskMeetsFault(v, tasks);
    v := OldTaskLatches(v, tasks);
    assert tasks + [TLatchSignal, TLoop] == tasks + [TLatchSignal] + [TLoop];
    v := NewTaskLeaves(v, tasks + [TLatchSignal]);
    v := Stops(v, tasks + [TLatchSignal]);
    v := Starts(v, tasks + [TLatchSignal]);
  }

  /** A token for which the ring holds no frame, given for a fault of which the run knows nothing. */
  ghost predicate Starved(b: Bus) {
    && b.app.AIdle? && b.consumer.CIdle? && b.control.state.Running?
    && b.shared.depth == 0 && b.shared.tokens == 1
    && b.history.fault.signalled && !b.history.fault.drained
  }

  lemma WakeupIsGiven(w: Walk, tasks: seq<Task>) returns (v: Walk)
    requires Walked(w) && Started(w.end, tasks + [TLatchSignal])
    ensures Walked(v) && v.start == w.start && Starved(v.end)
  {
    hide OwnInv, Walked;
    assert w.end.tasks[|tasks|].TLatchSignal?;
    v := TaskMoves(w, |tasks|, Idle);
  }

  /** Wherever a breach happens, moves without a further breach lead to a token without a frame. */
  lemma BreachStarves(b: Bus, a: Action) returns (w: Walk)
    requires OwnInv(b) && Breach(b, a)
    ensures Walked(w) && w.start == Step(b, a) && Starved(w.end)
  {
    hide Step, OwnInv, Breach, RunFrom, Unbreached;
    BusDelayedAck.BreachLoads(b, a);
    StepKeepsOwnership(b, a);
    w := Standing(Step(b, a));
    w := ConsumerEnds(w);
    var all := w.end.tasks;
    var tasks := all[..|all| - 1];
    assert all == tasks + [TLoop];
    StaleAcks(w.end, tasks);
    w, tasks := AcksAreGiven(w, tasks);
    w := WakeupOutlivesRun(w, tasks);
    w := WakeupIsGiven(w, tasks);
  }

  lemma Standing(b: Bus) returns (w: Walk)
    requires OwnInv(b)
    ensures Walked(w) && w.start == w.end == b
  {
    w := Walk(b, [], b);
  }

  lemma StaleAcks(b: Bus, tasks: seq<Task>)
    requires OwnInv(b) && b.tasks == tasks + [TLoop] && BusDelayedAck.Stale(b)
    ensures b.shared.acks == 1 || !NoGive(tasks)
  {
    assert b.shared.acks <= 1;
    if i :| 0 <= i < |b.tasks| && b.tasks[i].TGiveAck? {
      assert tasks[i].TGiveAck?;
    }
  }

  // --- the exact condition -------------------------------------------------------------------------------------

  /** A receive() that runs undisturbed. */
  lemma StarvedReceiveFails(w: Walk) returns (v: Walk)
    requires Walked(w) && Starved(w.end)
    ensures Walked(v) && v.start == w.start && v.end.history.received.DriverFailure?
    ensures v.end.consumer.CIdle? && v.end.app.AIdle? && v.end.control.state.Running?
    ensures v.end.shared.tokens == 0 && v.end.history.fault == w.end.history.fault
  {
    hide OwnInv, Walked;
    v := Then(w, BeginReceive);
    v := Then(v, ConsumerStep);
    v := Then(v, ConsumerStep);
    v := Then(v, ConsumerStep);
  }

  /** The next receive() waits for good unless a frame arrives. */
  lemma NextReceiveWaits(w: Walk) returns (v: Walk)
    requires Walked(w) && w.end.consumer.CIdle? && w.end.app.AIdle? && w.end.control.state.Running?
    ensures Walked(v) && v.start == w.start && v.end.consumer.CWait?
    ensures v.end.shared.tokens == w.end.shared.tokens && v.end.history.fault == w.end.history.fault
  {
    hide OwnInv, Walked;
    v := Then(w, BeginReceive);
  }

  lemma {:induction false} PromptOnward(actions: seq<Action>, more: seq<Action>)
    requires Prompt(actions) && Unbreached(Run(actions), more)
    ensures Prompt(actions + more) && RunFrom(Run(actions), more) == Run(actions + more)
    decreases |more|
  {
    hide Step, Breach, Run;
    if more == [] {
      assert actions + more == actions;
    } else {
      var next := actions + [more[0]];
      BusDelayedAck.Unrolled(actions, more[0]);
      forall k | 0 <= k < |next| ensures !Breach(Run(next[..k]), next[k]) {
        assert k < |actions| ==> next[..k] == actions[..k];
        assert k == |actions| ==> next[..k] == actions;
      }
      PromptOnward(next, more[1..]);
      assert next + more[1..] == actions + more;
    }
  }

  /** However the run goes on from this point without a breach, tokens match frames. */
  ghost predicate MatchesAfter(b: Bus, more: seq<Action>) {
    Unbreached(b, more) ==>
      var t := RunFrom(b, more);
      t.control.state.Running? && !InStart(t.app) ==> t.shared.depth == t.shared.tokens + Unsignalled(t) + Taken(t)
  }

  /** However the run goes on from this point without a breach, no receive() answers DriverFailure. */
  ghost predicate ServesAfter(b: Bus, more: seq<Action>) {
    Unbreached(b, more) ==> !RunFrom(b, more).history.received.DriverFailure?
  }

  /** However the run goes on from this point without a breach, a fault's wakeup reaches the consumer that waits. */
  ghost predicate WakesAfter(b: Bus, more: seq<Action>) {
    Unbreached(b, more) ==>
      var t := RunFrom(b, more);
      t.history.fault.signalled && !t.history.fault.drained && t.consumer.CWait? ==> t.shared.tokens >= 1
  }

  lemma PromptServes(actions: seq<Action>, k: nat, more: seq<Action>)
    requires Prompt(actions) && k <= |actions|
    ensures var b := Run(actions[..k]); MatchesAfter(b, more) && ServesAfter(b, more) && WakesAfter(b, more)
  {
    hide Run, Step, Breach;
    PromptBefore(actions, k);
    if Unbreached(Run(actions[..k]), more) {
      PromptOnward(actions[..k], more);
      BusTheorems.TokensMatchFrames(actions[..k] + more);
      BusTheorems.ReceiveNeverFindsTheRingEmpty(actions[..k] + more);
      BusTheorems.BlockedConsumerIsWoken(actions[..k] + more);
    }
  }

  /**
   Promptness is also exactly what the consumer needs. A run is prompt if and only if, however any part of it goes on
   without a breach of its own, the tokens match the frames; if and only if no receive() finds the ring empty; and if
   and only if a consumer that waits after a fault's wakeup has a token to take.
  */
  lemma PromptIffServed(actions: seq<Action>)
    ensures Prompt(actions) <==> forall k: nat, more | k <= |actions| :: MatchesAfter(Run(actions[..k]), more)
    ensures Prompt(actions) <==> forall k: nat, more | k <= |actions| :: ServesAfter(Run(actions[..k]), more)
    ensures Prompt(actions) <==> forall k: nat, more | k <= |actions| :: WakesAfter(Run(actions[..k]), more)
  {
    hide Run, Step, Breach, MatchesAfter, ServesAfter, WakesAfter;
    if Prompt(actions) {
      forall k: nat, more | k <= |actions|
        ensures var b := Run(actions[..k]); MatchesAfter(b, more) && ServesAfter(b, more) && WakesAfter(b, more)
      {
        PromptServes(actions, k, more);
      }
    } else {
      var k: nat :| k < |actions| && Breach(Run(actions[..k]), actions[k]);
      RunKeepsOwnership(actions[..k]);
      BusDelayedAck.Unrolled(actions[..k], actions[k]);
      assert actions[..k + 1] == actions[..k] + [actions[k]];
      var token, failure, wait := BreachFails(Run(actions[..k]), actions[k]);
      var b := Run(actions[..k + 1]);
      assert !MatchesAfter(b, token) && !ServesAfter(b, failure) && !WakesAfter(b, wait);
    }
  }

  /** One breach, and all three fail. */
  lemma BreachFails(b: Bus, a: Action) returns (token: seq<Action>, failure: seq<Action>, wait: seq<Action>)
    requires OwnInv(b) && Breach(b, a)
    ensures var t := Step(b, a); !MatchesAfter(t, token) && !ServesAfter(t, failure) && !WakesAfter(t, wait)
  {
    hide Step, Breach, OwnInv;
    var w := BreachStarves(b, a);
    var v := StarvedReceiveFails(w);
    var u := NextReceiveWaits(v);
    token, failure, wait := w.moves, v.moves, u.moves;
  }
}
