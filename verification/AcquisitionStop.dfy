/** One undisturbed stop() of the whole stack: from anything but Stopped it releases all three layers. */
module AcquisitionStop {
  import opened Telemetry
  import opened RuntimeMachine
  import opened RuntimeSafety
  import opened SourceBinding
  import opened AcquisitionStack
  import P = RuntimeProgress

  function RunOn(s: Stack, actions: seq<AcquisitionStack.Action>): Stack
    decreases |actions|
  {
    if actions == [] then s else RunOn(AcquisitionStack.Step(s, actions[0]), actions[1..])
  }

  lemma {:induction false} RunOnAppend(s: Stack, a: seq<AcquisitionStack.Action>, b: seq<AcquisitionStack.Action>)
    ensures RunOn(s, a + b) == RunOn(RunOn(s, a), b)
    decreases |a|
  {
    if a == [] {
      assert a + b == b;
    } else {
      assert (a + b)[1..] == a[1..] + b;
      RunOnAppend(AcquisitionStack.Step(s, a[0]), a[1..], b);
    }
  }

  /** `n` steps of the worker, whatever its transactions end in. */
  function WorkerSteps(faults: seq<bool>): seq<AcquisitionStack.Action> {
    seq(|faults|, k requires 0 <= k < |faults| => Plain(Work(faults[k])))
  }

  /** Only the worker has moved, and only as a worker with stop requested can. */
  ghost predicate WorkerMoved(s: Stack, t: Stack) {
    && t == s.(runtime := t.runtime)
    && t.runtime == s.runtime.(gate := t.runtime.gate, crew := t.runtime.crew)
    && t.runtime.gate == s.runtime.gate.(lifecycle := t.runtime.gate.lifecycle)
    && (t.runtime.crew.worker.NoWorker? <==> s.runtime.crew.worker.NoWorker?)
  }

  /** Once stop is requested, every step brings the worker closer to its end. */
  lemma WorkerProgress(s: Stack, fault: bool)
    requires s.runtime.gate.stopRequested
    ensures var t := AcquisitionStack.Step(s, Plain(Work(fault)));
            && WorkerMoved(s, t)
            && P.Remaining(t.runtime.crew.worker) <= (if P.Remaining(s.runtime.crew.worker) > 0
                                                    then P.Remaining(s.runtime.crew.worker) - 1 else 0)
  {
  }

  lemma {:induction false} WorkerEnds(s: Stack, faults: seq<bool>)
    requires s.runtime.gate.stopRequested && P.Remaining(s.runtime.crew.worker) <= |faults|
    ensures var t := RunOn(s, WorkerSteps(faults));
            WorkerMoved(s, t) && P.Remaining(t.runtime.crew.worker) == 0
    decreases |faults|
  {
    if faults == [] {
    } else {
      WorkerProgress(s, faults[0]);
      WorkerEnds(AcquisitionStack.Step(s, Plain(Work(faults[0]))), faults[1..]);
      assert WorkerSteps(faults)[1..] == WorkerSteps(faults[1..]);
      assert WorkerSteps(faults)[0] == Plain(Work(faults[0]));
    }
  }

  /** The stop itself: two steps up to the source's answer, the worker's last steps, and three steps to return. */
  function Opening(i: nat, reply: BusReply): seq<AcquisitionStack.Action> {
    [Plain(BeginStop(i)), Bound(i, reply, true, true), Bound(i, reply, true, true)]
  }

  function Closing(i: nat, reply: BusReply): seq<AcquisitionStack.Action> {
    [Bound(i, reply, true, true), Bound(i, reply, true, true), Bound(i, reply, true, true)]
  }

  function WholeStop(i: nat, reply: BusReply, faults: seq<bool>): seq<AcquisitionStack.Action> {
    Opening(i, reply) + WorkerSteps(faults) + Closing(i, reply)
  }

  /** At rest with something to stop, and a bus that can give `reply` and does not fail. */
  ghost predicate CanStop(s: Stack, i: nat, reply: BusReply) {
    && !s.runtime.gate.active && CanBegin(s.runtime, i)
    && !s.runtime.gate.lifecycle.Stopped?
    && (s.claim ==> StopReply(s.installed, reply)) && !reply.failed
  }

  ghost predicate Stoppable(s: Stack, i: nat, reply: BusReply) {
    StackInv(s) && CanStop(s, i, reply)
  }

  ghost predicate AllReleased(s: Stack) {
    s.runtime.source.ownership.NoOwnership? && !s.claim && !s.installed
  }

  /** Where a stop stands when its source has answered Ok. */
  ghost predicate Answered(s: Stack, i: nat) {
    && i < |s.runtime.threads| && s.runtime.history.holder == i && AllReleased(s)
    && (|| (s.runtime.threads[i] == SpJoin(ResultCode.Ok) && s.runtime.gate.stopRequested)
        || (s.runtime.threads[i] == LeaveGate(ResultCode.Ok, true)
            && s.runtime.gate.lifecycle.Stopped? && s.runtime.crew.worker.NoWorker?))
  }

  lemma EnterForStop(s: Stack, i: nat, reply: BusReply) returns (t: Stack)
    requires Stoppable(s, i, reply)
    ensures t == AcquisitionStack.Step(s, Plain(BeginStop(i))) && StackInv(t) && !t.failed
    ensures i < |t.runtime.threads| && t.runtime.history.holder == i && t.claim == s.claim && t.installed == s.installed
    ensures t.runtime.threads[i] == if t.runtime.source.ownership.PartialStart? then SpCleanup else SpRequestStop
  {
    t := AcquisitionStack.Step(s, Plain(BeginStop(i)));
    PlainStepKeepsInv(s, BeginStop(i));
    AllIdle(s.runtime);
    assert t.runtime.threads != s.runtime.threads by { assert t.runtime.threads[i] != s.runtime.threads[i]; }
  }

  /** The three steps of a Bound thread, one after the other. */
  lemma RunTwice(s: Stack, b: AcquisitionStack.Action)
    ensures RunOn(s, [b, b]) == AcquisitionStack.Step(AcquisitionStack.Step(s, b), b)
  {
    var s1 := AcquisitionStack.Step(s, b);
    assert [b, b][1..] == [b] && [b][1..] == [];
    assert RunOn(s, [b, b]) == RunOn(s1, [b]) == RunOn(AcquisitionStack.Step(s1, b), []);
  }

  lemma StopIsRequested(s: Stack, i: nat, reply: BusReply) returns (t: Stack)
    requires StackInv(s) && i < |s.runtime.threads| && s.runtime.history.holder == i && !s.failed
    requires s.runtime.threads[i].SpRequestStop?
    ensures t == AcquisitionStack.Step(s, Bound(i, reply, true, true)) && StackInv(t) && !t.failed
    ensures i < |t.runtime.threads| && t.runtime.history.holder == i && t.claim == s.claim && t.installed == s.installed
    ensures t.runtime.threads[i].SpStopSource? && t.runtime.gate.stopRequested
  {
    t := AcquisitionStack.Step(s, Bound(i, reply, true, true));
    BoundStepKeepsInv(s, i, reply, true, true);
  }

  lemma SourceIsStopped(s: Stack, i: nat, reply: BusReply) returns (t: Stack)
    requires StackInv(s) && i < |s.runtime.threads| && s.runtime.history.holder == i && !s.failed
    requires s.runtime.threads[i].SpStopSource? && s.runtime.gate.stopRequested
    requires (s.claim ==> StopReply(s.installed, reply)) && !reply.failed
    ensures t == AcquisitionStack.Step(s, Bound(i, reply, true, true)) && StackInv(t) && Answered(t, i)
  {
    t := AcquisitionStack.Step(s, Bound(i, reply, true, true));
    BoundStepKeepsInv(s, i, reply, true, true);
  }

  lemma WorkerStopAnswers(s: Stack, i: nat, reply: BusReply) returns (t: Stack)
    requires StackInv(s) && i < |s.runtime.threads| && s.runtime.history.holder == i && !s.failed
    requires s.runtime.threads[i].SpRequestStop? && (s.claim ==> StopReply(s.installed, reply)) && !reply.failed
    ensures t == RunOn(s, [Bound(i, reply, true, true), Bound(i, reply, true, true)]) && StackInv(t) && Answered(t, i)
  {
    hide RunOn, AcquisitionStack.Step, StackInv;
    var s1 := StopIsRequested(s, i, reply);
    t := SourceIsStopped(s1, i, reply);
    RunTwice(s, Bound(i, reply, true, true));
  }

  /** After a partial start the cleanup itself answers, and only the lifecycle is still to be stored. */
  lemma PartialIsCleaned(s: Stack, i: nat, reply: BusReply) returns (t: Stack)
    requires StackInv(s) && i < |s.runtime.threads| && s.runtime.history.holder == i && !s.failed
    requires s.runtime.threads[i].SpCleanup? && (s.claim ==> StopReply(s.installed, reply)) && !reply.failed
    ensures t == AcquisitionStack.Step(s, Bound(i, reply, true, true)) && StackInv(t) && !t.failed
    ensures i < |t.runtime.threads| && t.runtime.history.holder == i
    ensures t.runtime.threads[i].StoreLifecycle? && t.runtime.threads[i].stopping
  {
    t := AcquisitionStack.Step(s, Bound(i, reply, true, true));
    BoundStepKeepsInv(s, i, reply, true, true);
  }

  lemma LifecycleIsStored(s: Stack, i: nat, reply: BusReply) returns (t: Stack)
    requires StackInv(s) && i < |s.runtime.threads| && s.runtime.history.holder == i && !s.failed
    requires s.runtime.threads[i].StoreLifecycle? && s.runtime.threads[i].stopping
    ensures t == AcquisitionStack.Step(s, Bound(i, reply, true, true)) && StackInv(t) && Answered(t, i)
  {
    t := AcquisitionStack.Step(s, Bound(i, reply, true, true));
    BoundStepKeepsInv(s, i, reply, true, true);
  }

  lemma PartialStopAnswers(s: Stack, i: nat, reply: BusReply) returns (t: Stack)
    requires StackInv(s) && i < |s.runtime.threads| && s.runtime.history.holder == i && !s.failed
    requires s.runtime.threads[i].SpCleanup? && (s.claim ==> StopReply(s.installed, reply)) && !reply.failed
    ensures t == RunOn(s, [Bound(i, reply, true, true), Bound(i, reply, true, true)]) && StackInv(t) && Answered(t, i)
  {
    hide RunOn, AcquisitionStack.Step, StackInv, Answered;
    var s1 := PartialIsCleaned(s, i, reply);
    t := LifecycleIsStored(s1, i, reply);
    RunTwice(s, Bound(i, reply, true, true));
  }

  lemma OpeningAnswers(s: Stack, i: nat, reply: BusReply) returns (t: Stack)
    requires Stoppable(s, i, reply)
    ensures t == RunOn(s, Opening(i, reply)) && StackInv(t) && Answered(t, i)
  {
    var s1 := EnterForStop(s, i, reply);
    var b := Bound(i, reply, true, true);
    if s1.runtime.source.ownership.PartialStart? {
      t := PartialStopAnswers(s1, i, reply);
    } else {
      t := WorkerStopAnswers(s1, i, reply);
    }
    assert Opening(i, reply)[1..] == [b, b];
  }

  ghost predicate Returned(t: Stack, i: nat) {
    && AllReleased(t) && t.runtime.crew.worker.NoWorker?
    && i < |t.runtime.threads| && t.runtime.threads[i].TIdle?
    && t.runtime.gate.lifecycle.Stopped? && !t.runtime.gate.active && t.runtime.history.returned.Ok?
  }

  /** Leaving the gate; further steps of an idle thread change nothing. */
  lemma LeavingReturns(s: Stack, i: nat, reply: BusReply)
    requires Answered(s, i) && s.runtime.threads[i].LeaveGate?
    ensures Returned(AcquisitionStack.Step(s, Bound(i, reply, true, true)), i)
  {
  }

  lemma IdleStep(s: Stack, i: nat, reply: BusReply)
    requires Returned(s, i)
    ensures AcquisitionStack.Step(s, Bound(i, reply, true, true)) == s
  {
    IdleStaysPut(s.runtime, i, ResultCode.Ok, true, true, true);
  }

  lemma JoinLeads(s: Stack, i: nat, reply: BusReply) returns (t: Stack)
    requires Answered(s, i) && s.runtime.threads[i].SpJoin? && P.Remaining(s.runtime.crew.worker) == 0
    ensures var b := Bound(i, reply, true, true);
            t == AcquisitionStack.Step(AcquisitionStack.Step(s, b), b)
    ensures Answered(t, i) && t.runtime.threads[i].LeaveGate?
  {
    var b := Bound(i, reply, true, true);
    var s1 := AcquisitionStack.Step(s, b);
    assert s1.runtime.threads[i] == StoreLifecycle(LifecycleState.Stopped, ResultCode.Ok, true);
    t := AcquisitionStack.Step(s1, b);
  }

  lemma ClosingReturns(s: Stack, i: nat, reply: BusReply) returns (t: Stack)
    requires Answered(s, i) && P.Remaining(s.runtime.crew.worker) == 0
    ensures t == RunOn(s, Closing(i, reply)) && Returned(t, i)
  {
    var b := Bound(i, reply, true, true);
    RunOnAppend(s, [b, b], [b]);
    assert [b, b] + [b] == Closing(i, reply);
    RunTwice(s, b);
    var s2 := RunOn(s, [b, b]);
    t := AcquisitionStack.Step(s2, b);
    assert RunOn(s2, [b]) == t by { assert [b][1..] == []; }
    if s.runtime.threads[i].SpJoin? {
      var u := JoinLeads(s, i, reply);
      LeavingReturns(u, i, reply);
    } else {
      LeavingReturns(s, i, reply);
      IdleStep(AcquisitionStack.Step(s, b), i, reply);
      IdleStep(s2, i, reply);
    }
  }

  /** One whole stop, from a state that satisfies the invariant. */
  lemma WholeStopReturns(s: Stack, i: nat, reply: BusReply, faults: seq<bool>)
    requires Stoppable(s, i, reply) && |faults| >= 5
    ensures Returned(RunOn(s, WholeStop(i, reply, faults)), i)
  {
    var answered := OpeningAnswers(s, i, reply);
    var ended := RunOn(answered, WorkerSteps(faults));
    WorkersTurn(answered, i, faults);
    var closed := ClosingReturns(ended, i, reply);
    RunOnAppend(s, Opening(i, reply) + WorkerSteps(faults), Closing(i, reply));
    RunOnAppend(s, Opening(i, reply), WorkerSteps(faults));
  }

  lemma {:induction false} WorkerKeepsStack(s: Stack, faults: seq<bool>)
    requires StackInv(s)
    ensures StackInv(RunOn(s, WorkerSteps(faults)))
    decreases |faults|
  {
    if faults == [] {
    } else {
      PlainStepKeepsInv(s, Work(faults[0]));
      WorkerKeepsStack(AcquisitionStack.Step(s, Plain(Work(faults[0]))), faults[1..]);
      assert WorkerSteps(faults)[1..] == WorkerSteps(faults[1..]);
      assert WorkerSteps(faults)[0] == Plain(Work(faults[0]));
    }
  }

  lemma {:induction false} NobodyWorks(s: Stack, faults: seq<bool>)
    requires s.runtime.crew.worker.NoWorker?
    ensures RunOn(s, WorkerSteps(faults)) == s
    decreases |faults|
  {
    if faults == [] {
    } else {
      assert AcquisitionStack.Step(s, Plain(Work(faults[0]))) == s;
      NobodyWorks(s, faults[1..]);
      assert WorkerSteps(faults)[1..] == WorkerSteps(faults[1..]);
      assert WorkerSteps(faults)[0] == Plain(Work(faults[0]));
    }
  }

  /** The worker's turn ends it and leaves the answered stop where it is. */
  lemma WorkersTurn(s: Stack, i: nat, faults: seq<bool>)
    requires StackInv(s) && Answered(s, i) && |faults| >= 5
    ensures var t := RunOn(s, WorkerSteps(faults));
            StackInv(t) && Answered(t, i) && P.Remaining(t.runtime.crew.worker) == 0
  {
    WorkerKeepsStack(s, faults);
    if s.runtime.crew.worker.NoWorker? {
      NobodyWorks(s, faults);
    } else {
      WorkerEnds(s, faults);
    }
  }

  /**
   After any history that leaves the runtime at rest and not Stopped, one stop() whose bus calls succeed and
   whose worker is given five steps returns Ok, and runtime ownership, cleanup claim and driver are all released.
  */
  lemma OneStopReleasesAll(threads: nat, config: nat, actions: seq<AcquisitionStack.Action>, i: nat, reply: BusReply,
                           faults: seq<bool>)
    ensures var s := AcquisitionStack.Run(threads, config, actions);
            CanStop(s, i, reply) && |faults| >= 5 ==>
              var t := RunOn(s, WholeStop(i, reply, faults));
              && t.runtime.source.ownership.NoOwnership? && !t.claim && !t.installed && t.runtime.crew.worker.NoWorker?
              && t.runtime.gate.lifecycle.Stopped? && !t.runtime.gate.active && t.runtime.history.returned.Ok?
  {
    RunKeepsStackInv(threads, config, actions);
    var s := AcquisitionStack.Run(threads, config, actions);
    if CanStop(s, i, reply) && |faults| >= 5 {
      WholeStopReturns(s, i, reply, faults);
    }
  }
}
