/** What the runtime's invariant means to its callers, its worker and its source. */
module RuntimeTheorems {
  import opened Telemetry
  import opened SourceLedger
  import opened RuntimeMachine
  import opened RuntimeSafety

  /**
   For any number of threads: at most one is past the gate, the source is never started while it is owned, the
   worker is never overwritten, and no configuration is accepted while there is a worker.
  */
  lemma OneThreadPastTheGate(threads: nat, config: nat, actions: seq<Action>)
    ensures var r := Run(threads, config, actions);
            && (forall i, j | 0 <= i < |r.threads| && 0 <= j < |r.threads| ::
                  !r.threads[i].TIdle? && !r.threads[j].TIdle? ==> i == j)
            && r.history.violations == {}
            && (forall i | 0 <= i < |r.threads| ::
                  && (r.threads[i].StCallSource? ==> r.source.ownership.NoOwnership? && r.crew.worker.NoWorker?)
                  && (r.threads[i].StSpawn? ==> r.source.ownership.SuccessfulStart? && r.crew.worker.NoWorker?))
  {
    RunKeepsInv(threads, config, actions);
    var r := Run(threads, config, actions);
    forall i | 0 <= i < |r.threads| && !r.threads[i].TIdle? ensures r.threads[i] == HolderThread(r) {
    }
  }

  /** Between calls, Stopped means no ownership and no worker, and Running means both. */
  lemma StateTellsOwnership(threads: nat, config: nat, actions: seq<Action>)
    ensures var r := Run(threads, config, actions);
            !r.gate.active && !r.history.destroyed ==>
              && (r.gate.lifecycle.Stopped? ==> r.source.ownership.NoOwnership? && r.crew.worker.NoWorker?)
              && (r.gate.lifecycle.Running? ==> r.source.ownership.SuccessfulStart? && !r.crew.worker.NoWorker?)
              && (r.source.ownership.PartialStart? ==> r.gate.lifecycle.Faulted? && r.crew.worker.NoWorker?)
  {
    RunKeepsInv(threads, config, actions);
    var r := Run(threads, config, actions);
    if !r.gate.active && !r.history.destroyed {
      AllIdle(r);
    }
  }

  /** Nobody is building a worker and there is none. */
  ghost predicate Quiet(r: Runtime) {
    r.crew.worker.NoWorker? && forall i :: 0 <= i < |r.threads| ==> !InStart(r.threads[i])
  }

  /** About to return from a stop() with a result other than Timeout. */
  predicate StopReturns(t: Thread) {
    t.LeaveGate? && t.stopping && !t.result.Timeout?
  }

  /** A stop() that returns anything but Timeout or a refusal of the gate leaves no worker behind. */
  lemma StopLeavesNoWorker(threads: nat, config: nat, actions: seq<Action>, i: nat, a: Action)
    ensures var r := Run(threads, config, actions);
            && (i < |r.threads| && StopReturns(r.threads[i]) && a.Advance? && a.thread == i ==> Quiet(Step(r, a)))
            && (CanBegin(r, i) && EnterStop(r, i) == Refuse(Return(r, NotRunning)) && !r.gate.active ==> Quiet(r))
  {
    RunKeepsInv(threads, config, actions);
    var r := Run(threads, config, actions);
    if !r.gate.active && !r.history.destroyed {
      AllIdle(r);
    }
    if i < |r.threads| && StopReturns(r.threads[i]) && a.Advance? && a.thread == i {
      var t := Step(r, a);
      forall j | 0 <= j < |t.threads| ensures !InStart(t.threads[j]) {
        assert j != i ==> t.threads[j] == r.threads[j];
      }
    }
  }

  function RunOn(r: Runtime, actions: seq<Action>): Runtime {
    if actions == [] then r else Step(RunOn(r, actions[..|actions| - 1]), actions[|actions| - 1])
  }

  lemma QuietStep(r: Runtime, a: Action)
    requires Quiet(r) && !a.BeginStart?
    ensures Quiet(Step(r, a))
  {
    match a {
      case Advance(i, reply, retry, ok, patient) =>
        if i < |r.threads| {
          QuietAdvance(r, i, reply, retry, ok, patient);
        }
      case _ =>
    }
  }

  lemma QuietAdvance(r: Runtime, i: nat, reply: ResultCode, retry: bool, ok: bool, patient: bool)
    requires Quiet(r) && i < |r.threads|
    ensures Quiet(Put(r, i, ThreadStep(r, r.threads[i], reply, retry, ok, patient)))
  {
    var t := r.threads[i];
    var m := ThreadStep(r, t, reply, retry, ok, patient);
    if InDestroy(t) {
      DestroyStepKeepsGate(r, t, reply);
    } else {
      StopStepStaysOut(r, t, reply, patient);
    }
  }

  lemma StopStepStaysOut(r: Runtime, t: Thread, reply: ResultCode, patient: bool)
    requires !InStart(t) && !InDestroy(t) && r.crew.worker.NoWorker?
    ensures var m := StopStep(r, t, reply, patient); !InStart(m.thread) && m.runtime.crew.worker.NoWorker?
  {
  }

  /** From then on there is no worker, hence no call of the worker, until somebody calls start() again. */
  lemma {:induction false} NoWorkerUntilNextStart(r: Runtime, actions: seq<Action>)
    requires Quiet(r) && forall k :: 0 <= k < |actions| ==> !actions[k].BeginStart?
    ensures Quiet(RunOn(r, actions))
  {
    if actions == [] {
    } else {
      NoWorkerUntilNextStart(r, actions[..|actions| - 1]);
      QuietStep(RunOn(r, actions[..|actions| - 1]), actions[|actions| - 1]);
    }
  }

  /** The configuration does not change under a worker, whoever calls configure(). */
  lemma ConfigurationIsFrozen(threads: nat, config: nat, actions: seq<Action>, a: Action)
    ensures var r := Run(threads, config, actions);
            !r.crew.worker.NoWorker? ==> Step(r, a).gate.config == r.gate.config
  {
    RunKeepsInv(threads, config, actions);
    var r := Run(threads, config, actions);
    match a {
      case Advance(i, reply, retry, ok, patient) =>
        if i < |r.threads| {
          AdvanceKeepsConfiguration(r, r.threads[i], reply, retry, ok, patient);
        }
      case Configure(i, _, _) =>
        if !r.gate.active && !r.history.destroyed {
          AllIdle(r);
        }
      case _ =>
    }
  }

  lemma AdvanceKeepsConfiguration(r: Runtime, t: Thread, reply: ResultCode, retry: bool, ok: bool, patient: bool)
    ensures ThreadStep(r, t, reply, retry, ok, patient).runtime.gate.config == r.gate.config
  {
    if InStart(t) {
    } else if InDestroy(t) {
    } else {
      StopKeepsConfiguration(r, t, reply, patient);
    }
  }

  lemma StopKeepsConfiguration(r: Runtime, t: Thread, reply: ResultCode, patient: bool)
    ensures StopStep(r, t, reply, patient).runtime.gate.config == r.gate.config
  {
  }

  /**
   A lifecycle call made from one of the worker's own callbacks never passes the gate: start() and configure()
   are refused, and so is stop(), before the creator has stored the worker's handle by the gate and afterwards because
   it recognises its own thread. So the worker cannot come to wait for itself.
  */
  lemma WorkerNeverPassesTheGate(threads: nat, config: nat, actions: seq<Action>, i: nat, c: nat, valid: bool)
    ensures var r := Run(threads, config, actions);
            !r.crew.worker.NoWorker? && !r.history.destroyed ==>
              && EnterStart(r, i).Refuse?
              && ConfigureStep(r, c, valid).gate == r.gate
              && StopFromWorker(r, i)
                 == Refuse(Return(r, if r.crew.published then InvalidState else ResultCode.Stopping))
  {
    RunKeepsInv(threads, config, actions);
    var r := Run(threads, config, actions);
    if !r.gate.active && !r.history.destroyed {
      AllIdle(r);
    }
  }

  /** The calls of every owned start follow the protocol, over every history up to and including destruction. */
  lemma CallsFollowTheProtocol(threads: nat, config: nat, actions: seq<Action>)
    ensures var l := Run(threads, config, actions).history.ledger;
            && (!l.retry ==> |l.calls| <= if l.partial then 2 else 1)
            && (forall i :: 0 <= i < |l.calls| ==> (l.calls[i].call.RetryStop? <==> l.retry && i > 0))
            && (forall i :: 0 <= i < |l.calls| - 1 ==> !l.calls[i].reply.Ok? && !l.calls[i].reply.NotRunning?)
  {
    RunKeepsInv(threads, config, actions);
  }

  /**
   Destruction ends without a worker. A source that is still owned then was called, and every one of its answers
   refused the cleanup.
  */
  lemma DestructionEndsQuiet(threads: nat, config: nat, actions: seq<Action>, i: nat)
    ensures var r := Run(threads, config, actions);
            i < |r.threads| && r.threads[i].DDone? ==>
              && r.crew.worker.NoWorker?
              && (!r.source.ownership.NoOwnership? ==>
                    && r.history.ledger.calls != []
                    && forall k | 0 <= k < |r.history.ledger.calls| :: !Final(r.history.ledger.calls[k].reply))
  {
    RunKeepsInv(threads, config, actions);
    var r := Run(threads, config, actions);
    if i < |r.threads| && r.threads[i].DDone? {
      assert HolderThread(r) == r.threads[i];
    }
  }
}
