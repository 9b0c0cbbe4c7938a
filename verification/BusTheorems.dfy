/**
 What the lifecycle invariants mean to the callers of start(), stop() and receive(). A result that asks for Prompt
 fails without it (BusDelayedAck.dfy, BusStarvation.dfy); the others hold however late a task acknowledges.
*/
module BusTheorems {
  import opened BusMachine
  import opened BusOwnership
  import opened BusSafety

  /**
   For every interleaving and every pattern of failures: the driver is installed only when it is not installed,
   started only when it is not started, and uninstalled only when it is stopped; each of the three is called only where
   it can succeed. Stopped means that nothing is installed, started or owned. Neither the ring nor the semaphore ever
   exceeds its capacity.
  */
  lemma DriverStaysInOrder(actions: seq<Action>)
    ensures var b := Run(actions);
            && b.history.violations <= {UninstallUnderTask, SecondTask}
            && (b.app.SInstall? ==> !b.driver.installed && !b.driver.started)
            && (b.app.SDriverStart? ==> b.driver.installed && !b.driver.started)
            && (b.app.SUndoInstall? || b.app.SUninstall? || b.app.XUninstall? ==>
                  b.driver.installed && !b.driver.started)
            && (b.app.SDriverStop? || b.app.XDriverStop? ==> b.driver.installed && b.driver.started)
            && (b.control.state.Stopped? ==>
                  b.control == Controller(Stopped, false, false, false) && b.driver == Driver(false, false))
            && b.shared.tokens <= QUEUE_CAPACITY && b.shared.depth <= QUEUE_CAPACITY
  {
    hide Run;
    RunKeepsOwnership(actions);
  }

  /**
   With prompt acknowledgements the driver is not misused at all: it is never uninstalled under a receive task in its
   loop, and there is never a second receive task. When Stopped, at most an earlier task is left, with its
   acknowledgement still to give.
  */
  lemma DriverIsNeverMisused(actions: seq<Action>)
    requires Prompt(actions)
    ensures var b := Run(actions);
            && b.history.violations == {}
            && (b.app.SUndoInstall? || b.app.SUninstall? || b.app.XUninstall? || b.app.SCreateTask? ==>
                  forall i :: 0 <= i < |b.tasks| ==> b.tasks[i].TGiveAck?)
            && |b.tasks| <= 1
            && (b.control.state.Stopped? ==> b.tasks == [] || b.tasks == [TGiveAck])
  {
    hide Run;
    RunKeepsInv(actions);
  }

  /**
   While the bus is Running and no start is rebuilding it, the frames in the ring are exactly the available
   tokens, plus a pushed frame not signalled yet, plus a token taken whose frame is not popped yet. No frame
   signal ever finds the semaphore full.
  */
  lemma TokensMatchFrames(actions: seq<Action>)
    requires Prompt(actions)
    ensures var b := Run(actions);
            && !b.history.saturated
            && (b.control.state.Running? && !InStart(b.app) ==>
                  b.shared.depth == b.shared.tokens + Unsignalled(b) + Taken(b))
  {
    hide Run;
    RunKeepsInv(actions);
  }

  /** A receive() that takes a token and still sees Running pops a frame: DriverFailure is never answered. */
  lemma {:induction false} ReceiveNeverFindsTheRingEmpty(actions: seq<Action>)
    requires Prompt(actions)
    ensures var b := Run(actions);
            && !b.history.received.DriverFailure?
            && (b.consumer.CPop? ==> RunConsumer(b).history.received.Ok?)
  {
    hide Run, Step, Breach;
    RunKeepsInv(actions);
    if actions == [] {
      NothingAnswered();
    } else {
      var last := |actions| - 1;
      PromptBefore(actions, last);
      RunKeepsInv(actions[..last]);
      ReceiveNeverFindsTheRingEmpty(actions[..last]);
      OnlyTheConsumerAnswers(Run(actions[..last]), actions[last]);
      RunOne(actions);
    }
  }

  lemma RunOne(actions: seq<Action>)
    requires actions != []
    ensures Run(actions) == Step(Run(actions[..|actions| - 1]), actions[|actions| - 1])
  {
    hide Step;
  }

  lemma NothingAnswered()
    ensures Run([]).history.received.NotStarted?
  {
  }

  lemma OnlyTheConsumerAnswers(b: Bus, a: Action)
    requires b.consumer.CPop? ==> b.shared.depth >= 1
    ensures var t := Step(b, a); t.history.received == b.history.received || !t.history.received.DriverFailure?
  {
    match a {
      case AppStep(ok, spurious) =>
        if Reconciling(b.app) {
          ReconcileAnswersNothing(b);
        } else if InStart(b.app) || b.app.SRejected? {
          StartAnswersNothing(b, ok);
        } else {
          StopAnswersNothing(b, ok, spurious);
        }
      case _ =>
    }
  }

  lemma StartAnswersNothing(b: Bus, ok: bool)
    ensures StartStep(b, ok).history.received == b.history.received
  {
    hide TaskInLoop;
  }

  lemma StopAnswersNothing(b: Bus, ok: bool, spurious: bool)
    ensures StopStep(b, ok, spurious).history.received == b.history.received
  {
    hide TaskInLoop;
  }

  lemma ReconcileAnswersNothing(b: Bus)
    ensures ReconcileStep(b).history.received == b.history.received
  {
  }

  /** A state check of receive() that finds `state` has ended it with the answer that names that state. */
  predicate Refused(b: Bus, state: Lifecycle) {
    && b.consumer.CIdle?
    && (state.Faulted? ==> b.history.received.FaultedNow?)
    && (state.Stopping? ==> b.history.received.StoppingNow?)
    && (state.Stopped? ==> b.history.received.NotStarted?)
  }

  /**
   Once a terminal fault is latched, every state check of receive() refuses: a receive that begins, and one that
   has taken a token or timed out, all answer with the state they find instead of Ok or Timeout.
  */
  lemma FaultIsNeverMissed(actions: seq<Action>)
    ensures var b := Run(actions);
            b.history.fault.latched ==>
              && !b.control.state.Running?
              && (b.consumer.CIdle? && !InStart(b.app) ==> Refused(Step(b, BeginReceive), b.control.state))
              && (b.consumer.CTook? || b.consumer.CTimedOut? ==> Refused(Step(b, ConsumerStep), b.control.state))
  {
    hide Run;
    RunKeepsOwnership(actions);
    ReceiveTellsState(Run(actions));
  }

  /**
   How a receive() goes on, in any bus: it begins, and after its wait goes on, exactly while the state is Running, and
   otherwise answers with the state; a wait takes a token if there is one; only a wait that ran out is a Timeout.
  */
  lemma ReceiveTellsState(b: Bus)
    ensures var t := Step(b, BeginReceive);
            b.consumer.CIdle? && !InStart(b.app) ==>
              if b.control.state.Running? then t.consumer.CWait? else Refused(t, b.control.state)
    ensures var t := Step(b, ConsumerStep);
            && (b.consumer.CWait? ==>
                  if b.shared.tokens > 0 then t.consumer.CTook? && t.shared.tokens == b.shared.tokens - 1
                  else t.consumer.CTimedOut? && t.shared.tokens == 0)
            && (b.consumer.CTook? ==>
                  if b.control.state.Running? then t.consumer.CPop? else Refused(t, b.control.state))
            && (b.consumer.CTimedOut? ==>
                  if b.control.state.Running? then t.consumer.CIdle? && t.history.received.Timeout?
                  else Refused(t, b.control.state))
            && (b.consumer.CPop? ==>
                  && t.consumer.CIdle?
                  && if b.shared.depth > 0 then t.history.received.Ok? && t.shared.depth == b.shared.depth - 1
                     else t.history.received.DriverFailure?)
  {
  }

  /**
   A start() that is not admitted changes nothing and says why: an invalid configuration first, then the state that it
   finds when it looks again.
  */
  lemma RejectionTellsState(actions: seq<Action>, valid: bool, ok: bool, spurious: bool)
    ensures var b := Run(actions);
            b.app.AIdle? && !b.control.state.Stopped? ==>
              var t := Step(b, BeginStart(valid));
              && t.control == b.control && t.driver == b.driver && t.shared == b.shared && t.tasks == b.tasks
              && if valid then t.app.SRejected?
                 else t.app.AIdle? && t.history.call.outcome == StartRejected(InvalidConfiguration)
    ensures var b := Run(actions);
            b.app.SRejected? ==>
              var t := Step(b, AppStep(ok, spurious));
              && t.control == b.control && t.driver == b.driver && t.shared == b.shared && t.tasks == b.tasks
              && t.app.AIdle? && t.history.call.outcome.StartRejected?
              && (b.control.state.Running? ==> t.history.call.outcome.result.AlreadyStarted?)
              && (b.control.state.Stopping? ==> t.history.call.outcome.result.StoppingNow?)
              && (b.control.state.Faulted? ==> t.history.call.outcome.result.FaultedNow?)
              && !b.control.state.Stopped?
  {
    hide Run;
    RunKeepsOwnership(actions);
  }

  /** Only a start that really begins a new run forgets a latched fault. */
  lemma FaultStaysLatched(b: Bus, a: Action)
    requires b.history.fault.latched
    ensures Step(b, a).history.fault.latched || (a.BeginStart? && a.valid && b.app.AIdle? && b.control.state.Stopped?)
  {
    match a {
      case AppStep(ok, spurious) =>
        if Reconciling(b.app) {
          ReconcileKeepsLatch(b);
        } else if InStart(b.app) || b.app.SRejected? {
          StartKeepsLatch(b, ok);
        } else {
          StopKeepsLatch(b, ok, spurious);
        }
      case _ =>
    }
  }

  lemma StartKeepsLatch(b: Bus, ok: bool)
    ensures StartStep(b, ok).history.fault == b.history.fault
  {
    hide TaskInLoop;
  }

  lemma StopKeepsLatch(b: Bus, ok: bool, spurious: bool)
    ensures StopStep(b, ok, spurious).history.fault == b.history.fault
  {
    hide TaskInLoop;
  }

  lemma ReconcileKeepsLatch(b: Bus)
    ensures ReconcileStep(b).history.fault.latched == b.history.fault.latched
  {
  }

  /**
   After the latch's wakeup and until a stop drains the semaphore, a consumer blocked in its wait has a token to
   take, even if the wakeup itself was refused by a full semaphore.
  */
  lemma BlockedConsumerIsWoken(actions: seq<Action>)
    requires Prompt(actions)
    ensures var b := Run(actions);
            b.history.fault.signalled && !b.history.fault.drained && b.consumer.CWait? ==>
              b.shared.tokens >= 1 && Step(b, ConsumerStep).consumer.CTook?
  {
    hide Run;
    RunKeepsInv(actions);
  }

  // --- the contract of the two lifecycle calls -----------------------------------------------------------------

  /**
   start(): `before` and `after` say whether the driver was installed when the call began and when it returned,
   `failed` whether a driver call or a creation failed on the way.
  */
  predicate StartContract(before: bool, after: bool, failed: bool, result: Result, cleanupRequired: bool) {
    if before || result.InvalidConfiguration? then
      && after == before && !cleanupRequired
      && result in {InvalidConfiguration, AlreadyStarted, StoppingNow, FaultedNow}
    else
      && cleanupRequired == after
      && (result.Ok? <==> !failed)
      && (result.Ok? ==> after)
      && result in {Ok, DriverFailure, TaskFailure}
  }

  /** stop(): success means released, failure means retained, and only a call on a released bus is NotStarted. */
  predicate StopContract(before: bool, after: bool, failed: bool, result: Result) {
    && (result.NotStarted? <==> !before)
    && (result.Ok? <==> before && !after)
    && (after ==> before)
    && (failed <==> after)
    && result in {Ok, NotStarted, DriverFailure, TaskFailure}
  }

  /** What the last lifecycle call reported against what it found and left. */
  ghost predicate ContractKept(b: Bus) {
    var call := b.history.call;
    match call.outcome
    case NoOutcome => !b.driver.installed
    case StartRejected(result) => StartContract(call.installedBefore, b.driver.installed, call.failed, result, false)
    case StartDone(result, cleanupRequired) =>
      StartContract(call.installedBefore, b.driver.installed, call.failed, result, cleanupRequired)
    case StopDone(result) => StopContract(call.installedBefore, b.driver.installed, call.failed, result)
  }

  lemma ContractAtRest(b: Bus)
    requires OwnInv(b) && b.app.AIdle?
    ensures ContractKept(b)
  {
  }

  /** Every lifecycle call that returned, in every interleaving, kept its contract. */
  lemma CallsKeepTheirContract(actions: seq<Action>)
    ensures Run(actions).app.AIdle? ==> ContractKept(Run(actions))
  {
    hide Run;
    RunKeepsOwnership(actions);
    if Run(actions).app.AIdle? {
      ContractAtRest(Run(actions));
    }
  }
}
