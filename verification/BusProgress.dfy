/**
 A start() or stop() whose driver calls succeed comes to its end: from every point of it, steps of the application
 thread and, where a stop waits for the acknowledgement, of the receive task lead to Ok.
*/
module BusProgress {
  import opened BusMachine
  import opened BusOwnership
  import opened BusSafety

  function RunFrom(b: Bus, actions: seq<Action>): Bus
    decreases |actions|
  {
    if actions == [] then b else RunFrom(Step(b, actions[0]), actions[1..])
  }

  /** A step in which nothing fails. */
  predicate Helpful(a: Action) {
    a == AppStep(true, false) || (a.TaskStep? && a.ok && a.reception.Idle? && !a.spurious)
  }

  /** The acknowledgement that the stop waits for is still to come. */
  predicate AwaitsTask(b: Bus) {
    b.app.XWaitAck? && b.shared.acks == 0
  }

  function NextAction(b: Bus): Action {
    if AwaitsTask(b) then TaskStep(0, Idle, true, false) else AppStep(true, false)
  }

  function AppRank(b: Bus): nat {
    match b.app
    case XLoad => 20
    case XExchange(seen) => if seen == b.control.state then 18 else 19
    case XUnrequest => 17
    case XCheckStarted => 16
    case XDriverStop => 15
    case XMarkStopped => 14
    case XCheckOwned(_) => 13
    case XWaitAck(_) => 12
    case XAcknowledge(_) => 11
    case XPollAck(_) => 11
    case XCheckInstalled(_, _) => 10
    case XUninstall => 9
    case XMarkUninstalled => 8
    case RLoadOwned(_) => 7
    case RLoadInstalled(_) => 6
    case RStore(_, _) => 5
    case XDrainTokens => 1
    case _ => 0
  }

  /** The steps of a receive task to its end once it is no longer requested and its driver calls succeed. */
  function TaskRank(t: Task, state: Lifecycle): nat {
    match t
    case TGiveAck => 1
    case TExit => 2
    case TLoop => 3
    case TAlerts => 4
    case TStatus => 5
    case TSignal => 6
    case TReceive => 6
    case TLatchSignal => 3
    case TLatchExchange(seen) => if seen == state then 4 else 5
    case TLatchLoad => 6
    case TLatchFlag => 7
  }

  function Rank(b: Bus): nat {
    100 * AppRank(b)
    + (if b.app.XDrainTokens? then b.shared.tokens else 0)
    + if AwaitsTask(b) && b.tasks != [] then TaskRank(b.tasks[0], b.control.state) else 0
  }

  /** A stop in progress that has met no failure and found the driver installed. */
  ghost predicate Stopping(b: Bus) {
    && OwnInv(b) && !InStart(b.app) && !b.app.SRejected?
    && !b.history.call.failed && b.history.call.installedBefore
    && (AppRank(b) <= 16 ==> !b.shared.receiveRequested)
    && (AwaitsTask(b) ==> b.tasks != [])
    && (b.app.AIdle? ==> b.history.call.outcome.StopDone?)
  }

  /** A step that meets no failure and brings the stop closer to its end. */
  ghost predicate Closer(b: Bus, t: Bus) {
    && !t.history.call.failed && t.history.call.installedBefore
    && (AppRank(t) <= 16 ==> !t.shared.receiveRequested)
    && !InStart(t.app) && !t.app.SRejected?
    && (AwaitsTask(t) ==> t.tasks != [])
    && (t.app.AIdle? ==> t.history.call.outcome.StopDone?)
    && Rank(t) < Rank(b)
  }

  lemma BeginningProgresses(b: Bus)
    requires Stopping(b) && (b.app.XLoad? || b.app.XExchange?)
    ensures Closer(b, StopStep(b, true, false))
  {
  }

  lemma WaitProgresses(b: Bus)
    requires Stopping(b) && !AwaitsTask(b) && (b.app.XCheckOwned? || b.app.XWaitAck?)
    ensures Closer(b, StopStep(b, true, false))
  {
    hide TaskInLoop, StartingOwned;
  }

  lemma HandoffProgresses(b: Bus)
    requires Stopping(b) && !AwaitsTask(b)
    requires b.app.XCheckOwned? || b.app.XWaitAck? || b.app.XAcknowledge? || b.app.XPollAck? || b.app.XCheckInstalled?
    ensures Closer(b, StopStep(b, true, false))
  {
    hide TaskInLoop, StartingOwned;
    if b.app.XCheckOwned? || b.app.XWaitAck? {
      WaitProgresses(b);
    }
  }

  lemma ReleasingProgresses(b: Bus)
    requires Stopping(b) && (b.app.XUninstall? || b.app.XMarkUninstalled? || b.app.XDrainTokens?)
    ensures Closer(b, StopStep(b, true, false))
  {
    hide TaskInLoop;
  }

  lemma StopProgresses(b: Bus)
    requires Stopping(b) && !b.app.AIdle? && !Reconciling(b.app) && !AwaitsTask(b)
    ensures Closer(b, StopStep(b, true, false))
  {
    hide TaskInLoop;
    if b.app.XLoad? || b.app.XExchange? {
      BeginningProgresses(b);
    } else if b.app.XCheckOwned? || b.app.XWaitAck? || b.app.XAcknowledge? || b.app.XPollAck?
              || b.app.XCheckInstalled? {
      HandoffProgresses(b);
    } else if b.app.XUninstall? || b.app.XMarkUninstalled? || b.app.XDrainTokens? {
      ReleasingProgresses(b);
    }
  }

  lemma ReconcileProgresses(b: Bus)
    requires Stopping(b) && Reconciling(b.app)
    ensures Closer(b, ReconcileStep(b))
  {
  }

  lemma TaskProgresses(b: Bus)
    requires Stopping(b) && AwaitsTask(b)
    ensures var t := OneTaskStep(b, 0, Idle, true, false);
            && t.app == b.app && t.history.call == b.history.call
            && !t.shared.receiveRequested
            && (AwaitsTask(t) ==> t.tasks != [])
            && Rank(t) < Rank(b)
  {
  }

  lemma StepIsTask(b: Bus)
    requires b.tasks != []
    ensures Step(b, TaskStep(0, Idle, true, false)) == OneTaskStep(b, 0, Idle, true, false)
    ensures OneTaskStep(b, 0, Idle, true, false).consumer == b.consumer
  {
  }

  lemma StepIsStop(b: Bus)
    requires !InStart(b.app) && !b.app.SRejected?
    ensures Step(b, AppStep(true, false)) == if Reconciling(b.app) then ReconcileStep(b) else StopStep(b, true, false)
    ensures Step(b, AppStep(true, false)).consumer == b.consumer
  {
    hide TaskInLoop;
  }

  /** Every step of a stop without failures keeps it so and brings it closer to its end. */
  lemma StepProgresses(b: Bus)
    requires Stopping(b) && !b.app.AIdle?
    ensures var t := Step(b, NextAction(b));
            Stopping(t) && Rank(t) < Rank(b) && t.consumer == b.consumer
  {
    hide OwnInv, Step, StopStep, ReconcileStep, OneTaskStep, Rank;
    StepKeepsOwnership(b, NextAction(b));
    if AwaitsTask(b) {
      TaskProgresses(b);
      StepIsTask(b);
    } else {
      StepIsStop(b);
      if Reconciling(b.app) {
        ReconcileProgresses(b);
      } else {
        StopProgresses(b);
      }
    }
  }

  lemma EndIsSuccess(b: Bus)
    requires Stopping(b) && b.app.AIdle?
    ensures b.history.call.outcome == StopDone(Ok) && !b.driver.installed && !b.history.call.failed
  {
  }

  /** From every point of a stop that has met no failure, helpful steps lead to its return with Ok. */
  lemma {:induction false} StopEnds(b: Bus) returns (more: seq<Action>)
    requires Stopping(b)
    ensures forall k :: 0 <= k < |more| ==> Helpful(more[k])
    ensures var t := RunFrom(b, more);
            && t.app.AIdle? && OwnInv(t) && t.consumer == b.consumer
            && t.history.call.outcome == StopDone(Ok) && !t.driver.installed && !t.history.call.failed
    decreases Rank(b)
  {
    hide OwnInv, Step, Rank;
    if b.app.AIdle? {
      EndIsSuccess(b);
      more := [];
    } else {
      StepProgresses(b);
      var rest := StopEnds(Step(b, NextAction(b)));
      more := [NextAction(b)] + rest;
      assert more[1..] == rest;
    }
  }

  lemma StopBegins(b: Bus)
    requires OwnInv(b) && b.app.AIdle? && b.driver.installed
    ensures Stopping(Step(b, BeginStop)) && Step(b, BeginStop).consumer == b.consumer
  {
    BeginStopKeepsOwnership(b);
  }

  /** From every reachable bus at rest with the driver installed, a stop() without failures can run to Ok. */
  lemma StopCanSucceed(actions: seq<Action>) returns (more: seq<Action>)
    requires Run(actions).app.AIdle? && Run(actions).driver.installed
    ensures forall k :: 0 <= k < |more| ==> more[k] == BeginStop || Helpful(more[k])
    ensures var t := RunFrom(Run(actions), more);
            t.app.AIdle? && t.history.call.outcome == StopDone(Ok) && !t.driver.installed && !t.history.call.failed
  {
    hide Run, OwnInv, Step;
    RunKeepsOwnership(actions);
    var b := Run(actions);
    StopBegins(b);
    var rest := StopEnds(Step(b, BeginStop));
    more := [BeginStop] + rest;
    assert more[1..] == rest;
  }

  // --- a stop that finds an acknowledgement --------------------------------------------------------------------

  /** No move creates a task while an acknowledgement is outstanding. */
  ghost predicate Unbreached(b: Bus, moves: seq<Action>)
    decreases |moves|
  {
    moves == [] || (!Breach(b, moves[0]) && Unbreached(Step(b, moves[0]), moves[1..]))
  }

  /** A stop without failures for which the acknowledgement it looks for is already there. */
  ghost predicate Supplied(b: Bus) {
    && Stopping(b)
    && b.shared.acks == (if AppRank(b) >= 12 || b.app.XPollAck? then 1 else 0)
    && (b.app.AIdle? ==> b.shared.tokens == 0)
  }

  /** The acknowledgement is taken exactly where the stop looks for it, and no task moves. */
  ghost predicate TakesAck(b: Bus, t: Bus) {
    && t.shared.acks == (if AppRank(t) >= 12 || t.app.XPollAck? then 1 else 0)
    && (t.app.AIdle? ==> t.shared.tokens == 0)
    && t.tasks == b.tasks
  }

  lemma EnteringTakes(b: Bus)
    requires Supplied(b) && AppRank(b) >= 14
    ensures TakesAck(b, StopStep(b, true, false))
  {
    hide TaskInLoop, StartingOwned;
  }

  lemma HandoffTakes(b: Bus)
    requires Supplied(b) && 10 <= AppRank(b) <= 13
    ensures TakesAck(b, StopStep(b, true, false))
  {
    hide TaskInLoop, StartingOwned;
  }

  lemma LeavingTakes(b: Bus)
    requires Supplied(b) && (b.app.XUninstall? || b.app.XMarkUninstalled? || b.app.XDrainTokens?)
    ensures TakesAck(b, StopStep(b, true, false))
  {
    hide TaskInLoop, StartingOwned;
  }

  lemma ReconcileTakes(b: Bus)
    requires Supplied(b) && Reconciling(b.app)
    ensures TakesAck(b, ReconcileStep(b))
  {
    hide StartingOwned;
  }

  lemma SuppliedStep(b: Bus)
    requires Supplied(b) && !b.app.AIdle?
    ensures var t := Step(b, AppStep(true, false));
            && Supplied(t) && Rank(t) < Rank(b)
            && t.tasks == b.tasks && t.consumer == b.consumer && !Breach(b, AppStep(true, false))
  {
    hide OwnInv, Step, StopStep, ReconcileStep, Rank;
    StepProgresses(b);
    StepIsStop(b);
    if Reconciling(b.app) {
      ReconcileTakes(b);
    } else if AppRank(b) >= 14 {
      EnteringTakes(b);
    } else if AppRank(b) >= 10 {
      HandoffTakes(b);
    } else {
      LeavingTakes(b);
    }
  }

  /** Such a stop returns Ok without a step of any task. */
  lemma {:induction false} StopEndsOnAck(b: Bus) returns (more: seq<Action>)
    requires Supplied(b)
    ensures Unbreached(b, more)
    ensures var t := RunFrom(b, more);
            && t.app.AIdle? && OwnInv(t) && !t.driver.installed
            && t.tasks == b.tasks && t.consumer == b.consumer && t.shared.acks == t.shared.tokens == 0
    decreases Rank(b)
  {
    hide OwnInv, Step, Rank, Breach;
    if b.app.AIdle? {
      EndIsSuccess(b);
      more := [];
    } else {
      SuppliedStep(b);
      var rest := StopEndsOnAck(Step(b, AppStep(true, false)));
      more := [AppStep(true, false)] + rest;
      assert more[1..] == rest;
    }
  }

  // --- a start -------------------------------------------------------------------------------------------------

  function StartRank(app: App): nat {
    match app
    case SCreateSemaphores => 12
    case SDrainTokens => 11
    case SDrainAcks => 10
    case SInstall => 9
    case SMarkInstalled => 8
    case SDriverStart => 7
    case SMarkStarted => 6
    case SClearRing => 5
    case SRequest => 4
    case SOwnTask => 3
    case SCreateTask => 2
    case AIdle => 1
    case _ => 0
  }

  function WorkLeft(b: Bus): nat {
    100 * StartRank(b.app)
    + if b.app.SDrainTokens? then b.shared.tokens else if b.app.SDrainAcks? then b.shared.acks else 0
  }

  /** A start that has met no failure, with nobody receiving: what it has prepared so far. */
  ghost predicate Starting(b: Bus) {
    && OwnInv(b) && StartRank(b.app) >= 1 && !b.history.call.failed && b.consumer.CIdle? && b.control.state.Running?
    && b.history.fault == Fault(false, false, false)
    && (StartRank(b.app) <= 11 ==> b.shared.semaphores)
    && (StartRank(b.app) <= 10 ==> b.shared.tokens == 0)
    && (StartRank(b.app) <= 9 ==> b.shared.acks == 0)
    && (StartRank(b.app) <= 4 ==> b.shared.depth == 0)
    && (StartRank(b.app) <= 3 ==> b.shared.receiveRequested)
    && (StartRank(b.app) <= 2 ==> b.control.taskOwned)
    && (b.app.AIdle? ==>
          && b.control.installed && b.control.started
          && b.history.call.outcome == StartDone(Ok, true) && b.tasks != [] && b.tasks[|b.tasks| - 1].TLoop?)
  }

  /** What one more step has prepared. */
  ghost predicate Nearer(b: Bus, t: Bus) {
    && StartRank(t.app) >= 1 && !t.history.call.failed && t.consumer.CIdle? && t.control.state.Running?
    && t.history.fault == b.history.fault
    && (StartRank(t.app) <= 11 ==> t.shared.semaphores)
    && (StartRank(t.app) <= 10 ==> t.shared.tokens == 0)
    && (StartRank(t.app) <= 9 ==> t.shared.acks == 0)
    && (StartRank(t.app) <= 4 ==> t.shared.depth == 0)
    && (StartRank(t.app) <= 3 ==> t.shared.receiveRequested)
    && (StartRank(t.app) <= 2 ==> t.control.taskOwned)
    && (t.app.AIdle? ==>
          && t.control.installed && t.control.started
          && t.history.call.outcome == StartDone(Ok, true) && t.tasks == b.tasks + [TLoop])
    && (!t.app.AIdle? ==> t.tasks == b.tasks)
    && WorkLeft(t) < WorkLeft(b)
  }

  lemma DrainingNears(b: Bus)
    requires Starting(b) && (b.app.SDrainTokens? || b.app.SDrainAcks?)
    ensures Nearer(b, StartStep(b, true))
  {
    hide TaskInLoop, OutsideOk;
  }

  lemma DrivingNears(b: Bus)
    requires Starting(b) && (b.app.SInstall? || b.app.SMarkInstalled? || b.app.SDriverStart? || b.app.SMarkStarted?)
    ensures Nearer(b, StartStep(b, true))
  {
    hide TaskInLoop, OutsideOk;
  }

  lemma LaunchingNears(b: Bus)
    requires Starting(b) && 2 <= StartRank(b.app) <= 5
    ensures Nearer(b, StartStep(b, true))
  {
    hide TaskInLoop, OutsideOk;
  }

  lemma PreparingNears(b: Bus)
    requires Starting(b) && b.app.SCreateSemaphores?
    ensures Nearer(b, StartStep(b, true))
  {
    hide TaskInLoop, OutsideOk;
  }

  lemma StepIsStart(b: Bus)
    requires StartRank(b.app) >= 2
    ensures Step(b, AppStep(true, false)) == StartStep(b, true)
  {
    hide StartStep;
  }

  lemma StartNears(b: Bus)
    requires Starting(b) && !b.app.AIdle?
    ensures var t := Step(b, AppStep(true, false)); Starting(t) && Nearer(b, t)
  {
    hide OwnInv, Step, StartStep, WorkLeft;
    StepKeepsOwnership(b, AppStep(true, false));
    StepIsStart(b);
    if b.app.SCreateSemaphores? {
      PreparingNears(b);
    } else if b.app.SDrainTokens? || b.app.SDrainAcks? {
      DrainingNears(b);
    } else if StartRank(b.app) >= 6 {
      DrivingNears(b);
    } else {
      LaunchingNears(b);
    }
  }

  /** From every point of a start that has met no failure, successful steps of it lead to its return with Ok. */
  lemma {:induction false} StartEnds(b: Bus) returns (more: seq<Action>)
    requires Starting(b)
    ensures forall k :: 0 <= k < |more| ==> more[k] == AppStep(true, false)
    ensures (forall i :: 0 <= i < |b.tasks| ==> !b.tasks[i].TGiveAck?) ==> Unbreached(b, more)
    ensures var t := RunFrom(b, more);
            && t.app.AIdle? && Starting(t)
            && t.tasks == if b.app.AIdle? then b.tasks else b.tasks + [TLoop]
    decreases WorkLeft(b)
  {
    hide OwnInv, Step, WorkLeft;
    if b.app.AIdle? {
      more := [];
    } else {
      StartNears(b);
      var t := Step(b, AppStep(true, false));
      var rest := StartEnds(t);
      more := [AppStep(true, false)] + rest;
      assert more[1..] == rest;
    }
  }

  lemma StartBegins(b: Bus)
    requires OwnInv(b) && b.app.AIdle? && b.control.state.Stopped? && b.consumer.CIdle?
    ensures var t := Step(b, BeginStart(true)); Starting(t) && !t.app.AIdle? && t.tasks == b.tasks
  {
    BeginStartKeepsOwnership(b, true);
  }

  /** These moves of a start without failures lead to its return: the driver runs and one task more is there. */
  ghost predicate StartsUp(b: Bus, moves: seq<Action>) {
    && (forall k :: 0 <= k < |moves| ==> moves[k] == BeginStart(true) || moves[k] == AppStep(true, false))
    && var t := RunFrom(b, moves);
    && t.app.AIdle? && t.history.call.outcome == StartDone(Ok, true)
    && t.control == Controller(Running, true, true, true) && t.driver == Driver(true, true)
    && t.tasks == b.tasks + [TLoop]
    && t.shared.receiveRequested && t.shared.depth == t.shared.tokens == t.shared.acks == 0
  }

  lemma StartedUp(b: Bus)
    requires Starting(b) && b.app.AIdle?
    ensures b.history.call.outcome == StartDone(Ok, true) && !b.history.call.failed
    ensures b.control == Controller(Running, true, true, true) && b.driver == Driver(true, true)
    ensures b.shared.receiveRequested && b.shared.depth == b.shared.tokens == b.shared.acks == 0
  {
    hide TaskInLoop;
  }

  /**
   From every reachable bus at rest and Stopped, with nobody receiving, a start() without failures runs to Ok, with
   ring, semaphore and acknowledgement empty.
  */
  lemma StartCanSucceed(actions: seq<Action>)
    requires var b := Run(actions); b.app.AIdle? && b.control.state.Stopped? && b.consumer.CIdle?
    ensures exists moves: seq<Action> :: StartsUp(Run(actions), moves)
  {
    hide Run, Step, BeginStartStep, WorkLeft;
    RunKeepsOwnership(actions);
    var b := Run(actions);
    StartBegins(b);
    var rest := StartEnds(Step(b, BeginStart(true)));
    var moves := [BeginStart(true)] + rest;
    assert moves[1..] == rest;
    StartedUp(RunFrom(b, moves));
    assert StartsUp(b, moves);
  }

  // --- a receive() ---------------------------------------------------------------------------------------------

  /** How many of its own steps a receive() in progress still takes. */
  function Patience(c: Consumer): nat {
    match c
    case CIdle => 0
    case CPop => 1
    case CTimedOut => 1
    case CTook => 2
    case CWait => 3
  }

  lemma ConsumerProgresses(b: Bus)
    requires !b.consumer.CIdle?
    ensures Patience(Step(b, ConsumerStep).consumer) < Patience(b.consumer)
  {
  }
}
