/**
 Which failure a start() or stop() reports. Only the application thread decides this: what failed on the way travels
 with its position, and nothing another thread does can change it.
*/
module BusFailures {
  import opened BusMachine

  /** The failure that has been met so far is the one that will be reported. */
  ghost predicate Reports(call: Call, result: Result) {
    call.failed && result == if call.taskSide then TaskFailure else DriverFailure
  }

  ghost predicate Unfailed(call: Call) {
    !call.failed && !call.taskSide
  }

  ghost predicate OutcomeNamed(call: Call) {
    match call.outcome
    case StartDone(result, _) => if result.Ok? then Unfailed(call) else Reports(call, result)
    case StopDone(result) => if result.Ok? || result.NotStarted? then Unfailed(call) else Reports(call, result)
    case _ => true
  }

  ghost predicate PendingNamed(call: Call, p: Pending) {
    match p
    case FailStart(result, _) => Reports(call, result)
    case FinishStop(driverStopped, taskStopped, driverUninstalled) =>
      call.taskSide == !taskStopped && call.failed == !(driverStopped && taskStopped && driverUninstalled)
  }

  ghost predicate Named(app: App, call: Call) {
    match app
    case AIdle => OutcomeNamed(call)
    case SRejected => true
    case SAbort(result) => Reports(call, result)
    case SUndoInstall => call.failed && !call.taskSide
    case SMarkUndone => call.failed && !call.taskSide
    case SUnrequest => call.failed && call.taskSide
    case SDisownTask => call.failed && call.taskSide
    case SBeginStop => call.failed && call.taskSide
    case SDriverStop => call.failed && call.taskSide
    case SMarkStopped => call.failed && call.taskSide
    case SUninstall => call.failed && call.taskSide
    case SMarkUninstalled => call.failed && call.taskSide
    case XCheckOwned(driverStopped) => call.failed == !driverStopped && !call.taskSide
    case XWaitAck(driverStopped) => call.failed == !driverStopped && !call.taskSide
    case XAcknowledge(driverStopped) => call.failed == !driverStopped && !call.taskSide
    case XPollAck(driverStopped) => call.failed == !driverStopped && !call.taskSide
    case XCheckInstalled(driverStopped, taskStopped) =>
      call.taskSide == !taskStopped && call.failed == !(driverStopped && taskStopped)
    case RLoadOwned(p) => PendingNamed(call, p)
    case RLoadInstalled(p) => PendingNamed(call, p)
    case RStore(p, _) => PendingNamed(call, p)
    case _ => Unfailed(call)
  }

  lemma StartNames(b: Bus, ok: bool)
    requires (InStart(b.app) || b.app.SRejected?) && !Reconciling(b.app) && Named(b.app, b.history.call)
    ensures var t := StartStep(b, ok); Named(t.app, t.history.call)
  {
    hide TaskInLoop;
  }

  lemma StopNames(b: Bus, ok: bool, spurious: bool)
    requires !InStart(b.app) && !b.app.SRejected? && !Reconciling(b.app) && Named(b.app, b.history.call)
    ensures var t := StopStep(b, ok, spurious); Named(t.app, t.history.call)
  {
    hide TaskInLoop;
  }

  lemma ReconcileNames(b: Bus)
    requires Reconciling(b.app) && Named(b.app, b.history.call)
    ensures var t := ReconcileStep(b); Named(t.app, t.history.call)
  {
  }

  lemma TaskNames(b: Bus, i: nat, reception: Reception, ok: bool, spurious: bool)
    requires i < |b.tasks|
    ensures var t := OneTaskStep(b, i, reception, ok, spurious); t.app == b.app && t.history.call == b.history.call
  {
  }

  lemma StepNames(b: Bus, a: Action)
    requires Named(b.app, b.history.call)
    ensures var t := Step(b, a); Named(t.app, t.history.call)
  {
    hide StartStep, StopStep, ReconcileStep, OneTaskStep;
    match a {
      case AppStep(ok, spurious) =>
        if Reconciling(b.app) {
          ReconcileNames(b);
        } else if InStart(b.app) || b.app.SRejected? {
          StartNames(b, ok);
        } else {
          StopNames(b, ok, spurious);
        }
      case TaskStep(i, reception, ok, spurious) =>
        if i < |b.tasks| { TaskNames(b, i, reception, ok, spurious); }
      case _ =>
    }
  }

  lemma NothingFailed()
    ensures var b := Run([]); Named(b.app, b.history.call)
  {
  }

  lemma {:induction false} RunNames(actions: seq<Action>)
    ensures var b := Run(actions); Named(b.app, b.history.call)
  {
    hide Step, Named;
    if actions == [] {
      NothingFailed();
    } else {
      RunNames(actions[..|actions| - 1]);
      StepNames(Run(actions[..|actions| - 1]), actions[|actions| - 1]);
    }
  }

  /**
   In every interleaving a call that returned names its failure: start() answers TaskFailure exactly if a semaphore or
   the task could not be created and DriverFailure exactly if the driver could not be installed or started; stop()
   answers TaskFailure exactly if the task did not acknowledge in time, and DriverFailure exactly if it did and the
   driver could not be stopped or uninstalled; Ok and NotStarted report that nothing failed.
  */
  lemma FailuresAreNamed(actions: seq<Action>)
    ensures var b := Run(actions);
            var call := b.history.call;
            b.app.AIdle? && (call.outcome.StartDone? || call.outcome.StopDone?) ==>
              && (call.outcome.result.TaskFailure? <==> call.failed && call.taskSide)
              && (call.outcome.result.DriverFailure? <==> call.failed && !call.taskSide)
              && (call.outcome.result in {Ok, NotStarted} <==> !call.failed)
  {
    hide Run;
    RunNames(actions);
  }
}
