/**
 What every run of the bus keeps, however late a task acknowledges: the flags of the controller agree with the driver,
 the state tells what is owned, and every lifecycle call reports what it leaves behind. Only the application thread
 writes these, apart from a task that gives up its ownership or latches a fault.
*/
module BusOwnership {
  import opened BusMachine
  import opened BusSafety

  // --- the application thread ----------------------------------------------------------------------------------

  /** A start may find a fault latched by an earlier task that is still alive. */
  predicate Underway(state: Lifecycle) {
    state.Running? || state.Faulted?
  }

  /** The flags of a start in progress: installed and started, for the controller and for the driver. */
  ghost predicate Flags(v: View, installed: bool, driverInstalled: bool, started: bool, driverStarted: bool) {
    && v.control.installed == installed && v.driver.installed == driverInstalled
    && v.control.started == started && v.driver.started == driverStarted
    && !v.call.installedBefore
  }

  ghost predicate StartingOwned(app: App, v: View) {
    match app
    case SCreateSemaphores =>
      Underway(v.control.state) && Flags(v, false, false, false, false) && v.quiet && !v.call.failed
    case SAbort(result) =>
      && Underway(v.control.state) && Flags(v, false, false, false, false) && v.quiet && v.call.failed
      && result in {DriverFailure, TaskFailure}
    case SDrainTokens => Underway(v.control.state) && Flags(v, false, false, false, false) && v.quiet && !v.call.failed
    case SDrainAcks => Underway(v.control.state) && Flags(v, false, false, false, false) && v.quiet && !v.call.failed
    case SInstall => Underway(v.control.state) && Flags(v, false, false, false, false) && v.quiet && !v.call.failed
    case SMarkInstalled => Underway(v.control.state) && Flags(v, false, true, false, false) && v.quiet && !v.call.failed
    case SDriverStart => Underway(v.control.state) && Flags(v, true, true, false, false) && v.quiet && !v.call.failed
    case SUndoInstall => Underway(v.control.state) && Flags(v, true, true, false, false) && v.quiet && v.call.failed
    case SMarkUndone => Underway(v.control.state) && Flags(v, true, false, false, false) && v.quiet && v.call.failed
    case SMarkStarted => Underway(v.control.state) && Flags(v, true, true, false, true) && v.quiet && !v.call.failed
    case SClearRing => Underway(v.control.state) && Flags(v, true, true, true, true) && v.quiet && !v.call.failed
    case SRequest => Underway(v.control.state) && Flags(v, true, true, true, true) && v.quiet && !v.call.failed
    case SOwnTask => Underway(v.control.state) && Flags(v, true, true, true, true) && v.quiet && !v.call.failed
    case SCreateTask => Underway(v.control.state) && Flags(v, true, true, true, true) && !v.call.failed
    case SUnrequest => Underway(v.control.state) && Flags(v, true, true, true, true) && v.call.failed
    case SDisownTask => Underway(v.control.state) && Flags(v, true, true, true, true) && v.call.failed
    case SBeginStop => Underway(v.control.state) && Flags(v, true, true, true, true) && v.quiet && v.call.failed
    case SDriverStop => !v.control.state.Stopped? && Flags(v, true, true, true, true) && v.quiet && v.call.failed
    case SMarkStopped => !v.control.state.Stopped? && Flags(v, true, true, true, false) && v.quiet && v.call.failed
    case SUninstall => !v.control.state.Stopped? && Flags(v, true, true, false, false) && v.quiet && v.call.failed
    case SMarkUninstalled =>
      !v.control.state.Stopped? && Flags(v, true, false, false, false) && v.quiet && v.call.failed
    case RLoadOwned(p) => FailOwned(v, p)
    case RLoadInstalled(p) => FailOwned(v, p)
    case RStore(p, verdict) => FailOwned(v, p) && verdict == if v.control.installed then Faulted else Stopped
    case _ => true
  }

  ghost predicate FailOwned(v: View, p: Pending) {
    && p.FailStart? && p.result in {DriverFailure, TaskFailure} && p.cleanupRequired == v.control.installed
    && !v.control.state.Stopped? && v.quiet && v.call.failed && !v.call.installedBefore
    && v.control.installed == v.driver.installed && v.control.started == v.driver.started
    && (v.control.started ==> v.control.installed)
  }

  /** A task that no longer claims ownership is one that the application thread does not reckon with. */
  function OwnView(b: Bus): View {
    View(b.control, b.driver, !b.control.taskOwned, b.history.call, b.history.fault.drained)
  }

  /** Outside a start, as in BusSafety; only an acknowledgement that was taken may be that of an earlier task. */
  ghost predicate OutsideOwned(app: App, v: View) {
    match app
    case XAcknowledge(ds) => Halting(v, ds) && v.call.failed == !ds
    case _ => OutsideOk(app, v)
  }

  ghost predicate AppOwned(app: App, v: View) {
    if InStart(app) then StartingOwned(app, v) else OutsideOwned(app, v)
  }

  // --- the tasks -----------------------------------------------------------------------------------------------

  /** No task is about to turn Stopped or Faulted into a fault. */
  ghost predicate LatchesSound(tasks: seq<Task>) {
    forall i :: 0 <= i < |tasks| && tasks[i].TLatchExchange? ==> !tasks[i].seen.Faulted? && !tasks[i].seen.Stopped?
  }

  predicate Creating(app: App) {
    app.SCreateTask? || app.SUnrequest? || app.SDisownTask?
  }

  /** An ownership that is claimed is that of the youngest task, which has not given it up. */
  ghost predicate Manned(b: Bus) {
    b.control.taskOwned && !Creating(b.app) ==> b.tasks != [] && !b.tasks[|b.tasks| - 1].TGiveAck?
  }

  /** What does not depend on where the application thread is. */
  ghost predicate Bounded(b: Bus) {
    && b.shared.tokens <= QUEUE_CAPACITY && b.shared.depth <= QUEUE_CAPACITY && b.shared.acks <= 1
    && (b.history.fault.latched ==> !b.control.state.Running?)
    && b.history.violations <= {UninstallUnderTask, SecondTask}
  }

  ghost predicate OwnInv(b: Bus) {
    AppOwned(b.app, OwnView(b)) && LatchesSound(b.tasks) && Manned(b) && Bounded(b)
  }

  // --- steps of the application thread -------------------------------------------------------------------------

  /** What the application thread can do to the rest. */
  ghost predicate AppStepOwns(b: Bus, t: Bus) {
    && AppOwned(t.app, OwnView(t))
    && t.history.violations <= b.history.violations + {UninstallUnderTask, SecondTask}
    && t.shared.tokens <= b.shared.tokens && t.shared.depth <= b.shared.depth && t.shared.acks <= b.shared.acks
    && t.history.fault.latched == b.history.fault.latched
    && (t.control.state.Running? ==> b.control.state.Running?)
    && Manned(t)
    && (t.tasks == b.tasks || t.tasks == b.tasks + [TLoop])
  }

  predicate Opening(app: App) {
    || app.SCreateSemaphores? || app.SAbort? || app.SDrainTokens? || app.SDrainAcks? || app.SInstall?
    || app.SMarkInstalled?
  }

  predicate Undoing(app: App) {
    || app.SUnrequest? || app.SDisownTask? || app.SBeginStop? || app.SDriverStop? || app.SMarkStopped?
    || app.SUninstall? || app.SMarkUninstalled?
  }

  lemma OpeningOwns(b: Bus, ok: bool)
    requires Opening(b.app) && AppOwned(b.app, OwnView(b)) && Manned(b)
    ensures AppStepOwns(b, StartStep(b, ok))
  {
    hide TaskInLoop;
  }

  lemma UninstallingOwns(b: Bus, ok: bool)
    requires b.app.SUninstall? && AppOwned(b.app, OwnView(b)) && Manned(b)
    ensures AppStepOwns(b, StartStep(b, ok))
  {
    hide TaskInLoop, OutsideOk;
  }

  lemma HaltingOwns(b: Bus, ok: bool)
    requires b.app.SDriverStop? || b.app.SMarkStopped? || b.app.SMarkUninstalled?
    requires AppOwned(b.app, OwnView(b)) && Manned(b)
    ensures AppStepOwns(b, StartStep(b, ok))
  {
    hide TaskInLoop, OutsideOk;
  }

  lemma UndoingOwns(b: Bus, ok: bool)
    requires Undoing(b.app) && AppOwned(b.app, OwnView(b)) && Manned(b)
    ensures AppStepOwns(b, StartStep(b, ok))
  {
    hide TaskInLoop, OutsideOk;
    if b.app.SUninstall? {
      UninstallingOwns(b, ok);
    } else if b.app.SDriverStop? || b.app.SMarkStopped? || b.app.SMarkUninstalled? {
      HaltingOwns(b, ok);
    }
  }

  lemma CreatingOwns(b: Bus, ok: bool)
    requires b.app.SRequest? || b.app.SOwnTask? || b.app.SCreateTask?
    requires AppOwned(b.app, OwnView(b)) && Manned(b)
    ensures AppStepOwns(b, StartStep(b, ok))
  {
    hide TaskInLoop;
  }

  lemma StartingOwns(b: Bus, ok: bool)
    requires b.app.SDriverStart? || b.app.SUndoInstall? || b.app.SMarkUndone? || b.app.SMarkStarted?
             || b.app.SClearRing?
    requires AppOwned(b.app, OwnView(b)) && Manned(b)
    ensures AppStepOwns(b, StartStep(b, ok))
  {
    hide TaskInLoop, OutsideOk;
  }

  lemma RejectionOwns(b: Bus, ok: bool)
    requires b.app.SRejected? && AppOwned(b.app, OwnView(b)) && Manned(b)
    ensures AppStepOwns(b, StartStep(b, ok))
  {
  }

  lemma StartOwns(b: Bus, ok: bool)
    requires (InStart(b.app) || b.app.SRejected?) && !Reconciling(b.app) && AppOwned(b.app, OwnView(b)) && Manned(b)
    ensures AppStepOwns(b, StartStep(b, ok))
  {
    hide StartStep, AppStepOwns, AppOwned, Manned;
    if Opening(b.app) {
      OpeningOwns(b, ok);
    } else if Undoing(b.app) {
      UndoingOwns(b, ok);
    } else if b.app.SRequest? || b.app.SOwnTask? || b.app.SCreateTask? {
      CreatingOwns(b, ok);
    } else if b.app.SRejected? {
      RejectionOwns(b, ok);
    } else {
      StartingOwns(b, ok);
    }
  }

  lemma AdmittingOwns(b: Bus, ok: bool, spurious: bool)
    requires (b.app.XLoad? || b.app.XExchange?) && AppOwned(b.app, OwnView(b)) && Manned(b)
    ensures AppStepOwns(b, StopStep(b, ok, spurious))
  {
    hide TaskInLoop, StartingOwned;
  }

  lemma EnteringOwns(b: Bus, ok: bool, spurious: bool)
    requires Entering(b.app) && AppOwned(b.app, OwnView(b)) && Manned(b)
    ensures AppStepOwns(b, StopStep(b, ok, spurious))
  {
    hide TaskInLoop, StartingOwned;
    if b.app.XLoad? || b.app.XExchange? {
      AdmittingOwns(b, ok, spurious);
    }
  }

  lemma AwaitOwns(b: Bus, ok: bool, spurious: bool)
    requires b.app.XWaitAck? && AppOwned(b.app, OwnView(b)) && Manned(b)
    ensures AppStepOwns(b, StopStep(b, ok, spurious))
  {
    hide TaskInLoop, StartingOwned;
  }

  lemma HandoffOwns(b: Bus, ok: bool, spurious: bool)
    requires b.app.XCheckOwned? || b.app.XAcknowledge? || b.app.XPollAck?
    requires AppOwned(b.app, OwnView(b)) && Manned(b)
    ensures AppStepOwns(b, StopStep(b, ok, spurious))
  {
    hide TaskInLoop, StartingOwned;
  }

  lemma UninstallOwns(b: Bus, ok: bool, spurious: bool)
    requires b.app.XUninstall? && AppOwned(b.app, OwnView(b)) && Manned(b)
    ensures AppStepOwns(b, StopStep(b, ok, spurious))
  {
    hide TaskInLoop, StartingOwned;
  }

  lemma MarkUninstalledOwns(b: Bus, ok: bool, spurious: bool)
    requires b.app.XMarkUninstalled? && AppOwned(b.app, OwnView(b)) && Manned(b)
    ensures AppStepOwns(b, StopStep(b, ok, spurious))
  {
    hide TaskInLoop, StartingOwned;
  }

  lemma LeavingOwns(b: Bus, ok: bool, spurious: bool)
    requires Leaving(b.app) && AppOwned(b.app, OwnView(b)) && Manned(b)
    ensures AppStepOwns(b, StopStep(b, ok, spurious))
  {
    hide TaskInLoop, StartingOwned;
    if b.app.XWaitAck? {
      AwaitOwns(b, ok, spurious);
    } else if b.app.XCheckOwned? || b.app.XAcknowledge? || b.app.XPollAck? {
      HandoffOwns(b, ok, spurious);
    } else if b.app.XUninstall? {
      UninstallOwns(b, ok, spurious);
    } else if b.app.XMarkUninstalled? {
      MarkUninstalledOwns(b, ok, spurious);
    }
  }

  lemma FailingReconcileOwns(b: Bus)
    requires Reconciling(b.app) && InStart(b.app) && AppOwned(b.app, OwnView(b)) && Manned(b)
    ensures AppStepOwns(b, ReconcileStep(b))
  {
  }

  lemma StoppingReconcileOwns(b: Bus)
    requires Reconciling(b.app) && !InStart(b.app) && AppOwned(b.app, OwnView(b)) && Manned(b)
    ensures AppStepOwns(b, ReconcileStep(b))
  {
    hide StartingOwned;
  }

  lemma AppStepKeepsOwnership(b: Bus, ok: bool, spurious: bool)
    requires OwnInv(b)
    ensures OwnInv(Step(b, AppStep(ok, spurious)))
  {
    hide StartStep, StopStep, ReconcileStep, AppOwned, Manned;
    if Reconciling(b.app) {
      if InStart(b.app) {
        FailingReconcileOwns(b);
      } else {
        StoppingReconcileOwns(b);
      }
    } else if InStart(b.app) || b.app.SRejected? {
      StartOwns(b, ok);
    } else if Entering(b.app) {
      EnteringOwns(b, ok, spurious);
    } else if Leaving(b.app) {
      LeavingOwns(b, ok, spurious);
    } else {
      AtRestNothingMoves(b, ok, spurious);
    }
  }

  lemma AtRestNothingMoves(b: Bus, ok: bool, spurious: bool)
    requires !Reconciling(b.app) && !InStart(b.app) && !b.app.SRejected? && !Entering(b.app) && !Leaving(b.app)
    ensures b.app.AIdle? && StopStep(b, ok, spurious) == b
  {
  }

  // --- steps of the tasks --------------------------------------------------------------------------------------

  /** What a task can do to the application thread, whichever start created it: latch a fault, or give up. */
  ghost predicate TaskStepOwns(b: Bus, t: Bus) {
    && t.app == b.app && t.history.violations == b.history.violations
    && LatchesSound(t.tasks) && Manned(t) && Bounded(t)
    && (|| OwnView(t) == OwnView(b)
        || (&& (b.control.state.Running? || b.control.state.Stopping?)
            && OwnView(t) == OwnView(b).(control := b.control.(state := Faulted)))
        || OwnView(t) == OwnView(b).(control := b.control.(taskOwned := false), quiet := true))
  }

  lemma LatchOwns(b: Bus, i: nat, reception: Reception, ok: bool, spurious: bool)
    requires LatchesSound(b.tasks) && Manned(b) && Bounded(b)
    requires i < |b.tasks| && (b.tasks[i].TLatchLoad? || b.tasks[i].TLatchExchange?)
    ensures TaskStepOwns(b, OneTaskStep(b, i, reception, ok, spurious))
  {
  }

  lemma SignalOwns(b: Bus, i: nat, reception: Reception, ok: bool, spurious: bool)
    requires LatchesSound(b.tasks) && Manned(b) && Bounded(b)
    requires i < |b.tasks| && (b.tasks[i].TSignal? || b.tasks[i].TLatchSignal?)
    ensures TaskStepOwns(b, OneTaskStep(b, i, reception, ok, spurious))
  {
  }

  lemma ExitOwns(b: Bus, i: nat, reception: Reception, ok: bool, spurious: bool)
    requires LatchesSound(b.tasks) && Manned(b) && Bounded(b)
    requires i < |b.tasks| && (b.tasks[i].TExit? || b.tasks[i].TGiveAck?)
    ensures TaskStepOwns(b, OneTaskStep(b, i, reception, ok, spurious))
  {
  }

  lemma LoopOwns(b: Bus, i: nat, reception: Reception, ok: bool, spurious: bool)
    requires LatchesSound(b.tasks) && Manned(b) && Bounded(b) && i < |b.tasks|
    requires var t := b.tasks[i]; t.TLoop? || t.TReceive? || t.TStatus? || t.TAlerts? || t.TLatchFlag?
    ensures TaskStepOwns(b, OneTaskStep(b, i, reception, ok, spurious))
  {
  }

  lemma TaskOwns(b: Bus, i: nat, reception: Reception, ok: bool, spurious: bool)
    requires LatchesSound(b.tasks) && Manned(b) && Bounded(b) && i < |b.tasks|
    ensures TaskStepOwns(b, OneTaskStep(b, i, reception, ok, spurious))
  {
    hide OneTaskStep, TaskStepOwns, LatchesSound, Manned;
    if b.tasks[i].TLatchLoad? || b.tasks[i].TLatchExchange? {
      LatchOwns(b, i, reception, ok, spurious);
    } else if b.tasks[i].TSignal? || b.tasks[i].TLatchSignal? {
      SignalOwns(b, i, reception, ok, spurious);
    } else if b.tasks[i].TExit? || b.tasks[i].TGiveAck? {
      ExitOwns(b, i, reception, ok, spurious);
    } else {
      LoopOwns(b, i, reception, ok, spurious);
    }
  }

  lemma DelayOwns(b: Bus, i: nat)
    requires LatchesSound(b.tasks) && Manned(b) && Bounded(b) && i < |b.tasks|
    ensures TaskStepOwns(b, Delay(b, i))
  {
  }

  lemma FaultKeepsApp(app: App, v: View)
    requires AppOwned(app, v) && (v.control.state.Running? || v.control.state.Stopping?)
    ensures AppOwned(app, v.(control := v.control.(state := Faulted)))
  {
    if !InStart(app) && !app.XAcknowledge? {
      FaultKeepsOutside(app, v);
    }
  }

  lemma ExitKeepsApp(app: App, v: View)
    requires AppOwned(app, v)
    ensures AppOwned(app, v.(control := v.control.(taskOwned := false), quiet := true))
  {
    if !InStart(app) && !app.XAcknowledge? {
      ExitKeepsOutside(app, v);
    }
  }

  lemma TaskStepKeepsOwnership(b: Bus, t: Bus)
    requires OwnInv(b) && TaskStepOwns(b, t)
    ensures OwnInv(t)
  {
    hide AppOwned, Manned, LatchesSound;
    ExitKeepsApp(b.app, OwnView(b));
    if b.control.state.Running? || b.control.state.Stopping? {
      FaultKeepsApp(b.app, OwnView(b));
    }
  }

  // --- every run -----------------------------------------------------------------------------------------------

  /** What a consumer can do: take a token, pop a frame, answer. */
  ghost predicate ConsumerMove(b: Bus, t: Bus) {
    && t.control == b.control && t.driver == b.driver && t.app == b.app && t.tasks == b.tasks
    && t.history == b.history.(received := t.history.received)
    && t.shared == b.shared.(tokens := t.shared.tokens, depth := t.shared.depth)
    && t.shared.tokens <= b.shared.tokens && t.shared.depth <= b.shared.depth
  }

  lemma ConsumerMoves(b: Bus)
    ensures ConsumerMove(b, RunConsumer(b)) && ConsumerMove(b, Step(b, BeginReceive))
  {
  }

  lemma ConsumerMoveKeepsOwnership(b: Bus, t: Bus)
    requires OwnInv(b) && ConsumerMove(b, t)
    ensures OwnInv(t)
  {
    hide AppOwned;
    assert OwnView(t) == OwnView(b);
  }

  lemma ConsumerKeepsOwnership(b: Bus)
    requires OwnInv(b)
    ensures OwnInv(RunConsumer(b)) && OwnInv(Step(b, BeginReceive))
  {
    hide OwnInv, ConsumerMove, RunConsumer, Step;
    ConsumerMoves(b);
    ConsumerMoveKeepsOwnership(b, RunConsumer(b));
    ConsumerMoveKeepsOwnership(b, Step(b, BeginReceive));
  }

  lemma BeginStopKeepsOwnership(b: Bus)
    requires OwnInv(b) && b.app.AIdle?
    ensures OwnInv(Step(b, BeginStop))
  {
  }

  lemma BeginStartKeepsOwnership(b: Bus, valid: bool)
    requires OwnInv(b) && b.app.AIdle?
    ensures OwnInv(BeginStartStep(b, valid))
  {
  }

  lemma StepKeepsOwnership(b: Bus, a: Action)
    requires OwnInv(b)
    ensures OwnInv(Step(b, a))
  {
    hide OwnInv, TaskStepOwns, Delay, OneTaskStep, RunConsumer, BeginStartStep, BeginReceiveStep;
    hide StartStep, StopStep, ReconcileStep;
    match a {
      case AppStep(ok, spurious) => AppStepKeepsOwnership(b, ok, spurious);
      case TaskStep(i, reception, ok, spurious) =>
        if i < |b.tasks| { OneTaskKeepsOwnership(b, i, reception, ok, spurious); }
      case DelayedExit(i) => if i < |b.tasks| { DelayKeepsOwnership(b, i); }
      case ConsumerStep => ConsumerKeepsOwnership(b);
      case BeginReceive => ConsumerKeepsOwnership(b);
      case BeginStart(valid) => if b.app.AIdle? { BeginStartKeepsOwnership(b, valid); }
      case BeginStop => if b.app.AIdle? { BeginStopKeepsOwnership(b); }
    }
  }

  lemma OneTaskKeepsOwnership(b: Bus, i: nat, reception: Reception, ok: bool, spurious: bool)
    requires OwnInv(b) && i < |b.tasks|
    ensures OwnInv(OneTaskStep(b, i, reception, ok, spurious))
  {
    hide TaskStepOwns, AppOwned, Manned, LatchesSound, OneTaskStep;
    TaskOwns(b, i, reception, ok, spurious);
    TaskStepKeepsOwnership(b, OneTaskStep(b, i, reception, ok, spurious));
  }

  lemma DelayKeepsOwnership(b: Bus, i: nat)
    requires OwnInv(b) && i < |b.tasks|
    ensures OwnInv(Delay(b, i))
  {
    hide TaskStepOwns, AppOwned, Manned, LatchesSound, Delay;
    DelayOwns(b, i);
    TaskStepKeepsOwnership(b, Delay(b, i));
  }

  lemma InitialIsOwned()
    ensures OwnInv(Initial())
  {
  }

  /** The invariant of every run whatever, late acknowledgements included. */
  lemma {:induction false} RunKeepsOwnership(actions: seq<Action>)
    ensures OwnInv(Run(actions))
  {
    hide OwnInv, Step, Initial;
    if actions == [] {
      InitialIsOwned();
    } else {
      RunKeepsOwnership(actions[..|actions| - 1]);
      StepKeepsOwnership(Run(actions[..|actions| - 1]), actions[|actions| - 1]);
    }
  }
}
