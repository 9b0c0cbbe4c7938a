/**
 The invariant of the acquisition lifecycle. While a start is in progress nothing else is alive, so the whole bus
 is described position by position; outside a start only a small view of it matters to the application thread,
 and the receive task and the consumer are described separately.
*/
module BusSafety {
  import opened BusMachine

  /** A receive task that still owns the driver's receive side. */
  predicate Live(b: Bus) {
    b.tasks != [] && !b.tasks[0].TGiveAck?
  }

  // --- a start in progress -------------------------------------------------------------------------------------

  ghost predicate Owners(
      b: Bus, installed: bool, driverInstalled: bool, started: bool, driverStarted: bool, owned: bool)
  {
    && b.control.installed == installed && b.driver.installed == driverInstalled
    && b.control.started == started && b.driver.started == driverStarted
    && b.control.taskOwned == owned
  }

  /** No task but one that has its acknowledgement to give, no receive(), and no history of this run yet. */
  ghost predicate Alone(b: Bus) {
    && !Live(b) && b.consumer.CIdle?
    && !b.history.fault.latched && !b.history.fault.signalled && !b.history.fault.drained
    && !b.history.call.installedBefore
  }

  ghost predicate Untouched(b: Bus) {
    Alone(b) && b.control.state.Running? && Owners(b, false, false, false, false, false)
  }

  ghost predicate Building(
      b: Bus, installed: bool, driverInstalled: bool, started: bool, driverStarted: bool, owned: bool)
  {
    && Alone(b) && b.control.state.Running? && b.shared.semaphores && b.shared.tokens == 0
    && Owners(b, installed, driverInstalled, started, driverStarted, owned)
  }

  /** Undoing a start whose task could not be created. */
  ghost predicate Unwinding(b: Bus, installed: bool, driverInstalled: bool, started: bool, driverStarted: bool) {
    && Alone(b) && b.control.state.Stopping? && b.shared.semaphores && b.shared.tokens == 0
    && b.history.call.failed
    && Owners(b, installed, driverInstalled, started, driverStarted, false)
  }

  ghost predicate FailOk(b: Bus, p: Pending) {
    && p.FailStart? && p.result in {DriverFailure, TaskFailure} && p.cleanupRequired == b.control.installed
    && Alone(b) && b.shared.tokens == 0 && b.shared.semaphores && !b.control.taskOwned
    && b.history.call.failed
    && (b.control.state.Running? || b.control.state.Stopping?)
    && b.control.installed == b.driver.installed && b.control.started == b.driver.started
    && (b.control.started ==> b.control.installed)
  }

  ghost predicate StartOk(b: Bus) {
    match b.app
    case SCreateSemaphores => Untouched(b) && !b.history.call.failed
    case SAbort(result) =>
      && Untouched(b) && b.history.call.failed && result in {DriverFailure, TaskFailure} && b.shared.tokens == 0
    case SDrainTokens => Untouched(b) && !b.history.call.failed && b.shared.semaphores
    case SDrainAcks => Untouched(b) && !b.history.call.failed && b.shared.semaphores && b.shared.tokens == 0
    case SInstall => Building(b, false, false, false, false, false) && !b.history.call.failed
    case SMarkInstalled => Building(b, false, true, false, false, false) && !b.history.call.failed
    case SDriverStart => Building(b, true, true, false, false, false) && !b.history.call.failed
    case SUndoInstall => Building(b, true, true, false, false, false) && b.history.call.failed
    case SMarkUndone => Building(b, true, false, false, false, false) && b.history.call.failed
    case SMarkStarted => Building(b, true, true, false, true, false) && !b.history.call.failed
    case SClearRing => Building(b, true, true, true, true, false) && !b.history.call.failed
    case SRequest => Building(b, true, true, true, true, false) && !b.history.call.failed && b.shared.depth == 0
    case SOwnTask =>
      && Building(b, true, true, true, true, false) && !b.history.call.failed && b.shared.depth == 0
      && b.shared.receiveRequested
    case SCreateTask =>
      && Building(b, true, true, true, true, true) && !b.history.call.failed && b.shared.depth == 0
      && b.shared.receiveRequested
    case SUnrequest => Building(b, true, true, true, true, true) && b.history.call.failed
    case SDisownTask => Building(b, true, true, true, true, true) && b.history.call.failed
    case SBeginStop => Building(b, true, true, true, true, false) && b.history.call.failed
    case SDriverStop => Unwinding(b, true, true, true, true)
    case SMarkStopped => Unwinding(b, true, true, true, false)
    case SUninstall => Unwinding(b, true, true, false, false)
    case SMarkUninstalled => Unwinding(b, true, false, false, false)
    case RLoadOwned(p) => FailOk(b, p)
    case RLoadInstalled(p) => FailOk(b, p)
    case RStore(p, verdict) => FailOk(b, p) && verdict == if b.control.installed then Faulted else Stopped
    case _ => true
  }

  // --- outside a start -----------------------------------------------------------------------------------------

  /** All that the application thread relies on outside a start; `quiet` says that no receive task is alive. */
  datatype View = View(control: Controller, driver: Driver, quiet: bool, call: Call, drained: bool)

  function ViewOf(b: Bus): View {
    View(b.control, b.driver, !Live(b), b.history.call, b.history.fault.drained)
  }

  /** Flags and driver agree, and the state tells whether anything is owned. */
  ghost predicate Settled(v: View) {
    && v.control.installed == v.driver.installed
    && v.control.started == v.driver.started
    && (v.control.started ==> v.control.installed)
    && (!v.quiet ==> v.control.installed)
    && (v.control.state.Stopped? <==> !v.control.installed)
    && (v.control.state.Running? ==> v.control.started)
  }

  /** A stop in progress that has not uninstalled the driver; `halted` says whether the driver was stopped. */
  ghost predicate Halting(v: View, halted: bool) {
    && (v.control.state.Stopping? || v.control.state.Faulted?)
    && v.control.installed && v.driver.installed && v.call.installedBefore
    && v.control.started == v.driver.started == !halted
  }

  ghost predicate FinishOk(v: View, p: Pending) {
    && p.FinishStop?
    && (v.control.state.Stopping? || v.control.state.Faulted?) && v.call.installedBefore
    && v.control.installed == v.driver.installed == !p.driverUninstalled
    && v.control.started == v.driver.started == !p.driverStopped
    && (p.taskStopped ==> v.quiet)
    && (p.driverUninstalled ==> p.driverStopped && p.taskStopped)
    && (v.call.failed <==> !p.driverUninstalled)
  }

  /** What a finished lifecycle call reported, against what it left behind. */
  ghost predicate OutcomeOk(v: View, o: Outcome) {
    match o
    case NoOutcome => !v.driver.installed
    case StartRejected(result) =>
      && v.driver.installed == v.call.installedBefore
      && (|| result.InvalidConfiguration?
          || (v.call.installedBefore && result in {AlreadyStarted, StoppingNow, FaultedNow}))
    case StartDone(result, cleanupRequired) =>
      && !v.call.installedBefore
      && (cleanupRequired <==> v.driver.installed)
      && (result.Ok? <==> !v.call.failed)
      && (result.Ok? ==> cleanupRequired)
      && result in {Ok, DriverFailure, TaskFailure}
    case StopDone(result) =>
      && (result.NotStarted? <==> !v.call.installedBefore)
      && (v.driver.installed <==> v.call.installedBefore && !result.Ok?)
      && (v.call.failed <==> result in {DriverFailure, TaskFailure})
      && result in {Ok, NotStarted, DriverFailure, TaskFailure}
  }

  ghost predicate OutsideOk(app: App, v: View) {
    match app
    case AIdle => Settled(v) && OutcomeOk(v, v.call.outcome)
    case SRejected => Settled(v) && v.call.installedBefore && v.control.installed
    case XLoad => Settled(v) && !v.call.failed && v.call.installedBefore == v.control.installed
    case XExchange(seen) =>
      Settled(v) && !v.call.failed && v.call.installedBefore && v.control.installed && !seen.Stopped? && !seen.Stopping?
    case XUnrequest => Halting(v, !v.control.started) && !v.call.failed
    case XCheckStarted => Halting(v, !v.control.started) && !v.call.failed
    case XDriverStop => Halting(v, false) && !v.call.failed
    case XMarkStopped =>
      && (v.control.state.Stopping? || v.control.state.Faulted?) && v.control.installed && v.driver.installed
      && v.call.installedBefore
      && v.control.started && !v.driver.started && !v.call.failed
    case XCheckOwned(ds) => Halting(v, ds) && v.call.failed == !ds
    case XWaitAck(ds) => Halting(v, ds) && v.call.failed == !ds
    case XAcknowledge(ds) => Halting(v, ds) && v.call.failed == !ds && v.quiet
    case XPollAck(ds) => Halting(v, ds) && v.call.failed == !ds && v.quiet
    case XCheckInstalled(ds, ts) => Halting(v, ds) && (ts ==> v.quiet) && v.call.failed == !(ds && ts)
    case XUninstall => Halting(v, true) && v.quiet && !v.call.failed
    case XMarkUninstalled =>
      && (v.control.state.Stopping? || v.control.state.Faulted?) && v.control.installed && !v.driver.installed
      && v.call.installedBefore
      && !v.control.started && !v.driver.started && v.quiet && !v.call.failed
    case XDrainTokens => Settled(v) && v.control.state.Stopped? && v.call.installedBefore && v.drained && !v.call.failed
    case RLoadOwned(p) => FinishOk(v, p)
    case RLoadInstalled(p) => FinishOk(v, p) && v.quiet
    case RStore(p, verdict) =>
      && FinishOk(v, p)
      && (if verdict.Stopping? then v.control.installed
          else v.quiet && verdict == if v.control.installed then Faulted else Stopped)
    case _ => true
  }

  // --- receive task and tokens ---------------------------------------------------------------------------------

  ghost predicate PositionOk(t: Task, lifecycle: Lifecycle, requested: bool, latched: bool, signalled: bool) {
    && !lifecycle.Stopped?
    && (latched ==> t.TLatchSignal? || t.TExit?)
    && (signalled ==> t.TExit?)
    && (t.TLatchSignal? ==> latched)
    && (t.TLatchExchange? ==> !t.seen.Faulted? && !t.seen.Stopped?)
    && (lifecycle.Running? ==>
          !t.TExit? && !t.TLatchSignal? && (requested || t.TLatchLoad? || t.TLatchExchange?))
  }

  ghost predicate TaskOk(b: Bus) {
    && |b.tasks| <= 1
    && b.shared.acks <= 1
    && (b.tasks != [] ==> b.shared.acks == 0)
    && (Live(b) ==>
          && b.control.taskOwned && b.shared.semaphores && !InStart(b.app)
          && PositionOk(b.tasks[0], b.control.state, b.shared.receiveRequested, b.history.fault.latched,
                        b.history.fault.signalled))
    && (!InStart(b.app) && !Live(b) ==> !b.control.taskOwned && !b.control.state.Running?)
  }

  /** A frame that was pushed but whose token was not given yet. */
  function Unsignalled(b: Bus): nat {
    if b.tasks != [] && b.tasks[0].TSignal? then 1 else 0
  }

  /** A token that was taken but whose frame was not popped yet. */
  function Taken(b: Bus): nat {
    if b.consumer.CTook? || b.consumer.CPop? then 1 else 0
  }

  ghost predicate TokensOk(b: Bus) {
    && b.shared.tokens <= QUEUE_CAPACITY && b.shared.depth <= QUEUE_CAPACITY && !b.history.saturated
    && (!b.shared.semaphores ==> b.shared.tokens == 0)
    && (InStart(b.app) ==> b.consumer.CIdle?)
    && (!InStart(b.app) && !b.history.fault.signalled ==> b.shared.tokens + Unsignalled(b) + Taken(b) <= b.shared.depth)
    && (!InStart(b.app) && b.control.state.Running? ==> b.shared.tokens + Unsignalled(b) + Taken(b) == b.shared.depth)
    && (b.consumer.CPop? ==> b.shared.depth >= 1)
    && (b.history.fault.latched ==> !b.control.state.Running?)
    && (b.history.fault.signalled ==> b.history.fault.latched)
    && (b.history.fault.signalled && !b.history.fault.drained && b.consumer.CWait? ==> b.shared.tokens >= 1)
  }

  ghost predicate AppOk(b: Bus) {
    if InStart(b.app) then StartOk(b) else OutsideOk(b.app, ViewOf(b))
  }

  ghost predicate Inv(b: Bus) {
    AppOk(b) && TaskOk(b) && TokensOk(b) && b.history.violations == {}
  }

  lemma NobodyInLoop(b: Bus)
    requires |b.tasks| <= 1 && !Live(b)
    ensures !TaskInLoop(b)
  {
  }

  // --- the application thread ----------------------------------------------------------------------------------

  ghost predicate Preparing(app: App) {
    app.SCreateSemaphores? || app.SAbort? || app.SDrainTokens? || app.SDrainAcks?
  }

  lemma PreparingKeepsInv(b: Bus, ok: bool)
    requires Inv(b) && Preparing(b.app)
    ensures Inv(StartStep(b, ok))
  {
    hide TaskInLoop;
  }

  ghost predicate Installing(app: App) {
    app.SInstall? || app.SMarkInstalled? || app.SDriverStart?
  }

  lemma InstallingKeepsInv(b: Bus, ok: bool)
    requires Inv(b) && Installing(b.app)
    ensures Inv(StartStep(b, ok))
  {
    hide TaskInLoop;
  }

  lemma UndoingKeepsInv(b: Bus, ok: bool)
    requires Inv(b) && (b.app.SUndoInstall? || b.app.SMarkUndone?)
    ensures Inv(StartStep(b, ok))
  {
    hide TaskInLoop;
    NobodyInLoop(b);
  }

  ghost predicate Launching(app: App) {
    app.SMarkStarted? || app.SClearRing? || app.SRequest? || app.SOwnTask? || app.SCreateTask?
  }

  lemma CreatingKeepsInv(b: Bus, ok: bool)
    requires Inv(b) && b.app.SCreateTask? && !Breach(b, AppStep(ok, false))
    ensures Inv(StartStep(b, ok))
  {
    hide TaskInLoop;
    NobodyInLoop(b);
  }

  lemma LaunchingKeepsInv(b: Bus, ok: bool)
    requires Inv(b) && Launching(b.app) && !Breach(b, AppStep(ok, false))
    ensures Inv(StartStep(b, ok))
  {
    hide TaskInLoop, OutsideOk;
    if b.app.SCreateTask? {
      CreatingKeepsInv(b, ok);
    }
  }

  ghost predicate Disowning(app: App) {
    app.SUnrequest? || app.SDisownTask? || app.SBeginStop?
  }

  lemma DisowningKeepsInv(b: Bus, ok: bool)
    requires Inv(b) && Disowning(b.app)
    ensures Inv(StartStep(b, ok))
  {
    hide TaskInLoop, OutsideOk;
  }

  lemma HaltingKeepsInv(b: Bus, ok: bool)
    requires Inv(b) && (b.app.SDriverStop? || b.app.SMarkStopped?)
    ensures Inv(StartStep(b, ok))
  {
    hide TaskInLoop, OutsideOk;
  }

  lemma UninstallingKeepsInv(b: Bus, ok: bool)
    requires Inv(b) && (b.app.SUninstall? || b.app.SMarkUninstalled?)
    ensures Inv(StartStep(b, ok))
  {
    hide TaskInLoop, OutsideOk;
    NobodyInLoop(b);
  }

  lemma StartKeepsInv(b: Bus, ok: bool)
    requires Inv(b) && InStart(b.app) && !Reconciling(b.app) && !Breach(b, AppStep(ok, false))
    ensures Inv(StartStep(b, ok))
  {
    hide StartStep, Inv;
    if Preparing(b.app) {
      PreparingKeepsInv(b, ok);
    } else if Installing(b.app) {
      InstallingKeepsInv(b, ok);
    } else if b.app.SUndoInstall? || b.app.SMarkUndone? {
      UndoingKeepsInv(b, ok);
    } else if Launching(b.app) {
      LaunchingKeepsInv(b, ok);
    } else if Disowning(b.app) {
      DisowningKeepsInv(b, ok);
    } else if b.app.SDriverStop? || b.app.SMarkStopped? {
      HaltingKeepsInv(b, ok);
    } else {
      UninstallingKeepsInv(b, ok);
    }
  }

  /** Ownership flag, task and acknowledgement agree outside a start. */
  ghost predicate HandoffOk(b: Bus) {
    && |b.tasks| <= 1
    && (b.control.taskOwned <==> Live(b))
    && (Live(b) ==> b.shared.acks == 0)
    && b.shared.acks <= 1
  }

  ghost predicate Entering(app: App) {
    app.XLoad? || app.XExchange? || app.XUnrequest? || app.XCheckStarted? || app.XDriverStop? || app.XMarkStopped?
  }

  ghost predicate Leaving(app: App) {
    || app.XCheckOwned? || app.XWaitAck? || app.XAcknowledge? || app.XPollAck? || app.XCheckInstalled?
    || app.XUninstall? || app.XMarkUninstalled? || app.XDrainTokens?
  }

  lemma EnteringKeepsApp(b: Bus, ok: bool, spurious: bool)
    requires Entering(b.app) && OutsideOk(b.app, ViewOf(b))
    ensures var t := StopStep(b, ok, spurious);
            OutsideOk(t.app, ViewOf(t)) && t.history.violations == b.history.violations
  {
    hide TaskInLoop, StartOk;
  }

  lemma HandoffKeepsApp(b: Bus, ok: bool, spurious: bool)
    requires b.app.XCheckOwned? || b.app.XWaitAck? || b.app.XAcknowledge? || b.app.XPollAck?
    requires OutsideOk(b.app, ViewOf(b)) && HandoffOk(b)
    ensures var t := StopStep(b, ok, spurious);
            OutsideOk(t.app, ViewOf(t)) && t.history.violations == b.history.violations
  {
    hide TaskInLoop, StartOk;
  }

  lemma LeavingKeepsApp(b: Bus, ok: bool, spurious: bool)
    requires Leaving(b.app) && OutsideOk(b.app, ViewOf(b)) && HandoffOk(b)
    ensures var t := StopStep(b, ok, spurious);
            OutsideOk(t.app, ViewOf(t)) && t.history.violations == b.history.violations
  {
    if b.app.XUninstall? {
      NobodyInLoop(b);
    }
    if b.app.XCheckOwned? || b.app.XWaitAck? || b.app.XAcknowledge? || b.app.XPollAck? {
      HandoffKeepsApp(b, ok, spurious);
    }
  }

  /** What any step of the application thread outside a start can do to the task and the tokens. */
  ghost predicate Mild(b: Bus, t: Bus) {
    && !InStart(b.app) && !InStart(t.app)
    && t.tasks == b.tasks && t.consumer == b.consumer
    && t.shared == b.shared.(receiveRequested := t.shared.receiveRequested, tokens := t.shared.tokens,
                             acks := t.shared.acks)
    && t.history == b.history.(call := t.history.call, fault := t.history.fault)
    && t.history.fault == b.history.fault.(drained := t.history.fault.drained)
    && t.shared.tokens <= b.shared.tokens
    && t.shared.acks <= b.shared.acks
    && (t.control.taskOwned == b.control.taskOwned || (!Live(b) && !t.control.taskOwned))
    && (b.history.fault.drained ==> t.history.fault.drained)
    && (t.shared.tokens == b.shared.tokens || (b.history.fault.drained && !b.control.state.Running?))
    && (t.shared.receiveRequested == b.shared.receiveRequested || !b.control.state.Running?)
    && (t.control.state.Running? ==> b.control.state.Running?)
    && (t.control.state.Stopped? ==> b.control.state.Stopped? || !Live(b))
  }

  lemma MildKeepsTask(b: Bus, t: Bus)
    requires Mild(b, t) && TaskOk(b)
    ensures TaskOk(t)
  {
  }

  lemma MildKeepsTokens(b: Bus, t: Bus)
    requires Mild(b, t) && TokensOk(b)
    ensures TokensOk(t)
  {
  }

  lemma BeginStopIsMild(b: Bus, ok: bool, spurious: bool)
    requires (b.app.XLoad? || b.app.XExchange?) && OutsideOk(b.app, ViewOf(b))
    ensures Mild(b, StopStep(b, ok, spurious))
  {
    hide TaskInLoop, StartOk;
  }

  lemma EnteringIsMild(b: Bus, ok: bool, spurious: bool)
    requires Entering(b.app) && OutsideOk(b.app, ViewOf(b))
    ensures Mild(b, StopStep(b, ok, spurious))
  {
    if b.app.XLoad? || b.app.XExchange? {
      BeginStopIsMild(b, ok, spurious);
    }
  }

  lemma AwaitIsMild(b: Bus, ok: bool, spurious: bool)
    requires b.app.XWaitAck? && OutsideOk(b.app, ViewOf(b)) && HandoffOk(b)
    ensures Mild(b, StopStep(b, ok, spurious))
  {
    hide TaskInLoop, StartOk;
  }

  lemma HandoffIsMild(b: Bus, ok: bool, spurious: bool)
    requires b.app.XCheckOwned? || b.app.XWaitAck? || b.app.XAcknowledge? || b.app.XPollAck?
    requires OutsideOk(b.app, ViewOf(b)) && HandoffOk(b)
    ensures Mild(b, StopStep(b, ok, spurious))
  {
    if b.app.XWaitAck? {
      AwaitIsMild(b, ok, spurious);
    }
  }

  lemma LeavingIsMild(b: Bus, ok: bool, spurious: bool)
    requires Leaving(b.app) && OutsideOk(b.app, ViewOf(b)) && HandoffOk(b)
    ensures Mild(b, StopStep(b, ok, spurious))
  {
    if b.app.XUninstall? {
      NobodyInLoop(b);
    }
    if b.app.XCheckOwned? || b.app.XWaitAck? || b.app.XAcknowledge? || b.app.XPollAck? {
      HandoffIsMild(b, ok, spurious);
    }
  }

  lemma StopKeepsInv(b: Bus, ok: bool, spurious: bool)
    requires Inv(b) && !InStart(b.app) && !b.app.SRejected?
    requires !Reconciling(b.app)
    ensures Inv(StopStep(b, ok, spurious))
  {
    var t := StopStep(b, ok, spurious);
    if Entering(b.app) {
      EnteringKeepsApp(b, ok, spurious);
      EnteringIsMild(b, ok, spurious);
      MildKeepsTask(b, t);
      MildKeepsTokens(b, t);
    } else if Leaving(b.app) {
      LeavingKeepsApp(b, ok, spurious);
      LeavingIsMild(b, ok, spurious);
      MildKeepsTask(b, t);
      MildKeepsTokens(b, t);
    }
  }

  lemma FailingLoadKeepsInv(b: Bus)
    requires Inv(b) && InStart(b.app) && (b.app.RLoadOwned? || b.app.RLoadInstalled?)
    ensures Inv(ReconcileStep(b))
  {
    hide OutsideOk;
  }

  lemma FailingReconcileKeepsInv(b: Bus)
    requires Inv(b) && InStart(b.app) && Reconciling(b.app)
    ensures Inv(ReconcileStep(b))
  {
    if b.app.RLoadOwned? || b.app.RLoadInstalled? {
      FailingLoadKeepsInv(b);
    }
  }

  lemma StoppingReconcileKeepsApp(b: Bus)
    requires !InStart(b.app) && Reconciling(b.app) && OutsideOk(b.app, ViewOf(b)) && HandoffOk(b)
    ensures var t := ReconcileStep(b);
            OutsideOk(t.app, ViewOf(t)) && t.history.violations == b.history.violations
  {
  }

  lemma StoppingReconcileIsMild(b: Bus)
    requires !InStart(b.app) && Reconciling(b.app) && OutsideOk(b.app, ViewOf(b)) && HandoffOk(b)
    ensures Mild(b, ReconcileStep(b))
  {
  }

  lemma ReconcileKeepsInv(b: Bus)
    requires Inv(b) && Reconciling(b.app)
    ensures Inv(ReconcileStep(b))
  {
    if InStart(b.app) {
      FailingReconcileKeepsInv(b);
    } else {
      StoppingReconcileKeepsApp(b);
      StoppingReconcileIsMild(b);
      MildKeepsTask(b, ReconcileStep(b));
      MildKeepsTokens(b, ReconcileStep(b));
    }
  }

  // --- the receive task and the consumer -----------------------------------------------------------------------

  /** Latching a fault is harmless to the application thread wherever it is. */
  lemma FaultKeepsOutside(app: App, v: View)
    requires OutsideOk(app, v) && (v.control.state.Running? || v.control.state.Stopping?)
    ensures OutsideOk(app, v.(control := v.control.(state := Faulted)))
  {
  }

  /** So is the task's exit. */
  lemma ExitKeepsOutside(app: App, v: View)
    requires OutsideOk(app, v)
    ensures OutsideOk(app, v.(control := v.control.(taskOwned := false), quiet := true))
  {
  }

  lemma LatchingKeepsTask(b: Bus, reception: Reception, ok: bool, spurious: bool)
    requires TaskOk(b) && Live(b) && (b.tasks[0].TLatchLoad? || b.tasks[0].TLatchExchange?)
    ensures TaskOk(OneTaskStep(b, 0, reception, ok, spurious))
  {
  }

  lemma PushingKeepsTask(b: Bus, reception: Reception, ok: bool, spurious: bool)
    requires TaskOk(b) && Live(b) && (b.tasks[0].TReceive? || b.tasks[0].TSignal?)
    ensures TaskOk(OneTaskStep(b, 0, reception, ok, spurious))
  {
  }

  lemma TaskKeepsTask(b: Bus, reception: Reception, ok: bool, spurious: bool)
    requires TaskOk(b) && Live(b)
    ensures TaskOk(OneTaskStep(b, 0, reception, ok, spurious))
  {
    if b.tasks[0].TReceive? || b.tasks[0].TSignal? {
      PushingKeepsTask(b, reception, ok, spurious);
    } else if b.tasks[0].TLatchLoad? || b.tasks[0].TLatchExchange? {
      LatchingKeepsTask(b, reception, ok, spurious);
    }
  }

  lemma SignallingKeepsTokens(b: Bus, reception: Reception, ok: bool, spurious: bool)
    requires TaskOk(b) && TokensOk(b) && Live(b) && (b.tasks[0].TSignal? || b.tasks[0].TLatchSignal?)
    ensures TokensOk(OneTaskStep(b, 0, reception, ok, spurious))
  {
  }

  lemma ReceivingKeepsTokens(b: Bus, reception: Reception, ok: bool, spurious: bool)
    requires TaskOk(b) && TokensOk(b) && Live(b) && b.tasks[0].TReceive?
    ensures TokensOk(OneTaskStep(b, 0, reception, ok, spurious))
  {
  }

  lemma LatchingKeepsTokens(b: Bus, reception: Reception, ok: bool, spurious: bool)
    requires TaskOk(b) && TokensOk(b) && Live(b) && (b.tasks[0].TLatchLoad? || b.tasks[0].TLatchExchange?)
    ensures TokensOk(OneTaskStep(b, 0, reception, ok, spurious))
  {
  }

  lemma TaskKeepsTokens(b: Bus, reception: Reception, ok: bool, spurious: bool)
    requires TaskOk(b) && TokensOk(b) && Live(b)
    ensures TokensOk(OneTaskStep(b, 0, reception, ok, spurious))
  {
    if b.tasks[0].TLatchLoad? || b.tasks[0].TLatchExchange? {
      LatchingKeepsTokens(b, reception, ok, spurious);
    } else if b.tasks[0].TSignal? || b.tasks[0].TLatchSignal? {
      SignallingKeepsTokens(b, reception, ok, spurious);
    } else if b.tasks[0].TReceive? {
      ReceivingKeepsTokens(b, reception, ok, spurious);
    }
  }

  /** What the application thread can see of a step of the receive task: a latched fault, or the task's exit. */
  ghost predicate Shows(b: Bus, t: Bus) {
    && t.app == b.app && t.history.violations == b.history.violations
    && (|| ViewOf(t) == ViewOf(b)
        || (&& (b.control.state.Running? || b.control.state.Stopping?)
            && ViewOf(t) == ViewOf(b).(control := b.control.(state := Faulted)))
        || ViewOf(t) == ViewOf(b).(control := b.control.(taskOwned := false), quiet := true))
  }

  lemma LatchShows(b: Bus, reception: Reception, ok: bool, spurious: bool)
    requires TaskOk(b) && Live(b) && (b.tasks[0].TLatchLoad? || b.tasks[0].TLatchExchange?)
    ensures Shows(b, OneTaskStep(b, 0, reception, ok, spurious))
  {
  }

  lemma TaskShows(b: Bus, reception: Reception, ok: bool, spurious: bool)
    requires TaskOk(b) && Live(b)
    ensures Shows(b, OneTaskStep(b, 0, reception, ok, spurious))
  {
    if b.tasks[0].TLatchLoad? || b.tasks[0].TLatchExchange? {
      LatchShows(b, reception, ok, spurious);
    }
  }

  lemma LiveStepKeepsInv(b: Bus, reception: Reception, ok: bool, spurious: bool)
    requires Inv(b) && Live(b)
    ensures Inv(OneTaskStep(b, 0, reception, ok, spurious))
  {
    var t := OneTaskStep(b, 0, reception, ok, spurious);
    TaskKeepsTask(b, reception, ok, spurious);
    TaskKeepsTokens(b, reception, ok, spurious);
    TaskShows(b, reception, ok, spurious);
    ExitKeepsOutside(b.app, ViewOf(b));
    if b.control.state.Running? || b.control.state.Stopping? {
      FaultKeepsOutside(b.app, ViewOf(b));
    }
  }

  /** A start in progress does not look at the acknowledgement of an earlier task before it creates its own. */
  lemma LateGiveKeepsStart(b: Bus, t: Bus)
    requires StartOk(b) && !Live(b) && t == b.(tasks := [], shared := b.shared.(acks := 1))
    ensures StartOk(t)
  {
  }

  lemma LateGiveKeepsInv(b: Bus, reception: Reception, ok: bool, spurious: bool)
    requires Inv(b) && b.tasks != [] && b.tasks[0].TGiveAck?
    ensures Inv(OneTaskStep(b, 0, reception, ok, spurious))
  {
    var t := OneTaskStep(b, 0, reception, ok, spurious);
    assert t == b.(tasks := [], shared := b.shared.(acks := 1));
    if InStart(b.app) {
      LateGiveKeepsStart(b, t);
    }
    assert ViewOf(t) == ViewOf(b);
    assert TaskOk(t) && TokensOk(t);
  }

  lemma TaskStepKeepsInv(b: Bus, i: nat, reception: Reception, ok: bool, spurious: bool)
    requires Inv(b) && i < |b.tasks|
    ensures Inv(OneTaskStep(b, i, reception, ok, spurious))
  {
    if Live(b) {
      LiveStepKeepsInv(b, reception, ok, spurious);
    } else {
      LateGiveKeepsInv(b, reception, ok, spurious);
    }
  }

  /** A task that is delayed before its acknowledgement has given up everything else. */
  lemma DelayKeepsInv(b: Bus, i: nat)
    requires Inv(b) && i < |b.tasks| && b.tasks[i].TExit?
    ensures Inv(Delay(b, i))
  {
    var t := Delay(b, i);
    ExitKeepsOutside(b.app, ViewOf(b));
    assert ViewOf(t) == ViewOf(b).(control := b.control.(taskOwned := false), quiet := true);
    assert TaskOk(t) && TokensOk(t);
  }

  lemma ConsumerKeepsRest(b: Bus)
    requires TaskOk(b) && TokensOk(b)
    ensures TaskOk(RunConsumer(b)) && TokensOk(RunConsumer(b))
  {
  }

  lemma ConsumerIsInvisible(b: Bus)
    ensures var t := RunConsumer(b);
            && t.app == b.app && ViewOf(t) == ViewOf(b) && t.history.violations == b.history.violations
            && (b.consumer.CIdle? ==> t == b)
  {
  }

  lemma ConsumerStepKeepsInv(b: Bus)
    requires Inv(b)
    ensures Inv(RunConsumer(b))
  {
    ConsumerKeepsRest(b);
    ConsumerIsInvisible(b);
  }

  lemma ReceiveKeepsRest(b: Bus)
    requires TaskOk(b) && TokensOk(b)
    ensures var t := Step(b, BeginReceive);
            && TaskOk(t) && TokensOk(t)
            && t.app == b.app && ViewOf(t) == ViewOf(b) && t.history.violations == b.history.violations
            && (InStart(b.app) ==> t == b)
  {
  }

  lemma BeginStopKeepsInv(b: Bus)
    requires Inv(b) && b.app.AIdle?
    ensures Inv(Step(b, BeginStop))
  {
    var t := Step(b, BeginStop);
    assert OutsideOk(t.app, ViewOf(t));
    assert TaskOk(t) && TokensOk(t);
  }

  lemma BeginStartKeepsInv(b: Bus, valid: bool)
    requires Inv(b) && b.app.AIdle? && (b.control.state.Stopped? ==> b.consumer.CIdle?)
    ensures Inv(BeginStartStep(b, valid))
  {
  }

  lemma RejectionKeepsInv(b: Bus, ok: bool)
    requires Inv(b) && b.app.SRejected?
    ensures Inv(StartStep(b, ok))
  {
  }

  lemma AppStepKeepsInv(b: Bus, ok: bool, spurious: bool)
    requires Inv(b) && !Breach(b, AppStep(ok, spurious))
    ensures Inv(Step(b, AppStep(ok, spurious)))
  {
    hide StartStep, StopStep, ReconcileStep, Inv;
    if Reconciling(b.app) {
      ReconcileKeepsInv(b);
    } else if InStart(b.app) {
      StartKeepsInv(b, ok);
    } else if b.app.SRejected? {
      RejectionKeepsInv(b, ok);
    } else {
      StopKeepsInv(b, ok, spurious);
    }
  }

  lemma BeginReceiveKeepsInv(b: Bus)
    requires Inv(b)
    ensures Inv(Step(b, BeginReceive))
  {
    ReceiveKeepsRest(b);
  }

  lemma StepKeepsInv(b: Bus, a: Action)
    requires Inv(b) && !Breach(b, a)
    ensures Inv(Step(b, a))
  {
    hide Inv, Delay, Live, OneTaskStep, RunConsumer, BeginStartStep, BeginReceiveStep;
    hide StartStep, StopStep, ReconcileStep;
    match a {
      case AppStep(ok, spurious) => AppStepKeepsInv(b, ok, spurious);
      case TaskStep(i, reception, ok, spurious) =>
        if i < |b.tasks| { TaskStepKeepsInv(b, i, reception, ok, spurious); }
      case DelayedExit(i) => if i < |b.tasks| && b.tasks[i].TExit? { DelayKeepsInv(b, i); }
      case ConsumerStep => ConsumerStepKeepsInv(b);
      case BeginStart(valid) =>
        if b.app.AIdle? && (b.control.state.Stopped? ==> b.consumer.CIdle?) { BeginStartKeepsInv(b, valid); }
      case BeginStop => if b.app.AIdle? { BeginStopKeepsInv(b); }
      case BeginReceive => BeginReceiveKeepsInv(b);
    }
  }

  lemma PromptBefore(actions: seq<Action>, k: nat)
    requires Prompt(actions) && k <= |actions|
    ensures Prompt(actions[..k])
  {
    hide Run, Breach;
    forall j | 0 <= j < k ensures !Breach(Run(actions[..k][..j]), actions[..k][j]) {
      assert actions[..k][..j] == actions[..j];
    }
  }

  lemma InitialIsSafe()
    ensures Inv(Initial())
  {
  }

  lemma {:induction false} RunKeepsInv(actions: seq<Action>)
    requires Prompt(actions)
    ensures Inv(Run(actions))
  {
    hide Inv, Step, Initial, Breach;
    if actions == [] {
      InitialIsSafe();
    } else {
      var last := |actions| - 1;
      PromptBefore(actions, last);
      RunKeepsInv(actions[..last]);
      StepKeepsInv(Run(actions[..last]), actions[last]);
    }
  }
}
