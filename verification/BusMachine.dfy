/**
 The acquisition lifecycle as a transition system: one application thread inside start() or stop(), the receive
 task, and one consumer inside receive(), interleaved at the granularity of their atomic accesses, driver calls
 and semaphore operations. The driver and the task creation may fail at every call.

 The frame ring is reduced to its depth (RingFifo.dfy justifies this). Misuse of the driver is not ruled out by
 the steps but logged in `violations`, so that its absence is a theorem. An action that its thread is not ready
 to take leaves the state alone.
*/
module BusMachine {

  const QUEUE_CAPACITY := 64

  datatype Lifecycle = Stopped | Running | Stopping | Faulted

  datatype Result =
    | Ok | InvalidConfiguration | AlreadyStarted | NotStarted | StoppingNow | FaultedNow
    | Timeout | DriverFailure | TaskFailure

  datatype Violation = DoubleInstall | DoubleStart | UninstallWhileStarted | UninstallUnderTask | SecondTask

  /** What the operation in progress goes on to do once ownership is reconciled. */
  datatype Pending =
    | FailStart(result: Result, cleanupRequired: bool)
    | FinishStop(driverStopped: bool, taskStopped: bool, driverUninstalled: bool)

  datatype Outcome =
    | NoOutcome
    | StartRejected(result: Result)
    | StartDone(result: Result, cleanupRequired: bool)
    | StopDone(result: Result)

  /** The application thread; S positions belong to start(), X positions to stop(), R positions to reconcile(). */
  datatype App =
    | AIdle
    | SRejected
    | SCreateSemaphores
    | SAbort(result: Result)
    | SDrainTokens
    | SDrainAcks
    | SInstall
    | SMarkInstalled
    | SDriverStart
    | SUndoInstall
    | SMarkUndone
    | SMarkStarted
    | SClearRing
    | SRequest
    | SOwnTask
    | SCreateTask
    | SUnrequest
    | SDisownTask
    | SBeginStop
    | SDriverStop
    | SMarkStopped
    | SUninstall
    | SMarkUninstalled
    | XLoad
    | XExchange(seen: Lifecycle)
    | XUnrequest
    | XCheckStarted
    | XDriverStop
    | XMarkStopped
    | XCheckOwned(driverStopped: bool)
    | XWaitAck(driverStopped: bool)
    | XAcknowledge(driverStopped: bool)
    | XPollAck(driverStopped: bool)
    | XCheckInstalled(driverStopped: bool, taskStopped: bool)
    | XUninstall
    | XMarkUninstalled
    | XDrainTokens
    | RLoadOwned(pending: Pending)
    | RLoadInstalled(pending: Pending)
    | RStore(pending: Pending, verdict: Lifecycle)

  datatype Task =
    | TLoop
    | TReceive
    | TSignal
    | TStatus
    | TAlerts
    | TLatchFlag
    | TLatchLoad
    | TLatchExchange(seen: Lifecycle)
    | TLatchSignal
    | TExit
    | TGiveAck

  datatype Consumer = CIdle | CWait | CTook | CTimedOut | CPop

  /** The fields of the lifecycle controller. */
  datatype Controller = Controller(state: Lifecycle, installed: bool, started: bool, taskOwned: bool)

  /** The driver itself, as opposed to what the controller believes about it. */
  datatype Driver = Driver(installed: bool, started: bool)

  /** What the threads share besides the controller; `depth` is the number of frames in the ring. */
  datatype Shared = Shared(receiveRequested: bool, semaphores: bool, tokens: nat, acks: nat, depth: nat)

  /**
   History of the lifecycle calls: how the last one ended, whether the driver was installed when the latest one
   began, whether a driver call, a creation or the wait for the task has failed since, and whether it was one of the
   latter two.
  */
  datatype Call = Call(outcome: Outcome, installedBefore: bool, failed: bool, taskSide: bool)

  /** History since the last start: a fault was latched, its wakeup was given, a stop began to drain the tokens. */
  datatype Fault = Fault(latched: bool, signalled: bool, drained: bool)

  /** `received` is the last answer of receive(); `saturated` says that a frame signal found the semaphore full. */
  datatype History = History(call: Call, fault: Fault, received: Result, saturated: bool, violations: set<Violation>)

  datatype Bus = Bus(
    control: Controller,
    driver: Driver,
    shared: Shared,
    app: App,
    tasks: seq<Task>,
    consumer: Consumer,
    history: History)

  /** What twai_receive() delivers. */
  datatype Reception = ValidFrame | InvalidFrame | Idle | Broken

  /** `ok` is the result of the driver or creation call made by the step, `spurious` a weak exchange failing. */
  datatype Action =
    | BeginStart(valid: bool)
    | BeginStop
    | BeginReceive
    | AppStep(ok: bool, spurious: bool)
    | TaskStep(task: nat, reception: Reception, ok: bool, spurious: bool)
    | DelayedExit(task: nat)
    | ConsumerStep

  /** A start() that was not rejected is in progress. */
  predicate InStart(app: App) {
    match app
    case AIdle => false
    case SRejected => false
    case XLoad => false
    case XExchange(_) => false
    case XUnrequest => false
    case XCheckStarted => false
    case XDriverStop => false
    case XMarkStopped => false
    case XCheckOwned(_) => false
    case XWaitAck(_) => false
    case XAcknowledge(_) => false
    case XPollAck(_) => false
    case XCheckInstalled(_, _) => false
    case XUninstall => false
    case XMarkUninstalled => false
    case XDrainTokens => false
    case RLoadOwned(p) => p.FailStart?
    case RLoadInstalled(p) => p.FailStart?
    case RStore(p, _) => p.FailStart?
    case _ => true
  }

  function Initial(): Bus {
    Bus(Controller(Stopped, false, false, false), Driver(false, false), Shared(false, false, 0, 0, 0),
        AIdle, [], CIdle,
        History(Call(NoOutcome, false, false, false), Fault(false, false, false), NotStarted, false, {}))
  }

  function Less(n: nat): nat {
    if n > 0 then n - 1 else 0
  }

  function Fail(b: Bus, failed: bool): Bus {
    b.(history := b.history.(call := b.history.call.(failed := b.history.call.failed || failed)))
  }

  /** A semaphore or the task could not be created, or the task did not acknowledge in time. */
  function FailTask(b: Bus, failed: bool): Bus {
    b.(history := b.history.(call := b.history.call.(failed := b.history.call.failed || failed,
                                                     taskSide := b.history.call.taskSide || failed)))
  }

  function Finish(b: Bus, outcome: Outcome): Bus {
    b.(app := AIdle, history := b.history.(call := b.history.call.(outcome := outcome)))
  }

  function Begin(b: Bus, app: App): Bus {
    b.(app := app,
       history := b.history.(call := Call(b.history.call.outcome, b.driver.installed, false, false)))
  }

  function Log(b: Bus, misuse: bool, v: Violation): Bus {
    if misuse then b.(history := b.history.(violations := b.history.violations + {v})) else b
  }

  function Rejection(l: Lifecycle): Result {
    match l
    case Running => AlreadyStarted
    case Stopping => StoppingNow
    case Faulted => FaultedNow
    case Stopped => NotStarted
  }

  predicate TaskInLoop(b: Bus) {
    exists i :: 0 <= i < |b.tasks| && !b.tasks[i].TExit? && !b.tasks[i].TGiveAck?
  }

  // --- start() -------------------------------------------------------------------------------------------------

  function CallInstall(b: Bus, ok: bool): Bus {
    Log(b, b.driver.installed, DoubleInstall).(
      driver := b.driver.(installed := b.driver.installed || ok),
      app := if ok then SMarkInstalled else SAbort(DriverFailure))
  }

  function CallStart(b: Bus, ok: bool): Bus {
    Log(b, b.driver.started, DoubleStart).(
      driver := b.driver.(started := b.driver.started || ok),
      app := if ok then SMarkStarted else SUndoInstall)
  }

  function CallUninstall(b: Bus, ok: bool, done: App, undone: App): Bus {
    Log(Log(b, b.driver.started, UninstallWhileStarted), TaskInLoop(b), UninstallUnderTask).(
      driver := b.driver.(installed := b.driver.installed && !ok),
      app := if ok then done else undone)
  }

  function CallStop(b: Bus, ok: bool, done: App, undone: App): Bus {
    b.(driver := b.driver.(started := b.driver.started && !ok), app := if ok then done else undone)
  }

  function MarkInstalled(b: Bus, installed: bool, next: App): Bus {
    b.(control := b.control.(installed := installed), app := next)
  }

  function MarkStarted(b: Bus, started: bool, next: App): Bus {
    b.(control := b.control.(started := started), app := next)
  }

  function OwnTask(b: Bus, owned: bool, next: App): Bus {
    b.(control := b.control.(taskOwned := owned), app := next)
  }

  function Request(b: Bus, requested: bool, next: App): Bus {
    b.(shared := b.shared.(receiveRequested := requested), app := next)
  }

  function AbortStart(b: Bus, result: Result): Bus {
    var kept := b.control.installed || b.control.taskOwned;
    Finish(b.(control := b.control.(state := if kept then b.control.state else Stopped)), StartDone(result, false))
  }

  function CreateSemaphores(b: Bus, ok: bool): Bus {
    var there := b.shared.semaphores || ok;
    FailTask(
      b.(shared := b.shared.(semaphores := there), app := if there then SDrainTokens else SAbort(TaskFailure)), !there)
  }

  /** One round of a drain loop over the counting semaphore; `next` is where the loop exits to. */
  function DrainToken(b: Bus, next: App): Bus {
    b.(shared := b.shared.(tokens := Less(b.shared.tokens)), app := if b.shared.tokens > 0 then b.app else next)
  }

  function DrainAck(b: Bus, next: App): Bus {
    b.(shared := b.shared.(acks := Less(b.shared.acks)), app := if b.shared.acks > 0 then b.app else next)
  }

  function CreateTask(b: Bus): Bus {
    Finish(Log(b, TaskInLoop(b), SecondTask).(tasks := b.tasks + [TLoop]), StartDone(Ok, true))
  }

  function StartStep(b: Bus, ok: bool): Bus {
    match b.app
    case SRejected => Finish(b, StartRejected(Rejection(b.control.state)))
    case SCreateSemaphores => CreateSemaphores(b, ok)
    case SAbort(result) => AbortStart(b, result)
    case SDrainTokens => DrainToken(b, SDrainAcks)
    case SDrainAcks => DrainAck(b, SInstall)
    case SInstall => Fail(CallInstall(b, ok), !ok)
    case SMarkInstalled => MarkInstalled(b, true, SDriverStart)
    case SDriverStart => Fail(CallStart(b, ok), !ok)
    case SUndoInstall => CallUninstall(b, ok, SMarkUndone, RLoadOwned(FailStart(DriverFailure, true)))
    case SMarkUndone => MarkInstalled(b, false, RLoadOwned(FailStart(DriverFailure, false)))
    case SMarkStarted => MarkStarted(b, true, SClearRing)
    case SClearRing => b.(shared := b.shared.(depth := 0), app := SRequest)
    case SRequest => Request(b, true, SOwnTask)
    case SOwnTask => OwnTask(b, true, SCreateTask)
    case SCreateTask => if ok then CreateTask(b) else FailTask(b.(app := SUnrequest), true)
    case SUnrequest => Request(b, false, SDisownTask)
    case SDisownTask => OwnTask(b, false, SBeginStop)
    case SBeginStop =>
      b.(control := b.control.(state := if b.control.state.Stopped? then Stopped else Stopping), app := SDriverStop)
    case SDriverStop => CallStop(b, ok, SMarkStopped, RLoadOwned(FailStart(TaskFailure, true)))
    case SMarkStopped => MarkStarted(b, false, SUninstall)
    case SUninstall => CallUninstall(b, ok, SMarkUninstalled, RLoadOwned(FailStart(TaskFailure, true)))
    case SMarkUninstalled => MarkInstalled(b, false, RLoadOwned(FailStart(TaskFailure, false)))
    case _ => b
  }

  // --- stop() --------------------------------------------------------------------------------------------------

  /** The loop body of begin_stop() after it has (re)loaded the state. */
  function StopLoaded(b: Bus): Bus {
    match b.control.state
    case Stopped => Finish(b, StopDone(NotStarted))
    case Stopping => b.(app := XUnrequest)
    case seen => b.(app := XExchange(seen))
  }

  function ExchangeStopping(b: Bus, seen: Lifecycle, spurious: bool): Bus {
    if b.control.state == seen && !spurious then b.(control := b.control.(state := Stopping), app := XUnrequest)
    else StopLoaded(b)
  }

  /** The bounded wait for the task's acknowledgement. */
  function AwaitAck(b: Bus, driverStopped: bool, timedOut: bool): Bus {
    FailTask(b.(shared := b.shared.(acks := Less(b.shared.acks)),
                app := if b.shared.acks > 0 then XAcknowledge(driverStopped)
                       else if timedOut then XCheckInstalled(driverStopped, false)
                       else b.app),
             b.shared.acks == 0 && timedOut)
  }

  function DrainOrReturn(b: Bus): Bus {
    if b.shared.tokens > 0 then DrainToken(b, AIdle) else Finish(b, StopDone(Ok))
  }

  function StopStep(b: Bus, ok: bool, spurious: bool): Bus {
    match b.app
    case XLoad => StopLoaded(b)
    case XExchange(seen) => ExchangeStopping(b, seen, spurious)
    case XUnrequest => Request(b, false, XCheckStarted)
    case XCheckStarted => b.(app := if b.control.started then XDriverStop else XCheckOwned(true))
    case XDriverStop => Fail(CallStop(b, ok, XMarkStopped, XCheckOwned(false)), !ok)
    case XMarkStopped => MarkStarted(b, false, XCheckOwned(true))
    case XCheckOwned(driverStopped) =>
      b.(app := if b.control.taskOwned then XWaitAck(driverStopped) else XPollAck(driverStopped))
    case XWaitAck(driverStopped) => AwaitAck(b, driverStopped, !ok)
    case XAcknowledge(driverStopped) => OwnTask(b, false, XCheckInstalled(driverStopped, true))
    case XPollAck(driverStopped) =>
      b.(shared := b.shared.(acks := Less(b.shared.acks)), app := XCheckInstalled(driverStopped, true))
    case XCheckInstalled(driverStopped, taskStopped) =>
      b.(app := if driverStopped && taskStopped && b.control.installed then XUninstall
                else RLoadOwned(FinishStop(driverStopped, taskStopped, !b.control.installed)))
    case XUninstall =>
      Fail(CallUninstall(b, ok, XMarkUninstalled, RLoadOwned(FinishStop(true, true, false))), !ok)
    case XMarkUninstalled => MarkInstalled(b, false, RLoadOwned(FinishStop(true, true, true)))
    case XDrainTokens => DrainOrReturn(b)
    case _ => b
  }

  // --- reconcile() ---------------------------------------------------------------------------------------------

  function BeginDrain(b: Bus): Bus {
    b.(app := XDrainTokens, history := b.history.(fault := b.history.fault.(drained := true)))
  }

  /** What start() or stop() does once the reconciled state is stored. */
  function Return(b: Bus, pending: Pending): Bus {
    match pending
    case FailStart(result, cleanupRequired) => Finish(b, StartDone(result, cleanupRequired))
    case FinishStop(driverStopped, taskStopped, driverUninstalled) =>
      if driverStopped && taskStopped && driverUninstalled then BeginDrain(b)
      else Finish(b, StopDone(if taskStopped then DriverFailure else TaskFailure))
  }

  function ReconcileStep(b: Bus): Bus {
    match b.app
    case RLoadOwned(p) => b.(app := if b.control.taskOwned then RStore(p, Stopping) else RLoadInstalled(p))
    case RLoadInstalled(p) => b.(app := RStore(p, if b.control.installed then Faulted else Stopped))
    case RStore(p, verdict) => Return(b.(control := b.control.(state := verdict)), p)
    case _ => b
  }

  // --- the receive task ----------------------------------------------------------------------------------------

  /** The bus after a step of the receive task, and where that task is then. */
  datatype Move = To(bus: Bus, task: Task) | Gone(bus: Bus)

  /** xSemaphoreGive on the counting semaphore: refused when it is full. */
  function Give(b: Bus): Bus {
    b.(shared := b.shared.(tokens := if b.shared.tokens < QUEUE_CAPACITY then b.shared.tokens + 1 else b.shared.tokens))
  }

  /** The loop body of latch_fault() after it has (re)loaded the state. */
  function LatchLoaded(b: Bus): Task {
    if b.control.state.Faulted? || b.control.state.Stopped? then TExit else TLatchExchange(b.control.state)
  }

  function ExchangeFaulted(b: Bus, seen: Lifecycle, spurious: bool): Move {
    if b.control.state == seen && !spurious then
      To(b.(control := b.control.(state := Faulted),
            history := b.history.(fault := b.history.fault.(latched := true))), TLatchSignal)
    else To(b, LatchLoaded(b))
  }

  /** A frame that finds the ring full is dropped. */
  function TaskPushes(b: Bus): Move {
    if b.shared.depth < QUEUE_CAPACITY then To(b.(shared := b.shared.(depth := b.shared.depth + 1)), TSignal)
    else To(b, TStatus)
  }

  /** The result of one twai_receive() call. */
  function TaskReceives(b: Bus, reception: Reception): Move {
    match reception
    case ValidFrame => TaskPushes(b)
    case Broken => To(b, TLatchFlag)
    case _ => To(b, TStatus)
  }

  function SignalFrame(b: Bus): Bus {
    var full := b.shared.tokens >= QUEUE_CAPACITY;
    Give(b.(history := b.history.(saturated := b.history.saturated || full)))
  }

  function SignalFault(b: Bus): Bus {
    var signalled := b.(history := b.history.(fault := b.history.fault.(signalled := true)));
    if b.shared.semaphores then Give(signalled) else signalled
  }

  /** acknowledge_task() and the give that follows it, in one go; DelayedExit pulls them apart. */
  function Acknowledge(b: Bus): Bus {
    b.(control := b.control.(taskOwned := false), shared := b.shared.(acks := 1))
  }

  function RunTask(b: Bus, task: Task, reception: Reception, ok: bool, spurious: bool): Move {
    match task
    case TLoop => To(b, if b.shared.receiveRequested then TReceive else TExit)
    case TReceive => TaskReceives(b, reception)
    case TSignal => To(SignalFrame(b), TStatus)
    case TStatus => To(b, if ok then TAlerts else TLatchFlag)
    case TAlerts => To(b, if ok then TLoop else TLatchFlag)
    case TLatchFlag => To(b.(shared := b.shared.(receiveRequested := false)), TLatchLoad)
    case TLatchLoad => To(b, LatchLoaded(b))
    case TLatchExchange(seen) => ExchangeFaulted(b, seen, spurious)
    case TLatchSignal => To(SignalFault(b), TExit)
    case TExit => Gone(Acknowledge(b))
    case TGiveAck => Gone(b.(shared := b.shared.(acks := 1)))
  }

  /** The task gave up its ownership flag and is delayed before it gives its acknowledgement. */
  function Delay(b: Bus, i: nat): Bus
    requires i < |b.tasks|
  {
    b.(control := b.control.(taskOwned := false), tasks := b.tasks[i := TGiveAck])
  }

  function OneTaskStep(b: Bus, i: nat, reception: Reception, ok: bool, spurious: bool): Bus
    requires i < |b.tasks|
  {
    match RunTask(b, b.tasks[i], reception, ok, spurious)
    case To(b', task) => b'.(tasks := b.tasks[i := task])
    case Gone(b') => b'.(tasks := b.tasks[..i] + b.tasks[i + 1..])
  }

  // --- the consumer --------------------------------------------------------------------------------------------

  function Answer(b: Bus, result: Result): Bus {
    b.(consumer := CIdle, history := b.history.(received := result))
  }

  /** The answer of receive() after a state check that did not see Running. */
  function Refusal(l: Lifecycle): Result {
    match l
    case Stopped => NotStarted
    case Stopping => StoppingNow
    case _ => FaultedNow
  }

  function ConsumerTakes(b: Bus): Bus {
    b.(shared := b.shared.(tokens := Less(b.shared.tokens)),
       consumer := if b.shared.tokens > 0 then CTook else CTimedOut)
  }

  function ConsumerPops(b: Bus): Bus {
    Answer(b.(shared := b.shared.(depth := Less(b.shared.depth))), if b.shared.depth > 0 then Ok else DriverFailure)
  }

  function RunConsumer(b: Bus): Bus {
    match b.consumer
    case CIdle => b
    case CWait => ConsumerTakes(b)
    case CTimedOut => Answer(b, if b.control.state.Running? then Timeout else Refusal(b.control.state))
    case CTook => if b.control.state.Running? then b.(consumer := CPop) else Answer(b, Refusal(b.control.state))
    case CPop => ConsumerPops(b)
  }

  // --- everything together -------------------------------------------------------------------------------------

  function EnterStart(b: Bus): Bus {
    Begin(b.(control := b.control.(state := Running), history := b.history.(fault := Fault(false, false, false))),
          SCreateSemaphores)
  }

  /** The application serializes its lifecycle calls and stops the consumer before a restart. */
  function BeginStartStep(b: Bus, valid: bool): Bus {
    if !valid then Finish(Begin(b, AIdle), StartRejected(InvalidConfiguration))
    else if b.control.state.Stopped? then EnterStart(b)
    else Begin(b, SRejected)
  }

  function BeginReceiveStep(b: Bus): Bus {
    if b.control.state.Running? then b.(consumer := CWait) else Answer(b, Refusal(b.control.state))
  }

  predicate Reconciling(app: App) {
    app.RLoadOwned? || app.RLoadInstalled? || app.RStore?
  }

  function Step(b: Bus, a: Action): Bus {
    match a
    case BeginStart(valid) =>
      if b.app.AIdle? && (b.control.state.Stopped? ==> b.consumer.CIdle?) then BeginStartStep(b, valid) else b
    case BeginStop => if b.app.AIdle? then Begin(b, XLoad) else b
    case BeginReceive => if b.consumer.CIdle? && !InStart(b.app) then BeginReceiveStep(b) else b
    case AppStep(ok, spurious) =>
      if Reconciling(b.app) then ReconcileStep(b)
      else if InStart(b.app) || b.app.SRejected? then StartStep(b, ok)
      else StopStep(b, ok, spurious)
    case TaskStep(i, reception, ok, spurious) =>
      if i < |b.tasks| then OneTaskStep(b, i, reception, ok, spurious) else b
    case DelayedExit(i) => if i < |b.tasks| && b.tasks[i].TExit? then Delay(b, i) else b
    case ConsumerStep => RunConsumer(b)
  }

  function Run(actions: seq<Action>): Bus {
    if actions == [] then Initial() else Step(Run(actions[..|actions| - 1]), actions[|actions| - 1])
  }

  predicate CreatesTask(b: Bus, a: Action) {
    a.AppStep? && a.ok && b.app.SCreateTask?
  }

  /** A receive task is created while the acknowledgement of an earlier one is still to be given or to be taken. */
  predicate Breach(b: Bus, a: Action) {
    && CreatesTask(b, a)
    && (b.shared.acks > 0 || exists i :: 0 <= i < |b.tasks| && b.tasks[i].TGiveAck?)
  }

  /** However long tasks are delayed, no task is created before the acknowledgement of its predecessor is settled. */
  ghost predicate Prompt(actions: seq<Action>) {
    forall k :: 0 <= k < |actions| ==> !Breach(Run(actions[..k]), actions[k])
  }
}
