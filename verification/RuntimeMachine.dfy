/**
 The runtime as a transition system: any number of threads inside configure(), start() and stop(), the worker
 they create, and finally the destructor. A critical section of the lifecycle mutex is one step; everything
 outside it is interleaved step by step. Source, processor and observer answer arbitrarily.

 Both backends are covered: a host worker is a thread that stays joinable after it ended and whose stop() waits
 for it; an embedded worker deletes itself and stop() may give up waiting.
*/
module RuntimeMachine {
  import opened Telemetry
  import opened SourceLedger

  datatype Worker =
    | NoWorker
    | Looping
    | Calling
    | Faulting
    | Requesting
    | Ending
    | Ended

  datatype Violation = StartWhileOwned | WorkerOverwritten | ConfiguredUnderWorker

  /**
   One thread outside the worker. St positions belong to start(), Sp positions to stop(), D positions to the
   destructor; the last two positions of start() and stop() are shared, `stopping` tells them apart.
  */
  datatype Thread =
    | TIdle
    | StPrepare
    | StCallSource
    | StCleanup(result: ResultCode)
    | StClearStop
    | StArmWorker
    | StPublish
    | StSpawn
    | StDisarm
    | StRequestStop
    | StStopSource
    | StPublishHandle
    | SpCleanup
    | SpRequestStop
    | SpStopSource
    | SpJoin(sourceResult: ResultCode)
    | StoreLifecycle(final: LifecycleState, result: ResultCode, stopping: bool)
    | LeaveGate(result: ResultCode, stopping: bool)
    | DRequestStop
    | DStop
    | DJoin
    | DRetry
    | DDone

  /** The fields behind the lifecycle mutex and the atomics the worker reads. */
  datatype Gate = Gate(lifecycle: LifecycleState, active: bool, config: nat, stopRequested: bool)

  /** `published` says that the creator has stored the worker's handle. */
  datatype Crew = Crew(worker: Worker, active: bool, published: bool)

  /**
   `holder` is the thread that last passed the gate, `ledger` the calls of the latest owned start, `destroyed`
   says that destruction has begun. `returned` is the result of the last call that returned, `said` lists what the
   source answered since the gate was last passed.
  */
  datatype History = History(
    holder: nat, ledger: Ledger, destroyed: bool, returned: ResultCode, said: seq<ResultCode>,
    violations: set<Violation>)

  datatype Runtime = Runtime(gate: Gate, source: Source, crew: Crew, threads: seq<Thread>, history: History)

  /**
   `reply` is the answer of the source if the step calls it, `retry` its answer to supports_stop_retry(), `ok`
   whether the worker could be created, and `fault` whether the worker's transaction ends in a fault. `patient`
   lets an embedded stop() give up waiting when it is false.
  */
  datatype Action =
    | Configure(thread: nat, config: nat, valid: bool)
    | BeginStart(thread: nat)
    | BeginStop(thread: nat)
    | Advance(thread: nat, reply: ResultCode, retry: bool, ok: bool, patient: bool)
    | Work(fault: bool)
    | Destroy(thread: nat)

  function Initial(threads: nat, config: nat): Runtime {
    Runtime(Gate(LifecycleState.Stopped, false, config, false), IDLE_SOURCE, Crew(NoWorker, false, false),
            seq(threads, i => TIdle),
            History(0, Ledger(false, false, []), false, ResultCode.Ok, [], {}))
  }

  function Log(r: Runtime, misuse: bool, v: Violation): Runtime {
    if misuse then r.(history := r.history.(violations := r.history.violations + {v})) else r
  }

  function Return(r: Runtime, result: ResultCode): Runtime {
    r.(history := r.history.(returned := result))
  }

  function WithLifecycle(r: Runtime, state: LifecycleState): Runtime {
    r.(gate := r.gate.(lifecycle := state))
  }

  function WithStop(r: Runtime, requested: bool): Runtime {
    r.(gate := r.gate.(stopRequested := requested))
  }

  function Replies(made: seq<Made>): seq<ResultCode> {
    seq(|made|, k requires 0 <= k < |made| => made[k].reply)
  }

  /** Install the outcome of a cleanup attempt and book its call. */
  function Settle(r: Runtime, a: Attempt): Runtime {
    r.(source := a.source,
       history := r.history.(ledger := Book(r.history.ledger, a), said := r.history.said + Replies(a.made)))
  }

  // --- the critical sections -----------------------------------------------------------------------------------

  /** The outcome of a critical section: the new runtime, and whether the thread passed the gate. */
  datatype Entry = Enter(runtime: Runtime, thread: Thread) | Refuse(runtime: Runtime)

  function TakeGate(r: Runtime, i: nat, state: LifecycleState): Runtime {
    r.(gate := r.gate.(active := true, lifecycle := state), history := r.history.(holder := i, said := []))
  }

  function EnterStart(r: Runtime, i: nat): Entry {
    if r.gate.active then Refuse(Return(r, ResultCode.Stopping))
    else if !r.gate.lifecycle.Stopped? then Refuse(Return(r, LifecycleResult(r.gate.lifecycle)))
    else Enter(TakeGate(r, i, LifecycleState.Stopped), StPrepare)
  }

  function EnterStop(r: Runtime, i: nat): Entry {
    if r.gate.active then Refuse(Return(r, ResultCode.Stopping))
    else if r.gate.lifecycle.Stopped? && !r.source.started then Refuse(Return(r, NotRunning))
    else if r.source.ownership.PartialStart? then Enter(TakeGate(r, i, LifecycleState.Stopping), SpCleanup)
    else Enter(TakeGate(r, i, LifecycleState.Stopping), SpRequestStop)
  }

  /**
   stop() from one of the worker's own callbacks, as thread i would make it: with the handle published it
   recognises its own thread before it looks at anything else.
  */
  function StopFromWorker(r: Runtime, i: nat): Entry {
    if r.crew.published then Refuse(Return(r, InvalidState)) else EnterStop(r, i)
  }

  function ConfigureStep(r: Runtime, config: nat, valid: bool): Runtime {
    if !valid then Return(r, InvalidConfiguration)
    else if r.gate.active || !r.gate.lifecycle.Stopped? then Return(r, InvalidState)
    else
      Return(Log(r, !r.crew.worker.NoWorker?, ConfiguredUnderWorker).(gate := r.gate.(config := config)), ResultCode.Ok)
  }

  // --- start() beyond the gate ---------------------------------------------------------------------------------

  /** The runtime after a step of one thread, and where that thread is then. */
  datatype Move = Move(runtime: Runtime, thread: Thread)

  function OwnStart(r: Runtime, partial: bool): Runtime {
    r.(source := if partial then OwnPartial(r.source) else OwnSuccess(r.source),
       history := r.history.(ledger := Ledger(partial, r.source.retrySupported, [])))
  }

  function CallSource(r: Runtime, reply: ResultCode): Move {
    var heard := r.(history := r.history.(said := r.history.said + [reply]));
    var logged := Log(heard, !r.source.ownership.NoOwnership?, StartWhileOwned);
    if reply.Ok? then Move(OwnStart(logged, false), StClearStop)
    else if StartFailureMayOwnSource(reply) then Move(OwnStart(logged, true), StCleanup(reply))
    else Move(logged.(source := r.source.(retrySupported := false)), LeaveGate(reply, false))
  }

  function CleanupPartial(r: Runtime, reply: ResultCode, result: ResultCode, stopping: bool): Move {
    var a := AttemptPartialCleanup(r.source, reply);
    Move(Settle(r, a), StoreLifecycle(CleanupVerdict(a.result), result, stopping))
  }

  function Spawn(r: Runtime, ok: bool): Move {
    if ok then
      Move(Log(r, !r.crew.worker.NoWorker?, WorkerOverwritten).(crew := Crew(Looping, r.crew.active, false)),
           StPublishHandle)
    else Move(r, StDisarm)
  }

  function StopAfterFailedSpawn(r: Runtime, reply: ResultCode): Move {
    var a := AttemptSourceStop(r.source, reply);
    Move(Settle(r, a), StoreLifecycle(CleanupVerdict(a.result), ResultCode.Faulted, false))
  }

  function StartStep(r: Runtime, t: Thread, reply: ResultCode, retry: bool, ok: bool): Move {
    match t
    case StPrepare => Move(r.(source := r.source.(retrySupported := retry)), StCallSource)
    case StCallSource => CallSource(r, reply)
    case StCleanup(result) => CleanupPartial(r, reply, result, false)
    case StClearStop => Move(WithStop(r, false), StArmWorker)
    case StArmWorker => Move(r.(crew := r.crew.(active := true)), StPublish)
    case StPublish => Move(WithLifecycle(r, LifecycleState.Running), StSpawn)
    case StSpawn => Spawn(r, ok)
    case StDisarm => Move(r.(crew := r.crew.(active := false)), StRequestStop)
    case StRequestStop => Move(WithStop(r, true), StStopSource)
    case StStopSource => StopAfterFailedSpawn(r, reply)
    case StPublishHandle => Move(r.(crew := r.crew.(published := true)), LeaveGate(ResultCode.Ok, false))
    case _ => Move(r, t)
  }

  // --- stop() beyond the gate ----------------------------------------------------------------------------------

  function CleanupForStop(r: Runtime, reply: ResultCode): Move {
    CleanupPartial(r, reply, StopResult(AttemptPartialCleanup(r.source, reply).result), true)
  }

  function StopSource(r: Runtime, reply: ResultCode): Move {
    var a := AttemptSourceStop(r.source, reply);
    Move(Settle(r, a), if a.result.Timeout? || a.result.Stopping? then LeaveGate(ResultCode.Timeout, true)
                       else SpJoin(a.result))
  }

  predicate WorkerGone(w: Worker) {
    w.NoWorker? || w.Ended?
  }

  function Join(r: Runtime, sourceResult: ResultCode, patient: bool): Move {
    var final := if sourceResult.Ok? then LifecycleState.Stopped else LifecycleState.Faulted;
    if WorkerGone(r.crew.worker) then
      Move(r.(crew := Crew(NoWorker, r.crew.active, false)), StoreLifecycle(final, StopResult(sourceResult), true))
    else if patient then Move(r, SpJoin(sourceResult))
    else Move(r, LeaveGate(ResultCode.Timeout, true))
  }

  function StopStep(r: Runtime, t: Thread, reply: ResultCode, patient: bool): Move {
    match t
    case SpCleanup => CleanupForStop(r, reply)
    case SpRequestStop => Move(WithStop(r, true), SpStopSource)
    case SpStopSource => StopSource(r, reply)
    case SpJoin(sourceResult) => Join(r, sourceResult, patient)
    case StoreLifecycle(final, result, stopping) => Move(WithLifecycle(r, final), LeaveGate(result, stopping))
    case LeaveGate(result, _) => Move(Return(r.(gate := r.gate.(active := false)), result), TIdle)
    case _ => Move(r, t)
  }

  // --- the destructor ------------------------------------------------------------------------------------------

  function DestroyChoice(f: Source, reply: ResultCode): Attempt {
    if f.ownership.PartialStart? then AttemptPartialCleanup(f, reply)
    else if f.ownership.SuccessfulStart? then AttemptSourceStop(f, reply)
    else Attempt(f, [], f.stopResult)
  }

  function DestroyAttempt(r: Runtime, reply: ResultCode): Runtime {
    Settle(r, DestroyChoice(r.source, reply))
  }

  function DestroyRetry(r: Runtime, reply: ResultCode): Runtime {
    if r.source.retrySupported && r.source.started then DestroyAttempt(r, reply) else r
  }

  function DestroyJoin(r: Runtime): Move {
    if WorkerGone(r.crew.worker) then Move(r.(crew := Crew(NoWorker, r.crew.active, false)), DRetry)
    else Move(r, DJoin)
  }

  function DestroyStep(r: Runtime, t: Thread, reply: ResultCode): Move {
    match t
    case DRequestStop => Move(WithStop(r, true), DStop)
    case DStop => Move(DestroyAttempt(r, reply), DJoin)
    case DJoin => DestroyJoin(r)
    case DRetry => Move(DestroyRetry(r, reply), DDone)
    case _ => Move(r, t)
  }

  // --- the worker ----------------------------------------------------------------------------------------------

  function WorkStep(r: Runtime, fault: bool): Runtime {
    match r.crew.worker
    case Looping => r.(crew := r.crew.(worker := if r.gate.stopRequested then Ending else Calling))
    case Calling => r.(crew := r.crew.(worker := if fault then Faulting else Looping))
    case Faulting => WithLifecycle(r, LifecycleState.Faulted).(crew := r.crew.(worker := Requesting))
    case Requesting => WithStop(r, true).(crew := r.crew.(worker := Looping))
    case Ending => r.(crew := r.crew.(worker := Ended, active := false))
    case _ => r
  }

  // --- everything together -------------------------------------------------------------------------------------

  predicate InStart(t: Thread) {
    match t
    case StPrepare => true
    case StCallSource => true
    case StCleanup(_) => true
    case StClearStop => true
    case StArmWorker => true
    case StPublish => true
    case StSpawn => true
    case StDisarm => true
    case StRequestStop => true
    case StStopSource => true
    case StPublishHandle => true
    case _ => false
  }

  predicate InDestroy(t: Thread) {
    t.DRequestStop? || t.DStop? || t.DJoin? || t.DRetry? || t.DDone?
  }

  function ThreadStep(r: Runtime, t: Thread, reply: ResultCode, retry: bool, ok: bool, patient: bool): Move {
    if InStart(t) then StartStep(r, t, reply, retry, ok)
    else if InDestroy(t) then DestroyStep(r, t, reply)
    else StopStep(r, t, reply, patient)
  }

  predicate CanBegin(r: Runtime, i: nat) {
    i < |r.threads| && r.threads[i].TIdle? && !r.history.destroyed
  }

  function Apply(r: Runtime, i: nat, e: Entry): Runtime
    requires i < |r.threads|
  {
    match e
    case Enter(r', t) => r'.(threads := r.threads[i := t])
    case Refuse(r') => r'
  }

  function Put(r: Runtime, i: nat, m: Move): Runtime
    requires i < |r.threads|
  {
    m.runtime.(threads := r.threads[i := m.thread])
  }

  /** C++ lifetime rules: destruction begins when no other thread is inside a call, and nothing begins after it. */
  predicate CanDestroy(r: Runtime, i: nat) {
    CanBegin(r, i) && forall j :: 0 <= j < |r.threads| ==> r.threads[j].TIdle?
  }

  function Step(r: Runtime, a: Action): Runtime {
    match a
    case Configure(i, config, valid) => if CanBegin(r, i) then ConfigureStep(r, config, valid) else r
    case BeginStart(i) => if CanBegin(r, i) then Apply(r, i, EnterStart(r, i)) else r
    case BeginStop(i) => if CanBegin(r, i) then Apply(r, i, EnterStop(r, i)) else r
    case Advance(i, reply, retry, ok, patient) =>
      if i < |r.threads| then Put(r, i, ThreadStep(r, r.threads[i], reply, retry, ok, patient)) else r
    case Work(fault) => WorkStep(r, fault)
    case Destroy(i) =>
      if CanDestroy(r, i) then
        r.(threads := r.threads[i := DRequestStop], history := r.history.(destroyed := true, holder := i))
      else r
  }

  function Run(threads: nat, config: nat, actions: seq<Action>): Runtime {
    if actions == [] then Initial(threads, config)
    else Step(Run(threads, config, actions[..|actions| - 1]), actions[|actions| - 1])
  }
}
