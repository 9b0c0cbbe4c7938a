/** The vocabulary of the runtime and of the sources it drives. */
module Telemetry {
  datatype ResultCode =
    | Ok | InvalidConfiguration | InvalidState | AlreadyRunning | NotRunning | Stopping | Timeout | Faulted
    | CapacityExceeded

  datatype LifecycleState = Stopped | Running | Stopping | Faulted

  /** The result of a start() that finds the runtime in `state`. */
  function LifecycleResult(state: LifecycleState): ResultCode {
    match state
    case Stopped => ResultCode.Ok
    case Running => AlreadyRunning
    case Stopping => ResultCode.Stopping
    case Faulted => ResultCode.Faulted
  }

  /** A failed source start after which the source may hold part of its acquisition boundary. */
  predicate StartFailureMayOwnSource(status: ResultCode) {
    !status.AlreadyRunning? && !status.InvalidConfiguration?
  }
}
