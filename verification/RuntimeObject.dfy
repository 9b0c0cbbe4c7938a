/**
 The runtime's object on a host, one lifecycle call at a time: the fields it keeps about its source, the calls it
 makes on it, and the state it is left in. RuntimeMachine.dfy interleaves the same calls.
*/
module RuntimeObject {
  import opened Telemetry
  import opened SourceLedger

  const MAXIMUM_WAIT_TICKS := 1000

  class Runtime {
    var lifecycle: LifecycleState
    var config: nat
    var stopRequested: bool
    /** The worker's thread object is joinable. */
    var worker: bool
    var sourceStarted: bool
    var sourceOwnership: Ownership
    var sourceStopCalled: bool
    var partialCleanupAttempts: nat
    var sourceStopResult: ResultCode
    var sourceStopRetrySupported: bool
    /** The calls made on behalf of the latest owned start. */
    ghost var ledger: Ledger

    ghost function Fields(): Source
      reads this
    {
      Source(sourceStarted, sourceOwnership, sourceStopCalled, partialCleanupAttempts, sourceStopResult,
             sourceStopRetrySupported)
    }

    /** The calls made so far follow the protocol, and the fields reflect them. */
    ghost predicate Booked()
      reads this
    {
      Reflects(Fields(), ledger) && Protocol(ledger)
    }

    ghost predicate Valid()
      reads this
    {
      && Booked()
      && (lifecycle.Stopped? ==> sourceOwnership.NoOwnership? && !worker)
      && (lifecycle.Running? ==> sourceOwnership.SuccessfulStart? && worker)
      && (sourceOwnership.PartialStart? ==> lifecycle.Faulted? && !worker)
    }

    constructor (config: nat)
      ensures Valid() && lifecycle.Stopped? && this.config == config
    {
      lifecycle, this.config, stopRequested, worker := LifecycleState.Stopped, config, false, false;
      sourceStarted, sourceOwnership, sourceStopCalled := false, NoOwnership, false;
      partialCleanupAttempts, sourceStopResult, sourceStopRetrySupported := 0, ResultCode.Ok, false;
      ledger := Ledger(false, false, []);
    }

    method Configure(valid: bool, newConfig: nat) returns (result: ResultCode)
      requires Valid()
      modifies this`config
      ensures Valid()
      ensures result == if !valid then InvalidConfiguration
                        else if lifecycle.Stopped? then ResultCode.Ok else InvalidState
      ensures config == if result.Ok? then newConfig else old(config)
    {
      if !valid {
        return InvalidConfiguration;
      }
      if !lifecycle.Stopped? {
        return InvalidState;
      }
      config := newConfig;
      return ResultCode.Ok;
    }

    /** Drop the ownership and the memory of its cleanup. */
    method ReleaseSource()
      modifies this`sourceStarted, this`sourceOwnership, this`sourceStopCalled, this`sourceStopResult
      ensures !sourceStarted && sourceOwnership.NoOwnership? && !sourceStopCalled && sourceStopResult.Ok?
    {
      sourceStarted := false;
      sourceOwnership := NoOwnership;
      sourceStopCalled := false;
      sourceStopResult := ResultCode.Ok;
    }

    /** `reply` is what the source answers if it is called. */
    method AttemptSourceStop(reply: ResultCode) returns (result: ResultCode)
      requires Booked()
      modifies this`sourceStarted, this`sourceOwnership, this`sourceStopCalled, this`sourceStopResult,
               this`sourceStopRetrySupported, this`ledger
      ensures Booked()
      ensures var a := SourceLedger.AttemptSourceStop(old(Fields()), reply);
              Fields() == a.source && result == a.result && ledger == Book(old(ledger), a)
      ensures old(sourceOwnership).SuccessfulStart? ==>
                result == if reply.NotRunning? && old(sourceStopRetrySupported) then ResultCode.Ok else reply
    {
      SourceStopAnswers(Fields(), ledger, reply);
      SourceStopIsBooked(Fields(), ledger, reply);
      ghost var before := Fields();
      ledger := Book(ledger, SourceLedger.AttemptSourceStop(before, reply));
      if !sourceOwnership.SuccessfulStart? || !sourceStarted {
        return sourceStopResult;
      }
      if sourceStopCalled {
        if !sourceStopRetrySupported {
          return sourceStopResult;
        }
      } else {
        sourceStopCalled := true;
      }
      sourceStopResult := reply;
      result := reply;
      if reply.Ok? || (sourceStopRetrySupported && reply.NotRunning?) {
        ReleaseSource();
        sourceStopRetrySupported := false;
        result := ResultCode.Ok;
      } else if !sourceStopRetrySupported {
        ReleaseSource();
      }
    }

    method AttemptPartialStartCleanup(reply: ResultCode) returns (result: ResultCode)
      requires Booked()
      modifies this`sourceStarted, this`sourceOwnership, this`sourceStopCalled, this`sourceStopResult,
               this`sourceStopRetrySupported, this`partialCleanupAttempts, this`ledger
      ensures Booked()
      ensures var a := AttemptPartialCleanup(old(Fields()), reply);
              Fields() == a.source && result == a.result && ledger == Book(old(ledger), a)
    {
      PartialCleanupIsBooked(Fields(), ledger, reply);
      ghost var before := Fields();
      ledger := Book(ledger, AttemptPartialCleanup(before, reply));
      if !sourceOwnership.PartialStart? || !sourceStarted {
        return ResultCode.Ok;
      }
      if partialCleanupAttempts >= 2 && !sourceStopRetrySupported {
        return sourceStopResult;
      }
      partialCleanupAttempts := (partialCleanupAttempts + 1) % 256;
      if !(sourceStopRetrySupported && sourceStopCalled) {
        sourceStopCalled := true;
      }
      sourceStopResult := reply;
      if reply.Ok? || reply.NotRunning? {
        ReleaseSource();
        sourceStopRetrySupported := false;
      }
      return sourceStopResult;
    }

    /** A start of the source that failed but may own part of it. */
    method OwnPartially(cleanupReply: ResultCode)
      requires Booked() && sourceOwnership.NoOwnership? && !worker
      modifies this
      ensures Valid() && !worker && (lifecycle.Stopped? || lifecycle.Faulted?)
      ensures config == old(config)
      ensures lifecycle.Stopped? <==> sourceOwnership.NoOwnership?
      ensures lifecycle.Stopped? <==> cleanupReply.Ok? || cleanupReply.NotRunning?
      ensures ledger == Ledger(true, old(sourceStopRetrySupported), [Made(Call.Stop, cleanupReply)])
    {
      hide Reflects, Protocol, SourceLedger.AttemptPartialCleanup;
      NothingOwned(Fields(), ledger);
      FirstPartialCleanup(Fields(), cleanupReply);
      AttemptsAnswer(OwnPartial(Fields()), Ledger(true, sourceStopRetrySupported, []), cleanupReply);
      sourceStarted := true;
      sourceOwnership := PartialStart;
      partialCleanupAttempts := 0;
      ledger := Ledger(true, sourceStopRetrySupported, []);
      var cleanup := AttemptPartialStartCleanup(cleanupReply);
      lifecycle := CleanupVerdict(cleanup);
    }

    /** A successful start of the source, and the creation of the worker. */
    method OwnFully(cleanupReply: ResultCode, created: bool) returns (result: ResultCode)
      requires Booked() && sourceOwnership.NoOwnership? && !worker
      modifies this
      ensures Valid() && worker == created && config == old(config)
      ensures result == if created then ResultCode.Ok else ResultCode.Faulted
      ensures if created then lifecycle.Running? && !stopRequested && sourceOwnership.SuccessfulStart?
              else lifecycle.Stopped? || lifecycle.Faulted?
      ensures !created ==>
                (lifecycle.Stopped? <==>
                   cleanupReply.Ok? || (cleanupReply.NotRunning? && old(sourceStopRetrySupported)))
      ensures ledger ==
                Ledger(false, old(sourceStopRetrySupported), if created then [] else [Made(Call.Stop, cleanupReply)])
    {
      hide Reflects, Protocol, SourceLedger.AttemptSourceStop;
      NothingOwned(Fields(), ledger);
      FirstSourceStop(Fields(), cleanupReply);
      AttemptsAnswer(OwnSuccess(Fields()), Ledger(false, sourceStopRetrySupported, []), cleanupReply);
      sourceStarted := true;
      sourceOwnership := SuccessfulStart;
      sourceStopCalled := false;
      sourceStopResult := ResultCode.Ok;
      ledger := Ledger(false, sourceStopRetrySupported, []);
      stopRequested := false;
      lifecycle := LifecycleState.Running;
      if !created {
        stopRequested := true;
        var cleanup := AttemptSourceStop(cleanupReply);
        lifecycle := CleanupVerdict(cleanup);
        return ResultCode.Faulted;
      }
      worker := true;
      return ResultCode.Ok;
    }

    /**
     `reply` is the answer of the source's start(), `cleanupReply` that of its stop() if one follows, and `created`
     whether the worker could be created.
    */
    method Start(valid: bool, reply: ResultCode, retry: bool, cleanupReply: ResultCode, created: bool)
      returns (result: ResultCode)
      requires Valid()
      modifies this
      ensures Valid() && config == old(config)
      ensures result ==
                if !valid then InvalidConfiguration
                else if old(lifecycle).Running? then AlreadyRunning
                else if old(lifecycle).Stopping? then ResultCode.Stopping
                else if old(lifecycle).Faulted? then ResultCode.Faulted
                else if !reply.Ok? then reply
                else if created then ResultCode.Ok else ResultCode.Faulted
      ensures !valid || !old(lifecycle).Stopped? ==>
                && lifecycle == old(lifecycle) && Fields() == old(Fields())
                && ledger == old(ledger) && worker == old(worker)
      ensures result.Ok? ==> lifecycle.Running? && worker && !stopRequested && ledger == Ledger(false, retry, [])
      ensures valid && old(lifecycle).Stopped? && !result.Ok? ==> !worker && (lifecycle.Stopped? || lifecycle.Faulted?)
      ensures valid && old(lifecycle).Stopped? && reply in {AlreadyRunning, InvalidConfiguration} ==>
                lifecycle.Stopped? && sourceOwnership.NoOwnership? && ledger == old(ledger)
      ensures valid && old(lifecycle).Stopped? && reply !in {ResultCode.Ok, AlreadyRunning, InvalidConfiguration} ==>
                && ledger == Ledger(true, retry, [Made(Call.Stop, cleanupReply)])
                && (lifecycle.Stopped? <==> cleanupReply.Ok? || cleanupReply.NotRunning?)
      ensures valid && old(lifecycle).Stopped? && reply.Ok? && !created ==>
                && ledger == Ledger(false, retry, [Made(Call.Stop, cleanupReply)])
                && (lifecycle.Stopped? <==> cleanupReply.Ok? || (cleanupReply.NotRunning? && retry))
    {
      if !valid {
        return InvalidConfiguration;
      }
      if !lifecycle.Stopped? {
        return LifecycleResult(lifecycle);
      }
      sourceStopRetrySupported := retry;
      if !reply.Ok? {
        if !StartFailureMayOwnSource(reply) {
          sourceStopRetrySupported := false;
          return reply;
        }
        OwnPartially(cleanupReply);
        return reply;
      }
      result := OwnFully(cleanupReply, created);
    }

    /** The worker meets a terminal outcome. */
    method WorkerFaults()
      requires Valid() && worker && lifecycle.Running?
      modifies this`lifecycle, this`stopRequested
      ensures Valid() && lifecycle.Faulted? && stopRequested
    {
      lifecycle := LifecycleState.Faulted;
      stopRequested := true;
    }

    /** stop() after a partial start, which has no worker. */
    method StopPartial(reply: ResultCode) returns (result: ResultCode)
      requires Valid() && sourceOwnership.PartialStart?
      modifies this`lifecycle, this`sourceStarted, this`sourceOwnership, this`sourceStopCalled, this`sourceStopResult,
               this`sourceStopRetrySupported, this`partialCleanupAttempts, this`ledger
      ensures Valid() && !worker
      ensures var a := AttemptPartialCleanup(old(Fields()), reply);
              && Fields() == a.source && ledger == Book(old(ledger), a) && result == StopResult(a.result)
              && (result.Ok? <==> a.result.Ok?)
      ensures lifecycle == if result.Ok? then LifecycleState.Stopped else LifecycleState.Faulted
      ensures old(sourceStopRetrySupported) || |old(ledger.calls)| < 2 ==>
                && (result.Ok? <==> reply.Ok? || reply.NotRunning?)
                && (result.Timeout? <==> reply.Timeout? || reply.Stopping?)
      ensures !result.Ok? && !result.Timeout? ==> result.Faulted?
    {
      hide Reflects, Protocol, AttemptPartialCleanup;
      AttemptsRelease(Fields(), ledger, reply);
      AttemptsAnswer(Fields(), ledger, reply);
      lifecycle := LifecycleState.Stopping;
      var cleanup := AttemptPartialStartCleanup(reply);
      lifecycle := CleanupVerdict(cleanup);
      return StopResult(cleanup);
    }

    /** The part of stop() up to the answer of the source, after a full start or for what is left of one. */
    method StopSource(reply: ResultCode) returns (cleanup: ResultCode)
      requires Valid() && !sourceOwnership.PartialStart? && !lifecycle.Stopped?
      modifies this`lifecycle, this`stopRequested, this`sourceStarted, this`sourceOwnership, this`sourceStopCalled,
               this`sourceStopResult, this`sourceStopRetrySupported, this`ledger
      ensures Valid() && lifecycle.Stopping? && stopRequested
      ensures var a := SourceLedger.AttemptSourceStop(old(Fields()), reply);
              Fields() == a.source && ledger == Book(old(ledger), a) && cleanup == a.result
      ensures cleanup.Ok? ==> sourceOwnership.NoOwnership?
      ensures if old(sourceOwnership).SuccessfulStart? then
                && cleanup == (if reply.NotRunning? && old(sourceStopRetrySupported) then ResultCode.Ok else reply)
                && (sourceOwnership.NoOwnership? <==> reply.Ok? || reply.NotRunning? || !old(sourceStopRetrySupported))
              else cleanup.Ok?
    {
      hide Reflects, Protocol, SourceLedger.AttemptSourceStop, SourceLedger.AttemptPartialCleanup;
      AttemptsRelease(Fields(), ledger, reply);
      AttemptsAnswer(Fields(), ledger, reply);
      lifecycle := LifecycleState.Stopping;
      stopRequested := true;
      cleanup := AttemptSourceStop(reply);
    }

    /** `reply` is the answer of the source's stop() or retry_stop() if it is called. */
    method Stop(reply: ResultCode) returns (result: ResultCode)
      requires Valid()
      modifies this
      ensures Valid() && config == old(config)
      ensures old(lifecycle).Stopped? ==> result.NotRunning? && lifecycle.Stopped? && ledger == old(ledger)
      ensures !old(lifecycle).Stopped? ==>
                var a := if old(sourceOwnership).PartialStart? then AttemptPartialCleanup(old(Fields()), reply)
                         else SourceLedger.AttemptSourceStop(old(Fields()), reply);
                && result == StopResult(a.result)
                && Fields() == a.source
                && ledger == Book(old(ledger), a)
                && (lifecycle.Stopped? <==> a.result.Ok?)
      ensures old(sourceOwnership).SuccessfulStart? ==>
                && (result.Ok? <==> reply.Ok? || (reply.NotRunning? && old(sourceStopRetrySupported)))
                && (result.Timeout? <==> reply.Timeout? || reply.Stopping?)
                && (lifecycle.Stopped? <==> result.Ok?) && (lifecycle.Stopping? <==> result.Timeout?)
                && (sourceOwnership.NoOwnership? <==>
                      reply.Ok? || reply.NotRunning? || !old(sourceStopRetrySupported))
      ensures old(sourceOwnership).NoOwnership? && !old(lifecycle).Stopped? ==> result.Ok?
      ensures old(sourceOwnership).PartialStart? && (old(sourceStopRetrySupported) || |old(ledger.calls)| < 2) ==>
                && (result.Ok? <==> reply.Ok? || reply.NotRunning?)
                && (result.Timeout? <==> reply.Timeout? || reply.Stopping?)
      ensures old(sourceOwnership).PartialStart? ==> lifecycle == if result.Ok? then Stopped else LifecycleState.Faulted
      ensures !result.Ok? && !result.Timeout? && !result.NotRunning? ==> result.Faulted?
      ensures !result.Timeout? ==> !worker
      ensures result.Ok? ==> lifecycle.Stopped?
    {
      hide Reflects, Protocol, SourceLedger.AttemptSourceStop, SourceLedger.AttemptPartialCleanup;
      StartedIsOwned(Fields(), ledger);
      if lifecycle.Stopped? && !sourceStarted {
        return NotRunning;
      }
      if sourceOwnership.PartialStart? {
        result := StopPartial(reply);
        return;
      }
      var cleanup := StopSource(reply);
      if cleanup.Timeout? || cleanup.Stopping? {
        return ResultCode.Timeout;
      }
      worker := false;
      lifecycle := CleanupVerdict(cleanup);
      return StopResult(cleanup);
    }

    /** The bounded poll for the end of the worker. */
    method AwaitWorker(endsAfter: nat) returns (waited: nat)
      ensures waited == if !worker then 0 else if endsAfter < 1000 then endsAfter else 1000
    {
      waited := 0;
      while worker && waited < endsAfter && waited < MAXIMUM_WAIT_TICKS
        invariant waited <= MAXIMUM_WAIT_TICKS && waited <= endsAfter
        invariant !worker ==> waited == 0
      {
        waited := waited + 1;
      }
    }

    /**
     stop() on an embedded target: it polls the worker for at most MAXIMUM_WAIT_TICKS ticks. `endsAfter` is the number
     of ticks after which the worker, told to stop, has ended. A partial start has no worker to wait for.
    */
    method StopEmbedded(reply: ResultCode, endsAfter: nat) returns (result: ResultCode, waited: nat)
      requires Valid()
      modifies this
      ensures Valid() && config == old(config)
      ensures old(lifecycle).Stopped? ==> result.NotRunning? && lifecycle.Stopped? && ledger == old(ledger)
      ensures !old(lifecycle).Stopped? ==>
                var a := if old(sourceOwnership).PartialStart? then AttemptPartialCleanup(old(Fields()), reply)
                         else SourceLedger.AttemptSourceStop(old(Fields()), reply);
                && Fields() == a.source
                && ledger == Book(old(ledger), a)
                && result == if old(worker) && endsAfter > MAXIMUM_WAIT_TICKS then ResultCode.Timeout
                             else StopResult(a.result)
      ensures old(sourceOwnership).SuccessfulStart? ==>
                var late := old(worker) && endsAfter > 1000;
                && (result.Ok? <==> !late && (reply.Ok? || (reply.NotRunning? && old(sourceStopRetrySupported))))
                && (result.Timeout? <==> late || reply.Timeout? || reply.Stopping?)
                && (lifecycle.Stopped? <==> result.Ok?) && (lifecycle.Stopping? <==> result.Timeout?)
                && (sourceOwnership.NoOwnership? <==>
                      reply.Ok? || reply.NotRunning? || !old(sourceStopRetrySupported))
      ensures old(sourceOwnership).NoOwnership? && !old(lifecycle).Stopped? ==>
                result == if old(worker) && endsAfter > 1000 then ResultCode.Timeout else ResultCode.Ok
      ensures old(sourceOwnership).PartialStart? && (old(sourceStopRetrySupported) || |old(ledger.calls)| < 2) ==>
                && (result.Ok? <==> reply.Ok? || reply.NotRunning?)
                && (result.Timeout? <==> reply.Timeout? || reply.Stopping?)
      ensures old(sourceOwnership).PartialStart? ==> lifecycle == if result.Ok? then Stopped else LifecycleState.Faulted
      ensures !result.Ok? && !result.Timeout? && !result.NotRunning? ==> result.Faulted?
      ensures waited <= MAXIMUM_WAIT_TICKS
      ensures !result.Timeout? ==> !worker
      ensures old(sourceOwnership).PartialStart? ==> waited == 0 && !worker && !lifecycle.Stopping?
      ensures result.Timeout? && !old(sourceOwnership).PartialStart? ==>
                lifecycle.Stopping? && stopRequested && worker == old(worker)
      ensures result.Ok? <==> !old(lifecycle).Stopped? && lifecycle.Stopped?
    {
      hide Reflects, Protocol, SourceLedger.AttemptSourceStop, SourceLedger.AttemptPartialCleanup;
      waited := 0;
      StartedIsOwned(Fields(), ledger);
      if lifecycle.Stopped? && !sourceStarted {
        return NotRunning, waited;
      }
      if sourceOwnership.PartialStart? {
        result := StopPartial(reply);
        return;
      }
      var cleanup := StopSource(reply);
      if cleanup.Timeout? || cleanup.Stopping? {
        return ResultCode.Timeout, waited;
      }
      waited := AwaitWorker(endsAfter);
      if worker && waited < endsAfter {
        return ResultCode.Timeout, waited;
      }
      worker := false;
      lifecycle := CleanupVerdict(cleanup);
      return StopResult(cleanup), waited;
    }

    /** The cleanup that matches the ownership, if there is any. */
    method CleanUp(reply: ResultCode)
      requires Booked()
      modifies this`sourceStarted, this`sourceOwnership, this`sourceStopCalled, this`sourceStopResult,
               this`sourceStopRetrySupported, this`partialCleanupAttempts, this`ledger
      ensures Booked() && old(ledger.calls) <= ledger.calls && |ledger.calls| <= |old(ledger.calls)| + 1
      ensures sourceOwnership.NoOwnership? || sourceStopCalled
      ensures old(sourceOwnership).NoOwnership? ==> ledger == old(ledger)
    {
      if sourceOwnership.SuccessfulStart? {
        var result := AttemptSourceStop(reply);
      } else if sourceOwnership.PartialStart? {
        var result := AttemptPartialStartCleanup(reply);
      }
    }

    /** The destructor: one attempt, the end of the worker, and one more attempt for a source that takes retries. */
    method Shutdown(reply: ResultCode, retryReply: ResultCode)
      requires Valid()
      modifies this
      ensures Booked() && !worker && stopRequested
      ensures sourceOwnership.NoOwnership? || sourceStopCalled
      ensures |ledger.calls| <= |old(ledger.calls)| + 2
    {
      stopRequested := true;
      CleanUp(reply);
      worker := false;
      if sourceStopRetrySupported && sourceStarted {
        CleanUp(retryReply);
      }
    }
  }
}
