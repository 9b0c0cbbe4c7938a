/**
 What the runtime remembers about its source, the two functions that decide whether a cleanup attempt calls the
 source and what its reply means, and the protocol that the calls of one owned start follow.
*/
module SourceLedger {
  import opened Telemetry

  datatype Ownership = NoOwnership | SuccessfulStart | PartialStart

  /** The source fields of the runtime; `attempts` is an eight-bit counter. */
  datatype Source = Source(
    started: bool,
    ownership: Ownership,
    stopCalled: bool,
    attempts: nat,
    stopResult: ResultCode,
    retrySupported: bool)

  datatype Call = Stop | RetryStop

  datatype Made = Made(call: Call, reply: ResultCode)

  /** The effect of a cleanup attempt: the new fields, the call it made if any, and its result. */
  datatype Attempt = Attempt(source: Source, made: seq<Made>, result: ResultCode)

  const IDLE_SOURCE := Source(false, NoOwnership, false, 0, ResultCode.Ok, false)

  function NextCall(f: Source): Call {
    if f.retrySupported && f.stopCalled then RetryStop else Stop
  }

  function Released(f: Source, retrySupported: bool): Source {
    Source(false, NoOwnership, false, f.attempts, ResultCode.Ok, retrySupported)
  }

  /** The source accepts the reply as the end of its cleanup. */
  predicate CleanedUp(retrySupported: bool, reply: ResultCode) {
    reply.Ok? || (retrySupported && reply.NotRunning?)
  }

  function AfterSourceStop(f: Source, reply: ResultCode): Attempt {
    var made := [Made(NextCall(f), reply)];
    if CleanedUp(f.retrySupported, reply) then Attempt(Released(f, false), made, ResultCode.Ok)
    else if !f.retrySupported then Attempt(Released(f, false), made, reply)
    else Attempt(f.(stopCalled := true, stopResult := reply), made, reply)
  }

  /** attempt_source_stop(); `reply` is what the source answers if it is called. */
  function AttemptSourceStop(f: Source, reply: ResultCode): Attempt {
    if !f.ownership.SuccessfulStart? || !f.started || (f.stopCalled && !f.retrySupported) then
      Attempt(f, [], f.stopResult)
    else
      AfterSourceStop(f, reply)
  }

  function AfterPartialCleanup(f: Source, reply: ResultCode): Attempt {
    var made := [Made(NextCall(f), reply)];
    if reply.Ok? || reply.NotRunning? then
      Attempt(Source(false, NoOwnership, false, (f.attempts + 1) % 256, ResultCode.Ok, false), made, ResultCode.Ok)
    else
      Attempt(f.(stopCalled := true, attempts := (f.attempts + 1) % 256, stopResult := reply), made, reply)
  }

  /** attempt_partial_start_cleanup(). */
  function AttemptPartialCleanup(f: Source, reply: ResultCode): Attempt {
    if !f.ownership.PartialStart? || !f.started then Attempt(f, [], ResultCode.Ok)
    else if f.attempts >= 2 && !f.retrySupported then Attempt(f, [], f.stopResult)
    else AfterPartialCleanup(f, reply)
  }

  /** The fields after a start that succeeded, or that failed in a way that may own part of the source. */
  function OwnSuccess(f: Source): Source {
    f.(started := true, ownership := SuccessfulStart, stopCalled := false, stopResult := ResultCode.Ok)
  }

  function OwnPartial(f: Source): Source {
    f.(started := true, ownership := PartialStart, attempts := 0)
  }

  /** The lifecycle that a finished cleanup attempt leads to. */
  function CleanupVerdict(result: ResultCode): LifecycleState {
    if result.Ok? then LifecycleState.Stopped else LifecycleState.Faulted
  }

  /** The result of stop() for the result of its source cleanup. */
  function StopResult(cleanup: ResultCode): ResultCode {
    if cleanup.Ok? then ResultCode.Ok
    else if cleanup.Timeout? || cleanup.Stopping? then ResultCode.Timeout
    else ResultCode.Faulted
  }

  // --- the protocol --------------------------------------------------------------------------------------------

  /** The calls made on behalf of one owned start; `partial` and `retry` say how it was owned. */
  datatype Ledger = Ledger(partial: bool, retry: bool, calls: seq<Made>)

  predicate Final(reply: ResultCode) {
    reply.Ok? || reply.NotRunning?
  }

  /**
   A source without retries gets stop() only, at most once after a successful start and at most twice after a
   partial one. A source with retries gets stop() once and then retry_stop(). Nobody is called again after
   having answered Ok or NotRunning.
  */
  ghost predicate Protocol(l: Ledger) {
    && (!l.retry ==> |l.calls| <= if l.partial then 2 else 1)
    && (forall i :: 0 <= i < |l.calls| ==> (l.calls[i].call.RetryStop? <==> l.retry && i > 0))
    && (forall i :: 0 <= i < |l.calls| - 1 ==> !Final(l.calls[i].reply))
  }

  /** How the fields reflect the calls made so far. */
  ghost predicate Reflects(f: Source, l: Ledger) {
    && f.attempts < 256
    && (f.stopCalled ==> l.calls != [] && f.stopResult == l.calls[|l.calls| - 1].reply)
    && (f.started <==> !f.ownership.NoOwnership?)
    && match f.ownership
       case NoOwnership => !f.stopCalled && f.stopResult.Ok?
       case SuccessfulStart =>
         && !l.partial && l.retry == f.retrySupported
         && (f.stopCalled <==> l.calls != [])
         && (!f.retrySupported ==> l.calls == [])
         && (forall i :: 0 <= i < |l.calls| ==> !Final(l.calls[i].reply))
       case PartialStart =>
         && l.partial && l.retry == f.retrySupported
         && (f.stopCalled <==> l.calls != [])
         && (!f.retrySupported ==> f.attempts == |l.calls|)
         && (!f.retrySupported && f.attempts >= 2 ==> !Final(f.stopResult))
         && (forall i :: 0 <= i < |l.calls| ==> !Final(l.calls[i].reply))
  }

  function Book(l: Ledger, a: Attempt): Ledger {
    l.(calls := l.calls + a.made)
  }

  /** What the first attempt after a start finds and leaves. */
  lemma FirstPartialCleanup(f: Source, reply: ResultCode)
    requires f.ownership.NoOwnership? && !f.stopCalled && f.stopResult.Ok? && f.attempts < 256
    ensures var own := OwnPartial(f);
            var l := Ledger(true, f.retrySupported, []);
            var a := AttemptPartialCleanup(own, reply);
            && Reflects(own, l) && Protocol(l)
            && a.made == [Made(Stop, reply)]
            && (a.result.Ok? <==> a.source.ownership.NoOwnership?)
            && !a.source.ownership.SuccessfulStart?
  {
  }

  lemma FirstSourceStop(f: Source, reply: ResultCode)
    requires f.ownership.NoOwnership? && !f.stopCalled && f.stopResult.Ok? && f.attempts < 256
    ensures var own := OwnSuccess(f);
            var l := Ledger(false, f.retrySupported, []);
            var a := AttemptSourceStop(own, reply);
            && Reflects(own, l) && Protocol(l)
            && a.made == [Made(Stop, reply)]
            && (a.result.Ok? ==> a.source.ownership.NoOwnership?)
            && !a.source.ownership.PartialStart?
  {
  }

  /** Any later attempt: a success releases everything, and neither kind of ownership turns into the other. */
  lemma AttemptsRelease(f: Source, l: Ledger, reply: ResultCode)
    requires Reflects(f, l)
    ensures var a := AttemptSourceStop(f, reply);
            !f.ownership.PartialStart? ==>
              !a.source.ownership.PartialStart? && (a.result.Ok? ==> a.source.ownership.NoOwnership?)
    ensures var a := AttemptPartialCleanup(f, reply);
            f.ownership.PartialStart? ==>
              !a.source.ownership.SuccessfulStart? && (a.result.Ok? <==> a.source.ownership.NoOwnership?)
  {
  }

  lemma StartedIsOwned(f: Source, l: Ledger)
    requires Reflects(f, l)
    ensures f.started <==> !f.ownership.NoOwnership?
  {
  }

  /**
   What an attempt after a successful start answers: the source's own reply if it was called, except that a source
   with retries that is not running counts as cleaned up. The ownership ends with a clean reply, and with any reply of
   a source without retries.
  */
  lemma SourceStopAnswers(f: Source, l: Ledger, reply: ResultCode)
    requires Reflects(f, l)
    ensures var a := AttemptSourceStop(f, reply);
            && (f.ownership.SuccessfulStart? ==>
                  && |a.made| == 1 && a.made[0].reply == reply
                  && a.result == (if reply.NotRunning? && f.retrySupported then ResultCode.Ok else reply)
                  && (a.source.ownership.NoOwnership? <==>
                        reply.Ok? || !f.retrySupported || reply.NotRunning?)
                  && (!a.source.ownership.NoOwnership? ==>
                        a.source == f.(stopCalled := true, stopResult := reply)))
            && (f.ownership.NoOwnership? ==> a.made == [] && a.result.Ok? && a.source == f)
  {
  }

  /**
   What an attempt after a partial start answers: the source's reply, in which NotRunning counts as Ok. A source without
   retries that has refused twice is not called any more and keeps its last answer.
  */
  lemma PartialCleanupAnswers(f: Source, l: Ledger, reply: ResultCode)
    requires Reflects(f, l) && f.ownership.PartialStart?
    ensures var a := AttemptPartialCleanup(f, reply);
            if !f.retrySupported && |l.calls| >= 2 then
              && a.made == [] && a.source == f
              && a.result == l.calls[|l.calls| - 1].reply && !a.result.Ok? && !a.result.NotRunning?
            else
              && |a.made| == 1 && a.made[0].reply == reply
              && a.result == (if reply.NotRunning? then ResultCode.Ok else reply)
              && (a.source.ownership.NoOwnership? <==> reply.Ok? || reply.NotRunning?)
              && (!a.source.ownership.NoOwnership? ==> a.source.stopResult == reply)
  {
  }

  lemma AttemptsAnswer(f: Source, l: Ledger, reply: ResultCode)
    requires Reflects(f, l)
    ensures var a := AttemptSourceStop(f, reply);
            && (f.ownership.SuccessfulStart? ==>
                  && a.result == (if reply.NotRunning? && f.retrySupported then ResultCode.Ok else reply)
                  && (a.source.ownership.NoOwnership? <==> reply.Ok? || !f.retrySupported || reply.NotRunning?))
            && (f.ownership.NoOwnership? ==> a.result.Ok?)
    ensures f.ownership.PartialStart? ==>
              var a := AttemptPartialCleanup(f, reply);
              && (a.source.ownership.NoOwnership? <==> a.result.Ok?)
              && (f.retrySupported || |l.calls| < 2 ==>
                    a.result == if reply.NotRunning? then ResultCode.Ok else reply)
  {
    SourceStopAnswers(f, l, reply);
    if f.ownership.PartialStart? {
      PartialCleanupAnswers(f, l, reply);
    }
  }

  lemma NothingOwned(f: Source, l: Ledger)
    requires Reflects(f, l) && f.ownership.NoOwnership?
    ensures !f.stopCalled && f.stopResult.Ok? && f.attempts < 256
  {
  }

  lemma SourceStopIsBooked(f: Source, l: Ledger, reply: ResultCode)
    requires Reflects(f, l) && Protocol(l)
    ensures var a := AttemptSourceStop(f, reply); Reflects(a.source, Book(l, a)) && Protocol(Book(l, a))
  {
  }

  lemma PartialCleanupIsBooked(f: Source, l: Ledger, reply: ResultCode)
    requires Reflects(f, l) && Protocol(l)
    ensures var a := AttemptPartialCleanup(f, reply); Reflects(a.source, Book(l, a)) && Protocol(Book(l, a))
  {
  }
}
