/**
 What the calls of the runtime answer, over every interleaving: which calls are refused and why, and how the answer of
 start() and stop() follows from what the source said since the call passed the gate.
*/
module RuntimeAnswers {
  import opened Telemetry
  import opened SourceLedger
  import opened RuntimeMachine
  import opened RuntimeSafety

  /** The source has nothing left to clean up after this reply. */
  predicate Clean(l: Ledger, reply: ResultCode) {
    reply.Ok? || (reply.NotRunning? && (l.partial || l.retry))
  }

  /** stop() has heard this about the source, with the cleanup's own result `source`. */
  ghost predicate Heard(l: Ledger, said: seq<ResultCode>, source: ResultCode) {
    if said == [] then source.Ok?
    else |said| == 1 && source == if Clean(l, said[0]) then ResultCode.Ok else said[0]
  }

  /** The result of a stop() for what the source said, unless the wait for the worker was given up. */
  ghost predicate StopSays(r: Runtime, result: ResultCode) {
    var l, said := r.history.ledger, r.history.said;
    if said == [] then
      if r.source.ownership.PartialStart? then
        !l.retry && |l.calls| >= 2 && Told(l, l.calls[|l.calls| - 1].reply, result) && !result.Ok?
      else result.Ok?
    else |said| == 1 && Told(l, said[0], result)
  }

  ghost predicate Told(l: Ledger, reply: ResultCode, result: ResultCode) {
    result == if Clean(l, reply) then ResultCode.Ok
              else if reply.Timeout? || reply.Stopping? then ResultCode.Timeout
              else ResultCode.Faulted
  }

  /** The result of a start() for what the source said. */
  ghost predicate StartSays(r: Runtime, result: ResultCode) {
    var said := r.history.said;
    && said != []
    && if said[0].Ok? then (if |said| == 1 then result.Ok? else |said| == 2 && result.Faulted?)
       else result == said[0] && |said| == if said[0].AlreadyRunning? || said[0].InvalidConfiguration? then 1 else 2
  }

  /** A cleanup within start() left Stopped exactly after a clean reply. */
  ghost predicate StartStops(r: Runtime, state: LifecycleState) {
    |r.history.said| == 2 ==>
      state == if Clean(r.history.ledger, r.history.said[1]) then Stopped else LifecycleState.Faulted
  }

  ghost predicate Answering(r: Runtime, t: Thread) {
    var said := r.history.said;
    match t
    case StPrepare => said == [] && r.gate.lifecycle.Stopped?
    case StCallSource => said == [] && r.gate.lifecycle.Stopped?
    case StCleanup(result) =>
      said == [result] && !result.Ok? && !result.AlreadyRunning? && !result.InvalidConfiguration?
      && r.history.ledger.partial && r.history.ledger.calls == []
    case SpCleanup => said == []
    case SpRequestStop => said == []
    case SpStopSource => said == []
    case SpJoin(source) => Heard(r.history.ledger, said, source) && !source.Timeout? && !source.Stopping?
    case StoreLifecycle(final, result, stopping) =>
      if stopping then StopSays(r, result) && final == if result.Ok? then Stopped else LifecycleState.Faulted
      else StartSays(r, result) && StartStops(r, final) && |said| == 2
    case LeaveGate(result, stopping) =>
      if stopping then
        && (StopSays(r, result) || (result.Timeout? && Alive(r.crew.worker) && |said| <= 1))
        && (result.Ok? <==> r.gate.lifecycle.Stopped?)
      else
        && StartSays(r, result) && StartStops(r, r.gate.lifecycle)
        && (|said| == 1 && !said[0].Ok? ==> r.gate.lifecycle.Stopped?)
    case _ => InStart(t) ==> said == [ResultCode.Ok] && !r.history.ledger.partial
                             && (!t.StPublishHandle? ==> r.history.ledger.calls == [])
  }

  lemma StartAnswers(r: Runtime, t: Thread, reply: ResultCode, retry: bool, ok: bool)
    requires BodyAt(r, t) && InStart(t) && Answering(r, t)
    ensures var m := StartStep(r, t, reply, retry, ok); Answering(m.runtime, m.thread)
  {
    match t {
      case StCleanup(_) => PartialCleanupAnswers(r.source, r.history.ledger, reply);
      case StStopSource => SourceStopAnswers(r.source, r.history.ledger, reply);
      case _ =>
    }
  }

  lemma CleanupAnswers(r: Runtime, reply: ResultCode)
    requires BodyAt(r, SpCleanup) && Answering(r, SpCleanup)
    ensures var m := CleanupForStop(r, reply); Answering(m.runtime, m.thread)
  {
    PartialCleanupAnswers(r.source, r.history.ledger, reply);
  }

  lemma StopSourceAnswers(r: Runtime, reply: ResultCode)
    requires BodyAt(r, SpStopSource) && Answering(r, SpStopSource)
    ensures var m := StopSource(r, reply); Answering(m.runtime, m.thread)
  {
    SourceStopAnswers(r.source, r.history.ledger, reply);
  }

  lemma JoinAnswers(r: Runtime, t: Thread, patient: bool)
    requires t.SpJoin? && BodyAt(r, t) && Answering(r, t)
    ensures var m := Join(r, t.sourceResult, patient); Answering(m.runtime, m.thread)
  {
  }

  lemma StopAnswers(r: Runtime, t: Thread, reply: ResultCode, patient: bool)
    requires BodyAt(r, t) && !InStart(t) && !InDestroy(t) && Answering(r, t)
    ensures var m := StopStep(r, t, reply, patient); Answering(m.runtime, m.thread)
  {
    hide CleanupForStop, StopSource, Join;
    match t {
      case SpCleanup => CleanupAnswers(r, reply);
      case SpStopSource => StopSourceAnswers(r, reply);
      case SpJoin(_) => JoinAnswers(r, t, patient);
      case _ =>
    }
  }

  lemma WorkAnswers(r: Runtime, fault: bool, t: Thread)
    requires BodyAt(r, t) && Answering(r, t)
    ensures Answering(WorkStep(r, fault), t)
    ensures HolderThread(WorkStep(r, fault)) == HolderThread(r)
  {
  }

  lemma AdvanceAnswers(r: Runtime, i: nat, reply: ResultCode, retry: bool, ok: bool, patient: bool)
    requires Inv(r) && i < |r.threads| && Answering(r, HolderThread(r))
    ensures var t := Put(r, i, ThreadStep(r, r.threads[i], reply, retry, ok, patient)); Answering(t, HolderThread(t))
  {
    hide Answering, StartStep, StopStep, DestroyStep;
    var t := r.threads[i];
    if t.TIdle? {
      IdleStaysPut(r, i, reply, retry, ok, patient);
    } else {
      AdvanceKeepsGate(r, i, reply, retry, ok, patient);
      var m := ThreadStep(r, t, reply, retry, ok, patient);
      if InStart(t) {
        StartAnswers(r, t, reply, retry, ok);
      } else if InDestroy(t) {
        DestroyStepKeepsGate(r, t, reply);
        NothingToAnswer(m.runtime, m.thread);
      } else {
        StopAnswers(r, t, reply, patient);
      }
      SameAnswer(m.runtime, Put(r, i, m), m.thread);
    }
  }

  lemma NothingToAnswer(r: Runtime, t: Thread)
    requires InDestroy(t) || t.TIdle?
    ensures Answering(r, t)
  {
  }

  /** The answer of a call does not depend on where the other threads are. */
  lemma SameAnswer(r: Runtime, r': Runtime, t: Thread)
    requires Answering(r, t) && r' == r.(threads := r'.threads)
    ensures Answering(r', t)
  {
  }

  lemma EntryAnswers(r: Runtime, i: nat, e: Entry)
    requires Inv(r) && CanBegin(r, i) && (e == EnterStart(r, i) || e == EnterStop(r, i))
    requires Answering(r, HolderThread(r))
    ensures var t := Apply(r, i, e); Answering(t, HolderThread(t))
  {
    if e.Enter? {
      AllIdle(r);
    }
  }

  lemma ConfigureAnswers(r: Runtime, config: nat, valid: bool)
    requires Inv(r) && Answering(r, HolderThread(r))
    ensures var t := ConfigureStep(r, config, valid); Answering(t, HolderThread(t))
  {
  }

  lemma StepAnswers(r: Runtime, a: Action)
    requires Inv(r) && Answering(r, HolderThread(r))
    ensures var t := Step(r, a); Answering(t, HolderThread(t))
  {
    hide Answering, ThreadStep, WorkStep, EnterStart, EnterStop;
    match a {
      case Advance(i, reply, retry, ok, patient) =>
        if i < |r.threads| { AdvanceAnswers(r, i, reply, retry, ok, patient); }
      case Work(fault) => WorkAnswers(r, fault, HolderThread(r));
      case BeginStart(i) => if CanBegin(r, i) { EntryAnswers(r, i, EnterStart(r, i)); }
      case BeginStop(i) => if CanBegin(r, i) { EntryAnswers(r, i, EnterStop(r, i)); }
      case Destroy(i) => if CanDestroy(r, i) { NothingToAnswer(Step(r, a), DRequestStop); }
      case Configure(i, config, valid) => if CanBegin(r, i) { ConfigureAnswers(r, config, valid); }
    }
  }

  lemma {:induction false} RunAnswers(threads: nat, config: nat, actions: seq<Action>)
    ensures var r := Run(threads, config, actions); Answering(r, HolderThread(r))
  {
    hide Step, Answering;
    if actions == [] {
      NothingAsked(threads, config);
    } else {
      RunAnswers(threads, config, actions[..|actions| - 1]);
      RunKeepsInv(threads, config, actions[..|actions| - 1]);
      StepAnswers(Run(threads, config, actions[..|actions| - 1]), actions[|actions| - 1]);
    }
  }

  lemma NothingAsked(threads: nat, config: nat)
    ensures var r := Initial(threads, config); Answering(r, HolderThread(r))
  {
  }

  lemma AnswerAtGate(threads: nat, config: nat, actions: seq<Action>, i: nat)
    ensures var r := Run(threads, config, actions);
            i < |r.threads| && r.threads[i].LeaveGate? ==>
              Answering(r, r.threads[i]) && PositionOk(r.threads[i], r.gate.lifecycle, r.source, r.crew.worker)
  {
    hide Run, Answering, PositionOk;
    RunAnswers(threads, config, actions);
    RunKeepsInv(threads, config, actions);
    var r := Run(threads, config, actions);
    if i < |r.threads| && r.threads[i].LeaveGate? {
      assert HolderThread(r) == r.threads[i];
    }
  }

  // --- the results ---------------------------------------------------------------------------------------------

  /**
   In every interleaving a start() that is about to return answers what its source said: the source's own answer unless
   that is Ok; after Ok it is Ok, or Faulted if the worker could not be created. AlreadyRunning and
   InvalidConfiguration own nothing and leave Stopped without another call; any other failure is followed by one
   cleanup call, and the runtime is Stopped exactly if the reply to it was clean.
  */
  lemma StartAnswersItsSource(threads: nat, config: nat, actions: seq<Action>, i: nat)
    ensures var r := Run(threads, config, actions);
            var said, l, state := r.history.said, r.history.ledger, r.gate.lifecycle;
            i < |r.threads| && r.threads[i].LeaveGate? && !r.threads[i].stopping ==>
              var result := r.threads[i].result;
              && said != []
              && (!said[0].Ok? ==> result == said[0])
              && (said[0].Ok? ==> result == if |said| == 1 then ResultCode.Ok else ResultCode.Faulted)
              && (|said| == 1 <==> (said[0].Ok? && result.Ok?) || said[0] in {AlreadyRunning, InvalidConfiguration})
              && (|said| == 1 && !said[0].Ok? ==> state.Stopped?)
              && (|said| != 1 ==>
                    && |said| == 2
                    && state == if said[1].Ok? || (said[1].NotRunning? && (l.partial || l.retry))
                                then Stopped else LifecycleState.Faulted)
  {
    hide Run;
    AnswerAtGate(threads, config, actions, i);
  }

  /**
   In every interleaving a stop() that is about to return answers what its source said when it was called: Ok for a
   clean reply, Timeout for Timeout or Stopping, Faulted for any other. A source that is not called has nothing left to
   clean up, or it has refused a partial start's cleanup for good and its last reply counts. Only a stop() that gave up
   waiting for a living worker answers Timeout without being told so. Ok means Stopped, and nothing else does.
  */
  lemma StopAnswersItsSource(threads: nat, config: nat, actions: seq<Action>, i: nat)
    ensures var r := Run(threads, config, actions);
            var said, l := r.history.said, r.history.ledger;
            i < |r.threads| && r.threads[i].LeaveGate? && r.threads[i].stopping ==>
              var result := r.threads[i].result;
              var asked := said != [] || r.source.ownership.PartialStart?;
              && |said| <= 1 && (said == [] && asked ==> l.calls != [])
              && var reply := if said != [] then said[0]
                              else if asked then l.calls[|l.calls| - 1].reply else ResultCode.Ok;
              var clean := reply.Ok? || (reply.NotRunning? && (l.partial || l.retry));
              && (result.Ok? ==> clean)
              && (result.Timeout? ==> reply.Timeout? || reply.Stopping? || !r.crew.worker.NoWorker?)
              && (result.Faulted? ==> !clean && !reply.Timeout? && !reply.Stopping?)
              && (result.Ok? || result.Timeout? || result.Faulted?)
              && (result.Ok? <==> r.gate.lifecycle.Stopped?)
  {
    hide Run;
    AnswerAtGate(threads, config, actions, i);
  }

  /** A call that leaves the gate returns its result and lets the next one in. */
  lemma LeavingReturns(threads: nat, config: nat, actions: seq<Action>, i: nat, a: Action)
    ensures var r := Run(threads, config, actions);
            a.Advance? && a.thread == i < |r.threads| && r.threads[i].LeaveGate? ==>
              var t := Step(r, a);
              && t.history.returned == r.threads[i].result && t.threads == r.threads[i := TIdle] && !t.gate.active
              && t.gate.lifecycle == r.gate.lifecycle && t.source == r.source && t.crew == r.crew
  {
  }

  /**
   Whether a call passes the gate, and what a refused one answers: nobody passes while another lifecycle call is under
   way; start() passes only when Stopped and otherwise names the state; stop() passes from every other state;
   configure() takes a valid configuration when Stopped. A refused call changes nothing else.
  */
  lemma EntriesAnswer(threads: nat, config: nat, actions: seq<Action>, i: nat, c: nat, valid: bool)
    ensures var r := Run(threads, config, actions);
            var state, busy := r.gate.lifecycle, r.gate.active;
            CanBegin(r, i) ==>
              && var t := Step(r, BeginStart(i));
              && (if !busy && state.Stopped? then
                    t.gate.active && t.history.holder == i && t.history.said == [] && !t.threads[i].TIdle?
                  else
                    t == r.(history := r.history.(returned :=
                           if busy || state.Stopping? then ResultCode.Stopping
                           else if state.Running? then AlreadyRunning else ResultCode.Faulted)))
              && var t := Step(r, BeginStop(i));
              && (if !busy && !state.Stopped? then
                    && t.gate == r.gate.(active := true, lifecycle := LifecycleState.Stopping)
                    && t.history.holder == i && t.history.said == [] && !t.threads[i].TIdle?
                  else
                    t == r.(history := r.history.(returned := if busy then ResultCode.Stopping else NotRunning)))
              && var t := Step(r, Configure(i, c, valid));
              && t.gate == (if valid && !busy && state.Stopped? then r.gate.(config := c) else r.gate)
              && t.threads == r.threads && t.source == r.source && t.crew == r.crew
              && t.history.returned == if !valid then InvalidConfiguration
                                       else if busy || !state.Stopped? then InvalidState
                                       else ResultCode.Ok
  {
    RunKeepsInv(threads, config, actions);
    var r := Run(threads, config, actions);
    if CanBegin(r, i) && !r.gate.active {
      AllIdle(r);
    }
  }
}
