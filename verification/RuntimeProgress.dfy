/**
 How the calls of the runtime and its worker go on when nothing disturbs them, from every reachable state: start() to
 its return, the worker from a fault to its end, and the destructor to its end. RuntimeAnswers.dfy says what they
 answer.
*/
module RuntimeProgress {
  import opened Telemetry
  import opened SourceLedger
  import opened RuntimeMachine
  import opened RuntimeSafety

  function After(r: Runtime, actions: seq<Action>): Runtime
    decreases |actions|
  {
    if actions == [] then r else After(Step(r, actions[0]), actions[1..])
  }

  lemma {:induction false} AfterConcat(r: Runtime, a: seq<Action>, b: seq<Action>)
    ensures After(r, a + b) == After(After(r, a), b)
    decreases |a|
  {
    hide Step;
    if a == [] {
      assert a + b == b;
    } else {
      assert (a + b)[1..] == a[1..] + b;
      AfterConcat(Step(r, a[0]), a[1..], b);
    }
  }

  lemma AfterThree(r: Runtime, a: Action, b: Action, c: Action)
    ensures After(r, [a, b, c]) == Step(Step(Step(r, a), b), c)
  {
    hide Step;
    assert [a, b, c][1..] == [b, c] && [b, c][1..] == [c] && [c][1..] == [];
    assert After(Step(Step(r, a), b), [c]) == After(Step(Step(Step(r, a), b), c), []);
    assert After(Step(r, a), [b, c]) == After(Step(Step(r, a), b), [c]);
  }

  // --- start() -------------------------------------------------------------------------------------------------

  /** Thread i past the gate, at position t, of a runtime that has these parts. */
  ghost predicate Stands(r: Runtime, i: nat, t: Thread) {
    && i < |r.threads| && r.threads[i] == t && r.gate.active && r.history.holder == i && Inv(r)
  }

  lemma Onward(r: Runtime, i: nat, reply: ResultCode, retry: bool, ok: bool) returns (t: Runtime)
    requires i < |r.threads| && Inv(r)
    ensures t == Step(r, Advance(i, reply, retry, ok, true)) && Inv(t)
    ensures t == Put(r, i, ThreadStep(r, r.threads[i], reply, retry, ok, true))
  {
    hide Inv, ThreadStep;
    t := Step(r, Advance(i, reply, retry, ok, true));
    StepKeepsInv(r, Advance(i, reply, retry, ok, true));
  }

  /** start() up to the answer of the source. */
  lemma StartAsksSource(r: Runtime, i: nat, reply: ResultCode, retry: bool, ok: bool) returns (t: Runtime)
    requires Inv(r) && CanBegin(r, i) && !r.gate.active && r.gate.lifecycle.Stopped?
    ensures var a := Advance(i, reply, retry, ok, true); t == After(r, [BeginStart(i), a, a])
    ensures Inv(t) && i < |t.threads| && t.gate == r.gate.(active := true) && t.crew == r.crew
    ensures t.history.said == [reply] && (!t.threads[i].LeaveGate? ==> t.history.ledger.calls == [])
    ensures t.threads == r.threads[i := t.threads[i]]
    ensures t.threads[i] == if reply.Ok? then StClearStop
                            else if reply in {AlreadyRunning, InvalidConfiguration} then LeaveGate(reply, false)
                            else StCleanup(reply)
    ensures reply.Ok? ==> t.source.ownership.SuccessfulStart? && t.source.retrySupported == retry
    ensures reply in {AlreadyRunning, InvalidConfiguration} ==>
              t.source.ownership.NoOwnership? && !t.source.retrySupported
    ensures t.threads[i].StCleanup? ==> t.source.ownership.PartialStart? && t.source.retrySupported == retry
  {
    var a := Advance(i, reply, retry, ok, true);
    AllIdle(r);
    StepKeepsInv(r, BeginStart(i));
    var s := Step(r, BeginStart(i));
    assert s.threads[i] == StPrepare;
    var u := Onward(s, i, reply, retry, ok);
    assert u.threads[i] == StCallSource && u.source == s.source.(retrySupported := retry);
    t := Onward(u, i, reply, retry, ok);
    AfterThree(r, BeginStart(i), a, a);
  }

  /** The same step of thread i three times. */
  function Thrice(a: Action): seq<Action> {
    [a, a, a]
  }

  lemma OnwardThrice(r: Runtime, i: nat, reply: ResultCode, retry: bool, ok: bool)
    returns (s: Runtime, u: Runtime, t: Runtime)
    requires i < |r.threads| && Inv(r)
    ensures s == Put(r, i, ThreadStep(r, r.threads[i], reply, retry, ok, true)) && Inv(s) && |s.threads| == |r.threads|
    ensures u == Put(s, i, ThreadStep(s, s.threads[i], reply, retry, ok, true)) && Inv(u) && |u.threads| == |r.threads|
    ensures t == Put(u, i, ThreadStep(u, u.threads[i], reply, retry, ok, true)) && Inv(t) && |t.threads| == |r.threads|
    ensures t == After(r, Thrice(Advance(i, reply, retry, ok, true)))
  {
    hide Inv, ThreadStep, Step;
    s := Onward(r, i, reply, retry, ok);
    u := Onward(s, i, reply, retry, ok);
    t := Onward(u, i, reply, retry, ok);
    var a := Advance(i, reply, retry, ok, true);
    AfterThree(r, a, a, a);
  }

  /** With the source started: the worker's flags are armed and Running is published. */
  lemma StartArms(r: Runtime, i: nat, reply: ResultCode, retry: bool, ok: bool) returns (t: Runtime)
    requires Inv(r) && i < |r.threads| && r.threads[i].StClearStop?
    ensures t == After(r, Thrice(Advance(i, reply, retry, ok, true))) && Inv(t)
    ensures t == r.(threads := r.threads[i := StSpawn], crew := r.crew.(active := true),
                    gate := r.gate.(lifecycle := LifecycleState.Running, stopRequested := false))
  {
    hide Inv;
    var s, u;
    s, u, t := OnwardThrice(r, i, reply, retry, ok);
    assert s.threads[i] == StArmWorker && u.threads[i] == StPublish;
  }

  /** The worker is created and its handle published, and the call returns Ok. */
  lemma StartSpawns(r: Runtime, i: nat, reply: ResultCode, retry: bool) returns (t: Runtime)
    requires Inv(r) && i < |r.threads| && r.threads[i].StSpawn?
    ensures t == After(r, Thrice(Advance(i, reply, retry, true, true))) && Inv(t)
    ensures t.threads == r.threads[i := TIdle] && t.gate == r.gate.(active := false) && t.source == r.source
    ensures t.crew == Crew(Looping, r.crew.active, true) && t.history.returned.Ok? && t.history.said == r.history.said
  {
    hide Inv;
    var s, u;
    s, u, t := OnwardThrice(r, i, reply, retry, true);
    assert s.threads[i] == StPublishHandle && u.threads[i] == LeaveGate(ResultCode.Ok, false);
  }

  /** Without a worker the flags are taken back. */
  lemma StartDisarms(r: Runtime, i: nat, reply: ResultCode, retry: bool) returns (t: Runtime)
    requires Inv(r) && i < |r.threads| && r.threads[i].StSpawn?
    ensures t == After(r, Thrice(Advance(i, reply, retry, false, true))) && Inv(t)
    ensures t == r.(threads := r.threads[i := StStopSource], crew := r.crew.(active := false),
                    gate := r.gate.(stopRequested := true))
  {
    hide Inv;
    var s, u;
    s, u, t := OnwardThrice(r, i, reply, retry, false);
    assert s.threads[i] == StDisarm && u.threads[i] == StRequestStop;
  }

  /** The state that a start's cleanup leaves. */
  function CleanupLeaves(r: Runtime, t: Thread, reply: ResultCode): LifecycleState {
    if reply.Ok? || (reply.NotRunning? && (t.StCleanup? || r.source.retrySupported)) then LifecycleState.Stopped
    else LifecycleState.Faulted
  }

  lemma StartCallsCleanup(r: Runtime, t: Thread, reply: ResultCode, retry: bool, ok: bool)
    requires BodyAt(r, t) && (t.StCleanup? || t.StStopSource?) && r.history.ledger.calls == []
    ensures var m := StartStep(r, t, reply, retry, ok);
            && m.runtime.gate == r.gate && m.runtime.crew == r.crew && m.runtime.threads == r.threads
            && m.runtime.history.said == r.history.said + [reply]
            && m.thread == StoreLifecycle(CleanupLeaves(r, t, reply),
                                          if t.StCleanup? then t.result else ResultCode.Faulted, false)
  {
    var l := r.history.ledger;
    if t.StCleanup? {
      PartialCleanupAnswers(r.source, l, reply);
      assert Replies(AttemptPartialCleanup(r.source, reply).made) == [reply];
    } else {
      SourceStopAnswers(r.source, l, reply);
      assert Replies(AttemptSourceStop(r.source, reply).made) == [reply];
    }
  }

  /** The last two steps of every call. */
  lemma CallReturns(r: Runtime, t: Thread, reply: ResultCode, retry: bool, ok: bool)
    requires t.StoreLifecycle?
    ensures var m := ThreadStep(r, t, reply, retry, ok, true);
            && m.thread == LeaveGate(t.result, t.stopping)
            && m.runtime == r.(gate := r.gate.(lifecycle := t.final))
            && ThreadStep(m.runtime, m.thread, reply, retry, ok, true)
               == Move(m.runtime.(gate := m.runtime.gate.(active := false),
                                  history := r.history.(returned := t.result)), TIdle)
  {
  }

  /** The cleanup that ends a failed start: one call of the source, and the state that its reply leaves. */
  lemma StartCleansUp(r: Runtime, i: nat, reply: ResultCode, retry: bool, ok: bool) returns (t: Runtime)
    requires Inv(r) && i < |r.threads| && (r.threads[i].StCleanup? || r.threads[i].StStopSource?)
    requires r.history.ledger.calls == []
    ensures t == After(r, Thrice(Advance(i, reply, retry, ok, true))) && Inv(t)
    ensures t.threads == r.threads[i := TIdle] && t.crew == r.crew
    ensures t.gate == r.gate.(active := false, lifecycle := CleanupLeaves(r, r.threads[i], reply))
    ensures t.history.said == r.history.said + [reply]
    ensures t.history.returned == if r.threads[i].StCleanup? then r.threads[i].result else ResultCode.Faulted
  {
    assert HolderThread(r) == r.threads[i];
    StartCallsCleanup(r, r.threads[i], reply, retry, ok);
    hide Inv, StartStep, CleanupLeaves;
    var s, u;
    s, u, t := OnwardThrice(r, i, reply, retry, ok);
    CallReturns(s, s.threads[i], reply, retry, ok);
    CallReturns(s.(threads := u.threads), s.threads[i], reply, retry, ok);
  }

  lemma IdleThrice(r: Runtime, i: nat, reply: ResultCode, retry: bool, ok: bool)
    requires i < |r.threads| && r.threads[i].TIdle? && Inv(r)
    ensures After(r, Thrice(Advance(i, reply, retry, ok, true))) == r
  {
    hide Inv;
    var s, u, t := OnwardThrice(r, i, reply, retry, ok);
    IdleStaysPut(r, i, reply, retry, ok, true);
  }

  lemma RefusalReturns(r: Runtime, i: nat, reply: ResultCode, retry: bool, ok: bool) returns (t: Runtime)
    requires Inv(r) && i < |r.threads| && r.threads[i].LeaveGate?
    ensures t == After(r, Thrice(Advance(i, reply, retry, ok, true))) && Inv(t)
    ensures t == r.(threads := r.threads[i := TIdle], gate := r.gate.(active := false),
                    history := r.history.(returned := r.threads[i].result))
  {
    hide Inv;
    var s, u;
    s, u, t := OnwardThrice(r, i, reply, retry, ok);
    IdleStaysPut(s, i, reply, retry, ok, true);
  }

  /** One undisturbed start(): `reply` answers the source's start(), `cleanup` its stop() if one follows. */
  function WholeStart(i: nat, reply: ResultCode, cleanup: ResultCode, retry: bool, ok: bool): seq<Action> {
    var a, b := Advance(i, reply, retry, ok, true), Advance(i, cleanup, retry, ok, true);
    [BeginStart(i), a, a] + Thrice(b) + Thrice(b) + Thrice(b)
  }

  /** What that start leaves behind. */
  ghost predicate StartLeaves(r: Runtime, t: Runtime, reply: ResultCode, cleanup: ResultCode, retry: bool, ok: bool) {
    && t.threads == r.threads && !t.gate.active && t.gate.config == r.gate.config
    && (reply.Ok? && ok ==>
          && t.history.returned.Ok? && t.history.said == [reply]
          && t.gate.lifecycle.Running? && !t.gate.stopRequested && t.crew == Crew(Looping, true, true)
          && t.source.ownership.SuccessfulStart? && t.source.retrySupported == retry)
    && (reply.Ok? && !ok ==>
          && t.history.returned.Faulted? && t.history.said == [reply, cleanup]
          && t.gate.stopRequested && t.crew == r.crew.(active := false)
          && t.gate.lifecycle == if cleanup.Ok? || (cleanup.NotRunning? && retry) then LifecycleState.Stopped
                                 else LifecycleState.Faulted)
    && (reply in {AlreadyRunning, InvalidConfiguration} ==>
          && t.history.returned == reply && t.history.said == [reply]
          && t.gate == r.gate && t.crew == r.crew && t.source.ownership.NoOwnership?)
    && (reply !in {ResultCode.Ok, AlreadyRunning, InvalidConfiguration} ==>
          && t.history.returned == reply && t.history.said == [reply, cleanup] && t.crew == r.crew
          && t.gate.lifecycle == if cleanup.Ok? || cleanup.NotRunning? then LifecycleState.Stopped
                                 else LifecycleState.Faulted)
  }

  lemma StartReturnsFrom(r: Runtime, i: nat, reply: ResultCode, cleanup: ResultCode, retry: bool, ok: bool)
    requires Inv(r) && CanBegin(r, i) && !r.gate.active && r.gate.lifecycle.Stopped?
    ensures StartLeaves(r, After(r, WholeStart(i, reply, cleanup, retry, ok)), reply, cleanup, retry, ok)
  {
    hide Inv, Step, After;
    var a, b := Advance(i, reply, retry, ok, true), Advance(i, cleanup, retry, ok, true);
    AfterConcat(r, [BeginStart(i), a, a] + Thrice(b) + Thrice(b), Thrice(b));
    AfterConcat(r, [BeginStart(i), a, a] + Thrice(b), Thrice(b));
    AfterConcat(r, [BeginStart(i), a, a], Thrice(b));
    var asked := StartAsksSource(r, i, reply, retry, ok);
    assert r.threads[i := TIdle] == r.threads;
    if reply.Ok? {
      var armed := StartArms(asked, i, cleanup, retry, ok);
      if ok {
        var spawned := StartSpawns(armed, i, cleanup, retry);
        IdleThrice(spawned, i, cleanup, retry, ok);
      } else {
        var disarmed := StartDisarms(armed, i, cleanup, retry);
        var cleaned := StartCleansUp(disarmed, i, cleanup, retry, ok);
      }
    } else {
      var returned;
      if asked.threads[i].StCleanup? {
        returned := StartCleansUp(asked, i, cleanup, retry, ok);
      } else {
        returned := RefusalReturns(asked, i, cleanup, retry, ok);
      }
      IdleThrice(returned, i, cleanup, retry, ok);
    }
  }

  /**
   From every reachable Stopped state at rest a start() that nothing disturbs returns: Ok with a worker at the head of
   its loop and no stop requested; Faulted without one if it could not be created; otherwise the answer of the source.
   Each failure that may own the source is cleaned up by one call, whose reply decides between Stopped and Faulted.
  */
  lemma UndisturbedStartReturns(threads: nat, config: nat, actions: seq<Action>, i: nat, reply: ResultCode,
                                cleanup: ResultCode, retry: bool, ok: bool)
    ensures var r := Run(threads, config, actions);
            CanBegin(r, i) && !r.gate.active && r.gate.lifecycle.Stopped? ==>
              StartLeaves(r, After(r, WholeStart(i, reply, cleanup, retry, ok)), reply, cleanup, retry, ok)
  {
    hide Run, StartLeaves;
    RunKeepsInv(threads, config, actions);
    var r := Run(threads, config, actions);
    if CanBegin(r, i) && !r.gate.active && r.gate.lifecycle.Stopped? {
      StartReturnsFrom(r, i, reply, cleanup, retry, ok);
    }
  }

  /** A new runtime is in such a state, for every thread. */
  lemma NewRuntimeIsStopped(threads: nat, config: nat, i: nat)
    requires i < threads
    ensures var r := Run(threads, config, []);
            && CanBegin(r, i) && !r.gate.active && r.gate.lifecycle.Stopped? && r.gate.config == config
            && r.crew.worker.NoWorker? && r.source.ownership.NoOwnership?
  {
  }

  // --- the worker ----------------------------------------------------------------------------------------------

  /** Nothing but its own steps ends a worker, and it ends only once a stop is requested. */
  lemma WorkerEndsItself(r: Runtime, a: Action)
    ensures !WorkerGone(r.crew.worker) && !a.Work? && Inv(r) ==> Step(r, a).crew.worker == r.crew.worker
    ensures var w := Step(r, a).crew.worker;
            && (w.Ended? && !r.crew.worker.Ended? ==> r.crew.worker.Ending? && !Step(r, a).crew.active)
            && (w.Ending? && !r.crew.worker.Ending? ==> r.gate.stopRequested)
  {
  }

  /** A transaction that ends in a fault leaves Faulted, requests the stop and brings the worker back to its loop. */
  lemma FaultIsStored(r: Runtime, f: bool, g: bool)
    requires r.crew.worker.Calling?
    ensures After(r, [Work(true), Work(f), Work(g)])
            == r.(gate := r.gate.(lifecycle := LifecycleState.Faulted, stopRequested := true),
                  crew := r.crew.(worker := Looping))
  {
    AfterThree(r, Work(true), Work(f), Work(g));
  }

  /** At the head of its loop a worker makes another transaction if no stop is requested, and else ends. */
  lemma LoopGoesOn(r: Runtime, f: bool)
    requires r.crew.worker.Looping?
    ensures !r.gate.stopRequested ==>
              Step(r, Work(f)) == r.(crew := r.crew.(worker := Calling)) && Step(Step(r, Work(f)), Work(false)) == r
    ensures r.gate.stopRequested ==>
              Step(Step(r, Work(f)), Work(f)) == r.(crew := r.crew.(worker := Ended, active := false))
  {
  }

  function Remaining(w: Worker): nat {
    match w
    case Calling => 5
    case Faulting => 4
    case Requesting => 3
    case Looping => 2
    case Ending => 1
    case _ => 0
  }

  function Works(faults: seq<bool>): seq<Action> {
    seq(|faults|, k requires 0 <= k < |faults| => Work(faults[k]))
  }

  lemma StoppedWorkerMoves(r: Runtime, fault: bool)
    requires r.gate.stopRequested
    ensures var t := Step(r, Work(fault));
            && t.gate.stopRequested && t.threads == r.threads && t.source == r.source && t.history == r.history
            && (Remaining(r.crew.worker) > 0 ==> Remaining(t.crew.worker) < Remaining(r.crew.worker))
            && (WorkerGone(r.crew.worker) ==> t == r)
  {
  }

  lemma NothingRemains(w: Worker)
    ensures Remaining(w) == 0 <==> WorkerGone(w)
  {
  }

  /** Once a stop is requested a worker ends within five steps, whatever its last transaction ends in. */
  lemma {:induction false} StoppedWorkerEnds(r: Runtime, faults: seq<bool>)
    requires Inv(r) && r.gate.stopRequested && Remaining(r.crew.worker) <= |faults|
    ensures var t := After(r, Works(faults));
            && WorkerGone(t.crew.worker) && Inv(t) && t.gate.stopRequested
            && t.threads == r.threads && t.source == r.source && t.history == r.history
    decreases |faults|
  {
    hide Inv, Step, WorkerGone, Remaining;
    NothingRemains(r.crew.worker);
    if faults == [] {
    } else {
      StepKeepsInv(r, Work(faults[0]));
      StoppedWorkerMoves(r, faults[0]);
      StoppedWorkerEnds(Step(r, Work(faults[0])), faults[1..]);
      assert Works(faults)[0] == Work(faults[0]) && Works(faults)[1..] == Works(faults[1..]);
    }
  }

  // --- the destructor ------------------------------------------------------------------------------------------

  /** One more cleanup call, unless there is nothing to clean up or the source is not to be asked again. */
  ghost predicate AsksOnce(f: Source, l: Ledger, f': Source, l': Ledger, reply: ResultCode) {
    if f.ownership.NoOwnership? || (f.ownership.PartialStart? && !f.retrySupported && |l.calls| >= 2) then
      f' == f && l' == l
    else
      && |l'.calls| == |l.calls| + 1 && l'.calls[..|l.calls|] == l.calls && l'.calls[|l.calls|].reply == reply
      && (f'.ownership.NoOwnership? <==>
            || reply.Ok? || (reply.NotRunning? && (f.retrySupported || f.ownership.PartialStart?))
            || (!f.retrySupported && f.ownership.SuccessfulStart?))
      && (!f'.ownership.NoOwnership? ==> f'.ownership == f.ownership && f'.retrySupported == f.retrySupported)
  }

  lemma ChoiceAsksOnce(f: Source, l: Ledger, reply: ResultCode)
    requires Reflects(f, l)
    ensures var a := DestroyChoice(f, reply); AsksOnce(f, l, a.source, Book(l, a), reply)
  {
    if f.ownership.PartialStart? {
      PartialCleanupAnswers(f, l, reply);
    } else {
      SourceStopAnswers(f, l, reply);
    }
  }

  /** The destructor requests the stop and cleans up once. */
  lemma DestructionAsks(r: Runtime, i: nat, reply: ResultCode) returns (t: Runtime)
    requires Inv(r) && CanDestroy(r, i)
    ensures var a := Advance(i, reply, false, true, true); t == After(r, [Destroy(i), a, a]) && Inv(t)
    ensures i < |t.threads| && t.threads[i].DJoin? && t.gate == r.gate.(stopRequested := true) && t.crew == r.crew
    ensures AsksOnce(r.source, r.history.ledger, t.source, t.history.ledger, reply)
  {
    hide After;
    var a := Advance(i, reply, false, true, true);
    AfterThree(r, Destroy(i), a, a);
    StepKeepsInv(r, Destroy(i));
    var s := Step(r, Destroy(i));
    assert Reflects(r.source, r.history.ledger);
    ChoiceAsksOnce(r.source, r.history.ledger, reply);
    hide Inv, DestroyChoice, AsksOnce;
    var u := Onward(s, i, reply, false, true);
    assert u.threads[i].DStop?;
    t := Onward(u, i, reply, false, true);
  }

  /** What the destructor does once the worker is gone: one more cleanup for a source that takes retries. */
  ghost predicate DestructionDone(r: Runtime, i: nat, t: Runtime, reply: ResultCode) {
    && i < |r.threads| && t.threads == r.threads[i := DDone] && t.gate == r.gate && t.crew.worker.NoWorker?
    && if r.source.retrySupported then AsksOnce(r.source, r.history.ledger, t.source, t.history.ledger, reply)
       else t.source == r.source && t.history == r.history
  }

  lemma RetryAsksOnce(r: Runtime, reply: ResultCode)
    requires Reflects(r.source, r.history.ledger)
    ensures var t := DestroyRetry(r, reply);
            && t.crew == r.crew && t.threads == r.threads && t.gate == r.gate
            && if r.source.retrySupported then AsksOnce(r.source, r.history.ledger, t.source, t.history.ledger, reply)
               else t == r
  {
    ChoiceAsksOnce(r.source, r.history.ledger, reply);
  }

  lemma JoinMoves(r: Runtime, i: nat, reply: ResultCode)
    requires i < |r.threads| && r.threads[i].DJoin?
    ensures Put(r, i, ThreadStep(r, DJoin, reply, false, true, true))
            == if WorkerGone(r.crew.worker) then
                 r.(threads := r.threads[i := DRetry], crew := Crew(NoWorker, r.crew.active, false))
               else r
  {
    assert r.threads[i := DJoin] == r.threads;
  }

  lemma RetryMoves(r: Runtime, i: nat, reply: ResultCode)
    requires i < |r.threads|
    ensures Put(r, i, ThreadStep(r, DRetry, reply, false, true, true))
            == DestroyRetry(r, reply).(threads := r.threads[i := DDone])
    ensures r.threads[i].DDone? ==> Put(r, i, ThreadStep(r, DDone, reply, false, true, true)) == r
  {
    hide DestroyRetry;
    if r.threads[i].DDone? {
      assert r.threads[i := DDone] == r.threads;
    }
  }

  /** It waits for the worker, and then ends. */
  lemma DestructionEnds(r: Runtime, i: nat, reply: ResultCode) returns (t: Runtime)
    requires Inv(r) && i < |r.threads| && r.threads[i].DJoin?
    ensures var a := Advance(i, reply, false, true, true);
            && (!WorkerGone(r.crew.worker) ==> After(r, [a, a, a]) == r)
            && t == After(r, [a, a, a])
    ensures WorkerGone(r.crew.worker) ==> DestructionDone(r, i, t, reply)
  {
    assert HolderThread(r) == r.threads[i] && Reflects(r.source, r.history.ledger);
    hide Inv, DestroyRetry, AsksOnce, ThreadStep, WorkerGone;
    var s, u;
    s, u, t := OnwardThrice(r, i, reply, false, true);
    JoinMoves(r, i, reply);
    if WorkerGone(r.crew.worker) {
      RetryMoves(s, i, reply);
      RetryMoves(u, i, reply);
      RetryAsksOnce(s, reply);
    }
  }

  /**
   From every reachable state in which no call is in progress the destructor ends: it requests the stop, asks the source
   once if there is something to clean up, waits for the worker, which takes at most five more steps, and asks a source
   with retries once more if it still has not cleaned up.
  */
  lemma UndisturbedDestructionEnds(threads: nat, config: nat, actions: seq<Action>, i: nat, reply: ResultCode,
                                   retryReply: ResultCode, faults: seq<bool>) returns (joined: Runtime, t: Runtime)
    requires CanDestroy(Run(threads, config, actions), i) && |faults| >= 5
    ensures var r := Run(threads, config, actions);
            var a, b := Advance(i, reply, false, true, true), Advance(i, retryReply, false, true, true);
            && joined == After(r, [Destroy(i), a, a] + Works(faults))
            && t == After(r, [Destroy(i), a, a] + Works(faults) + [b, b, b])
            && AsksOnce(r.source, r.history.ledger, joined.source, joined.history.ledger, reply)
            && t.gate.stopRequested && DestructionDone(joined, i, t, retryReply)
  {
    hide Run, Step, Inv, AsksOnce;
    RunKeepsInv(threads, config, actions);
    var r := Run(threads, config, actions);
    var a, b := Advance(i, reply, false, true, true), Advance(i, retryReply, false, true, true);
    var asked := DestructionAsks(r, i, reply);
    AfterConcat(r, [Destroy(i), a, a], Works(faults));
    joined := After(asked, Works(faults));
    StoppedWorkerEnds(asked, faults);
    t := DestructionEnds(joined, i, retryReply);
    AfterConcat(r, [Destroy(i), a, a] + Works(faults), [b, b, b]);
  }
}
