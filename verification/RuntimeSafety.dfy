/** The invariant of the runtime: one thread at a time is past the gate, and between calls everything is at rest. */
module RuntimeSafety {
  import opened Telemetry
  import opened SourceLedger
  import opened RuntimeMachine

  predicate Alive(w: Worker) {
    !w.NoWorker?
  }

  /** What holds whenever no lifecycle call is past the gate. */
  ghost predicate AtRest(state: LifecycleState, f: Source, w: Worker) {
    && (state.Stopped? ==> f.ownership.NoOwnership? && !Alive(w))
    && (state.Running? ==> f.ownership.SuccessfulStart? && Alive(w))
    && (f.ownership.PartialStart? ==> !Alive(w) && state.Faulted?)
  }

  /** What a thread past the gate relies on, position by position. */
  ghost predicate PositionOk(t: Thread, state: LifecycleState, f: Source, w: Worker) {
    match t
    case TIdle => true
    case StPrepare => state.Stopped? && f.ownership.NoOwnership? && !Alive(w)
    case StCallSource => state.Stopped? && f.ownership.NoOwnership? && !Alive(w)
    case StCleanup(_) => f.ownership.PartialStart? && !Alive(w)
    case StClearStop => f.ownership.SuccessfulStart? && !Alive(w)
    case StArmWorker => f.ownership.SuccessfulStart? && !Alive(w)
    case StPublish => f.ownership.SuccessfulStart? && !Alive(w)
    case StSpawn => f.ownership.SuccessfulStart? && !Alive(w) && state.Running?
    case StDisarm => f.ownership.SuccessfulStart? && !Alive(w) && state.Running?
    case StRequestStop => f.ownership.SuccessfulStart? && !Alive(w) && state.Running?
    case StStopSource => f.ownership.SuccessfulStart? && !Alive(w) && state.Running?
    case StPublishHandle => f.ownership.SuccessfulStart? && Alive(w) && !state.Stopped?
    case SpCleanup => f.ownership.PartialStart? && !Alive(w)
    case SpRequestStop => !f.ownership.PartialStart? && (state.Stopping? || state.Faulted?)
    case SpStopSource => !f.ownership.PartialStart? && (state.Stopping? || state.Faulted?)
    case SpJoin(sourceResult) =>
      && !f.ownership.PartialStart? && (state.Stopping? || state.Faulted?)
      && (sourceResult.Ok? ==> f.ownership.NoOwnership?)
      && !sourceResult.Timeout? && !sourceResult.Stopping?
    case StoreLifecycle(final, _, _) =>
      && !Alive(w)
      && (if final.Stopped? then f.ownership.NoOwnership? else final.Faulted?)
    case LeaveGate(result, stopping) => AtRest(state, f, w) && (stopping && !result.Timeout? ==> !Alive(w))
    case DRequestStop => AtRest(state, f, w)
    case DStop => AtRest(state, f, w)
    case DJoin => (f.ownership.PartialStart? ==> !Alive(w)) && (f.started ==> f.stopCalled)
    case DRetry => !Alive(w) && (f.started ==> f.stopCalled)
    case DDone => !Alive(w) && (f.started ==> f.stopCalled)
  }

  /** Only the holder is past the gate, and only while the gate is active or the runtime is being destroyed. */
  ghost predicate GateOk(r: Runtime) {
    && (forall i :: 0 <= i < |r.threads| && !r.threads[i].TIdle? ==> i == r.history.holder)
    && (r.gate.active ==> r.history.holder < |r.threads| && !r.threads[r.history.holder].TIdle?)
    && (forall i :: 0 <= i < |r.threads| && InDestroy(r.threads[i]) ==> r.history.destroyed && !r.gate.active)
    && (forall i :: 0 <= i < |r.threads| && !r.threads[i].TIdle? && !InDestroy(r.threads[i]) ==> r.gate.active)
    && (r.history.destroyed ==> !r.gate.active)
  }

  function HolderThread(r: Runtime): Thread {
    if r.history.holder < |r.threads| then r.threads[r.history.holder] else TIdle
  }

  /** The invariant of everything but the gate, for a runtime whose holder is at `t`. */
  ghost predicate BodyAt(r: Runtime, t: Thread) {
    && PositionOk(t, r.gate.lifecycle, r.source, r.crew.worker)
    && (t.TIdle? ==> AtRest(r.gate.lifecycle, r.source, r.crew.worker))
    && Reflects(r.source, r.history.ledger)
    && Protocol(r.history.ledger)
    && r.history.violations == {}
    && (r.crew.published ==> Alive(r.crew.worker))
    && (Alive(r.crew.worker) && !r.crew.published ==> t.StPublishHandle?)
  }

  ghost predicate BodyOk(r: Runtime) {
    BodyAt(r, HolderThread(r))
  }

  ghost predicate Inv(r: Runtime) {
    GateOk(r) && BodyOk(r)
  }

  // --- preservation --------------------------------------------------------------------------------------------

  lemma StartStepKeepsBody(r: Runtime, t: Thread, reply: ResultCode, retry: bool, ok: bool)
    requires BodyAt(r, t) && InStart(t)
    ensures var m := StartStep(r, t, reply, retry, ok); BodyAt(m.runtime, m.thread)
  {
    match t {
      case StCleanup(_) => PartialCleanupIsBooked(r.source, r.history.ledger, reply);
      case StStopSource => SourceStopIsBooked(r.source, r.history.ledger, reply);
      case _ =>
    }
  }

  lemma StopCallKeepsBody(r: Runtime, reply: ResultCode, patient: bool)
    requires BodyAt(r, SpStopSource)
    ensures var m := StopStep(r, SpStopSource, reply, patient); BodyAt(m.runtime, m.thread)
  {
    hide Protocol, Reflects, Book;
    SourceStopIsBooked(r.source, r.history.ledger, reply);
  }

  lemma StopCleanupKeepsBody(r: Runtime, reply: ResultCode, patient: bool)
    requires BodyAt(r, SpCleanup)
    ensures var m := StopStep(r, SpCleanup, reply, patient); BodyAt(m.runtime, m.thread)
  {
    hide Protocol, Book;
    PartialCleanupIsBooked(r.source, r.history.ledger, reply);
  }

  lemma StopStepKeepsBody(r: Runtime, t: Thread, reply: ResultCode, patient: bool)
    requires BodyAt(r, t) && !InStart(t) && !InDestroy(t)
    ensures var m := StopStep(r, t, reply, patient); BodyAt(m.runtime, m.thread)
  {
    hide Protocol, Reflects, Book;
    match t {
      case SpCleanup => StopCleanupKeepsBody(r, reply, patient);
      case SpStopSource => StopCallKeepsBody(r, reply, patient);
      case _ =>
    }
  }

  lemma DestroyStepKeepsBody(r: Runtime, t: Thread, reply: ResultCode)
    requires BodyAt(r, t) && InDestroy(t)
    ensures var m := DestroyStep(r, t, reply); BodyAt(m.runtime, m.thread)
  {
    match t {
      case DStop => ChoiceIsBooked(r.source, r.history.ledger, reply);
      case DRetry => ChoiceIsBooked(r.source, r.history.ledger, reply);
      case _ =>
    }
  }

  lemma ChoiceIsBooked(f: Source, l: Ledger, reply: ResultCode)
    requires Reflects(f, l) && Protocol(l)
    ensures var a := DestroyChoice(f, reply);
            && Reflects(a.source, Book(l, a)) && Protocol(Book(l, a))
            && (a.source.started ==> a.source.stopCalled)
            && (a.source.ownership.PartialStart? ==> f.ownership.PartialStart?)
  {
    if f.ownership.PartialStart? {
      PartialCleanupIsBooked(f, l, reply);
    } else if f.ownership.SuccessfulStart? {
      SourceStopIsBooked(f, l, reply);
    } else {
      assert Book(l, DestroyChoice(f, reply)) == l;
    }
  }

  lemma ThreadStepKeepsBody(r: Runtime, t: Thread, reply: ResultCode, retry: bool, ok: bool, patient: bool)
    requires BodyAt(r, t)
    ensures var m := ThreadStep(r, t, reply, retry, ok, patient); BodyAt(m.runtime, m.thread)
  {
    if InStart(t) {
      StartStepKeepsBody(r, t, reply, retry, ok);
    } else if InDestroy(t) {
      DestroyStepKeepsBody(r, t, reply);
    } else {
      StopStepKeepsBody(r, t, reply, patient);
    }
  }

  lemma WorkKeepsBody(r: Runtime, fault: bool, t: Thread)
    requires BodyAt(r, t)
    ensures BodyAt(WorkStep(r, fault), t)
  {
  }

  /** A thread step changes its own position, and the gate flag only when it leaves the gate. */
  lemma StartStepKeepsGate(r: Runtime, t: Thread, reply: ResultCode, retry: bool, ok: bool)
    requires InStart(t)
    ensures var m := StartStep(r, t, reply, retry, ok);
            && m.runtime.threads == r.threads && m.runtime.gate.active == r.gate.active
            && m.runtime.history.holder == r.history.holder && m.runtime.history.destroyed == r.history.destroyed
            && !m.thread.TIdle? && !InDestroy(m.thread)
  {
  }

  lemma StopStepKeepsGate(r: Runtime, t: Thread, reply: ResultCode, patient: bool)
    requires !InStart(t) && !InDestroy(t)
    ensures var m := StopStep(r, t, reply, patient);
            && m.runtime.threads == r.threads
            && m.runtime.gate.active == (r.gate.active && !t.LeaveGate?)
            && m.runtime.history.holder == r.history.holder && m.runtime.history.destroyed == r.history.destroyed
            && (m.thread.TIdle? <==> t.TIdle? || t.LeaveGate?) && !InDestroy(m.thread)
  {
  }

  lemma DestroyStepKeepsGate(r: Runtime, t: Thread, reply: ResultCode)
    requires InDestroy(t)
    ensures var m := DestroyStep(r, t, reply);
            && m.runtime.threads == r.threads && m.runtime.gate.active == r.gate.active
            && m.runtime.history.holder == r.history.holder && m.runtime.history.destroyed == r.history.destroyed
            && InDestroy(m.thread)
  {
  }

  lemma AdvanceKeepsGate(r: Runtime, i: nat, reply: ResultCode, retry: bool, ok: bool, patient: bool)
    requires GateOk(r) && i < |r.threads|
    ensures var t := Put(r, i, ThreadStep(r, r.threads[i], reply, retry, ok, patient));
            GateOk(t) && t.history.holder == r.history.holder
  {
    var t := r.threads[i];
    if InStart(t) {
      StartStepKeepsGate(r, t, reply, retry, ok);
    } else if InDestroy(t) {
      DestroyStepKeepsGate(r, t, reply);
    } else {
      StopStepKeepsGate(r, t, reply, patient);
    }
  }

  lemma IdleStaysPut(r: Runtime, i: nat, reply: ResultCode, retry: bool, ok: bool, patient: bool)
    requires i < |r.threads| && r.threads[i].TIdle?
    ensures Put(r, i, ThreadStep(r, r.threads[i], reply, retry, ok, patient)) == r
  {
  }

  lemma AdvanceKeepsInv(r: Runtime, i: nat, reply: ResultCode, retry: bool, ok: bool, patient: bool)
    requires Inv(r) && i < |r.threads|
    ensures Inv(Put(r, i, ThreadStep(r, r.threads[i], reply, retry, ok, patient)))
  {
    if r.threads[i].TIdle? {
      IdleStaysPut(r, i, reply, retry, ok, patient);
    } else {
      ThreadStepKeepsBody(r, r.threads[i], reply, retry, ok, patient);
      AdvanceKeepsGate(r, i, reply, retry, ok, patient);
    }
  }

  lemma WorkKeepsInv(r: Runtime, fault: bool)
    requires Inv(r)
    ensures Inv(WorkStep(r, fault))
  {
    WorkKeepsBody(r, fault, HolderThread(r));
  }

  /** With an inactive gate and no destruction, nobody is inside a call. */
  lemma AllIdle(r: Runtime)
    requires GateOk(r) && !r.gate.active && !r.history.destroyed
    ensures forall j :: 0 <= j < |r.threads| ==> r.threads[j].TIdle?
  {
  }

  lemma EntryKeepsInv(r: Runtime, i: nat, e: Entry)
    requires Inv(r) && CanBegin(r, i) && (e == EnterStart(r, i) || e == EnterStop(r, i))
    ensures Inv(Apply(r, i, e))
  {
    if e.Enter? {
      AllIdle(r);
      assert BodyAt(e.runtime, e.thread);
      assert GateOk(Apply(r, i, e));
    }
  }

  lemma StepKeepsInv(r: Runtime, a: Action)
    requires Inv(r)
    ensures Inv(Step(r, a))
  {
    match a {
      case Advance(i, reply, retry, ok, patient) =>
        if i < |r.threads| { AdvanceKeepsInv(r, i, reply, retry, ok, patient); }
      case Work(fault) => WorkKeepsInv(r, fault);
      case BeginStart(i) => if CanBegin(r, i) { EntryKeepsInv(r, i, EnterStart(r, i)); }
      case BeginStop(i) => if CanBegin(r, i) { EntryKeepsInv(r, i, EnterStop(r, i)); }
      case Destroy(i) => if CanDestroy(r, i) { DestroyKeepsInv(r, i); }
      case Configure(i, config, valid) => if CanBegin(r, i) { ConfigureKeepsInv(r, config, valid); }
    }
  }

  lemma DestroyKeepsInv(r: Runtime, i: nat)
    requires Inv(r) && CanDestroy(r, i)
    ensures Inv(Step(r, Destroy(i)))
  {
    var t := Step(r, Destroy(i));
    assert BodyAt(t, DRequestStop);
    assert GateOk(t);
  }

  lemma ConfigureKeepsInv(r: Runtime, config: nat, valid: bool)
    requires Inv(r) && !r.history.destroyed
    ensures Inv(ConfigureStep(r, config, valid))
  {
    if !r.gate.active {
      AllIdle(r);
    }
  }

  lemma {:induction false} RunKeepsInv(threads: nat, config: nat, actions: seq<Action>)
    ensures Inv(Run(threads, config, actions))
  {
    if actions == [] {
    } else {
      RunKeepsInv(threads, config, actions[..|actions| - 1]);
      StepKeepsInv(Run(threads, config, actions[..|actions| - 1]), actions[|actions| - 1]);
    }
  }
}
