/**
 The three layers together: the runtime of RuntimeMachine.dfy over one CanBusSource over the CAN bus, with any
 number of threads calling the runtime. The source's answers are no longer arbitrary: they come from the binding,
 which in turn relies on the bus contracts.
*/
module AcquisitionStack {
  import opened Telemetry
  import opened SourceLedger
  import opened RuntimeMachine
  import opened RuntimeSafety
  import opened SourceBinding

  /** `failed`: since the gate was last passed, a bus call failed or the wait for the worker was given up. */
  datatype Stack = Stack(runtime: Runtime, claim: bool, installed: bool, failed: bool)

  /** The cleanup attempt that a thread at this position makes. */
  function AttemptAt(r: Runtime, t: Thread, reply: ResultCode): Attempt {
    match t
    case StCleanup(_) => AttemptPartialCleanup(r.source, reply)
    case SpCleanup => AttemptPartialCleanup(r.source, reply)
    case StStopSource => AttemptSourceStop(r.source, reply)
    case SpStopSource => AttemptSourceStop(r.source, reply)
    case DStop => DestroyChoice(r.source, reply)
    case DRetry =>
      if r.source.retrySupported && r.source.started then DestroyChoice(r.source, reply)
      else Attempt(r.source, [], r.source.stopResult)
    case _ => Attempt(r.source, [], r.source.stopResult)
  }

  /** Whether that attempt really calls the source. */
  predicate CallsStop(r: Runtime, t: Thread) {
    AttemptAt(r, t, ResultCode.Ok).made != []
  }

  /** The bus reply is one that the bus can give here. */
  predicate Admissible(s: Stack, t: Thread, reply: BusReply) {
    && (t.StCallSource? ==> StartReply(s.installed, reply))
    && (CallsStop(s.runtime, t) && s.claim ==> StopReply(s.installed, reply))
  }

  function AnswerAt(s: Stack, t: Thread, reply: BusReply): Answer {
    if t.StCallSource? then SourceStart(s.claim, reply)
    else if CallsStop(s.runtime, t) then SourceStop(s.claim, s.installed, reply)
    else Answer(ResultCode.Ok, s.claim, s.installed)
  }

  predicate Fails(s: Stack, t: Thread, reply: BusReply, patient: bool) {
    || (t.StCallSource? && reply.failed)
    || (CallsStop(s.runtime, t) && s.claim && reply.failed)
    || (t.SpJoin? && !patient)
    || t.StDisarm?
  }

  datatype Action =
    | Plain(action: RuntimeMachine.Action)
    | Bound(thread: nat, reply: BusReply, ok: bool, patient: bool)

  /** CanBusSource supports stop retries. */
  function BoundStep(s: Stack, i: nat, reply: BusReply, ok: bool, patient: bool): Stack
    requires i < |s.runtime.threads|
  {
    var t := s.runtime.threads[i];
    var answer := AnswerAt(s, t, reply);
    Stack(Put(s.runtime, i, ThreadStep(s.runtime, t, answer.code, true, ok, patient)),
          answer.claim, answer.installed, s.failed || Fails(s, t, reply, patient))
  }

  predicate Begins(a: RuntimeMachine.Action) {
    a.BeginStart? || a.BeginStop? || a.Destroy?
  }

  function PlainStep(s: Stack, a: RuntimeMachine.Action): Stack {
    var r := RuntimeMachine.Step(s.runtime, a);
    s.(runtime := r, failed := s.failed && !(Begins(a) && r.threads != s.runtime.threads))
  }

  function Step(s: Stack, a: Action): Stack {
    match a
    case Plain(action) => if action.Advance? then s else PlainStep(s, action)
    case Bound(i, reply, ok, patient) =>
      if i < |s.runtime.threads| && Admissible(s, s.runtime.threads[i], reply) then BoundStep(s, i, reply, ok, patient)
      else s
  }

  function Initial(threads: nat, config: nat): Stack {
    Stack(RuntimeMachine.Initial(threads, config), false, false, false)
  }

  function Run(threads: nat, config: nat, actions: seq<Action>): Stack {
    if actions == [] then Initial(threads, config)
    else Step(Run(threads, config, actions[..|actions| - 1]), actions[|actions| - 1])
  }

  // --- the invariant -------------------------------------------------------------------------------------------

  /** What a thread past the gate knows about the claim and about a cleanup without failures. */
  ghost predicate Linked(t: Thread, f: Source, claim: bool, failed: bool) {
    && (f.ownership.NoOwnership? ==> !claim)
    && (!f.ownership.NoOwnership? && !t.StCleanup? ==> claim)
    && (!f.ownership.NoOwnership? || t.StCallSource? ==> f.retrySupported)
    && (t.SpJoin? && !failed ==> t.sourceResult.Ok?)
    && (t.StoreLifecycle? && t.stopping && !failed ==> t.result.Ok? && t.final.Stopped?)
    && (t.LeaveGate? && t.stopping && !failed ==> t.result.Ok? && f.ownership.NoOwnership?)
  }

  ghost predicate StackInv(s: Stack) {
    && Inv(s.runtime)
    && s.claim == s.installed
    && Linked(HolderThread(s.runtime), s.runtime.source, s.claim, s.failed)
  }

  lemma StopSettlesClaim(f: Source, claim: bool, installed: bool, reply: BusReply)
    requires claim == installed && (claim ==> StopReply(installed, reply))
    ensures var a := SourceStop(claim, installed, reply);
            && a.claim == a.installed
            && (a.claim <==> !a.code.Ok? && !a.code.NotRunning?)
            && (!claim || !reply.failed ==> a.code.Ok? || a.code.NotRunning?)
            && (claim && !reply.failed ==> a.code.Ok?)
            && !a.code.Timeout? && !a.code.Stopping?
  {
  }

  lemma StartLinks(s: Stack, t: Thread, reply: BusReply, ok: bool)
    requires BodyAt(s.runtime, t) && InStart(t) && s.claim == s.installed && Admissible(s, t, reply)
    requires Linked(t, s.runtime.source, s.claim, s.failed)
    ensures var answer := AnswerAt(s, t, reply);
            var m := StartStep(s.runtime, t, answer.code, true, ok);
            answer.claim == answer.installed
            && forall failed :: Linked(m.thread, m.runtime.source, answer.claim, failed)
  {
    if CallsStop(s.runtime, t) {
      StopSettlesClaim(s.runtime.source, s.claim, s.installed, reply);
    }
  }

  lemma StopLinks(s: Stack, t: Thread, reply: BusReply, patient: bool)
    requires BodyAt(s.runtime, t) && !InStart(t) && !InDestroy(t) && s.claim == s.installed && Admissible(s, t, reply)
    requires Linked(t, s.runtime.source, s.claim, s.failed) && !t.TIdle?
    ensures var answer := AnswerAt(s, t, reply);
            var m := StopStep(s.runtime, t, answer.code, patient);
            && answer.claim == answer.installed
            && Linked(m.thread, m.runtime.source, answer.claim, s.failed || Fails(s, t, reply, patient))
  {
    if CallsStop(s.runtime, t) {
      StopSettlesClaim(s.runtime.source, s.claim, s.installed, reply);
    }
  }

  lemma DestroyLinks(s: Stack, t: Thread, reply: BusReply)
    requires BodyAt(s.runtime, t) && InDestroy(t) && s.claim == s.installed && Admissible(s, t, reply)
    requires Linked(t, s.runtime.source, s.claim, s.failed)
    ensures var answer := AnswerAt(s, t, reply);
            var m := DestroyStep(s.runtime, t, answer.code);
            answer.claim == answer.installed
            && forall failed :: Linked(m.thread, m.runtime.source, answer.claim, failed)
  {
    if CallsStop(s.runtime, t) {
      StopSettlesClaim(s.runtime.source, s.claim, s.installed, reply);
    }
  }

  lemma BoundStepKeepsInv(s: Stack, i: nat, reply: BusReply, ok: bool, patient: bool)
    requires StackInv(s) && i < |s.runtime.threads| && Admissible(s, s.runtime.threads[i], reply)
    ensures StackInv(BoundStep(s, i, reply, ok, patient))
  {
    var t := s.runtime.threads[i];
    var answer := AnswerAt(s, t, reply);
    AdvanceKeepsInv(s.runtime, i, answer.code, true, ok, patient);
    if t.TIdle? {
      IdleStaysPut(s.runtime, i, answer.code, true, ok, patient);
    } else {
      AdvanceKeepsGate(s.runtime, i, answer.code, true, ok, patient);
      if InStart(t) {
        StartLinks(s, t, reply, ok);
      } else if InDestroy(t) {
        DestroyLinks(s, t, reply);
      } else {
        StopLinks(s, t, reply, patient);
      }
    }
  }

  lemma PlainStepKeepsInv(s: Stack, a: RuntimeMachine.Action)
    requires StackInv(s) && !a.Advance?
    ensures StackInv(PlainStep(s, a))
  {
    StepKeepsInv(s.runtime, a);
    if !s.runtime.gate.active && !s.runtime.history.destroyed {
      AllIdle(s.runtime);
    }
  }

  lemma {:induction false} RunKeepsStackInv(threads: nat, config: nat, actions: seq<Action>)
    ensures StackInv(Run(threads, config, actions))
  {
    if actions == [] {
    } else {
      var s, a := Run(threads, config, actions[..|actions| - 1]), actions[|actions| - 1];
      RunKeepsStackInv(threads, config, actions[..|actions| - 1]);
      match a {
        case Plain(action) => if !action.Advance? { PlainStepKeepsInv(s, action); }
        case Bound(i, reply, ok, patient) =>
          if i < |s.runtime.threads| && Admissible(s, s.runtime.threads[i], reply) {
            BoundStepKeepsInv(s, i, reply, ok, patient);
          }
      }
    }
  }

  // --- the results ---------------------------------------------------------------------------------------------

  /**
   Whenever no lifecycle call is past the gate, the runtime owns its source exactly when the source holds its
   cleanup claim, and exactly when the driver is installed.
  */
  lemma OwnershipAgrees(threads: nat, config: nat, actions: seq<Action>)
    ensures var s := Run(threads, config, actions);
            && s.claim == s.installed
            && (!s.runtime.gate.active && !s.runtime.history.destroyed ==>
                  (s.claim <==> !s.runtime.source.ownership.NoOwnership?))
  {
    RunKeepsStackInv(threads, config, actions);
    var s := Run(threads, config, actions);
    if !s.runtime.gate.active && !s.runtime.history.destroyed {
      AllIdle(s.runtime);
    }
  }

  /**
   In every interleaving, a stop() in which no bus call failed and the wait for the worker was not given up
   returns Ok with all three layers released.
  */
  lemma SuccessfulStopReleasesAll(threads: nat, config: nat, actions: seq<Action>, i: nat)
    ensures var s := Run(threads, config, actions);
            var r := s.runtime;
            i < |r.threads| && r.threads[i].LeaveGate? && r.threads[i].stopping && !s.failed ==>
              r.threads[i].result.Ok? && r.source.ownership.NoOwnership? && !s.claim && !s.installed
  {
    RunKeepsStackInv(threads, config, actions);
  }
}
