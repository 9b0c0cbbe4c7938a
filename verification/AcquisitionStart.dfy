/**
 One undisturbed start() of the runtime over the real bus: as long as nothing fails it returns Ok with the worker
 running, the source owned and claimed, and the driver and its receive task running. AcquisitionRelease.dfy is the way
 back.
*/
module AcquisitionStart {
  import opened Telemetry
  import SourceBinding
  import opened AcquisitionBus
  import S = AcquisitionStack
  import L = AcquisitionRelease
  import R = RuntimeMachine
  import RP = RuntimeProgress
  import RS = RuntimeSafety
  import B = BusMachine
  import BO = BusOwnership
  import P = BusProgress

  /** The steps of thread i's start and of the bus inside it; nothing fails. */
  predicate Undisturbed(i: nat, a: Action) {
    match a
    case Runtime(step) => step == R.BeginStart(i)
    case Thread(j, ok, patient) => j == i && ok && patient
    case Call(j, valid) => j == i && valid
    case Inside(move) => move == B.AppStep(true, false)
    case Return(j, ok, patient) => j == i && ok && patient
  }

  ghost predicate AllUndisturbed(i: nat, actions: seq<Action>) {
    forall k :: 0 <= k < |actions| ==> Undisturbed(i, actions[k])
  }

  /** What every step of thread i outside the bus, and the return from it with Ok, do to the runtime. */
  function Onward(r: R.Runtime, i: nat): R.Runtime {
    R.Step(r, R.Advance(i, ResultCode.Ok, true, true, true))
  }

  /** The positions of a successful start at which the source is not called. */
  predicate Silent(t: R.Thread) {
    t.StPrepare? || t.StClearStop? || t.StArmWorker? || t.StPublish? || t.StSpawn? || t.StPublishHandle? || t.LeaveGate?
  }

  lemma SilentKeepsSource(s: S.Stack, i: nat)
    requires i < |s.runtime.threads| && Silent(s.runtime.threads[i])
    ensures !CallsBus(s, s.runtime.threads[i])
    ensures var t := S.BoundStep(s, i, SILENCE, true, true);
            t.claim == s.claim && t.runtime == Onward(s.runtime, i)
  {
    hide R.ThreadStep;
  }

  lemma SilentActs(w: Whole, i: nat)
    requires WholeInv(w) && i < |w.stack.runtime.threads| && Silent(w.stack.runtime.threads[i])
    ensures var t := Step(w, Thread(i, true, true));
            && WholeInv(t) && t.bus == w.bus && t.turn == w.turn && t.stack.claim == w.stack.claim
            && t.stack.runtime == Onward(w.stack.runtime, i)
  {
    hide BO.OwnInv, S.BoundStep, S.StackInv, CallsBus, Onward;
    SilentKeepsSource(w.stack, i);
    ThreadKeepsInv(w, i, true, true);
  }

  // --- the source is called ------------------------------------------------------------------------------------

  lemma CallerFindsBusStopped(w: Whole, i: nat)
    requires WholeInv(w) && w.turn.NoCall?
    requires i < |w.stack.runtime.threads| && w.stack.runtime.threads[i].StCallSource?
    ensures EntersBus(w, i) && Entry(w, i, true) == B.BeginStart(true) && !w.stack.claim
    ensures w.bus.app.AIdle? && w.bus.control.state.Stopped? && w.bus.consumer.CIdle?
  {
    CallerFindsBusReady(w, i);
    assert RS.HolderThread(w.stack.runtime) == w.stack.runtime.threads[i];
  }

  lemma ReturnStarts(w: Whole, i: nat)
    requires i < |w.stack.runtime.threads| && w.stack.runtime.threads[i].StCallSource?
    requires w.bus.history.call.outcome == B.StartDone(B.Ok, true) && w.turn == InCall(i) && w.bus.app.AIdle?
    ensures var t := Step(w, Return(i, true, true));
            && t.stack.claim && t.bus == w.bus && t.turn.NoCall?
            && t.stack.runtime == Onward(w.stack.runtime, i)
  {
    hide R.ThreadStep, S.CallsStop;
  }

  /** The bus has been started by this call: it runs, with one receive task more and nothing queued. */
  ghost predicate BroughtUp(b: B.Bus, t: B.Bus) {
    && t.app.AIdle? && t.control == B.Controller(B.Running, true, true, true) && t.driver == B.Driver(true, true)
    && t.tasks == b.tasks + [B.TLoop]
    && t.shared.receiveRequested && t.shared.depth == t.shared.tokens == t.shared.acks == 0
  }

  lemma MovesAreUndisturbed(i: nat, moves: seq<B.Action>)
    requires forall k :: 0 <= k < |moves| ==> moves[k] == B.AppStep(true, false)
    ensures var inner := seq(|moves|, k requires 0 <= k < |moves| => Inside(moves[k]));
            AllUndisturbed(i, [Call(i, true)] + inner + [Return(i, true, true)])
  {
  }

  /** A whole call of the bus by a thread that starts: enter, run to the end, return. */
  lemma BusStarts(w: Whole, i: nat) returns (more: seq<Action>)
    requires WholeInv(w) && w.turn.NoCall?
    requires i < |w.stack.runtime.threads| && w.stack.runtime.threads[i].StCallSource?
    ensures AllUndisturbed(i, more)
    ensures var t := L.RunFrom(w, more);
            && WholeInv(t) && t.turn.NoCall? && t.stack.claim && BroughtUp(w.bus, t.bus)
            && t.stack.runtime == Onward(w.stack.runtime, i)
  {
    hide BO.OwnInv, S.StackInv, B.Step, P.Starting, S.BoundStep, ReplyOf, CallsBus, Onward, AllUndisturbed;
    CallerFindsBusStopped(w, i);
    P.StartBegins(w.bus);
    CallKeepsInv(w, i, true);
    var w1 := Step(w, Call(i, true));
    var moves := P.StartEnds(w1.bus);
    var inner := seq(|moves|, k requires 0 <= k < |moves| => Inside(moves[k]));
    L.InsideRun(w1, i, moves);
    var w2 := L.RunFrom(w1, inner);
    P.StartedUp(w2.bus);
    ReturnStarts(w2, i);
    ReturnKeepsInv(w2, i, true, true);
    MovesAreUndisturbed(i, moves);
    more := [Call(i, true)] + inner + [Return(i, true, true)];
    L.RunFromConcat(w, [Call(i, true)] + inner, [Return(i, true, true)]);
    L.RunFromConcat(w, [Call(i, true)], inner);
    L.RunFromOne(w, Call(i, true));
    L.RunFromOne(w2, Return(i, true, true));
  }

  // --- the whole start -----------------------------------------------------------------------------------------

  /** No lifecycle call in progress and the runtime Stopped. */
  ghost predicate Startable(r: R.Runtime, i: nat) {
    !r.gate.active && R.CanBegin(r, i) && r.gate.lifecycle.Stopped?
  }

  lemma StartEnters(w: Whole, i: nat)
    requires WholeInv(w) && Startable(w.stack.runtime, i)
    ensures w.turn.NoCall?
    ensures var t := Step(w, Runtime(R.BeginStart(i)));
            && WholeInv(t) && t.bus == w.bus && t.turn == w.turn
            && t.stack.runtime == R.Step(w.stack.runtime, R.BeginStart(i))
            && i < |t.stack.runtime.threads| && t.stack.runtime.threads[i].StPrepare?
  {
    hide BO.OwnInv;
    RS.AllIdle(w.stack.runtime);
    if w.turn.InCall? {
      CallerIsAlone(w.stack, w.turn.thread);
    }
    RuntimeKeepsInv(w, R.BeginStart(i));
  }

  lemma PrepareLeadsToCall(r: R.Runtime, i: nat)
    requires i < |r.threads| && r.threads[i].StPrepare?
    ensures var t := Onward(r, i); i < |t.threads| && t.threads[i].StCallSource?
  {
  }

  /** Three silent steps on end. */
  lemma SilentThrice(w: Whole, i: nat)
    requires WholeInv(w) && i < |w.stack.runtime.threads|
    requires w.stack.runtime.threads[i].StClearStop? || w.stack.runtime.threads[i].StSpawn?
    ensures var a := Thread(i, true, true);
            var t := L.RunFrom(w, [a] + ([a] + [a]));
            && WholeInv(t) && t.bus == w.bus && t.turn == w.turn && t.stack.claim == w.stack.claim
            && t.stack.runtime == Onward(Onward(Onward(w.stack.runtime, i), i), i)
  {
    SilentPositions(w.stack.runtime, i);
    hide WholeInv, Step, Onward;
    var a := Thread(i, true, true);
    SilentActs(w, i);
    var w1 := Step(w, a);
    SilentActs(w1, i);
    var w2 := Step(w1, a);
    SilentActs(w2, i);
    L.RunFromConcat(w, [a], [a] + [a]);
    L.RunFromConcat(w1, [a], [a]);
    L.RunFromOne(w, a);
    L.RunFromOne(w1, a);
    L.RunFromOne(w2, a);
  }

  lemma SilentPositions(r: R.Runtime, i: nat)
    requires i < |r.threads| && (r.threads[i].StClearStop? || r.threads[i].StSpawn?)
    ensures var s := Onward(r, i);
            var t := Onward(s, i);
            i < |s.threads| && Silent(s.threads[i]) && i < |t.threads| && Silent(t.threads[i])
  {
  }

  /** The runtime after a whole start whose source answers Ok and whose worker is created. */
  lemma RuntimeStarts(r: R.Runtime, i: nat) returns (called: R.Runtime, armed: R.Runtime, t: R.Runtime)
    requires RS.Inv(r) && Startable(r, i)
    ensures called == Onward(Onward(R.Step(r, R.BeginStart(i)), i), i)
    ensures i < |called.threads| && called.threads[i].StClearStop?
    ensures armed == Onward(Onward(Onward(called, i), i), i) && i < |armed.threads| && armed.threads[i].StSpawn?
    ensures t == Onward(Onward(Onward(armed, i), i), i)
    ensures t.threads == r.threads && !t.gate.active && t.gate.lifecycle.Running? && !t.gate.stopRequested
    ensures t.crew == R.Crew(R.Looping, true, true) && t.history.returned.Ok? && t.source.ownership.SuccessfulStart?
  {
    hide RS.Inv, R.Step;
    var a := R.Advance(i, ResultCode.Ok, true, true, true);
    called := RP.StartAsksSource(r, i, ResultCode.Ok, true, true);
    RP.AfterThree(r, R.BeginStart(i), a, a);
    armed := RP.StartArms(called, i, ResultCode.Ok, true, true);
    RP.AfterThree(called, a, a, a);
    t := RP.StartSpawns(armed, i, ResultCode.Ok, true);
    RP.AfterThree(armed, a, a, a);
    assert r.threads[i := R.TIdle] == r.threads;
  }

  /**
   After any history that leaves the runtime at rest and Stopped, whatever happened before: one start() in which
   nothing fails runs to its return with Ok. The worker runs, runtime ownership and cleanup claim are taken, and the bus
   runs with its driver installed and started, one receive task more, and nothing left over in ring and semaphores.
  */
  lemma OneStartAcquiresAll(threads: nat, config: nat, actions: seq<Action>, i: nat) returns (more: seq<Action>)
    requires Startable(Run(threads, config, actions).stack.runtime, i)
    ensures AllUndisturbed(i, more)
    ensures var w := Run(threads, config, actions);
            var t := L.RunFrom(w, more);
            && t.stack.runtime.history.returned.Ok? && !t.stack.runtime.gate.active
            && t.stack.runtime.gate.lifecycle.Running? && !t.stack.runtime.gate.stopRequested
            && t.stack.runtime.crew.worker.Looping? && t.stack.runtime.source.ownership.SuccessfulStart?
            && t.stack.claim && BroughtUp(w.bus, t.bus)
  {
    hide Run, Step, WholeInv, Onward, BroughtUp, AllUndisturbed;
    RunKeepsInv(threads, config, actions);
    var w := Run(threads, config, actions);
    StartEnters(w, i);
    var w1 := Step(w, Runtime(R.BeginStart(i)));
    SilentActs(w1, i);
    PrepareLeadsToCall(w1.stack.runtime, i);
    var a := Thread(i, true, true);
    var w2 := Step(w1, a);
    var inside := BusStarts(w2, i);
    var w3 := L.RunFrom(w2, inside);
    assert RS.Inv(w.stack.runtime) by { RuntimeIsSafe(w); }
    var called, armed, done := RuntimeStarts(w.stack.runtime, i);
    SilentThrice(w3, i);
    var thrice := [a] + ([a] + [a]);
    var w4 := L.RunFrom(w3, thrice);
    SilentThrice(w4, i);
    more := [Runtime(R.BeginStart(i))] + ([a] + (inside + (thrice + thrice)));
    L.RunFromConcat(w, [Runtime(R.BeginStart(i))], [a] + (inside + (thrice + thrice)));
    L.RunFromOne(w, Runtime(R.BeginStart(i)));
    L.RunFromConcat(w1, [a], inside + (thrice + thrice));
    L.RunFromOne(w1, a);
    L.RunFromConcat(w2, inside, thrice + thrice);
    L.RunFromConcat(w3, thrice, thrice);
    StartIsUndisturbed(i, inside);
  }

  lemma RuntimeIsSafe(w: Whole)
    requires WholeInv(w)
    ensures RS.Inv(w.stack.runtime)
  {
  }

  lemma StartIsUndisturbed(i: nat, inside: seq<Action>)
    requires AllUndisturbed(i, inside)
    ensures var a := Thread(i, true, true);
            var thrice := [a] + ([a] + [a]);
            AllUndisturbed(i, [Runtime(R.BeginStart(i))] + ([a] + (inside + (thrice + thrice))))
  {
  }

  /** A new runtime over a new bus is such a state, for every thread. */
  lemma NewStackIsStartable(threads: nat, config: nat, i: nat)
    requires i < threads
    ensures var w := Run(threads, config, []);
            && Startable(w.stack.runtime, i) && w.turn.NoCall? && !w.stack.claim && !w.stack.installed
            && w.bus.control == B.Controller(B.Stopped, false, false, false) && w.bus.driver == B.Driver(false, false)
            && w.bus.app.AIdle? && w.bus.tasks == [] && w.bus.consumer.CIdle?
  {
  }

  /**
   What moves inside the bus by itself: everything but the lifecycle calls, which only a thread of the runtime makes at
   its source, and the receive(), which only the worker makes within a transaction, and which that transaction awaits.
  */
  lemma BusIsReachedThroughRuntime(w: Whole, a: B.Action, fault: bool)
    ensures a.BeginStart? || a.BeginStop? ==> Step(w, Inside(a)) == w
    ensures a.BeginReceive? ==>
              Step(w, Inside(a))
              == if w.stack.runtime.crew.worker.Calling? then w.(bus := B.Step(w.bus, B.BeginReceive)) else w
    ensures !a.BeginStart? && !a.BeginStop? && !a.BeginReceive? ==> Step(w, Inside(a)) == w.(bus := B.Step(w.bus, a))
    ensures w.stack.runtime.crew.worker.Calling? && !w.bus.consumer.CIdle? ==> Step(w, Runtime(R.Work(fault))) == w
    ensures w.bus.consumer.CIdle? || !w.stack.runtime.crew.worker.Calling? ==>
              Step(w, Runtime(R.Work(fault))).stack.runtime == R.Step(w.stack.runtime, R.Work(fault))
  {
    hide B.Step, R.Step;
  }
}
