/**
 One undisturbed stop() of the runtime over the real bus: as long as no driver call fails, it returns Ok and releases
 runtime ownership, cleanup claim and driver. AcquisitionStop.dfy says what the stop does given the bus's answer; here
 that answer is computed by the bus, step by step.
*/
module AcquisitionRelease {
  import opened Telemetry
  import SourceBinding
  import opened AcquisitionBus
  import S = AcquisitionStack
  import T = AcquisitionStop
  import R = RuntimeMachine
  import RS = RuntimeSafety
  import B = BusMachine
  import BO = BusOwnership
  import P = BusProgress

  /** What the bus answers to a stop in which nothing failed. */
  const RELEASED := SourceBinding.BusReply(B.Ok, false, false, false)

  function RunFrom(w: Whole, actions: seq<Action>): Whole
    decreases |actions|
  {
    if actions == [] then w else RunFrom(Step(w, actions[0]), actions[1..])
  }

  /** The steps of thread i's stop, of the worker, of the receive task and of a receive() in progress; none fails. */
  predicate Undisturbed(i: nat, a: Action) {
    match a
    case Runtime(step) => step == R.BeginStop(i) || step.Work?
    case Thread(j, ok, patient) => j == i && ok && patient
    case Call(j, _) => j == i
    case Inside(move) => move.ConsumerStep? || P.Helpful(move)
    case Return(j, ok, patient) => j == i && ok && patient
  }

  ghost predicate AllUndisturbed(i: nat, actions: seq<Action>) {
    forall k :: 0 <= k < |actions| ==> Undisturbed(i, actions[k])
  }

  /** Between two calls of the bus, with nobody receiving. */
  ghost predicate Calm(w: Whole) {
    WholeInv(w) && w.turn.NoCall? && w.bus.consumer.CIdle?
  }

  lemma {:induction false} RunFromConcat(w: Whole, a: seq<Action>, b: seq<Action>)
    ensures RunFrom(w, a + b) == RunFrom(RunFrom(w, a), b)
    decreases |a|
  {
    hide Step;
    if a == [] {
      assert a + b == b;
    } else {
      assert (a + b)[1..] == a[1..] + b;
      RunFromConcat(Step(w, a[0]), a[1..], b);
    }
  }

  lemma RunFromOne(w: Whole, a: Action)
    ensures RunFrom(w, [a]) == Step(w, a)
  {
    hide Step;
    assert RunFrom(Step(w, a), [a][1..]) == Step(w, a);
  }

  // --- the consumer finishes -----------------------------------------------------------------------------------

  /** A receive() in progress comes to its end by itself. */
  lemma {:induction false} ConsumerFinishes(w: Whole, i: nat) returns (more: seq<Action>)
    requires WholeInv(w)
    ensures AllUndisturbed(i, more)
    ensures var t := RunFrom(w, more);
            WholeInv(t) && t.bus.consumer.CIdle? && t.stack == w.stack && t.turn == w.turn
    decreases P.Patience(w.bus.consumer)
  {
    hide WholeInv, B.Step;
    if w.bus.consumer.CIdle? {
      more := [];
    } else {
      var a := Inside(B.ConsumerStep);
      P.ConsumerProgresses(w.bus);
      InsideKeepsInv(w, B.ConsumerStep);
      var rest := ConsumerFinishes(Step(w, a), i);
      more := [a] + rest;
      assert more[1..] == rest;
    }
  }

  // --- the bus finishes ----------------------------------------------------------------------------------------

  /** Helpful steps inside the bus leave the runtime where it is. */
  lemma {:induction false} InsideRun(w: Whole, i: nat, moves: seq<B.Action>)
    requires WholeInv(w) && w.turn == InCall(i)
    requires forall k :: 0 <= k < |moves| ==> P.Helpful(moves[k])
    ensures var t := RunFrom(w, seq(|moves|, k requires 0 <= k < |moves| => Inside(moves[k])));
            WholeInv(t) && t.stack == w.stack && t.turn == w.turn && t.bus == P.RunFrom(w.bus, moves)
    decreases |moves|
  {
    hide B.Step, BO.OwnInv, S.StackInv;
    var all := seq(|moves|, k requires 0 <= k < |moves| => Inside(moves[k]));
    if moves == [] {
    } else {
      InsideKeepsInv(w, moves[0]);
      InsideRun(Step(w, all[0]), i, moves[1..]);
      var rest := moves[1..];
      assert all[1..] == seq(|rest|, k requires 0 <= k < |rest| => Inside(rest[k]));
    }
  }

  lemma ReplyReleases(b: B.Bus)
    requires b.history.call.outcome == B.StopDone(B.Ok) && !b.driver.installed && !b.history.call.failed
    ensures ReplyOf(b) == RELEASED
  {
  }

  /** A whole call of the bus by a thread that stops: enter, run to the end, return. */
  lemma BusStops(w: Whole, i: nat) returns (more: seq<Action>)
    requires Calm(w) && EntersBus(w, i) && !w.stack.runtime.threads[i].StCallSource?
    ensures AllUndisturbed(i, more)
    ensures var t := RunFrom(w, more);
            Calm(t) && t.stack == S.Step(w.stack, S.Bound(i, RELEASED, true, true))
  {
    hide BO.OwnInv, S.StackInv, B.Step, P.Stopping, S.BoundStep, S.Admissible, ReplyOf, CallsBus;
    CallerFindsBusReady(w, i);
    CallerHasDriver(w, i);
    P.StopBegins(w.bus);
    CallKeepsInv(w, i, true);
    var w1 := Step(w, Call(i, true));
    var moves := P.StopEnds(w1.bus);
    var inner := seq(|moves|, k requires 0 <= k < |moves| => Inside(moves[k]));
    InsideRun(w1, i, moves);
    var w2 := RunFrom(w1, inner);
    ReplyReleases(w2.bus);
    ReplyIsAdmissible(w2.stack, w2.bus, i);
    ReturnKeepsInv(w2, i, true, true);
    more := [Call(i, true)] + inner + [Return(i, true, true)];
    RunFromConcat(w, [Call(i, true)] + inner, [Return(i, true, true)]);
    RunFromConcat(w, [Call(i, true)], inner);
    RunFromOne(w, Call(i, true));
    RunFromOne(w2, Return(i, true, true));
  }

  lemma CallerHasDriver(w: Whole, i: nat)
    requires WholeInv(w) && EntersBus(w, i) && !w.stack.runtime.threads[i].StCallSource?
    ensures w.bus.driver.installed && Entry(w, i, true) == B.BeginStop
  {
  }

  // --- the runtime's stop, mirrored ----------------------------------------------------------------------------

  lemma SilenceIsAsGood(s: S.Stack, i: nat)
    requires i < |s.runtime.threads| && !CallsBus(s, s.runtime.threads[i])
    ensures S.Step(s, S.Bound(i, SILENCE, true, true)) == S.Step(s, S.Bound(i, RELEASED, true, true))
  {
  }

  /** A step of thread i outside a start, with the bus answering by itself where it is called. */
  lemma MirrorBound(w: Whole, i: nat) returns (more: seq<Action>)
    requires Calm(w) && i < |w.stack.runtime.threads| && !w.stack.runtime.threads[i].StCallSource?
    ensures AllUndisturbed(i, more)
    ensures var t := RunFrom(w, more);
            Calm(t) && t.stack == S.Step(w.stack, S.Bound(i, RELEASED, true, true))
  {
    hide BO.OwnInv, S.StackInv, S.BoundStep, CallsBus;
    if EntersBus(w, i) {
      more := BusStops(w, i);
    } else {
      more := [Thread(i, true, true)];
      RunFromOne(w, more[0]);
      SilentStep(w.stack, i, true, true);
      SilenceIsAsGood(w.stack, i);
      ThreadKeepsInv(w, i, true, true);
    }
  }

  lemma MirrorPlain(w: Whole, i: nat, a: R.Action) returns (more: seq<Action>)
    requires Calm(w) && (a == R.BeginStop(i) || a.Work?)
    ensures AllUndisturbed(i, more)
    ensures var t := RunFrom(w, more); Calm(t) && t.stack == S.Step(w.stack, S.Plain(a))
  {
    hide BO.OwnInv, S.StackInv, S.PlainStep;
    more := [Runtime(a)];
    RunFromOne(w, more[0]);
    RuntimeKeepsInv(w, a);
  }

  predicate OfThisStop(i: nat, a: S.Action) {
    match a
    case Plain(step) => step == R.BeginStop(i) || step.Work?
    case Bound(j, reply, ok, patient) => j == i && reply == RELEASED && ok && patient
  }

  predicate OutOfStart(s: S.Stack, i: nat) {
    i < |s.runtime.threads| && !R.InStart(s.runtime.threads[i])
  }

  lemma PlainStaysOut(s: S.Stack, i: nat, a: R.Action)
    requires OutOfStart(s, i) && (a == R.BeginStop(i) || a.Work?)
    ensures OutOfStart(S.Step(s, S.Plain(a)), i)
  {
  }

  lemma StopStaysOut(r: R.Runtime, t: R.Thread, reply: ResultCode)
    requires !R.InStart(t)
    ensures var m := R.ThreadStep(r, t, reply, true, true, true);
            !R.InStart(m.thread) && m.runtime.threads == r.threads
  {
  }

  lemma BoundStaysOut(s: S.Stack, i: nat)
    requires OutOfStart(s, i)
    ensures OutOfStart(S.Step(s, S.Bound(i, RELEASED, true, true)), i)
  {
    hide R.ThreadStep, S.Admissible, S.AnswerAt, S.Fails;
    StopStaysOut(s.runtime, s.runtime.threads[i], S.AnswerAt(s, s.runtime.threads[i], RELEASED).code);
  }

  /** Whatever the stack does in this stop, the whole can do, the bus answering by itself. */
  lemma {:induction false} MirrorAll(w: Whole, i: nat, actions: seq<S.Action>) returns (more: seq<Action>)
    requires Calm(w) && OutOfStart(w.stack, i)
    requires forall k :: 0 <= k < |actions| ==> OfThisStop(i, actions[k])
    ensures AllUndisturbed(i, more)
    ensures var t := RunFrom(w, more); Calm(t) && t.stack == T.RunOn(w.stack, actions)
    decreases |actions|
  {
    hide Calm, Step, S.Step, OutOfStart;
    if actions == [] {
      more := [];
    } else {
      NotCallingSource(w.stack, i);
      var first;
      match actions[0] {
        case Plain(step) =>
          first := MirrorPlain(w, i, step);
          PlainStaysOut(w.stack, i, step);
        case Bound(_, _, _, _) =>
          first := MirrorBound(w, i);
          BoundStaysOut(w.stack, i);
      }
      var rest := MirrorAll(RunFrom(w, first), i, actions[1..]);
      more := first + rest;
      RunFromConcat(w, first, rest);
    }
  }

  lemma NotCallingSource(s: S.Stack, i: nat)
    requires OutOfStart(s, i)
    ensures i < |s.runtime.threads| && !s.runtime.threads[i].StCallSource?
  {
  }

  lemma StopIsMirrored(i: nat, faults: seq<bool>)
    ensures var actions := T.WholeStop(i, RELEASED, faults);
            forall k :: 0 <= k < |actions| ==> OfThisStop(i, actions[k])
  {
  }

  // --- the result ----------------------------------------------------------------------------------------------

  /** No lifecycle call in progress, and something to stop. */
  ghost predicate Stoppable(w: Whole, i: nat) {
    && !w.stack.runtime.gate.active && R.CanBegin(w.stack.runtime, i)
    && !w.stack.runtime.gate.lifecycle.Stopped?
  }

  lemma StackIsStoppable(w: Whole, i: nat)
    requires WholeInv(w) && Stoppable(w, i)
    ensures T.Stoppable(w.stack, i, RELEASED) && w.turn.NoCall? && OutOfStart(w.stack, i)
  {
    hide BO.OwnInv;
    RS.AllIdle(w.stack.runtime);
    if w.turn.InCall? {
      CallerIsAlone(w.stack, w.turn.thread);
    }
  }

  /**
   After any history that leaves the runtime at rest and not Stopped, whatever the driver did before: one stop()
   in which no driver call fails runs to its return with Ok, and runtime ownership, cleanup claim and driver are
   all released.
  */
  lemma OneStopReleasesAll(threads: nat, config: nat, actions: seq<Action>, i: nat) returns (more: seq<Action>)
    requires Stoppable(Run(threads, config, actions), i)
    ensures AllUndisturbed(i, more)
    ensures var t := RunFrom(Run(threads, config, actions), more);
            && t.stack.runtime.source.ownership.NoOwnership? && !t.stack.claim && !t.bus.driver.installed
            && t.stack.runtime.gate.lifecycle.Stopped? && t.stack.runtime.crew.worker.NoWorker?
            && !t.stack.runtime.gate.active && t.stack.runtime.history.returned.Ok?
  {
    hide Run, Step, BO.OwnInv, S.StackInv, T.Stoppable, T.WholeStop, Stoppable;
    RunKeepsInv(threads, config, actions);
    var w := Run(threads, config, actions);
    StackIsStoppable(w, i);
    var drained := ConsumerFinishes(w, i);
    var faults := [false, false, false, false, false];
    T.WholeStopReturns(w.stack, i, RELEASED, faults);
    StopIsMirrored(i, faults);
    var stopped := MirrorAll(RunFrom(w, drained), i, T.WholeStop(i, RELEASED, faults));
    more := drained + stopped;
    RunFromConcat(w, drained, stopped);
  }
}
