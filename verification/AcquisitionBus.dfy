/**
 The three layers with nothing abstracted: the runtime of RuntimeMachine.dfy over one CanBusSource over the bus of
 BusMachine.dfy. A thread of the runtime enters the bus where its source calls it, the bus then moves step by step
 beside every other thread, and its answer is the one it computed. The worker is the only consumer.
*/
module AcquisitionBus {
  import opened Telemetry
  import opened SourceBinding
  import S = AcquisitionStack
  import R = RuntimeMachine
  import RS = RuntimeSafety
  import B = BusMachine
  import BO = BusOwnership
  import BT = BusTheorems

  /** Whether a thread of the runtime is inside the bus. */
  datatype Turn = NoCall | InCall(thread: nat)

  datatype Whole = Whole(stack: S.Stack, bus: B.Bus, turn: Turn)

  /** `Inside` is a step of the bus itself: of the lifecycle call in progress, the receive task or the consumer. */
  datatype Action =
    | Runtime(step: R.Action)
    | Thread(thread: nat, ok: bool, patient: bool)
    | Call(thread: nat, valid: bool)
    | Inside(move: B.Action)
    | Return(thread: nat, ok: bool, patient: bool)

  /** A thread at this position calls the bus through its source. */
  predicate CallsBus(s: S.Stack, t: R.Thread) {
    t.StCallSource? || (S.CallsStop(s.runtime, t) && s.claim)
  }

  /** The answer of the bus to the call that has returned. */
  function ReplyOf(b: B.Bus): BusReply {
    var call := b.history.call;
    match call.outcome
    case StartDone(result, cleanupRequired) => BusReply(result, cleanupRequired, b.driver.installed, call.failed)
    case StartRejected(result) => BusReply(result, false, b.driver.installed, call.failed)
    case StopDone(result) => BusReply(result, false, b.driver.installed, call.failed)
    case NoOutcome => BusReply(B.NotStarted, false, b.driver.installed, call.failed)
  }

  /** Stands for the answer of a bus that is not called. */
  const SILENCE := BusReply(B.NotStarted, false, false, false)

  predicate EntersBus(w: Whole, i: nat) {
    w.turn.NoCall? && i < |w.stack.runtime.threads| && CallsBus(w.stack, w.stack.runtime.threads[i])
  }

  function Entry(w: Whole, i: nat, valid: bool): B.Action
    requires i < |w.stack.runtime.threads|
  {
    if w.stack.runtime.threads[i].StCallSource? then B.BeginStart(valid) else B.BeginStop
  }

  /** A transaction of the worker ends when its receive() has returned. */
  predicate Enabled(w: Whole, a: R.Action) {
    a.Work? && w.stack.runtime.crew.worker.Calling? ==> w.bus.consumer.CIdle?
  }

  /** Lifecycle calls enter through the source, and only the worker inside a transaction receives. */
  predicate Allowed(w: Whole, a: B.Action) {
    !a.BeginStart? && !a.BeginStop? && (a.BeginReceive? ==> w.stack.runtime.crew.worker.Calling?)
  }

  function Step(w: Whole, a: Action): Whole {
    match a
    case Runtime(action) => if Enabled(w, action) then w.(stack := S.Step(w.stack, S.Plain(action))) else w
    case Thread(i, ok, patient) =>
      if i < |w.stack.runtime.threads| && !CallsBus(w.stack, w.stack.runtime.threads[i]) then
        w.(stack := S.BoundStep(w.stack, i, SILENCE, ok, patient))
      else w
    case Call(i, valid) =>
      if EntersBus(w, i) then w.(bus := B.Step(w.bus, Entry(w, i, valid)), turn := InCall(i)) else w
    case Inside(action) => if Allowed(w, action) then w.(bus := B.Step(w.bus, action)) else w
    case Return(i, ok, patient) =>
      if w.turn == InCall(i) && w.bus.app.AIdle? && i < |w.stack.runtime.threads| then
        Whole(S.BoundStep(w.stack, i, ReplyOf(w.bus), ok, patient), w.bus, NoCall)
      else w
  }

  function Initial(threads: nat, config: nat): Whole {
    Whole(S.Initial(threads, config), B.Initial(), NoCall)
  }

  function Run(threads: nat, config: nat, actions: seq<Action>): Whole {
    if actions == [] then Initial(threads, config)
    else Step(Run(threads, config, actions[..|actions| - 1]), actions[|actions| - 1])
  }

  // --- the bus inside a call -----------------------------------------------------------------------------------

  predicate Starting(app: B.App) {
    B.InStart(app) || app.SRejected?
  }

  /** The call in progress is of this kind, or has returned as such. */
  predicate Underway(b: B.Bus, starting: bool) {
    if b.app.AIdle? then
      if starting then b.history.call.outcome.StartRejected? || b.history.call.outcome.StartDone?
      else b.history.call.outcome.StopDone?
    else
      Starting(b.app) <==> starting
  }

  /** What a step inside the bus leaves alone, for a caller that is not in a call and for one that is. */
  ghost predicate Within(b: B.Bus, t: B.Bus) {
    && t.history.call.installedBefore == b.history.call.installedBefore
    && (b.app.AIdle? ==> t.app == b.app && t.driver == b.driver && t.history.call == b.history.call)
    && (Underway(b, true) ==> Underway(t, true))
    && (Underway(b, false) ==> Underway(t, false))
  }

  lemma StartIsWithin(b: B.Bus, ok: bool)
    requires Starting(b.app) && !B.Reconciling(b.app)
    ensures Within(b, B.StartStep(b, ok))
  {
    hide B.TaskInLoop;
  }

  predicate TakingAck(app: B.App) {
    app.XCheckOwned? || app.XWaitAck? || app.XAcknowledge? || app.XPollAck? || app.XCheckInstalled?
  }

  lemma TakeAckIsWithin(b: B.Bus, ok: bool, spurious: bool)
    requires TakingAck(b.app)
    ensures Within(b, B.StopStep(b, ok, spurious))
  {
    hide B.TaskInLoop;
  }

  lemma StopIsWithin(b: B.Bus, ok: bool, spurious: bool)
    requires !Starting(b.app) && !B.Reconciling(b.app)
    ensures Within(b, B.StopStep(b, ok, spurious))
  {
    hide B.TaskInLoop;
    if b.app.XLoad? || b.app.XExchange? {
      BeginStopIsWithin(b, ok, spurious);
    } else if TakingAck(b.app) {
      TakeAckIsWithin(b, ok, spurious);
    }
  }

  lemma BeginStopIsWithin(b: B.Bus, ok: bool, spurious: bool)
    requires b.app.XLoad? || b.app.XExchange?
    ensures Within(b, B.StopStep(b, ok, spurious))
  {
    hide B.TaskInLoop;
  }

  lemma ReconcileIsWithin(b: B.Bus)
    requires B.Reconciling(b.app)
    ensures Within(b, B.ReconcileStep(b))
  {
  }

  lemma TaskIsWithin(b: B.Bus, i: nat, reception: B.Reception, ok: bool, spurious: bool)
    requires i < |b.tasks|
    ensures var t := B.OneTaskStep(b, i, reception, ok, spurious);
            Within(b, t) && t.consumer == b.consumer
  {
  }

  lemma AppKeepsConsumer(b: B.Bus, ok: bool, spurious: bool)
    ensures B.StartStep(b, ok).consumer == b.consumer
    ensures B.StopStep(b, ok, spurious).consumer == b.consumer
    ensures B.ReconcileStep(b).consumer == b.consumer
  {
    hide B.TaskInLoop;
  }

  lemma InsideIsWithin(b: B.Bus, a: B.Action)
    requires !a.BeginStart? && !a.BeginStop?
    ensures Within(b, B.Step(b, a))
    ensures b.consumer.CIdle? && !a.BeginReceive? ==> B.Step(b, a).consumer.CIdle?
  {
    hide Within, B.StartStep, B.StopStep, B.ReconcileStep, B.OneTaskStep;
    match a {
      case AppStep(ok, spurious) =>
        AppKeepsConsumer(b, ok, spurious);
        if B.Reconciling(b.app) {
          ReconcileIsWithin(b);
        } else if Starting(b.app) {
          StartIsWithin(b, ok);
        } else {
          StopIsWithin(b, ok, spurious);
        }
      case TaskStep(i, reception, ok, spurious) =>
        if i < |b.tasks| {
          TaskIsWithin(b, i, reception, ok, spurious);
        } else {
          NothingIsWithin(b, b);
        }
      case _ => NothingIsWithin(b, B.Step(b, a));
    }
  }

  lemma NothingIsWithin(b: B.Bus, t: B.Bus)
    requires t.app == b.app && t.driver == b.driver && t.history.call == b.history.call
    ensures Within(b, t)
  {
  }

  /** A call that finds the bus at rest begins at once and records what it finds. */
  lemma EntryBegins(b: B.Bus, a: B.Action)
    requires b.app.AIdle? && (a.BeginStop? || (a.BeginStart? && (b.control.state.Stopped? ==> b.consumer.CIdle?)))
    ensures var t := B.Step(b, a);
            && Underway(t, a.BeginStart?)
            && t.history.call.installedBefore == b.driver.installed
            && t.consumer == b.consumer
  {
  }

  // --- the invariant -------------------------------------------------------------------------------------------

  /** The call of thread i: it found the driver as the stack knows it, and it is of the kind its caller expects. */
  ghost predicate Matches(s: S.Stack, b: B.Bus, i: nat) {
    && i < |s.runtime.threads| && CallsBus(s, s.runtime.threads[i])
    && s.installed == b.history.call.installedBefore
    && Underway(b, s.runtime.threads[i].StCallSource?)
  }

  ghost predicate Joined(w: Whole) {
    match w.turn
    case NoCall => w.bus.app.AIdle? && w.stack.installed == w.bus.driver.installed
    case InCall(i) => Matches(w.stack, w.bus, i)
  }

  ghost predicate WholeInv(w: Whole) {
    && S.StackInv(w.stack)
    && BO.OwnInv(w.bus)
    && (!w.bus.consumer.CIdle? ==> w.stack.runtime.crew.worker.Calling?)
    && Joined(w)
  }

  /** Beside a thread that calls the bus every other thread is outside its call, and a start finds no worker. */
  lemma CallerIsAlone(s: S.Stack, i: nat)
    requires S.StackInv(s) && i < |s.runtime.threads| && CallsBus(s, s.runtime.threads[i])
    ensures forall j :: 0 <= j < |s.runtime.threads| && j != i ==> s.runtime.threads[j].TIdle?
    ensures s.runtime.gate.active || s.runtime.history.destroyed
    ensures s.runtime.threads[i].StCallSource? ==> s.runtime.crew.worker.NoWorker?
  {
    assert !s.runtime.threads[i].TIdle?;
    assert RS.HolderThread(s.runtime) == s.runtime.threads[i];
  }

  /** While a thread is inside the bus, no other step of the runtime touches what its call depends on. */
  lemma PlainKeepsCaller(s: S.Stack, i: nat, a: R.Action)
    requires S.StackInv(s) && i < |s.runtime.threads| && CallsBus(s, s.runtime.threads[i]) && !a.Advance?
    ensures var t := S.PlainStep(s, a);
            && i < |t.runtime.threads| && t.runtime.threads[i] == s.runtime.threads[i]
            && t.runtime.source == s.runtime.source && t.claim == s.claim && t.installed == s.installed
  {
    CallerIsAlone(s, i);
    assert !s.runtime.threads[i].TIdle?;
  }

  lemma PlainKeepsWorker(s: S.Stack, a: R.Action)
    requires !a.Work? && !a.Advance?
    ensures var t := S.PlainStep(s, a);
            t.runtime.crew.worker == s.runtime.crew.worker && t.installed == s.installed
  {
  }

  lemma RuntimeKeepsInv(w: Whole, a: R.Action)
    requires WholeInv(w) && Enabled(w, a) && !a.Advance?
    ensures WholeInv(w.(stack := S.PlainStep(w.stack, a)))
  {
    S.PlainStepKeepsInv(w.stack, a);
    if !a.Work? {
      PlainKeepsWorker(w.stack, a);
    }
    if w.turn.InCall? {
      PlainKeepsCaller(w.stack, w.turn.thread, a);
    }
  }

  /** A step of a thread outside the worker leaves a worker in its transaction alone. */
  lemma BoundKeepsWorker(s: S.Stack, i: nat, reply: BusReply, ok: bool, patient: bool)
    requires S.StackInv(s) && i < |s.runtime.threads| && s.runtime.crew.worker.Calling?
    ensures S.BoundStep(s, i, reply, ok, patient).runtime.crew.worker.Calling?
  {
  }

  lemma IdleThreadKeepsStack(s: S.Stack, i: nat, ok: bool, patient: bool)
    requires i < |s.runtime.threads| && s.runtime.threads[i].TIdle?
    ensures S.BoundStep(s, i, SILENCE, ok, patient) == s
  {
    RS.IdleStaysPut(s.runtime, i, ResultCode.Ok, true, ok, patient);
  }

  lemma SilentStep(s: S.Stack, i: nat, ok: bool, patient: bool)
    requires i < |s.runtime.threads| && !CallsBus(s, s.runtime.threads[i])
    ensures S.Admissible(s, s.runtime.threads[i], SILENCE)
    ensures S.BoundStep(s, i, SILENCE, ok, patient).installed == s.installed
  {
  }

  lemma ThreadKeepsInv(w: Whole, i: nat, ok: bool, patient: bool)
    requires WholeInv(w) && i < |w.stack.runtime.threads| && !CallsBus(w.stack, w.stack.runtime.threads[i])
    ensures WholeInv(w.(stack := S.BoundStep(w.stack, i, SILENCE, ok, patient)))
  {
    hide S.BoundStep, BO.OwnInv;
    SilentStep(w.stack, i, ok, patient);
    S.BoundStepKeepsInv(w.stack, i, SILENCE, ok, patient);
    if w.stack.runtime.crew.worker.Calling? {
      BoundKeepsWorker(w.stack, i, SILENCE, ok, patient);
    }
    if w.turn.InCall? {
      CallerIsAlone(w.stack, w.turn.thread);
      IdleThreadKeepsStack(w.stack, i, ok, patient);
    }
  }

  /** The bus is at rest whenever a thread is about to call it, and a start finds the consumer gone. */
  lemma CallerFindsBusReady(w: Whole, i: nat)
    requires WholeInv(w) && EntersBus(w, i)
    ensures w.bus.app.AIdle?
    ensures w.stack.runtime.threads[i].StCallSource? ==> w.bus.consumer.CIdle?
  {
    CallerIsAlone(w.stack, i);
  }

  lemma CallKeepsInv(w: Whole, i: nat, valid: bool)
    requires WholeInv(w) && EntersBus(w, i)
    ensures WholeInv(w.(bus := B.Step(w.bus, Entry(w, i, valid)), turn := InCall(i)))
  {
    hide BO.OwnInv, B.Step, S.StackInv;
    CallerFindsBusReady(w, i);
    EntryBegins(w.bus, Entry(w, i, valid));
    BO.StepKeepsOwnership(w.bus, Entry(w, i, valid));
  }

  lemma InsideKeepsInv(w: Whole, a: B.Action)
    requires WholeInv(w) && Allowed(w, a)
    ensures WholeInv(w.(bus := B.Step(w.bus, a)))
  {
    hide BO.OwnInv, B.Step, S.StackInv, Underway;
    InsideIsWithin(w.bus, a);
    BO.StepKeepsOwnership(w.bus, a);
  }

  /** The answer of a call that has returned is one that its contract admits. */
  lemma ReplyIsAdmissible(s: S.Stack, b: B.Bus, i: nat)
    requires BO.OwnInv(b) && b.app.AIdle? && Matches(s, b, i)
    ensures S.Admissible(s, s.runtime.threads[i], ReplyOf(b))
  {
    BT.ContractAtRest(b);
  }

  lemma ReturnInstalls(s: S.Stack, b: B.Bus, i: nat, ok: bool, patient: bool)
    requires i < |s.runtime.threads| && CallsBus(s, s.runtime.threads[i])
    ensures S.BoundStep(s, i, ReplyOf(b), ok, patient).installed == b.driver.installed
  {
  }

  lemma ReturnKeepsInv(w: Whole, i: nat, ok: bool, patient: bool)
    requires WholeInv(w) && w.turn == InCall(i) && w.bus.app.AIdle?
    ensures WholeInv(Whole(S.BoundStep(w.stack, i, ReplyOf(w.bus), ok, patient), w.bus, NoCall))
  {
    hide S.BoundStep, BO.OwnInv, ReplyOf, CallsBus;
    ReplyIsAdmissible(w.stack, w.bus, i);
    S.BoundStepKeepsInv(w.stack, i, ReplyOf(w.bus), ok, patient);
    ReturnInstalls(w.stack, w.bus, i, ok, patient);
    if w.stack.runtime.crew.worker.Calling? {
      BoundKeepsWorker(w.stack, i, ReplyOf(w.bus), ok, patient);
    }
  }

  lemma StepKeepsInv(w: Whole, a: Action)
    requires WholeInv(w)
    ensures WholeInv(Step(w, a))
  {
    hide WholeInv, S.BoundStep, S.PlainStep, B.Step, CallsBus, S.Admissible, ReplyOf;
    match a {
      case Runtime(step) => if Enabled(w, step) && !step.Advance? { RuntimeKeepsInv(w, step); }
      case Thread(i, ok, patient) =>
        if i < |w.stack.runtime.threads| && !CallsBus(w.stack, w.stack.runtime.threads[i]) {
          SilentStep(w.stack, i, ok, patient);
          ThreadKeepsInv(w, i, ok, patient);
        }
      case Call(i, valid) => if EntersBus(w, i) { CallKeepsInv(w, i, valid); }
      case Inside(move) => if Allowed(w, move) { InsideKeepsInv(w, move); }
      case Return(i, ok, patient) =>
        if w.turn == InCall(i) && w.bus.app.AIdle? && i < |w.stack.runtime.threads| {
          ReturnKeepsInv(w, i, ok, patient);
        }
    }
  }

  lemma InitialIsSafe(threads: nat, config: nat)
    ensures WholeInv(Initial(threads, config))
  {
    BO.InitialIsOwned();
    S.RunKeepsStackInv(threads, config, []);
  }

  lemma {:induction false} RunKeepsInv(threads: nat, config: nat, actions: seq<Action>)
    ensures WholeInv(Run(threads, config, actions))
  {
    hide WholeInv, Step, Initial;
    if actions == [] {
      InitialIsSafe(threads, config);
    } else {
      RunKeepsInv(threads, config, actions[..|actions| - 1]);
      StepKeepsInv(Run(threads, config, actions[..|actions| - 1]), actions[|actions| - 1]);
    }
  }

  // --- the bus's own run ---------------------------------------------------------------------------------------

  predicate Breach(w: Whole, a: Action) {
    a.Inside? && B.Breach(w.bus, a.move)
  }

  /** No receive task is created before the acknowledgement of its predecessor is settled. */
  ghost predicate Prompt(threads: nat, config: nat, actions: seq<Action>) {
    forall k :: 0 <= k < |actions| ==> !Breach(Run(threads, config, actions[..k]), actions[k])
  }

  /** The step of the bus, if any, that a step of the whole makes. */
  function Moves(w: Whole, a: Action): (moves: seq<B.Action>)
    ensures |moves| <= 1
  {
    match a
    case Call(i, valid) => if EntersBus(w, i) then [Entry(w, i, valid)] else []
    case Inside(move) => if Allowed(w, move) then [move] else []
    case _ => []
  }

  lemma BusMoves(w: Whole, a: Action)
    ensures Step(w, a).bus == if Moves(w, a) == [] then w.bus else B.Step(w.bus, Moves(w, a)[0])
    ensures Moves(w, a) != [] && B.Breach(w.bus, Moves(w, a)[0]) ==> Breach(w, a)
  {
    hide B.Step, S.BoundStep, S.Step, CallsBus;
  }

  /** The moves of the bus in a run of the whole, in their order. */
  function BusRun(threads: nat, config: nat, actions: seq<Action>): seq<B.Action> {
    if actions == [] then []
    else
      var before := actions[..|actions| - 1];
      BusRun(threads, config, before) + Moves(Run(threads, config, before), actions[|actions| - 1])
  }

  /** Whatever happens above it, the bus of the whole makes a run of its own, a prompt one if the whole is prompt. */
  lemma {:induction false} BusRunsByItself(threads: nat, config: nat, actions: seq<Action>)
    ensures B.Run(BusRun(threads, config, actions)) == Run(threads, config, actions).bus
    ensures Prompt(threads, config, actions) ==> B.Prompt(BusRun(threads, config, actions))
  {
    hide Step, B.Step, B.Breach, Moves;
    if actions == [] {
    } else {
      var last := |actions| - 1;
      var before, w := actions[..last], Run(threads, config, actions[..last]);
      BusRunsByItself(threads, config, before);
      BusMoves(w, actions[last]);
      var earlier, all := BusRun(threads, config, before), BusRun(threads, config, actions);
      if all == earlier {
      } else {
        assert all == earlier + [Moves(w, actions[last])[0]] && all[..|all| - 1] == earlier;
      }
      if Prompt(threads, config, actions) {
        PromptBefore(threads, config, actions, last);
        PromptExtends(earlier, all, w, actions[last]);
      }
    }
  }

  lemma PromptExtends(earlier: seq<B.Action>, all: seq<B.Action>, w: Whole, a: Action)
    requires B.Prompt(earlier) && B.Run(earlier) == w.bus && !Breach(w, a)
    requires all == earlier + Moves(w, a)
    ensures B.Prompt(all)
  {
    hide B.Run, B.Breach, Moves;
    BusMoves(w, a);
    forall k | 0 <= k < |all| ensures !B.Breach(B.Run(all[..k]), all[k]) {
      if k < |earlier| {
        assert all[..k] == earlier[..k] && all[k] == earlier[k];
      } else {
        assert all[..k] == earlier && all[k] == Moves(w, a)[0];
      }
    }
  }

  lemma PromptBefore(threads: nat, config: nat, actions: seq<Action>, k: nat)
    requires Prompt(threads, config, actions) && k <= |actions|
    ensures Prompt(threads, config, actions[..k])
  {
    hide Run, Breach;
    forall j | 0 <= j < k ensures !Breach(Run(threads, config, actions[..k][..j]), actions[..k][j]) {
      assert actions[..k][..j] == actions[..j];
    }
  }

  /** What the bus alone promises of its driver it promises inside the whole. */
  lemma DriverIsNeverMisused(threads: nat, config: nat, actions: seq<Action>)
    ensures var b := Run(threads, config, actions).bus;
            && b.history.violations <= {B.UninstallUnderTask, B.SecondTask}
            && (Prompt(threads, config, actions) ==> b.history.violations == {} && !b.history.received.DriverFailure?)
  {
    hide Run, B.Run, Prompt, B.Prompt;
    var moves := BusRun(threads, config, actions);
    BusRunsByItself(threads, config, actions);
    BT.DriverStaysInOrder(moves);
    if Prompt(threads, config, actions) {
      BT.DriverIsNeverMisused(moves);
      BT.ReceiveNeverFindsTheRingEmpty(moves);
    }
  }

  // --- the results ---------------------------------------------------------------------------------------------

  /**
   What the bus asks of its application is what the runtime gives it: at most one thread at a time is where the
   bus is called, it finds no other call in progress, and a start finds no receive() in progress.
  */
  lemma BusCallsAreSerialized(threads: nat, config: nat, actions: seq<Action>, i: nat, j: nat)
    ensures var w := Run(threads, config, actions);
            && (EntersBus(w, i) && EntersBus(w, j) ==> i == j)
            && (EntersBus(w, i) ==> w.bus.app.AIdle?)
            && (EntersBus(w, i) && w.stack.runtime.threads[i].StCallSource? ==>
                  w.bus.consumer.CIdle? && w.stack.runtime.crew.worker.NoWorker?)
            && (w.turn.InCall? ==> forall k :: 0 <= k < |w.stack.runtime.threads| && k != w.turn.thread ==>
                  w.stack.runtime.threads[k].TIdle?)
  {
    hide Run, BO.OwnInv;
    RunKeepsInv(threads, config, actions);
    var w := Run(threads, config, actions);
    if EntersBus(w, i) {
      CallerFindsBusReady(w, i);
      CallerIsAlone(w.stack, i);
    }
    if w.turn.InCall? {
      CallerIsAlone(w.stack, w.turn.thread);
    }
  }

  /**
   In every interleaving of all threads, tasks and driver failures: whenever no thread is inside the bus the cleanup
   claim is the installed driver, and whenever no lifecycle call is in progress it is the runtime's ownership as well.
  */
  lemma LayersAgree(threads: nat, config: nat, actions: seq<Action>)
    ensures var w := Run(threads, config, actions);
            && (w.turn.NoCall? ==> (w.stack.claim <==> w.bus.driver.installed))
            && (!w.stack.runtime.gate.active && !w.stack.runtime.history.destroyed ==>
                  && w.turn.NoCall?
                  && (w.bus.driver.installed <==> !w.stack.runtime.source.ownership.NoOwnership?))
  {
    hide Run, BO.OwnInv;
    RunKeepsInv(threads, config, actions);
    var w := Run(threads, config, actions);
    if w.turn.InCall? {
      CallerIsAlone(w.stack, w.turn.thread);
    }
    if !w.stack.runtime.gate.active && !w.stack.runtime.history.destroyed {
      RS.AllIdle(w.stack.runtime);
    }
  }

  /**
   A stop() of the runtime in which every driver call succeeded, the receive task acknowledged and the wait for the
   worker was not given up returns Ok, and runtime ownership, cleanup claim and driver are all released.
  */
  lemma SuccessfulStopReleasesAll(threads: nat, config: nat, actions: seq<Action>, i: nat)
    ensures var w := Run(threads, config, actions);
            var r := w.stack.runtime;
            i < |r.threads| && r.threads[i].LeaveGate? && r.threads[i].stopping && !w.stack.failed ==>
              && r.threads[i].result.Ok? && r.source.ownership.NoOwnership? && !w.stack.claim
              && w.turn.NoCall? && !w.bus.driver.installed
  {
    hide Run, BO.OwnInv;
    RunKeepsInv(threads, config, actions);
    var w := Run(threads, config, actions);
    var r := w.stack.runtime;
    if i < |r.threads| && r.threads[i].LeaveGate? {
      assert RS.HolderThread(r) == r.threads[i];
      if w.turn.InCall? {
        CallerIsAlone(w.stack, w.turn.thread);
      }
    }
  }
}
