/**
 What a late acknowledgement costs. A task that is delayed between giving up its ownership and giving its
 acknowledgement is harmless until a start creates the next task first; from then on the next stop can uninstall
 the driver under the new task. Together with BusSafety.dfy this makes Prompt the exact condition.
*/
module BusDelayedAck {
  import opened BusMachine
  import opened BusOwnership
  import opened BusSafety

  /** A run and the bus it leads to. */
  datatype Point = Point(actions: seq<Action>, bus: Bus)

  ghost predicate Reached(p: Point) {
    Run(p.actions) == p.bus
  }

  lemma Then(p: Point, a: Action) returns (q: Point)
    requires Reached(p)
    ensures Reached(q) && q.bus == Step(p.bus, a) && q.actions == p.actions + [a]
  {
    q := Point(p.actions + [a], Step(p.bus, a));
    assert q.actions[..|q.actions| - 1] == p.actions;
  }

  /** One successful step of the application thread inside a start, inside a stop, and inside reconcile(). */
  lemma StartOn(p: Point) returns (q: Point)
    requires Reached(p) && InStart(p.bus.app) && !Reconciling(p.bus.app)
    ensures Reached(q) && q.bus == StartStep(p.bus, true)
  {
    hide Run;
    q := Then(p, AppStep(true, false));
  }

  lemma StopOn(p: Point) returns (q: Point)
    requires Reached(p) && !InStart(p.bus.app) && !Reconciling(p.bus.app) && !p.bus.app.SRejected?
    ensures Reached(q) && q.bus == StopStep(p.bus, true, false)
  {
    hide Run;
    q := Then(p, AppStep(true, false));
  }

  lemma ReconcileOn(p: Point) returns (q: Point)
    requires Reached(p) && Reconciling(p.bus.app)
    ensures Reached(q) && q.bus == ReconcileStep(p.bus)
  {
    hide Run;
    q := Then(p, AppStep(true, false));
  }

  /** Between two lifecycle calls, with an empty semaphore and nobody waiting. */
  ghost predicate Rested(b: Bus, control: Controller, driver: Driver, tasks: seq<Task>) {
    && b.app.AIdle? && b.consumer.CIdle? && b.shared.tokens == 0
    && b.control == control && b.driver == driver && b.tasks == tasks
  }

  /** Inside a start() or stop(), with an empty semaphore and nobody waiting. */
  ghost predicate Busy(b: Bus, app: App, control: Controller, driver: Driver, tasks: seq<Task>, acks: nat) {
    && b.app == app && b.consumer.CIdle? && b.shared.tokens == 0 && b.shared.acks == acks
    && b.control == control && b.driver == driver && b.tasks == tasks
  }

  lemma Prepare(p: Point, tasks: seq<Task>) returns (q: Point)
    requires Reached(p) && p.bus.shared.acks == 0
    requires Rested(p.bus, Controller(Stopped, false, false, false), Driver(false, false), tasks)
    ensures Reached(q)
    ensures Busy(q.bus, SInstall, Controller(Running, false, false, false), Driver(false, false), tasks, 0)
  {
    hide Run, TaskInLoop;
    q := Then(p, BeginStart(true));
    q := StartOn(q);
    assert Busy(q.bus, SDrainTokens, Controller(Running, false, false, false), Driver(false, false), tasks, 0);
    q := StartOn(q);
    q := StartOn(q);
  }

  lemma Install(p: Point, tasks: seq<Task>) returns (q: Point)
    requires Reached(p)
    requires Busy(p.bus, SInstall, Controller(Running, false, false, false), Driver(false, false), tasks, 0)
    ensures Reached(q)
    ensures Busy(q.bus, SMarkStarted, Controller(Running, true, false, false), Driver(true, true), tasks, 0)
  {
    hide Run, Step, TaskInLoop;
    q := StartOn(p);
    q := StartOn(q);
    assert Busy(q.bus, SDriverStart, Controller(Running, true, false, false), Driver(true, false), tasks, 0);
    q := StartOn(q);
  }

  lemma Reset(p: Point, tasks: seq<Task>) returns (q: Point)
    requires Reached(p)
    requires Busy(p.bus, SMarkStarted, Controller(Running, true, false, false), Driver(true, true), tasks, 0)
    ensures Reached(q)
    ensures Busy(q.bus, SOwnTask, Controller(Running, true, true, false), Driver(true, true), tasks, 0)
  {
    hide Run, Step, TaskInLoop;
    q := StartOn(p);
    q := StartOn(q);
    q := StartOn(q);
  }

  lemma Launch(p: Point, tasks: seq<Task>) returns (q: Point)
    requires Reached(p)
    requires Busy(p.bus, SOwnTask, Controller(Running, true, true, false), Driver(true, true), tasks, 0)
    ensures Reached(q) && q.bus.shared.acks == 0
    ensures Rested(q.bus, Controller(Running, true, true, true), Driver(true, true), tasks + [TLoop])
  {
    hide Run, Step, TaskInLoop;
    q := StartOn(p);
    assert Busy(q.bus, SCreateTask, Controller(Running, true, true, true), Driver(true, true), tasks, 0);
    q := StartOn(q);
  }

  /** A start() in which every call succeeds. */
  lemma StartUp(p: Point, tasks: seq<Task>) returns (q: Point)
    requires Reached(p) && p.bus.shared.acks == 0
    requires Rested(p.bus, Controller(Stopped, false, false, false), Driver(false, false), tasks)
    ensures Reached(q) && q.bus.shared.acks == 0
    ensures Rested(q.bus, Controller(Running, true, true, true), Driver(true, true), tasks + [TLoop])
  {
    q := Prepare(p, tasks);
    q := Install(q, tasks);
    q := Reset(q, tasks);
    q := Launch(q, tasks);
  }

  lemma EnterStop(p: Point, tasks: seq<Task>) returns (q: Point)
    requires Reached(p)
    requires Rested(p.bus, Controller(Running, true, true, true), Driver(true, true), tasks)
    ensures Reached(q)
    ensures Busy(q.bus, XUnrequest, Controller(Stopping, true, true, true), Driver(true, true), tasks,
                 p.bus.shared.acks)
  {
    hide Run, TaskInLoop;
    q := Then(p, BeginStop);
    q := StopOn(q);
    assert Busy(q.bus, XExchange(Running), Controller(Running, true, true, true), Driver(true, true), tasks,
                p.bus.shared.acks);
    q := StopOn(q);
  }

  lemma StopDriver(p: Point, tasks: seq<Task>) returns (q: Point)
    requires Reached(p) && !p.bus.shared.receiveRequested
    requires Busy(p.bus, XCheckStarted, Controller(Stopping, true, true, true), Driver(true, true), tasks,
                  p.bus.shared.acks)
    ensures Reached(q) && !q.bus.shared.receiveRequested
    ensures Busy(q.bus, XCheckOwned(true), Controller(Stopping, true, false, true), Driver(true, false), tasks,
                 p.bus.shared.acks)
  {
    hide Run, Step, TaskInLoop;
    q := StopOn(p);
    assert Busy(q.bus, XDriverStop, Controller(Stopping, true, true, true), Driver(true, true), tasks,
                p.bus.shared.acks);
    q := StopOn(q);
    assert Busy(q.bus, XMarkStopped, Controller(Stopping, true, true, true), Driver(true, false), tasks,
                p.bus.shared.acks);
    q := StopOn(q);
  }

  lemma Unrequest(p: Point, tasks: seq<Task>) returns (q: Point)
    requires Reached(p)
    requires Busy(p.bus, XUnrequest, Controller(Stopping, true, true, true), Driver(true, true), tasks,
                  p.bus.shared.acks)
    ensures Reached(q) && !q.bus.shared.receiveRequested
    ensures Busy(q.bus, XCheckStarted, Controller(Stopping, true, true, true), Driver(true, true), tasks,
                 p.bus.shared.acks)
  {
    hide Run, Step, TaskInLoop;
    q := StopOn(p);
  }

  /** A stop() up to its check of the task's ownership. */
  lemma HaltDriver(p: Point, tasks: seq<Task>) returns (q: Point)
    requires Reached(p)
    requires Rested(p.bus, Controller(Running, true, true, true), Driver(true, true), tasks)
    ensures Reached(q) && !q.bus.shared.receiveRequested
    ensures Busy(q.bus, XCheckOwned(true), Controller(Stopping, true, false, true), Driver(true, false), tasks,
                 p.bus.shared.acks)
  {
    q := EnterStop(p, tasks);
    q := Unrequest(q, tasks);
    q := StopDriver(q, tasks);
  }

  /** The task leaves its loop, gives up ownership, and is delayed. */
  lemma DelayTask(p: Point) returns (q: Point)
    requires Reached(p) && !p.bus.shared.receiveRequested
    requires Busy(p.bus, XCheckOwned(true), Controller(Stopping, true, false, true), Driver(true, false), [TLoop], 0)
    ensures Reached(q)
    ensures Busy(q.bus, XCheckOwned(true), Controller(Stopping, true, false, false), Driver(true, false), [TGiveAck], 0)
  {
    hide Run;
    q := Then(p, TaskStep(0, Idle, true, false));
    q := Then(q, DelayedExit(0));
  }

  lemma PollAck(p: Point) returns (q: Point)
    requires Reached(p)
    requires Busy(p.bus, XCheckOwned(true), Controller(Stopping, true, false, false), Driver(true, false),
                  [TGiveAck], 0)
    ensures Reached(q)
    ensures Busy(q.bus, XUninstall, Controller(Stopping, true, false, false), Driver(true, false), [TGiveAck], 0)
  {
    hide Run, Step, TaskInLoop;
    q := StopOn(p);
    assert Busy(q.bus, XPollAck(true), Controller(Stopping, true, false, false), Driver(true, false), [TGiveAck], 0);
    q := StopOn(q);
    assert Busy(q.bus, XCheckInstalled(true, true), Controller(Stopping, true, false, false), Driver(true, false),
                [TGiveAck], 0);
    q := StopOn(q);
  }

  lemma Uninstall(p: Point) returns (q: Point)
    requires Reached(p)
    requires Busy(p.bus, XUninstall, Controller(Stopping, true, false, false), Driver(true, false), [TGiveAck], 0)
    ensures Reached(q)
    ensures Busy(q.bus, RLoadOwned(FinishStop(true, true, true)), Controller(Stopping, false, false, false),
                 Driver(false, false), [TGiveAck], 0)
  {
    hide Run, Step;
    q := StopOn(p);
    assert Busy(q.bus, XMarkUninstalled, Controller(Stopping, true, false, false), Driver(false, false), [TGiveAck], 0);
    q := StopOn(q);
  }

  lemma Reconcile(p: Point) returns (q: Point)
    requires Reached(p)
    requires Busy(p.bus, RLoadOwned(FinishStop(true, true, true)), Controller(Stopping, false, false, false),
                  Driver(false, false), [TGiveAck], 0)
    ensures Reached(q)
    ensures Busy(q.bus, RStore(FinishStop(true, true, true), Stopped), Controller(Stopping, false, false, false),
                 Driver(false, false), [TGiveAck], 0)
  {
    hide Run, Step;
    q := ReconcileOn(p);
    q := ReconcileOn(q);
  }

  lemma Conclude(p: Point) returns (q: Point)
    requires Reached(p)
    requires Busy(p.bus, RLoadOwned(FinishStop(true, true, true)), Controller(Stopping, false, false, false),
                  Driver(false, false), [TGiveAck], 0)
    ensures Reached(q) && q.bus.shared.acks == 0
    ensures Rested(q.bus, Controller(Stopped, false, false, false), Driver(false, false), [TGiveAck])
  {
    hide Run, Step;
    q := Reconcile(p);
    q := ReconcileOn(q);
    assert Busy(q.bus, XDrainTokens, Controller(Stopped, false, false, false), Driver(false, false), [TGiveAck], 0);
    q := StopOn(q);
  }

  // --- from a breach to a misuse of the driver -----------------------------------------------------------------

  /** The bus is not stopped and the driver is installed; the youngest task has not begun its loop. */
  ghost predicate Loaded(b: Bus, started: bool) {
    && !b.control.state.Stopped?
    && b.control.installed && b.driver.installed
    && b.control.started == b.driver.started == started
    && b.tasks != [] && b.tasks[|b.tasks| - 1].TLoop?
  }

  ghost predicate Stale(b: Bus) {
    b.shared.acks > 0 || exists i :: 0 <= i < |b.tasks| && b.tasks[i].TGiveAck?
  }

  /** None of the later actions begins a start. */
  ghost predicate NoStart(actions: seq<Action>) {
    forall k :: 0 <= k < |actions| ==> !actions[k].BeginStart?
  }

  ghost predicate Continues(p: Point, q: Point) {
    Reached(q) && p.actions <= q.actions && NoStart(q.actions[|p.actions|..])
  }

  lemma Onward(p: Point, q: Point, a: Action) returns (r: Point)
    requires Continues(p, q) && !a.BeginStart?
    ensures Continues(p, r) && r.bus == Step(q.bus, a)
  {
    hide Step;
    r := Then(q, a);
    assert r.actions[|p.actions|..] == q.actions[|p.actions|..] + [a];
  }

  lemma StopsOn(p: Point, q: Point) returns (r: Point)
    requires Continues(p, q) && !InStart(q.bus.app) && !Reconciling(q.bus.app) && !q.bus.app.SRejected?
    ensures Continues(p, r) && r.bus == StopStep(q.bus, true, false)
  {
    hide Run;
    r := Onward(p, q, AppStep(true, false));
  }

  /** The old task gives its acknowledgement, unless it is there already. */
  lemma GivenLate(p: Point) returns (q: Point)
    requires Reached(p) && p.bus.app.AIdle? && Loaded(p.bus, true) && Stale(p.bus)
    ensures Continues(p, q) && q.bus.app.AIdle? && Loaded(q.bus, true) && q.bus.shared.acks > 0
  {
    hide Run;
    if p.bus.shared.acks > 0 {
      q := p;
    } else {
      var i :| 0 <= i < |p.bus.tasks| && p.bus.tasks[i].TGiveAck?;
      q := Onward(p, p, TaskStep(i, Idle, true, false));
    }
  }

  lemma BeginsToStop(p: Point, q: Point) returns (r: Point)
    requires Continues(p, q) && q.bus.app.AIdle? && Loaded(q.bus, true) && q.bus.shared.acks > 0
    ensures Continues(p, r) && r.bus.app.XUnrequest? && Loaded(r.bus, true) && r.bus.shared.acks > 0
  {
    hide Run;
    r := Onward(p, q, BeginStop);
    r := StopsOn(p, r);
    if r.bus.app.XExchange? {
      r := StopsOn(p, r);
    }
  }

  lemma FindsDriverStarted(p: Point, q: Point) returns (r: Point)
    requires Continues(p, q) && q.bus.app.XUnrequest? && Loaded(q.bus, true) && q.bus.shared.acks > 0
    ensures Continues(p, r) && r.bus.app.XDriverStop? && Loaded(r.bus, true) && r.bus.shared.acks > 0
  {
    hide Run, Step, TaskInLoop;
    r := StopsOn(p, q);
    assert r.bus.app.XCheckStarted? && Loaded(r.bus, true);
    r := StopsOn(p, r);
  }

  lemma StopsDriver(p: Point, q: Point) returns (r: Point)
    requires Continues(p, q) && q.bus.app.XDriverStop? && Loaded(q.bus, true) && q.bus.shared.acks > 0
    ensures Continues(p, r) && r.bus.app == XCheckOwned(true) && Loaded(r.bus, false) && r.bus.shared.acks > 0
  {
    hide Run, Step, TaskInLoop;
    r := StopsOn(p, q);
    r := StopsOn(p, r);
  }

  /** The stop either waits for the acknowledgement it thinks it owns, or polls for one. */
  lemma LooksForAck(p: Point, q: Point) returns (r: Point)
    requires Continues(p, q) && q.bus.app == XCheckOwned(true) && Loaded(q.bus, false) && q.bus.shared.acks > 0
    ensures Continues(p, r) && Loaded(r.bus, false)
    ensures r.bus.app == XAcknowledge(true) || r.bus.app == XPollAck(true)
  {
    hide Run, Step, TaskInLoop;
    r := StopsOn(p, q);
    if r.bus.app.XWaitAck? {
      assert r.bus.app == XWaitAck(true) && Loaded(r.bus, false) && r.bus.shared.acks > 0;
      r := StopsOn(p, r);
    }
  }

  /** The stale acknowledgement satisfies the stop although the new task is still in its loop. */
  lemma TakesStaleAck(p: Point, q: Point) returns (r: Point)
    requires Continues(p, q) && q.bus.app == XCheckOwned(true) && Loaded(q.bus, false) && q.bus.shared.acks > 0
    ensures Continues(p, r) && r.bus.app == XCheckInstalled(true, true) && Loaded(r.bus, false)
  {
    hide Run, Step, TaskInLoop;
    r := LooksForAck(p, q);
    r := StopsOn(p, r);
  }

  lemma UninstallsUnderTask(p: Point, q: Point) returns (r: Point)
    requires Continues(p, q) && q.bus.app == XCheckInstalled(true, true) && Loaded(q.bus, false)
    ensures Continues(p, r) && UninstallUnderTask in r.bus.history.violations
  {
    hide Run, Step;
    r := StopsOn(p, q);
    var last := |r.bus.tasks| - 1;
    assert !r.bus.tasks[last].TExit? && !r.bus.tasks[last].TGiveAck? && TaskInLoop(r.bus);
    r := StopsOn(p, r);
  }

  /** A stale acknowledgement beside a running task: one more stop suffices to uninstall the driver under it. */
  lemma StaleAcknowledgementDooms(p: Point) returns (q: Point)
    requires Reached(p) && p.bus.app.AIdle? && Loaded(p.bus, true) && Stale(p.bus)
    ensures Continues(p, q) && UninstallUnderTask in q.bus.history.violations
  {
    hide Step;
    q := GivenLate(p);
    q := BeginsToStop(p, q);
    q := FindsDriverStarted(p, q);
    q := StopsDriver(p, q);
    q := TakesStaleAck(p, q);
    q := UninstallsUnderTask(p, q);
  }

  // --- the exact condition -------------------------------------------------------------------------------------

  lemma BreachLoads(b: Bus, a: Action)
    requires OwnInv(b) && Breach(b, a)
    ensures var t := Step(b, a); t.app.AIdle? && Loaded(t, true) && Stale(t)
  {
    hide TaskInLoop;
    var t := CreateTask(b);
    assert Step(b, a) == t && t.tasks == b.tasks + [TLoop];
    if b.shared.acks == 0 {
      var i :| 0 <= i < |b.tasks| && b.tasks[i].TGiveAck?;
      assert t.tasks[i].TGiveAck?;
    }
  }

  /** From every reachable bus, a task created in breach dooms the driver: some continuation without a start does. */
  lemma BreachDooms(actions: seq<Action>, a: Action) returns (more: seq<Action>)
    requires Breach(Run(actions), a)
    ensures NoStart(more) && Run(actions + [a]).app.AIdle?
    ensures UninstallUnderTask in Run(actions + [a] + more).history.violations
  {
    hide Step, Run;
    RunKeepsOwnership(actions);
    BreachLoads(Run(actions), a);
    var p := Then(Point(actions, Run(actions)), a);
    var q := StaleAcknowledgementDooms(p);
    more := q.actions[|p.actions|..];
    assert q.actions == actions + [a] + more;
  }

  lemma StopStaysOut(b: Bus, ok: bool, spurious: bool)
    requires !InStart(b.app) && !Reconciling(b.app)
    ensures !InStart(StopStep(b, ok, spurious).app)
    ensures b.app.SRejected? ==> !InStart(StartStep(b, ok).app)
  {
    hide TaskInLoop;
  }

  lemma ReconcileStaysOut(b: Bus)
    requires !InStart(b.app) && Reconciling(b.app)
    ensures !InStart(ReconcileStep(b).app)
  {
  }

  lemma TaskStaysOut(b: Bus, i: nat, reception: Reception, ok: bool, spurious: bool)
    requires i < |b.tasks|
    ensures OneTaskStep(b, i, reception, ok, spurious).app == b.app
  {
  }

  lemma StaysOutOfStart(b: Bus, a: Action)
    requires !InStart(b.app) && !a.BeginStart?
    ensures !InStart(Step(b, a).app)
  {
    hide StartStep, StopStep, ReconcileStep, OneTaskStep;
    match a {
      case AppStep(ok, spurious) =>
        if Reconciling(b.app) {
          ReconcileStaysOut(b);
        } else {
          StopStaysOut(b, ok, spurious);
        }
      case TaskStep(i, reception, ok, spurious) =>
        if i < |b.tasks| { TaskStaysOut(b, i, reception, ok, spurious); }
      case _ =>
    }
  }

  lemma {:induction false} NoStartNoTask(actions: seq<Action>, more: seq<Action>)
    requires Prompt(actions) && !InStart(Run(actions).app) && NoStart(more)
    ensures Prompt(actions + more) && !InStart(Run(actions + more).app)
  {
    hide Step, InStart, Run;
    if more == [] {
      assert actions + more == actions;
    } else {
      var last := |more| - 1;
      var before, all := actions + more[..last], actions + more;
      NoStartNoTask(actions, more[..last]);
      assert all[..|all| - 1] == before && all == before + [more[last]];
      StaysOutOfStart(Run(before), more[last]);
      Unrolled(before, more[last]);
      forall k | 0 <= k < |all| ensures !Breach(Run(all[..k]), all[k]) {
        if k < |before| {
          assert all[..k] == before[..k] && all[k] == before[k];
        } else {
          assert all[..k] == before;
          NotCreating(Run(before), more[last]);
        }
      }
    }
  }

  lemma Unrolled(actions: seq<Action>, a: Action)
    ensures Run(actions + [a]) == Step(Run(actions), a)
  {
    hide Step;
    assert (actions + [a])[..|actions|] == actions;
  }

  lemma NotCreating(b: Bus, a: Action)
    requires !InStart(b.app)
    ensures !Breach(b, a)
  {
  }

  /** However the run goes on from a point between two lifecycle calls without a new start, nothing is misused. */
  ghost predicate SafeAfter(actions: seq<Action>, k: nat, more: seq<Action>)
    requires k <= |actions|
  {
    Run(actions[..k]).app.AIdle? && NoStart(more) ==> Run(actions[..k] + more).history.violations == {}
  }

  lemma SafeIfPrompt(actions: seq<Action>, k: nat, more: seq<Action>)
    requires Prompt(actions) && k <= |actions|
    ensures SafeAfter(actions, k, more)
  {
    hide Run, Step, Breach;
    if Run(actions[..k]).app.AIdle? && NoStart(more) {
      PromptBefore(actions, k);
      NoStartNoTask(actions[..k], more);
      RunKeepsInv(actions[..k] + more);
    }
  }

  /**
   Promptness is exactly what driver safety needs: a run is prompt if and only if from each of its points between
   two lifecycle calls every continuation that begins no further start leaves the driver unmisused.
  */
  lemma PromptIffSafe(actions: seq<Action>)
    ensures Prompt(actions) <==> forall k: nat, more | k <= |actions| :: SafeAfter(actions, k, more)
  {
    hide Run, Step, Breach;
    if Prompt(actions) {
      forall k: nat, more | k <= |actions| ensures SafeAfter(actions, k, more) {
        SafeIfPrompt(actions, k, more);
      }
    } else {
      var k: nat :| k < |actions| && Breach(Run(actions[..k]), actions[k]);
      var more := BreachDooms(actions[..k], actions[k]);
      assert actions[..k + 1] == actions[..k] + [actions[k]];
      assert !SafeAfter(actions, k + 1, more);
    }
  }

  // --- a breach can happen -------------------------------------------------------------------------------------

  lemma AtRest() returns (p: Point)
    ensures Reached(p) && p.bus.shared.acks == 0
    ensures Rested(p.bus, Controller(Stopped, false, false, false), Driver(false, false), [])
  {
    p := Point([], Initial());
  }

  /** A whole start and stop, at the end of which the old task still has to give its acknowledgement. */
  lemma FirstRound() returns (p: Point)
    ensures Reached(p) && p.bus.shared.acks == 0
    ensures Rested(p.bus, Controller(Stopped, false, false, false), Driver(false, false), [TGiveAck])
  {
    p := AtRest();
    p := StartUp(p, []);
    assert [] + [TLoop] == [TLoop];
    p := HaltDriver(p, [TLoop]);
    p := DelayTask(p);
    p := PollAck(p);
    p := Uninstall(p);
    p := Conclude(p);
  }

  /** A concrete run: start, stop while the task is delayed, start again, and stop. */
  lemma LateAcknowledgementIsUnsafe()
    ensures exists actions: seq<Action> :: UninstallUnderTask in Run(actions).history.violations
  {
    hide Run, Step;
    var p := FirstRound();
    p := StartUp(p, [TGiveAck]);
    assert p.bus.tasks[0].TGiveAck?;
    p := StaleAcknowledgementDooms(p);
    var actions := p.actions;
    assert UninstallUnderTask in Run(actions).history.violations;
  }
}
