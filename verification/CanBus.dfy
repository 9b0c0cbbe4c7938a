/**
 start(), stop(), receive() and the receive task on the bus's own objects, one call at a time; BusMachine.dfy
 interleaves them. The driver refuses misuse by its preconditions, so that every call site has to respect it, and
 its answers are parameters.
*/
module CanBuses {
  import opened BusMachine
  import opened BusTheorems
  import opened DriverCounters
  import opened Frames
  import opened FrameRings
  import opened LifecycleControl

  class TwaiDriver {
    var installed: bool
    var started: bool

    constructor ()
      ensures !installed && !started
    {
      installed, started := false, false;
    }

    method Install(ok: bool) returns (done: bool)
      requires !installed
      modifies this`installed
      ensures installed == done == ok
    {
      installed := ok;
      return ok;
    }

    method Start(ok: bool) returns (done: bool)
      requires installed && !started
      modifies this`started
      ensures started == done == ok
    {
      started := ok;
      return ok;
    }

    method Stop(ok: bool) returns (done: bool)
      requires started
      modifies this`started
      ensures started == !done && done == ok
    {
      started := !ok;
      return ok;
    }

    method Uninstall(ok: bool) returns (done: bool)
      requires installed && !started
      modifies this`installed
      ensures installed == !done && done == ok
    {
      installed := !ok;
      return ok;
    }
  }

  /** How the calls a start() or stop() may make turn out. `acknowledges` is the task ending within the wait. */
  datatype Replies = Replies(
    semaphores: bool, install: bool, start: bool, stop: bool, uninstall: bool, task: bool, acknowledges: bool)

  /** The driver's cumulative counters as it reports them. */
  datatype Status = Status(busErrors: Word, rxMissed: Word, rxOverrun: Word)

  const ZERO_STATUS := Status(0, 0, 0)

  datatype Alerts = NoAlert | AlertsFail | BusOff

  /** One round of the receive task: what arrives, and what the two status reads answer. */
  datatype Round = Round(reception: Reception, frame: RawCanFrame, statusOk: bool, status: Status, alerts: Alerts)

  predicate TerminalRound(r: Round) {
    r.reception.Broken? || !r.statusOk || !r.alerts.NoAlert?
  }

  /** A frame that is accepted if it is valid and there is room. */
  function Enqueue(queue: seq<RawCanFrame>, r: Round): seq<RawCanFrame> {
    if r.reception.ValidFrame? && |queue| < QUEUE_CAPACITY then queue + [r.frame] else queue
  }

  /** The result of a start() and whether it leaves something to clean up. */
  function StartResult(valid: bool, state: Lifecycle, semaphores: bool, r: Replies): (Result, bool) {
    if !valid then (InvalidConfiguration, false)
    else if !state.Stopped? then (Rejection(state), false)
    else if !semaphores && !r.semaphores then (TaskFailure, false)
    else if !r.install then (DriverFailure, false)
    else if !r.start then (DriverFailure, !r.uninstall)
    else if !r.task then (TaskFailure, !(r.stop && r.uninstall))
    else (Ok, true)
  }

  predicate StartFails(semaphores: bool, r: Replies) {
    !(semaphores || r.semaphores) || !r.install || !r.start || !r.task
  }

  lemma StartResultIsContract(valid: bool, state: Lifecycle, before: bool, after: bool, semaphores: bool, r: Replies)
    requires state.Stopped? <==> !before
    requires after == (StartResult(valid, state, semaphores, r).1 || before)
    ensures StartContract(before, after, StartFails(semaphores, r), StartResult(valid, state, semaphores, r).0,
                          StartResult(valid, state, semaphores, r).1)
  {
  }

  /**
   A start() names what went wrong: the configuration, then the state it finds, then a semaphore or task that could not
   be created, or a driver that could not be installed or started, in the order in which they are tried. Something is
   left to clean up after success, and after a failure whose own undoing failed.
  */
  lemma StartNamesFailure(valid: bool, state: Lifecycle, semaphores: bool, r: Replies)
    ensures var (result, cleanupRequired) := StartResult(valid, state, semaphores, r);
            var admitted := valid && state.Stopped?;
            var prepared := admitted && (semaphores || r.semaphores);
            && (result.InvalidConfiguration? <==> !valid)
            && (result.AlreadyStarted? <==> valid && state.Running?)
            && (result.StoppingNow? <==> valid && state.Stopping?)
            && (result.FaultedNow? <==> valid && state.Faulted?)
            && (result.DriverFailure? <==> prepared && !(r.install && r.start))
            && (result.TaskFailure? <==> admitted && if prepared then r.install && r.start && !r.task else true)
            && (cleanupRequired <==>
                  && prepared && r.install
                  && if !r.start then !r.uninstall else r.task || !r.stop || !r.uninstall)
  {
  }

  /** The result of a stop(), given the controller it finds. */
  function StopResult(c: Controller, r: Replies): Result {
    if c.state.Stopped? then NotStarted
    else if c.taskOwned && !r.acknowledges then TaskFailure
    else if (c.started && !r.stop) || !r.uninstall then DriverFailure
    else Ok
  }

  /** A stop() names the owner that is left: the task first, then the driver. */
  lemma StopNamesOwner(c: Controller, r: Replies)
    ensures var result := StopResult(c, r);
            var alive := c.taskOwned && !r.acknowledges;
            && (result.NotStarted? <==> c.state.Stopped?)
            && (result.TaskFailure? <==> !c.state.Stopped? && alive)
            && (result.DriverFailure? <==>
                  !c.state.Stopped? && !alive && ((c.started && !r.stop) || !r.uninstall))
            && result in {Ok, NotStarted, TaskFailure, DriverFailure}
  {
  }

  /** The queue after the rounds up to and including the first terminal one. */
  function QueueAfter(queue: seq<RawCanFrame>, rounds: seq<Round>): seq<RawCanFrame>
    decreases rounds
  {
    if rounds == [] then queue
    else if TerminalRound(rounds[0]) then Enqueue(queue, rounds[0])
    else QueueAfter(Enqueue(queue, rounds[0]), rounds[1..])
  }

  /**
   The receive task hears `n` of the rounds: up to and including the first one whose reception, status or alerts end it,
   or all of them.
  */
  ghost predicate Heard(rounds: seq<Round>, n: nat) {
    && n <= |rounds|
    && (forall i :: 0 <= i < n - 1 ==>
          !rounds[i].reception.Broken? && rounds[i].statusOk && rounds[i].alerts.NoAlert?)
    && (n < |rounds| ==>
          n > 0 && (rounds[n - 1].reception.Broken? || !rounds[n - 1].statusOk || !rounds[n - 1].alerts.NoAlert?))
  }

  /** The valid frames among the rounds, in their order. */
  function ValidFrames(rounds: seq<Round>): seq<RawCanFrame>
    decreases rounds
  {
    if rounds == [] then []
    else (if rounds[0].reception.ValidFrame? then [rounds[0].frame] else []) + ValidFrames(rounds[1..])
  }

  function First(frames: seq<RawCanFrame>, k: int): seq<RawCanFrame> {
    if k <= 0 then [] else if k < |frames| then frames[..k] else frames
  }

  lemma HeardRest(rounds: seq<Round>, n: nat)
    requires Heard(rounds, n) && rounds != []
    ensures n > 0
    ensures TerminalRound(rounds[0]) ==> n == 1
    ensures !TerminalRound(rounds[0]) ==> Heard(rounds[1..], n - 1)
  {
  }

  /** What the rounds leave in the queue: the valid frames that were heard, in order, as far as there is room. */
  lemma {:induction false} QueueTakesValidFrames(queue: seq<RawCanFrame>, rounds: seq<Round>, n: nat)
    requires |queue| <= 64 && Heard(rounds, n)
    ensures QueueAfter(queue, rounds) == queue + First(ValidFrames(rounds[..n]), 64 - |queue|)
    decreases rounds
  {
    if rounds == [] {
    } else {
      var r, rest := rounds[0], rounds[1..];
      HeardRest(rounds, n);
      assert rounds[..n][0] == r && rounds[..n][1..] == rest[..n - 1];
      if TerminalRound(r) {
        assert ValidFrames(rest[..n - 1]) == [] by { assert rest[..n - 1] == []; }
      } else {
        QueueTakesValidFrames(Enqueue(queue, r), rest, n - 1);
      }
      FirstOfMore(queue, r, ValidFrames(rest[..n - 1]));
    }
  }

  lemma FirstOfMore(queue: seq<RawCanFrame>, r: Round, more: seq<RawCanFrame>)
    requires |queue| <= 64
    ensures var queued := Enqueue(queue, r);
            queued + First(more, 64 - |queued|)
            == queue + First((if r.reception.ValidFrame? then [r.frame] else []) + more, 64 - |queue|)
  {
  }

  lemma {:induction false} SomeAreHeard(rounds: seq<Round>) returns (n: nat)
    ensures Heard(rounds, n)
    ensures Ends(rounds) <==> n > 0 && TerminalRound(rounds[n - 1])
    decreases rounds
  {
    if rounds == [] {
      n := 0;
    } else if TerminalRound(rounds[0]) {
      n := 1;
    } else {
      n := SomeAreHeard(rounds[1..]);
      n := n + 1;
    }
  }

  /**
   The whole result of a receive task in terms of its rounds: after those it heard the queue has grown by their valid
   frames, in order and as far as there was room, and the bus is Running unless the last of them ended the run.
  */
  ghost predicate TakesHeard(before: seq<RawCanFrame>, rounds: seq<Round>, after: seq<RawCanFrame>, running: bool) {
    exists n: nat ::
      && Heard(rounds, n)
      && after == before + First(ValidFrames(rounds[..n]), 64 - |before|)
      && (running <==>
            n == 0 || (!rounds[n - 1].reception.Broken? && rounds[n - 1].statusOk && rounds[n - 1].alerts.NoAlert?))
  }

  lemma TaskTakesHeard(queue: seq<RawCanFrame>, rounds: seq<Round>)
    requires |queue| <= 64
    ensures TakesHeard(queue, rounds, QueueAfter(queue, rounds), !Ends(rounds))
  {
    var n := SomeAreHeard(rounds);
    QueueTakesValidFrames(queue, rounds, n);
  }

  /** The driver's counters are read in this round. */
  predicate Reads(r: Round) {
    !r.reception.Broken? && r.statusOk
  }

  /** The readings of one counter in the rounds up to the first terminal one. */
  function Readings(counter: Status -> Word, rounds: seq<Round>): seq<Word>
    decreases rounds
  {
    if rounds == [] || !Reads(rounds[0]) then []
    else [counter(rounds[0].status)] + if TerminalRound(rounds[0]) then [] else Readings(counter, rounds[1..])
  }

  /** What those readings add to the ring's counter, from the reading before them. */
  function Added(counter: Status -> Word, previous: Status, rounds: seq<Round>): nat
    decreases rounds
  {
    if rounds == [] || !Reads(rounds[0]) then 0
    else
      var status := rounds[0].status;
      CounterDelta(counter(status), counter(previous))
      + if TerminalRound(rounds[0]) then 0 else Added(counter, status, rounds[1..])
  }

  /** The invalid frames delivered in the rounds up to the first terminal one. */
  function InvalidFrames(rounds: seq<Round>): nat
    decreases rounds
  {
    if rounds == [] then 0
    else
      (if rounds[0].reception.InvalidFrame? then 1 else 0)
      + if TerminalRound(rounds[0]) then 0 else InvalidFrames(rounds[1..])
  }

  function BusErrors(s: Status): Word {
    s.busErrors
  }

  function RxMissed(s: Status): Word {
    s.rxMissed
  }

  function RxOverrun(s: Status): Word {
    s.rxOverrun
  }

  lemma {:induction false} AddedIsAccumulated(counter: Status -> Word, previous: Status, rounds: seq<Round>)
    ensures Added(counter, previous, rounds) == Accumulated(counter(previous), Readings(counter, rounds))
    decreases rounds
  {
    hide CounterDelta;
    if rounds == [] || !Reads(rounds[0]) {
    } else if TerminalRound(rounds[0]) {
      assert Readings(counter, rounds)[1..] == [];
    } else {
      AddedIsAccumulated(counter, rounds[0].status, rounds[1..]);
      assert Readings(counter, rounds)[1..] == Readings(counter, rounds[1..]);
    }
  }

  /**
   What a receive task adds for a counter that truly stood at `before` and then at `counts` never exceeds the true
   advance, and is exactly that if and only if every poll came in time.
  */
  lemma AddedFollowsDriver(counter: Status -> Word, previous: Status, rounds: seq<Round>, before: nat, counts: seq<nat>)
    requires counter(previous) == Reported(before) && Readings(counter, rounds) == ReportedAll(counts)
    requires Rising(before, counts)
    ensures var added := Added(counter, previous, rounds);
            && before + added <= Last(before, counts)
            && (before + added == Last(before, counts) <==> PolledInTime(before, counts))
  {
    hide CounterDelta, Reported;
    AddedIsAccumulated(counter, previous, rounds);
    DeltasTelescope(before, counts);
  }

  predicate Ends(rounds: seq<Round>) {
    rounds != [] && (TerminalRound(rounds[0]) || Ends(rounds[1..]))
  }

  class CanBus {
    const frames: FrameRing
    const control: LifecycleController
    const driver: TwaiDriver
    var semaphores: bool
    /** The tokens of the counting semaphore and of the acknowledgement semaphore. */
    var available: nat
    var acknowledged: nat
    var receiveRequested: bool
    /** A receive task exists and has not acknowledged. */
    var task: bool
    var busId: nat
    var hasStartedBefore: bool
    var last: Status

    ghost function Footprint(): set<object> {
      {this, frames, frames.frames, control, driver}
    }

    ghost predicate Owned()
      reads control, driver, this
    {
      && control.driverInstalled == driver.installed && control.driverStarted == driver.started
      && (driver.started ==> driver.installed)
      && control.taskOwned == task
      && (task ==> driver.installed && acknowledged == 0 && semaphores)
      && (control.state.Stopped? <==> !driver.installed)
      && (control.state.Running? ==> driver.started && task && receiveRequested)
    }

    ghost predicate Counted()
      reads this, frames, control
    {
      && available <= QUEUE_CAPACITY && acknowledged <= 1 && |frames.queue| <= QUEUE_CAPACITY
      && (!semaphores ==> available == 0)
      && (control.state.Running? ==> available == |frames.queue|)
    }

    ghost predicate Valid()
      reads Footprint()
    {
      frames.Valid() && frames.capacity == QUEUE_CAPACITY && Owned() && Counted()
    }

    constructor (modulus: nat, blank: RawCanFrame)
      requires RingWords.Modulus(QUEUE_CAPACITY, modulus)
      ensures Valid() && fresh(Footprint()) && control.state.Stopped? && !hasStartedBefore
    {
      frames := new FrameRing(QUEUE_CAPACITY, modulus, blank);
      control := new LifecycleController();
      driver := new TwaiDriver();
      semaphores, available, acknowledged, receiveRequested, task := false, 0, 0, false, false;
      busId, hasStartedBefore, last := 0, false, ZERO_STATUS;
    }

    // --- semaphores --------------------------------------------------------------------------------------------

    method GiveAvailable()
      requires available <= QUEUE_CAPACITY
      modifies this`available
      ensures available == if old(available) < QUEUE_CAPACITY then old(available) + 1 else QUEUE_CAPACITY
    {
      if available < QUEUE_CAPACITY {
        available := available + 1;
      }
    }

    method DrainAvailable()
      modifies this`available
      ensures available == 0
    {
      while available > 0 {
        available := available - 1;
      }
    }

    method DrainAcknowledged()
      modifies this`acknowledged
      ensures acknowledged == 0
    {
      while acknowledged > 0 {
        acknowledged := acknowledged - 1;
      }
    }

    // --- start() -----------------------------------------------------------------------------------------------

    /** Undo an installation whose twai_start() failed. */
    method UndoInstall(r: Replies) returns (cleanupRequired: bool)
      requires driver.installed && !driver.started && control.driverInstalled && !control.taskOwned
      modifies driver, control
      ensures cleanupRequired == driver.installed == control.driverInstalled == !r.uninstall
      ensures !driver.started && control.driverStarted == old(control.driverStarted) && !control.taskOwned
      ensures control.state == if driver.installed then Faulted else Stopped
    {
      var uninstalled := driver.Uninstall(r.uninstall);
      if uninstalled {
        control.MarkDriverInstalled(false);
      }
      control.Reconcile();
      return !uninstalled;
    }

    /** Undo a start whose task could not be created. */
    method UndoStart(r: Replies, spurious: nat) returns (cleanupRequired: bool)
      requires driver.installed && driver.started && control.driverInstalled && control.driverStarted
      requires control.state.Running?
      modifies this`receiveRequested, driver, control
      ensures !receiveRequested && !control.taskOwned
      ensures cleanupRequired == driver.installed == control.driverInstalled == !(r.stop && r.uninstall)
      ensures driver.started == control.driverStarted == !r.stop
      ensures control.state == if driver.installed then Faulted else Stopped
    {
      receiveRequested := false;
      control.AcknowledgeTask();
      var begun := control.BeginStop(spurious);
      cleanupRequired := true;
      var stopped := driver.Stop(r.stop);
      if stopped {
        control.MarkDriverStarted(false);
        var uninstalled := driver.Uninstall(r.uninstall);
        if uninstalled {
          control.MarkDriverInstalled(false);
          cleanupRequired := false;
        }
      }
      control.Reconcile();
    }

    /** Reset what belongs to the run that begins. */
    method ResetRun(id: nat, spurious: nat)
      requires frames.Valid() && frames.capacity == QUEUE_CAPACITY
      modifies this`busId, this`last, frames
      ensures frames.Valid() && frames.queue == [] && busId == id && last == ZERO_STATUS
      ensures frames.Live() ==
                Statistics(0, 0, 0, 0, 0, 0, 0, if hasStartedBefore then 1 else 0, 0, 0, 0, QUEUE_CAPACITY)
    {
      frames.Clear(spurious);
      busId := id;
      if hasStartedBefore {
        frames.RecordControllerReset(1);
      }
      last := ZERO_STATUS;
    }

    /** The part of a start() once the driver runs: reset what belongs to the run, and create the task. */
    method LaunchTask(id: nat, r: Replies, spurious: nat) returns (result: Result, cleanupRequired: bool)
      requires frames.Valid() && frames.capacity == QUEUE_CAPACITY && semaphores && !task
      requires control.Look() == Controller(Running, true, true, false) && driver.installed && driver.started
      requires available == acknowledged == 0
      modifies this, frames, driver, control
      ensures Valid() && semaphores && available == 0 && busId == id && last == ZERO_STATUS
      ensures result == if r.task then Ok else TaskFailure
      ensures cleanupRequired == driver.installed == (r.task || !(r.stop && r.uninstall))
      ensures control.state.Running? == result.Ok?
      ensures hasStartedBefore == (old(hasStartedBefore) || r.task)
      ensures frames.Live() ==
                Statistics(0, 0, 0, 0, 0, 0, 0, if old(hasStartedBefore) then 1 else 0, 0, 0, 0, QUEUE_CAPACITY)
      ensures frames.queue == []
    {
      hide FrameRing.Valid;
      ResetRun(id, spurious);
      receiveRequested := true;
      control.MarkTaskCreated();
      if !r.task {
        cleanupRequired := UndoStart(r, spurious);
        return TaskFailure, cleanupRequired;
      }
      task := true;
      hasStartedBefore := true;
      return Ok, true;
    }

    /** The part of a start() behind its admission. */
    method BringUp(id: nat, r: Replies, spurious: nat) returns (result: Result, cleanupRequired: bool)
      requires frames.Valid() && frames.capacity == QUEUE_CAPACITY && semaphores
      requires control.Look() == Controller(Running, false, false, false)
      requires !driver.installed && !driver.started && !task
      requires available == acknowledged == 0 && |frames.queue| <= QUEUE_CAPACITY
      modifies this, frames, driver, control
      ensures Valid() && semaphores
      ensures (result, cleanupRequired) == StartResult(true, Stopped, true, r)
      ensures driver.installed == cleanupRequired && control.state.Running? == result.Ok?
      ensures result.Ok? ==> available == 0 && busId == id && last == ZERO_STATUS
      ensures result.Ok? ==>
                frames.Live() ==
                  Statistics(0, 0, 0, 0, 0, 0, 0, if old(hasStartedBefore) then 1 else 0, 0, 0, 0, QUEUE_CAPACITY)
      ensures hasStartedBefore == (old(hasStartedBefore) || result.Ok?)
    {
      hide FrameRing.Valid;
      var installed := driver.Install(r.install);
      if !installed {
        control.AbortStart();
        return DriverFailure, false;
      }
      control.MarkDriverInstalled(true);
      var started := driver.Start(r.start);
      if !started {
        cleanupRequired := UndoInstall(r);
        return DriverFailure, cleanupRequired;
      }
      control.MarkDriverStarted(true);
      result, cleanupRequired := LaunchTask(id, r, spurious);
    }

    /** Create the semaphores if need be, and drain what an earlier run left in them. */
    method PrepareSemaphores(r: Replies) returns (ready: bool)
      modifies this`semaphores, this`available, this`acknowledged
      ensures ready == semaphores == (old(semaphores) || r.semaphores)
      ensures if ready then available == acknowledged == 0
              else available == old(available) && acknowledged == old(acknowledged)
    {
      semaphores := semaphores || r.semaphores;
      if !semaphores {
        return false;
      }
      DrainAvailable();
      DrainAcknowledged();
      return true;
    }

    method Start(valid: bool, id: nat, r: Replies, spurious: nat) returns (result: Result, cleanupRequired: bool)
      requires Valid()
      modifies Footprint()
      ensures Valid()
      ensures (result, cleanupRequired) == StartResult(valid, old(control.state), old(semaphores), r)
      ensures StartContract(old(driver.installed), driver.installed, StartFails(old(semaphores), r), result,
                            cleanupRequired)
      ensures old(driver.installed) || !valid ==>
                && control.Look() == old(control.Look()) && driver.installed == old(driver.installed)
                && driver.started == old(driver.started) && semaphores == old(semaphores)
                && available == old(available) && acknowledged == old(acknowledged) && task == old(task)
                && receiveRequested == old(receiveRequested) && last == old(last) && busId == old(busId)
                && frames.queue == old(frames.queue) && frames.Live() == old(frames.Live())
      ensures control.state.Running? ==
                (result.Ok? || (old(control.state).Running? && result in {InvalidConfiguration, AlreadyStarted}))
      ensures result.Ok? ==> available == 0 && frames.queue == [] && busId == id && last == ZERO_STATUS
      ensures hasStartedBefore == (old(hasStartedBefore) || result.Ok?)
    {
      hide FrameRing.Valid;
      ghost var state, had := control.state, semaphores;
      ghost var after := StartResult(valid, state, had, r).1 || driver.installed;
      StartResultIsContract(valid, state, driver.installed, after, had, r);
      if !valid {
        return InvalidConfiguration, false;
      }
      var begun := control.BeginStart();
      if !begun {
        return Rejection(control.state), false;
      }
      var ready := PrepareSemaphores(r);
      if !ready {
        control.AbortStart();
        return TaskFailure, false;
      }
      result, cleanupRequired := BringUp(id, r, spurious);
    }

    // --- stop() ------------------------------------------------------------------------------------------------

    /** The receive task, told to stop, leaves its loop and acknowledges. */
    method TaskEnds()
      requires task && acknowledged == 0
      modifies this`task, this`acknowledged, control`taskOwned
      ensures !task && acknowledged == 1 && !control.taskOwned
    {
      control.AcknowledgeTask();
      acknowledged := 1;
      task := false;
    }

    /** The bounded wait for the task's acknowledgement, or the poll for one already given. */
    method AwaitTask(r: Replies) returns (stopped: bool)
      requires control.taskOwned == task && acknowledged <= 1 && (task ==> acknowledged == 0)
      modifies this`task, this`acknowledged, control`taskOwned
      ensures stopped == !task == !control.taskOwned == !(old(task) && !r.acknowledges)
      ensures acknowledged == 0
    {
      if !control.taskOwned {
        if acknowledged > 0 {
          acknowledged := acknowledged - 1;
        }
        return true;
      }
      if r.acknowledges {
        TaskEnds();
      }
      stopped := acknowledged > 0;
      if stopped {
        acknowledged := acknowledged - 1;
        control.AcknowledgeTask();
      }
    }

    method HaltDriver(r: Replies) returns (stopped: bool)
      requires control.driverStarted == driver.started
      modifies driver`started, control`driverStarted
      ensures stopped == !driver.started == !control.driverStarted == !(old(driver.started) && !r.stop)
    {
      stopped := !control.driverStarted;
      if !stopped {
        stopped := driver.Stop(r.stop);
        if stopped {
          control.MarkDriverStarted(false);
        }
      }
    }

    /** Uninstall the driver once it is stopped and the task is gone. */
    method ReleaseDriver(r: Replies, driverStopped: bool, taskStopped: bool) returns (uninstalled: bool)
      requires control.driverInstalled == driver.installed && driverStopped == !driver.started
      modifies driver`installed, control`driverInstalled
      ensures uninstalled == !driver.installed == !control.driverInstalled
      ensures driver.installed == (old(driver.installed) && !(driverStopped && taskStopped && r.uninstall))
    {
      uninstalled := !control.driverInstalled;
      if driverStopped && taskStopped && !uninstalled {
        uninstalled := driver.Uninstall(r.uninstall);
        if uninstalled {
          control.MarkDriverInstalled(false);
        }
      }
    }

    /** Store the state that ownership determines, drain a finished run, and report. */
    method ConcludeStop(driverStopped: bool, taskStopped: bool, uninstalled: bool) returns (result: Result)
      requires frames.Valid() && frames.capacity == QUEUE_CAPACITY && |frames.queue| <= QUEUE_CAPACITY
      requires driverStopped == !driver.started == !control.driverStarted
      requires uninstalled == !driver.installed == !control.driverInstalled
      requires uninstalled ==> driverStopped && taskStopped
      requires taskStopped == !task == !control.taskOwned && acknowledged == 0 && (task ==> semaphores)
      requires available <= QUEUE_CAPACITY && (!semaphores ==> available == 0)
      modifies this`available, control`state
      ensures Valid() && control.state == Reconciled(control.Look())
      ensures result == if !taskStopped then TaskFailure else if uninstalled then Ok else DriverFailure
      ensures available == if result.Ok? then 0 else old(available)
    {
      hide FrameRing.Valid;
      control.Reconcile();
      if driverStopped && taskStopped && uninstalled {
        DrainAvailable();
        return Ok;
      }
      return if taskStopped then DriverFailure else TaskFailure;
    }

    /** Success releases driver and task and drains the tokens; the frames stay in the ring. */
    method Stop(r: Replies, spurious: nat) returns (result: Result)
      requires Valid()
      modifies this, driver, control
      ensures Valid() && result == StopResult(old(control.Look()), r)
      ensures StopContract(old(driver.installed), driver.installed, result in {DriverFailure, TaskFailure}, result)
      ensures control.state == match result
                               case TaskFailure => Stopping
                               case DriverFailure => Faulted
                               case _ => Stopped
      ensures result.Ok? ==> available == acknowledged == 0 && !task
      ensures !result.NotStarted? ==> !receiveRequested
      ensures !result.Ok? ==> available == old(available)
    {
      hide FrameRing.Valid;
      var begun := control.BeginStop(spurious);
      if !begun {
        return NotStarted;
      }
      receiveRequested := false;
      var driverStopped := HaltDriver(r);
      var taskStopped := AwaitTask(r);
      var uninstalled := ReleaseDriver(r, driverStopped, taskStopped);
      result := ConcludeStop(driverStopped, taskStopped, uninstalled);
    }

    // --- receive() ---------------------------------------------------------------------------------------------

    /** With nobody else moving: the oldest frame, or a time-out of an empty ring; never a token without a frame. */
    method Receive() returns (result: Result, frame: Popped)
      requires Valid()
      modifies this, frames
      ensures Valid()
      ensures result == match control.state
                        case Stopped => NotStarted
                        case Stopping => StoppingNow
                        case Faulted => FaultedNow
                        case Running => if old(frames.queue) == [] then Timeout else Ok
      ensures frame == if result.Ok? then Frame(old(frames.queue)[0]) else NoFrame
      ensures frames.queue == if result.Ok? then old(frames.queue)[1..] else old(frames.queue)
    {
      if !control.state.Running? {
        return Refusal(control.state), NoFrame;
      }
      if available == 0 {
        return Timeout, NoFrame;
      }
      available := available - 1;
      frame := frames.Pop();
      return if frame.Frame? then Ok else DriverFailure, frame;
    }

    // --- the receive task --------------------------------------------------------------------------------------

    /** Only a new fault gives a wakeup, which a full semaphore refuses. */
    method LatchTerminalFault(spurious: nat)
      requires available <= QUEUE_CAPACITY
      modifies this`receiveRequested, this`available, control`state
      ensures !receiveRequested
      ensures control.state == if old(control.state).Stopped? then Stopped else Faulted
      ensures available == if (old(control.state).Running? || old(control.state).Stopping?) && semaphores
                              && old(available) < QUEUE_CAPACITY
                           then old(available) + 1 else old(available)
    {
      receiveRequested := false;
      var latched := control.LatchFault(spurious);
      if latched && semaphores {
        GiveAvailable();
      }
    }

    method CollectDriverStatus(ok: bool, status: Status, spurious: nat) returns (on: bool)
      requires frames.Valid() && available <= QUEUE_CAPACITY
      modifies this`receiveRequested, this`available, this`last, control`state, frames`busErrors, frames`driverRxMissed
      ensures on == ok && frames.Valid()
      ensures last == if ok then status else old(last)
      ensures frames.busErrors ==
                old(frames.busErrors) + if ok then CounterDelta(status.busErrors, old(last).busErrors) else 0
      ensures frames.driverRxMissed ==
                old(frames.driverRxMissed) +
                if ok
                then CounterDelta(status.rxMissed, old(last).rxMissed)
                     + CounterDelta(status.rxOverrun, old(last).rxOverrun)
                else 0
      ensures ok ==> receiveRequested == old(receiveRequested) && available == old(available)
      ensures ok ==> control.state == old(control.state)
      ensures !ok ==> !receiveRequested && control.state == if old(control.state).Stopped? then Stopped else Faulted
      ensures !ok && old(control.state).Running? && semaphores ==>
                available == if old(available) < QUEUE_CAPACITY then old(available) + 1 else QUEUE_CAPACITY
    {
      if !ok {
        LatchTerminalFault(spurious);
        return false;
      }
      frames.RecordBusError(CounterDelta(status.busErrors, last.busErrors));
      frames.RecordDriverRxMissed(CounterDelta(status.rxMissed, last.rxMissed)
                                  + CounterDelta(status.rxOverrun, last.rxOverrun));
      last := status;
      return true;
    }

    method CollectAlerts(alerts: Alerts, spurious: nat) returns (on: bool)
      requires frames.Valid() && available <= QUEUE_CAPACITY && control.state.Running? && semaphores
      modifies this`receiveRequested, this`available, control`state, frames`busOffEvents
      ensures on == alerts.NoAlert? && frames.Valid()
      ensures frames.busOffEvents == old(frames.busOffEvents) + if alerts.BusOff? then 1 else 0
      ensures on ==> receiveRequested == old(receiveRequested) && available == old(available) && control.state.Running?
      ensures !on ==> !receiveRequested && control.state.Faulted?
      ensures !on ==> available == if old(available) < QUEUE_CAPACITY then old(available) + 1 else QUEUE_CAPACITY
    {
      if alerts.NoAlert? {
        return true;
      }
      if alerts.BusOff? {
        frames.RecordBusOff(1);
      }
      LatchTerminalFault(spurious);
      return false;
    }

    /** What twai_receive() delivered; a valid frame that finds room is signalled. */
    method TakeReception(r: Round, spurious: nat)
      requires Valid() && control.state.Running? && !r.reception.Broken?
      modifies this`available, frames, frames.frames
      ensures Valid() && frames.queue == Enqueue(old(frames.queue), r)
      ensures frames.queue == old(frames.queue)
                + if r.reception.ValidFrame? && |old(frames.queue)| < 64 then [r.frame] else []
      ensures frames.framesReceived == old(frames.framesReceived) + if r.reception.ValidFrame? then 1 else 0
      ensures frames.busErrors == old(frames.busErrors)
      ensures frames.driverRxMissed == old(frames.driverRxMissed) + if r.reception.InvalidFrame? then 1 else 0
    {
      if r.reception.InvalidFrame? {
        frames.RecordDriverRxMissed(1);
      } else if r.reception.ValidFrame? {
        var pushed := frames.Push(r.frame, spurious);
        if pushed {
          GiveAvailable();
        }
      }
    }

    /** One round of the loop; a terminal round leaves the fault latched and the consumer's wakeup given. */
    method ReceiveRound(r: Round, spurious: nat) returns (on: bool)
      requires Valid() && control.state.Running?
      modifies Footprint()
      ensures on == !TerminalRound(r)
      ensures task == old(task)
      ensures frames.queue == if r.reception.Broken? then old(frames.queue) else Enqueue(old(frames.queue), r)
      ensures on ==> Valid() && control.state.Running?
      ensures !on ==> FaultPending()
      ensures last == if Reads(r) then r.status else old(last)
      ensures frames.busErrors ==
                old(frames.busErrors) + if Reads(r) then CounterDelta(r.status.busErrors, old(last).busErrors) else 0
      ensures frames.driverRxMissed ==
                old(frames.driverRxMissed) + (if r.reception.InvalidFrame? then 1 else 0)
                + if Reads(r)
                  then CounterDelta(r.status.rxMissed, old(last).rxMissed)
                       + CounterDelta(r.status.rxOverrun, old(last).rxOverrun)
                  else 0
    {
      hide CounterDelta;
      if r.reception.Broken? {
        LatchTerminalFault(spurious);
        return false;
      }
      TakeReception(r, spurious);
      on := CollectDriverStatus(r.statusOk, r.status, spurious);
      if on {
        on := CollectAlerts(r.alerts, spurious);
      }
    }

    /** A fault is latched and signalled, and the task has still to acknowledge. */
    ghost predicate FaultPending()
      reads Footprint()
    {
      && Valid() && control.state.Faulted? && task && !receiveRequested
      && available == if |frames.queue| < QUEUE_CAPACITY then |frames.queue| + 1 else QUEUE_CAPACITY
    }

    /**
     The receive task over the given rounds. Without a terminal round the tokens match the queued frames; after one
     the bus is faulted, the task has acknowledged, and a blocked consumer has a token to wake up on.
    */
    method RunReceiveTask(rounds: seq<Round>, spurious: nat)
      requires Valid() && control.state.Running?
      modifies Footprint()
      ensures Valid() && frames.queue == QueueAfter(old(frames.queue), rounds)
      ensures TakesHeard(old(frames.queue), rounds, frames.queue, control.state.Running?)
      ensures !Ends(rounds) ==> control.state.Running? && task && available == |frames.queue|
      ensures Ends(rounds) ==> control.state.Faulted? && !task && acknowledged == 1 && available >= 1
      ensures frames.busErrors == old(frames.busErrors) + Added(BusErrors, old(last), rounds)
      ensures frames.driverRxMissed ==
                old(frames.driverRxMissed) + Added(RxMissed, old(last), rounds) + Added(RxOverrun, old(last), rounds)
                + InvalidFrames(rounds)
    {
      hide CounterDelta, TakesHeard;
      var i, on := 0, true;
      while receiveRequested && on && i < |rounds|
        invariant i <= |rounds| && Valid() && task
        invariant on ==> control.state.Running?
        invariant on ==> QueueAfter(old(frames.queue), rounds) == QueueAfter(frames.queue, rounds[i..])
        invariant on ==> Ends(rounds) == Ends(rounds[i..])
        invariant !on ==> FaultPending() && Ends(rounds) && frames.queue == QueueAfter(old(frames.queue), rounds)
        invariant old(frames.busErrors) + Added(BusErrors, old(last), rounds) ==
                    frames.busErrors + if on then Added(BusErrors, last, rounds[i..]) else 0
        invariant old(frames.driverRxMissed) + Added(RxMissed, old(last), rounds) + Added(RxOverrun, old(last), rounds)
                  + InvalidFrames(rounds) ==
                    frames.driverRxMissed
                    + if on then Added(RxMissed, last, rounds[i..]) + Added(RxOverrun, last, rounds[i..])
                                 + InvalidFrames(rounds[i..]) else 0
      {
        on := ReceiveRound(rounds[i], spurious);
        assert rounds[i..][1..] == rounds[i + 1..];
        i := i + 1;
      }
      if !on {
        TaskEnds();
      }
      TaskTakesHeard(old(frames.queue), rounds);
    }
  }
}
