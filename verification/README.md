# Verification of the receive path

This project models the receive path of the vehicle telemetry components and proves what they promise. It follows
the path from the CAN driver to the application:

- **The frame ring** between the receive task and its consumer, once as an object with an array of slots
  (`FrameRing.dfy`), once as a machine whose steps are the single atomic loads, stores and exchanges of a producer, a
  consumer and any number of statistics observers (`RingMachine.dfy`, with its invariant in `RingSafety.dfy` and the
  results in `RingFifo.dfy`, `RingWatermark.dfy`, `RingPeak.dfy`, `RingStatistics.dfy` and, for one operation that
  nobody disturbs, `RingProgress.dfy`). `RingWords.dfy`, `RingWordsFifo.dfy` and `RingLapped.dfy` treat index words
  that wrap.
- **The acquisition lifecycle** of the process-wide CAN bus: the controller (`Lifecycle.dfy`) and the bus with its
  receive task (`CanBus.dfy`) as objects, and a machine that interleaves `start()`/`stop()`, the receive task and the
  consumer while any driver call may fail (`BusMachine.dfy`). `BusOwnership.dfy` holds the invariant of every run,
  `BusSafety.dfy` that of the runs with prompt acknowledgements; `BusTheorems.dfy`, `BusProgress.dfy`,
  `BusReturns.dfy` (that every call returns), `BusFailures.dfy` (what it reports), `BusTask.dfy` (the receive task) and
  `BusFrames.dfy` (the frames in the ring) draw the results, `BusDelayedAck.dfy` and `BusStarvation.dfy` show what a
  late acknowledgement costs. `DriverCounters.dfy` treats the cumulative driver counters.
- **The source binding**: one source object (`SourceObject.dfy`) and any number of them sharing the bus
  (`SourceBinding.dfy`).
- **The runtime**: the calls it makes on its source (`SourceLedger.dfy`), its object (`RuntimeObject.dfy`), the machine
  of any number of calling threads beside the worker (`RuntimeMachine.dfy`, with its invariant in
  `RuntimeSafety.dfy` and the results in `RuntimeTheorems.dfy`, `RuntimeAnswers.dfy` (what the calls return) and
  `RuntimeProgress.dfy` (that they return)), and the composition of runtime, source and bus: over any bus that keeps its contract
  (`AcquisitionStack.dfy`, `AcquisitionStop.dfy`), and over the bus machine itself, all of it interleaved
  (`AcquisitionBus.dfy`, `AcquisitionStart.dfy`, `AcquisitionRelease.dfy`).
- **The worker**: its loop (`Worker.dfy`), the work budget (`WorkBudget.dfy`), the budget pause (`BudgetPause.dfy`), the
  transport diagnostics (`Diagnostics.dfy`) and the statistics cache (`StatisticsCache.dfy`).
- **Signals** (`Signal.dfy`): observed values whose meaning does not depend on the order of arrival.

`dafny verify dfyconfig.toml` checks everything. A machine is a total step function: an action that its thread cannot
take leaves the state alone, a run is the fold of a sequence of actions, and a theorem about a run holds for every
sequence. Misuse (installing a driver twice, overwriting a worker) is not excluded by the steps but logged, so that
its absence is a result.

## What the proofs found

- The transport health can lose a fault. The worker marks the transport Faulted when it updates the diagnostics, but
  stores the lifecycle only after the callbacks; a `diagnostics()` call in between still sees Running and, once the
  silence timeout has passed, overwrites Faulted with TimedOut. `Diagnosing.FaultStaysVisibleIff` states exactly when
  this happens, also beside a stop(); `Diagnosing.FaultCanBeMasked` gives an instance.
- The receive task gives up its ownership before it gives its acknowledgement, and can be delayed in between. That is
  harmless as long as no start creates the next task before that acknowledgement has been given and taken or drained
  (`BusMachine.Prompt`). Otherwise the next stop can uninstall the driver under the running task, and a later run can
  have a token without a frame, a `receive()` that answers DriverFailure and a consumer that waits for a wakeup given
  already. `BusDelayedAck.PromptIffSafe` and `BusStarvation.PromptIffServed` prove that the condition is exact for all
  of these, `BusDelayedAck.LateAcknowledgementIsUnsafe` gives a run that breaks it.
- The contracts of `start()` and `stop()`, the ownership of the driver, the latched fault and everything the runtime
  builds on them do not depend on that condition: `BusTheorems.DriverStaysInOrder`, `BusTheorems.CallsKeepTheirContract`,
  `BusTheorems.FaultIsNeverMissed`, `BusProgress.StopCanSucceed`, `BusProgress.StartCanSucceed` and the results of
  `AcquisitionBus.dfy` and `AcquisitionRelease.dfy` hold in every run.
- The depth read accepts a wrong depth if the tail word comes full circle while the reader is delayed
  (`RingLapped.LappedSampleCanBeWrong`, for every width of the word); `RingWordsFifo.LappedSampleIsExactIff` says
  exactly when the sample is right. The queue itself is not affected (`RingWordsFifo.WordsKeepOrder`).

## Assumptions

- Lifecycle calls on the CAN bus are serialized, and the consumer is stopped before a restart, as the repository's own
  design notes and headers require. Runtime lifecycle calls need no such assumption: below a runtime both hold in
  every run by `AcquisitionBus.BusCallsAreSerialized`.
- Atomics are sequentially consistent. Driver calls, task creation, the bounded wait and the source, processor and
  observer of the runtime answer arbitrarily.
- Objects are destroyed only when no call on them is in progress, and nothing is called afterwards.

## Model

| member | source | states |
|---|---|---|
| `RingSafety.RunKeepsInv` | components/can_bus/private_include/can_bus/frame_ring.hpp:47-140 | In every interleaving of one producer, one consumer and any number of observers, clear() included, the indices, the slots and what each thread remembers stay consistent: the queued frames are in their slots, and no thread holds an index the others have overtaken |
| `RingFifo.StepRefines` | components/can_bus/private_include/can_bus/frame_ring.hpp:47-140 | Each atomic step is one step of a bounded drop-newest FIFO or none: accepted at the head store, delivered at the tail store, rejected only if the queue was full when tail was loaded, empty only if it was empty when head was loaded, discarded as a whole by clear() |
| `RingFifo.RunRefinesFifo` | components/can_bus/private_include/can_bus/frame_ring.hpp:40-140 | Whole runs, clear() included: the history replays on the FIFO and ends in exactly the frames still queued; the frames that left, delivered or discarded, followed by the queued frames are the accepted frames in order; never more than the capacity |
| `RingFifo.SlotsNeverCollide` | components/can_bus/private_include/can_bus/frame_ring.hpp:57-74 | The slot being written is never the slot being read |
| `RingFifo.DepthReadIsExact` | components/can_bus/private_include/can_bus/frame_ring.hpp:17-38 | The retrying depth read returns exactly the depth at the instant of its accepted head load; the out-of-capacity retry is never taken and every retry is paid for by a frame that left since the read began |
| `RingWatermark.WatermarkCoversDepth` | components/can_bus/private_include/can_bus/frame_ring.hpp:57-140 | The watermark never exceeds the capacity and, whenever no push is between head store and raise and no reset between exchange and reconciliation, is at least the live depth; clear() among observers keeps this |
| `RingPeak.WatermarkFollowsPeak` | components/can_bus/private_include/can_bus/frame_ring.hpp:57-133 | From above: in every interleaving, for any observers and resets, the watermark is at most one more than the largest head minus tail reached so far |
| `RingPeak.UndisturbedPushMarks` | components/can_bus/private_include/can_bus/frame_ring.hpp:47-65 | Wherever a run has led: a push that nobody disturbs from its tail load on ends within six successful steps, however often its exchange fails in between; with room the watermark is then the larger of what it was and the new head minus tail, without room what it was |
| `RingProgress.UndisturbedRaise` | components/can_bus/private_include/can_bus/frame_ring.hpp:150-155 | From every reachable point of it, an undisturbed raise ends within three steps with the larger of mark and depth |
| `RingProgress.OnlyResetsLowerMark` | components/can_bus/private_include/can_bus/frame_ring.hpp:150-162 | In every interleaving, nothing but the exchange of a reset and the last store of clear() lowers the watermark |
| `RingStatistics.CountersAreConserved` | components/can_bus/private_include/can_bus/frame_ring.hpp:95-133 | For each counter, in every interleaving and on index words of any width, lapped observers included: all reported resets, plus what resets in progress hold, plus the live value, equal all events ever recorded |
| `RingStatistics.TotalsBalance` | components/can_bus/private_include/can_bus/frame_ring.hpp:47-140 | On index words of any width: with no push in progress received = queued + dropped and overflows = dropped; with no pop in progress either, the frames in the ring are those queued and neither delivered nor discarded by clear() |
| `RingProgress.NewRingIsEmpty` | components/can_bus/private_include/can_bus/frame_ring.hpp:164-176 | A new ring is empty, at rest and has counted nothing |
| `RingStatistics.EventsAreReportedOnce` | components/can_bus/private_include/can_bus/frame_ring.hpp:79-133 | The pushes begun, and the bus errors, missed frames, controller resets and bus-off events that a run was told of, each with its count, are in exactly one place: a completed report, a reset under way or the live counter |
| `RingProgress.UndisturbedPop` | components/can_bus/private_include/can_bus/frame_ring.hpp:67-77 | Wherever a run has led, an undisturbed pop takes two steps on an empty ring and changes nothing, and otherwise takes five: the oldest queued frame has left, one delivery is counted, nothing else has changed |
| `RingProgress.UndisturbedSnapshot` | components/can_bus/private_include/can_bus/frame_ring.hpp:95-133 | Wherever a run has led, an undisturbed snapshot without a reset changes nothing; one with a reset reports all counters, leaves them at zero and the watermark at the live depth |
| `RingProgress.UndisturbedClear` | components/can_bus/private_include/can_bus/frame_ring.hpp:135-140 | Wherever a run has led, clear() without a push or pop leaves an empty queue, every counter and the watermark at zero and the counters reported |
| `RingWords.RunWraps` | components/can_bus/private_include/can_bus/frame_ring.hpp:49-74 | On words modulo m, for every capacity that divides m, a run in which no depth read sees m frames leave between its two tail loads is the exact image of the run on unbounded indices, observers, watermark, counters and reports included |
| `RingWords.SizeTWords` | components/can_bus/private_include/can_bus/frame_ring.hpp:43-44 | The capacity of 64 satisfies that condition for 32-bit and 64-bit words |
| `RingWordsFifo.StepTwins` | components/can_bus/private_include/can_bus/frame_ring.hpp:47-133 | Each step on words, of any thread, keeps the words the image of an unbounded ring without observers: observers only move watermark and counters |
| `RingWordsFifo.WordsKeepOrder` | components/can_bus/private_include/can_bus/frame_ring.hpp:47-77 | On words, for any observers, lapped or not: head and tail count the frames accepted and left modulo m, the frames that left followed by the slots between the words are the accepted frames in order, the watermark is within the capacity, and the slot being written is not the slot being read |
| `RingWordsFifo.WordsRefineFifo` | components/can_bus/private_include/can_bus/frame_ring.hpp:47-140 | On words, for any observers, the history is a legal one of the bounded drop-newest FIFO and ends in its queue |
| `RingWordsFifo.LappedSampleIsExactIff` | components/can_bus/private_include/can_bus/frame_ring.hpp:24-37 | On words, for every run and every observer, however often it was lapped before: a depth read ends with the depth at its head load if and only if its two tail loads agree and the tail word was the same at the head load; the code checks the first half only |
| `RingLapped.LappedSampleCanBeWrong` | components/can_bus/private_include/can_bus/frame_ring.hpp:24-37 | For every capacity and every word above it there is a run in which an observer delayed across a whole turn of the tail word accepts depth 0 with one frame queued |
| `FrameRings.CoherentDepth` | components/can_bus/private_include/can_bus/frame_ring.hpp:24-38 | The loop returns the distance of the first round whose two tail loads agree and whose distance is within the capacity, whatever the loads return |
| `FrameRings.SlotsOfWordsDiffer` | components/can_bus/private_include/can_bus/frame_ring.hpp:57-73 | Words less than a capacity apart have different slots, across the wrap of the word |
| `FrameRings.MaximumBounds` | components/can_bus/private_include/can_bus/frame_ring.hpp:150-162 | The interval maximum bounds every depth of the interval and is one of them |
| `FrameRings.FrameRing.constructor` | components/can_bus/private_include/can_bus/frame_ring.hpp:164-176 | An empty ring with zero counters |
| `FrameRings.FrameRing.RaiseWatermark` | components/can_bus/private_include/can_bus/frame_ring.hpp:150-162 | The compare-exchange loop ends with the larger of mark and depth however often the weak exchange fails |
| `FrameRings.FrameRing.Push` | components/can_bus/private_include/can_bus/frame_ring.hpp:47-65 | Appends to the queue exactly if there is room, else drops the frame and counts an overflow; the high watermark equals the maximum depth since the last reset |
| `FrameRings.FrameRing.Pop` | components/can_bus/private_include/can_bus/frame_ring.hpp:67-77 | Delivers and removes the oldest frame, or reports an empty ring and changes nothing |
| `FrameRings.FrameRing.TakeSnapshot` | components/can_bus/private_include/can_bus/frame_ring.hpp:95-133 | Reports the live statistics; a reset keeps the queue, zeroes the counters and restarts the watermark at the live depth |
| `FrameRings.FrameRing.Clear` | components/can_bus/private_include/can_bus/frame_ring.hpp:135-140 | Discards the queue and leaves every counter and the watermark at zero |
| `FrameRings.FrameRing.Depth` | components/can_bus/private_include/can_bus/frame_ring.hpp:143-148 | Alone, the depth read is the number of queued frames |
| `FrameRings.FrameRing.RecordBusError` | components/can_bus/private_include/can_bus/frame_ring.hpp:79-81 | Adds to its counter and touches nothing else |
| `FrameRings.FrameRing.RecordDriverRxMissed` | components/can_bus/private_include/can_bus/frame_ring.hpp:83-85 | Adds to its counter and touches nothing else |
| `FrameRings.FrameRing.RecordControllerReset` | components/can_bus/private_include/can_bus/frame_ring.hpp:87-89 | Adds to its counter and touches nothing else |
| `FrameRings.FrameRing.RecordBusOff` | components/can_bus/private_include/can_bus/frame_ring.hpp:91-93 | Adds to its counter and touches nothing else |
| `LifecycleControl.LifecycleController.BeginStart` | components/can_bus/private_include/can_bus/lifecycle.hpp:20-26 | Reserves the controller only from Stopped |
| `LifecycleControl.LifecycleController.AbortStart` | components/can_bus/private_include/can_bus/lifecycle.hpp:29-35 | Returns to Stopped unless something is owned |
| `LifecycleControl.LifecycleController.BeginStop` | components/can_bus/private_include/can_bus/lifecycle.hpp:65-82 | Accepts from every state but Stopped and leaves Stopping, however often the weak exchange fails |
| `LifecycleControl.LifecycleController.LatchFault` | components/can_bus/private_include/can_bus/lifecycle.hpp:84-102 | Only a new fault from Running or Stopping is reported as latched; a stopped controller takes none |
| `LifecycleControl.LifecycleController.Reconcile` | components/can_bus/private_include/can_bus/lifecycle.hpp:104-115 | The state afterwards is the one that ownership alone determines |
| `BusSafety.RunKeepsInv` | components/can_bus/src/can_bus.cpp:106-343 | The invariant of start, stop, receive task and consumer, interleaved, for every pattern of driver and creation failures and every run in which no task is created before the acknowledgement of its predecessor is settled |
| `BusOwnership.RunKeepsOwnership` | components/can_bus/src/can_bus.cpp:106-343 | The invariant of every run, late acknowledgements and further tasks included: at each point of start and stop the controller's flags, the driver's and the record of the call agree, and no task is about to latch Stopped or Faulted |
| `BusTheorems.DriverStaysInOrder` | components/can_bus/src/can_bus.cpp:144-299 | In every run: an install is reached only with nothing installed, a driver start only with an installed and stopped driver, an uninstall only with a stopped one and a driver stop only with a started one; Stopped means nothing is installed, started or owned; ring and semaphore stay within their capacity |
| `BusTheorems.DriverIsNeverMisused` | components/can_bus/src/can_bus.cpp:144-299 | With prompt acknowledgements there is no misuse at all: an uninstall or a new task is reached only when every task is past its loop, and there is at most one task; Stopped leaves at most a task that still has its acknowledgement to give |
| `BusTheorems.TokensMatchFrames` | components/can_bus/src/can_bus.cpp:121-125 | In every prompt run, while Running after a completed start: ring depth = tokens + a push not yet signalled + a token taken but not yet popped; no frame signal saturates the semaphore |
| `BusTheorems.ReceiveNeverFindsTheRingEmpty` | components/can_bus/src/can_bus.cpp:303-343 | In every prompt run a receive that takes a token and still sees Running pops a frame; the driver-failure result is never returned |
| `BusTheorems.FaultIsNeverMissed` | components/can_bus/src/can_bus.cpp:303-343 | In every run: once a fault is latched the state is not Running, and every state check of a receive answers FaultedNow, StoppingNow or NotStarted for Faulted, Stopping or Stopped instead of Ok or Timeout |
| `BusTheorems.ReceiveTellsState` | components/can_bus/src/can_bus.cpp:303-343 | On any bus: a receive waits, and after its wait goes on, exactly while Running and otherwise answers the state; the wait takes a token if there is one; Ok only with a frame, Timeout only after a wait without a token |
| `BusTheorems.FaultStaysLatched` | components/can_bus/src/can_bus.cpp:56-64 | Only a start that really begins a run forgets the fault |
| `BusTheorems.BlockedConsumerIsWoken` | components/can_bus/src/can_bus.cpp:56-64 | In every prompt run, after the wakeup and before a stop drains, a consumer blocked in its wait has a token, even if the give was refused by a full semaphore |
| `BusTheorems.CallsKeepTheirContract` | components/can_bus/src/can_bus.cpp:144-299 | In every interleaving, late acknowledgements included, start reports required cleanup exactly when it leaves the driver installed, and stop succeeds exactly when it releases it; NotStarted exactly when nothing was installed |
| `BusTheorems.RejectionTellsState` | components/can_bus/src/can_bus.cpp:144-161 | In every run a start that is not admitted changes nothing and answers InvalidConfiguration first, else AlreadyStarted, StoppingNow or FaultedNow for the state it finds |
| `BusFailures.FailuresAreNamed` | components/can_bus/src/can_bus.cpp:144-299 | In every interleaving: start answers TaskFailure exactly if a semaphore or the task could not be created, DriverFailure exactly if the driver could not be installed or started; stop answers TaskFailure exactly if the task did not acknowledge in time, DriverFailure exactly if it did and the driver could not be released |
| `BusDelayedAck.BreachDooms` | components/can_bus/src/can_bus.cpp:137-138 | From every reachable bus whatsoever, creating a task while an earlier acknowledgement is outstanding lets some continuation without a further start uninstall the driver under it |
| `BusDelayedAck.PromptIffSafe` | components/can_bus/src/can_bus.cpp:106-299 | A run is prompt if and only if from each of its points between two lifecycle calls every continuation without a further start leaves the driver unmisused |
| `BusDelayedAck.LateAcknowledgementIsUnsafe` | components/can_bus/src/can_bus.cpp:137-138 | There is a run in which a late acknowledgement leads to the driver being uninstalled under the new task |
| `BusStarvation.PromptIffServed` | components/can_bus/src/can_bus.cpp:303-343 | A run is prompt if and only if, however any part of it goes on without a breach of its own, tokens match frames; if and only if no receive answers DriverFailure; and if and only if a consumer that waits after a fault's wakeup has a token |
| `BusStarvation.BreachStarves` | components/can_bus/src/can_bus.cpp:106-140 | From every reachable bus whatsoever, creating a task while an earlier acknowledgement is outstanding lets some continuation without a further breach reach a Running bus at rest with a token and no frame |
| `BusFrames.ReceiveAnswersInOrder` | components/can_bus/src/can_bus.cpp:106-140 | In every interleaving of start, stop, receive tasks and receive: frames answered followed by frames queued are the frames accepted since the ring was last cleared, in order; receive answers with the oldest, and DriverFailure exactly when there is none |
| `BusProgress.StopEnds` | components/can_bus/src/can_bus.cpp:248-299 | From every point of a stop that has met no failure, steps that do not fail lead to its return with Ok and the driver released |
| `BusProgress.StopCanSucceed` | components/can_bus/src/can_bus.cpp:248-299 | So from every reachable bus at rest with the driver installed, in any run |
| `BusProgress.StartCanSucceed` | components/can_bus/src/can_bus.cpp:144-242 | From every reachable bus at rest, Stopped and without a receive in progress, steps of a start in which nothing fails lead to Ok: driver running, one task more, ring, semaphore and acknowledgement empty |
| `BusReturns.EveryCallReturns` | components/can_bus/src/can_bus.cpp:144-299 | From every point of every lifecycle call, in any bus whatsoever and for every pattern of failing driver calls and creations, the call comes to its return; the one wait, for an acknowledgement, is bounded |
| `BusReturns.StopExchanges` | components/can_bus/private_include/can_bus/lifecycle.hpp:65-82 | In any bus: a stop moves the state to Stopping only by an exchange on the state it has seen, and otherwise looks again |
| `BusReturns.FailedTaskIsTakenBack` | components/can_bus/src/can_bus.cpp:223-232 | In any bus: after a failed creation of the task request and task ownership are withdrawn and Running is left before the driver is stopped |
| `BusReturns.NewBusIsStopped` | components/can_bus/src/can_bus.cpp:26-38 | A new bus is Stopped and at rest |
| `BusTask.UndisturbedRound` | components/can_bus/src/can_bus.cpp:106-140 | One round of the receive task, from any bus: a valid frame enters the ring if there is room and gives one token if there is room, an invalid one and an idle poll change nothing; the task goes on exactly if both status reads are clean |
| `BusTask.BrokenReception` | components/can_bus/src/can_bus.cpp:126-132 | A failed reception leads to the latching of the fault |
| `BusTask.FaultIsLatched` | components/can_bus/src/can_bus.cpp:56-64 | From any bus: the receive request is withdrawn first; Running and Stopping become Faulted with one token if the semaphore exists and has room, Faulted and Stopped stay as they are |
| `BusTask.ExchangeLooksAgain` | components/can_bus/private_include/can_bus/lifecycle.hpp:84-102 | An exchange that fails, spuriously or because the state has changed, looks at the new state |
| `BusTask.StoppedTaskLeaves` | components/can_bus/src/can_bus.cpp:107-140 | A task that is no longer requested leaves its loop; ownership is given up and one acknowledgement given, with or without a delay in between |
| `CanBuses.StartResultIsContract` | components/can_bus/src/can_bus.cpp:144-242 | For every combination of failing calls the result of start and its cleanup flag satisfy the contract the sources rely on |
| `CanBuses.StartNamesFailure` | components/can_bus/src/can_bus.cpp:144-242 | Each result of start, and the cleanup flag, if and only if: configuration, then state, then semaphores, install, start and task in the order in which they are tried |
| `CanBuses.StopNamesOwner` | components/can_bus/src/can_bus.cpp:248-299 | Each result of stop if and only if: NotStarted when Stopped, TaskFailure for a task that is left, DriverFailure for a driver that is left |
| `CanBuses.CanBus.constructor` | components/can_bus/src/can_bus.cpp:26-38 | Nothing owned, nothing queued, no start yet |
| `CanBuses.CanBus.Start` | components/can_bus/src/can_bus.cpp:144-242 | Exact result and cleanup flag; Running only after success, then with an empty ring, no tokens and zero last-seen counters; a refused start changes nothing: controller, driver, task, semaphores, ring and statistics, readings |
| `CanBuses.CanBus.BringUp` | components/can_bus/src/can_bus.cpp:181-241 | Behind the admission: every failure path undoes what it can and leaves the state that ownership determines; a restart records one controller reset |
| `CanBuses.CanBus.PrepareSemaphores` | components/can_bus/src/can_bus.cpp:163-179 | Created at most once and drained of what an earlier run left |
| `CanBuses.CanBus.LaunchTask` | components/can_bus/src/can_bus.cpp:207-241 | Once the driver runs: ring, tokens and counters belong to the new run; a failed creation keeps ownership exactly when the driver cannot be released |
| `CanBuses.CanBus.UndoInstall` | components/can_bus/src/can_bus.cpp:195-206 | A failed twai_start keeps ownership exactly when the uninstall fails |
| `CanBuses.CanBus.UndoStart` | components/can_bus/src/can_bus.cpp:223-239 | A failed task creation keeps ownership exactly when stopping or uninstalling the driver fails |
| `CanBuses.CanBus.Stop` | components/can_bus/src/can_bus.cpp:248-299 | Exact result for every combination of failures; success releases driver and task and drains the tokens but not the ring; failure keeps the tokens and leaves Stopping for a task that is left and Faulted for a driver |
| `CanBuses.CanBus.AwaitTask` | components/can_bus/src/can_bus.cpp:262-277 | The task counts as stopped exactly when it is gone; no acknowledgement is left over |
| `CanBuses.CanBus.HaltDriver` | components/can_bus/src/can_bus.cpp:254-260 | The driver is stopped at most once and only while started |
| `CanBuses.CanBus.ReleaseDriver` | components/can_bus/src/can_bus.cpp:279-285 | The driver is uninstalled only when stopped and without a task |
| `CanBuses.CanBus.ConcludeStop` | components/can_bus/src/can_bus.cpp:287-298 | The state that ownership determines, a drained semaphore exactly on success, and the error of the owner that is left |
| `CanBuses.CanBus.Receive` | components/can_bus/src/can_bus.cpp:303-343 | With nobody else moving, per state: while Running the oldest frame or a time-out of an empty ring, otherwise FaultedNow, StoppingNow or NotStarted; never a token without a frame |
| `CanBuses.CanBus.LatchTerminalFault` | components/can_bus/src/can_bus.cpp:56-64 | Stops the receive loop and gives one wakeup for a new fault only |
| `CanBuses.CanBus.CollectAlerts` | components/can_bus/src/can_bus.cpp:66-87 | A bus-off is recorded and latched, a failed read is latched, anything else changes nothing |
| `CanBuses.CanBus.CollectDriverStatus` | components/can_bus/src/can_bus.cpp:89-104 | Adds the 32-bit deltas to the ring counters and remembers the new readings; a failed read is latched |
| `CanBuses.CanBus.RunReceiveTask` | components/can_bus/src/can_bus.cpp:106-140 | The old queue followed by the valid frames of the rounds up to and including the first terminal one, as they were received, in order and as far as there is room; Running exactly if none of these rounds is terminal; tokens equal queued frames while Running; after a terminal round Faulted, acknowledged, and a token for the consumer; the error counters grow by the deltas of all readings and the invalid frames |
| `CanBuses.QueueTakesValidFrames` | components/can_bus/src/can_bus.cpp:106-140 | For every sequence of rounds: the queue ends as the old queue followed by the unaltered valid frames of the rounds up to and including the first terminal one, in order, cut to the first 64 less what was queued |
| `CanBuses.AddedFollowsDriver` | components/can_bus/src/can_bus.cpp:89-104 | What a receive task adds for a driver counter never exceeds the true advance of that counter, and equals it if and only if every poll came before a whole wrap |
| `DriverCounters.CounterDelta` | components/can_bus/private_include/can_bus/configuration.hpp:7-12 | The delta is the one word that leads from the previous reading to the current one modulo 2^32 |
| `DriverCounters.DeltasTelescope` | components/can_bus/private_include/can_bus/configuration.hpp:7-12 | Between any two true counts the accumulated deltas never exceed the advance, and equal it if and only if every poll advanced by less than 2^32 |
| `SourceBinding.ClaimFollowsTheDriver` | components/vehicle_telemetry/src/can_bus_source.cpp:52-70 | Over every history of construction, copy, assignment, start, stop and retry on any number of sources: at most one holds the cleanup claim, and one does exactly when the driver is installed |
| `SourceBinding.StartClaimsWhatItInstalled` | components/vehicle_telemetry/src/can_bus_source.cpp:52-57 | The cleanup flag is true exactly when that attempt leaves the driver installed, and no other claim moves |
| `SourceBinding.AnswersTellTheOutcome` | components/vehicle_telemetry/src/can_bus_source.cpp:13-70 | Over every history: start answers Ok exactly when that attempt installed the driver and nothing failed, passes each refusal on and answers Faulted for each failure; stop through the claim answers Ok exactly when it released the driver, otherwise Faulted with driver and claim kept |
| `SourceBinding.CodesNameResults` | components/vehicle_telemetry/src/can_bus_source.cpp:8-47 | For start and stop alike, each code if and only if one of the results of the bus that it stands for |
| `SourceBinding.SourcesFollowTheirOperations` | components/vehicle_telemetry/include/vehicle_telemetry/can_bus_source.hpp:13-22 | Over every history: new sources and copies hold no claim, copies and assignments take over the configuration and nothing else, a stop through the claim drops it exactly if it released the driver |
| `SourceBinding.StrangerCannotStop` | components/vehicle_telemetry/src/can_bus_source.cpp:59-66 | A source without a claim answers NotRunning and leaves bus and claims alone |
| `SourceObject.CanBusSource.constructor` | components/vehicle_telemetry/include/vehicle_telemetry/can_bus_source.hpp:13-14 | A new source holds no claim |
| `SourceObject.CanBusSource.Copy` | components/vehicle_telemetry/include/vehicle_telemetry/can_bus_source.hpp:16-18 | A copy carries the configuration, never the claim |
| `SourceObject.CanBusSource.Assign` | components/vehicle_telemetry/include/vehicle_telemetry/can_bus_source.hpp:19-22 | Assignment keeps the claim of the target |
| `SourceObject.CanBusSource.Start` | components/vehicle_telemetry/src/can_bus_source.cpp:52-57 | Over the real bus object: the bus keeps its contract, and the source takes a claim exactly when this start installed the driver |
| `SourceObject.CanBusSource.Stop` | components/vehicle_telemetry/src/can_bus_source.cpp:59-66 | The claim is dropped exactly when the cleanup succeeded or there was nothing to clean up |
| `SourceObject.CanBusSource.RetryStop` | components/vehicle_telemetry/src/can_bus_source.cpp:70 | The same as a stop |
| `SourceLedger.SourceStopIsBooked` | components/vehicle_telemetry/src/runtime.cpp:378-411 | An attempt after a successful start keeps the call protocol and the fields that remember it |
| `SourceLedger.PartialCleanupIsBooked` | components/vehicle_telemetry/src/runtime.cpp:413-436 | So does an attempt after a partial start |
| `SourceLedger.SourceStopAnswers` | components/vehicle_telemetry/src/runtime.cpp:378-411 | After a full start: one call is made and the result is its reply, except that NotRunning of a source with retries is Ok; ownership ends exactly with Ok, with NotRunning, or with any reply of a source without retries |
| `SourceLedger.PartialCleanupAnswers` | components/vehicle_telemetry/src/runtime.cpp:413-436 | After a partial start: one call is made and the result is its reply with NotRunning as Ok; a source without retries that refused twice is not called and its last reply is the result |
| `RuntimeObject.Runtime.constructor` | components/vehicle_telemetry/src/runtime.cpp:58-62 | Stopped, nothing owned, no worker |
| `RuntimeObject.Runtime.Configure` | components/vehicle_telemetry/src/runtime.cpp:66-75 | Accepted only while Stopped and only if valid |
| `RuntimeObject.Runtime.Start` | components/vehicle_telemetry/src/runtime.cpp:77-194 | A refusal changes nothing and names configuration or state; otherwise Ok exactly if the source answers Ok and the worker can be created, Faulted if it cannot, else the answer of the source; after AlreadyRunning and InvalidConfiguration no call follows and nothing is owned, after any other failure exactly one stop call, and Stopped exactly if its reply was clean |
| `RuntimeObject.Runtime.OwnPartially` | components/vehicle_telemetry/src/runtime.cpp:104-123 | A failed start that may own the source makes exactly one stop call before it returns the answer of start; Stopped exactly if the reply is Ok or NotRunning, otherwise Faulted and owned |
| `RuntimeObject.Runtime.OwnFully` | components/vehicle_telemetry/src/runtime.cpp:125-194 | With a worker Running and Ok; without one Faulted after exactly one stop call, and Stopped exactly if its reply is Ok, or NotRunning from a source with retries |
| `RuntimeObject.Runtime.Stop` | components/vehicle_telemetry/src/runtime.cpp:196-288 | NotRunning when Stopped; otherwise a direct case split on reply, ownership and retry support: Ok for Ok and for a NotRunning that counts as clean, Timeout for Timeout and Stopping, Faulted for every other reply, of a source without retries too; every result but Timeout leaves no worker; it stops the runtime exactly when the result is Ok |
| `RuntimeObject.Runtime.StopEmbedded` | components/vehicle_telemetry/src/runtime.cpp:208-288 | The same case split with the bounded poll: at most 1000 ticks, Timeout after a full start exactly if the source asks for it or the worker outlives them, and then the runtime is Stopping with its worker; a partial start is cleaned up without a wait |
| `RuntimeObject.Runtime.WorkerFaults` | components/vehicle_telemetry/src/runtime.cpp:591-602 | A terminal outcome leaves the runtime Faulted with the stop requested |
| `RuntimeObject.Runtime.AttemptSourceStop` | components/vehicle_telemetry/src/runtime.cpp:378-411 | The result is the reply, or Ok for NotRunning from a source with retries, and Ok without a call when nothing is owned; the branches compute the booked transition |
| `RuntimeObject.Runtime.AttemptPartialStartCleanup` | components/vehicle_telemetry/src/runtime.cpp:413-436 | The result is the reply with NotRunning as Ok; the branches compute the booked transition, with the eight-bit attempt counter |
| `RuntimeObject.Runtime.Shutdown` | components/vehicle_telemetry/src/runtime.cpp:438-464 | No worker is left, at most two calls are made, and whatever is still owned was asked to stop |
| `RuntimeSafety.RunKeepsInv` | components/vehicle_telemetry/src/runtime.cpp:66-288 | The invariant of any number of threads in configure, start, stop and the destructor beside the worker |
| `RuntimeTheorems.OneThreadPastTheGate` | components/vehicle_telemetry/src/runtime.cpp:79-88 | At most one thread is inside a lifecycle operation; the source is asked to start only while unowned and without a worker, a worker is created only where there is none, no configuration is accepted under a worker |
| `RuntimeTheorems.StateTellsOwnership` | components/vehicle_telemetry/src/runtime.cpp:208-239 | Between calls Stopped means no ownership and no worker, Running means both, a partial start is Faulted without a worker |
| `RuntimeTheorems.StopLeavesNoWorker` | components/vehicle_telemetry/src/runtime.cpp:257-288 | A stop that returns Ok, Faulted or NotRunning leaves no worker |
| `RuntimeTheorems.NoWorkerUntilNextStart` | components/vehicle_telemetry/src/runtime.cpp:572-622 | From then on no worker runs until the next start, whatever else is called |
| `RuntimeTheorems.ConfigurationIsFrozen` | components/vehicle_telemetry/src/runtime.cpp:66-75 | The configuration does not change while a worker lives |
| `RuntimeTheorems.WorkerNeverPassesTheGate` | components/vehicle_telemetry/src/runtime.cpp:196-213 | A lifecycle call from a worker callback is refused: stop() answers Stopping before the handle is published and InvalidState afterwards, so the worker never waits for itself |
| `RuntimeTheorems.CallsFollowTheProtocol` | components/vehicle_telemetry/include/vehicle_telemetry/receive.hpp:27-39 | Per owned start, over every history: a source without retries gets at most one stop after a successful and two after a partial start; one with retries gets one stop and then retry_stop only; none after Ok or NotRunning |
| `RuntimeTheorems.DestructionEndsQuiet` | components/vehicle_telemetry/src/runtime.cpp:438-464 | Destruction ends without a worker; a source still owned then was asked and refused every time |
| `RuntimeAnswers.StartAnswersItsSource` | components/vehicle_telemetry/src/runtime.cpp:77-194 | In every interleaving of any number of threads and the worker: a start that is about to return answers what its source said, Faulted only for a worker that could not be created; AlreadyRunning and InvalidConfiguration are followed by no call, other failures by one, and Stopped follows exactly from a clean reply |
| `RuntimeAnswers.StopAnswersItsSource` | components/vehicle_telemetry/src/runtime.cpp:196-288 | In every interleaving: a stop that is about to return answers Ok for a clean reply of the source, Timeout for Timeout or Stopping, Faulted for any other; without a call nothing was owned or a one-shot partial start has refused for good; Timeout unasked only over a living worker; Stopped exactly with Ok |
| `RuntimeAnswers.LeavingReturns` | components/vehicle_telemetry/src/runtime.cpp:84-88 | The call that leaves the gate returns that result and nothing else opens the gate |
| `RuntimeAnswers.EntriesAnswer` | components/vehicle_telemetry/src/runtime.cpp:66-239 | In every interleaving: which calls pass the gate, and what a refused configure, start or stop answers, by state; a refused call changes nothing |
| `RuntimeProgress.UndisturbedStartReturns` | components/vehicle_telemetry/src/runtime.cpp:77-194 | From every reachable Stopped state at rest an undisturbed start returns: Ok with a worker at the head of its loop and no stop requested, Faulted without a worker if it could not be created, otherwise the answer of the source; the reply to the one cleanup call of a failure decides between Stopped and Faulted |
| `RuntimeProgress.NewRuntimeIsStopped` | components/vehicle_telemetry/src/runtime.cpp:58-62 | A new runtime is such a state for every thread |
| `RuntimeProgress.WorkerEndsItself` | components/vehicle_telemetry/src/runtime.cpp:572-622 | In every state, nothing but its own step ends a worker, and only once a stop is requested |
| `RuntimeProgress.FaultIsStored` | components/vehicle_telemetry/src/runtime.cpp:591-602 | A transaction that ends in a fault leaves Faulted, requests the stop and comes back to the loop |
| `RuntimeProgress.LoopGoesOn` | components/vehicle_telemetry/src/runtime.cpp:575-580 | At the head of its loop a worker makes another transaction if no stop is requested, and else ends |
| `RuntimeProgress.StoppedWorkerEnds` | components/vehicle_telemetry/src/runtime.cpp:575-617 | Once a stop is requested a worker ends within five steps, whatever its last transaction ends in |
| `RuntimeProgress.UndisturbedDestructionEnds` | components/vehicle_telemetry/src/runtime.cpp:438-464 | From every reachable state at rest the destructor ends: one cleanup call if something is to be cleaned up, the wait for the worker, and one more for a source with retries that has not cleaned up |
| `AcquisitionStack.OwnershipAgrees` | components/vehicle_telemetry/src/runtime.cpp:92-127 | Over any bus that keeps its contract, whenever no operation is in progress: runtime ownership, cleanup claim and installed driver are the same fact |
| `AcquisitionStack.SuccessfulStopReleasesAll` | components/vehicle_telemetry/src/runtime.cpp:196-288 | Over any such bus, a stop without failures returns Ok with all three released |
| `AcquisitionStop.OneStopReleasesAll` | components/vehicle_telemetry/src/runtime.cpp:196-288 | Over any such bus, from every reachable non-Stopped state at rest one undisturbed stop reaches that return, whatever the last transactions of the worker end in |
| `AcquisitionBus.BusCallsAreSerialized` | components/vehicle_telemetry/src/runtime.cpp:77-288 | With the bus itself inside, in every interleaving whatever: at most one thread is where the bus is called, it finds no call in progress, and a start finds neither worker nor receive |
| `AcquisitionBus.BusRunsByItself` | components/vehicle_telemetry/src/can_bus_source.cpp:52-70 | In every interleaving of runtime threads, worker, receive task and driver failures the moves of the bus are a run of the bus alone, a prompt one if the whole is prompt |
| `AcquisitionBus.DriverIsNeverMisused` | components/can_bus/src/can_bus.cpp:144-299 | So inside the whole stack: at most the two misuses of a late acknowledgement occur, and in a prompt run none, nor a receive that answers DriverFailure |
| `AcquisitionBus.LayersAgree` | components/vehicle_telemetry/src/can_bus_source.cpp:52-70 | In every interleaving of runtime threads, worker, receive task and driver failures: between bus calls the cleanup claim is the installed driver, and with no lifecycle call in progress the ownership of the runtime as well |
| `AcquisitionBus.SuccessfulStopReleasesAll` | components/vehicle_telemetry/src/runtime.cpp:196-288 | In every such interleaving a runtime stop in which every driver call succeeded and the task acknowledged returns Ok with all three released |
| `AcquisitionRelease.OneStopReleasesAll` | components/vehicle_telemetry/src/runtime.cpp:196-288 | From every reachable non-Stopped state at rest, steps of one stop in which no driver call fails lead to its return with Ok and all three released |
| `AcquisitionStart.OneStartAcquiresAll` | components/vehicle_telemetry/src/runtime.cpp:77-194 | From every reachable Stopped state at rest, steps of one start in which nothing fails lead to its return with Ok: the worker at the head of its loop, ownership and claim taken, the bus Running with driver installed and started, one receive task more and nothing left over in ring and semaphores |
| `AcquisitionStart.NewStackIsStartable` | components/vehicle_telemetry/src/runtime.cpp:58-62 | A new runtime over a new bus is such a state for every thread |
| `AcquisitionStart.BusIsReachedThroughRuntime` | components/vehicle_telemetry/src/can_bus_source.cpp:52-90 | In every state: lifecycle calls enter the bus only at the source, receive() only within a transaction of the worker, which then lasts until it has returned; everything else in the bus moves by itself |
| `WorkBudgets.PauseComesInTime` | components/vehicle_telemetry/src/runtime_budget.hpp:16-32 | For every valid limit, every frame pattern and every clock a pause is due within the call limit |
| `WorkBudgets.BatchIsCutInTime` | components/vehicle_telemetry/src/runtime_budget.hpp:16-32 | Every batch is cut within its frame limit, whatever the clock does |
| `WorkBudgets.SpansOvershootByOneGap` | components/vehicle_telemetry/src/runtime_budget.hpp:41-45 | With a nondecreasing clock a batch lasts less than its limit plus one gap |
| `WorkBudgets.RunnableSpanOvershootsByOneGap` | components/vehicle_telemetry/src/runtime_budget.hpp:41-45 | So does the runnable span |
| `WorkBudgets.FrozenClockSchedule` | components/vehicle_telemetry/src/runtime_budget.hpp:16-32 | With a frozen clock and nothing but frames, call k pauses exactly at the call limit and checkpoints exactly at the multiples of the batch size below it |
| `WorkBudgets.VerdictsMeetLimits` | components/vehicle_telemetry/src/runtime_budget.hpp:16-45 | For every clock, the k-th verdict since a pause in literal arithmetic: Pause if and only if k + 1 reached the call limit or the sample lies the runnable time after the start; else a checkpoint if and only if there was no frame or the frames or the time of the batch reached their limit |
| `WorkBudgets.WorkBudget.constructor` | components/vehicle_telemetry/src/runtime_budget.hpp:13-14 | A fresh budget |
| `WorkBudgets.WorkBudget.AfterReceive` | components/vehicle_telemetry/src/runtime_budget.hpp:16-32 | The counters and the verdict follow the step that the bounds are proved of |
| `WorkBudgets.WorkBudget.AfterPause` | components/vehicle_telemetry/src/runtime_budget.hpp:34-38 | Everything starts again |
| `Workers.RunAccounts` | components/vehicle_telemetry/src/runtime.cpp:486-505 | After every run the counters equal the numbers of process calls per outcome, which equal the numbers of frame callbacks per outcome, and the pauses begun |
| `Workers.RunCompletes` | components/vehicle_telemetry/src/runtime.cpp:572-618 | At most one received frame is discarded, and only by a worker that leaves; every other receive gets one diagnostic callback; at most one processor fault |
| `Workers.RunOrders` | components/vehicle_telemetry/src/runtime.cpp:585-603 | Every process call follows a received frame and is followed by one frame callback and one diagnostic callback; checkpoints and pauses stand only between transactions |
| `Workers.RunEnds` | components/vehicle_telemetry/src/runtime.cpp:590-607 | Literally for a Fault or NotStarted of receive() and a Fault of the processor: only callbacks follow one and the worker has left; the lifecycle leaves Running if and only if one of them was not discarded, and then the transport is Faulted |
| `Workers.StopsAreObeyed` | components/vehicle_telemetry/src/runtime.cpp:572-618 | Over every run, for each of the points at which the loop looks at the stop flag: which calls are still made, whether the worker leaves, and what becomes of the budget |
| `Workers.TransactionShows` | components/vehicle_telemetry/src/runtime.cpp:466-522 | Over every run: the transport and the last frame after a transaction, with the silence boundary in literal arithmetic at the instants of receive, timeout and checkpoint |
| `Workers.RunReports` | components/vehicle_telemetry/src/runtime.cpp:466-522 | The diagnostics of a run are the history of its updates, to which the silence theorem applies |
| `Workers.RunIsFair` | components/vehicle_telemetry/src/runtime.cpp:575-617 | At every point of every run: at most the call limit of receives since the last completed pause and at most the batch limit since the last checkpoint |
| `Workers.Worker.constructor` | components/vehicle_telemetry/src/runtime.cpp:572-575 | As the first instruction of the worker finds it |
| `Workers.Worker.RunLoop` | components/vehicle_telemetry/src/runtime.cpp:572-618 | The nested loops compute the run that the theorems speak of, for every sequence of turns |
| `Workers.Worker.RunBatch` | components/vehicle_telemetry/src/runtime.cpp:577-609 | The inner loop runs from the start of a batch to a verdict or a stop |
| `Workers.Worker.ReceiveOnce` | components/vehicle_telemetry/src/runtime.cpp:579-608 | One pass: a stop seen after the receive discards the result, any later one lets the transaction complete |
| `Workers.Worker.HandleTurn` | components/vehicle_telemetry/src/runtime.cpp:585-603 | One transaction: calls, counters, health and the stop request of a terminal outcome |
| `Workers.Worker.EndBatch` | components/vehicle_telemetry/src/runtime.cpp:610-617 | Checkpoint and pause after the inner loop, and when the worker leaves |
| `Workers.Worker.BudgetPause` | components/vehicle_telemetry/src/runtime.cpp:540-564 | Nothing is recorded when the stop was requested before; completion exactly without a stop |
| `Diagnosing.SilenceMeetsHistory` | components/vehicle_telemetry/src/runtime.cpp:369-376 | While Running and unfaulted, for every clock: after a first frame the transport is TimedOut exactly when a timeout, checkpoint or read since the last frame was at or after its silence boundary, and Live otherwise |
| `Diagnosing.TrafficIsNotAwaitedAgain` | components/vehicle_telemetry/src/runtime.cpp:506-516 | After a first frame a run never returns to AwaitingTraffic, whatever happens |
| `Diagnosing.TimeoutAwaitsTraffic` | components/vehicle_telemetry/src/runtime.cpp:506-516 | In every history without a frame a timeout shows AwaitingTraffic |
| `Diagnosing.FaultStaysVisibleIff` | components/vehicle_telemetry/src/runtime.cpp:588-603 | After a failure, among any reads and stops: the transport is Faulted or Stopped as the last stop() showed, and while none did it is Faulted if and only if nobody read the diagnostics at or after the silence boundary before the lifecycle left Running, and TimedOut otherwise |
| `Diagnosing.FaultCanBeMasked` | components/vehicle_telemetry/src/runtime.cpp:588-603 | A concrete history in which such a read leaves TimedOut for good |
| `Diagnosing.Diagnostics.constructor` | components/vehicle_telemetry/src/runtime.cpp:133-139 | As a successful start leaves it |
| `Diagnosing.Diagnostics.TakeFrame` | components/vehicle_telemetry/src/runtime.cpp:481-505 | The update for a processed frame |
| `Diagnosing.Diagnostics.TakeTimeout` | components/vehicle_telemetry/src/runtime.cpp:506-516 | The update for a timeout |
| `Diagnosing.Diagnostics.TakeTerminal` | components/vehicle_telemetry/src/runtime.cpp:517-520 | The update for a source fault |
| `Diagnosing.Diagnostics.UpdateSilenceLocked` | components/vehicle_telemetry/src/runtime.cpp:369-376 | The silence check of one sample |
| `Diagnosing.Diagnostics.StoreFault` | components/vehicle_telemetry/src/runtime.cpp:591-602 | The lifecycle leaves Running after the callbacks |
| `Diagnosing.Diagnostics.StoreStop` | components/vehicle_telemetry/src/runtime.cpp:241-245 | A stop leaves Running before it shows anything |
| `Diagnosing.Diagnostics.ShowLifecycle` | components/vehicle_telemetry/src/runtime.cpp:328-335 | The transport that a stop puts on show |
| `Diagnosing.Diagnostics.RecordBudgetPause` | components/vehicle_telemetry/src/runtime.cpp:535-538 | Counts a pause |
| `Diagnosing.Diagnostics.Read` | components/vehicle_telemetry/src/runtime.cpp:294-299 | A read may itself find the transport silent |
| `StatisticsCaches.UnforcedAsksAreSpaced` | components/vehicle_telemetry/src/runtime.cpp:343-367 | Without force and for every clock the source is asked at once and then at most once per interval |
| `StatisticsCaches.AnswerIsFresh` | components/vehicle_telemetry/src/runtime.cpp:343-367 | After any refresh, whatever resets went before, the cached answer is less than one interval old unless the clock is behind it |
| `StatisticsCaches.AsksExactlyWhenDue` | components/vehicle_telemetry/src/runtime.cpp:343-367 | For every history: the source is asked if and only if forced, without an answer, or a whole second after the last answer; a reset forgets the answer and asks nothing |
| `StatisticsCaches.StatisticsCache.RefreshIfDue` | components/vehicle_telemetry/src/runtime.cpp:350-367 | The source is asked exactly when forced or due, and its answer is kept |
| `StatisticsCaches.StatisticsCache.Reset` | components/vehicle_telemetry/src/runtime.cpp:337-341 | The next request asks |
| `BudgetPauses.NoWakeupIsLost` | components/vehicle_telemetry/src/runtime.cpp:524-564 | For any number of stopping threads, spurious wakes and time-outs: whenever the worker is blocked with the stop requested, the requesting thread holds the mutex and its next step ends the wait |
| `BudgetPauses.StoppedPauseDoesNotBlock` | components/vehicle_telemetry/src/runtime.cpp:556-563 | Once the stop is requested the worker neither blocks any more nor decides that its pause completed |
| `BudgetPauses.CompletedPauseExpired` | components/vehicle_telemetry/src/runtime.cpp:556-563 | A completed pause lasted to its time-out |
| `BudgetPauses.AbandonedPauseWasStopped` | components/vehicle_telemetry/src/runtime.cpp:556-563 | In every run a pause is recorded only without a requested stop, and ends as not completed only with one |
| `BudgetPauses.PauseEntersWait` | components/vehicle_telemetry/src/runtime.cpp:524-556 | Undisturbed and not stopped, a pause is recorded and reaches its wait |
| `BudgetPauses.PauseExpires` | components/vehicle_telemetry/src/runtime.cpp:556-563 | The time-out of a pause that is not stopped completes it |
| `BudgetPauses.StopperFinishes` | components/vehicle_telemetry/src/runtime.cpp:524-533 | A stop request stores the flag, ends a wait in progress and gives the mutex back |
| `BudgetPauses.StoppedPauseEnds` | components/vehicle_telemetry/src/runtime.cpp:556-563 | After it a pause that waited ends as not completed, and so does a new one, unrecorded |
| `BudgetPauses.TicksAreTheCeiling` | components/vehicle_telemetry/src/runtime.cpp:545-548 | The tick count is the exact ceiling and at least one |
| `BudgetPauses.DelayTicks` | components/vehicle_telemetry/src/runtime.cpp:549-554 | At most one tick passes after the stop request |
| `BudgetPauses.TickPause` | components/vehicle_telemetry/src/runtime.cpp:541-554 | So in the whole tick-backend pause, which completes only after all its ticks |
| `Signals.HoldsFirstAtMaximum` | components/vehicle_core/include/vehicle_core/signal.hpp:80-113 | Whatever is interleaved, the signal holds the first value offered at the maximum timestamp offered |
| `Signals.OrderDoesNotMatter` | components/vehicle_core/include/vehicle_core/signal.hpp:80-102 | With distinct timestamps value and timestamp do not depend on the order of arrival, invalidations and refreshes included |
| `Signals.StaleHasAWitness` | components/vehicle_core/include/vehicle_core/signal.hpp:115-132 | Stale stems from a refresh at which the held observation was too old |
| `Signals.RefreshAgreesWithStatusAt` | components/vehicle_core/include/vehicle_core/signal.hpp:115-147 | With a fixed timeout and nondecreasing refreshes the refreshed status agrees with the pure one |
| `Signals.StatusMeetsHistory` | components/vehicle_core/include/vehicle_core/signal.hpp:80-132 | Over every history, counted from the update that is held: Unknown exactly if a strictly newer invalidation followed it, else Stale exactly if a refresh found it too old, else Valid; Unknown before the first update |
| `Signals.AvailabilityMeetsHistory` | components/vehicle_core/include/vehicle_core/signal.hpp:134-147 | Over every history and for every instant, each of the five answers if and only if, in terms of the updates and invalidations offered |
| `Signals.AcceptedUpdateIsFresh` | components/vehicle_core/include/vehicle_core/signal.hpp:80-102 | Just after an update newer than all before it the signal holds it as Valid, and answers Fresh, or FreshnessUnverified without a timeout |
| `Signals.Signal.constructor` | components/vehicle_core/include/vehicle_core/signal.hpp:39-40 | No observation yet |
| `Signals.Signal.UpdateStatus` | components/vehicle_core/include/vehicle_core/signal.hpp:80-102 | Monotonic update; the answer tells acceptance, harmless repetition and rejection apart |
| `Signals.Signal.InvalidateAt` | components/vehicle_core/include/vehicle_core/signal.hpp:104-113 | Only a strictly newer invalidation changes the status; the observation stays |
| `Signals.Signal.RefreshAt` | components/vehicle_core/include/vehicle_core/signal.hpp:115-132 | Turns a valid observation stale when too old and changes nothing else |
| `Signals.Signal.Availability` | components/vehicle_core/include/vehicle_core/signal.hpp:134-147 | The pure status |

## Left out

- Weak memory: the acquire, release and relaxed orders are modelled as sequentially consistent.
- TWAI, FreeRTOS and timer internals, pin bindings, bit timing, stack and priority details: their calls are arbitrary results.
- The wrap of 64-bit statistics counters and of 32-bit watermark and budget counters, which are unbounded here; the index words, the 32-bit driver counters and the eight-bit cleanup counter wrap as in the code.
- RingWords.RunWraps: of an observer that is overtaken by a whole turn of the index word only the depth read, the counters and the bounds of the watermark are covered, by RingWordsFifo and RingStatistics, not that the watermark covers the live depth. Producer, consumer and queue need no proviso in RingWordsFifo.
- FrameRings.FrameRing.Clear: alone; RingMachine interleaves its accesses with observers, but not with a push or pop, which start() excludes.
- CanBuses.CanBus.Stop: the receive task ends at once or not at all during the bounded wait; BusMachine interleaves it step by step.
- CanBuses.CanBus.Receive: one call at a time without a wait; BusMachine covers the wait and the fault that ends it.
- RuntimeObject.Runtime.Stop: the host form, which joins the worker; StopEmbedded is the other, with the tick at which the worker ends as a parameter.
- RuntimeObject.Runtime.Start: the calls of reset(), of the clock and of statistics() it makes on the way are not recorded.
- BudgetPauses.NoWakeupIsLost: the diagnostics mutex taken while recording a pause is one step.
- Workers.Worker.RunLoop: runs over a finite sequence of turns, so an endless run is seen through its prefixes; other threads act on it only through the stop flag.
- Diagnosing.SilenceMeetsHistory: covers the time during which the lifecycle reads Running, not a transaction that ends while stop() has already stored Stopping.
- RingPeak.WatermarkFollowsPeak: on unbounded indices, as are the undisturbed operations of RingProgress; RingWords.RunWraps carries them to index words in the runs it covers.
- The mapping of an answer of receive() to a receive status is a switch; in AcquisitionBus a transaction of the worker may end in a fault whatever the bus answered.
- Frame contents: the conversion of a driver message to a frame and the validity test enter as the kind of reception.
- Configuration ranges other than the budget limits, and the validity of a bitrate, enter as a flag.
- Destroying or overwriting a source that holds a claim; moving sources between buses.
- Reading<T> snapshots, changing the freshness timeout of a signal, and the status queries of a signal: single branches over what is modelled.
- Decoders, vehicle profiles, examples, staging tools and the baseline tool.
