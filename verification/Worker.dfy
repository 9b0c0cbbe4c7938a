/**
 The worker's loop over an arbitrary source, processor, clock and stop request: which calls it makes, in which
 order, and how the counters account for them. One Turn is what the environment answers during one pass of the
 inner loop; a finite sequence of turns observes a prefix of the run.
*/
module Workers {
  import opened Diagnosing
  import opened WorkBudgets

  datatype ReceiveStatus = Frame | Timeout | SourceFault | NotStarted

  /** At which of the loop's checks a stop requested by another thread is seen. */
  datatype Stops = Stops(
    beforeBatch: bool, afterReceive: bool, afterCallbacks: bool, afterBatch: bool, beforePause: bool, duringPause: bool)

  /** `receivedAt`, `timedOutAt` and `checkedAt` are the injected clock, `now` and `pausedAt` the platform clock. */
  datatype Turn = Turn(
    status: ReceiveStatus, outcome: ProcessStatus, receivedAt: nat, timedOutAt: nat, now: nat, checkedAt: nat,
    pausedAt: nat, stops: Stops)

  /** A call the worker makes, the checkpoint that ends a batch, or a budget pause it begins and completes. */
  datatype Call =
    | Receive(status: ReceiveStatus)
    | Process(outcome: ProcessStatus)
    | FrameCallback(outcome: ProcessStatus)
    | DiagnosticsCallback
    | Checkpointed
    | PauseBegun
    | PauseCompleted

  /** `inBatch` says that the next turn continues the inner loop, `left` that the worker left both loops. */
  datatype Work = Work(calls: seq<Call>, health: Health, budget: Budget, inBatch: bool, left: bool)

  datatype Settings = Settings(limits: Limits, silenceUs: nat)

  function Begun(started: nat): Work {
    Work([], STARTED, Fresh(started), false, false)
  }

  predicate TerminalStatus(s: ReceiveStatus) {
    s.SourceFault? || s.NotStarted?
  }

  /** This turn ends the run by itself. */
  predicate Terminal(t: Turn) {
    TerminalStatus(t.status) || (t.status.Frame? && t.outcome.Fault?)
  }

  /** The update of the diagnostics for a turn that was not discarded. */
  function Update(t: Turn): Event {
    match t.status
    case Frame => FrameTaken(t.receivedAt, t.outcome)
    case Timeout => TimeoutTaken(t.timedOutAt)
    case _ => TerminalTaken
  }

  function CallsFor(t: Turn): seq<Call> {
    if t.status.Frame? then [Process(t.outcome), FrameCallback(t.outcome), DiagnosticsCallback]
    else [DiagnosticsCallback]
  }

  function VerdictFor(c: Settings, w: Work, t: Turn): Verdict {
    VerdictOn(c.limits, w.budget, Sample(t.status.Frame?, t.now))
  }

  /** What a turn that was not discarded does after its callbacks. */
  function Tail(verdict: Verdict, t: Turn): seq<Call> {
    if Terminal(t) || t.stops.afterCallbacks || verdict.Continue? || t.stops.afterBatch then []
    else if verdict.Checkpoint? || t.stops.beforePause then [Checkpointed]
    else if t.stops.duringPause then [Checkpointed, PauseBegun]
    else [Checkpointed, PauseBegun, PauseCompleted]
  }

  /** After it the worker leaves both loops. */
  predicate Leaves(verdict: Verdict, t: Turn) {
    || Terminal(t) || t.stops.afterCallbacks
    || (!verdict.Continue? && t.stops.afterBatch)
    || (verdict.Pause? && (t.stops.beforePause || t.stops.duringPause))
  }

  function TailHealth(c: Settings, h: Health, t: Turn, tail: seq<Call>): Health {
    var checked := if tail == [] then h else Observe(c.silenceUs, h, Sampled(t.checkedAt));
    if PauseBegun in tail then Observe(c.silenceUs, checked, PauseTaken) else checked
  }

  function HealthAfter(c: Settings, h: Health, t: Turn, tail: seq<Call>): Health {
    var updated := Observe(c.silenceUs, h, Update(t));
    if Terminal(t) then Observe(c.silenceUs, updated, FaultStored) else TailHealth(c, updated, t, tail)
  }

  function BudgetAfter(c: Settings, b: Budget, t: Turn, tail: seq<Call>): Budget {
    if Terminal(t) || t.stops.afterCallbacks then b
    else if PauseCompleted in tail then Fresh(t.pausedAt)
    else Next(c.limits, b, Sample(t.status.Frame?, t.now))
  }

  /** All the calls of a turn that was not discarded. */
  function Transaction(verdict: Verdict, t: Turn): seq<Call> {
    [Receive(t.status)] + CallsFor(t) + Tail(verdict, t)
  }

  /** A turn does nothing, receives and discards the result, or makes a whole transaction. */
  function Step(c: Settings, w: Work, t: Turn): Work {
    if w.left then w
    else if !w.inBatch && t.stops.beforeBatch then w.(left := true)
    else if t.stops.afterReceive then w.(calls := w.calls + [Receive(t.status)], left := true)
    else
      var verdict := VerdictFor(c, w, t);
      var tail := Tail(verdict, t);
      Work(w.calls + Transaction(verdict, t),
           HealthAfter(c, w.health, t, tail),
           BudgetAfter(c, w.budget, t, tail),
           verdict.Continue?,
           Leaves(verdict, t))
  }

  function Run(c: Settings, started: nat, turns: seq<Turn>): Work {
    if turns == [] then Begun(started) else Step(c, Run(c, started, turns[..|turns| - 1]), turns[|turns| - 1])
  }

  // --- accounting ----------------------------------------------------------------------------------------------

  function Count(calls: seq<Call>, call: Call): nat {
    multiset(calls)[call]
  }

  function Processes(calls: seq<Call>): nat {
    Count(calls, Process(Processed)) + Count(calls, Process(Ignored)) + Count(calls, Process(Malformed))
    + Count(calls, Process(Fault))
  }

  function Receives(calls: seq<Call>): nat {
    Count(calls, Receive(Frame)) + Count(calls, Receive(Timeout)) + Count(calls, Receive(SourceFault))
    + Count(calls, Receive(NotStarted))
  }

  /** The diagnostics counters say exactly how often the processor was called and with which outcome. */
  ghost predicate Accounted(calls: seq<Call>, tally: Tally) {
    && Count(calls, Process(Processed)) == tally.processed
    && Count(calls, Process(Ignored)) == tally.ignored
    && Count(calls, Process(Malformed)) == tally.malformed
    && Count(calls, Process(Fault)) == tally.faults
    && Count(calls, PauseBegun) == tally.pauses
    && (forall o: ProcessStatus :: Count(calls, FrameCallback(o)) == Count(calls, Process(o)))
  }

  function One(b: bool): nat {
    if b then 1 else 0
  }

  /** How often a turn that was not discarded makes a call. */
  function Made(verdict: Verdict, t: Turn, call: Call): nat {
    match call
    case Receive(status) => One(status == t.status)
    case Process(o) => One(t.status.Frame? && o == t.outcome)
    case FrameCallback(o) => One(t.status.Frame? && o == t.outcome)
    case DiagnosticsCallback => 1
    case _ => One(call in Tail(verdict, t))
  }

  lemma Counts(a: seq<Call>, b: seq<Call>, call: Call)
    ensures Count(a + b, call) == Count(a, call) + Count(b, call)
  {
  }

  lemma CallsForMakes(t: Turn, call: Call)
    ensures Count(CallsFor(t), call) ==
              One(t.status.Frame? && (call == Process(t.outcome) || call == FrameCallback(t.outcome)))
              + One(call.DiagnosticsCallback?)
  {
  }

  lemma TailMakes(verdict: Verdict, t: Turn, call: Call)
    ensures Count(Tail(verdict, t), call) == One(call in Tail(verdict, t))
    ensures call in Tail(verdict, t) ==> call.Checkpointed? || call.PauseBegun? || call.PauseCompleted?
  {
  }

  lemma ThreeCounts(a: seq<Call>, b: seq<Call>, c: seq<Call>, call: Call)
    ensures Count(a + b + c, call) == Count(a, call) + Count(b, call) + Count(c, call)
  {
    Counts(a + b, c, call);
    Counts(a, b, call);
  }

  lemma ReceiveMakes(status: ReceiveStatus, call: Call)
    ensures Count([Receive(status)], call) == One(call == Receive(status))
  {
  }

  lemma TransactionMakes(verdict: Verdict, t: Turn, call: Call)
    ensures Count(Transaction(verdict, t), call) == Made(verdict, t, call)
  {
    hide CallsFor, Tail, Count;
    ThreeCounts([Receive(t.status)], CallsFor(t), Tail(verdict, t), call);
    ReceiveMakes(t.status, call);
    CallsForMakes(t, call);
    TailMakes(verdict, t, call);
  }

  lemma GrowsBy(calls: seq<Call>, verdict: Verdict, t: Turn, call: Call)
    ensures Count(calls + Transaction(verdict, t), call) == Count(calls, call) + Made(verdict, t, call)
  {
    Counts(calls, Transaction(verdict, t), call);
    TransactionMakes(verdict, t, call);
  }

  lemma TallyAfter(c: Settings, h: Health, t: Turn, tail: seq<Call>)
    requires Terminal(t) ==> tail == []
    ensures HealthAfter(c, h, t, tail).tally ==
              (if t.status.Frame? then Tallied(h.tally, t.outcome) else h.tally).(
                pauses := h.tally.pauses + One(PauseBegun in tail))
  {
  }

  /** `calls'` is `calls` and the calls of one whole turn. */
  ghost predicate Grown(calls: seq<Call>, calls': seq<Call>, verdict: Verdict, t: Turn) {
    forall call: Call :: Count(calls', call) == Count(calls, call) + Made(verdict, t, call)
  }

  lemma TransactionGrows(calls: seq<Call>, verdict: Verdict, t: Turn)
    ensures Grown(calls, calls + Transaction(verdict, t), verdict, t)
  {
    forall call: Call
      ensures Count(calls + Transaction(verdict, t), call) == Count(calls, call) + Made(verdict, t, call)
    {
      GrowsBy(calls, verdict, t, call);
    }
  }

  lemma TransactionAccounts(calls: seq<Call>, calls': seq<Call>, tally: Tally, verdict: Verdict, t: Turn)
    requires Accounted(calls, tally) && Grown(calls, calls', verdict, t)
    ensures Accounted(calls', (if t.status.Frame? then Tallied(tally, t.outcome) else tally).(
                                pauses := tally.pauses + One(PauseBegun in Tail(verdict, t))))
  {
  }

  lemma ReceiveAccounts(calls: seq<Call>, tally: Tally, status: ReceiveStatus)
    requires Accounted(calls, tally)
    ensures Accounted(calls + [Receive(status)], tally)
  {
  }

  lemma StepAccounts(c: Settings, w: Work, t: Turn)
    requires Accounted(w.calls, w.health.tally)
    ensures var w' := Step(c, w, t); Accounted(w'.calls, w'.health.tally)
  {
    var verdict := VerdictFor(c, w, t);
    var calls' := w.calls + Transaction(verdict, t);
    TransactionGrows(w.calls, verdict, t);
    TransactionAccounts(w.calls, calls', w.health.tally, verdict, t);
    TallyAfter(c, w.health, t, Tail(verdict, t));
    ReceiveAccounts(w.calls, w.health.tally, t.status);
  }

  /** The counters of a run, whatever source, processor, clocks and stop request do. */
  lemma {:induction false} RunAccounts(c: Settings, started: nat, turns: seq<Turn>)
    ensures var w := Run(c, started, turns); Accounted(w.calls, w.health.tally)
  {
    if turns == [] {
    } else {
      RunAccounts(c, started, turns[..|turns| - 1]);
      StepAccounts(c, Run(c, started, turns[..|turns| - 1]), turns[|turns| - 1]);
    }
  }

  /**
   Every receive but a last discarded one is answered by one diagnostics callback, every received frame but that
   one is processed, and there is no more than one processor fault, which ends the run.
  */
  ghost predicate Complete(calls: seq<Call>, left: bool) {
    var discarded := Receives(calls) - Count(calls, DiagnosticsCallback);
    && 0 <= discarded <= One(left)
    && Processes(calls) <= Count(calls, Receive(Frame)) <= Processes(calls) + discarded
    && Count(calls, Process(Fault)) + discarded <= One(left)
  }

  lemma TransactionCompletes(calls: seq<Call>, calls': seq<Call>, verdict: Verdict, t: Turn)
    requires Complete(calls, false) && Grown(calls, calls', verdict, t)
    ensures Complete(calls', t.status.Frame? && t.outcome.Fault?)
  {
  }

  lemma ReceiveCompletes(calls: seq<Call>, status: ReceiveStatus)
    requires Complete(calls, false)
    ensures Complete(calls + [Receive(status)], true)
  {
  }

  lemma StepCompletes(c: Settings, w: Work, t: Turn)
    requires Complete(w.calls, w.left)
    ensures var w' := Step(c, w, t); Complete(w'.calls, w'.left)
  {
    if w.left || (!w.inBatch && t.stops.beforeBatch) {
    } else if t.stops.afterReceive {
      ReceiveCompletes(w.calls, t.status);
    } else {
      var w' := Step(c, w, t);
      assert Complete(w'.calls, w'.left) by {
        TransactionGrows(w.calls, VerdictFor(c, w, t), t);
        TransactionCompletes(w.calls, w'.calls, VerdictFor(c, w, t), t);
      }
    }
  }

  lemma {:induction false} RunCompletes(c: Settings, started: nat, turns: seq<Turn>)
    ensures var w := Run(c, started, turns); Complete(w.calls, w.left)
  {
    if turns == [] {
    } else {
      RunCompletes(c, started, turns[..|turns| - 1]);
      StepCompletes(c, Run(c, started, turns[..|turns| - 1]), turns[|turns| - 1]);
    }
  }

  // --- order ---------------------------------------------------------------------------------------------------

  /** Where a call stands: a frame is received, processed, shown to the observer and followed by a diagnostics. */
  ghost predicate WellPlaced(calls: seq<Call>, i: nat)
    requires i < |calls|
  {
    match calls[i]
    case Process(o) =>
      && 0 < i < |calls| - 2
      && calls[i - 1] == Receive(Frame) && calls[i + 1] == FrameCallback(o) && calls[i + 2] == DiagnosticsCallback
    case FrameCallback(o) => 0 < i && calls[i - 1] == Process(o)
    case DiagnosticsCallback =>
      0 < i && (calls[i - 1].FrameCallback? || (calls[i - 1].Receive? && !calls[i - 1].status.Frame?))
    case Checkpointed => 0 < i && calls[i - 1].DiagnosticsCallback?
    case PauseBegun => 0 < i && calls[i - 1].Checkpointed?
    case PauseCompleted => 0 < i && calls[i - 1].PauseBegun?
    case Receive(_) => 0 < i ==> !calls[i - 1].Receive? && !calls[i - 1].Process? && !calls[i - 1].FrameCallback?
  }

  ghost predicate WellOrdered(calls: seq<Call>) {
    forall i: nat | i < |calls| :: WellPlaced(calls, i)
  }

  /** The worker can go on after these calls. */
  predicate Resumable(calls: seq<Call>) {
    calls != [] ==> calls[|calls| - 1].DiagnosticsCallback? || calls[|calls| - 1].Checkpointed?
                    || calls[|calls| - 1].PauseCompleted?
  }

  lemma Persists(calls: seq<Call>, more: seq<Call>)
    requires WellOrdered(calls)
    ensures forall i: nat | i < |calls| :: WellPlaced(calls + more, i)
  {
    forall i: nat | i < |calls| ensures WellPlaced(calls + more, i) {
      assert WellPlaced(calls, i);
    }
  }

  lemma AppendOrders(calls: seq<Call>, call: Call)
    requires WellOrdered(calls) && WellPlaced(calls + [call], |calls|)
    ensures WellOrdered(calls + [call])
  {
    Persists(calls, [call]);
  }

  lemma CoreOrders(calls: seq<Call>, t: Turn)
    requires WellOrdered(calls) && Resumable(calls)
    ensures WellOrdered(calls + ([Receive(t.status)] + CallsFor(t)))
  {
    var core := [Receive(t.status)] + CallsFor(t);
    Persists(calls, core);
    assert forall k :: 0 <= k < |core| ==> (calls + core)[|calls| + k] == core[k];
    forall i: nat | |calls| <= i < |calls + core| ensures WellPlaced(calls + core, i) {
      var k := i - |calls|;
      assert k == 0 || k == 1 || k == 2 || k == 3;
    }
  }

  lemma TailOrders(calls: seq<Call>, verdict: Verdict, t: Turn)
    requires WellOrdered(calls) && calls != [] && calls[|calls| - 1].DiagnosticsCallback?
    ensures WellOrdered(calls + Tail(verdict, t))
    ensures !Leaves(verdict, t) ==> Resumable(calls + Tail(verdict, t))
  {
    var tail := Tail(verdict, t);
    if tail == [] {
      assert calls + tail == calls;
    } else {
      var checked := calls + [Checkpointed];
      AppendOrders(calls, Checkpointed);
      if |tail| >= 2 {
        AppendOrders(checked, PauseBegun);
        if |tail| == 3 {
          AppendOrders(checked + [PauseBegun], PauseCompleted);
          assert calls + tail == checked + [PauseBegun] + [PauseCompleted];
        } else {
          assert calls + tail == checked + [PauseBegun];
        }
      }
    }
  }

  lemma TransactionOrders(calls: seq<Call>, verdict: Verdict, t: Turn)
    requires WellOrdered(calls) && Resumable(calls)
    ensures WellOrdered(calls + Transaction(verdict, t))
    ensures !Leaves(verdict, t) ==> Resumable(calls + Transaction(verdict, t))
  {
    var core := [Receive(t.status)] + CallsFor(t);
    CoreOrders(calls, t);
    TailOrders(calls + core, verdict, t);
    assert calls + Transaction(verdict, t) == calls + core + Tail(verdict, t);
  }

  lemma StepOrders(c: Settings, w: Work, t: Turn)
    requires WellOrdered(w.calls) && (!w.left ==> Resumable(w.calls))
    ensures var w' := Step(c, w, t); WellOrdered(w'.calls) && (!w'.left ==> Resumable(w'.calls))
  {
    if w.left || (!w.inBatch && t.stops.beforeBatch) {
    } else if t.stops.afterReceive {
      AppendOrders(w.calls, Receive(t.status));
    } else {
      TransactionOrders(w.calls, VerdictFor(c, w, t), t);
    }
  }

  lemma {:induction false} RunOrders(c: Settings, started: nat, turns: seq<Turn>)
    ensures var w := Run(c, started, turns); WellOrdered(w.calls) && (!w.left ==> Resumable(w.calls))
  {
    if turns == [] {
    } else {
      RunOrders(c, started, turns[..|turns| - 1]);
      StepOrders(c, Run(c, started, turns[..|turns| - 1]), turns[|turns| - 1]);
    }
  }

  predicate TerminalCall(call: Call) {
    call in {Receive(SourceFault), Receive(NotStarted), Process(Fault)}
  }

  /** Nothing but the callbacks of a terminal outcome comes after it. */
  ghost predicate EndsWithTerminal(calls: seq<Call>) {
    forall i, j :: 0 <= i < j < |calls| && TerminalCall(calls[i]) ==>
      calls[j].FrameCallback? || calls[j].DiagnosticsCallback?
  }

  ghost predicate NoTerminal(calls: seq<Call>) {
    forall i :: 0 <= i < |calls| ==> !TerminalCall(calls[i])
  }

  lemma TransactionEnds(verdict: Verdict, t: Turn)
    ensures EndsWithTerminal(Transaction(verdict, t))
    ensures !Terminal(t) ==> NoTerminal(Transaction(verdict, t))
  {
  }

  lemma StepEnds(c: Settings, w: Work, t: Turn)
    requires EndsWithTerminal(w.calls) && (!w.left ==> NoTerminal(w.calls))
    ensures var w' := Step(c, w, t); EndsWithTerminal(w'.calls) && (!w'.left ==> NoTerminal(w'.calls))
  {
    if w.left || (!w.inBatch && t.stops.beforeBatch) {
    } else if t.stops.afterReceive {
      assert EndsWithTerminal([Receive(t.status)]);
      EndsConcat(w.calls, [Receive(t.status)]);
    } else {
      TransactionEnds(VerdictFor(c, w, t), t);
      EndsConcat(w.calls, Transaction(VerdictFor(c, w, t), t));
    }
  }

  lemma EndsConcat(a: seq<Call>, b: seq<Call>)
    requires NoTerminal(a) && EndsWithTerminal(b)
    ensures EndsWithTerminal(a + b)
    ensures NoTerminal(b) ==> NoTerminal(a + b)
  {
    var ab := a + b;
    forall i, j | 0 <= i < j < |ab| && TerminalCall(ab[i]) ensures ab[j].FrameCallback? || ab[j].DiagnosticsCallback? {
      assert i >= |a| && ab[i] == b[i - |a|] && ab[j] == b[j - |a|];
    }
  }

  /** A terminal call whose outcome was not discarded: a discarded one is the last call of all. */
  ghost predicate Ended(calls: seq<Call>) {
    exists i :: 0 <= i < |calls| - 1 && TerminalCall(calls[i])
  }

  lemma TransactionFaults(c: Settings, calls: seq<Call>, h: Health, verdict: Verdict, t: Turn)
    requires NoTerminal(calls) && h.running
    ensures var h' := HealthAfter(c, h, t, Tail(verdict, t));
            && (h'.running <==> !Ended(calls + Transaction(verdict, t)))
            && (!h'.running ==> h'.transport.Faulted?)
  {
    var all := calls + Transaction(verdict, t);
    TransactionEnds(verdict, t);
    if Terminal(t) {
      var k := |calls| + One(t.status.Frame?);
      assert all[|calls|] == Receive(t.status);
      assert t.status.Frame? ==> all[|calls| + 1] == Process(t.outcome);
      assert 0 <= k < |all| - 1 && TerminalCall(all[k]);
    } else {
      EndsConcat(calls, Transaction(verdict, t));
    }
  }

  lemma StepFaults(c: Settings, w: Work, t: Turn)
    requires !w.left ==> NoTerminal(w.calls) && w.health.running
    requires (w.health.running <==> !Ended(w.calls)) && (!w.health.running ==> w.health.transport.Faulted?)
    ensures var w' := Step(c, w, t);
            && (w'.health.running <==> !Ended(w'.calls)) && (!w'.health.running ==> w'.health.transport.Faulted?)
            && (!w'.left ==> w'.health.running)
  {
    if w.left || (!w.inBatch && t.stops.beforeBatch) {
    } else if t.stops.afterReceive {
    } else {
      TransactionFaults(c, w.calls, w.health, VerdictFor(c, w, t), t);
    }
  }

  lemma {:induction false} RunFaults(c: Settings, started: nat, turns: seq<Turn>)
    ensures var w := Run(c, started, turns);
            && EndsWithTerminal(w.calls) && (!w.left ==> NoTerminal(w.calls) && w.health.running)
            && (w.health.running <==> !Ended(w.calls)) && (!w.health.running ==> w.health.transport.Faulted?)
  {
    hide Step;
    if turns == [] {
      NoTurns(c, started);
    } else {
      var before := turns[..|turns| - 1];
      RunFaults(c, started, before);
      StepEnds(c, Run(c, started, before), turns[|turns| - 1]);
      StepFaults(c, Run(c, started, before), turns[|turns| - 1]);
    }
  }

  /**
   A fault or NotStarted of the source and a fault of the processor are terminal: nothing but callbacks follows one,
   and the worker has left. Unless a stop discarded it, which makes it the last call, the lifecycle has left Running
   and the transport is Faulted; nothing else makes a worker store Faulted.
  */
  lemma RunEnds(c: Settings, started: nat, turns: seq<Turn>)
    ensures var w := Run(c, started, turns);
            var terminal := {Receive(SourceFault), Receive(NotStarted), Process(Fault)};
            && (forall i, j :: 0 <= i < j < |w.calls| && w.calls[i] in terminal ==>
                  w.calls[j].FrameCallback? || w.calls[j].DiagnosticsCallback?)
            && ((exists i :: 0 <= i < |w.calls| && w.calls[i] in terminal) ==> w.left)
            && (!w.health.running <==> exists i :: 0 <= i < |w.calls| - 1 && w.calls[i] in terminal)
            && (!w.health.running ==> w.health.transport.Faulted?)
  {
    hide Run;
    RunFaults(c, started, turns);
    var calls := Run(c, started, turns).calls;
    if i :| 0 <= i < |calls| && TerminalCall(calls[i]) {
      assert !NoTerminal(calls);
    }
  }

  // --- how a stop is obeyed ------------------------------------------------------------------------------------

  /** What the worker does for one receive before it looks at the stop request again. */
  function Served(t: Turn): seq<Call> {
    match t.status
    case Frame => [Receive(Frame), Process(t.outcome), FrameCallback(t.outcome), DiagnosticsCallback]
    case other => [Receive(other), DiagnosticsCallback]
  }

  lemma RunBegins(c: Settings, started: nat)
    ensures var w := Run(c, started, []);
            && w.calls == [] && !w.inBatch && !w.left && w.budget == Budget(0, 0, started, started)
            && w.health == Health(AwaitingTraffic, NoFrame, true, Tally(0, 0, 0, 0, 0))
  {
  }

  /**
   Where a stop is seen, over every run, which begins before its first batch: before a batch nothing more is called;
   right after a receive its result is discarded; otherwise the transaction is completed first. After the last
   transaction of a batch the worker leaves at once or checkpoints; a stop before the pause skips it, one during the
   pause leaves it incomplete, and only a pause without one is completed and refreshes the budget.
  */
  lemma StopsAreObeyed(c: Settings, started: nat, turns: seq<Turn>, t: Turn)
    ensures var w := Run(c, started, []);
            && w.calls == [] && !w.inBatch && !w.left && w.budget == Budget(0, 0, started, started)
            && w.health == Health(AwaitingTraffic, NoFrame, true, Tally(0, 0, 0, 0, 0))
    ensures var w, w' := Run(c, started, turns), Run(c, started, turns + [t]);
            var verdict := VerdictOn(c.limits, w.budget, Sample(t.status.Frame?, t.now));
            var ends := t.status.SourceFault? || t.status.NotStarted? || (t.status.Frame? && t.outcome.Fault?);
            if w.left || (!w.inBatch && t.stops.beforeBatch) then w' == w.(left := true)
            else if t.stops.afterReceive then w' == w.(calls := w.calls + [Receive(t.status)], left := true)
            else if ends || t.stops.afterCallbacks then w'.left && w'.calls == w.calls + Served(t)
            else if verdict.Continue? then
              && !w'.left && w'.inBatch && w'.calls == w.calls + Served(t)
              && w'.budget == Next(c.limits, w.budget, Sample(t.status.Frame?, t.now))
            else if t.stops.afterBatch then w'.left && w'.calls == w.calls + Served(t)
            else if verdict.Checkpoint? then
              && !w'.left && !w'.inBatch && w'.calls == w.calls + Served(t) + [Checkpointed]
              && w'.budget == Next(c.limits, w.budget, Sample(t.status.Frame?, t.now))
            else if t.stops.beforePause then w'.left && w'.calls == w.calls + Served(t) + [Checkpointed]
            else if t.stops.duringPause then w'.left && w'.calls == w.calls + Served(t) + [Checkpointed, PauseBegun]
            else
              && !w'.left && !w'.inBatch && w'.budget == Fresh(t.pausedAt)
              && w'.calls == w.calls + Served(t) + [Checkpointed, PauseBegun, PauseCompleted]
  {
    hide Run, HealthAfter;
    RunBegins(c, started);
    var w, w' := Run(c, started, turns), Run(c, started, turns + [t]);
    assert w' == Step(c, w, t) by { RunMore(c, started, turns, t); }
    assert Transaction(VerdictFor(c, w, t), t) == Served(t) + Tail(VerdictFor(c, w, t), t);
  }

  /**
   What a transaction that was not discarded makes of the transport, over every run: a frame counts from the instant at
   which receive() returned it; a timeout and a checkpoint each find the transport silent if the last frame is a whole
   silence time old at their own instant.
  */
  lemma TransactionShows(c: Settings, started: nat, turns: seq<Turn>, t: Turn)
    ensures var w, w' := Run(c, started, turns), Run(c, started, turns + [t]);
            var h, h' := w.health, w'.health;
            !w.left && !(!w.inBatch && t.stops.beforeBatch) && !t.stops.afterReceive ==>
              var checked := |w'.calls| > |w.calls + Served(t)|;
              match t.status
              case Frame =>
                && h'.last == FrameAt(t.receivedAt)
                && h'.transport == if t.outcome.Fault? then TransportHealth.Faulted
                                   else if checked && t.checkedAt >= t.receivedAt + c.silenceUs then TimedOut
                                   else Live
              case Timeout =>
                && h'.last == h.last
                && h'.transport == if h.last.NoFrame? then AwaitingTraffic
                                   else if t.timedOutAt >= h.last.us + c.silenceUs
                                           || (checked && t.checkedAt >= h.last.us + c.silenceUs) then TimedOut
                                   else h.transport
              case _ => h'.last == h.last && h'.transport.Faulted?
  {
    hide Run, BudgetAfter;
    RunMore(c, started, turns, t);
    RunFaults(c, started, turns);
    var w := Run(c, started, turns);
    assert Transaction(VerdictFor(c, w, t), t) == Served(t) + Tail(VerdictFor(c, w, t), t);
  }

  lemma RunMore(c: Settings, started: nat, turns: seq<Turn>, t: Turn)
    ensures Run(c, started, turns + [t]) == Step(c, Run(c, started, turns), t)
  {
    hide Step;
    assert (turns + [t])[..|turns|] == turns;
  }

  // --- what the worker reports ---------------------------------------------------------------------------------

  /** The updates of the diagnostics that a whole turn makes. */
  function Updates(verdict: Verdict, t: Turn): seq<Event> {
    var tail := Tail(verdict, t);
    [Update(t)]
    + (if Terminal(t) then [FaultStored] else if tail == [] then [] else [Sampled(t.checkedAt)])
    + (if !Terminal(t) && PauseBegun in tail then [PauseTaken] else [])
  }

  function AllUpdates(c: Settings, started: nat, turns: seq<Turn>): seq<Event> {
    if turns == [] then []
    else
      var before, t := turns[..|turns| - 1], turns[|turns| - 1];
      var w := Run(c, started, before);
      AllUpdates(c, started, before) +
      if w.left || (!w.inBatch && t.stops.beforeBatch) || t.stops.afterReceive then []
      else Updates(VerdictFor(c, w, t), t)
  }

  lemma TurnUpdates(c: Settings, h: Health, verdict: Verdict, t: Turn)
    ensures History(c.silenceUs, h, Updates(verdict, t)) == HealthAfter(c, h, t, Tail(verdict, t))
  {
    var tail := Tail(verdict, t);
    var checked := if Terminal(t) then [FaultStored] else if tail == [] then [] else [Sampled(t.checkedAt)];
    var paused := if !Terminal(t) && PauseBegun in tail then [PauseTaken] else [];
    var h1 := Observe(c.silenceUs, h, Update(t));
    HistoryOne(c.silenceUs, h, Update(t));
    HistoryConcat(c.silenceUs, h, [Update(t)], checked);
    HistoryConcat(c.silenceUs, h, [Update(t)] + checked, paused);
    if checked != [] {
      HistoryOne(c.silenceUs, h1, checked[0]);
    }
    if paused != [] {
      HistoryOne(c.silenceUs, History(c.silenceUs, h1, checked), PauseTaken);
    }
  }

  /** The diagnostics of a run are the history of its updates, to which SilenceMeetsHistory applies. */
  lemma {:induction false} RunReports(c: Settings, started: nat, turns: seq<Turn>)
    ensures Run(c, started, turns).health == History(c.silenceUs, STARTED, AllUpdates(c, started, turns))
  {
    if turns == [] {
    } else {
      var before, t := turns[..|turns| - 1], turns[|turns| - 1];
      var w := Run(c, started, before);
      RunReports(c, started, before);
      if !(w.left || (!w.inBatch && t.stops.beforeBatch) || t.stops.afterReceive) {
        HistoryConcat(c.silenceUs, STARTED, AllUpdates(c, started, before), Updates(VerdictFor(c, w, t), t));
        TurnUpdates(c, w.health, VerdictFor(c, w, t), t);
      } else {
        assert AllUpdates(c, started, turns) == AllUpdates(c, started, before);
      }
    }
  }

  // --- fairness ------------------------------------------------------------------------------------------------

  /** The receives since the last `mark`. */
  function Since(calls: seq<Call>, mark: Call): nat {
    if calls == [] || calls[|calls| - 1] == mark then 0
    else Since(calls[..|calls| - 1], mark) + if calls[|calls| - 1].Receive? then 1 else 0
  }

  ghost predicate NeverMoreThan(calls: seq<Call>, mark: Call, limit: nat) {
    forall k :: 0 <= k <= |calls| ==> Since(calls[..k], mark) <= limit
  }

  lemma AppendSince(calls: seq<Call>, call: Call, mark: Call)
    ensures Since(calls + [call], mark) == if call == mark then 0 else Since(calls, mark) + One(call.Receive?)
  {
    assert (calls + [call])[..|calls|] == calls;
  }

  lemma AppendNever(calls: seq<Call>, call: Call, mark: Call, limit: nat)
    requires NeverMoreThan(calls, mark, limit) && Since(calls + [call], mark) <= limit
    ensures NeverMoreThan(calls + [call], mark, limit)
  {
    forall k | 0 <= k <= |calls| + 1 ensures Since((calls + [call])[..k], mark) <= limit {
      if k <= |calls| {
        assert (calls + [call])[..k] == calls[..k];
      } else {
        assert (calls + [call])[..k] == calls + [call];
      }
    }
  }

  /** Calls that receive nothing leave the count alone, unless one is the mark. */
  lemma {:induction false} QuietSince(calls: seq<Call>, more: seq<Call>, mark: Call, limit: nat)
    requires NeverMoreThan(calls, mark, limit)
    requires forall i :: 0 <= i < |more| ==> !more[i].Receive?
    ensures Since(calls + more, mark) == if mark in more then 0 else Since(calls, mark)
    ensures NeverMoreThan(calls + more, mark, limit)
  {
    if more == [] {
      assert calls + more == calls;
    } else {
      var last := |more| - 1;
      var before := calls + more[..last];
      assert Since(calls, mark) <= limit by {
        assert calls[..|calls|] == calls;
      }
      QuietSince(calls, more[..last], mark, limit);
      AppendSince(before, more[last], mark);
      AppendNever(before, more[last], mark, limit);
      assert calls + more == before + [more[last]];
    }
  }

  lemma ReceiveSince(calls: seq<Call>, status: ReceiveStatus, mark: Call, limit: nat)
    requires NeverMoreThan(calls, mark, limit) && Since(calls, mark) < limit && !mark.Receive?
    ensures NeverMoreThan(calls + [Receive(status)], mark, limit)
    ensures Since(calls + [Receive(status)], mark) == Since(calls, mark) + 1
  {
    AppendSince(calls, Receive(status), mark);
    AppendNever(calls, Receive(status), mark, limit);
  }

  lemma TransactionSince(calls: seq<Call>, verdict: Verdict, t: Turn, mark: Call, limit: nat)
    requires NeverMoreThan(calls, mark, limit) && Since(calls, mark) < limit
    requires mark.PauseCompleted? || mark.Checkpointed?
    ensures NeverMoreThan(calls + Transaction(verdict, t), mark, limit)
    ensures Since(calls + Transaction(verdict, t), mark) ==
              if mark in Tail(verdict, t) then 0 else Since(calls, mark) + 1
  {
    hide CallsFor, Tail, Since, NeverMoreThan;
    var received := calls + [Receive(t.status)];
    ReceiveSince(calls, t.status, mark, limit);
    CallsForIsQuiet(t, mark);
    QuietSince(received, CallsFor(t), mark, limit);
    TailIsQuiet(verdict, t);
    QuietSince(received + CallsFor(t), Tail(verdict, t), mark, limit);
    assert calls + Transaction(verdict, t) == received + CallsFor(t) + Tail(verdict, t);
  }

  lemma CallsForIsQuiet(t: Turn, mark: Call)
    requires mark.PauseCompleted? || mark.Checkpointed?
    ensures mark !in CallsFor(t) && forall i :: 0 <= i < |CallsFor(t)| ==> !CallsFor(t)[i].Receive?
  {
  }

  lemma TailIsQuiet(verdict: Verdict, t: Turn)
    ensures forall i :: 0 <= i < |Tail(verdict, t)| ==> !Tail(verdict, t)[i].Receive?
  {
  }

  /** The budget of a worker that goes on counts the receives since the last completed pause and checkpoint. */
  ghost predicate Charged(c: Settings, w: Work) {
    && NeverMoreThan(w.calls, PauseCompleted, c.limits.maxReceiveCalls)
    && NeverMoreThan(w.calls, Checkpointed, c.limits.maxFramesPerBatch)
    && (!w.left ==>
          && Since(w.calls, PauseCompleted) == w.budget.receiveCalls < c.limits.maxReceiveCalls
          && Since(w.calls, Checkpointed) == w.budget.batchFrames < c.limits.maxFramesPerBatch)
  }

  lemma BudgetGoesOn(c: Settings, w: Work, t: Turn)
    requires ValidLimits(c.limits) && !Leaves(VerdictFor(c, w, t), t)
    requires w.budget.receiveCalls < c.limits.maxReceiveCalls && w.budget.batchFrames < c.limits.maxFramesPerBatch
    ensures var tail := Tail(VerdictFor(c, w, t), t);
            var b := BudgetAfter(c, w.budget, t, tail);
            && b.receiveCalls == (if PauseCompleted in tail then 0 else w.budget.receiveCalls + 1)
            && b.batchFrames == (if Checkpointed in tail then 0 else w.budget.batchFrames + 1)
            && b.receiveCalls < c.limits.maxReceiveCalls && b.batchFrames < c.limits.maxFramesPerBatch
  {
  }

  lemma StepCharges(c: Settings, w: Work, t: Turn)
    requires ValidLimits(c.limits) && Charged(c, w)
    ensures Charged(c, Step(c, w, t))
  {
    if w.left || (!w.inBatch && t.stops.beforeBatch) {
    } else if t.stops.afterReceive {
      ReceiveSince(w.calls, t.status, PauseCompleted, c.limits.maxReceiveCalls);
      ReceiveSince(w.calls, t.status, Checkpointed, c.limits.maxFramesPerBatch);
    } else {
      var verdict := VerdictFor(c, w, t);
      TransactionSince(w.calls, verdict, t, PauseCompleted, c.limits.maxReceiveCalls);
      TransactionSince(w.calls, verdict, t, Checkpointed, c.limits.maxFramesPerBatch);
      if !Leaves(verdict, t) {
        BudgetGoesOn(c, w, t);
      }
    }
  }

  /**
   At every point of every run there are at most maxReceiveCalls receives since the last completed pause, and at
   most maxFramesPerBatch since the last checkpoint.
  */
  lemma {:induction false} RunIsFair(c: Settings, started: nat, turns: seq<Turn>)
    requires ValidLimits(c.limits)
    ensures Charged(c, Run(c, started, turns))
  {
    if turns == [] {
    } else {
      RunIsFair(c, started, turns[..|turns| - 1]);
      StepCharges(c, Run(c, started, turns[..|turns| - 1]), turns[|turns| - 1]);
    }
  }

  predicate StopsInPass(t: Turn) {
    t.stops.afterReceive || Terminal(t) || t.stops.afterCallbacks
  }

  /** The work after one pass of the inner loop, up to the verdict on it. */
  function PassWork(c: Settings, w: Work, t: Turn): Work {
    if t.stops.afterReceive then w.(calls := w.calls + [Receive(t.status)], left := true)
    else
      Work(w.calls + ([Receive(t.status)] + CallsFor(t)),
           HealthAfter(c, w.health, t, []),
           if StopsInPass(t) then w.budget else Next(c.limits, w.budget, Sample(t.status.Frame?, t.now)),
           VerdictFor(c, w, t).Continue?,
           StopsInPass(t))
  }

  /** The verdict of a pass; a pass that stops leaves it at Continue. */
  function PassVerdict(c: Settings, w: Work, t: Turn): Verdict {
    if StopsInPass(t) then Continue else VerdictFor(c, w, t)
  }

  /** Unless a verdict ended the batch, the pass is the whole turn. */
  lemma PassIsTurn(c: Settings, w: Work, t: Turn)
    requires !w.left && (w.inBatch || !t.stops.beforeBatch)
    ensures PassVerdict(c, w, t).Continue? ==> PassWork(c, w, t) == Step(c, w, t)
  {
  }

  /** A pass that ended the batch, and what follows the inner loop, are the whole turn. */
  lemma EndIsTurn(c: Settings, w: Work, t: Turn, passed: Work, action: Verdict, w': Work)
    requires !w.left && (w.inBatch || !t.stops.beforeBatch)
    requires passed == PassWork(c, w, t) && action == PassVerdict(c, w, t) && !action.Continue?
    requires w'.calls == passed.calls + Tail(action, t)
    requires w'.health == TailHealth(c, passed.health, t, Tail(action, t))
    requires w'.budget == if PauseCompleted in Tail(action, t) then Fresh(t.pausedAt) else passed.budget
    requires !w'.inBatch && w'.left == Leaves(action, t)
    ensures w' == Step(c, w, t)
  {
  }

  lemma OneMore(c: Settings, started: nat, turns: seq<Turn>, k: nat)
    requires k < |turns|
    ensures Run(c, started, turns[..k + 1]) == Step(c, Run(c, started, turns[..k]), turns[k])
  {
    assert turns[..k + 1][..k] == turns[..k];
  }

  /** The same for the turn after a prefix of the run. */
  lemma PassInRun(c: Settings, started: nat, turns: seq<Turn>, k: nat, w: Work)
    requires k < |turns| && w == Run(c, started, turns[..k])
    requires !w.left && (w.inBatch || !turns[k].stops.beforeBatch)
    ensures PassVerdict(c, w, turns[k]).Continue? ==> PassWork(c, w, turns[k]) == Run(c, started, turns[..k + 1])
    ensures PassWork(c, w, turns[k]).left ==> PassVerdict(c, w, turns[k]).Continue?
    ensures PassVerdict(c, w, turns[k]).Continue? && !PassWork(c, w, turns[k]).left ==> PassWork(c, w, turns[k]).inBatch
  {
    PassIsTurn(c, w, turns[k]);
    OneMore(c, started, turns, k);
  }

  /** A pass that ended a batch did not stop, and neither did its turn before it. */
  lemma EndedPassGoesOn(c: Settings, w: Work, t: Turn)
    requires !PassVerdict(c, w, t).Continue?
    ensures !StopsInPass(t)
  {
  }

  lemma LeavesBeforeBatch(c: Settings, w: Work, t: Turn)
    requires !w.left && !w.inBatch && t.stops.beforeBatch
    ensures Step(c, w, t) == w.(left := true)
  {
  }

  // --- the loop itself -----------------------------------------------------------------------------------------

  class Worker {
    const settings: Settings
    const diagnostics: Diagnostics
    const budget: WorkBudget
    var calls: seq<Call>
    var stopRequested: bool

    ghost predicate Wellformed()
      reads this
    {
      budget.limits == settings.limits && diagnostics.silenceUs == settings.silenceUs
    }

    /** As start() leaves it for the worker's first instruction, at platform time `started`. */
    constructor (settings: Settings, started: nat)
      ensures Wellformed() && this.settings == settings && fresh(diagnostics) && fresh(budget)
      ensures Look(false) == Begun(started)
    {
      this.settings := settings;
      diagnostics := new Diagnostics(settings.silenceUs);
      budget := new WorkBudget(settings.limits, started);
      calls, stopRequested := [], false;
    }

    ghost function Look(inBatch: bool): Work
      reads this, diagnostics, budget
    {
      Work(calls, diagnostics.Now(), budget.Now(), inBatch, stopRequested)
    }

    /** process(), the update of the diagnostics and the callbacks; a terminal outcome requests the stop. */
    method HandleTurn(t: Turn)
      requires Wellformed() && !stopRequested
      modifies this, diagnostics
      ensures Wellformed()
      ensures calls == old(calls) + CallsFor(t)
      ensures diagnostics.Now() == HealthAfter(settings, old(diagnostics.Now()), t, [])
      ensures stopRequested == Terminal(t)
    {
      if t.status.Frame? {
        calls := calls + [Process(t.outcome)];
        diagnostics.TakeFrame(t.receivedAt, t.outcome);
        calls := calls + [FrameCallback(t.outcome)];
        calls := calls + [DiagnosticsCallback];
        if t.outcome.Fault? {
          diagnostics.StoreFault();
          stopRequested := true;
        }
      } else {
        if t.status.Timeout? {
          diagnostics.TakeTimeout(t.timedOutAt);
        } else {
          diagnostics.TakeTerminal();
        }
        calls := calls + [DiagnosticsCallback];
        if TerminalStatus(t.status) {
          diagnostics.StoreFault();
          stopRequested := true;
        }
      }
    }

    /** budget_pause(): false if a stop was seen before or during it. */
    method BudgetPause(t: Turn) returns (completed: bool)
      requires Wellformed() && !stopRequested
      modifies this, diagnostics
      ensures Wellformed()
      ensures completed == !stopRequested == !(t.stops.beforePause || t.stops.duringPause)
      ensures calls == old(calls) + if t.stops.beforePause then [] else [PauseBegun]
      ensures diagnostics.Now() ==
                if t.stops.beforePause then old(diagnostics.Now())
                else Observe(settings.silenceUs, old(diagnostics.Now()), PauseTaken)
    {
      stopRequested := t.stops.beforePause;
      if stopRequested {
        return false;
      }
      diagnostics.RecordBudgetPause();
      calls := calls + [PauseBegun];
      stopRequested := t.stops.duringPause;
      return !stopRequested;
    }

    /** One pass of the inner loop, up to the verdict on it; `w` is the work before it and `after` that after it. */
    method ReceiveOnce(t: Turn, ghost w: Work) returns (action: Verdict, ghost after: Work)
      requires Wellformed() && !stopRequested && w == Look(w.inBatch)
      modifies this, diagnostics, budget
      ensures Wellformed() && after == Look(after.inBatch)
      ensures after == PassWork(settings, w, t) && action == PassVerdict(settings, w, t)
    {
      action := Continue;
      calls := calls + [Receive(t.status)];
      stopRequested := t.stops.afterReceive;
      if stopRequested {
        after := Look(w.inBatch);
        return;
      }
      HandleTurn(t);
      stopRequested := stopRequested || t.stops.afterCallbacks;
      if stopRequested {
        after := Look(VerdictFor(settings, w, t).Continue?);
        return;
      }
      action := budget.AfterReceive(t.status.Frame?, t.now);
      after := Look(action.Continue?);
    }

    /** What follows the inner loop; false when the worker leaves the outer one. */
    method EndBatch(t: Turn, action: Verdict) returns (on: bool)
      requires Wellformed() && !stopRequested && !action.Continue? && !Terminal(t) && !t.stops.afterCallbacks
      modifies this, diagnostics, budget
      ensures Wellformed() && on == !stopRequested == !Leaves(action, t)
      ensures calls == old(calls) + Tail(action, t)
      ensures diagnostics.Now() == TailHealth(settings, old(diagnostics.Now()), t, Tail(action, t))
      ensures budget.Now() == if PauseCompleted in Tail(action, t) then Fresh(t.pausedAt) else old(budget.Now())
    {
      stopRequested := t.stops.afterBatch;
      if stopRequested {
        return false;
      }
      var shown := diagnostics.Read(t.checkedAt);
      calls := calls + [Checkpointed];
      if action.Pause? {
        var completed := BudgetPause(t);
        if !completed {
          return false;
        }
        calls := calls + [PauseCompleted];
        budget.AfterPause(t.pausedAt);
      }
      return true;
    }

    /**
     The inner loop, from the turn that starts a batch; `used` counts the turns used up, `before` and `after` are
     the work before and after the last of them.
    */
    method RunBatch(turns: seq<Turn>, first: nat, ghost started: nat)
      returns (used: nat, action: Verdict, ghost before: Work, ghost after: Work)
      requires first < |turns| && Wellformed() && !stopRequested && !turns[first].stops.beforeBatch
      requires Look(false) == Run(settings, started, turns[..first])
      modifies this, diagnostics, budget
      ensures Wellformed() && first < used <= |turns| && after == Look(after.inBatch)
      ensures after.left || action.Continue? ==> after == Run(settings, started, turns[..used])
      ensures !after.left && action.Continue? ==> used == |turns|
      ensures before == Run(settings, started, turns[..used - 1])
      ensures !before.left && (before.inBatch || !turns[used - 1].stops.beforeBatch)
      ensures after == PassWork(settings, before, turns[used - 1])
      ensures action == PassVerdict(settings, before, turns[used - 1])
    {
      hide Run, Step, PassWork;
      used := first + 1;
      before := Look(false);
      action, after := ReceiveOnce(turns[first], before);
      PassInRun(settings, started, turns, first, before);
      while action.Continue? && !stopRequested && used < |turns|
        invariant Wellformed() && first < used <= |turns| && after == Look(after.inBatch)
        invariant after.left || action.Continue? ==> after == Run(settings, started, turns[..used])
        invariant before == Run(settings, started, turns[..used - 1])
        invariant !before.left && (before.inBatch || !turns[used - 1].stops.beforeBatch)
        invariant !after.left && action.Continue? ==> after.inBatch
        invariant after == PassWork(settings, before, turns[used - 1])
        invariant action == PassVerdict(settings, before, turns[used - 1])
        decreases |turns| - used
      {
        before := after;
        action, after := ReceiveOnce(turns[used], before);
        PassInRun(settings, started, turns, used, before);
        used := used + 1;
      }
    }

    /** run_loop() over the given turns. */
    method RunLoop(turns: seq<Turn>, ghost started: nat) returns (ghost inBatch: bool)
      requires Wellformed() && Look(false) == Begun(started)
      modifies this, diagnostics, budget
      ensures Wellformed()
      ensures Look(inBatch) == Run(settings, started, turns)
    {
      hide Run, Step, PassWork, PassVerdict, TailHealth, Tail, Leaves;
      var i := 0;
      inBatch := false;
      assert turns[..0] == [] && Run(settings, started, []) == Begun(started) by {
        NoTurns(settings, started);
      }
      while i < |turns|
        invariant Wellformed() && i <= |turns|
        invariant Look(inBatch) == Run(settings, started, turns[..i])
        invariant i < |turns| ==> !inBatch && !stopRequested
      {
        OneMore(settings, started, turns, i);
        stopRequested := turns[i].stops.beforeBatch;
        if stopRequested {
          LeavesBeforeBatch(settings, Run(settings, started, turns[..i]), turns[i]);
          Stays(settings, started, turns, i + 1);
          break;
        }
        var used, action;
        ghost var before, after;
        used, action, before, after := RunBatch(turns, i, started);
        inBatch := after.inBatch;
        if stopRequested {
          Stays(settings, started, turns, used);
          break;
        }
        if action.Continue? {
          break;
        }
        var t := turns[used - 1];
        EndedPassGoesOn(settings, before, t);
        var on := EndBatch(t, action);
        inBatch := false;
        OneMore(settings, started, turns, used - 1);
        EndIsTurn(settings, before, t, after, action, Look(false));
        i := used;
        if !on {
          Stays(settings, started, turns, used);
          break;
        }
      }
      assert turns[..|turns|] == turns;
    }
  }

  lemma NoTurns(c: Settings, started: nat)
    ensures Run(c, started, []) == Begun(started)
  {
  }

  /** A worker that left stays where it is. */
  lemma {:induction false} Stays(c: Settings, started: nat, turns: seq<Turn>, k: nat)
    requires k <= |turns| && Run(c, started, turns[..k]).left
    ensures Run(c, started, turns) == Run(c, started, turns[..k])
    decreases |turns| - k
  {
    if k == |turns| {
      assert turns[..k] == turns;
    } else {
      OneMore(c, started, turns, k);
      Stays(c, started, turns, k + 1);
    }
  }
}
