/**
 The transport diagnostics: what the worker's outcomes, its checkpoints and the readers of the diagnostics make of
 the transport health, in the order in which they hold the diagnostics lock.
*/
module Diagnosing {

  datatype TransportHealth = Stopped | AwaitingTraffic | Live | TimedOut | Faulted

  datatype ProcessStatus = Processed | Ignored | Malformed | Fault

  datatype LastFrame = NoFrame | FrameAt(us: nat)

  datatype Tally = Tally(processed: nat, ignored: nat, malformed: nat, faults: nat, pauses: nat)

  /** `running` is whether the lifecycle atomic still reads Running. */
  datatype Health = Health(transport: TransportHealth, last: LastFrame, running: bool, tally: Tally)

  /**
   One update. Times are samples of the injected clock, which may freeze or go back. `Sampled` is a checkpoint of
   the worker or a diagnostics() of any thread; `FaultStored` is the store of the lifecycle that follows the
   update for a terminal outcome, after the callbacks; `StopStored` is the store with which stop() leaves Running
   and `Shown` the health it then puts on show; `PauseTaken` is the start of a budget pause.
  */
  datatype Event =
    | FrameTaken(at: nat, outcome: ProcessStatus)
    | TimeoutTaken(now: nat)
    | TerminalTaken
    | Sampled(now: nat)
    | FaultStored
    | StopStored
    | Shown(faulted: bool)
    | PauseTaken

  const STARTED := Health(AwaitingTraffic, NoFrame, true, Tally(0, 0, 0, 0, 0))

  /** At or after the inclusive silence boundary of the last frame. */
  predicate Silent(silenceUs: nat, last: LastFrame, now: nat) {
    last.FrameAt? && now >= last.us && now - last.us >= silenceUs
  }

  function UpdateSilence(silenceUs: nat, h: Health, now: nat): Health {
    if h.running && Silent(silenceUs, h.last, now) then h.(transport := TimedOut) else h
  }

  function Tallied(t: Tally, outcome: ProcessStatus): Tally {
    match outcome
    case Processed => t.(processed := t.processed + 1)
    case Ignored => t.(ignored := t.ignored + 1)
    case Malformed => t.(malformed := t.malformed + 1)
    case Fault => t.(faults := t.faults + 1)
  }

  /** stop() shows a transport that is stopped, or faulted when its cleanup failed. */
  function ShownHealth(faulted: bool): TransportHealth {
    if faulted then TransportHealth.Faulted else TransportHealth.Stopped
  }

  function Observe(silenceUs: nat, h: Health, e: Event): Health {
    match e
    case FrameTaken(at, outcome) =>
      h.(transport := if outcome.Fault? then TransportHealth.Faulted else Live, last := FrameAt(at),
         tally := Tallied(h.tally, outcome))
    case TimeoutTaken(now) =>
      if h.last.NoFrame? then h.(transport := AwaitingTraffic) else UpdateSilence(silenceUs, h, now)
    case TerminalTaken => h.(transport := TransportHealth.Faulted)
    case Sampled(now) => UpdateSilence(silenceUs, h, now)
    case FaultStored => h.(running := false)
    case StopStored => h.(running := false)
    case Shown(faulted) => h.(transport := ShownHealth(faulted))
    case PauseTaken => h.(tally := h.tally.(pauses := h.tally.pauses + 1))
  }

  function History(silenceUs: nat, h: Health, events: seq<Event>): Health {
    if events == [] then h
    else Observe(silenceUs, History(silenceUs, h, events[..|events| - 1]), events[|events| - 1])
  }

  lemma HistoryOne(silenceUs: nat, h: Health, e: Event)
    ensures History(silenceUs, h, [e]) == Observe(silenceUs, h, e)
  {
    assert [e][..0] == [];
  }

  lemma {:induction false} HistoryConcat(silenceUs: nat, h: Health, a: seq<Event>, b: seq<Event>)
    ensures History(silenceUs, h, a + b) == History(silenceUs, History(silenceUs, h, a), b)
  {
    if b == [] {
      assert a + b == a;
    } else {
      var last := |b| - 1;
      HistoryConcat(silenceUs, h, a, b[..last]);
      assert (a + b)[..|a + b| - 1] == a + b[..last];
    }
  }

  // --- silence against its history -----------------------------------------------------------------------------

  /** Neither the source nor the processor has failed, and nobody has begun to stop. */
  ghost predicate Unfaulted(events: seq<Event>) {
    forall i :: 0 <= i < |events| ==>
      && !events[i].TerminalTaken? && !events[i].FaultStored? && !events[i].StopStored? && !events[i].Shown?
      && (events[i].FrameTaken? ==> !events[i].outcome.Fault?)
  }

  ghost predicate LastFrameIs(events: seq<Event>, k: nat) {
    && k < |events| && events[k].FrameTaken?
    && forall i :: k < i < |events| ==> !events[i].FrameTaken?
  }

  /** A timeout, checkpoint or read at the silence boundary of a frame taken at `at`. */
  predicate SilentSample(silenceUs: nat, at: nat, e: Event) {
    (e.TimeoutTaken? || e.Sampled?) && e.now >= at + silenceUs
  }

  ghost predicate SilenceSeen(silenceUs: nat, events: seq<Event>, k: nat)
    requires k < |events| && events[k].FrameTaken?
  {
    exists i :: k < i < |events| && SilentSample(silenceUs, events[k].at, events[i])
  }

  /**
   Before the first frame the transport awaits traffic. After it, for every clock: it is TimedOut exactly when a
   sample since the last frame was at or after that frame's silence boundary, and Live otherwise.
  */
  lemma {:induction false} SilenceMeetsHistory(silenceUs: nat, events: seq<Event>)
    requires Unfaulted(events)
    ensures var h := History(silenceUs, STARTED, events);
            && h.running
            && (h.last.NoFrame? <==> forall i :: 0 <= i < |events| ==> !events[i].FrameTaken?)
            && (h.last.NoFrame? ==> h.transport.AwaitingTraffic?)
            && (forall k: nat | LastFrameIs(events, k) ::
                  && h.last == FrameAt(events[k].at)
                  && h.transport == if SilenceSeen(silenceUs, events, k) then TimedOut else Live)
  {
    if events == [] {
    } else {
      var before, e := events[..|events| - 1], events[|events| - 1];
      SilenceMeetsHistory(silenceUs, before);
      var h := History(silenceUs, STARTED, events);
      if e.FrameTaken? {
        assert LastFrameIs(events, |events| - 1);
      }
      forall k: nat | LastFrameIs(events, k)
        ensures h.last == FrameAt(events[k].at)
        ensures h.transport == if SilenceSeen(silenceUs, events, k) then TimedOut else Live
      {
        if k < |events| - 1 {
          assert before[k] == events[k];
          assert LastFrameIs(before, k);
          SilenceGrows(silenceUs, events, k);
        }
      }
    }
  }

  lemma SilenceGrows(silenceUs: nat, events: seq<Event>, k: nat)
    requires k < |events| - 1 && events[k].FrameTaken?
    ensures var last := |events| - 1;
            SilenceSeen(silenceUs, events, k) <==>
              SilenceSeen(silenceUs, events[..last], k) || SilentSample(silenceUs, events[k].at, events[last])
  {
    var last := |events| - 1;
    if SilenceSeen(silenceUs, events, k) {
      var i :| k < i < |events| && SilentSample(silenceUs, events[k].at, events[i]);
      assert i < last ==> events[..last][i] == events[i];
    }
    if SilenceSeen(silenceUs, events[..last], k) {
      var i :| k < i < last && SilentSample(silenceUs, events[k].at, events[..last][i]);
      assert events[i] == events[..last][i];
    }
  }

  /** Once a frame has been taken the run never awaits traffic again, whatever happens. */
  lemma {:induction false} TrafficIsNotAwaitedAgain(silenceUs: nat, events: seq<Event>, k: nat)
    requires k < |events| && events[k].FrameTaken?
    ensures var h := History(silenceUs, STARTED, events); h.last.FrameAt? && !h.transport.AwaitingTraffic?
  {
    var last := |events| - 1;
    if k == last {
    } else {
      TrafficIsNotAwaitedAgain(silenceUs, events[..last], k);
    }
  }

  /** Until the first frame a timeout shows that the run awaits traffic, even over what a stop() has put on show. */
  lemma {:induction false} TimeoutAwaitsTraffic(silenceUs: nat, events: seq<Event>, now: nat)
    requires forall i :: 0 <= i < |events| ==> !events[i].FrameTaken?
    ensures History(silenceUs, STARTED, events).last.NoFrame?
    ensures History(silenceUs, STARTED, events + [TimeoutTaken(now)]).transport.AwaitingTraffic?
  {
    assert (events + [TimeoutTaken(now)])[..|events|] == events;
    if events == [] {
    } else {
      TimeoutAwaitsTraffic(silenceUs, events[..|events| - 1], now);
    }
  }

  // --- how long a fault stays visible --------------------------------------------------------------------------

  predicate Failure(e: Event) {
    e.TerminalTaken? || (e.FrameTaken? && e.outcome.Fault?)
  }

  /**
   What can follow a failure in the diagnostics: readers, the worker's own store of the lifecycle, and stop(), which
   stores the lifecycle before it shows a health.
  */
  ghost predicate Aftermath(after: seq<Event>) {
    && (forall i :: 0 <= i < |after| ==>
          after[i].Sampled? || after[i].FaultStored? || after[i].StopStored? || after[i].Shown?)
    && (forall i :: 0 <= i < |after| && after[i].Shown? ==> !StillRunning(after, i))
  }

  /** Nobody has stored the lifecycle before position k. */
  ghost predicate StillRunning(after: seq<Event>, k: nat)
    requires k <= |after|
  {
    forall i :: 0 <= i < k ==> !after[i].FaultStored? && !after[i].StopStored?
  }

  /** A read at the silence boundary while the lifecycle still reads Running. */
  ghost predicate MasksAt(silenceUs: nat, last: LastFrame, after: seq<Event>, k: nat) {
    && k < |after| && after[k].Sampled? && StillRunning(after, k)
    && last.FrameAt? && after[k].now >= last.us + silenceUs
  }

  ghost predicate Masked(silenceUs: nat, last: LastFrame, after: seq<Event>) {
    exists k: nat :: MasksAt(silenceUs, last, after, k)
  }

  ghost predicate LastShown(after: seq<Event>, k: nat) {
    && k < |after| && after[k].Shown?
    && forall i :: k < i < |after| ==> !after[i].Shown?
  }

  ghost predicate NothingShown(after: seq<Event>) {
    forall i :: 0 <= i < |after| ==> !after[i].Shown?
  }

  lemma MaskGrows(silenceUs: nat, last: LastFrame, after: seq<Event>)
    requires after != []
    ensures var n := |after| - 1;
            Masked(silenceUs, last, after) <==>
              Masked(silenceUs, last, after[..n]) || MasksAt(silenceUs, last, after, n)
  {
    var n := |after| - 1;
    if k: nat :| MasksAt(silenceUs, last, after, k) {
      assert k < n ==> MasksAt(silenceUs, last, after[..n], k);
    }
    if k: nat :| MasksAt(silenceUs, last, after[..n], k) {
      assert MasksAt(silenceUs, last, after, k);
    }
  }

  /** The health in the aftermath of a failure: what stop() showed last, else what a masking read left. */
  ghost predicate Explained(silenceUs: nat, h: Health, after: seq<Event>, h': Health) {
    && h'.last == h.last
    && h'.running == StillRunning(after, |after|)
    && (NothingShown(after) ==> h'.transport == if Masked(silenceUs, h.last, after) then TimedOut else h.transport)
    && (forall k: nat | LastShown(after, k) ::
          h'.transport == if after[k].faulted then TransportHealth.Faulted else TransportHealth.Stopped)
  }

  /** One more event of the aftermath. */
  lemma EventIsExplained(silenceUs: nat, h: Health, after: seq<Event>, h': Health)
    requires after != [] && Aftermath(after) && Explained(silenceUs, h, after[..|after| - 1], h')
    ensures Explained(silenceUs, h, after, Observe(silenceUs, h', after[|after| - 1]))
  {
    var n := |after| - 1;
    var before, e := after[..n], after[n];
    MaskGrows(silenceUs, h.last, after);
    assert StillRunning(before, n) == StillRunning(after, n);
    assert StillRunning(after, n + 1) == (StillRunning(after, n) && !e.FaultStored? && !e.StopStored?);
    assert NothingShown(after) == (NothingShown(before) && !e.Shown?);
    assert e.Shown? ==> LastShown(after, n) && !StillRunning(after, n);
    forall k: nat | LastShown(after, k) ensures k == n || LastShown(before, k) {
      assert k < n ==> before[k] == after[k] && !e.Shown?;
    }
    LastShownIsKept(silenceUs, h, after, h');
  }

  /** A health on show is replaced by nothing but another one: the lifecycle has left Running by then. */
  lemma LastShownIsKept(silenceUs: nat, h: Health, after: seq<Event>, h': Health)
    requires after != [] && Aftermath(after) && Explained(silenceUs, h, after[..|after| - 1], h')
    ensures forall k: nat | LastShown(after, k) ::
              Observe(silenceUs, h', after[|after| - 1]).transport
              == if after[k].faulted then TransportHealth.Faulted else TransportHealth.Stopped
  {
    var n := |after| - 1;
    var before := after[..n];
    forall k: nat | LastShown(after, k)
      ensures Observe(silenceUs, h', after[n]).transport
              == if after[k].faulted then TransportHealth.Faulted else TransportHealth.Stopped
    {
      if k < n {
        assert before[k] == after[k] && LastShown(before, k) && !StillRunning(after, k);
        assert !StillRunning(before, n);
      }
    }
  }

  lemma {:induction false} AftermathIsExplained(silenceUs: nat, h: Health, after: seq<Event>)
    requires h.running && Aftermath(after)
    ensures Explained(silenceUs, h, after, History(silenceUs, h, after))
  {
    hide Explained, Observe;
    if after == [] {
      NothingToExplain(silenceUs, h);
    } else {
      var before := after[..|after| - 1];
      AftermathBefore(after);
      AftermathIsExplained(silenceUs, h, before);
      EventIsExplained(silenceUs, h, after, History(silenceUs, h, before));
    }
  }

  lemma NothingToExplain(silenceUs: nat, h: Health)
    requires h.running
    ensures Explained(silenceUs, h, [], h)
  {
  }

  lemma AftermathBefore(after: seq<Event>)
    requires Aftermath(after) && after != []
    ensures Aftermath(after[..|after| - 1])
  {
    var before := after[..|after| - 1];
    forall i | 0 <= i < |before| && before[i].Shown? ensures !StillRunning(before, i) {
      assert after[i].Shown? && !StillRunning(after, i);
    }
  }

  /**
   After a failure the transport shows what stop() last put on show. As long as nothing was shown, it stays Faulted
   if and only if nobody read the diagnostics at or after the silence boundary of the last frame before the lifecycle
   left Running; after such a read it is TimedOut.
  */
  lemma FaultStaysVisibleIff(silenceUs: nat, h: Health, failure: Event, after: seq<Event>)
    requires h.running && Failure(failure) && Aftermath(after)
    ensures var failed := Observe(silenceUs, h, failure);
            var transport := History(silenceUs, failed, after).transport;
            && (forall k: nat | LastShown(after, k) ::
                  transport == if after[k].faulted then TransportHealth.Faulted else TransportHealth.Stopped)
            && (NothingShown(after) ==>
                  && (transport.Faulted? <==> !Masked(silenceUs, failed.last, after))
                  && (transport.TimedOut? <==> Masked(silenceUs, failed.last, after)))
  {
    AftermathIsExplained(silenceUs, Observe(silenceUs, h, failure), after);
  }

  /** A source fault long after the last frame, read once before the lifecycle is stored, is masked for good. */
  lemma FaultCanBeMasked()
    ensures exists h: Health, after: seq<Event> ::
              && h == History(100, STARTED, [FrameTaken(0, Processed)])
              && Aftermath(after) && after == [Sampled(100), FaultStored]
              && History(100, Observe(100, h, TerminalTaken), after).transport.TimedOut?
  {
    HistoryOne(100, STARTED, FrameTaken(0, Processed));
    var h := History(100, STARTED, [FrameTaken(0, Processed)]);
    var after := [Sampled(100), FaultStored];
    FaultStaysVisibleIff(100, h, TerminalTaken, after);
    assert MasksAt(100, h.last, after, 0) && NothingShown(after);
    assert Aftermath(after) && History(100, Observe(100, h, TerminalTaken), after).transport.TimedOut?;
  }

  // --- the record itself ---------------------------------------------------------------------------------------

  /** The diagnostics record, each method one critical section of its mutex. */
  class Diagnostics {
    const silenceUs: nat
    var transport: TransportHealth
    var hasLastFrame: bool
    var lastFrameUs: nat
    var running: bool
    var tally: Tally

    ghost function Now(): Health
      reads this
    {
      Health(transport, if hasLastFrame then FrameAt(lastFrameUs) else NoFrame, running, tally)
    }

    /** As a successful start() leaves it. */
    constructor (silenceUs: nat)
      ensures this.silenceUs == silenceUs && Now() == STARTED
    {
      this.silenceUs := silenceUs;
      transport, hasLastFrame, lastFrameUs, running := AwaitingTraffic, false, 0, true;
      tally := Tally(0, 0, 0, 0, 0);
    }

    method UpdateSilenceLocked(now: nat)
      modifies this`transport
      ensures Now() == Observe(silenceUs, old(Now()), Sampled(now))
    {
      if !running || !hasLastFrame {
        return;
      }
      if now >= lastFrameUs && now - lastFrameUs >= silenceUs {
        transport := TimedOut;
      }
    }

    method TakeFrame(at: nat, outcome: ProcessStatus)
      modifies this
      ensures Now() == Observe(silenceUs, old(Now()), FrameTaken(at, outcome))
    {
      transport := Live;
      hasLastFrame := true;
      lastFrameUs := at;
      match outcome {
        case Processed => tally := tally.(processed := tally.processed + 1);
        case Ignored => tally := tally.(ignored := tally.ignored + 1);
        case Malformed => tally := tally.(malformed := tally.malformed + 1);
        case Fault =>
          tally := tally.(faults := tally.faults + 1);
          transport := TransportHealth.Faulted;
      }
    }

    method TakeTimeout(now: nat)
      modifies this`transport
      ensures Now() == Observe(silenceUs, old(Now()), TimeoutTaken(now))
    {
      if !hasLastFrame {
        transport := AwaitingTraffic;
      } else {
        UpdateSilenceLocked(now);
      }
    }

    method TakeTerminal()
      modifies this`transport
      ensures Now() == Observe(silenceUs, old(Now()), TerminalTaken)
    {
      transport := TransportHealth.Faulted;
    }

    method StoreFault()
      modifies this`running
      ensures Now() == Observe(silenceUs, old(Now()), FaultStored)
    {
      running := false;
    }

    /** stop() stores the lifecycle. */
    method StoreStop()
      modifies this`running
      ensures Now() == Observe(silenceUs, old(Now()), StopStored)
    {
      running := false;
    }

    /** The transport part of set_lifecycle_diagnostic(). */
    method ShowLifecycle(faulted: bool)
      modifies this`transport
      ensures Now() == Observe(silenceUs, old(Now()), Shown(faulted))
      ensures transport == if faulted then TransportHealth.Faulted else TransportHealth.Stopped
    {
      transport := if faulted then TransportHealth.Faulted else TransportHealth.Stopped;
    }

    method RecordBudgetPause()
      modifies this`tally
      ensures Now() == Observe(silenceUs, old(Now()), PauseTaken)
    {
      tally := tally.(pauses := tally.pauses + 1);
    }

    /** diagnostics(): the read itself may find the transport silent. */
    method Read(now: nat) returns (shown: TransportHealth)
      modifies this`transport
      ensures Now() == Observe(silenceUs, old(Now()), Sampled(now)) && shown == transport
    {
      UpdateSilenceLocked(now);
      return transport;
    }
  }
}
