/**
 The frames behind the depth of BusMachine.dfy: what the receive tasks push, what receive() hands out and what the
 next start clears away, for every interleaving of the tasks and the consumer.
*/
module BusFrames {
  import opened Frames
  import opened BusMachine

  /**
   The bus with the content of its ring. `accepted` and `answered` list what was pushed and what receive() answered Ok
   with since the ring was last cleared.
  */
  datatype Traced = Traced(bus: Bus, queue: seq<RawCanFrame>, accepted: seq<RawCanFrame>, answered: seq<RawCanFrame>)

  /** A task in front of a valid frame, with room in the ring. */
  predicate Pushes(b: Bus, a: Action) {
    && a.TaskStep? && a.reception.ValidFrame?
    && a.task < |b.tasks| && b.tasks[a.task].TReceive? && b.shared.depth < QUEUE_CAPACITY
  }

  predicate Clears(b: Bus, a: Action) {
    a.AppStep? && b.app.SClearRing?
  }

  predicate Pops(b: Bus, a: Action) {
    a.ConsumerStep? && b.consumer.CPop?
  }

  /** `frame` is the one that the driver delivers, if this step receives one. */
  function Step(t: Traced, a: Action, frame: RawCanFrame): Traced {
    var b := BusMachine.Step(t.bus, a);
    if Pushes(t.bus, a) then Traced(b, t.queue + [frame], t.accepted + [frame], t.answered)
    else if Clears(t.bus, a) then Traced(b, [], [], [])
    else if Pops(t.bus, a) && t.queue != [] then Traced(b, t.queue[1..], t.accepted, t.answered + [t.queue[0]])
    else t.(bus := b)
  }

  function Run(steps: seq<(Action, RawCanFrame)>): Traced {
    if steps == [] then Traced(Initial(), [], [], [])
    else
      var last := steps[|steps| - 1];
      Step(Run(steps[..|steps| - 1]), last.0, last.1)
  }

  /** How the depth follows from the step, whatever the threads are doing. */
  function DepthAfter(b: Bus, a: Action): nat {
    if Pushes(b, a) then b.shared.depth + 1
    else if Clears(b, a) then 0
    else if Pops(b, a) then Less(b.shared.depth)
    else b.shared.depth
  }

  /** Up to the start of the driver. */
  predicate Bringing(app: App) {
    || app.SRejected? || app.SCreateSemaphores? || app.SAbort? || app.SDrainTokens? || app.SDrainAcks? || app.SInstall?
    || app.SMarkInstalled? || app.SDriverStart? || app.SUndoInstall? || app.SMarkUndone?
  }

  lemma BringingDepth(b: Bus, ok: bool)
    requires Bringing(b.app)
    ensures StartStep(b, ok).shared.depth == b.shared.depth
  {
    hide TaskInLoop;
  }

  lemma LaunchingDepth(b: Bus, ok: bool)
    requires !Bringing(b.app)
    ensures StartStep(b, ok).shared.depth == if b.app.SClearRing? then 0 else b.shared.depth
  {
    hide TaskInLoop;
  }

  lemma StartDepth(b: Bus, ok: bool)
    ensures StartStep(b, ok).shared.depth == if b.app.SClearRing? then 0 else b.shared.depth
  {
    hide StartStep;
    if Bringing(b.app) {
      BringingDepth(b, ok);
    } else {
      LaunchingDepth(b, ok);
    }
  }

  lemma StopDepth(b: Bus, ok: bool, spurious: bool)
    ensures StopStep(b, ok, spurious).shared.depth == b.shared.depth
  {
    hide TaskInLoop;
  }

  lemma ReconcileDepth(b: Bus)
    ensures ReconcileStep(b).shared.depth == b.shared.depth
  {
  }

  lemma TaskDepth(b: Bus, i: nat, reception: Reception, ok: bool, spurious: bool)
    requires i < |b.tasks|
    ensures OneTaskStep(b, i, reception, ok, spurious).shared.depth
            == DepthAfter(b, TaskStep(i, reception, ok, spurious))
  {
  }

  lemma StepDepth(b: Bus, a: Action)
    ensures BusMachine.Step(b, a).shared.depth == DepthAfter(b, a)
  {
    hide StartStep, StopStep, ReconcileStep, OneTaskStep;
    match a {
      case AppStep(ok, spurious) =>
        StartDepth(b, ok);
        StopDepth(b, ok, spurious);
        ReconcileDepth(b);
      case TaskStep(i, reception, ok, spurious) => if i < |b.tasks| { TaskDepth(b, i, reception, ok, spurious); }
      case _ =>
    }
  }

  ghost predicate Lined(t: Traced) {
    |t.queue| == t.bus.shared.depth && t.answered + t.queue == t.accepted
  }

  lemma StepKeepsLine(t: Traced, a: Action, frame: RawCanFrame)
    requires Lined(t)
    ensures Lined(Step(t, a, frame))
  {
    hide BusMachine.Step;
    StepDepth(t.bus, a);
    if Pushes(t.bus, a) {
      assert t.answered + (t.queue + [frame]) == t.accepted + [frame];
    } else if Pops(t.bus, a) && t.queue != [] {
      assert t.answered + [t.queue[0]] + t.queue[1..] == t.answered + t.queue;
    }
  }

  lemma {:induction false} RunKeepsLine(steps: seq<(Action, RawCanFrame)>)
    ensures Lined(Run(steps))
  {
    hide Step;
    if steps == [] {
    } else {
      var before, last := steps[..|steps| - 1], steps[|steps| - 1];
      RunKeepsLine(before);
      StepKeepsLine(Run(before), last.0, last.1);
    }
  }

  /**
   In every interleaving of start(), stop(), the receive tasks and receive(), late acknowledgements included: the
   frames answered so far followed by those still queued are the frames accepted since the ring was last cleared, in
   order; a receive() that is about to pop answers Ok with the oldest queued frame if there is one, and DriverFailure
   exactly if there is none.
  */
  lemma ReceiveAnswersInOrder(steps: seq<(Action, RawCanFrame)>, frame: RawCanFrame)
    ensures var t := Run(steps);
            && t.answered + t.queue == t.accepted
            && |t.queue| == t.bus.shared.depth
            && (t.bus.consumer.CPop? ==>
                  var t' := Step(t, ConsumerStep, frame);
                  if t.queue == [] then t'.bus.history.received.DriverFailure? && t'.answered == t.answered
                  else t'.bus.history.received.Ok? && t'.answered == t.answered + [t.queue[0]])
  {
    hide Run;
    RunKeepsLine(steps);
  }
}
