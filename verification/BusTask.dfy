/**
 What the receive task of BusMachine.dfy does between the steps of the other threads: one round of its loop, the
 latching of a fault and its end, from every bus in which it stands there.
*/
module BusTask {
  import opened BusMachine

  /** What the driver answers to one step of the task. */
  datatype Reply = Reply(reception: Reception, ok: bool)

  /** Task i takes one step for each reply, and no weak exchange fails spuriously. */
  function Alone(b: Bus, i: nat, replies: seq<Reply>): Bus
    decreases |replies|
  {
    if replies == [] then b
    else Alone(Step(b, TaskStep(i, replies[0].reception, replies[0].ok, false)), i, replies[1..])
  }

  lemma AloneOne(b: Bus, i: nat, r: Reply)
    ensures Alone(b, i, [r]) == Step(b, TaskStep(i, r.reception, r.ok, false))
  {
    hide Step;
    var t := Step(b, TaskStep(i, r.reception, r.ok, false));
    assert [r][1..] == [] && Alone(t, i, []) == t;
  }

  lemma AloneMore(b: Bus, i: nat, r: Reply, more: seq<Reply>)
    ensures Alone(b, i, [r] + more) == Alone(Step(b, TaskStep(i, r.reception, r.ok, false)), i, more)
  {
    hide Step;
    assert ([r] + more)[1..] == more;
  }

  function At(b: Bus, i: nat, task: Task): Bus
    requires i < |b.tasks|
  {
    b.(tasks := b.tasks[i := task])
  }

  /** A valid frame for which there is room is in the ring, and its token in the semaphore unless that is full. */
  function Queued(b: Bus): Bus {
    b.(shared := b.shared.(depth := b.shared.depth + 1,
                           tokens := if b.shared.tokens < 64 then b.shared.tokens + 1 else b.shared.tokens),
       history := b.history.(saturated := b.history.saturated || b.shared.tokens >= 64))
  }

  /** The steps of one round. */
  function Round(pushed: bool, reception: Reception, statusOk: bool, alertsOk: bool): seq<Reply> {
    [Reply(reception, true), Reply(reception, true)]
    + (if pushed then [Reply(reception, true)] else [])
    + [Reply(reception, statusOk)] + (if statusOk then [Reply(reception, alertsOk)] else [])
  }

  /**
   A requested task takes one reception per round: a valid frame goes into the ring if there is room and is signalled,
   anything else but a failure changes nothing. Then it reads status and alerts, and goes on exactly if both reads
   succeed and report no fault.
  */
  lemma UndisturbedRound(b: Bus, i: nat, reception: Reception, statusOk: bool, alertsOk: bool)
    requires i < |b.tasks| && b.tasks[i].TLoop? && b.shared.receiveRequested && !reception.Broken?
    ensures var pushed := reception.ValidFrame? && b.shared.depth < 64;
            Alone(b, i, Round(pushed, reception, statusOk, alertsOk))
            == At(if pushed then Queued(b) else b, i, if statusOk && alertsOk then TLoop else TLatchFlag)
  {
    hide Step, Alone;
    var pushed := reception.ValidFrame? && b.shared.depth < 64;
    var r := Reply(reception, true);
    var checks := [Reply(reception, statusOk)] + (if statusOk then [Reply(reception, alertsOk)] else []);
    ReceptionTaken(b, i, reception);
    var s := At(b, i, TReceive);
    var after := if pushed then Queued(b) else b;
    if pushed {
      var u := At(b, i, TSignal).(shared := b.shared.(depth := b.shared.depth + 1));
      AloneMore(u, i, r, checks);
      AloneMore(s, i, r, [r] + checks);
      AloneMore(b, i, r, [r] + ([r] + checks));
      assert Round(pushed, reception, statusOk, alertsOk) == [r] + ([r] + ([r] + checks));
    } else {
      AloneMore(s, i, r, checks);
      AloneMore(b, i, r, [r] + checks);
      assert Round(pushed, reception, statusOk, alertsOk) == [r] + ([r] + checks);
    }
    StatusRead(after, b.tasks, i, reception, statusOk, alertsOk);
  }

  lemma ReceptionTaken(b: Bus, i: nat, reception: Reception)
    requires i < |b.tasks| && b.tasks[i].TLoop? && b.shared.receiveRequested && !reception.Broken?
    ensures Step(b, TaskStep(i, reception, true, false)) == At(b, i, TReceive)
    ensures var s := At(b, i, TReceive);
            var u := At(b, i, TSignal).(shared := b.shared.(depth := b.shared.depth + 1));
            if reception.ValidFrame? && b.shared.depth < 64 then
              && Step(s, TaskStep(i, reception, true, false)) == u
              && Step(u, TaskStep(i, reception, true, false)) == At(Queued(b), i, TStatus)
            else Step(s, TaskStep(i, reception, true, false)) == At(b, i, TStatus)
  {
  }

  lemma StatusRead(b: Bus, tasks: seq<Task>, i: nat, reception: Reception, statusOk: bool, alertsOk: bool)
    requires b.tasks == tasks && i < |tasks|
    ensures Alone(At(b, i, TStatus), i,
                  [Reply(reception, statusOk)] + (if statusOk then [Reply(reception, alertsOk)] else []))
            == At(b, i, if statusOk && alertsOk then TLoop else TLatchFlag)
  {
    hide Alone;
    var s := At(b, i, TStatus);
    assert Step(s, TaskStep(i, reception, statusOk, false)) == At(b, i, if statusOk then TAlerts else TLatchFlag);
    if statusOk {
      var u := At(b, i, TAlerts);
      assert Step(u, TaskStep(i, reception, alertsOk, false)) == At(b, i, if alertsOk then TLoop else TLatchFlag);
      AloneMore(s, i, Reply(reception, true), [Reply(reception, alertsOk)]);
      AloneOne(u, i, Reply(reception, alertsOk));
    } else {
      assert [Reply(reception, false)] + [] == [Reply(reception, false)];
      AloneOne(s, i, Reply(reception, false));
    }
  }

  /** A failed reception leads straight to the latching of the fault. */
  lemma BrokenReception(b: Bus, i: nat)
    requires i < |b.tasks| && b.tasks[i].TLoop? && b.shared.receiveRequested
    ensures Alone(b, i, [Reply(Broken, true), Reply(Broken, true)]) == At(b, i, TLatchFlag)
  {
    hide Alone;
    var r := Reply(Broken, true);
    assert [r, r] == [r] + [r];
    AloneMore(b, i, r, [r]);
    assert Step(b, TaskStep(i, Broken, true, false)) == At(b, i, TReceive);
    AloneOne(At(b, i, TReceive), i, r);
  }

  /**
   Latching a fault stops the loop of every task. A bus that runs or stops becomes Faulted, and gets one token if the
   semaphore exists and has room; a bus that is Faulted or Stopped already stays as it is.
  */
  lemma FaultIsLatched(b: Bus, i: nat)
    requires i < |b.tasks| && b.tasks[i].TLatchFlag?
    ensures var r := Reply(Idle, true);
            var quiet := b.shared.(receiveRequested := false);
            var tokens := if b.shared.semaphores && b.shared.tokens < 64 then b.shared.tokens + 1 else b.shared.tokens;
            if b.control.state.Running? || b.control.state.Stopping? then
              Alone(b, i, [r] + ([r] + ([r] + [r])))
              == At(b, i, TExit).(control := b.control.(state := Faulted), shared := quiet.(tokens := tokens),
                                  history := b.history.(fault := b.history.fault.(latched := true, signalled := true)))
            else
              Alone(b, i, [r] + [r]) == At(b, i, TExit).(shared := quiet)
  {
    hide Alone;
    var r := Reply(Idle, true);
    FlagIsLowered(b, i);
    var s := At(b, i, TLatchLoad).(shared := b.shared.(receiveRequested := false));
    if b.control.state.Running? || b.control.state.Stopping? {
      AloneMore(b, i, r, [r] + ([r] + [r]));
      AloneMore(s, i, r, [r] + [r]);
      ExchangeLatches(s, i);
      var u := At(s, i, TLatchExchange(s.control.state));
      var v := Step(u, TaskStep(i, Idle, true, false));
      AloneMore(u, i, r, [r]);
      AloneOne(v, i, r);
    } else {
      AloneMore(b, i, r, [r]);
      AloneOne(s, i, r);
    }
  }

  lemma FlagIsLowered(b: Bus, i: nat)
    requires i < |b.tasks| && b.tasks[i].TLatchFlag?
    ensures var s := At(b, i, TLatchLoad).(shared := b.shared.(receiveRequested := false));
            && Step(b, TaskStep(i, Idle, true, false)) == s
            && Step(s, TaskStep(i, Idle, true, false))
               == At(s, i, if b.control.state.Running? || b.control.state.Stopping?
                           then TLatchExchange(b.control.state) else TExit)
  {
  }

  lemma ExchangeLatches(b: Bus, i: nat)
    requires i < |b.tasks| && (b.control.state.Running? || b.control.state.Stopping?)
    ensures var u := At(b, i, TLatchExchange(b.control.state));
            var v := Step(u, TaskStep(i, Idle, true, false));
            var tokens := if b.shared.semaphores && b.shared.tokens < 64 then b.shared.tokens + 1 else b.shared.tokens;
            && v == At(b, i, TLatchSignal).(control := b.control.(state := Faulted),
                                            history := b.history.(fault := b.history.fault.(latched := true)))
            && Step(v, TaskStep(i, Idle, true, false))
               == At(v, i, TExit).(shared := b.shared.(tokens := tokens),
                                   history := b.history.(fault := b.history.fault.(latched := true, signalled := true)))
  {
  }

  /** Whoever changed the state in between, and if the exchange fails spuriously, the loop looks at the new state. */
  lemma ExchangeLooksAgain(b: Bus, i: nat, reception: Reception, ok: bool, spurious: bool)
    requires i < |b.tasks| && b.tasks[i].TLatchExchange? && (spurious || b.tasks[i].seen != b.control.state)
    ensures Step(b, TaskStep(i, reception, ok, spurious))
            == At(b, i, if b.control.state.Running? || b.control.state.Stopping?
                        then TLatchExchange(b.control.state) else TExit)
  {
  }

  /**
   A task that is no longer requested leaves its loop, gives up its ownership and acknowledges; delayed in between or
   not, the task is gone in the end and the acknowledgement there.
  */
  lemma StoppedTaskLeaves(b: Bus, i: nat)
    requires i < |b.tasks|
    ensures var r := Reply(Idle, true);
            var others := b.tasks[..i] + b.tasks[i + 1..];
            var given := b.shared.(acks := 1);
            && (b.tasks[i].TLoop? && !b.shared.receiveRequested ==> Alone(b, i, [r]) == At(b, i, TExit))
            && (b.tasks[i].TExit? ==>
                  && var left := b.(tasks := others, control := b.control.(taskOwned := false), shared := given);
                  && Alone(b, i, [r]) == left
                  && Alone(Step(b, DelayedExit(i)), i, [r]) == left)
  {
    hide Alone;
    var r := Reply(Idle, true);
    AloneOne(b, i, r);
    if b.tasks[i].TExit? {
      DelayedTaskLeaves(b, i);
      AloneOne(Step(b, DelayedExit(i)), i, r);
    }
  }

  lemma DelayedTaskLeaves(b: Bus, i: nat)
    requires i < |b.tasks| && b.tasks[i].TExit?
    ensures var d := Step(b, DelayedExit(i));
            && d == At(b, i, TGiveAck).(control := b.control.(taskOwned := false))
            && Step(d, TaskStep(i, Idle, true, false))
               == b.(tasks := b.tasks[..i] + b.tasks[i + 1..], control := b.control.(taskOwned := false),
                     shared := b.shared.(acks := 1))
  {
    var d := Step(b, DelayedExit(i));
    assert d.tasks[..i] == b.tasks[..i] && d.tasks[i + 1..] == b.tasks[i + 1..];
  }
}
