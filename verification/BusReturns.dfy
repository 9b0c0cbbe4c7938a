/**
 Every lifecycle call of BusMachine.dfy returns, whatever its driver calls answer and in whatever state it finds the
 bus: each of its steps brings it closer to its end, but for the wait for an acknowledgement, which is bounded.
*/
module BusReturns {
  import opened BusMachine

  /** A stop() waits for an acknowledgement that has not been given. */
  predicate Waits(b: Bus) {
    b.app.XWaitAck? && b.shared.acks == 0
  }

  function StartLeft(app: App): nat {
    match app
    case SCreateSemaphores => 22
    case SDrainTokens => 21
    case SDrainAcks => 20
    case SInstall => 19
    case SMarkInstalled => 18
    case SDriverStart => 17
    case SMarkStarted => 16
    case SUndoInstall => 16
    case SClearRing => 15
    case SRequest => 14
    case SOwnTask => 13
    case SCreateTask => 12
    case SUnrequest => 11
    case SDisownTask => 10
    case SBeginStop => 9
    case SDriverStop => 8
    case SMarkStopped => 7
    case SUninstall => 6
    case SMarkUninstalled => 5
    case SMarkUndone => 5
    case SAbort(_) => 1
    case SRejected => 1
    case _ => 0
  }

  function StopLeft(app: App, state: Lifecycle): nat {
    match app
    case XLoad => 17
    case XExchange(seen) => if seen == state then 15 else 16
    case XUnrequest => 14
    case XCheckStarted => 13
    case XDriverStop => 12
    case XMarkStopped => 11
    case XCheckOwned(_) => 10
    case XWaitAck(_) => 9
    case XAcknowledge(_) => 8
    case XPollAck(_) => 8
    case XCheckInstalled(_, _) => 7
    case XUninstall => 6
    case XMarkUninstalled => 5
    case RLoadOwned(_) => 4
    case RLoadInstalled(_) => 3
    case RStore(_, _) => 2
    case XDrainTokens => 1
    case _ => 0
  }

  /** The positions a call still passes at most, and the rounds of the drain loop it stands in. */
  function Left(b: Bus): nat {
    StartLeft(b.app) + StopLeft(b.app, b.control.state)
  }

  function Rounds(b: Bus): nat {
    if b.app.SDrainTokens? || b.app.XDrainTokens? then b.shared.tokens
    else if b.app.SDrainAcks? then b.shared.acks
    else 0
  }

  predicate Sooner(b: Bus, t: Bus) {
    Left(t) < Left(b) || (Left(t) == Left(b) && Rounds(t) < Rounds(b))
  }

  lemma StartGoesOn(b: Bus, ok: bool)
    requires InStart(b.app) || b.app.SRejected?
    requires !Reconciling(b.app)
    ensures Sooner(b, StartStep(b, ok))
  {
    hide TaskInLoop;
  }

  lemma StopGoesOn(b: Bus, ok: bool)
    requires !InStart(b.app) && !b.app.SRejected? && !Reconciling(b.app) && !b.app.AIdle? && !(Waits(b) && ok)
    ensures Sooner(b, StopStep(b, ok, false))
  {
    hide TaskInLoop;
  }

  lemma ReconcileGoesOn(b: Bus)
    requires Reconciling(b.app)
    ensures Sooner(b, ReconcileStep(b))
  {
  }

  /** `ok` answers the call that this step makes; the wait ends without an acknowledgement if none is there. */
  function Onward(b: Bus, ok: bool): Bus {
    Step(b, AppStep(ok && !Waits(b), false))
  }

  lemma CallGoesOn(b: Bus, ok: bool)
    requires !b.app.AIdle?
    ensures Sooner(b, Onward(b, ok))
  {
    hide StartStep, StopStep, ReconcileStep, Sooner;
    if Reconciling(b.app) {
      ReconcileGoesOn(b);
    } else if InStart(b.app) || b.app.SRejected? {
      StartGoesOn(b, ok && !Waits(b));
    } else {
      StopGoesOn(b, ok && !Waits(b));
    }
  }

  /** `n` steps of the call, answered in turn from the k-th answer on. */
  function After(b: Bus, answers: nat -> bool, k: nat, n: nat): Bus
    decreases n
  {
    if n == 0 then b else After(Onward(b, answers(k)), answers, k + 1, n - 1)
  }

  /** In every bus whatsoever, and for every pattern of failures, a lifecycle call in progress comes to its return. */
  lemma {:induction false} EveryCallReturns(b: Bus, answers: nat -> bool, k: nat)
    ensures exists n: nat :: After(b, answers, k, n).app.AIdle?
    decreases Left(b), Rounds(b)
  {
    hide Onward, Left, Rounds;
    if b.app.AIdle? {
      assert After(b, answers, k, 0).app.AIdle?;
    } else {
      CallGoesOn(b, answers(k));
      var t := Onward(b, answers(k));
      EveryCallReturns(t, answers, k + 1);
      var n: nat :| After(t, answers, k + 1, n).app.AIdle?;
      assert After(b, answers, k, n + 1) == After(t, answers, k + 1, n);
    }
  }

  /**
   A stop() moves every state but Stopped to Stopping, by an exchange that succeeds only on the state it has seen; if
   that has changed, or if the exchange fails spuriously, it looks again.
  */
  lemma StopExchanges(b: Bus, ok: bool, spurious: bool)
    requires b.app.XExchange?
    ensures var t := Step(b, AppStep(ok, spurious));
            if b.app.seen == b.control.state && !spurious then
              t == b.(control := b.control.(state := Stopping), app := XUnrequest)
            else
              && t.control == b.control && t.driver == b.driver && t.shared == b.shared && t.tasks == b.tasks
              && t.app == match b.control.state
                          case Stopped => AIdle
                          case Stopping => XUnrequest
                          case seen => XExchange(seen)
  {
  }

  /**
   After the task could not be created, a start() takes back the request and the ownership of the task and leaves
   Running before it stops the driver.
  */
  lemma FailedTaskIsTakenBack(b: Bus)
    requires b.app.SUnrequest?
    ensures var t := Onward(Onward(Onward(b, true), true), true);
            t == b.(control := b.control.(taskOwned := false,
                                          state := if b.control.state.Stopped? then Stopped else Stopping),
                    shared := b.shared.(receiveRequested := false), app := SDriverStop)
  {
    hide TaskInLoop, ReconcileStep, StopStep;
    assert Onward(b, true) == b.(shared := b.shared.(receiveRequested := false), app := SDisownTask);
  }

  /** A new bus is Stopped and at rest, and nothing has been installed, created or given. */
  lemma NewBusIsStopped()
    ensures var b := Run([]);
            && b.control == Controller(Stopped, false, false, false) && b.driver == Driver(false, false)
            && b.shared == Shared(false, false, 0, 0, 0) && b.app.AIdle? && b.tasks == [] && b.consumer.CIdle?
            && b.history.violations == {} && !b.history.saturated && b.history.fault == Fault(false, false, false)
            && b.history.call == Call(NoOutcome, false, false, false)
  {
  }
}
