/**
 The lifecycle controller as one thread sees it: the externally visible state, and ownership of driver and task
 kept apart from it. Weak exchanges may fail spuriously any number of times.
*/
module LifecycleControl {
  import opened BusMachine

  /** The state that ownership alone determines. */
  function Reconciled(c: Controller): Lifecycle {
    if c.taskOwned then Stopping else if c.installed then Faulted else Stopped
  }

  class LifecycleController {
    var state: Lifecycle
    var driverInstalled: bool
    var driverStarted: bool
    var taskOwned: bool

    ghost function Look(): Controller
      reads this
    {
      Controller(state, driverInstalled, driverStarted, taskOwned)
    }

    constructor ()
      ensures Look() == Controller(Stopped, false, false, false)
    {
      state, driverInstalled, driverStarted, taskOwned := Stopped, false, false, false;
    }

    method BeginStart() returns (begun: bool)
      modifies this`state
      ensures begun == old(state).Stopped? && state == if begun then Running else old(state)
    {
      begun := state.Stopped?;
      if begun {
        state := Running;
      }
    }

    method AbortStart()
      modifies this`state
      ensures state == if driverInstalled || taskOwned then old(state) else Stopped
    {
      if !driverInstalled && !taskOwned {
        state := Stopped;
      }
    }

    method MarkDriverInstalled(installed: bool)
      modifies this`driverInstalled
      ensures driverInstalled == installed
    {
      driverInstalled := installed;
    }

    method MarkDriverStarted(started: bool)
      modifies this`driverStarted
      ensures driverStarted == started
    {
      driverStarted := started;
    }

    method MarkTaskCreated()
      modifies this`taskOwned
      ensures taskOwned
    {
      taskOwned := true;
    }

    method AcknowledgeTask()
      modifies this`taskOwned
      ensures !taskOwned
    {
      taskOwned := false;
    }

    /** The request is accepted from every state but Stopped, and leaves Stopping behind. */
    method BeginStop(spurious: nat) returns (begun: bool)
      modifies this`state
      ensures begun == !old(state).Stopped? && state == if begun then Stopping else Stopped
    {
      var current, failures := state, spurious;
      while true
        invariant state == current == old(state)
        decreases failures
      {
        if current.Stopped? {
          return false;
        }
        if current.Stopping? {
          return true;
        }
        if failures == 0 {
          state := Stopping;
          return true;
        }
        failures, current := failures - 1, state;
      }
    }

    /** Only the transition into Faulted is new; a stopped controller takes no fault. */
    method LatchFault(spurious: nat) returns (latched: bool)
      modifies this`state
      ensures latched == (old(state).Running? || old(state).Stopping?)
      ensures state == if latched then Faulted else old(state)
    {
      var current, failures := state, spurious;
      while true
        invariant state == current == old(state)
        decreases failures
      {
        if current.Faulted? || current.Stopped? {
          return false;
        }
        if failures == 0 {
          state := Faulted;
          return true;
        }
        failures, current := failures - 1, state;
      }
    }

    method Reconcile()
      modifies this`state
      ensures state == Reconciled(old(Look()))
      ensures (state.Stopping? <==> taskOwned) && (state.Faulted? <==> !taskOwned && driverInstalled)
      ensures state.Stopped? <==> !taskOwned && !driverInstalled
    {
      if taskOwned {
        state := Stopping;
      } else if driverInstalled {
        state := Faulted;
      } else {
        state := Stopped;
      }
    }
  }
}
