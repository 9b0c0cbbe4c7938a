/** A source bound to the bus, as an object: its configuration and its cleanup claim. */
module SourceObject {
  import opened CanBuses
  import opened SourceBinding
  import opened Telemetry

  class CanBusSource {
    const bus: CanBus
    /** What this source starts the bus with; the bus keeps it as its identifier. */
    var configuration: nat
    var ownsAcquisition: bool

    constructor (bus: CanBus, configuration: nat)
      ensures this.bus == bus && this.configuration == configuration && !ownsAcquisition
    {
      this.bus, this.configuration, ownsAcquisition := bus, configuration, false;
    }

    /** A copy carries the configuration, never the claim. */
    constructor Copy(other: CanBusSource)
      ensures bus == other.bus && configuration == other.configuration && !ownsAcquisition
    {
      bus, configuration, ownsAcquisition := other.bus, other.configuration, false;
    }

    /** Assignment keeps this source's own claim. */
    method Assign(other: CanBusSource)
      modifies this`configuration
      ensures configuration == old(other.configuration) && ownsAcquisition == old(ownsAcquisition)
    {
      configuration := other.configuration;
    }

    method Start(valid: bool, r: Replies, spurious: nat) returns (code: ResultCode, ghost reply: BusReply)
      requires bus.Valid()
      modifies this`ownsAcquisition, bus.Footprint()
      ensures bus.Valid() && StartReply(old(bus.driver.installed), reply)
      ensures Answer(code, ownsAcquisition, bus.driver.installed) == SourceStart(old(ownsAcquisition), reply)
      ensures ownsAcquisition == (old(ownsAcquisition) || (!old(bus.driver.installed) && bus.driver.installed))
      ensures reply.result.Ok? ==> bus.busId == configuration
    {
      ghost var before, had := bus.driver.installed, bus.semaphores;
      var result, cleanupRequired := bus.Start(valid, configuration, r, spurious);
      reply := BusReply(result, cleanupRequired, bus.driver.installed, StartFails(had, r));
      if cleanupRequired {
        ownsAcquisition := true;
      }
      return MapStartResult(result), reply;
    }

    method Stop(r: Replies, spurious: nat) returns (code: ResultCode, ghost reply: BusReply)
      requires bus.Valid()
      modifies this`ownsAcquisition, bus, bus.driver, bus.control
      ensures bus.Valid()
      ensures old(ownsAcquisition) ==> StopReply(old(bus.driver.installed), reply)
      ensures Answer(code, ownsAcquisition, bus.driver.installed) ==
                SourceStop(old(ownsAcquisition), old(bus.driver.installed), reply)
      ensures !old(ownsAcquisition) ==> bus.control.Look() == old(bus.control.Look())
    {
      reply := BusReply(BusMachine.NotStarted, false, bus.driver.installed, false);
      if !ownsAcquisition {
        return NotRunning, reply;
      }
      var result := bus.Stop(r, spurious);
      reply := BusReply(result, false, bus.driver.installed, result.DriverFailure? || result.TaskFailure?);
      code := MapStopResult(result);
      if code.Ok? || code.NotRunning? {
        ownsAcquisition := false;
      }
    }

    method RetryStop(r: Replies, spurious: nat) returns (code: ResultCode, ghost reply: BusReply)
      requires bus.Valid()
      modifies this`ownsAcquisition, bus, bus.driver, bus.control
      ensures bus.Valid()
      ensures Answer(code, ownsAcquisition, bus.driver.installed) ==
                SourceStop(old(ownsAcquisition), old(bus.driver.installed), reply)
    {
      code, reply := Stop(r, spurious);
    }
  }
}
