/** The value that crosses every boundary of the receive path. */
module Frames {

  /** A receive-only classic-CAN frame; `data` holds the eight payload bytes. */
  datatype RawCanFrame = RawCanFrame(
    timestampUs: nat,
    busId: nat,
    identifier: nat,
    extended: bool,
    remoteRequest: bool,
    dlc: nat,
    data: seq<nat>)
}
