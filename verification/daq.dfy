/** The `DAQer` interface (`usb1608fsplus/device.go`) as a value: instead of
    an object whose methods talk to USB, a device is the function from the
    history of calls issued so far to its reply to the last of them. Every
    operation of the scan layer takes the history, appends the calls it makes,
    and reads the replies; the history is therefore also the trace of what was
    sent, in order. */
module Daq {
  import opened Bytes

  /** One call on the device. */
  datatype Call =
    | Send(cmd: byte, data: seq<byte>)   // SendCommandToDevice: host-to-device control transfer
    | Receive(cmd: byte, size: nat)      // ReadCommandFromDevice into a buffer of `size` bytes
    | Bulk(size: nat)                    // Read: bulk-in transfer into a buffer of `size` bytes
    | GetStatus                          // Status
    | CalRead(address: int, count: nat)  // calibration-memory control transfer

  /** The device's answer to one call: the byte count it reports, the bytes it
      delivers into the caller's buffer (from the start), and whether the call
      returned an error. For `GetStatus` the status byte is the first byte. */
  datatype Reply = Reply(count: int, bytes: seq<byte>, failed: bool)

  /** A device: its reply to the last call of a non-empty history. */
  type Device = seq<Call> -> Reply

  /** The status byte a `GetStatus` reply carries. */
  function StatusOf(r: Reply): byte
  {
    if |r.bytes| > 0 then r.bytes[0] else 0
  }
}
