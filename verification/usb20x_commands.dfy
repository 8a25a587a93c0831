/** The USB-20x command protocol (`usb20x/commands.go`): the same opcode
    family as the USB-1608FS-Plus plus a bulk-flush and an analog-output
    command, the same scan-option layout, and a single voltage range. */
module Usb20xCommands {
  import opened Bytes
  import opened Outcomes
  import Fs1608 = Fs1608Commands

  /** The status opcode this package declares for itself. */
  const GetStatusCode: byte := 0x44

  /** The opcodes this package declares beyond the USB-1608FS-Plus set. */
  const AnalogBulkFlush: byte := 0x16
  const AnalogReadWriteOutput: byte := 0x18

  /** A declared opcode: one shared with the USB-1608FS-Plus, or one of the two
      additions. */
  predicate Declared(b: byte)
  {
    Fs1608.CommandOf(b).Some? || b == AnalogBulkFlush || b == AnalogReadWriteOutput
  }

  /** `command.String()`: the `commands` table holds the same descriptions as
      the USB-1608FS-Plus one and nothing for the two additions. */
  function Describe(b: byte): (r: string)
    ensures r != "" <==> Declared(b) && b != AnalogBulkFlush && b != AnalogReadWriteOutput
  {
    Fs1608.Describe(b)
  }

  /** The USB-20x status opcode is the USB-1608FS-Plus one, under the same
      description. */
  lemma GetStatusShared()
    ensures GetStatusCode == 0x44
    ensures Fs1608.CommandOf(GetStatusCode) == Some(Fs1608.Command.GetStatus)
    ensures Declared(GetStatusCode) && Describe(GetStatusCode) == "Read device status"
  {
  }

  /** The two additional opcodes are new codes, and have no description. */
  lemma AdditionsUndescribed()
    ensures Fs1608.CommandOf(AnalogBulkFlush).None? && Fs1608.CommandOf(AnalogReadWriteOutput).None?
    ensures AnalogBulkFlush != AnalogReadWriteOutput
    ensures Describe(AnalogBulkFlush) == "" && Describe(AnalogReadWriteOutput) == ""
  {
  }

  /** A declared opcode has a description exactly when it is not one of the
      two additions. */
  lemma DescribedIffShared(b: byte)
    requires Declared(b)
    ensures Describe(b) != "" <==> !(b == AnalogBulkFlush || b == AnalogReadWriteOutput)
  {
    Fs1608.DescribedIffDeclared(b);
  }

  // Analog input scan options.
  const ScanBlockTransferMode: byte := Shl(0x0, 0)
  const ScanImmediateTransferMode: byte := Shl(0x1, 0)
  const ScanInternalPacerOff: byte := Shl(0x0, 1)
  const ScanInternalPacerOn: byte := Shl(0x1, 1)
  const ScanNoTrigger: byte := Shl(0x0, 2)
  const ScanTriggerRisingEdge: byte := Shl(0x1, 2)
  const ScanTriggerFallingEdge: byte := Shl(0x2, 2)
  const ScanTriggerHighLevel: byte := Shl(0x3, 2)
  const ScanTriggerLowLevel: byte := Shl(0x4, 2)
  const ScanDebugMode: byte := Shl(0x1, 5)
  const ScanStallOnOverrun: byte := Shl(0x0, 7)
  const ScanInhibitStall: byte := Shl(0x1, 7)

  /** Both packages lay out the scan options byte identically. */
  lemma ScanOptionsAgree()
    ensures ScanImmediateTransferMode == Fs1608.ScanImmediateTransferMode == 0x01
    ensures ScanInternalPacerOn == Fs1608.ScanInternalPacerOn == 0x02
    ensures ScanTriggerRisingEdge == Fs1608.ScanTriggerRisingEdge == 0x04
    ensures ScanTriggerFallingEdge == Fs1608.ScanTriggerFallingEdge == 0x08
    ensures ScanTriggerHighLevel == Fs1608.ScanTriggerHighLevel == 0x0C
    ensures ScanTriggerLowLevel == Fs1608.ScanTriggerLowLevel == 0x10
    ensures ScanDebugMode == Fs1608.ScanDebugMode == 0x20
    ensures ScanInhibitStall == Fs1608.ScanInhibitStall == 0x80
    ensures ScanBlockTransferMode == ScanInternalPacerOff == ScanNoTrigger == ScanStallOnOverrun == 0
  {
  }

  // Analog input setup.
  const SingleEnded: byte := 0
  const Differential: byte := 1
  const Calibration: byte := 3

  const LastChannel: byte := 0x80
  const MaxBulkTransferPacketSize: nat := 64

  const Range10V: byte := 0x0

  /** `InputRanges`: the only selectable range. */
  const InputRanges: map<string, byte> := map["10V" := Range10V]

  /** `voltageRangeJSON`. */
  function RangeName(v: byte): Option<string>
  {
    if v == Range10V then Some("10V") else None
  }

  /** `voltageRanges` through `VoltageRange.String()`. */
  function RangeLabel(v: byte): string
  {
    if v == Range10V then "±10V" else ""
  }

  /** `VoltageMultiplier`: only the ±10 V range has an entry. */
  function Multiplier(v: byte): Option<real>
  {
    if v == Range10V then Some(10.0) else None
  }

  lemma RangeTables(s: string, v: byte)
    ensures InputRanges.Keys == {"10V"}
    ensures s in InputRanges ==> RangeName(InputRanges[s]) == Some(s)
    ensures RangeName(v).Some? ==> RangeName(v).value in InputRanges && InputRanges[RangeName(v).value] == v
    ensures Multiplier(v).Some? <==> v == Range10V
    ensures Multiplier(Range10V) == Some(10.0)
  {
  }

  // Status bits.
  const ScanRunning: byte := Shl(0x1, 1)
  const ScanOverrun: byte := Shl(0x1, 2)

  lemma StatusBitsAgree()
    ensures ScanRunning == Fs1608.ScanRunning == 0x02
    ensures ScanOverrun == Fs1608.ScanOverrun == 0x04
  {
  }

  const NumAdChannels: nat := 8
  const NumGainLevels: nat := 8
  const MaxPacketSize: nat := 64

  /** The setup codes, the channel marker and the sizes are those of the
      USB-1608FS-Plus. */
  lemma SizesAgree()
    ensures SingleEnded == Fs1608.SingleEnded && Differential == Fs1608.Differential
    ensures Calibration == Fs1608.Calibration && LastChannel == Fs1608.LastChannel
    ensures MaxBulkTransferPacketSize == Fs1608.MaxBulkTransferPacketSize == 64
    ensures NumAdChannels == Fs1608.NumAdChannels && NumGainLevels == Fs1608.NumGainLevels
    ensures MaxPacketSize == Fs1608.MaxPacketSize
  {
  }
}
