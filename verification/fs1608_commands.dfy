/** The USB-1608FS-Plus command protocol (`usb1608fsplus/commands.go`): opcodes
    and their descriptions, the scan-option bit fields, voltage-range codes
    with their configuration names and multipliers, status bits and sizes. */
module Fs1608Commands {
  import opened Bytes
  import opened Outcomes

  /** The declared opcodes. */
  datatype Command =
    | DigitalTristate | DigitalPort | DigitalLatch
    | AnalogInput | AnalogStartScan | AnalogStopScan | AnalogConfig | AnalogClearBuffer
    | EventCounter
    | CalibrationMemory | UserMemory | MbdMemory
    | BlinkLed | Reset | GetStatus | SerialNum | UpgradeFirmware
    | TextMbd | RawMbd
  {
    /** The byte the device expects for this command. */
    function Code(): byte
    {
      match this
      case DigitalTristate => 0x00
      case DigitalPort => 0x01
      case DigitalLatch => 0x02
      case AnalogInput => 0x10
      case AnalogStartScan => 0x11
      case AnalogStopScan => 0x12
      case AnalogConfig => 0x14
      case AnalogClearBuffer => 0x15
      case EventCounter => 0x20
      case CalibrationMemory => 0x30
      case UserMemory => 0x31
      case MbdMemory => 0x32
      case BlinkLed => 0x41
      case Reset => 0x42
      case GetStatus => 0x44
      case SerialNum => 0x48
      case UpgradeFirmware => 0x50
      case TextMbd => 0x80
      case RawMbd => 0x81
    }
  }

  /** The declared command whose opcode is `b`, if any. */
  function CommandOf(b: byte): (c: Option<Command>)
    ensures c.Some? ==> c.value.Code() == b
  {
    match b
    case 0x00 => Some(DigitalTristate)
    case 0x01 => Some(DigitalPort)
    case 0x02 => Some(DigitalLatch)
    case 0x10 => Some(AnalogInput)
    case 0x11 => Some(AnalogStartScan)
    case 0x12 => Some(AnalogStopScan)
    case 0x14 => Some(AnalogConfig)
    case 0x15 => Some(AnalogClearBuffer)
    case 0x20 => Some(EventCounter)
    case 0x30 => Some(CalibrationMemory)
    case 0x31 => Some(UserMemory)
    case 0x32 => Some(MbdMemory)
    case 0x41 => Some(BlinkLed)
    case 0x42 => Some(Reset)
    case 0x44 => Some(GetStatus)
    case 0x48 => Some(SerialNum)
    case 0x50 => Some(UpgradeFirmware)
    case 0x80 => Some(TextMbd)
    case 0x81 => Some(RawMbd)
    case _ => None
  }

  /** Every declared command is recovered from its opcode, so no two commands
      share an opcode. */
  lemma OpcodesDistinct(c: Command, d: Command)
    ensures CommandOf(c.Code()) == Some(c)
    ensures c != d ==> c.Code() != d.Code()
  {
  }

  /** `command.String()`: the entry of the `commands` description table,
      or "" for a code the table does not hold. */
  function Describe(b: byte): (r: string)
    ensures r != "" <==> CommandOf(b).Some?
  {
    match b
    case 0x00 => "Read/write tri-state register"
    case 0x01 => "Read digital port pins"
    case 0x02 => "Read/write digital port output latch register"
    case 0x10 => "Read analog input channel"
    case 0x11 => "Start analog input scan"
    case 0x12 => "Stop analog input scan"
    case 0x14 => "Configure the analog input channel"
    case 0x15 => "Clear the analog input scan FIFO buffer"
    case 0x20 => "Read/reset event counter"
    case 0x30 => "Read/write calibration memory"
    case 0x31 => "Read/write user memory"
    case 0x32 => "Read/write Message-Based DAQ (MBD) memory"
    case 0x41 => "Blink LED"
    case 0x42 => "Reset device"
    case 0x44 => "Read device status"
    case 0x48 => "Read/write serial number"
    case 0x50 => "Enter device firmware upgrade (DFU) mode"
    case 0x80 => "Text-based MBD command/response"
    case 0x81 => "Raw MBD response"
    case _ => ""
  }

  /** Exactly the declared opcodes have a description. */
  lemma DescribedIffDeclared(b: byte)
    ensures Describe(b) != "" <==> CommandOf(b).Some?
  {
  }

  lemma DescribeScanCommands()
    ensures Describe(AnalogStartScan.Code()) == "Start analog input scan"
    ensures Describe(AnalogStopScan.Code()) == "Stop analog input scan"
    ensures Describe(AnalogConfig.Code()) == "Configure the analog input channel"
    ensures Describe(AnalogClearBuffer.Code()) == "Clear the analog input scan FIFO buffer"
  {
  }

  // Analog input scan options: one bit field each in the options byte.
  const ScanBlockTransferMode: byte := Shl(0x0, 0)
  const ScanImmediateTransferMode: byte := Shl(0x1, 0)
  const ScanInternalPacerOff: byte := Shl(0x0, 1)
  const ScanInternalPacerOn: byte := Shl(0x1, 1)
  const ScanNoTrigger: byte := Shl(0x0, 2)
  const ScanTriggerRisingEdge: byte := Shl(0x1, 2)
  const ScanTriggerFallingEdge: byte := Shl(0x2, 2)
  const ScanTriggerHighLevel: byte := Shl(0x3, 2)
  const ScanTriggerLowLevel: byte := Shl(0x4, 2)
  const ScanDebugMode: byte := Shl(0x1, 5)
  const ScanStallOnOverrun: byte := Shl(0x0, 7)
  const ScanInhibitStall: byte := Shl(0x1, 7)

  /** The scan-option constant for trigger type `t` (0 none .. 4 low level). */
  function TriggerOption(t: byte): (o: byte)
    requires t <= 4
    ensures o / 4 == t && o % 4 == 0
  {
    match t
    case 0 => ScanNoTrigger
    case 1 => ScanTriggerRisingEdge
    case 2 => ScanTriggerFallingEdge
    case 3 => ScanTriggerHighLevel
    case _ => ScanTriggerLowLevel
  }

  lemma ScanOptionValues()
    ensures ScanImmediateTransferMode == 0x01 && ScanInternalPacerOn == 0x02
    ensures ScanTriggerRisingEdge == 0x04 && ScanTriggerFallingEdge == 0x08
    ensures ScanTriggerHighLevel == 0x0C && ScanTriggerLowLevel == 0x10
    ensures ScanDebugMode == 0x20 && ScanInhibitStall == 0x80
    ensures ScanBlockTransferMode == 0 && ScanInternalPacerOff == 0 && ScanNoTrigger == 0
    ensures ScanStallOnOverrun == 0
  {
  }

  // Analog input setup.
  const SingleEnded: byte := 0
  const Differential: byte := 1
  const Calibration: byte := 3

  const MaxBulkTransferPacketSize: nat := 64
  const LastChannel: byte := 0x80

  // Voltage ranges.
  const Range10V: byte := 0x0
  const Range5V: byte := 0x1
  const Range2_5V: byte := 0x2
  const Range2V: byte := 0x3
  const Range1_25V: byte := 0x4
  const Range1V: byte := 0x5
  const Range0_625V: byte := 0x6
  const Range0_3125V: byte := 0x7

  /** `InputRanges`: configuration-file names of the selectable ranges. */
  const InputRanges: map<string, byte> := map["10V" := Range10V, "5V" := Range5V, "2V" := Range2V, "1V" := Range1V]

  /** `voltageRangeJSON`: the configuration name written back for a range. */
  function RangeName(v: byte): Option<string>
  {
    match v
    case 0x0 => Some("10V")
    case 0x1 => Some("5V")
    case 0x3 => Some("2V")
    case 0x5 => Some("1V")
    case _ => None
  }

  /** `VoltageMultiplier`: full-scale volts of a range, if the table has it. */
  function Multiplier(v: byte): (m: Option<real>)
    ensures m.Some? <==> RangeName(v).Some?
    ensures m.Some? ==> m.value > 0.0
  {
    match v
    case 0x0 => Some(10.0)
    case 0x1 => Some(5.0)
    case 0x3 => Some(2.0)
    case 0x5 => Some(1.0)
    case _ => None
  }

  /** `VoltageRange.String()`: the `voltageRanges` label, "" for a code the
      table does not hold. */
  function RangeLabel(v: byte): string
  {
    match v
    case 0x0 => "±10V"
    case 0x1 => "±5V"
    case 0x3 => "±2V"
    case 0x5 => "±1V"
    case _ => ""
  }

  /** `InputRanges` and `voltageRangeJSON` are inverse maps over the four names. */
  lemma InputRangesInverse(s: string, v: byte)
    ensures InputRanges.Keys == {"10V", "5V", "2V", "1V"}
    ensures s in InputRanges ==> RangeName(InputRanges[s]) == Some(s)
    ensures RangeName(v).Some? ==> RangeName(v).value in InputRanges && InputRanges[RangeName(v).value] == v
  {
  }

  /** Every selectable range has a multiplier, equal to its nominal volts, and
      the multiplier table holds exactly the named ranges. */
  lemma MultipliersCoverInputRanges(v: byte)
    ensures Multiplier(InputRanges["10V"]) == Some(10.0) && Multiplier(InputRanges["5V"]) == Some(5.0)
    ensures Multiplier(InputRanges["2V"]) == Some(2.0) && Multiplier(InputRanges["1V"]) == Some(1.0)
    ensures Multiplier(v).Some? <==> RangeName(v).Some?
    ensures Multiplier(v).Some? <==> RangeLabel(v) != ""
  {
  }

  /** The four declared codes without a name have no label and no multiplier. */
  lemma UnnamedRanges(v: byte)
    requires v == Range2_5V || v == Range1_25V || v == Range0_625V || v == Range0_3125V
    ensures RangeLabel(v) == "" && Multiplier(v).None? && RangeName(v).None?
  {
  }

  // Status bits.
  const ScanRunning: byte := Shl(0x1, 1)
  const ScanOverrun: byte := Shl(0x1, 2)

  lemma StatusBitsDistinct()
    ensures ScanRunning == 0x02 && ScanOverrun == 0x04
    ensures PopCount(ScanRunning) == 1 && PopCount(ScanOverrun) == 1
    ensures And(ScanRunning, ScanOverrun) == 0
  {
  }

  const NumAdChannels: nat := 8
  const NumGainLevels: nat := 8
  const MaxPacketSize: nat := 64
}
