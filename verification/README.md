# mccdaq analog-input core in Dafny

A model of the analog-input core of the Go driver for Measurement Computing
USB data-acquisition devices (gotmc/mccdaq). It covers the following parts:

- **USB-1608FS-Plus scan configuration.** These are the encoders: the
  enabled-channel bit mask, the scan options byte, the pacer period with its
  rounding helper, and the 10-byte start-scan packet.
- **USB-1608FS-Plus scan session.** Start, stop, clear, close, writing and
  reading the channel ranges, and reading scan data in block or immediate
  mode, including the status handling after a transfer.
- **Channel configuration.** Defaults, configure, enable and disable.
- **Calibration memory.** The range guard, the guarded read, and the 8×8
  gain-table read schedule.
- **Command tables** of both packages. These are opcodes, scan-option bits,
  range codes with their names and multipliers, status bits and sizes.
- **USB-20x helpers.** Little-endian 2-byte encoding, the status byte, and
  the conversion of a 16-bit offset-binary sample to volts.

The device interface (`DAQer`: send a command, read a command reply, bulk
read, status) is modelled as a value, not an object. A `Daq.Device` is a
function from the history of calls issued so far to the device's reply to the
last of them. Every session operation takes the device and the history, and
returns its result together with the history extended by the calls it made.
The contracts can therefore state what is sent, in what order, and how each
reply decides the outcome. The in-memory fake device of the scan-layer tests
is one such function (`FakeDaqer.FakeDaq`).

Bytes are integers 0..255. Bitwise operations are defined bit by bit
(`Bytes.Bit`, `Or`, `And`, `Shl`), and Go's `uint32(...)` conversions are
written out as `% 2^32`. Frequencies, pacer arithmetic and volts are real
numbers, not IEEE-754 doubles.

`ReadScan` returns the status read's error. At `usb1608fsplus/analog.go:332`
the `err` from `Status` is assigned, and line 348 returns it. Only the
wrapped message built at line 334 is discarded. The model follows the code:
a failed status read gives `StatusFailed`, with the data still returned.

## Model

| member | source | states |
|---|---|---|
| Fs1608Commands.CommandOf | usb1608fsplus/commands.go:11-37 | A byte is mapped to a command only when that command's opcode is the byte. |
| Fs1608Commands.OpcodesDistinct | usb1608fsplus/commands.go:11-37 | Every declared command is recovered from its opcode, so no two commands share an opcode. |
| Fs1608Commands.Describe | usb1608fsplus/commands.go:39-63 | `command.String()`: a description exists exactly for the declared opcodes. See `Fs1608Commands.DescribedIffDeclared` and `Fs1608Commands.DescribeScanCommands`. |
| Fs1608Commands.DescribedIffDeclared | usb1608fsplus/commands.go:39-63 | `String()` is non-empty exactly for the declared opcodes and "" for every other byte. |
| Fs1608Commands.DescribeScanCommands | usb1608fsplus/commands.go:44-47 | Gives the descriptions of start, stop, configure and clear-buffer. |
| Fs1608Commands.TriggerOption | usb1608fsplus/commands.go:73-77 | Each trigger constant is its trigger number placed in bits 2-4: quotient by 4 is the number, low two bits clear. |
| Fs1608Commands.ScanOptionValues | usb1608fsplus/commands.go:68-81 | Immediate 0x01, pacer on 0x02, triggers 0x04/0x08/0x0C/0x10, debug 0x20, inhibit stall 0x80; the "off" options are 0. |
| Fs1608Commands.InputRangesInverse | usb1608fsplus/commands.go:115-127 | The name→code and code→name tables are inverse over exactly "10V", "5V", "2V", "1V". |
| Fs1608Commands.Multiplier | usb1608fsplus/commands.go:143-148 | `VoltageMultiplier`: a code has a multiplier exactly when it names a range, and every multiplier is positive. `Fs1608Commands.MultipliersCoverInputRanges` gives the values. |
| Fs1608Commands.MultipliersCoverInputRanges | usb1608fsplus/commands.go:143-148 | Every selectable range has its nominal multiplier (10, 5, 2, 1). A code has a multiplier iff it has a name iff it has a label. |
| Fs1608Commands.UnnamedRanges | usb1608fsplus/commands.go:129-139 | Codes 0x2, 0x4, 0x6, 0x7 have no name, no multiplier and the empty label. |
| Fs1608Commands.StatusBitsDistinct | usb1608fsplus/commands.go:153-156 | Running is 0x02 and overrun 0x04: single bits with no bit in common. |
| Usb20xCommands.GetStatusShared | usb20x/commands.go:34 | The package's own status opcode is 0x44, the USB-1608FS-Plus get-status command, described as "Read device status". |
| Usb20xCommands.Describe | usb20x/commands.go:42-66 | `command.String()`: a description exists exactly for the declared opcodes other than the two additions 0x16 and 0x18. See `Usb20xCommands.DescribedIffShared` and `Usb20xCommands.AdditionsUndescribed`. |
| Usb20xCommands.AdditionsUndescribed | usb20x/commands.go:11-40 | 0x16 and 0x18 are new opcodes beyond the USB-1608FS-Plus set, and `String()` gives "" for both. |
| Usb20xCommands.DescribedIffShared | usb20x/commands.go:42-66 | A declared opcode has a description exactly when it is not one of the two additions. |
| Usb20xCommands.ScanOptionsAgree | usb20x/commands.go:71-84 | Every scan-option constant equals the USB-1608FS-Plus one, with the same values. |
| Usb20xCommands.RangeTables | usb20x/commands.go:103-127 | "10V" ↔ code 0 is the only name pair, and code 0 is the only code with a multiplier, namely 10. |
| Usb20xCommands.StatusBitsAgree | usb20x/commands.go:132-135 | Running 0x02 and overrun 0x04, as in the USB-1608FS-Plus package. |
| Usb20xCommands.SizesAgree | usb20x/commands.go:137-141 | Sizes, setup codes and the last-channel marker equal those of the USB-1608FS-Plus: 64-byte packets, 8 channels, 8 gain levels. |
| AnalogConfig.EnabledMask | usb1608fsplus/analog.go:174-182 | Bit i of the mask is set iff channel i is enabled. |
| AnalogConfig.MaskBelow | usb1608fsplus/analog.go:176-180 | After the first k channels, the mask has bit i set iff i < k and channel i is enabled. |
| AnalogConfig.CountEnabled | usb1608fsplus/analog.go:289-297 | Counting enabled channels among the first k equals counting the set bits among the first k bits of the mask. |
| AnalogConfig.NumEnabledChannels | usb1608fsplus/analog.go:289-297 | The count is the population count of the enabled mask. It is at most 8, and zero iff the mask is zero. |
| AnalogConfig.Options | usb1608fsplus/analog.go:200-213 | For settings that fit their fields, decoding the byte gives back each field: bit 0 mode, bit 1 sync pacer, bits 2-4 trigger, bit 5 debug, bit 7 stall. Bit 6 is clear. |
| AnalogConfig.OptionsFromConstants | usb1608fsplus/analog.go:212 | Each shifted field equals the matching scan-option constant, so the byte is the OR of those constants. |
| AnalogConfig.OptionsOfDecoded | usb1608fsplus/analog.go:200-213 | Every byte with bit 6 clear and a trigger field ≤ 4 is the options byte of the settings it decodes to. |
| AnalogConfig.Round | usb1608fsplus/analog.go:443-448 | The result is the integer nearest the input, with halves rounded away from zero. |
| AnalogConfig.RoundUnique | usb1608fsplus/analog.go:443-448 | Only one integer is nearest with halves away from zero, so the rounding is fully determined. |
| AnalogConfig.RoundVectors | usb1608fsplus/analog_test.go:155-160 | 0.499→0, 0.4→0, 1.2→1, 799→799, 799.9→800, 500000.4→500000; also ±0.5 and −2.5. |
| AnalogConfig.RoundMonotone | usb1608fsplus/analog.go:443-448 | Rounding preserves order. |
| AnalogConfig.PacerPeriod | usb1608fsplus/analog.go:433-441 | 0 iff the frequency is ≤ 0. At or above 500 kHz the period is 79. Otherwise it is ≥ 79 and the nearest integer to 40 MHz / f − 1. |
| AnalogConfig.PacerPeriodClamp | usb1608fsplus/analog.go:434-436 | Any frequency above 500 kHz gives exactly the period of 500 kHz. |
| AnalogConfig.PacerPeriodVectors | usb1608fsplus/analog_test.go:133-135 | 40 MHz→79, 10 kHz→3999, 50 kHz→799; also 0 Hz→0. |
| AnalogConfig.PacerPeriodMonotone | usb1608fsplus/analog.go:433-441 | A higher positive frequency never gives a longer period. |
| AnalogConfig.ScanConfigRoundTrip | usb1608fsplus/analog.go:419-430 | The 10-byte layout is a bijection: decoding an encoding gives the configuration, and encoding a decoding gives the bytes. |
| AnalogConfig.PackScanData | usb1608fsplus/analog.go:407-431 | Always 10 bytes, which decode to numScans mod 2^32, pacer period mod 2^32, mask, options. |
| AnalogConfig.PackScanDataVectorExternal | usb1608fsplus/analog_test.go:90 | (1 scan, 0 Hz, 0, 0) → 01 00 00 00 00 00 00 00 00 00. |
| AnalogConfig.PackScanDataVector10k | usb1608fsplus/analog_test.go:91 | (1 scan, 10 kHz, 0x01, 0) → 01 00 00 00 9F 0F 00 00 01 00. |
| AnalogConfig.PackScanDataVector50k | usb1608fsplus/analog_test.go:92 | (256 scans, 50 kHz, 0xFF, 0xFF) → 00 01 00 00 1F 03 00 00 FF FF. |
| AnalogConfig.NewAnalogInput | usb1608fsplus/analog.go:111-129 | 10 kHz (pacer period 3999), block transfer, no external trigger, stall on overrun, internal pacer not output on sync, no debug mode, all fields in range, so the options byte is 0. Every channel is disabled at ±10 V (multiplier 10) with an empty description, so the mask and the count are 0. |
| AnalogConfig.DefaultOptionsAreZero | usb1608fsplus/analog.go:117-127 | Block transfer, no trigger, no sync output, no debug and stall-on-overrun make the all-zero options byte. |
| AnalogConfig.ConfigureChannelCode | usb1608fsplus/analog.go:503-518 | Succeeds iff 0 ≤ ch < 8, else `InvalidChannel`. On success channel ch takes the three settings, every other channel and every other field is unchanged. |
| AnalogConfig.ConfigureChannel | usb1608fsplus/analog.go:490-499 | Succeeds iff the range name is in `InputRanges` and 0 ≤ ch < 8. The range is checked first. On success only channel ch changes, to a range with a multiplier. |
| AnalogConfig.ConfigureEnableChannel | usb1608fsplus/analog.go:467-469 | Success iff the voltage names a range and 0 ≤ ch < 8. An unknown voltage gives `InvalidRange` first, then a bad channel gives `InvalidChannel`. On success channel ch becomes enabled with the named range and the given description, its mask bit is set, every other channel and every other field is unchanged, and the other mask bits are kept. |
| AnalogConfig.EnableChannel | usb1608fsplus/analog.go:473-475 | Channel ch becomes enabled with its range and description kept, and its mask bit is set. Every other channel and every other field is unchanged. See `AnalogConfig.EnableDisableMask` for the mask. |
| AnalogConfig.DisableChannel | usb1608fsplus/analog.go:484-486 | Channel ch becomes disabled with its range and description kept, and its mask bit is clear. Every other channel and every other field is unchanged. See `AnalogConfig.EnableDisableMask` for the mask. |
| AnalogConfig.SetChannelEnabled | usb1608fsplus/analog.go:473-486 | Only `Enabled` of channel ch changes. |
| AnalogConfig.EnableDisableMask | usb1608fsplus/analog.go:473-486 | Enabling sets and disabling clears exactly bit ch of the enabled mask; every other bit is kept. |
| AnalogScan.StopScan | usb1608fsplus/analog.go:357-363 | Exactly one call, stop-scan 0x12 with no payload. It fails (`StopFailed`) iff the device reports an error. |
| AnalogScan.ClearScanBuffer | usb1608fsplus/analog.go:366-372 | Exactly one call, clear-buffer 0x15 with no payload. It fails (`ClearFailed`) iff the device reports an error. |
| AnalogScan.Close | usb1608fsplus/analog.go:352-354 | Closing sends one stop-scan command (0x12) with no data. It fails, with the stop error, exactly when the device reports a failure for that send. |
| AnalogScan.StartPacket | usb1608fsplus/analog.go:266-270 | The start payload decodes to numScans mod 2^32, the enabled mask and the options byte. Its pacer field is 0 with an external pacer, else the period of the frequency. |
| AnalogScan.ExternalPacerBytesZero | usb1608fsplus/analog.go:267-270 | With an external pacer, payload bytes 4-7 are zero. |
| AnalogScan.StartSequence | usb1608fsplus/analog.go:274-286 | Issues 1 to 3 calls, always a prefix of stop, clear, start(packet). Each later call happens only if the earlier ones succeeded. Success iff all three were sent and the last did not fail; otherwise the error names the call that failed. |
| AnalogScan.StartScan | usb1608fsplus/analog.go:265-287 | The same ordered stop/clear/start sequence, with the start payload packed from the settings. |
| AnalogScan.SetScanRanges | usb1608fsplus/analog.go:375-388 | Exactly one call: configuration 0x14 with 8 bytes, byte i being channel i's range code. Error iff the device fails. |
| AnalogScan.ScanRanges | usb1608fsplus/analog.go:392-403 | One 8-byte read of 0x14. The buffer holds the delivered bytes over zeros and is returned even on error. Error iff the read fails or the count is not 8, with the failure taking precedence. |
| AnalogScan.FirstFailure | usb1608fsplus/analog.go:309-317 | Every word read before the returned index succeeded with 2 bytes, and the read at that index (if within range) did not. |
| AnalogScan.ReadWordsAsWritten | usb1608fsplus/analog.go:309-320 | The source's immediate loop. It reads up to and including the first failing word, whose error it returns, with word k stored at offsets k and k+1. |
| AnalogScan.ReadWords | usb1608fsplus/analog.go:309-320 | The corrected immediate loop: the same reads and errors, with word k stored at offsets 2k and 2k+1. |
| AnalogScan.Finish | usb1608fsplus/analog.go:332-348 | Reads status once. Drains one 2-byte read iff the running bit is clear, and sends stop then clear iff the overrun bit is set. The data is unchanged; the error is present iff the status read failed. |
| AnalogScan.ReadFrame | usb1608fsplus/analog.go:300-349 | The size error occurs iff the size is not a multiple of 64, and then there is no call and no data. Otherwise the buffer has the full size and the history only grows. An unknown mode is an error with zeros and no call. `AnalogScan.FrameBlock`, `AnalogScan.FrameImmediate` and `AnalogScan.FrameImmediateAsWritten` state each mode's outcome. |
| AnalogScan.FrameBlock | usb1608fsplus/analog.go:321-328 | Block mode is one read of the whole frame. A failure or wrong count is an error with no further call; otherwise comes the status handling, with the error present iff status failed. |
| AnalogScan.FrameImmediate | usb1608fsplus/analog.go:308-320 | Corrected immediate mode: if all words are read, they are placed at 2k, 2k+1 and followed by status handling. Otherwise the reads stop at the first failed word, returning the partial buffer and that read's error. |
| AnalogScan.FrameImmediateAsWritten | usb1608fsplus/analog.go:308-320 | The same framing with the source's placement: all words read and then the status handling, with the status error iff the status read fails; or the partial buffer and the read's error at the first failed word. |
| AnalogScan.ReadScanAsWritten | usb1608fsplus/analog.go:300-349 | `ReadScan` as written. The size error occurs iff the frame is not a multiple of 64 bytes, and then nothing is read and no data is returned. Otherwise the buffer is full size, and a mode other than block or immediate gives the transfer-mode error with no call. Block mode is one read of the whole frame with failed and short reads as errors. Immediate mode has the source's placement and stops at the first failed word. After a complete transfer the status handling follows, and the status error occurs iff the status read fails. |
| AnalogScan.ReadScan | usb1608fsplus/analog.go:300-349 | `ReadScan` with corrected placement: size check with no call, block framing, word-by-word framing up to the first failure, bad-mode error, then status, drain and overrun recovery. |
| AnalogScan.FrameDeliversWords | usb1608fsplus/analog.go:318-319 | Corrected: when every read succeeds, the buffer holds word k at 2k and 2k+1, in read order. |
| AnalogScan.FrameAsWrittenDropsSecondHalf | usb1608fsplus/analog.go:318-319 | As written: when every read succeeds, only the first byte of each word is kept (plus the last word's second byte), and the second half of the buffer stays zero. |
| AnalogScan.ReadScanDeliversWords | usb1608fsplus/analog.go:309-320 | A complete immediate scan through `ReadScan` returns the words in read order, two bytes each. |
| AnalogScan.AsWrittenDropsSecondHalf | usb1608fsplus/analog.go:309-320 | A complete immediate scan as written loses each word's second byte. |
| AnalogScan.ImmediatePlacementCounterexample | usb1608fsplus/analog.go:318-319 | Counterexample: a 64-byte immediate frame from a device sending only 1s ends in 0 as written. |
| AnalogScan.ImmediatePlacementCorrected | usb1608fsplus/analog.go:318-319 | The same frame ends in the 1 that was sent, with the corrected placement. |
| AnalogScan.ScanOfOneChannelIsFrame | usb1608fsplus/analog.go:301-303 | 32 scans of one enabled channel in immediate mode make that 64-byte frame. |
| FakeDaqer.RangesRoundTrip | usb1608fsplus/analog_test.go:21-45 | Against the fake, writing the ranges then reading them back succeeds and returns byte i = channel i's range code. |
| FakeDaqer.SetScanRangesVector | usb1608fsplus/analog_test.go:55-80 | Ranges 0,0,1,1,3,3,5,5 written to a fresh fake are read back unchanged. |
| FakeDaqer.FakeRejectsStart | usb1608fsplus/analog_test.go:21-32 | The fake rejects the payload-less stop command, so a scan start fails after one call. |
| FakeDaqer.FakeEmptyBlockScan | usb1608fsplus/analog_test.go:47-53 | A block scan of no channel reads 0 bytes, reads status 0, drains, and returns no data and no error. |
| FakeDaqer.FakeBlockScanShort | usb1608fsplus/analog_test.go:47-49 | A block scan of non-zero size from the fake is a short-read error with a zero buffer after one read. |
| CalMemory.ValidCalMemoryRange | usb1608fsplus/memory.go:91-102 | `validCalMemoryRange`: valid exactly when the count is positive, the start is non-negative, and the range ends within the 768 bytes. `CalMemory.ValidIffInsideMemory` restates it per address, and `CalMemory.ValidCalMemoryRangeVectors` checks the edges. |
| CalMemory.ValidIffInsideMemory | usb1608fsplus/memory.go:91-102 | A range is valid iff it is non-empty and every address it touches lies in 0..0x2FF. |
| CalMemory.ValidCalMemoryRangeVectors | usb1608fsplus/memory_test.go:21-29 | (0,0) F, (−1,1) F, (0,1) T, (0,768) T, (0,769) F, (1,767) T, (1,768) F, (0x2FF,1) T, (0x2FF,2) F. |
| CalMemory.ReadCalMemory | usb1608fsplus/memory.go:71-85 | An invalid range is an error with no transfer and no data. A valid one makes one transfer and returns exactly `count` bytes, those delivered over zeros. |
| CalMemory.ScheduleReadsValid | usb1608fsplus/memory.go:42-47 | Every 4-byte read of the gain-table schedule is a valid range, and the last byte touched is at most 511. |
| CalMemory.ReadGainRow | usb1608fsplus/memory.go:39-48 | One gain level's inner loop: 16 further reads, channel by channel. Slope j is the word of read 2(8i+j) and intercept j that of read 2(8i+j)+1. |
| CalMemory.ReadGainCell | usb1608fsplus/memory.go:42-47 | One channel: the slope read, then the intercept read 4 bytes later, which advances the schedule by two reads. |
| CalMemory.ReadWord | usb1608fsplus/memory.go:42-47 | The m-th scheduled read goes through `ReadCalMemory` at address 4m. It returns 4 bytes whose word is that read's value, and extends the history by that one read. |
| CalMemory.BuildGainTable | usb1608fsplus/memory.go:29-59 | Always a nil error after exactly 128 reads. Both tables are 8×8; slope[i][j] is the word of read 2(8i+j) and intercept[i][j] that of read 2(8i+j)+1. |
| CalMemory.GainTableSchedule | usb1608fsplus/memory.go:34-49 | Reads go at strictly increasing addresses 0 … 508. Slope (i,j) is read at 8(8i+j) and intercept (i,j) at 8(8i+j)+4. |
| Usb20xMisc.ByteSlice | usb20x/miscellaneous.go:16-20 | Two bytes: the low byte and the high byte of i mod 2^16. |
| Usb20xMisc.ByteSliceInverse | usb20x/miscellaneous.go:16-20 | Decoding the slice gives i mod 2^16, and every 2-byte string is the slice of its decoding. |
| Usb20xMisc.ByteSliceVectors | usb20x/miscellaneous.go:16-20 | 0, 0x8000, 0xFFFF, −1 and 0x10001 encode as expected under wrap-around. |
| Usb20xMisc.Status | usb20x/miscellaneous.go:41-49 | One 2-byte read of the package's own get-status opcode 0x44. The status is the low byte of the reply (0 if none) and no error is ever returned. |
| Usb20xMisc.VoltsData | usb20x/miscellaneous.go:79-85 | Error iff the input is not 2 bytes; otherwise the volts of data[0] + 256·data[1]. |
| Usb20xMisc.VoltsDataOfByteSlice | usb20x/miscellaneous.go:79-85 | Converting the 2-byte encoding of a 16-bit sample is converting the sample. |
| Usb20xMisc.Volts | usb20x/miscellaneous.go:89-98 | A range without a multiplier reads 0 V, and code 32768 reads 0 V. Otherwise volts × 32768 = multiplier × (b − 32768). See `Usb20xMisc.VoltsInverse`, `Usb20xMisc.VoltsMonotone` and `Usb20xMisc.VoltsVectors`. |
| Usb20xMisc.VoltsMidpoint | usb20x/miscellaneous.go:89-98 | Code 32768 is 0 V on every range. |
| Usb20xMisc.VoltsWithoutMultiplier | usb20x/miscellaneous.go:96 | A range without a multiplier entry reads 0 V for every sample. |
| Usb20xMisc.ScaleMonotone | usb20x/miscellaneous.go:95-96 | With a non-negative multiplier the conversion is non-decreasing in the sample. |
| Usb20xMisc.VoltsMonotone | usb20x/miscellaneous.go:89-98 | Every range's conversion is non-decreasing in the sample. |
| Usb20xMisc.VoltsInverse | usb20x/miscellaneous.go:89-98 | On a range with a multiplier the sample is recovered from its volts. |
| Usb20xMisc.VoltsVectors | usb20x/miscellaneous_test.go:21-23 | [0,0]→−10 V, [0x00,0x80]→0 V, [0xFF,0xFF]→10·32767/32768 = 9.99969482421875 V; 1- and 3-byte inputs are errors. |
| Usb20xMisc.Fs1608ScaleVectors | usb1608fsplus/miscellaneous_test.go:19-24 | The same formula with the USB-1608FS-Plus multipliers gives ±10 V: −10, 0, 9.99969482421875; and ±5 V: −5, 0, 4.999847412109375. |

## Left out

- The device layer (`usb1608fsplus/device.go`, `usb20x/device.go`): libusb enumeration, opening, claiming, timeouts and sleeps. Only the four-call `DAQer` interface is modelled, as a function from history to reply.
- The replacement of a nil payload by `[]byte{0}` inside `SendCommandToDevice` is not part of this model. Stop and clear are recorded with the empty payload the scan layer passes.
- `CalMemory.BuildGainTable`: the cells hold the raw little-endian 32-bit patterns read. Their reinterpretation as IEEE-754 floats (`convertBytesToFloat32`) and `float32From2Bytes` are not modelled, because floating point is out of scope.
- Frequencies, the pacer quotient and volts are exact reals. Rounding of float64 division and conversion is not modelled.
- JSON decoding (`UnmarshalJSON` for stall, transfer mode, range and trigger) and the marshal tests are codec plumbing and are left out.
- `ReadAnalogInput`, `BlinkLED`, `SerialNumber`, `UpgradeFirmware` and the other libusb wrappers are left out because they are single foreign calls.
- `Voltages` returns nil, nil and has nothing to model.
- `adjustRawValue`, `RawVoltsFromWord` and `VoltsFromWord` are exercised by tests, but none of the source files this model covers defines them, so they are not part of this model.
- The C scratch program and the example programs are left out.
- The log line on scan overrun is not modelled (output only).
- Error messages are replaced by one `AnalogScan.ScanError` kind per error return.
- `AnalogScan.ReadScan` requires the scan size to be non-negative or not a multiple of 64. A negative size that passes the check reaches `make` with a negative length, which panics in the source.
- `AnalogScan.ReadScan`: Go's 64-bit overflow of `numScans × channels × 2` is not modelled; the product is an unbounded integer.
- `CalMemory.ReadCalMemory` requires `count >= 0`, because `make` runs before the range check and panics on a negative count.
- `AnalogConfig.EnableChannel` and `AnalogConfig.DisableChannel` require 0 ≤ ch < 8, because the source indexes the channel array unchecked and panics otherwise.
- `Usb20xMisc.Status` records the status read as one 2-byte read of opcode 0x44; the control-transfer error it discards is not modelled.

## Findings

| source | as written | input that shows it | evidently intended | confidence | as-written member | corrected member |
|---|---|---|---|---|---|---|
| usb1608fsplus/analog.go:318-319 | immediate mode stores word i at `data[i]` and `data[i+1]`, so each word's second byte is overwritten by the next word's first byte and the second half of the buffer stays zero | 32 scans of one enabled channel in immediate mode (a 64-byte frame) from a device that answers every read with the bytes 1, 1: the returned buffer ends in 0 | word i stored at `data[2i]` and `data[2i+1]` | not executed | AnalogScan.ReadScanAsWritten, AnalogScan.ImmediatePlacementCounterexample, AnalogScan.AsWrittenDropsSecondHalf | AnalogScan.ReadScan, AnalogScan.ReadScanDeliversWords, AnalogScan.ImmediatePlacementCorrected |
