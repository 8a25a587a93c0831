/** The analog-input scan session of the USB-1608FS-Plus
    (`usb1608fsplus/analog.go`): starting and stopping a scan, writing and
    reading the channel ranges, and reading scan data. Every operation takes
    the device and the history of calls issued so far, and returns its result
    with the history extended by the calls it made, in order. */
module AnalogScan {
  import opened Bytes
  import opened Outcomes
  import opened Daq
  import opened AnalogConfig
  import C = Fs1608Commands

  /** What went wrong, one kind per error return of the source. */
  datatype ScanError =
    | StopFailed          // stop-scan command returned an error
    | ClearFailed         // clear-buffer command returned an error
    | StartFailed         // start-scan command returned an error
    | RangesWriteFailed   // range-configuration write returned an error
    | RangesReadFailed    // range-configuration read returned an error
    | WrongRangeCount     // range-configuration read delivered other than 8 bytes
    | FrameNotPacketMultiple  // scan size not a multiple of the bulk packet size
    | ImmediateReadFailed     // a 2-byte immediate-mode read returned an error
    | ImmediateShortRead      // a 2-byte immediate-mode read delivered other than 2 bytes
    | BulkReadFailed          // the block-mode read returned an error
    | BulkShortRead           // the block-mode read delivered other than the scan size
    | BadTransferMode         // transfer mode neither block nor immediate
    | StatusFailed            // the status read after the transfer returned an error

  /** The outcome of a command: the error it returned, if any, and the history
      after it. */
  datatype Step = Step(err: Option<ScanError>, trace: seq<Call>)

  /** The outcome of a read: the buffer returned, the error, the history. */
  datatype ScanRead = ScanRead(data: seq<byte>, err: Option<ScanError>, trace: seq<Call>)

  const StopCode: byte := C.Command.AnalogStopScan.Code()
  const ClearCode: byte := C.Command.AnalogClearBuffer.Code()
  const StartCode: byte := C.Command.AnalogStartScan.Code()
  const ConfigCode: byte := C.Command.AnalogConfig.Code()

  /** Sends one command; the command's error becomes `onError`. */
  function SendCommand(dev: Device, h: seq<Call>, cmd: byte, data: seq<byte>, onError: ScanError): (r: Step)
    ensures r.trace == h + [Send(cmd, data)]
    ensures r.err.Some? <==> dev(r.trace).failed
    ensures r.err.Some? ==> r.err.value == onError
  {
    var h' := h + [Send(cmd, data)];
    Step(if dev(h').failed then Some(onError) else None, h')
  }

  // ---------------------------------------------------------------------------
  // Single commands

  /** `StopScan`: one stop-scan command with no payload. */
  function StopScan(dev: Device, h: seq<Call>): (r: Step)
    ensures r.trace == h + [Send(0x12, [])]
    ensures r.err.Some? <==> dev(r.trace).failed
    ensures r.err.Some? ==> r.err.value == StopFailed
  {
    SendCommand(dev, h, StopCode, [], StopFailed)
  }

  /** `ClearScanBuffer`: one clear-buffer command with no payload. */
  function ClearScanBuffer(dev: Device, h: seq<Call>): (r: Step)
    ensures r.trace == h + [Send(0x15, [])]
    ensures r.err.Some? <==> dev(r.trace).failed
    ensures r.err.Some? ==> r.err.value == ClearFailed
  {
    SendCommand(dev, h, ClearCode, [], ClearFailed)
  }

  /** `Close`: stopping the scan is all closing does. */
  function Close(dev: Device, h: seq<Call>): (r: Step)
    ensures r.trace == h + [Send(0x12, [])]
    ensures r.err.Some? <==> dev(r.trace).failed
    ensures r.err.Some? ==> r.err.value == StopFailed
  {
    StopScan(dev, h)
  }

  // ---------------------------------------------------------------------------
  // Starting a scan

  /** The start-scan payload: the pacer period is computed from frequency 0
      (no internal pacer) when an external pacer drives the scan. */
  function StartPacket(ai: AnalogInput, numScans: int): (p: seq<byte>)
    ensures |p| == 10
    ensures DecodeScanConfig(p) == ScanConfig(
      numScans % TwoTo32,
      if ai.useExternalPacer then 0 else PacerPeriod(ai.frequency) % TwoTo32,
      EnabledMask(ai.channels), Options(ai))
  {
    var freq := if ai.useExternalPacer then 0.0 else ai.frequency;
    PackScanData(numScans, freq, EnabledMask(ai.channels), Options(ai))
  }

  /** With an external pacer the four pacer-period bytes are zero. */
  lemma ExternalPacerBytesZero(ai: AnalogInput, numScans: int)
    requires ai.useExternalPacer
    ensures StartPacket(ai, numScans)[4..8] == [0, 0, 0, 0]
  {
    var p := StartPacket(ai, numScans);
    assert LeUint32(p[4..8]) == 0;
    LeBytes32OfLeUint32(p[4..8]);
  }

  /** The first n (1 to 3) commands of a scan start: stop, clear, then start
      with `packet`. */
  function StartCalls(packet: seq<byte>, n: nat): (calls: seq<Call>)
    requires 1 <= n <= 3
    ensures |calls| == n && calls[0] == Send(0x12, [])
    ensures n >= 2 ==> calls[1] == Send(0x15, [])
    ensures n == 3 ==> calls[2] == Send(0x11, packet)
  {
    var all := [Send(StopCode, []), Send(ClearCode, []), Send(StartCode, packet)];
    all[..n]
  }

  /** The three commands of a scan start with start payload `packet`,
      stopping at the first that fails. */
  function StartSequence(dev: Device, h: seq<Call>, packet: seq<byte>): (r: Step)
    ensures var n := |r.trace| - |h|;
      && 1 <= n <= 3
      && r.trace == h + StartCalls(packet, n)
      && (n >= 2 ==> !dev(h + StartCalls(packet, 1)).failed)
      && (n == 3 ==> !dev(h + StartCalls(packet, 2)).failed)
    ensures r.err.None? <==> r.trace == h + StartCalls(packet, 3) && !dev(r.trace).failed
    ensures r.err.Some? ==>
      && dev(r.trace).failed
      && r.err.value == StartError(|r.trace| - |h|)
  {
    var stop := StopScan(dev, h);
    assert stop.trace == h + StartCalls(packet, 1);
    if stop.err.Some? then stop
    else
      var clear := ClearScanBuffer(dev, stop.trace);
      assert clear.trace == h + StartCalls(packet, 2);
      if clear.err.Some? then clear
      else
        var start := SendCommand(dev, clear.trace, StartCode, packet, StartFailed);
        assert start.trace == h + StartCalls(packet, 3);
        start
  }

  /** `StartScan`: stop, clear, then start with the packed configuration,
      stopping at the first command that fails and reporting which one. */
  function StartScan(dev: Device, h: seq<Call>, ai: AnalogInput, numScans: int): (r: Step)
    ensures var n := |r.trace| - |h|; var p := StartPacket(ai, numScans);
      && 1 <= n <= 3
      && r.trace == h + StartCalls(p, n)
      && (n >= 2 ==> !dev(h + StartCalls(p, 1)).failed)
      && (n == 3 ==> !dev(h + StartCalls(p, 2)).failed)
    ensures r.err.None? <==> r.trace == h + StartCalls(StartPacket(ai, numScans), 3) && !dev(r.trace).failed
    ensures r.err.Some? ==>
      && dev(r.trace).failed
      && r.err.value == StartError(|r.trace| - |h|)
  {
    StartSequence(dev, h, StartPacket(ai, numScans))
  }

  /** The error of the n-th (from 1) command of a scan start. */
  function StartError(n: nat): ScanError
  {
    if n == 1 then StopFailed else if n == 2 then ClearFailed else StartFailed
  }

  // ---------------------------------------------------------------------------
  // Channel ranges

  /** `SetScanRanges`: one range-configuration command whose 8-byte payload
      holds channel i's range code at byte i. */
  function SetScanRanges(dev: Device, h: seq<Call>, ai: AnalogInput): (r: Step)
    ensures |r.trace| == |h| + 1 && r.trace[..|h|] == h
    ensures r.trace[|h|].Send? && r.trace[|h|].cmd == 0x14
    ensures |r.trace[|h|].data| == 8
    ensures forall i | 0 <= i < 8 :: r.trace[|h|].data[i] == ai.channels[i].range
    ensures r.err.Some? <==> dev(r.trace).failed
    ensures r.err.Some? ==> r.err.value == RangesWriteFailed
  {
    var r := SendCommand(dev, h, ConfigCode, RangeBytes(ai.channels), RangesWriteFailed);
    assert r.trace[..|h|] == h;
    r
  }

  /** The outcome of reading the range configuration. */
  datatype RangesRead = RangesRead(ranges: seq<byte>, err: Option<ScanError>, trace: seq<Call>)

  /** `ScanRanges`: one 8-byte range-configuration read; the buffer is returned
      even on error, and a reply of other than 8 bytes is an error. */
  function ScanRanges(dev: Device, h: seq<Call>): (r: RangesRead)
    ensures r.trace == h + [Receive(0x14, 8)]
    ensures |r.ranges| == 8
    ensures forall i | 0 <= i < 8 ::
      r.ranges[i] == (if i < |dev(r.trace).bytes| then dev(r.trace).bytes[i] else 0)
    ensures r.err.None? <==> !dev(r.trace).failed && dev(r.trace).count == 8
    ensures r.err.Some? ==> r.err.value == (if dev(r.trace).failed then RangesReadFailed else WrongRangeCount)
  {
    var h' := h + [Receive(ConfigCode, 8)];
    var reply := dev(h');
    var ranges := Fill(Zeros(8), reply.bytes);
    if reply.failed then RangesRead(ranges, Some(RangesReadFailed), h')
    else if reply.count != 8 then RangesRead(ranges, Some(WrongRangeCount), h')
    else RangesRead(ranges, None, h')
  }

  // ---------------------------------------------------------------------------
  // Reading scan data

  /** `numScans × enabled channels × 2`: the bytes a scan of `numScans`
      produces. */
  function ScanBytes(ai: AnalogInput, numScans: int): int
  {
    numScans * NumEnabledChannels(ai.channels) * 2
  }

  /** `n` 2-byte bulk reads. */
  function BulkReads(n: nat): (calls: seq<Call>)
    ensures |calls| == n
    ensures forall k | 0 <= k < n :: calls[k] == Bulk(2)
  {
    seq(n, _ => Bulk(2))
  }

  lemma BulkReadsStep(n: nat)
    ensures BulkReads(n) + [Bulk(2)] == BulkReads(n + 1)
  {
  }

  /** The reply to the k-th (from 0) 2-byte read after history `h`. */
  function WordReply(dev: Device, h: seq<Call>, k: nat): Reply
  {
    dev(h + BulkReads(k + 1))
  }

  /** The k-th read succeeded and delivered two bytes. */
  predicate WordOk(dev: Device, h: seq<Call>, k: nat)
  {
    !WordReply(dev, h, k).failed && WordReply(dev, h, k).count == 2
  }

  /** The 2-byte buffer of the k-th read. */
  function Word(dev: Device, h: seq<Call>, k: nat): (w: seq<byte>)
    ensures |w| == 2
  {
    Fill(Zeros(2), WordReply(dev, h, k).bytes)
  }

  /** The error of a failed word read. */
  function WordError(dev: Device, h: seq<Call>, k: nat): ScanError
  {
    if WordReply(dev, h, k).failed then ImmediateReadFailed else ImmediateShortRead
  }

  /** The buffer after words i .. j-1 were stored as the source stores them:
      word k at offsets k and k+1, so each word's second byte is overwritten by
      the next word's first byte. */
  function AsWrittenPlacement(dev: Device, h: seq<Call>, data: seq<byte>, i: nat, j: nat): (r: seq<byte>)
    ensures |r| == |data|
  {
    seq(|data|, p requires 0 <= p < |data| =>
      if i <= p < j then Word(dev, h, p)[0]
      else if p == j && i < j then Word(dev, h, j - 1)[1]
      else data[p])
  }

  /** The buffer after words i .. j-1 were stored at offsets 2k and 2k+1. */
  function IntendedPlacement(dev: Device, h: seq<Call>, data: seq<byte>, i: nat, j: nat): (r: seq<byte>)
    ensures |r| == |data|
  {
    seq(|data|, p requires 0 <= p < |data| =>
      if 2 * i <= p < 2 * j then Word(dev, h, p / 2)[p % 2] else data[p])
  }

  /** The first word from i on whose read fails or delivers other than two
      bytes, or `words` if there is none. */
  function FirstFailure(dev: Device, h: seq<Call>, i: nat, words: nat): (j: nat)
    requires i <= words
    ensures i <= j <= words
    ensures forall k | i <= k < j :: WordOk(dev, h, k)
    ensures j < words ==> !WordOk(dev, h, j)
    decreases words - i
  {
    if i == words then words
    else if WordOk(dev, h, i) then FirstFailure(dev, h, i + 1, words)
    else i
  }

  /** No read fails exactly when the first failure is past the last word. */
  lemma AllWordsOk(dev: Device, h: seq<Call>, i: nat, words: nat)
    requires i <= words
    ensures FirstFailure(dev, h, i, words) == words <==> forall k | i <= k < words :: WordOk(dev, h, k)
  {
  }

  /** The immediate-mode loop from word i on, as written: word k goes to
      `data[k]` and `data[k+1]`. Stops after the first read that fails or
      delivers other than two bytes, returning the buffer as filled so far. */
  function ReadWordsAsWritten(dev: Device, h: seq<Call>, words: nat, i: nat, data: seq<byte>): (r: ScanRead)
    requires i <= words && |data| == 2 * words
    ensures var j := FirstFailure(dev, h, i, words);
      && r.trace == h + BulkReads(if j < words then j + 1 else words)
      && r.err == (if j < words then Some(WordError(dev, h, j)) else None)
      && r.data == AsWrittenPlacement(dev, h, data, i, j)
    decreases words - i
  {
    if i == words then
      assert AsWrittenPlacement(dev, h, data, i, words) == data;
      ScanRead(data, None, h + BulkReads(i))
    else
      BulkReadsStep(i);
      var h' := h + BulkReads(i + 1);
      var reply := dev(h');
      if reply.failed || reply.count != 2 then
        assert AsWrittenPlacement(dev, h, data, i, i) == data;
        ScanRead(data, Some(WordError(dev, h, i)), h')
      else
        var w := Word(dev, h, i);
        var r := ReadWordsAsWritten(dev, h, words, i + 1, data[i := w[0]][i + 1 := w[1]]);
        AsWrittenStep(dev, h, data, i, FirstFailure(dev, h, i + 1, words));
        r
  }

  /** Storing word i then words i+1 .. j-1 is storing words i .. j-1. */
  lemma AsWrittenStep(dev: Device, h: seq<Call>, data: seq<byte>, i: nat, j: nat)
    requires i < j && i + 1 < |data|
    ensures var w := Word(dev, h, i);
      AsWrittenPlacement(dev, h, data[i := w[0]][i + 1 := w[1]], i + 1, j) == AsWrittenPlacement(dev, h, data, i, j)
  {
  }

  /** The immediate-mode loop as evidently intended: word k goes to
      `data[2k]` and `data[2k+1]`. */
  function ReadWords(dev: Device, h: seq<Call>, words: nat, i: nat, data: seq<byte>): (r: ScanRead)
    requires i <= words && |data| == 2 * words
    ensures var j := FirstFailure(dev, h, i, words);
      && r.trace == h + BulkReads(if j < words then j + 1 else words)
      && r.err == (if j < words then Some(WordError(dev, h, j)) else None)
      && r.data == IntendedPlacement(dev, h, data, i, j)
    decreases words - i
  {
    if i == words then
      assert IntendedPlacement(dev, h, data, i, words) == data;
      ScanRead(data, None, h + BulkReads(i))
    else
      BulkReadsStep(i);
      var h' := h + BulkReads(i + 1);
      var reply := dev(h');
      if reply.failed || reply.count != 2 then
        assert IntendedPlacement(dev, h, data, i, i) == data;
        ScanRead(data, Some(WordError(dev, h, i)), h')
      else
        var w := Word(dev, h, i);
        var r := ReadWords(dev, h, words, i + 1, data[2 * i := w[0]][2 * i + 1 := w[1]]);
        IntendedStep(dev, h, data, i, FirstFailure(dev, h, i + 1, words));
        r
  }

  lemma IntendedStep(dev: Device, h: seq<Call>, data: seq<byte>, i: nat, j: nat)
    requires i < j && 2 * i + 1 < |data|
    ensures var w := Word(dev, h, i);
      IntendedPlacement(dev, h, data[2 * i := w[0]][2 * i + 1 := w[1]], i + 1, j) == IntendedPlacement(dev, h, data, i, j)
  {
  }

  /** The immediate-mode loop over all `words` words, in either placement. */
  function ReadAllWords(dev: Device, h: seq<Call>, words: nat, asWritten: bool): (r: ScanRead)
    ensures |r.data| == 2 * words
  {
    if asWritten then ReadWordsAsWritten(dev, h, words, 0, Zeros(2 * words))
    else ReadWords(dev, h, words, 0, Zeros(2 * words))
  }

  /** The data transfer of `ReadScan` for a scan of `words` words: one 2-byte
      read per word in immediate mode, one read of the whole scan in block
      mode, an error without any call for another mode. */
  function Transfer(dev: Device, h: seq<Call>, mode: byte, words: nat, asWritten: bool): (r: ScanRead)
    ensures |r.data| == 2 * words
    ensures |r.trace| >= |h| && r.trace[..|h|] == h
    ensures r.err != Some(FrameNotPacketMultiple) && r.err != Some(StatusFailed)
    ensures mode > 1 ==> r == ScanRead(Zeros(2 * words), Some(BadTransferMode), h)
  {
    var n := 2 * words;
    if mode == ImmediateTransfer then ReadAllWords(dev, h, words, asWritten)
    else if mode == BlockTransfer then
      var h' := h + [Bulk(n)];
      var reply := dev(h');
      var data := Fill(Zeros(n), reply.bytes);
      if reply.failed then ScanRead(data, Some(BulkReadFailed), h')
      else if reply.count != n then ScanRead(data, Some(BulkShortRead), h')
      else ScanRead(data, None, h')
    else ScanRead(Zeros(n), Some(BadTransferMode), h)
  }

  /** The calls that follow a successful transfer, by status bit: the status
      read, a 2-byte drain read when bit 1 (scan running) is clear, and stop
      then clear when bit 2 (overrun) is set. */
  function AfterTransferCalls(status: byte): seq<Call>
  {
    [GetStatus] + (if Bit(status, 1) then [] else [Bulk(2)])
      + (if Bit(status, 2) then [Send(0x12, []), Send(0x15, [])] else [])
  }

  /** The status byte read after history `h`. */
  function StatusAfter(dev: Device, h: seq<Call>): byte
  {
    StatusOf(dev(h + [GetStatus]))
  }

  /** The end of `ReadScan` after a successful transfer: read the status; drain
      the trailing empty packet unless the scan is still running; on overrun
      stop and clear, ignoring their errors. The data is returned unchanged,
      with the status error if the status read failed. (The source also tests
      that the scan size is a multiple of 64 before draining, which holds
      here.) */
  function Finish(dev: Device, h: seq<Call>, data: seq<byte>): (r: ScanRead)
    ensures r.data == data
    ensures r.trace == h + AfterTransferCalls(StatusAfter(dev, h))
    ensures r.err.Some? <==> dev(h + [GetStatus]).failed
    ensures r.err.Some? ==> r.err.value == StatusFailed
  {
    var h1 := h + [GetStatus];
    var reply := dev(h1);
    var status := StatusOf(reply);
    SingleBitMask(1);
    SingleBitMask(2);
    AndSingleBit(status, C.ScanRunning, 1);
    AndSingleBit(status, C.ScanOverrun, 2);
    var h2 := if And(status, C.ScanRunning) == 0 then h1 + [Bulk(2)] else h1;
    var h3 := if And(status, C.ScanOverrun) != 0 then ClearScanBuffer(dev, StopScan(dev, h2).trace).trace else h2;
    ScanRead(data, if reply.failed then Some(StatusFailed) else None, h3)
  }

  const MaxBulkTransferPacketSize: nat := C.MaxBulkTransferPacketSize

  /** `ReadScan` for a scan of `n` bytes in transfer mode `mode`, with the
      immediate-mode placement chosen by `asWritten`. The size error occurs
      exactly when `n` is not a whole number of packets, and then nothing is
      read; otherwise the buffer has the frame's size and the history only
      grows, and an unknown mode is an error with zeros and no call. */
  function ReadFrame(dev: Device, h: seq<Call>, mode: byte, n: int, asWritten: bool): (r: ScanRead)
    requires n >= 0 || n % MaxBulkTransferPacketSize != 0
    ensures n % MaxBulkTransferPacketSize != 0 <==> r.err == Some(FrameNotPacketMultiple)
    ensures n % MaxBulkTransferPacketSize != 0 ==> r.data == [] && r.trace == h
    ensures n % MaxBulkTransferPacketSize == 0 ==> |r.data| == n && |r.trace| >= |h| && r.trace[..|h|] == h
    ensures n % MaxBulkTransferPacketSize == 0 && mode > 1 ==> r == ScanRead(Zeros(n), Some(BadTransferMode), h)
  {
    if n % MaxBulkTransferPacketSize != 0 then ScanRead([], Some(FrameNotPacketMultiple), h)
    else
      HalfFrame(n);
      var t := Transfer(dev, h, mode, n / 2, asWritten);
      if t.err.Some? then t
      else
        var calls := AfterTransferCalls(StatusAfter(dev, t.trace));
        PrefixKept(h, t.trace, calls);
        Finish(dev, t.trace, t.data)
  }

  /** Extending a history that starts with `h` keeps `h` as its prefix. */
  lemma PrefixKept(h: seq<Call>, t: seq<Call>, calls: seq<Call>)
    requires |t| >= |h| && t[..|h|] == h
    ensures |t + calls| >= |h| && (t + calls)[..|h|] == h
  {
    assert (t + calls)[..|h|] == t[..|h|];
  }

  /** Block mode: one read of the whole frame, then the status handling. */
  lemma FrameBlock(dev: Device, h: seq<Call>, n: int, asWritten: bool)
    requires n >= 0 && n % MaxBulkTransferPacketSize == 0
    ensures var r := ReadFrame(dev, h, BlockTransfer, n, asWritten);
      var reply := dev(h + [Bulk(n)]);
      && r.data == Fill(Zeros(n), reply.bytes)
      && (reply.failed ==> r.err == Some(BulkReadFailed) && r.trace == h + [Bulk(n)])
      && (!reply.failed && reply.count != n ==> r.err == Some(BulkShortRead) && r.trace == h + [Bulk(n)])
      && (!reply.failed && reply.count == n ==>
            && r.trace == h + [Bulk(n)] + AfterTransferCalls(StatusAfter(dev, h + [Bulk(n)]))
            && (r.err.Some? <==> dev(h + [Bulk(n), GetStatus]).failed))
  {
    HalfFrame(n);
    assert h + [Bulk(n)] + [GetStatus] == h + [Bulk(n), GetStatus];
  }

  /** A frame of whole packets is a whole number of words. */
  lemma HalfFrame(n: int)
    requires n % MaxBulkTransferPacketSize == 0
    ensures 2 * (n / 2) == n
  {
    var q := n / MaxBulkTransferPacketSize;
    assert n == 64 * q;
    assert n / 2 == 32 * q;
  }

  /** Immediate mode with the corrected placement: all words read, placed at
      2k and 2k+1, then the status handling; or, at the first failed word
      read, the buffer as filled so far and that read's error. */
  lemma FrameImmediate(dev: Device, h: seq<Call>, n: int)
    requires n >= 0 && n % MaxBulkTransferPacketSize == 0
    ensures var r := ReadFrame(dev, h, ImmediateTransfer, n, false);
      var j := FirstFailure(dev, h, 0, n / 2);
      if j == n / 2 then
        && r.data == IntendedPlacement(dev, h, Zeros(n), 0, n / 2)
        && r.trace == h + BulkReads(n / 2) + AfterTransferCalls(StatusAfter(dev, h + BulkReads(n / 2)))
        && (r.err.Some? <==> dev(h + BulkReads(n / 2) + [GetStatus]).failed)
      else
        r == ScanRead(IntendedPlacement(dev, h, Zeros(n), 0, j), Some(WordError(dev, h, j)), h + BulkReads(j + 1))
  {
    HalfFrame(n);
    var t := ReadWords(dev, h, n / 2, 0, Zeros(n));
    assert Transfer(dev, h, ImmediateTransfer, n / 2, false) == t;
    if FirstFailure(dev, h, 0, n / 2) == n / 2 {
      assert ReadFrame(dev, h, ImmediateTransfer, n, false) == Finish(dev, t.trace, t.data);
    } else {
      assert ReadFrame(dev, h, ImmediateTransfer, n, false) == t;
    }
  }

  /** Immediate mode as written: the same framing, with word k placed at k
      and k+1. */
  lemma FrameImmediateAsWritten(dev: Device, h: seq<Call>, n: int)
    requires n >= 0 && n % MaxBulkTransferPacketSize == 0
    ensures var r := ReadFrame(dev, h, ImmediateTransfer, n, true);
      var j := FirstFailure(dev, h, 0, n / 2);
      if j == n / 2 then
        && r.data == AsWrittenPlacement(dev, h, Zeros(n), 0, n / 2)
        && r.trace == h + BulkReads(n / 2) + AfterTransferCalls(StatusAfter(dev, h + BulkReads(n / 2)))
        && (r.err.Some? <==> dev(h + BulkReads(n / 2) + [GetStatus]).failed)
      else
        r == ScanRead(AsWrittenPlacement(dev, h, Zeros(n), 0, j), Some(WordError(dev, h, j)), h + BulkReads(j + 1))
  {
    HalfFrame(n);
    var t := ReadWordsAsWritten(dev, h, n / 2, 0, Zeros(n));
    assert Transfer(dev, h, ImmediateTransfer, n / 2, true) == t;
    if FirstFailure(dev, h, 0, n / 2) == n / 2 {
      assert ReadFrame(dev, h, ImmediateTransfer, n, true) == Finish(dev, t.trace, t.data);
    } else {
      assert ReadFrame(dev, h, ImmediateTransfer, n, true) == t;
    }
  }

  /** `ReadScan` as written in the source, including its immediate-mode
      placement of word k at offsets k and k+1. */
  function ReadScanAsWritten(dev: Device, h: seq<Call>, ai: AnalogInput, numScans: int): (r: ScanRead)
    requires ScanBytes(ai, numScans) >= 0 || ScanBytes(ai, numScans) % MaxBulkTransferPacketSize != 0
    ensures ScanBytes(ai, numScans) % MaxBulkTransferPacketSize != 0 <==> r.err == Some(FrameNotPacketMultiple)
    ensures ScanBytes(ai, numScans) % MaxBulkTransferPacketSize != 0 ==> r.data == [] && r.trace == h
    ensures ScanBytes(ai, numScans) % MaxBulkTransferPacketSize == 0 ==>
      |r.data| == ScanBytes(ai, numScans) && |r.trace| >= |h| && r.trace[..|h|] == h
    ensures ScanBytes(ai, numScans) % MaxBulkTransferPacketSize == 0 && ai.transferMode > 1 ==>
      r == ScanRead(Zeros(ScanBytes(ai, numScans)), Some(BadTransferMode), h)
    ensures var n := ScanBytes(ai, numScans);
      n % MaxBulkTransferPacketSize == 0 && ai.transferMode == BlockTransfer ==>
      var reply := dev(h + [Bulk(n)]);
      && r.data == Fill(Zeros(n), reply.bytes)
      && (reply.failed ==> r.err == Some(BulkReadFailed) && r.trace == h + [Bulk(n)])
      && (!reply.failed && reply.count != n ==> r.err == Some(BulkShortRead) && r.trace == h + [Bulk(n)])
      && (!reply.failed && reply.count == n ==>
            && r.trace == h + [Bulk(n)] + AfterTransferCalls(StatusAfter(dev, h + [Bulk(n)]))
            && (r.err.Some? <==> dev(h + [Bulk(n), GetStatus]).failed))
    ensures var n := ScanBytes(ai, numScans);
      n % MaxBulkTransferPacketSize == 0 && ai.transferMode == ImmediateTransfer ==>
      var j := FirstFailure(dev, h, 0, n / 2);
      if j == n / 2 then
        && r.data == AsWrittenPlacement(dev, h, Zeros(n), 0, n / 2)
        && r.trace == h + BulkReads(n / 2) + AfterTransferCalls(StatusAfter(dev, h + BulkReads(n / 2)))
        && (r.err.Some? <==> dev(h + BulkReads(n / 2) + [GetStatus]).failed)
      else
        r == ScanRead(AsWrittenPlacement(dev, h, Zeros(n), 0, j), Some(WordError(dev, h, j)), h + BulkReads(j + 1))
  {
    var n := ScanBytes(ai, numScans);
    if n % MaxBulkTransferPacketSize == 0 && ai.transferMode == BlockTransfer then
      FrameBlock(dev, h, n, true);
      ReadFrame(dev, h, ai.transferMode, n, true)
    else if n % MaxBulkTransferPacketSize == 0 && ai.transferMode == ImmediateTransfer then
      FrameImmediateAsWritten(dev, h, n);
      ReadFrame(dev, h, ai.transferMode, n, true)
    else ReadFrame(dev, h, ai.transferMode, n, true)
  }

  /** `ReadScan` with the immediate-mode placement corrected: the scan size
      must be a multiple of the 64-byte bulk packet, or an error is returned
      with no call and no data; then the data is read in the transfer mode's
      framing, and after a successful transfer the status is read, the empty
      trailing packet drained unless the scan is running, and an overrun
      stops and clears the scan. The data is returned even when the status
      read fails. */
  function ReadScan(dev: Device, h: seq<Call>, ai: AnalogInput, numScans: int): (r: ScanRead)
    requires ScanBytes(ai, numScans) >= 0 || ScanBytes(ai, numScans) % MaxBulkTransferPacketSize != 0
    // framing check
    ensures ScanBytes(ai, numScans) % MaxBulkTransferPacketSize != 0 <==> r.err == Some(FrameNotPacketMultiple)
    ensures ScanBytes(ai, numScans) % MaxBulkTransferPacketSize != 0 ==> r.data == [] && r.trace == h
    ensures ScanBytes(ai, numScans) % MaxBulkTransferPacketSize == 0 ==>
      |r.data| == ScanBytes(ai, numScans) && |r.trace| >= |h| && r.trace[..|h|] == h
    // unknown transfer mode
    ensures ScanBytes(ai, numScans) % MaxBulkTransferPacketSize == 0 && ai.transferMode > 1 ==>
      r == ScanRead(Zeros(ScanBytes(ai, numScans)), Some(BadTransferMode), h)
    // block mode
    ensures var n := ScanBytes(ai, numScans);
      n % MaxBulkTransferPacketSize == 0 && ai.transferMode == BlockTransfer ==>
      var reply := dev(h + [Bulk(n)]);
      && r.data == Fill(Zeros(n), reply.bytes)
      && (reply.failed ==> r.err == Some(BulkReadFailed) && r.trace == h + [Bulk(n)])
      && (!reply.failed && reply.count != n ==> r.err == Some(BulkShortRead) && r.trace == h + [Bulk(n)])
      && (!reply.failed && reply.count == n ==>
            && r.trace == h + [Bulk(n)] + AfterTransferCalls(StatusAfter(dev, h + [Bulk(n)]))
            && (r.err.Some? <==> dev(h + [Bulk(n), GetStatus]).failed))
    // immediate mode
    ensures var n := ScanBytes(ai, numScans);
      n % MaxBulkTransferPacketSize == 0 && ai.transferMode == ImmediateTransfer ==>
      var j := FirstFailure(dev, h, 0, n / 2);
      if j == n / 2 then
        && r.data == IntendedPlacement(dev, h, Zeros(n), 0, n / 2)
        && r.trace == h + BulkReads(n / 2) + AfterTransferCalls(StatusAfter(dev, h + BulkReads(n / 2)))
        && (r.err.Some? <==> dev(h + BulkReads(n / 2) + [GetStatus]).failed)
      else
        r == ScanRead(IntendedPlacement(dev, h, Zeros(n), 0, j), Some(WordError(dev, h, j)), h + BulkReads(j + 1))
  {
    var n := ScanBytes(ai, numScans);
    if n % MaxBulkTransferPacketSize == 0 && ai.transferMode == BlockTransfer then
      FrameBlock(dev, h, n, false);
      ReadFrame(dev, h, ai.transferMode, n, false)
    else if n % MaxBulkTransferPacketSize == 0 && ai.transferMode == ImmediateTransfer then
      FrameImmediate(dev, h, n);
      ReadFrame(dev, h, ai.transferMode, n, false)
    else ReadFrame(dev, h, ai.transferMode, n, false)
  }

  // ---------------------------------------------------------------------------
  // Immediate-mode placement

  /** With the corrected placement, a complete immediate-mode frame of n
      bytes holds the words in the order they were read, two bytes each. */
  lemma FrameDeliversWords(dev: Device, h: seq<Call>, n: int)
    requires n >= 0 && n % MaxBulkTransferPacketSize == 0
    requires forall k | 0 <= k < n / 2 :: WordOk(dev, h, k)
    ensures var r := ReadFrame(dev, h, ImmediateTransfer, n, false);
      && |r.data| == n
      && forall k | 0 <= k < n / 2 :: r.data[2 * k] == Word(dev, h, k)[0] && r.data[2 * k + 1] == Word(dev, h, k)[1]
  {
    AllWordsOk(dev, h, 0, n / 2);
    FrameImmediate(dev, h, n);
    var r := ReadFrame(dev, h, ImmediateTransfer, n, false);
    assert r.data == IntendedPlacement(dev, h, Zeros(n), 0, n / 2);
    forall k | 0 <= k < n / 2
      ensures r.data[2 * k] == Word(dev, h, k)[0] && r.data[2 * k + 1] == Word(dev, h, k)[1]
    {
      assert (2 * k) / 2 == k && (2 * k) % 2 == 0;
      assert (2 * k + 1) / 2 == k && (2 * k + 1) % 2 == 1;
    }
  }

  /** As written, a complete immediate-mode frame keeps only the first byte
      of each word (plus the last word's second byte) and leaves the rest of
      the buffer zero, whatever the device sent. */
  lemma FrameAsWrittenDropsSecondHalf(dev: Device, h: seq<Call>, n: int)
    requires n >= 0 && n % MaxBulkTransferPacketSize == 0
    requires forall k | 0 <= k < n / 2 :: WordOk(dev, h, k)
    ensures var r := ReadFrame(dev, h, ImmediateTransfer, n, true); var words := n / 2;
      && |r.data| == n
      && (forall k | 0 <= k < words :: r.data[k] == Word(dev, h, k)[0])
      && (words > 0 ==> r.data[words] == Word(dev, h, words - 1)[1])
      && (forall p | words < p < n :: r.data[p] == 0)
  {
    HalfFrame(n);
    AllWordsOk(dev, h, 0, n / 2);
    FrameImmediateAsWritten(dev, h, n);
  }

  /** `ReadScan` with the corrected placement: a complete immediate-mode scan
      returns the words in the order they were read, two bytes each. */
  lemma ReadScanDeliversWords(dev: Device, h: seq<Call>, ai: AnalogInput, numScans: int)
    requires ScanBytes(ai, numScans) >= 0 && ScanBytes(ai, numScans) % MaxBulkTransferPacketSize == 0
    requires ai.transferMode == ImmediateTransfer
    requires forall k | 0 <= k < ScanBytes(ai, numScans) / 2 :: WordOk(dev, h, k)
    ensures var r := ReadScan(dev, h, ai, numScans);
      && |r.data| == ScanBytes(ai, numScans)
      && forall k | 0 <= k < ScanBytes(ai, numScans) / 2 ::
           r.data[2 * k] == Word(dev, h, k)[0] && r.data[2 * k + 1] == Word(dev, h, k)[1]
  {
    FrameDeliversWords(dev, h, ScanBytes(ai, numScans));
  }

  /** `ReadScan` as written: a complete immediate-mode scan keeps only the
      first byte of each word (plus the last word's second byte). */
  lemma AsWrittenDropsSecondHalf(dev: Device, h: seq<Call>, ai: AnalogInput, numScans: int)
    requires ScanBytes(ai, numScans) >= 0 && ScanBytes(ai, numScans) % MaxBulkTransferPacketSize == 0
    requires ai.transferMode == ImmediateTransfer
    requires forall k | 0 <= k < ScanBytes(ai, numScans) / 2 :: WordOk(dev, h, k)
    ensures var r := ReadScanAsWritten(dev, h, ai, numScans); var words := ScanBytes(ai, numScans) / 2;
      && |r.data| == ScanBytes(ai, numScans)
      && (forall k | 0 <= k < words :: r.data[k] == Word(dev, h, k)[0])
      && (words > 0 ==> r.data[words] == Word(dev, h, words - 1)[1])
      && (forall p | words < p < 2 * words :: r.data[p] == 0)
  {
    FrameAsWrittenDropsSecondHalf(dev, h, ScanBytes(ai, numScans));
  }

  /** A device that answers every call successfully with the two bytes 1, 1. */
  function AllOnes(h: seq<Call>): Reply
  {
    Reply(2, [1, 1], false)
  }

  /** Every read from `AllOnes` succeeds. */
  lemma AllOnesWordsOk(h: seq<Call>)
    ensures forall k: nat :: WordOk(AllOnes, h, k)
  {
    forall k: nat
      ensures WordOk(AllOnes, h, k)
    {
      assert WordReply(AllOnes, h, k) == Reply(2, [1, 1], false);
    }
  }

  /** Every read from `AllOnes` delivers the word 1, 1. */
  lemma AllOnesWord(h: seq<Call>, k: nat)
    ensures Word(AllOnes, h, k) == [1, 1]
  {
    assert WordReply(AllOnes, h, k) == Reply(2, [1, 1], false);
  }

  /** The input that shows the placement defect: a 64-byte immediate-mode
      frame (32 scans of one channel) read from a device sending only 1s,
      after any history. As written the last byte of the buffer is 0,
      although the device sent a 1 for it. */
  lemma ImmediatePlacementCounterexample(h: seq<Call>, n: int)
    requires n == 64
    ensures |ReadFrame(AllOnes, h, ImmediateTransfer, n, true).data| == 64
    ensures ReadFrame(AllOnes, h, ImmediateTransfer, n, true).data[63] == 0
  {
    AllOnesWordsOk(h);
    FrameAsWrittenDropsSecondHalf(AllOnes, h, n);
  }

  /** With the corrected placement the same frame ends with the 1 sent last. */
  lemma ImmediatePlacementCorrected(h: seq<Call>, n: int)
    requires n == 64
    ensures |ReadFrame(AllOnes, h, ImmediateTransfer, n, false).data| == 64
    ensures ReadFrame(AllOnes, h, ImmediateTransfer, n, false).data[63] == 1
  {
    AllOnesWordsOk(h);
    FrameDeliversWords(AllOnes, h, n);
    AllOnesWord(h, 31);
    assert ReadFrame(AllOnes, h, ImmediateTransfer, n, false).data[2 * 31 + 1] == Word(AllOnes, h, 31)[1];
  }

  /** The same scan through `ReadScan`: 32 scans of one enabled channel in
      immediate mode make that 64-byte frame. */
  lemma ScanOfOneChannelIsFrame(ai: AnalogInput, h: seq<Call>, numScans: int)
    requires ai.transferMode == ImmediateTransfer && NumEnabledChannels(ai.channels) == 1
    requires numScans == 32
    ensures ReadScanAsWritten(AllOnes, h, ai, numScans) == ReadFrame(AllOnes, h, ImmediateTransfer, 64, true)
    ensures ReadScan(AllOnes, h, ai, numScans) == ReadFrame(AllOnes, h, ImmediateTransfer, 64, false)
  {
    assert ScanBytes(ai, numScans) == 64;
  }
}
