/** The in-memory `FakeDAQer` of the scan-layer tests
    (`usb1608fsplus/analog_test.go`) as a device: it keeps eight range bytes,
    accepts only an 8-byte range-configuration write, answers an 8-byte
    range-configuration read with the stored bytes, reads no data and reports
    status 0. Against it, the scan operations' contracts give the outcomes the
    tests expect. */
module FakeDaqer {
  import opened Bytes
  import opened Daq
  import opened Outcomes
  import opened AnalogConfig
  import opened AnalogScan

  /** The fake's range bytes after history `h`: those of the last accepted
      range-configuration write, or the initial zeros. */
  function FakeRanges(h: seq<Call>): (r: seq<byte>)
    ensures |r| == 8
  {
    if |h| == 0 then Zeros(8)
    else
      var c := h[|h| - 1];
      if c.Send? && c.cmd == ConfigCode && |c.data| == 8 then c.data
      else FakeRanges(h[..|h| - 1])
  }

  /** The fake's reply to the last call of `h`. */
  function FakeDaq(h: seq<Call>): Reply
  {
    if |h| == 0 then Reply(0, [], true)
    else
      match h[|h| - 1]
      case Send(cmd, data) =>
        if cmd == ConfigCode && |data| == 8 then Reply(|data|, [], false) else Reply(0, [], true)
      case Receive(cmd, size) =>
        if cmd == ConfigCode && size == 8 then Reply(8, FakeRanges(h), false) else Reply(0, [], true)
      case Bulk(_) => Reply(0, [], false)
      case GetStatus => Reply(0, [0], false)
      case CalRead(_, _) => Reply(0, [], true)
  }

  /** Writing the ranges to the fake and reading them back returns, without
      error, byte i = channel i's range code. */
  lemma RangesRoundTrip(h: seq<Call>, ai: AnalogInput)
    ensures var s := SetScanRanges(FakeDaq, h, ai);
      var r := ScanRanges(FakeDaq, s.trace);
      && s.err.None? && r.err.None?
      && r.ranges == RangeBytes(ai.channels)
  {
    var s := SetScanRanges(FakeDaq, h, ai);
    var sent := s.trace[|h|];
    assert s.trace == h + [sent];
    assert sent.data == RangeBytes(ai.channels);
    var h' := s.trace + [Receive(ConfigCode, 8)];
    assert h'[..|h'| - 1] == s.trace;
    assert FakeRanges(h') == RangeBytes(ai.channels);
  }

  /** The ranges 0, 0, 1, 1, 3, 3, 5, 5 written to a fresh fake are read back
      unchanged. */
  lemma SetScanRangesVector(ai: AnalogInput)
    requires forall i | 0 <= i < NumChannels :: ai.channels[i].range == [0x0, 0x0, 0x1, 0x1, 0x3, 0x3, 0x5, 0x5][i]
    ensures var s := SetScanRanges(FakeDaq, [], ai);
      ScanRanges(FakeDaq, s.trace).ranges == [0x0, 0x0, 0x1, 0x1, 0x3, 0x3, 0x5, 0x5]
  {
    RangesRoundTrip([], ai);
  }

  /** The fake rejects the payload-less stop command, so a scan start ends
      after its first call. */
  lemma FakeRejectsStart(h: seq<Call>, ai: AnalogInput, numScans: int)
    ensures StartScan(FakeDaq, h, ai, numScans) == Step(Some(StopFailed), h + [Send(0x12, [])])
  {
  }

  /** A block-mode scan of no enabled channel reads zero bytes from the fake,
      reads status 0, drains the trailing packet, and returns no data and no
      error. */
  lemma FakeEmptyBlockScan(h: seq<Call>, ai: AnalogInput, numScans: int)
    requires ai.transferMode == BlockTransfer && NumEnabledChannels(ai.channels) == 0
    ensures var r := ReadScan(FakeDaq, h, ai, numScans);
      r == ScanRead([], None, h + [Bulk(0), GetStatus, Bulk(2)])
  {
    assert ScanBytes(ai, numScans) == 0;
    var h' := h + [Bulk(0)];
    assert StatusAfter(FakeDaq, h') == 0;
    assert !Bit(0, 1) && !Bit(0, 2);
    assert h' + AfterTransferCalls(0) == h + [Bulk(0), GetStatus, Bulk(2)];
  }

  /** A block-mode scan of any non-zero size fails on the fake, which delivers
      no bytes. */
  lemma FakeBlockScanShort(h: seq<Call>, ai: AnalogInput, numScans: int)
    requires ai.transferMode == BlockTransfer
    requires ScanBytes(ai, numScans) > 0 && ScanBytes(ai, numScans) % MaxBulkTransferPacketSize == 0
    ensures var r := ReadScan(FakeDaq, h, ai, numScans);
      && r.err == Some(BulkShortRead)
      && r.data == Zeros(ScanBytes(ai, numScans))
      && r.trace == h + [Bulk(ScanBytes(ai, numScans))]
  {
  }
}
