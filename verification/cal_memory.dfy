/** The calibration memory of the USB-1608FS-Plus (`usb1608fsplus/memory.go`):
    768 bytes at addresses 0 .. 0x2FF, read through a range check, and the
    8×8 slope and intercept gain table the driver fills from it with 128
    four-byte reads. Table cells hold the raw 32-bit little-endian pattern
    read; the IEEE-754 reinterpretation is not modelled. */
module CalMemory {
  import opened Bytes
  import opened Outcomes
  import opened Daq

  const NumCalMemoryBytes: int := 768
  const MaxCalMemoryLocation: int := 0x2FF
  const BytesPerValue: nat := 4
  const MaxNumGainLevels: nat := 8
  const MaxNumAdChannels: nat := 8

  /** `validCalMemoryRange`: at least one and at most 768 bytes, starting at
      a non-negative address and ending at or before 0x2FF. */
  predicate ValidCalMemoryRange(address: int, count: int)
    ensures ValidCalMemoryRange(address, count) <==>
      0 < count && 0 <= address && address + count <= NumCalMemoryBytes
  {
    if count <= 0 || count > NumCalMemoryBytes then false
    else if address < 0 || MaxCalMemoryLocation < address + count - 1 then false
    else true
  }

  /** Address `x` is one of the 768 bytes of calibration memory. */
  predicate InCalMemory(x: int)
  {
    0 <= x <= MaxCalMemoryLocation
  }

  /** A range is valid exactly when it is non-empty and every address it
      touches lies in the calibration memory. */
  lemma ValidIffInsideMemory(address: int, count: int)
    ensures ValidCalMemoryRange(address, count)
        <==> count > 0 && forall x | address <= x < address + count :: InCalMemory(x)
  {
    if count > 0 && forall x | address <= x < address + count :: InCalMemory(x) {
      assert InCalMemory(address);
      assert InCalMemory(address + count - 1);
    }
  }

  lemma ValidCalMemoryRangeVectors()
    ensures !ValidCalMemoryRange(0, 0) && !ValidCalMemoryRange(-1, 1)
    ensures ValidCalMemoryRange(0, 1) && ValidCalMemoryRange(0, 768)
    ensures !ValidCalMemoryRange(0, 769) && ValidCalMemoryRange(1, 767)
    ensures !ValidCalMemoryRange(1, 768) && ValidCalMemoryRange(0x2FF, 1)
    ensures !ValidCalMemoryRange(0x2FF, 2)
  {
  }

  /** The outcome of a calibration-memory read. */
  datatype CalRead = CalReadResult(data: seq<byte>, err: Option<CalError>, trace: seq<Call>)

  datatype CalError = OutsideCalMemory

  /** `ReadCalMemory`: an invalid range is an error with no data and no
      transfer; a valid one makes one transfer into a zeroed buffer of `count`
      bytes, whose own result is ignored. */
  function ReadCalMemory(dev: Device, h: seq<Call>, address: int, count: int): (r: CalRead)
    requires count >= 0
    ensures r.err.Some? <==> !ValidCalMemoryRange(address, count)
    ensures r.err.Some? ==> r.data == [] && r.trace == h
    ensures r.err.None? ==>
      && r.trace == h + [Daq.CalRead(address, count)]
      && |r.data| == count
      && forall i | 0 <= i < count ::
           r.data[i] == (if i < |dev(r.trace).bytes| then dev(r.trace).bytes[i] else 0)
  {
    if !ValidCalMemoryRange(address, count) then CalReadResult([], Some(OutsideCalMemory), h)
    else
      var h' := h + [Daq.CalRead(address, count)];
      CalReadResult(Fill(Zeros(count), dev(h').bytes), None, h')
  }

  // ---------------------------------------------------------------------------
  // Gain table

  /** Slope and intercept per gain level and channel, as raw 32-bit patterns. */
  datatype GainTable = GainTable(slope: seq<seq<uint32>>, intercept: seq<seq<uint32>>)

  /** The first `n` reads of the gain-table schedule: 4 bytes at 0, 4, 8, … */
  function CalReads(n: nat): (calls: seq<Call>)
    ensures |calls| == n
    ensures forall m | 0 <= m < n :: calls[m] == Daq.CalRead(BytesPerValue * m, BytesPerValue)
  {
    seq(n, m => Daq.CalRead(BytesPerValue * m, BytesPerValue))
  }

  lemma CalReadsStep(n: nat)
    ensures CalReads(n) + [Daq.CalRead(BytesPerValue * n, BytesPerValue)] == CalReads(n + 1)
  {
  }

  /** The word delivered by the m-th (from 0) read of the schedule. */
  function CalWord(dev: Device, h: seq<Call>, m: nat): uint32
  {
    LeUint32(Fill(Zeros(BytesPerValue), dev(h + CalReads(m + 1)).bytes))
  }

  /** The index in the read schedule of the slope (0) or intercept (1) cell
      at gain level i, channel j. */
  function CellRead(i: nat, j: nat, part: nat): nat
  {
    2 * (MaxNumAdChannels * i + j) + part
  }

  /** Every read of the schedule lies inside the calibration memory: the last
      byte touched is 511. */
  lemma ScheduleReadsValid(m: nat)
    requires m < 2 * MaxNumGainLevels * MaxNumAdChannels
    ensures ValidCalMemoryRange(BytesPerValue * m, BytesPerValue)
    ensures BytesPerValue * m + BytesPerValue - 1 <= 511
  {
  }

  /** `BuildGainTable`: for each gain level i and channel j in order, read the
      slope at address 8(8i+j) and the intercept at 8(8i+j)+4. Per-read errors
      are discarded and the error result is always nil. */
  method BuildGainTable(dev: Device, h: seq<Call>) returns (table: GainTable, err: Option<CalError>, trace: seq<Call>)
    ensures err.None?
    ensures trace == h + CalReads(2 * MaxNumGainLevels * MaxNumAdChannels)
    ensures |table.slope| == MaxNumGainLevels && |table.intercept| == MaxNumGainLevels
    ensures forall i | 0 <= i < MaxNumGainLevels ::
      |table.slope[i]| == MaxNumAdChannels && |table.intercept[i]| == MaxNumAdChannels
    ensures forall i, j | 0 <= i < MaxNumGainLevels && 0 <= j < MaxNumAdChannels ::
      && table.slope[i][j] == CalWord(dev, h, CellRead(i, j, 0))
      && table.intercept[i][j] == CalWord(dev, h, CellRead(i, j, 1))
  {
    var slope: seq<seq<uint32>> := [];
    var intercept: seq<seq<uint32>> := [];
    trace := h;
    for i := 0 to MaxNumGainLevels
      invariant |slope| == i && |intercept| == i
      invariant trace == h + CalReads(CellRead(i, 0, 0))
      invariant forall a | 0 <= a < i :: |slope[a]| == MaxNumAdChannels && |intercept[a]| == MaxNumAdChannels
      invariant forall a, b | 0 <= a < i && 0 <= b < MaxNumAdChannels :: slope[a][b] == CalWord(dev, h, CellRead(a, b, 0))
      invariant forall a, b | 0 <= a < i && 0 <= b < MaxNumAdChannels :: intercept[a][b] == CalWord(dev, h, CellRead(a, b, 1))
    {
      var slopeRow, interceptRow;
      slopeRow, interceptRow, trace := ReadGainRow(dev, h, trace, i);
      slope := slope + [slopeRow];
      intercept := intercept + [interceptRow];
    }
    table := GainTable(slope, intercept);
    err := None;
  }

  /** The slopes and intercepts of gain level i, channel by channel, read
      after the schedule's first 16i reads. */
  method ReadGainRow(dev: Device, h: seq<Call>, trace: seq<Call>, i: nat)
    returns (slopeRow: seq<uint32>, interceptRow: seq<uint32>, trace': seq<Call>)
    requires i < MaxNumGainLevels && trace == h + CalReads(CellRead(i, 0, 0))
    ensures |slopeRow| == MaxNumAdChannels && |interceptRow| == MaxNumAdChannels
    ensures trace' == h + CalReads(CellRead(i + 1, 0, 0))
    ensures forall b | 0 <= b < MaxNumAdChannels ::
      slopeRow[b] == CalWord(dev, h, CellRead(i, b, 0)) && interceptRow[b] == CalWord(dev, h, CellRead(i, b, 1))
  {
    slopeRow, interceptRow, trace' := [], [], trace;
    for j := 0 to MaxNumAdChannels
      invariant |slopeRow| == j && |interceptRow| == j
      invariant trace' == h + CalReads(CellRead(i, j, 0))
      invariant forall b | 0 <= b < j :: slopeRow[b] == CalWord(dev, h, CellRead(i, b, 0))
      invariant forall b | 0 <= b < j :: interceptRow[b] == CalWord(dev, h, CellRead(i, b, 1))
    {
      var slope, intercept;
      slope, intercept, trace' := ReadGainCell(dev, h, trace', i, j);
      slopeRow := slopeRow + [slope];
      interceptRow := interceptRow + [intercept];
    }
  }

  /** The slope then the intercept of gain level i, channel j: two 4-byte
      reads at 8(8i+j) and 8(8i+j)+4. */
  method ReadGainCell(dev: Device, h: seq<Call>, trace: seq<Call>, i: nat, j: nat)
    returns (slope: uint32, intercept: uint32, trace': seq<Call>)
    requires i < MaxNumGainLevels && j < MaxNumAdChannels && trace == h + CalReads(CellRead(i, j, 0))
    ensures slope == CalWord(dev, h, CellRead(i, j, 0)) && intercept == CalWord(dev, h, CellRead(i, j, 1))
    ensures trace' == h + CalReads(CellRead(i, j + 1, 0))
  {
    var m := CellRead(i, j, 0);
    var data: seq<byte>;
    data, trace' := ReadWord(dev, h, trace, m, BytesPerValue * m);
    slope := LeUint32(data);
    data, trace' := ReadWord(dev, h, trace', m + 1, BytesPerValue * (m + 1));
    intercept := LeUint32(data);
  }

  /** The m-th read of the schedule, at `address`, issued through
      `ReadCalMemory` after the first m reads. */
  method ReadWord(dev: Device, h: seq<Call>, trace: seq<Call>, m: nat, address: int) returns (data: seq<byte>, trace': seq<Call>)
    requires m < 2 * MaxNumGainLevels * MaxNumAdChannels && address == BytesPerValue * m
    requires trace == h + CalReads(m)
    ensures |data| == BytesPerValue && LeUint32(data) == CalWord(dev, h, m)
    ensures trace' == h + CalReads(m + 1)
  {
    ScheduleReadsValid(m);
    var r := ReadCalMemory(dev, trace, address, BytesPerValue);
    CalReadsStep(m);
    assert r.trace == h + CalReads(m + 1);
    data, trace' := r.data, r.trace;
  }

  /** The schedule reads 4 bytes at a time at strictly increasing addresses
      0, 4, …, 508; the slope of level i, channel j is read at 8(8i+j) and its
      intercept at 8(8i+j)+4. */
  lemma GainTableSchedule(i: nat, j: nat)
    requires i < MaxNumGainLevels && j < MaxNumAdChannels
    ensures var schedule := CalReads(2 * MaxNumGainLevels * MaxNumAdChannels);
      && schedule[0].address == 0 && schedule[|schedule| - 1].address == 508
      && (forall m, m' | 0 <= m < m' < |schedule| :: schedule[m].address < schedule[m'].address)
      && schedule[CellRead(i, j, 0)] == Daq.CalRead(8 * (8 * i + j), 4)
      && schedule[CellRead(i, j, 1)] == Daq.CalRead(8 * (8 * i + j) + 4, 4)
  {
  }
}
