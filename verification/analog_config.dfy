/** Analog-input scan configuration of the USB-1608FS-Plus
    (`usb1608fsplus/analog.go`): per-channel state, the enabled-channel mask,
    the scan options byte, the pacer period and the 10-byte start-scan packet. */
module AnalogConfig {
  import opened Bytes
  import opened Outcomes
  import opened Fs1608Commands

  const MaxFrequency: real := 500000.0
  const DefaultFrequency: real := 10000.0
  /** The device's pacer timer runs at 40 MHz. */
  const BaseClock: real := 40000000.0

  const NumChannels: nat := 8

  // Transfer modes, trigger types and stall policies (byte-valued in the source).
  const BlockTransfer: byte := 0x0
  const ImmediateTransfer: byte := 0x1
  const NoExternalTrigger: byte := 0x0
  const RisingEdgeTrigger: byte := 0x1
  const FallingEdgeTrigger: byte := 0x2
  const HighLevelTrigger: byte := 0x3
  const LowLevelTrigger: byte := 0x4
  const StallOnOverrun: byte := 0x0
  const StallInhibited: byte := 0x1

  datatype Channel = Channel(enabled: bool, range: byte, description: string)

  /** The fixed array of eight channels. */
  type Channels = s: seq<Channel> | |s| == NumChannels
    witness seq(NumChannels, _ => Channel(false, Range10V, ""))

  /** The scan settings of an `AnalogInput`; the device it talks to is passed
      separately to each scan operation. */
  datatype AnalogInput = AnalogInput(
    frequency: real,
    transferMode: byte,
    trigger: byte,
    useExternalPacer: bool,
    outputPacerOnSync: bool,
    debugMode: bool,
    stall: byte,
    channels: Channels)

  datatype ConfigError = InvalidRange | InvalidChannel

  // ---------------------------------------------------------------------------
  // Enabled channels

  /** The mask built from the first `k` channels: bit i is set for each enabled
      channel i < k. */
  function MaskBelow(chs: Channels, k: nat): (m: byte)
    requires k <= NumChannels
    ensures forall i: nat | i < NumChannels :: Bit(m, i) <==> (i < k && chs[i].enabled)
  {
    if k == 0 then
      NoBitsIffZero(0);
      0
    else
      var prev := MaskBelow(chs, k - 1);
      if chs[k - 1].enabled then
        SetBit(prev, k - 1);
        Or(prev, Shl(1, k - 1))
      else prev
  }

  /** `b | 0x1<<j` sets bit j and keeps the others. */
  lemma SetBit(b: byte, j: nat)
    requires j < 8
    ensures forall i: nat | i < 8 :: Bit(Or(b, Shl(1, j)), i) <==> Bit(b, i) || i == j
  {
    forall i: nat | i < 8
      ensures Bit(Or(b, Shl(1, j)), i) <==> Bit(b, i) || i == j
    {
      OrBit(b, Shl(1, j), i);
      ShlBit(1, j, i);
      if j <= i {
        OneBit(i - j);
      }
    }
  }

  /** `Channels.Enabled`: bit i of the mask is set iff channel i is enabled. */
  function EnabledMask(chs: Channels): (m: byte)
    ensures forall i: nat | i < NumChannels :: Bit(m, i) <==> chs[i].enabled
  {
    MaskBelow(chs, NumChannels)
  }

  /** The number of enabled channels among the first `k`, which is the number
      of set bits among the first `k` bits of the mask. */
  function CountEnabled(chs: Channels, k: nat): (n: nat)
    requires k <= NumChannels
    ensures n == CountBits(EnabledMask(chs), k)
  {
    if k == 0 then 0
    else CountEnabled(chs, k - 1) + (if chs[k - 1].enabled then 1 else 0)
  }

  /** `NumEnabledChannels`: the population count of the enabled mask. */
  function NumEnabledChannels(chs: Channels): (n: nat)
    ensures n == PopCount(EnabledMask(chs))
    ensures n <= NumChannels
    ensures n == 0 <==> EnabledMask(chs) == 0
  {
    var n := CountEnabled(chs, NumChannels);
    NoBitsMeansZero(EnabledMask(chs));
    n
  }

  /** A byte with no set bit among its eight bits is zero, and conversely. */
  lemma {:induction false} NoBitsMeansZero(b: byte)
    ensures CountBits(b, 8) == 0 <==> b == 0
  {
    ZeroCountMeansNoBits(b, 8);
    NoBitsIffZero(b);
  }

  lemma {:induction false} ZeroCountMeansNoBits(b: byte, k: nat)
    requires k <= 8
    ensures CountBits(b, k) == 0 ==> forall i: nat | i < k :: !Bit(b, i)
    ensures (forall i: nat | i < k :: !Bit(b, i)) ==> CountBits(b, k) == 0
  {
    if k > 0 {
      ZeroCountMeansNoBits(b, k - 1);
    }
  }

  // ---------------------------------------------------------------------------
  // Scan options byte

  /** The fields of a scan options byte. */
  datatype ScanOptions = ScanOptions(
    immediate: bool, pacerOnSync: bool, trigger: nat, debug: bool, inhibitStall: bool)

  function BitValue(b: byte, i: nat): nat
    requires i < 8
  {
    if Bit(b, i) then 1 else 0
  }

  /** Reads the bit fields of an options byte: bit 0 transfer mode, bit 1 pacer
      output on sync, bits 2-4 trigger, bit 5 debug, bit 7 stall. */
  function DecodeOptions(o: byte): ScanOptions
  {
    ScanOptions(Bit(o, 0), Bit(o, 1), BitValue(o, 2) + 2 * BitValue(o, 3) + 4 * BitValue(o, 4),
                Bit(o, 5), Bit(o, 7))
  }

  /** The settings fit their fields: one-bit transfer mode and stall, and one of
      the five trigger types. */
  predicate FieldsInRange(ai: AnalogInput)
  {
    ai.transferMode <= 1 && ai.trigger <= 4 && ai.stall <= 1
  }

  /** `Options`: the settings packed into their bit fields with byte-wide
      shifts; bit 6 is never set by settings that fit their fields. */
  function Options(ai: AnalogInput): (o: byte)
    ensures FieldsInRange(ai) ==>
      DecodeOptions(o) == ScanOptions(ai.transferMode == ImmediateTransfer, ai.outputPacerOnSync,
                                      ai.trigger, ai.debugMode, ai.stall == StallInhibited)
    ensures FieldsInRange(ai) ==> !Bit(o, 6)
  {
    var o := Or(Or(Or(Or(Shl(ai.transferMode, 0), Shl(Flag(ai.outputPacerOnSync), 1)),
                      Shl(ai.trigger, 2)), Shl(Flag(ai.debugMode), 5)), Shl(ai.stall, 7));
    if FieldsInRange(ai) then
      OptionsLayout(ai, o);
      o
    else o
  }

  /** Go's `byte(0x1)` for true and `byte(0x0)` for false. */
  function Flag(b: bool): byte
  {
    if b then 1 else 0
  }

  lemma OptionsLayout(ai: AnalogInput, o: byte)
    requires FieldsInRange(ai)
    requires o == Or(Or(Or(Or(Shl(ai.transferMode, 0), Shl(Flag(ai.outputPacerOnSync), 1)),
                          Shl(ai.trigger, 2)), Shl(Flag(ai.debugMode), 5)), Shl(ai.stall, 7))
    ensures DecodeOptions(o) == ScanOptions(ai.transferMode == ImmediateTransfer, ai.outputPacerOnSync,
                                            ai.trigger, ai.debugMode, ai.stall == StallInhibited)
    ensures !Bit(o, 6)
  {
    var m, p, t, d, s := ai.transferMode, Flag(ai.outputPacerOnSync), ai.trigger, Flag(ai.debugMode), ai.stall;
    SmallFieldBits(m, t, s);
    SmallFieldBits(p, 0, d);
    FieldBits(m, p, t, d, s);
  }

  /** Each bit of the packed options byte, for fields that fit. */
  lemma FieldBits(m: byte, p: byte, t: byte, d: byte, s: byte)
    requires m <= 1 && p <= 1 && t <= 4 && d <= 1 && s <= 1
    requires forall i | 1 <= i < 8 :: !Bit(m, i) && !Bit(s, i) && !Bit(p, i) && !Bit(d, i)
    requires forall i | 3 <= i < 8 :: !Bit(t, i)
    ensures var o := Or(Or(Or(Or(Shl(m, 0), Shl(p, 1)), Shl(t, 2)), Shl(d, 5)), Shl(s, 7));
      && (Bit(o, 0) <==> Bit(m, 0)) && (Bit(o, 1) <==> Bit(p, 0))
      && (Bit(o, 2) <==> Bit(t, 0)) && (Bit(o, 3) <==> Bit(t, 1)) && (Bit(o, 4) <==> Bit(t, 2))
      && (Bit(o, 5) <==> Bit(d, 0)) && !Bit(o, 6) && (Bit(o, 7) <==> Bit(s, 0))
  {
    OptionsBits(m, p, t, d, s, 0);
    OptionsBits(m, p, t, d, s, 1);
    OptionsBits(m, p, t, d, s, 2);
    OptionsBits(m, p, t, d, s, 3);
    OptionsBits(m, p, t, d, s, 4);
    OptionsBits(m, p, t, d, s, 5);
    OptionsBits(m, p, t, d, s, 6);
    OptionsBits(m, p, t, d, s, 7);
  }

  /** Bit i of the packed options byte comes from the one field covering i. */
  lemma OptionsBits(m: byte, p: byte, t: byte, d: byte, s: byte, i: nat)
    requires i < 8
    ensures Bit(Or(Or(Or(Or(Shl(m, 0), Shl(p, 1)), Shl(t, 2)), Shl(d, 5)), Shl(s, 7)), i) <==>
      Bit(m, i) || (1 <= i && Bit(p, i - 1)) || (2 <= i && Bit(t, i - 2)) || (5 <= i && Bit(d, i - 5))
      || (i == 7 && Bit(s, 0))
  {
    var a, b, c, e, f := Shl(m, 0), Shl(p, 1), Shl(t, 2), Shl(d, 5), Shl(s, 7);
    ShlBit(m, 0, i);
    ShlBit(p, 1, i);
    ShlBit(t, 2, i);
    ShlBit(d, 5, i);
    ShlBit(s, 7, i);
    OrBit(a, b, i);
    OrBit(Or(a, b), c, i);
    OrBit(Or(Or(a, b), c), e, i);
    OrBit(Or(Or(Or(a, b), c), e), f, i);
  }

  /** The bits of the small values a field can hold. */
  lemma SmallFieldBits(mode: byte, trigger: byte, stall: byte)
    requires mode <= 1 && trigger <= 4 && stall <= 1
    ensures Bit(mode, 0) <==> mode == 1
    ensures forall i | 1 <= i < 8 :: !Bit(mode, i) && !Bit(stall, i)
    ensures Bit(stall, 0) <==> stall == 1
    ensures BitValue(trigger, 0) + 2 * BitValue(trigger, 1) + 4 * BitValue(trigger, 2) == trigger
    ensures forall i | 3 <= i < 8 :: !Bit(trigger, i)
  {
    forall i | 1 <= i < 8 ensures !Bit(mode, i) && !Bit(stall, i) {
      HighBitsClear(mode, 1, i);
      HighBitsClear(stall, 1, i);
    }
    forall i | 3 <= i < 8 ensures !Bit(trigger, i) {
      HighBitsClear(trigger, 3, i);
    }
  }

  /** Each shifted field of the options byte is the matching `scanOption`
      constant, so the options byte is the OR of those constants. */
  lemma OptionsFromConstants(ai: AnalogInput)
    requires FieldsInRange(ai)
    ensures Shl(ai.transferMode, 0)
         == (if ai.transferMode == ImmediateTransfer then ScanImmediateTransferMode else ScanBlockTransferMode)
    ensures Shl(Flag(ai.outputPacerOnSync), 1)
         == (if ai.outputPacerOnSync then ScanInternalPacerOn else ScanInternalPacerOff)
    ensures Shl(ai.trigger, 2) == TriggerOption(ai.trigger)
    ensures Shl(Flag(ai.debugMode), 5) == (if ai.debugMode then ScanDebugMode else 0)
    ensures Shl(ai.stall, 7) == (if ai.stall == StallInhibited then ScanInhibitStall else ScanStallOnOverrun)
    ensures Options(ai) ==
      Or(Or(Or(Or(
        (if ai.transferMode == ImmediateTransfer then ScanImmediateTransferMode else ScanBlockTransferMode),
        (if ai.outputPacerOnSync then ScanInternalPacerOn else ScanInternalPacerOff)),
        TriggerOption(ai.trigger)),
        (if ai.debugMode then ScanDebugMode else 0)),
        (if ai.stall == StallInhibited then ScanInhibitStall else ScanStallOnOverrun))
  {
    assert ai.transferMode == 0 || ai.transferMode == 1;
    assert ai.stall == 0 || ai.stall == 1;
    assert ai.trigger == 0 || ai.trigger == 1 || ai.trigger == 2 || ai.trigger == 3 || ai.trigger == 4;
  }

  /** Every options byte with bit 6 clear and a trigger field of at most 4 is
      the options byte of some settings: decoding then re-encoding gives the
      byte back. */
  lemma {:induction false} OptionsOfDecoded(ai: AnalogInput, o: byte)
    requires !Bit(o, 6) && DecodeOptions(o).trigger <= 4
    ensures var d := DecodeOptions(o);
      Options(ai.(transferMode := if d.immediate then 1 else 0, outputPacerOnSync := d.pacerOnSync,
                  trigger := d.trigger, debugMode := d.debug, stall := if d.inhibitStall then 1 else 0)) == o
  {
    var d := DecodeOptions(o);
    var ai' := ai.(transferMode := if d.immediate then 1 else 0, outputPacerOnSync := d.pacerOnSync,
                   trigger := d.trigger, debugMode := d.debug, stall := if d.inhibitStall then 1 else 0);
    assert FieldsInRange(ai');
    var e := Options(ai');
    assert DecodeOptions(e) == d && !Bit(e, 6);
    TriggerBits(e, o);
    forall i | 0 <= i < 8
      ensures Bit(e, i) == Bit(o, i)
    {
      assert i == 0 || i == 1 || i == 2 || i == 3 || i == 4 || i == 5 || i == 6 || i == 7;
    }
    BitsDetermineByte(e, o, 8);
  }

  /** Equal trigger fields have equal bits 2-4. */
  lemma TriggerBits(a: byte, b: byte)
    requires DecodeOptions(a).trigger == DecodeOptions(b).trigger
    ensures Bit(a, 2) == Bit(b, 2) && Bit(a, 3) == Bit(b, 3) && Bit(a, 4) == Bit(b, 4)
  {
  }

  // ---------------------------------------------------------------------------
  // Pacer period

  /** `n` is the integer nearest `x`, halves rounded away from zero. */
  predicate NearestAwayFromZero(x: real, n: int)
  {
    if x >= 0.0 then n as real - 0.5 <= x < n as real + 0.5
    else n as real - 0.5 < x <= n as real + 0.5
  }

  /** Go's conversion `int(f)`: truncation toward zero. */
  function Truncate(x: real): int
  {
    if x >= 0.0 then x.Floor else -((-x).Floor)
  }

  /** `round`: 0 below one half in magnitude, otherwise `x ± 0.5` truncated. */
  function Round(x: real): (r: int)
    ensures NearestAwayFromZero(x, r)
  {
    if (if x < 0.0 then -x else x) < 0.5 then 0
    else if x >= 0.0 then Truncate(x + 0.5)
    else Truncate(x - 0.5)
  }

  /** Only one integer is nearest with halves away from zero, so `Round` is
      pinned down by its contract. */
  lemma RoundUnique(x: real, n: int)
    requires NearestAwayFromZero(x, n)
    ensures n == Round(x)
  {
  }

  lemma RoundVectors()
    ensures Round(0.499) == 0 && Round(0.4) == 0 && Round(1.2) == 1
    ensures Round(799.0) == 799 && Round(799.9) == 800 && Round(500000.4) == 500000
    ensures Round(0.5) == 1 && Round(-0.5) == -1 && Round(-2.5) == -3
  {
  }

  /** Rounding preserves order. */
  lemma RoundMonotone(x: real, y: real)
    requires x <= y
    ensures Round(x) <= Round(y)
  {
  }

  /** `calculatePacerPeriod`: frequencies above 500 kHz are clamped, a positive
      frequency gives the rounded timer divisor `40 MHz / f - 1`, and a zero or
      negative one gives 0, the code for an external pacer on the sync pin. */
  function PacerPeriod(frequency: real): (p: int)
    ensures frequency <= 0.0 <==> p == 0
    ensures frequency >= MaxFrequency ==> p == 79
    ensures frequency > 0.0 ==> p >= 79
    ensures 0.0 < frequency <= MaxFrequency ==> NearestAwayFromZero(BaseClock / frequency - 1.0, p)
  {
    var f := if frequency > MaxFrequency then MaxFrequency else frequency;
    if f > 0.0 then
      QuotientAtLeast80(f);
      Round(BaseClock / f - 1.0)
    else 0
  }

  lemma QuotientAtLeast80(f: real)
    requires 0.0 < f <= MaxFrequency
    ensures BaseClock / f >= 80.0
  {
    var q := BaseClock / f;
    assert q * f == BaseClock;
  }

  /** A frequency above the ceiling behaves exactly like the ceiling. */
  lemma PacerPeriodClamp(f: real)
    requires f > MaxFrequency
    ensures PacerPeriod(f) == PacerPeriod(MaxFrequency) == 79
  {
  }

  lemma PacerPeriodVectors()
    ensures PacerPeriod(10000.0) == 3999
    ensures PacerPeriod(50000.0) == 799
    ensures PacerPeriod(40000000.0) == 79
    ensures PacerPeriod(0.0) == 0
  {
  }

  /** A higher frequency never gives a longer pacer period. */
  lemma PacerPeriodMonotone(f1: real, f2: real)
    requires 0.0 < f1 <= f2
    ensures PacerPeriod(f2) <= PacerPeriod(f1)
  {
    var g1 := if f1 > MaxFrequency then MaxFrequency else f1;
    var g2 := if f2 > MaxFrequency then MaxFrequency else f2;
    assert g1 <= g2;
    DivisionAntitone(g1, g2);
    RoundMonotone(BaseClock / g2 - 1.0, BaseClock / g1 - 1.0);
  }

  lemma DivisionAntitone(a: real, b: real)
    requires 0.0 < a <= b
    ensures BaseClock / b <= BaseClock / a
  {
    var qa := BaseClock / a;
    var qb := BaseClock / b;
    assert qa * a == BaseClock && qb * b == BaseClock;
  }

  // ---------------------------------------------------------------------------
  // Start-scan packet

  /** The wire-level scan configuration (numScans, pacer period, mask, options). */
  datatype ScanConfig = ScanConfig(numScans: uint32, pacerPeriod: uint32, channels: byte, options: byte)
  {
    /** The 10-byte start-scan payload. */
    function Encode(): (p: seq<byte>)
      ensures |p| == 10
    {
      LeBytes32(numScans) + LeBytes32(pacerPeriod) + [channels, options]
    }
  }

  /** Reads a 10-byte start-scan payload back into its fields. */
  function DecodeScanConfig(p: seq<byte>): ScanConfig
    requires |p| == 10
  {
    ScanConfig(LeUint32(p[0..4]), LeUint32(p[4..8]), p[8], p[9])
  }

  /** The payload layout is a bijection between configurations and 10-byte
      strings. */
  lemma ScanConfigRoundTrip(c: ScanConfig, p: seq<byte>)
    requires |p| == 10
    ensures DecodeScanConfig(c.Encode()) == c
    ensures DecodeScanConfig(p).Encode() == p
  {
    var e := c.Encode();
    assert e[0..4] == LeBytes32(c.numScans);
    assert e[4..8] == LeBytes32(c.pacerPeriod);
    LeBytes32OfLeUint32(p[0..4]);
    LeBytes32OfLeUint32(p[4..8]);
    assert p == p[0..4] + p[4..8] + [p[8], p[9]];
  }

  /** `packScanData`: always 10 bytes, numScans and the pacer period each taken
      modulo 2^32 (Go's `uint32` conversion) and stored little-endian, then the
      mask and the options. */
  function PackScanData(numScans: int, frequency: real, channels: byte, options: byte): (p: seq<byte>)
    ensures |p| == 10
    ensures DecodeScanConfig(p)
         == ScanConfig(numScans % TwoTo32, PacerPeriod(frequency) % TwoTo32, channels, options)
  {
    var c := ScanConfig(numScans % TwoTo32, PacerPeriod(frequency) % TwoTo32, channels, options);
    ScanConfigRoundTrip(c, c.Encode());
    c.Encode()
  }

  /** One scan with no pacer: numScans 1, pacer 0. */
  lemma PackScanDataVectorExternal()
    ensures PackScanData(1, 0.0, 0x00, 0x00) == [1, 0, 0, 0, 0, 0, 0, 0, 0, 0]
  {
    assert PacerPeriod(0.0) == 0;
    assert LeBytes32(0) == [0, 0, 0, 0];
    assert LeBytes32(1) == [1, 0, 0, 0];
  }

  /** One scan at 10 kHz: pacer 3999 = 0x0F9F. */
  lemma PackScanDataVector10k()
    ensures PackScanData(1, 10000.0, 0x01, 0x00) == [1, 0, 0, 0, 0x9F, 0x0F, 0, 0, 1, 0]
  {
    PacerPeriodVectors();
    assert LeBytes32(1) == [1, 0, 0, 0];
    assert LeBytes32(3999) == [0x9F, 0x0F, 0, 0];
  }

  /** 256 scans at 50 kHz: numScans 0x100, pacer 799 = 0x031F. */
  lemma PackScanDataVector50k()
    ensures PackScanData(256, 50000.0, 0xFF, 0xFF) == [0, 1, 0, 0, 0x1F, 0x03, 0, 0, 0xFF, 0xFF]
  {
    PacerPeriodVectors();
    assert LeBytes32(256) == [0, 1, 0, 0];
    assert LeBytes32(799) == [0x1F, 0x03, 0, 0];
  }

  // ---------------------------------------------------------------------------
  // Channel configuration

  /** `NewAnalogInput`: 10 kHz, block transfer, no trigger, internal pacer not
      output, real A/D data, stall on overrun, every channel disabled at ±10 V. */
  function NewAnalogInput(): (ai: AnalogInput)
    ensures Options(ai) == 0x00
    ensures EnabledMask(ai.channels) == 0 && NumEnabledChannels(ai.channels) == 0
    ensures forall i | 0 <= i < NumChannels :: ai.channels[i].range == Range10V && Multiplier(ai.channels[i].range) == Some(10.0)
    ensures PacerPeriod(ai.frequency) == 3999 && !ai.useExternalPacer
    ensures ai.frequency == DefaultFrequency && FieldsInRange(ai)
    ensures ai.transferMode == BlockTransfer && ai.trigger == NoExternalTrigger && ai.stall == StallOnOverrun
    ensures !ai.outputPacerOnSync && !ai.debugMode
    ensures forall i | 0 <= i < NumChannels :: !ai.channels[i].enabled && ai.channels[i].description == ""
  {
    var ai := AnalogInput.AnalogInput(DefaultFrequency, BlockTransfer, NoExternalTrigger, false, false, false,
                          StallOnOverrun, seq(NumChannels, _ => Channel(false, Range10V, "")));
    DefaultOptionsAreZero(ai);
    NoBitsIffZero(EnabledMask(ai.channels));
    PacerPeriodVectors();
    ai
  }

  /** Block transfer, no trigger, no sync output, no debug and stall on overrun
      make the all-zero options byte. */
  lemma DefaultOptionsAreZero(ai: AnalogInput)
    requires ai.transferMode == BlockTransfer && ai.trigger == NoExternalTrigger && ai.stall == StallOnOverrun
    requires !ai.outputPacerOnSync && !ai.debugMode
    ensures Options(ai) == 0
  {
    var o := Options(ai);
    assert DecodeOptions(o) == ScanOptions(false, false, 0, false, false);
    forall i: nat | i < 8
      ensures !Bit(o, i)
    {
      assert i == 0 || i == 1 || i == 2 || i == 3 || i == 4 || i == 5 || i == 6 || i == 7;
    }
    NoBitsIffZero(o);
  }

  /** `configureChannel`: any range code is accepted; only the channel index
      is checked, and only that channel changes. */
  function ConfigureChannelCode(ai: AnalogInput, ch: int, enabled: bool, voltage: byte, description: string)
    : (r: Result<AnalogInput, ConfigError>)
    ensures r.Success? <==> 0 <= ch < NumChannels
    ensures r.Failure? ==> r.error == InvalidChannel
    ensures r.Success? ==>
      && r.value.channels[ch] == Channel(enabled, voltage, description)
      && (forall k | 0 <= k < NumChannels && k != ch :: r.value.channels[k] == ai.channels[k])
      && r.value == ai.(channels := r.value.channels)
  {
    if ch < 0 || ch >= NumChannels then Failure(InvalidChannel)
    else Success(ai.(channels := ai.channels[ch := Channel(enabled, voltage, description)]))
  }

  /** `ConfigureChannel`: the range must be one of the `InputRanges` names and
      the index one of the eight channels; on success only channel `ch` takes
      the new settings. */
  function ConfigureChannel(ai: AnalogInput, ch: int, enabled: bool, voltage: string, description: string)
    : (r: Result<AnalogInput, ConfigError>)
    ensures r.Success? <==> voltage in InputRanges && 0 <= ch < NumChannels
    ensures voltage !in InputRanges ==> r == Failure(InvalidRange)
    ensures voltage in InputRanges && !(0 <= ch < NumChannels) ==> r == Failure(InvalidChannel)
    ensures r.Success? ==>
      && r.value.channels[ch] == Channel(enabled, InputRanges[voltage], description)
      && Multiplier(r.value.channels[ch].range).Some?
      && (forall k | 0 <= k < NumChannels && k != ch :: r.value.channels[k] == ai.channels[k])
      && r.value == ai.(channels := r.value.channels)
  {
    if voltage !in InputRanges then Failure(InvalidRange)
    else
      MultipliersCoverInputRanges(InputRanges[voltage]);
      ConfigureChannelCode(ai, ch, enabled, InputRanges[voltage], description)
  }

  /** `ConfigureEnableChannel`: `ConfigureChannel` with the channel enabled, so
      on success its bit of the enabled mask is set. */
  function ConfigureEnableChannel(ai: AnalogInput, ch: int, voltage: string, description: string)
    : (r: Result<AnalogInput, ConfigError>)
    ensures r.Success? <==> voltage in InputRanges && 0 <= ch < NumChannels
    ensures voltage !in InputRanges ==> r == Failure(InvalidRange)
    ensures voltage in InputRanges && !(0 <= ch < NumChannels) ==> r == Failure(InvalidChannel)
    ensures r.Success? ==>
      && r.value.channels[ch] == Channel(true, InputRanges[voltage], description)
      && (forall k | 0 <= k < NumChannels && k != ch :: r.value.channels[k] == ai.channels[k])
      && r.value == ai.(channels := r.value.channels)
      && Bit(EnabledMask(r.value.channels), ch)
      && (forall k | 0 <= k < NumChannels && k != ch ::
            Bit(EnabledMask(r.value.channels), k) <==> Bit(EnabledMask(ai.channels), k))
  {
    ConfigureChannel(ai, ch, true, voltage, description)
  }

  /** `EnableChannel` / `DisableChannel`: only `Channels[ch].Enabled` changes. */
  function SetChannelEnabled(ai: AnalogInput, ch: int, enabled: bool): (r: AnalogInput)
    requires 0 <= ch < NumChannels
    ensures r.channels[ch] == ai.channels[ch].(enabled := enabled)
    ensures forall k | 0 <= k < NumChannels && k != ch :: r.channels[k] == ai.channels[k]
    ensures r == ai.(channels := r.channels)
  {
    ai.(channels := ai.channels[ch := ai.channels[ch].(enabled := enabled)])
  }

  /** `EnableChannel`: channel `ch` becomes enabled and its mask bit set;
      nothing else changes. */
  function EnableChannel(ai: AnalogInput, ch: int): (r: AnalogInput)
    requires 0 <= ch < NumChannels
    ensures r.channels[ch].enabled && Bit(EnabledMask(r.channels), ch)
    ensures r.channels[ch].range == ai.channels[ch].range
    ensures r.channels[ch].description == ai.channels[ch].description
    ensures forall k | 0 <= k < NumChannels && k != ch :: r.channels[k] == ai.channels[k]
    ensures r == ai.(channels := r.channels)
  {
    SetChannelEnabled(ai, ch, true)
  }

  /** `DisableChannel`: channel `ch` becomes disabled and its mask bit clear;
      nothing else changes. */
  function DisableChannel(ai: AnalogInput, ch: int): (r: AnalogInput)
    requires 0 <= ch < NumChannels
    ensures !r.channels[ch].enabled && !Bit(EnabledMask(r.channels), ch)
    ensures r.channels[ch].range == ai.channels[ch].range
    ensures r.channels[ch].description == ai.channels[ch].description
    ensures forall k | 0 <= k < NumChannels && k != ch :: r.channels[k] == ai.channels[k]
    ensures r == ai.(channels := r.channels)
  {
    SetChannelEnabled(ai, ch, false)
  }

  /** Enabling or disabling a channel flips exactly its bit of the mask. */
  lemma EnableDisableMask(ai: AnalogInput, ch: int)
    requires 0 <= ch < NumChannels
    ensures Bit(EnabledMask(EnableChannel(ai, ch).channels), ch)
    ensures !Bit(EnabledMask(DisableChannel(ai, ch).channels), ch)
    ensures forall i | 0 <= i < NumChannels && i != ch ::
      && (Bit(EnabledMask(EnableChannel(ai, ch).channels), i) <==> Bit(EnabledMask(ai.channels), i))
      && (Bit(EnabledMask(DisableChannel(ai, ch).channels), i) <==> Bit(EnabledMask(ai.channels), i))
  {
  }

  /** The 8-byte range-configuration payload: byte i is channel i's range code. */
  function RangeBytes(chs: Channels): (b: seq<byte>)
    ensures |b| == NumChannels
  {
    seq(NumChannels, i requires 0 <= i < NumChannels => chs[i].range)
  }
}
