/** The pure helpers of the USB-20x package (`usb20x/miscellaneous.go`): the
    2-byte little-endian encoding of an integer, the status byte, and the
    conversion of a 16-bit offset-binary sample to volts. Volts are real
    numbers here, not IEEE-754 doubles. */
module Usb20xMisc {
  import opened Bytes
  import opened Outcomes
  import opened Daq
  import opened Usb20xCommands
  import Fs1608 = Fs1608Commands

  /** `byteSlice`: `i` reduced to 16 bits, little-endian. */
  function ByteSlice(i: int): (b: seq<byte>)
    ensures |b| == 2
    ensures b[0] == i % 0x100 && b[1] == (i % TwoTo16) / 0x100
  {
    LeBytes16(i)
  }

  /** Decoding `byteSlice(i)` gives i modulo 2^16, and every 2-byte string is
      `byteSlice` of its decoding. */
  lemma ByteSliceInverse(i: int, b: seq<byte>)
    requires |b| == 2
    ensures LeUint16(ByteSlice(i)) == i % TwoTo16
    ensures ByteSlice(LeUint16(b)) == b
  {
    LeBytes16OfLeUint16(b);
  }

  lemma ByteSliceVectors()
    ensures ByteSlice(0) == [0, 0] && ByteSlice(0x8000) == [0x00, 0x80]
    ensures ByteSlice(0xFFFF) == [0xFF, 0xFF] && ByteSlice(-1) == [0xFF, 0xFF]
    ensures ByteSlice(0x1_0001) == [1, 0]
  {
  }

  /** The outcome of `Status`: the status byte and the history after the
      2-byte get-status control read. */
  datatype StatusRead = StatusRead(status: byte, err: Option<string>, trace: seq<Call>)

  /** `Status`: one 2-byte get-status read into a zeroed buffer; the status is
      the low byte of the little-endian word, whatever the transfer returned,
      and no error is ever reported. */
  function Status(dev: Device, h: seq<Call>): (r: StatusRead)
    ensures r.trace == h + [Receive(GetStatusCode, 2)]
    ensures r.err.None?
    ensures r.status == (if |dev(r.trace).bytes| > 0 then dev(r.trace).bytes[0] else 0)
  {
    var h' := h + [Receive(GetStatusCode, 2)];
    var word := LeUint16(Fill(Zeros(2), dev(h').bytes));
    StatusRead(word % 0x100, None, h')
  }

  // ---------------------------------------------------------------------------
  // Volts

  /** The offset of the 16-bit converter: code 0x8000 is 0 V. */
  const Converter: int := 32768

  /** The multiplier a Go map lookup yields: the entry, or the zero value. */
  function MultiplierOrZero(m: Option<real>): real
  {
    if m.Some? then m.value else 0.0
  }

  /** `multiplier × (b − 32768) / 32768`. */
  function Scale(multiplier: real, b: int): real
  {
    multiplier * (b - Converter) as real / Converter as real
  }

  /** `Volts`: the sample `b` scaled by the range's multiplier, 0 for a range
      the multiplier table does not hold. */
  function Volts(b: int, range: byte): (v: real)
    ensures Multiplier(range).None? ==> v == 0.0
    ensures b == Converter ==> v == 0.0
    ensures Multiplier(range).Some? ==>
      v * Converter as real == Multiplier(range).value * (b - Converter) as real
  {
    Scale(MultiplierOrZero(Multiplier(range)), b)
  }

  /** `VoltsData`: exactly two bytes, decoded little-endian, then `Volts`. */
  function VoltsData(data: seq<byte>, range: byte): (r: Result<real, string>)
    ensures r.Failure? <==> |data| != 2
    ensures r.Success? ==> r.value == Volts(data[0] as int + 0x100 * data[1] as int, range)
  {
    if |data| != 2 then Failure("binary value must be 2 bytes")
    else Success(Volts(LeUint16(data), range))
  }

  /** Converting the encoding of a 16-bit sample is converting the sample. */
  lemma VoltsDataOfByteSlice(b: int, range: byte)
    requires 0 <= b < TwoTo16
    ensures VoltsData(ByteSlice(b), range) == Success(Volts(b, range))
  {
  }

  /** The midpoint code is 0 V on every range. */
  lemma VoltsMidpoint(range: byte)
    ensures Volts(Converter, range) == 0.0
  {
  }

  /** A range without a multiplier reads 0 V for every sample. */
  lemma VoltsWithoutMultiplier(b: int, range: byte)
    requires range != Range10V
    ensures Volts(b, range) == 0.0
  {
  }

  /** With a non-negative multiplier the conversion is monotone. */
  lemma ScaleMonotone(multiplier: real, b1: int, b2: int)
    requires multiplier >= 0.0 && b1 <= b2
    ensures Scale(multiplier, b1) <= Scale(multiplier, b2)
  {
    var d1, d2 := (b1 - Converter) as real, (b2 - Converter) as real;
    assert multiplier * d2 - multiplier * d1 == multiplier * (d2 - d1);
    assert multiplier * (d2 - d1) >= 0.0;
  }

  /** Every USB-20x range's conversion is monotone non-decreasing in the
      sample. */
  lemma VoltsMonotone(b1: int, b2: int, range: byte)
    requires b1 <= b2
    ensures Volts(b1, range) <= Volts(b2, range)
  {
    ScaleMonotone(MultiplierOrZero(Multiplier(range)), b1, b2);
  }

  /** The sample that converts to `v` at a non-zero multiplier. */
  function Sample(multiplier: real, v: real): real
    requires multiplier != 0.0
  {
    v * Converter as real / multiplier + Converter as real
  }

  /** The conversion is invertible on a range with a multiplier: the sample is
      recovered from its volts. */
  lemma VoltsInverse(b: int, range: byte)
    requires Multiplier(range).Some?
    ensures Sample(Multiplier(range).value, Volts(b, range)) == b as real
  {
  }

  lemma VoltsVectors()
    ensures Volts(0, Range10V) == -10.0
    ensures Volts(0x8000, Range10V) == 0.0
    ensures Volts(0xFFFF, Range10V) == 10.0 * 32767.0 / 32768.0 == 9.99969482421875
    ensures VoltsData([0, 0], Range10V) == Success(-10.0)
    ensures VoltsData([0x00, 0x80], Range10V) == Success(0.0)
    ensures VoltsData([0xFF, 0xFF], Range10V) == Success(9.99969482421875)
    ensures VoltsData([0x00], Range10V).Failure? && VoltsData([0, 0, 0], Range10V).Failure?
  {
  }

  /** The same conversion with the USB-1608FS-Plus multiplier table. */
  lemma Fs1608ScaleVectors()
    ensures Scale(MultiplierOrZero(Fs1608.Multiplier(Fs1608.Range10V)), LeUint16([0, 0])) == -10.0
    ensures Scale(MultiplierOrZero(Fs1608.Multiplier(Fs1608.Range10V)), LeUint16([0x00, 0x80])) == 0.0
    ensures Scale(MultiplierOrZero(Fs1608.Multiplier(Fs1608.Range10V)), LeUint16([0xFF, 0xFF])) == 9.99969482421875
    ensures Scale(MultiplierOrZero(Fs1608.Multiplier(Fs1608.Range5V)), LeUint16([0, 0])) == -5.0
    ensures Scale(MultiplierOrZero(Fs1608.Multiplier(Fs1608.Range5V)), LeUint16([0x00, 0x80])) == 0.0
    ensures Scale(MultiplierOrZero(Fs1608.Multiplier(Fs1608.Range5V)), LeUint16([0xFF, 0xFF])) == 4.999847412109375
  {
  }
}
