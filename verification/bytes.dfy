/** Bytes, bits and little-endian words: the wire vocabulary shared by every
    packet the driver builds or parses. Bytes and words are kept as their
    non-negative integer values; Go's conversions to `byte`, `uint16` and
    `uint32` are explicit reductions modulo 2^8, 2^16 and 2^32, and the
    bitwise operators are defined bit by bit. */
module Bytes {

  type byte = x: int | 0 <= x < 0x100

  const TwoTo16: int := 0x1_0000
  const TwoTo32: int := 0x1_0000_0000

  /** The values of Go's `uint32`. */
  type uint32 = x: int | 0 <= x < 0x1_0000_0000

  // ---------------------------------------------------------------------------
  // Little-endian words

  /** `binary.LittleEndian.Uint16`. */
  function LeUint16(b: seq<byte>): (n: nat)
    requires |b| == 2
    ensures n < TwoTo16
  {
    b[0] as int + 0x100 * b[1] as int
  }

  /** `binary.LittleEndian.PutUint16(b, uint16(n))`. */
  function LeBytes16(n: int): (b: seq<byte>)
    ensures |b| == 2
    ensures LeUint16(b) == n % TwoTo16
  {
    var m := n % TwoTo16;
    [m % 0x100, m / 0x100]
  }

  /** Decoding then re-encoding a 2-byte field gives the field back. */
  lemma LeBytes16OfLeUint16(b: seq<byte>)
    requires |b| == 2
    ensures LeBytes16(LeUint16(b)) == b
  {
  }

  /** `binary.LittleEndian.Uint32`. */
  function LeUint32(b: seq<byte>): (n: uint32)
    requires |b| == 4
  {
    LeUint16(b[0..2]) + TwoTo16 * LeUint16(b[2..4])
  }

  /** `binary.LittleEndian.PutUint32(b, uint32(n))`. */
  function LeBytes32(n: int): (b: seq<byte>)
    ensures |b| == 4
    ensures LeUint32(b) == n % TwoTo32
  {
    var m := n % TwoTo32;
    var b := LeBytes16(m % TwoTo16) + LeBytes16(m / TwoTo16);
    assert b[0..2] == LeBytes16(m % TwoTo16);
    assert b[2..4] == LeBytes16(m / TwoTo16);
    b
  }

  /** Decoding then re-encoding a 4-byte field gives the field back. */
  lemma LeBytes32OfLeUint32(b: seq<byte>)
    requires |b| == 4
    ensures LeBytes32(LeUint32(b)) == b
  {
    var lo, hi := LeUint16(b[0..2]), LeUint16(b[2..4]);
    var n := LeUint32(b);
    assert n == lo + TwoTo16 * hi;
    assert n % TwoTo32 == n;
    assert n % TwoTo16 == lo && n / TwoTo16 == hi;
    LeBytes16OfLeUint16(b[0..2]);
    LeBytes16OfLeUint16(b[2..4]);
    assert b == b[0..2] + b[2..4];
  }

  // ---------------------------------------------------------------------------
  // Buffers

  /** A zero-initialised buffer (`make([]byte, n)`). */
  function Zeros(n: nat): (z: seq<byte>)
    ensures |z| == n
    ensures forall i | 0 <= i < n :: z[i] == 0
  {
    seq(n, _ => 0)
  }

  /** The buffer after a transfer wrote `src` into its prefix: the buffer keeps
      its length, bytes beyond `src` keep their old value. */
  function Fill(buffer: seq<byte>, src: seq<byte>): (r: seq<byte>)
    ensures |r| == |buffer|
    ensures forall i | 0 <= i < |r| :: r[i] == (if i < |src| then src[i] else buffer[i])
  {
    seq(|buffer|, i requires 0 <= i < |buffer| => if i < |src| then src[i] else buffer[i])
  }

  // ---------------------------------------------------------------------------
  // Bits

  /** Bit `i` of `b` (bit 0 is the least significant). */
  predicate Bit(b: byte, i: nat)
    requires i < 8
  {
    if i == 0 then b % 2 == 1 else Bit(b / 2, i - 1)
  }

  /** Two bytes with the same eight bits are equal. */
  lemma {:induction false} BitsDetermineByte(a: byte, b: byte, k: nat)
    requires k <= 8 && a < Pow2(k) && b < Pow2(k)
    requires forall i | 0 <= i < k :: Bit(a, i) == Bit(b, i)
    ensures a == b
  {
    if k > 0 {
      forall i | 0 <= i < k - 1
        ensures Bit(a / 2, i) == Bit(b / 2, i)
      {
        assert Bit(a, i + 1) == Bit(b, i + 1);
      }
      BitsDetermineByte(a / 2, b / 2, k - 1);
      assert Bit(a, 0) == Bit(b, 0);
    }
  }

  /** 2^k for the bit positions of a byte (and 2^8). */
  function Pow2(k: nat): (p: nat)
    requires k <= 8
    ensures 0 < p <= 0x100
    ensures 0 < k ==> p == 2 * Pow2(k - 1)
  {
    match k
    case 0 => 1
    case 1 => 2
    case 2 => 4
    case 3 => 8
    case 4 => 16
    case 5 => 32
    case 6 => 64
    case 7 => 128
    case _ => 256
  }

  /** Bytes below 2^k have no bit at or above position k. */
  lemma {:induction false} HighBitsClear(b: byte, k: nat, i: nat)
    requires k <= i < 8 && b < Pow2(k)
    ensures !Bit(b, i)
  {
    if k > 0 {
      HighBitsClear(b / 2, k - 1, i - 1);
    } else {
      assert b == 0;
      ZeroHasNoBits(i);
    }
  }

  /** Zero is the only byte with no set bit. */
  lemma NoBitsIffZero(b: byte)
    ensures b == 0 ==> forall i: nat | i < 8 :: !Bit(b, i)
    ensures (forall i: nat | i < 8 :: !Bit(b, i)) ==> b == 0
  {
    if b == 0 {
      ZeroHasNoSetBit(b);
    } else if forall i: nat | i < 8 :: !Bit(b, i) {
      NoSetBitIsZero(b);
    }
  }

  lemma ZeroHasNoSetBit(b: byte)
    requires b == 0
    ensures forall i: nat | i < 8 :: !Bit(b, i)
  {
    forall i: nat | i < 8
      ensures !Bit(b, i)
    {
      ZeroHasNoBits(i);
    }
  }

  lemma NoSetBitIsZero(b: byte)
    requires forall i: nat | i < 8 :: !Bit(b, i)
    ensures b == 0
  {
    forall i: nat | i < 8
      ensures Bit(b, i) == Bit(0, i)
    {
      ZeroHasNoBits(i);
    }
    assert Pow2(8) == 0x100;
    BitsDetermineByte(b, 0, 8);
  }

  lemma {:induction false} ZeroHasNoBits(i: nat)
    requires i < 8
    ensures !Bit(0, i)
  {
    if i > 0 {
      ZeroHasNoBits(i - 1);
    }
  }

  /** Bit `i` of 1 is set only for i = 0. */
  lemma OneBit(i: nat)
    requires i < 8
    ensures Bit(1, i) <==> i == 0
  {
    if i > 0 {
      ZeroHasNoBits(i - 1);
    }
  }

  /** Go's byte `a | b`. */
  function Or(a: byte, b: byte): byte
  {
    OrBelow(a, b, 8)
  }

  /** Bit i of `a | b` is set iff it is set in `a` or in `b`. */
  lemma OrBit(a: byte, b: byte, i: nat)
    requires i < 8
    ensures Bit(Or(a, b), i) <==> Bit(a, i) || Bit(b, i)
  {
    OrBelowBits(a, b, 8, i);
  }

  /** The OR of the low `k` bits of `a` and `b`. */
  function OrBelow(a: byte, b: byte, k: nat): (r: byte)
    requires k <= 8
    ensures r < Pow2(k)
  {
    if k == 0 then 0
    else 2 * OrBelow(a / 2, b / 2, k - 1) + (if a % 2 == 1 || b % 2 == 1 then 1 else 0)
  }

  lemma {:induction false} OrBelowBits(a: byte, b: byte, k: nat, i: nat)
    requires i < k <= 8
    ensures Bit(OrBelow(a, b, k), i) <==> Bit(a, i) || Bit(b, i)
  {
    var r := OrBelow(a, b, k);
    var rest := OrBelow(a / 2, b / 2, k - 1);
    assert r / 2 == rest && r % 2 == (if a % 2 == 1 || b % 2 == 1 then 1 else 0);
    if i > 0 {
      OrBelowBits(a / 2, b / 2, k - 1, i - 1);
    }
  }

  /** Go's byte `a & b`. */
  function And(a: byte, b: byte): byte
  {
    AndBelow(a, b, 8)
  }

  /** Bit i of `a & b` is set iff it is set in both `a` and `b`. */
  lemma AndBit(a: byte, b: byte, i: nat)
    requires i < 8
    ensures Bit(And(a, b), i) <==> Bit(a, i) && Bit(b, i)
  {
    AndBelowBits(a, b, 8, i);
  }

  function AndBelow(a: byte, b: byte, k: nat): (r: byte)
    requires k <= 8
    ensures r < Pow2(k)
  {
    if k == 0 then 0
    else 2 * AndBelow(a / 2, b / 2, k - 1) + (if a % 2 == 1 && b % 2 == 1 then 1 else 0)
  }

  lemma {:induction false} AndBelowBits(a: byte, b: byte, k: nat, i: nat)
    requires i < k <= 8
    ensures Bit(AndBelow(a, b, k), i) <==> Bit(a, i) && Bit(b, i)
  {
    var r := AndBelow(a, b, k);
    var rest := AndBelow(a / 2, b / 2, k - 1);
    assert r / 2 == rest && r % 2 == (if a % 2 == 1 && b % 2 == 1 then 1 else 0);
    if i > 0 {
      AndBelowBits(a / 2, b / 2, k - 1, i - 1);
    }
  }

  /** A single-bit mask tests one bit: `b & m` is zero iff bit i of `b` is
      clear, where `m` is the byte whose only set bit is i. */
  lemma {:induction false} AndSingleBit(b: byte, m: byte, i: nat)
    requires i < 8
    requires forall j: nat | j < 8 :: Bit(m, j) <==> j == i
    ensures And(b, m) == 0 <==> !Bit(b, i)
  {
    var r := And(b, m);
    NoBitsIffZero(r);
    if Bit(b, i) {
      AndBit(b, m, i);
    } else {
      forall j: nat | j < 8
        ensures !Bit(r, j)
      {
        AndBit(b, m, j);
      }
    }
  }

  /** Go's byte `a << k`: bits shifted up by `k`, those past bit 7 dropped. */
  function Shl(a: byte, k: nat): byte
    requires k < 8
  {
    if k == 0 then a else (2 * Shl(a, k - 1)) % 0x100
  }

  lemma {:induction false} ShlBit(a: byte, k: nat, i: nat)
    requires k < 8 && i < 8
    ensures Bit(Shl(a, k), i) <==> k <= i && Bit(a, i - k)
  {
    if k > 0 {
      DoubleBits(Shl(a, k - 1), i);
      if i > 0 {
        ShlBit(a, k - 1, i - 1);
      }
    }
  }

  /** `0x1 << k` has bit k as its only set bit. */
  lemma SingleBitMask(k: nat)
    requires k < 8
    ensures forall j: nat | j < 8 :: Bit(Shl(1, k), j) <==> j == k
  {
    forall j: nat | j < 8
      ensures Bit(Shl(1, k), j) <==> j == k
    {
      ShlBit(1, k, j);
      if k <= j {
        OneBit(j - k);
      }
    }
  }

  /** Doubling a byte (dropping the carry) moves every bit up by one. */
  lemma DoubleBits(b: byte, i: nat)
    requires i < 8
    ensures Bit((2 * b) % 0x100, i) <==> 0 < i && Bit(b, i - 1)
  {
    var d := (2 * b) % 0x100;
    if b < 0x80 {
      assert d / 2 == b;
    } else {
      assert d / 2 == b - 0x80;
      if 0 < i {
        LowBitsWithoutPow2(b, 7, i - 1);
      }
    }
  }

  /** Clearing a set bit at position k leaves the bits below k unchanged. */
  lemma {:induction false} LowBitsWithoutPow2(b: byte, k: nat, i: nat)
    requires i < k < 8 && b >= Pow2(k)
    ensures Bit(b - Pow2(k), i) <==> Bit(b, i)
  {
    assert (b - Pow2(k)) % 2 == b % 2;
    if 0 < i {
      assert (b - Pow2(k)) / 2 == b / 2 - Pow2(k - 1);
      LowBitsWithoutPow2(b / 2, k - 1, i - 1);
    }
  }

  /** The number of set bits among bits 0 .. k-1 of `b`. */
  function CountBits(b: byte, k: nat): (n: nat)
    requires k <= 8
    ensures n <= k
  {
    if k == 0 then 0 else CountBits(b, k - 1) + (if Bit(b, k - 1) then 1 else 0)
  }

  /** The number of set bits of `b`. */
  function PopCount(b: byte): nat
  {
    CountBits(b, 8)
  }
}
