/**
 * Bit sequences read least significant bit first, the order in which the
 * transmitter sends a byte and the receiver shifts it in.
 */
module BitSeq {

  function Pow2(n: nat): (p: nat)
    ensures p >= 1
  {
    if n == 0 then 1 else 2 * Pow2(n - 1)
  }

  /** The number a bit sequence denotes, its first bit having weight 1. */
  function Value(bits: seq<bool>): nat
    decreases |bits|
  {
    if |bits| == 0 then 0 else (if bits[0] then 1 else 0) + 2 * Value(bits[1..])
  }

  /** The low n bits of b, least significant first. */
  function BitsFrom(b: bv8, n: nat): (bits: seq<bool>)
    ensures |bits| == n
    decreases n
  {
    if n == 0 then [] else [b & 1 == 1] + BitsFrom(b >> 1, n - 1)
  }

  /** The eight bits of a byte in transmission order. */
  function ByteBits(b: bv8): (bits: seq<bool>)
    ensures |bits| == 8
  {
    BitsFrom(b, 8)
  }

  /** Shifting right and setting bit 7 halves and adds 128. */
  lemma ShiftInOne(b: bv8)
    ensures ((b >> 1) | 0x80) as int == b as int / 2 + 128
  {
  }

  /** Shifting right halves. */
  lemma ShiftInZero(b: bv8)
    ensures (b >> 1) as int == b as int / 2
  {
  }

  /** A byte is determined by its numeric value. */
  lemma ByteOfValue(a: bv8, b: bv8)
    requires a as int == b as int
    ensures a == b
  {
  }

  /** 255 - b does not wrap. */
  lemma ByteComplement(b: bv8)
    ensures (255 - b) as int == 255 - b as int
  {
  }

  lemma HalfByte(b: bv8)
    ensures b as int == (if b & 1 == 1 then 1 else 0) + 2 * (b >> 1) as int
  {
  }

  /** Splitting off the low bit n times and reading the bits back gives b. */
  lemma {:induction false} ValueBitsFrom(b: bv8, n: nat)
    requires b as int < Pow2(n)
    ensures Value(BitsFrom(b, n)) == b as int
    decreases n
  {
    if n > 0 {
      HalfByte(b);
      ValueBitsFrom(b >> 1, n - 1);
      assert BitsFrom(b, n)[1..] == BitsFrom(b >> 1, n - 1);
    }
  }

  /** A byte's bits, read back least significant first, are the byte. */
  lemma ByteBitsValue(b: bv8)
    ensures Value(ByteBits(b)) == b as int
  {
    assert Pow2(8) == 256;
    ValueBitsFrom(b, 8);
  }

  /** A bit appended at the end has weight 2^(its position). */
  lemma {:induction false} ValueAppend(bits: seq<bool>, b: bool)
    ensures Value(bits + [b]) == Value(bits) + (if b then Pow2(|bits|) else 0)
    decreases |bits|
  {
    if |bits| > 0 {
      assert (bits + [b])[1..] == bits[1..] + [b];
      ValueAppend(bits[1..], b);
    } else {
      assert (bits + [b])[1..] == [];
    }
  }

  lemma {:induction false} Pow2Add(a: nat, b: nat)
    ensures Pow2(a) * Pow2(b) == Pow2(a + b)
    decreases a
  {
    if a > 0 {
      Pow2Add(a - 1, b);
    }
  }
}
