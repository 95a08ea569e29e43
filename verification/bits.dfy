// Bit-manipulation helpers shared by every part of the emulator
// (nescore/src/bit.rs). The Rust macros are generic over the integer width;
// the model gives the byte form (`Byte`) and, where the emulator applies a
// macro to a 16-bit value, the word form (`Word`).

module Bits {
  type Byte = bv8
  type Word = bv16

  /**
   * A u16 used as an address or a count rather than as a bit pattern: the
   * bus, the mappers and the memory banks compare, add and take remainders
   * of addresses, which the model does on integers.
   */
  type Addr = x: nat | x < 0x1_0000

  /**
   * A u8 used as a number rather than as a bit pattern: a volume, a level
   * or a count that is only compared, added to and counted down.
   */
  type Octet = x: nat | x < 0x100

  /** `x & 0x0F` as a number: a four-bit volume or table index. */
  function LowNibble(x: Byte): (v: Octet)
    ensures v < 16
  {
    (x & 0x0F) as nat
  }

  /** bv!(b), the value `1 << b`: the byte whose only set bit is bit `b`. */
  function Bv(b: nat): (r: Byte)
    requires b < 8
    ensures r == (1 as Byte) << b
    ensures r != 0 && r & (r - 1) == 0
  {
    match b
    case 0 => 0x01 case 1 => 0x02 case 2 => 0x04 case 3 => 0x08
    case 4 => 0x10 case 5 => 0x20 case 6 => 0x40 case 7 => 0x80
  }

  /** mask_is_set!(x, m): some bit of the mask is set in `x`. */
  predicate MaskIsSet(x: Byte, m: Byte)
  {
    x & m != 0
  }

  /** mask_is_clear!(x, m): no bit of the mask is set in `x`. */
  predicate MaskIsClear(x: Byte, m: Byte)
  {
    x & m == 0
  }

  /** bit_is_set!(x, b) */
  predicate BitIsSet(x: Byte, b: nat)
    requires b < 8
  {
    MaskIsSet(x, Bv(b))
  }

  /** bit_is_clear!(x, b) */
  predicate BitIsClear(x: Byte, b: nat)
    requires b < 8
  {
    MaskIsClear(x, Bv(b))
  }

  /** bit_is_set! applied to a 16-bit value. */
  predicate WordBitIsSet(x: Word, b: nat)
    requires b < 16
  {
    x & ((1 as Word) << b) != 0
  }

  /** mask_set!(x, m): the value `x |= m` leaves behind. */
  function MaskSet(x: Byte, m: Byte): (r: Byte)
    ensures r & m == m
    ensures r & !m == x & !m
  {
    x | m
  }

  /** mask_clear!(x, m): the value `x &= !m` leaves behind. */
  function MaskClear(x: Byte, m: Byte): (r: Byte)
    ensures r & m == 0
    ensures r & !m == x & !m
  {
    x & !m
  }

  /** bit_set!(x, b) */
  function BitSet(x: Byte, b: nat): (r: Byte)
    requires b < 8
  {
    MaskSet(x, Bv(b))
  }

  /** bit_clear!(x, b) */
  function BitClear(x: Byte, b: nat): (r: Byte)
    requires b < 8
  {
    MaskClear(x, Bv(b))
  }

  /** high_byte!(x) on a 16-bit value. */
  function HighByte(x: Word): (r: Byte)
    ensures (r as Word) << 8 == x & 0xFF00
  {
    (x >> 8) as Byte
  }

  /** low_byte!(x) on a 16-bit value. */
  function LowByte(x: Word): (r: Byte)
    ensures r as Word == x & 0x00FF
  {
    (x & 0x00FF) as Byte
  }

  /** bit_as_value!(x, b): bit `b` of `x` as 0 or 1. */
  function BitAsValue(x: Byte, b: nat): (r: Byte)
    requires b < 8
    ensures r <= 1
    ensures r == 1 <==> BitIsSet(x, b)
  {
    (x & Bv(b)) >> b
  }

  /** bit_as_value! applied to a 16-bit value. */
  function WordBitAsValue(x: Word, b: nat): (r: Word)
    requires b < 16
    ensures r <= 1
    ensures r == 1 <==> WordBitIsSet(x, b)
  {
    (x & ((1 as Word) << b)) >> b
  }

  /** bit_group!(x, mask, n): the field selected by `mask` at bit `n`. */
  function BitGroup(x: Byte, mask: Byte, n: nat): Byte
    requires n < 8
  {
    (x & (mask << n)) >> n
  }

  /** The three fields the sound channels extract with bit_group!. */
  lemma BitGroupFields(x: Byte)
    ensures BitGroup(x, 0x1F, 3) == x >> 3
    ensures BitGroup(x, 0x03, 6) == x >> 6
    ensures BitGroup(x, 0x07, 4) == (x >> 4) & 0x07 && BitGroup(x, 0x07, 4) <= 7
  {
  }

  /** The byte with its bit order reversed, bit i of the result being bit 7 - i of `x`. */
  function Reverse(x: Byte): Byte
  {
    ((x & 0x01) << 7) | ((x & 0x02) << 5) | ((x & 0x04) << 3) | ((x & 0x08) << 1) |
    ((x & 0x10) >> 1) | ((x & 0x20) >> 3) | ((x & 0x40) >> 5) | ((x & 0x80) >> 7)
  }

  /** Two bytes that agree on every bit are equal. */
  lemma BitsDetermineByte(a: Byte, b: Byte)
    requires forall i :: 0 <= i < 8 ==> (BitIsSet(a, i) <==> BitIsSet(b, i))
    ensures a == b
  {
    assert BitIsSet(a, 0) <==> BitIsSet(b, 0);
    assert BitIsSet(a, 1) <==> BitIsSet(b, 1);
    assert BitIsSet(a, 2) <==> BitIsSet(b, 2);
    assert BitIsSet(a, 3) <==> BitIsSet(b, 3);
    assert BitIsSet(a, 4) <==> BitIsSet(b, 4);
    assert BitIsSet(a, 5) <==> BitIsSet(b, 5);
    assert BitIsSet(a, 6) <==> BitIsSet(b, 6);
    assert BitIsSet(a, 7) <==> BitIsSet(b, 7);
    MasksDetermineByte(a, b);
  }

  lemma MasksDetermineByte(a: Byte, b: Byte)
    requires a & 0x01 == 0 <==> b & 0x01 == 0
    requires a & 0x02 == 0 <==> b & 0x02 == 0
    requires a & 0x04 == 0 <==> b & 0x04 == 0
    requires a & 0x08 == 0 <==> b & 0x08 == 0
    requires a & 0x10 == 0 <==> b & 0x10 == 0
    requires a & 0x20 == 0 <==> b & 0x20 == 0
    requires a & 0x40 == 0 <==> b & 0x40 == 0
    requires a & 0x80 == 0 <==> b & 0x80 == 0
    ensures a == b
  {
  }

  /** bit_set!(x, b) sets bit b and leaves every other bit as it was. */
  lemma BitSetAt(x: Byte, b: nat, j: nat)
    requires b < 8 && j < 8
    ensures BitIsSet(BitSet(x, b), j) <==> (j == b || BitIsSet(x, j))
  {
    match j
    case 0 => case 1 => case 2 => case 3 => case 4 => case 5 => case 6 => case 7 =>
  }

  /** bit_clear!(x, b) clears bit b and leaves every other bit as it was. */
  lemma BitClearAt(x: Byte, b: nat, j: nat)
    requires b < 8 && j < 8
    ensures BitIsSet(BitClear(x, b), j) <==> (j != b && BitIsSet(x, j))
  {
    match j
    case 0 => case 1 => case 2 => case 3 => case 4 => case 5 => case 6 => case 7 =>
  }

  /** Bit i of Reverse(x) is bit 7 - i of x. */
  lemma ReverseAt(x: Byte, i: nat)
    requires i < 8
    ensures BitIsSet(Reverse(x), i) <==> BitIsSet(x, 7 - i)
  {
    ReverseMasks(x);
    MirroredBitAt(x, Reverse(x), i);
  }

  /** A byte whose masks mirror those of `x` has bit i exactly where `x` has bit 7 - i. */
  lemma MirroredBitAt(x: Byte, y: Byte, i: nat)
    requires i < 8
    requires y & 0x01 == 0 <==> x & 0x80 == 0
    requires y & 0x02 == 0 <==> x & 0x40 == 0
    requires y & 0x04 == 0 <==> x & 0x20 == 0
    requires y & 0x08 == 0 <==> x & 0x10 == 0
    requires y & 0x10 == 0 <==> x & 0x08 == 0
    requires y & 0x20 == 0 <==> x & 0x04 == 0
    requires y & 0x40 == 0 <==> x & 0x02 == 0
    requires y & 0x80 == 0 <==> x & 0x01 == 0
    ensures BitIsSet(y, i) <==> BitIsSet(x, 7 - i)
  {
    match i
    case 0 => case 1 => case 2 => case 3 => case 4 => case 5 => case 6 => case 7 =>
  }

  lemma ReverseMasks(x: Byte)
    ensures Reverse(x) & 0x01 == 0 <==> x & 0x80 == 0
    ensures Reverse(x) & 0x02 == 0 <==> x & 0x40 == 0
    ensures Reverse(x) & 0x04 == 0 <==> x & 0x20 == 0
    ensures Reverse(x) & 0x08 == 0 <==> x & 0x10 == 0
    ensures Reverse(x) & 0x10 == 0 <==> x & 0x08 == 0
    ensures Reverse(x) & 0x20 == 0 <==> x & 0x04 == 0
    ensures Reverse(x) & 0x40 == 0 <==> x & 0x02 == 0
    ensures Reverse(x) & 0x80 == 0 <==> x & 0x01 == 0
  {
  }

  /** Reversing the bit order twice gives the byte back. */
  lemma ReverseInvolutive(x: Byte)
    ensures Reverse(Reverse(x)) == x
  {
    forall i | 0 <= i < 8 ensures BitIsSet(Reverse(Reverse(x)), i) <==> BitIsSet(x, i) {
      ReverseAt(Reverse(x), i);
      ReverseAt(x, 7 - i);
    }
    BitsDetermineByte(Reverse(Reverse(x)), x);
  }

  /** reverse_bits!(x): sets bit 7 - i of a zeroed byte for every set bit i of x. */
  method ReverseBits(x: Byte) returns (y: Byte)
    ensures y == Reverse(x)
    ensures forall i :: 0 <= i < 8 ==> (BitIsSet(y, i) <==> BitIsSet(x, 7 - i))
  {
    y := 0;
    for i := 0 to 8
      invariant forall k :: 8 - i <= k < 8 ==> (BitIsSet(y, k) <==> BitIsSet(x, 7 - k))
      invariant forall k :: 0 <= k < 8 - i ==> !BitIsSet(y, k)
    {
      ghost var before := y;
      if BitIsSet(x, i) {
        y := BitSet(y, 7 - i);
      }
      forall k | 0 <= k < 8 ensures BitIsSet(y, k) <==> (if k == 7 - i then BitIsSet(x, i) else BitIsSet(before, k)) {
        BitSetAt(before, 7 - i, k);
      }
    }
    forall i | 0 <= i < 8 ensures BitIsSet(y, i) <==> BitIsSet(Reverse(x), i) {
      ReverseAt(x, i);
    }
    BitsDetermineByte(y, Reverse(x));
    forall i | 0 <= i < 8 ensures BitIsSet(y, i) <==> BitIsSet(x, 7 - i) {
      ReverseAt(x, i);
    }
  }

  /** The examples from the macro tests: reverse_bits!(0x80) is 0x01, bit_group!(0x70, 0x07, 4) is 7. */
  lemma MacroExamples()
    ensures Reverse(0x80) == 0x01 && Reverse(0xA5) == 0xA5
    ensures BitAsValue(0x08, 3) == 1 && BitAsValue(0x08, 2) == 0
    ensures BitGroup(0x70, 0x07, 4) == 0x07 && BitGroup(0xC0, 0x03, 6) == 0x03
  {
  }
}
