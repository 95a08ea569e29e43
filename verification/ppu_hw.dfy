// The PPU's background shift registers (nescore/src/ppu/hw.rs): two 16-bit
// tile planes that shift right once per tick and are loaded through their
// upper byte, and two 8-bit palette registers that shift in their latch's
// bits at the top.

module PpuHw {
  import opened Bits

  /** Bit `sel` of each plane, the high plane's bit as bit 1 of a 2-bit colour. */
  function TileValue(plane0: Word, plane1: Word, sel: nat): (r: Byte)
    requires sel < 16
    ensures r <= 3
    ensures (r & 0x01 != 0 <==> WordBitIsSet(plane0, sel)) && (r & 0x02 != 0 <==> WordBitIsSet(plane1, sel))
  {
    var lo := WordBitAsValue(plane0, sel) as Byte;
    var hi := WordBitAsValue(plane1, sel) as Byte;
    (hi << 1) | lo
  }

  /** A right shift moves bit sel + 1 to bit sel. */
  lemma ShiftedBit(w: Word, sel: nat)
    requires sel < 15
    ensures WordBitIsSet(w >> 1, sel) <==> WordBitIsSet(w, sel + 1)
  {
    assert (w >> 1) & ((1 as Word) << sel) == (w & ((1 as Word) << (sel + 1))) >> 1;
  }

  /** One tick moves every colour one position down. */
  lemma TickShiftsColours(plane0: Word, plane1: Word, sel: nat)
    requires sel < 15
    ensures TileValue(plane0 >> 1, plane1 >> 1, sel) == TileValue(plane0, plane1, sel + 1)
  {
    ShiftedBit(plane0, sel);
    ShiftedBit(plane1, sel);
    TwoBitsDetermine(TileValue(plane0 >> 1, plane1 >> 1, sel), TileValue(plane0, plane1, sel + 1));
  }

  lemma TwoBitsDetermine(a: Byte, b: Byte)
    requires a <= 3 && b <= 3
    requires (a & 0x01 != 0 <==> b & 0x01 != 0) && (a & 0x02 != 0 <==> b & 0x02 != 0)
    ensures a == b
  {
  }

  /** load ORs into the upper byte: a plane whose upper byte is clear then holds the new byte there, the lower byte kept. */
  lemma LoadIntoClearPlane(p: Word, b: Byte)
    requires p <= 0x00FF
    ensures HighByte(p | ((b as Word) << 8)) == b && LowByte(p | ((b as Word) << 8)) == LowByte(p)
  {
  }

  class TileRegister {
    var plane0: Word
    var plane1: Word

    constructor ()
      ensures plane0 == 0 && plane1 == 0
    {
      plane0 := 0;
      plane1 := 0;
    }

    /** tick: both planes shift right by one. */
    method Tick()
      modifies this
      ensures plane0 == old(plane0) >> 1 && plane1 == old(plane1) >> 1
    {
      plane0 := plane0 >> 1;
      plane1 := plane1 >> 1;
    }

    /** load: the two bytes are ORed into the upper bytes, which are not cleared first. */
    method Load(value: (Byte, Byte))
      modifies this
      ensures plane0 == old(plane0) | ((value.0 as Word) << 8)
      ensures plane1 == old(plane1) | ((value.1 as Word) << 8)
    {
      plane0 := plane0 | ((value.0 as Word) << 8);
      plane1 := plane1 | ((value.1 as Word) << 8);
    }

    /** get_value (a `sel` of 16 or more overflows the shift, and panics) */
    function GetValue(sel: nat): Byte
      requires sel < 16
      reads this
    {
      TileValue(plane0, plane1, sel)
    }
  }

  /**
   * The test of hw.rs: after loading (0x03, 0x02) into a cleared register
   * and ticking eight times, position 0 reads 1 and position 1 reads 3.
   */
  method TileLoadAndShift() returns (v0: Byte, v1: Byte)
    ensures v0 == 1 && v1 == 3
  {
    var t := new TileRegister();
    t.Load((0x03, 0x02));
    for i := 0 to 8
      invariant t.plane0 == 0x0300 >> i && t.plane1 == 0x0200 >> i
    {
      t.Tick();
    }
    v0 := t.GetValue(0);
    v1 := t.GetValue(1);
  }

  /** A palette register after a tick: shifted right, with the latch bit entering at bit 7. */
  function ShiftIn(r: Byte, latchBit: bool): (r': Byte)
    ensures r' & 0x7F == r >> 1
    ensures r' & 0x80 != 0 <==> latchBit
  {
    (r >> 1) | ((if latchBit then 1 else 0) << 7)
  }

  /** Eight ticks fill the register with the latch bit, whatever it held. */
  lemma EightShiftsFill(r: Byte, b: bool)
    ensures ShiftIn(ShiftIn(ShiftIn(ShiftIn(ShiftIn(ShiftIn(ShiftIn(ShiftIn(r, b), b), b), b), b), b), b), b) == if b then 0xFF else 0x00
  {
  }

  class PaletteRegister {
    var r0: Byte
    var r1: Byte
    var latch: Byte

    constructor ()
      ensures r0 == 0 && r1 == 0 && latch == 0
    {
      r0 := 0;
      r1 := 0;
      latch := 0;
    }

    /** tick: latch bit 0 enters r0 and latch bit 1 enters r1, at the top. */
    method Tick()
      modifies this
      ensures r0 == ShiftIn(old(r0), BitIsSet(latch, 0)) && r1 == ShiftIn(old(r1), BitIsSet(latch, 1))
      ensures latch == old(latch)
    {
      r0 := (r0 >> 1) | (BitAsValue(latch, 0) << 7);
      r1 := (r1 >> 1) | (BitAsValue(latch, 1) << 7);
    }

    method Latch(value: Byte)
      modifies this
      ensures latch == value && r0 == old(r0) && r1 == old(r1)
    {
      latch := value;
    }

    /** get_value (a `sel` of 8 or more overflows the shift, and panics) */
    function GetValue(sel: nat): (r: Byte)
      requires sel < 8
      reads this
      ensures r <= 3
      ensures (r & 0x01 != 0 <==> BitIsSet(r0, sel)) && (r & 0x02 != 0 <==> BitIsSet(r1, sel))
    {
      (BitAsValue(r1, sel) << 1) | BitAsValue(r0, sel)
    }
  }

  /** The test of hw.rs, for any latch: after eight ticks every position reads the latch's two low bits. */
  method PaletteLatchAndShift(latch: Byte) returns (p: PaletteRegister)
    ensures fresh(p)
    ensures forall sel :: 0 <= sel < 8 ==> p.GetValue(sel) == latch & 0x03
  {
    p := new PaletteRegister();
    p.Latch(latch);
    ghost var s0, s1 := p.r0, p.r1;
    p.Tick(); p.Tick(); p.Tick(); p.Tick(); p.Tick(); p.Tick(); p.Tick(); p.Tick();
    EightShiftsFill(s0, BitIsSet(latch, 0));
    EightShiftsFill(s1, BitIsSet(latch, 1));
    forall sel | 0 <= sel < 8 ensures p.GetValue(sel) == latch & 0x03 {
      FilledReads(p.r0, p.r1, latch, sel);
    }
  }

  lemma FilledReads(r0: Byte, r1: Byte, latch: Byte, sel: nat)
    requires sel < 8
    requires r0 == if BitIsSet(latch, 0) then 0xFF else 0x00
    requires r1 == if BitIsSet(latch, 1) then 0xFF else 0x00
    ensures (BitAsValue(r1, sel) << 1) | BitAsValue(r0, sel) == latch & 0x03
  {
    assert Bv(0) == 0x01 && Bv(1) == 0x02;
    match sel
    case 0 => case 1 => case 2 => case 3 => case 4 => case 5 => case 6 => case 7 =>
  }
}
