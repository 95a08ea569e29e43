// The PPU's memory-mapped registers (nescore/src/ppu/regs.rs): PPUCTRL and
// PPUMASK are unpacked from the byte the CPU writes into named flags and
// packed back; PPUSTATUS is packed from its flags.

module PpuRegs {
  import opened Bits

  /** `(flag as u8) << n`: bit n alone when the flag is set, 0 otherwise. */
  function Shl(flag: bool, n: nat): (r: Byte)
    requires n < 8
    ensures r == if flag then Bv(n) else 0
  {
    (if flag then 1 else 0) << n
  }

  datatype PpuCtrl = PpuCtrl(
    baseNametableAddress: Byte,   // 0 = $2000, 1 = $2400, 2 = $2800, 3 = $2C00
    incMode: bool,
    spritePatternTable: bool,
    backgroundPatternTable: bool,
    spriteSize: bool,
    masterSlaveSelect: bool,
    nmiEnable: bool)
  {
    /** What PpuCtrl::from can produce: the base nametable is two bits wide. */
    predicate WellFormed()
    {
      baseNametableAddress <= 3
    }

    /** value(): the flags packed back into the register byte, the base nametable in bits 0-1 and flag n in bit n. */
    function Value(): (r: Byte)
      ensures WellFormed() ==> r & 0x03 == baseNametableAddress
      ensures WellFormed() ==> (r & 0x04 != 0 <==> incMode) && (r & 0x08 != 0 <==> spritePatternTable)
      ensures WellFormed() ==> (r & 0x10 != 0 <==> backgroundPatternTable) && (r & 0x20 != 0 <==> spriteSize)
      ensures WellFormed() ==> (r & 0x40 != 0 <==> masterSlaveSelect) && (r & 0x80 != 0 <==> nmiEnable)
    {
      baseNametableAddress | Shl(incMode, 2) | Shl(spritePatternTable, 3) | Shl(backgroundPatternTable, 4) |
      Shl(spriteSize, 5) | Shl(masterSlaveSelect, 6) | Shl(nmiEnable, 7)
    }

    /** nametable(): one of the four nametables, 1 KiB apart from $2000. */
    function Nametable(): (a: nat)
      requires WellFormed()
      ensures a in {0x2000, 0x2400, 0x2800, 0x2C00}
      ensures (a - 0x2000) / 0x400 == baseNametableAddress as nat
    {
      0x2000 + 0x400 * baseNametableAddress as nat
    }
  }

  /** PpuCtrl::from */
  function CtrlFrom(v: Byte): (c: PpuCtrl)
    ensures c.WellFormed() && c.baseNametableAddress == v & 0x03
    ensures c.incMode == BitIsSet(v, 2) && c.nmiEnable == BitIsSet(v, 7)
  {
    PpuCtrl(v & 0x03, BitIsSet(v, 2), BitIsSet(v, 3), BitIsSet(v, 4), BitIsSet(v, 5), BitIsSet(v, 6), BitIsSet(v, 7))
  }

  /** Unpacking and packing PPUCTRL gives the byte back. */
  lemma CtrlRoundTrip(v: Byte)
    ensures CtrlFrom(v).Value() == v
  {
    assert Bv(2) == 0x04 && Bv(3) == 0x08 && Bv(4) == 0x10 && Bv(5) == 0x20 && Bv(6) == 0x40 && Bv(7) == 0x80;
    CtrlPack(v, v & 0x03, v & 0x04 != 0, v & 0x08 != 0, v & 0x10 != 0, v & 0x20 != 0, v & 0x40 != 0, v & 0x80 != 0);
  }

  lemma CtrlPack(v: Byte, base: Byte, b2: bool, b3: bool, b4: bool, b5: bool, b6: bool, b7: bool)
    requires base == v & 0x03
    requires b2 == (v & 0x04 != 0) && b3 == (v & 0x08 != 0) && b4 == (v & 0x10 != 0)
    requires b5 == (v & 0x20 != 0) && b6 == (v & 0x40 != 0) && b7 == (v & 0x80 != 0)
    ensures PpuCtrl(base, b2, b3, b4, b5, b6, b7).Value() == v
  {
  }

  /** Packing and unpacking a well-formed PPUCTRL gives the flags back. */
  lemma CtrlRoundTripFlags(c: PpuCtrl)
    requires c.WellFormed()
    ensures CtrlFrom(c.Value()) == c
  {
    assert Bv(2) == 0x04 && Bv(3) == 0x08 && Bv(4) == 0x10 && Bv(5) == 0x20 && Bv(6) == 0x40 && Bv(7) == 0x80;
    var v := c.Value();
    assert v & 0x03 == c.baseNametableAddress;
    assert (v & 0x04 != 0) == c.incMode && (v & 0x08 != 0) == c.spritePatternTable;
    assert (v & 0x10 != 0) == c.backgroundPatternTable && (v & 0x20 != 0) == c.spriteSize;
    assert (v & 0x40 != 0) == c.masterSlaveSelect && (v & 0x80 != 0) == c.nmiEnable;
  }

  /** The tests of regs.rs: 0xFF sets every flag, and the base selects $2000-$2C00. */
  lemma CtrlExamples()
    ensures CtrlFrom(0xFF) == PpuCtrl(3, true, true, true, true, true, true) && CtrlFrom(0xFF).Value() == 0xFF
    ensures CtrlFrom(0x00).Nametable() == 0x2000 && CtrlFrom(0x01).Nametable() == 0x2400
    ensures CtrlFrom(0x02).Nametable() == 0x2800 && CtrlFrom(0x03).Nametable() == 0x2C00
  {
  }

  datatype PpuStatus = PpuStatus(lsb: Byte, spriteOverflow: bool, sprite0Hit: bool, vblank: bool)
  {
    /** value(): `lsb` is ORed in unmasked, so it reaches the flag bits if it is above 0x1F. */
    function Value(): (r: Byte)
      ensures lsb <= 0x1F ==> r & 0x1F == lsb
      ensures lsb <= 0x1F ==> (r & 0x20 != 0 <==> spriteOverflow) && (r & 0x40 != 0 <==> sprite0Hit) && (r & 0x80 != 0 <==> vblank)
    {
      lsb | Shl(spriteOverflow, 5) | Shl(sprite0Hit, 6) | Shl(vblank, 7)
    }
  }

  /** The test of regs.rs: the three flags alone give 0xE0. */
  lemma StatusExample()
    ensures PpuStatus(0, true, true, true).Value() == 0xE0
  {
  }

  datatype PpuMask = PpuMask(
    greyscale: bool,
    showBackgroundLeft: bool,
    showSpritesLeft: bool,
    backgroundEnabled: bool,
    spritesEnabled: bool,
    emphasizeRed: bool,
    emphasizeGreen: bool,
    emphasizeBlue: bool)
  {
    /** value(): flag n packed into bit n. */
    function Value(): (r: Byte)
      ensures (r & 0x01 != 0 <==> greyscale) && (r & 0x02 != 0 <==> showBackgroundLeft)
      ensures (r & 0x04 != 0 <==> showSpritesLeft) && (r & 0x08 != 0 <==> backgroundEnabled)
      ensures (r & 0x10 != 0 <==> spritesEnabled) && (r & 0x20 != 0 <==> emphasizeRed)
      ensures (r & 0x40 != 0 <==> emphasizeGreen) && (r & 0x80 != 0 <==> emphasizeBlue)
    {
      Shl(greyscale, 0) | Shl(showBackgroundLeft, 1) | Shl(showSpritesLeft, 2) | Shl(backgroundEnabled, 3) |
      Shl(spritesEnabled, 4) | Shl(emphasizeRed, 5) | Shl(emphasizeGreen, 6) | Shl(emphasizeBlue, 7)
    }
  }

  /** PpuMask::from: flag i is bit i. */
  function MaskFrom(v: Byte): (m: PpuMask)
    ensures m.greyscale == BitIsSet(v, 0) && m.emphasizeBlue == BitIsSet(v, 7)
  {
    PpuMask(BitIsSet(v, 0), BitIsSet(v, 1), BitIsSet(v, 2), BitIsSet(v, 3),
            BitIsSet(v, 4), BitIsSet(v, 5), BitIsSet(v, 6), BitIsSet(v, 7))
  }

  /** Unpacking and packing PPUMASK gives the byte back. */
  lemma MaskRoundTrip(v: Byte)
    ensures MaskFrom(v).Value() == v
  {
    assert Bv(0) == 0x01 && Bv(1) == 0x02 && Bv(2) == 0x04 && Bv(3) == 0x08;
    assert Bv(4) == 0x10 && Bv(5) == 0x20 && Bv(6) == 0x40 && Bv(7) == 0x80;
    MaskPack(v, v & 0x01 != 0, v & 0x02 != 0, v & 0x04 != 0, v & 0x08 != 0,
             v & 0x10 != 0, v & 0x20 != 0, v & 0x40 != 0, v & 0x80 != 0);
  }

  lemma MaskPack(v: Byte, b0: bool, b1: bool, b2: bool, b3: bool, b4: bool, b5: bool, b6: bool, b7: bool)
    requires b0 == (v & 0x01 != 0) && b1 == (v & 0x02 != 0) && b2 == (v & 0x04 != 0) && b3 == (v & 0x08 != 0)
    requires b4 == (v & 0x10 != 0) && b5 == (v & 0x20 != 0) && b6 == (v & 0x40 != 0) && b7 == (v & 0x80 != 0)
    ensures PpuMask(b0, b1, b2, b3, b4, b5, b6, b7).Value() == v
  {
  }

  /** Packing and unpacking PPUMASK gives the flags back. */
  lemma MaskRoundTripFlags(m: PpuMask)
    ensures MaskFrom(m.Value()) == m
  {
    assert Bv(0) == 0x01 && Bv(1) == 0x02 && Bv(2) == 0x04 && Bv(3) == 0x08;
    assert Bv(4) == 0x10 && Bv(5) == 0x20 && Bv(6) == 0x40 && Bv(7) == 0x80;
    var v := m.Value();
    assert (v & 0x01 != 0) == m.greyscale && (v & 0x02 != 0) == m.showBackgroundLeft;
    assert (v & 0x04 != 0) == m.showSpritesLeft && (v & 0x08 != 0) == m.backgroundEnabled;
    assert (v & 0x10 != 0) == m.spritesEnabled && (v & 0x20 != 0) == m.emphasizeRed;
    assert (v & 0x40 != 0) == m.emphasizeGreen && (v & 0x80 != 0) == m.emphasizeBlue;
  }
}
