// Mapper 1, MMC1 (nescore/src/mapper/mmc1.rs). The CPU programs the four
// internal registers one bit at a time through a shift register: every write
// to $8000-$FFFF with bit 7 clear shifts bit 0 of the data in, and the fifth
// such write hands the assembled value to the register selected by the
// address. A write with bit 7 set resets the shift register and the control
// register.
//
// As written, the data bit enters at bit 5 and the assembled value is
// reduced to its bit 0 before it reaches the registers. The marker bit that
// counts the writes leaves through bit 0, so bit 0 of the assembled value is
// always clear: every register write stores 0 (ShiftOutputIsEven,
// WritesFromPowerOn).

module Mmc1 {
  import opened Bits
  import opened Results
  import Cart
  import Mem
  import opened MapperControl

  const PrgRamSize: nat := 0x2000
  const ShiftRegisterInit: Byte := 0x10

  datatype PrgRomBankMode = Switch32K | SwitchC000 | Switch8000
  datatype ChrRomBankMode = Switch8K | Switch4K

  /** The register file of the mapper (the mirroring enum of mmc1.rs has the same four values as the trait's). */
  datatype Registers = Registers(
    shift: Byte,
    mirroring: Mirroring,
    prgMode: PrgRomBankMode,
    chrMode: ChrRomBankMode,
    prgBank: nat,
    chrBank0: nat,
    chrBank1: nat)

  /** The state Mmc1::from leaves behind. */
  const PowerOn: Registers := Registers(ShiftRegisterInit, Vertical, Switch8000, Switch8K, 0, 0, 0)

  datatype ShiftResult = ShiftResult(shift: Byte, value: Option<Byte>)

  /**
   * load_shift_register: the data bit enters at bit 5; when the old register
   * had bit 0 set this was the final write, the shifted value is returned and
   * the register starts over.
   */
  function LoadShift(sr: Byte, data: Byte): (r: ShiftResult)
    ensures r.value.Some? <==> BitIsSet(sr, 0)
    ensures r.value.Some? ==> r.shift == ShiftRegisterInit && r.value.value == (sr >> 1) | ((data & 0x01) << 5)
    ensures r.value.None? ==> r.shift == (sr >> 1) | ((data & 0x01) << 5)
  {
    var next := (sr >> 1) | ((data & 0x01) << 5);
    if BitIsSet(sr, 0) then ShiftResult(ShiftRegisterInit, Some(next)) else ShiftResult(next, None)
  }

  /**
   * The shift register values reachable from 0x10: the marker bit at
   * position k (4 down to 0), zeros below it and at k + 1, and nothing above
   * bit 5.
   */
  ghost predicate ShiftReachable(sr: Byte)
  {
    sr & 0xC0 == 0 &&
    (sr == 0x10 || sr & 0x1F == 0x08 || sr & 0x0F == 0x04 || sr & 0x07 == 0x02 || sr & 0x03 == 0x01)
  }

  /** Loading keeps the shift register among the reachable values. */
  lemma LoadKeepsReachable(sr: Byte, data: Byte)
    requires ShiftReachable(sr)
    ensures ShiftReachable(LoadShift(sr, data).shift)
  {
    var d := data & 0x01;
    assert d == 0 || d == 1;
    if sr & 0x01 == 0 {
      ShiftStep(sr, d);
    }
  }

  lemma ShiftStep(sr: Byte, d: Byte)
    requires ShiftReachable(sr) && sr & 0x01 == 0 && d <= 1
    ensures ShiftReachable((sr >> 1) | (d << 5))
  {
  }

  /** The value a final write assembles has bit 0 clear: it is the old bit 1, which the marker left zero. */
  lemma ShiftOutputIsEven(sr: Byte, data: Byte)
    requires ShiftReachable(sr)
    ensures LoadShift(sr, data).value.Some? ==> LoadShift(sr, data).value.value & 0x01 == 0
  {
    if sr & 0x01 != 0 {
      FinalShiftEven(sr, data & 0x01);
    }
  }

  lemma FinalShiftEven(sr: Byte, d: Byte)
    requires ShiftReachable(sr) && sr & 0x01 != 0 && d <= 1
    ensures ((sr >> 1) | (d << 5)) & 0x01 == 0
  {
  }

  /**
   * Five writes from the initial register: the first four return nothing,
   * the fifth returns the data bits at positions 1 to 5 and resets the
   * register to 0x10.
   */
  lemma FiveWrites(d0: Byte, d1: Byte, d2: Byte, d3: Byte, d4: Byte)
    ensures var s1 := LoadShift(ShiftRegisterInit, d0);
            var s2 := LoadShift(s1.shift, d1);
            var s3 := LoadShift(s2.shift, d2);
            var s4 := LoadShift(s3.shift, d3);
            var s5 := LoadShift(s4.shift, d4);
            s1.value.None? && s2.value.None? && s3.value.None? && s4.value.None? &&
            s5.shift == ShiftRegisterInit &&
            s5.value == Some(((d0 & 1) << 1) | ((d1 & 1) << 2) | ((d2 & 1) << 3) | ((d3 & 1) << 4) | ((d4 & 1) << 5))
  {
    var s1 := LoadShift(ShiftRegisterInit, d0);
    assert s1.shift == 0x08 | ((d0 & 1) << 5);
    var s2 := LoadShift(s1.shift, d1);
    assert s2.shift == 0x04 | ((d0 & 1) << 4) | ((d1 & 1) << 5);
    var s3 := LoadShift(s2.shift, d2);
    assert s3.shift == 0x02 | ((d0 & 1) << 3) | ((d1 & 1) << 4) | ((d2 & 1) << 5);
    var s4 := LoadShift(s3.shift, d3);
    assert s4.shift == 0x01 | ((d0 & 1) << 2) | ((d1 & 1) << 3) | ((d2 & 1) << 4) | ((d3 & 1) << 5);
  }

  function MirroringOf(flags: Byte): (m: Mirroring)
    ensures m == OneScreenLower <==> flags & 0x03 == 0
    ensures m == OneScreenUpper <==> flags & 0x03 == 1
    ensures m == Vertical <==> flags & 0x03 == 2
    ensures m == Horizontal <==> flags & 0x03 == 3
  {
    var v := flags & 0x03;
    if v == 0 then OneScreenLower else if v == 1 then OneScreenUpper
    else if v == 2 then Vertical else Horizontal
  }

  function PrgModeOf(flags: Byte): (p: PrgRomBankMode)
    ensures p == Switch32K <==> flags & 0x08 == 0
    ensures p == SwitchC000 <==> flags & 0x0C == 0x08
    ensures p == Switch8000 <==> flags & 0x0C == 0x0C
  {
    var v := (flags >> 2) & 0x03;
    if v == 0 || v == 1 then Switch32K else if v == 2 then SwitchC000 else Switch8000
  }

  /** mask_is_set!(flags, 4) tests the mask 0x04, the same bit as the PRG mode's low bit, not bit 4. */
  function ChrModeOf(flags: Byte): (c: ChrRomBankMode)
    ensures c == Switch4K <==> flags & 0x04 != 0
  {
    if MaskIsSet(flags, 4) then Switch4K else Switch8K
  }

  /** The PRG bank size write_control gives the ROM: 32 KiB in 32K mode, 16 KiB otherwise. */
  function PrgSwitchSize(mode: PrgRomBankMode): (n: nat)
    ensures n == if mode == Switch32K then 2 * Cart.PrgRomBankSize else Cart.PrgRomBankSize
  {
    if mode == Switch32K then 0x8000 else 0x4000
  }

  /** write_control: the three mode fields, and nothing else of the register file. */
  function WriteControl(r: Registers, flags: Byte): (r': Registers)
    ensures r'.mirroring == MirroringOf(flags) && r'.prgMode == PrgModeOf(flags) && r'.chrMode == ChrModeOf(flags)
    ensures r'.(mirroring := r.mirroring, prgMode := r.prgMode, chrMode := r.chrMode) == r
  {
    r.(mirroring := MirroringOf(flags), prgMode := PrgModeOf(flags), chrMode := ChrModeOf(flags))
  }

  /** Only bits 0-3 of the control value matter. */
  lemma ControlIgnoresHighBits(r: Registers, flags: Byte)
    ensures WriteControl(r, flags) == WriteControl(r, flags & 0x0F)
  {
    assert (flags & 0x0F) & 0x03 == flags & 0x03;
    assert (flags & 0x0F) & 0x08 == flags & 0x08;
    assert (flags & 0x0F) & 0x0C == flags & 0x0C;
    assert (flags & 0x0F) & 0x04 == flags & 0x04;
  }

  /** write_registers: the register window of the address receives the value. */
  function WriteRegisters(r: Registers, addr: Addr, value: Byte): (r': Registers)
    ensures 0x8000 <= addr <= 0x9FFF ==> r' == WriteControl(r, value)
    ensures 0xA000 <= addr <= 0xBFFF ==> r' == r.(chrBank0 := (value & 0x1F) as nat)
    ensures 0xC000 <= addr <= 0xDFFF ==> r' == r.(chrBank1 := (value & 0x1F) as nat)
    ensures 0xE000 <= addr ==> r' == r.(prgBank := (value & 0x0F) as nat)
    ensures addr < 0x8000 ==> r' == r
    ensures r'.shift == r.shift
  {
    if addr < 0x8000 then r
    else if addr <= 0x9FFF then WriteControl(r, value)
    else if addr <= 0xBFFF then r.(chrBank0 := (value & 0x1F) as nat)
    else if addr <= 0xDFFF then r.(chrBank1 := (value & 0x1F) as nat)
    else r.(prgBank := (value & 0x0F) as nat)
  }

  /** The register file after write(addr, value). */
  function WriteSpec(r: Registers, addr: Addr, value: Byte): (r': Registers)
    ensures BitIsSet(value, 7) ==> r' == WriteControl(r.(shift := ShiftRegisterInit), 0x0C)
    ensures !BitIsSet(value, 7) && !BitIsSet(r.shift, 0) ==> r' == r.(shift := LoadShift(r.shift, value).shift)
    ensures !BitIsSet(value, 7) && BitIsSet(r.shift, 0) ==>
              r' == WriteRegisters(r.(shift := ShiftRegisterInit), addr, LoadShift(r.shift, value).value.value & 0x01)
  {
    if BitIsSet(value, 7) then WriteControl(r.(shift := ShiftRegisterInit), 0x0C)
    else
      var s := LoadShift(r.shift, value);
      match s.value
      case None => r.(shift := s.shift)
      case Some(v) => WriteRegisters(r.(shift := s.shift), addr, v & 0x01)
  }

  /** Whether write(addr, value) reaches write_control, and so re-slices the PRG ROM. */
  predicate WritesControl(r: Registers, addr: Addr, value: Byte)
  {
    BitIsSet(value, 7) || (BitIsSet(r.shift, 0) && 0x8000 <= addr <= 0x9FFF)
  }

  /** A reset write (bit 7 set) gives one-screen-lower mirroring, PRG mode 8000 and, through mask 0x04, CHR mode 4K. */
  lemma ResetWrite(r: Registers, addr: Addr, value: Byte)
    requires BitIsSet(value, 7)
    ensures var r' := WriteSpec(r, addr, value);
            r'.shift == 0x10 && r'.mirroring == OneScreenLower && r'.prgMode == Switch8000 && r'.chrMode == Switch4K
    ensures WriteSpec(r, addr, value).(shift := r.shift, mirroring := r.mirroring, prgMode := r.prgMode, chrMode := r.chrMode) == r
  {
  }

  /**
   * The register files reachable from power-on: a reachable shift register,
   * all three bank selections 0, and never the C000 PRG mode.
   */
  ghost predicate Reachable(r: Registers)
  {
    ShiftReachable(r.shift) && r.prgBank == 0 && r.chrBank0 == 0 && r.chrBank1 == 0 && r.prgMode != SwitchC000
  }

  /** Every write keeps the register file reachable, because every register write stores 0. */
  lemma WriteKeepsReachable(r: Registers, addr: Addr, value: Byte)
    requires Reachable(r)
    ensures Reachable(WriteSpec(r, addr, value))
  {
    if !BitIsSet(value, 7) {
      LoadKeepsReachable(r.shift, value);
      ShiftOutputIsEven(r.shift, value);
      var s := LoadShift(r.shift, value);
      if s.value.Some? {
        var zero := s.value.value & 0x01;
        assert zero == 0;
        assert PrgModeOf(zero) == Switch32K;
      }
    }
  }

  function WriteAll(r: Registers, writes: seq<(Addr, Byte)>): Registers
    decreases |writes|
  {
    if writes == [] then r else WriteAll(WriteSpec(r, writes[0].0, writes[0].1), writes[1..])
  }

  /** After any sequence of writes from power-on the bank selections are still 0. */
  lemma {:induction false} WritesFromPowerOn(writes: seq<(Addr, Byte)>)
    ensures Reachable(WriteAll(PowerOn, writes))
    ensures WriteAll(PowerOn, writes).prgBank == 0 && WriteAll(PowerOn, writes).chrBank0 == 0
  {
    ReachableAfter(PowerOn, writes);
  }

  lemma {:induction false} ReachableAfter(r: Registers, writes: seq<(Addr, Byte)>)
    requires Reachable(r)
    ensures Reachable(WriteAll(r, writes))
    decreases |writes|
  {
    if writes != [] {
      WriteKeepsReachable(r, writes[0].0, writes[0].1);
      ReachableAfter(WriteSpec(r, writes[0].0, writes[0].1), writes[1..]);
    }
  }

  class Mmc1 {
    const prgRom: Mem.Memory
    const prgRam: array<Byte>
    const chrRom: Mem.Memory
    var shift: Byte
    var mirroring: Mirroring
    var prgMode: PrgRomBankMode
    var chrMode: ChrRomBankMode
    var prgBank: nat
    var chrBank0: nat
    var chrBank1: nat

    function Regs(): Registers
      reads this
    {
      Registers(shift, mirroring, prgMode, chrMode, prgBank, chrBank0, chrBank1)
    }

    /** The PRG RAM is 8 KiB and its own buffer; the PRG ROM's bank size follows the PRG mode. */
    ghost predicate Valid()
      reads this, prgRom
    {
      prgRam.Length == PrgRamSize && prgRam != prgRom.mem &&
      prgRom != chrRom && prgRom.bankSize == PrgSwitchSize(prgMode)
    }

    /** Mmc1::from */
    constructor (cart: Cart.Cartridge)
      ensures Valid() && fresh(prgRom) && fresh(prgRom.mem) && fresh(prgRam) && fresh(chrRom)
      ensures Regs() == PowerOn
      ensures prgRam[..] == seq(PrgRamSize, _ => 0)
      ensures prgRom.mem[..] == cart.prgRom && prgRom.numBanks == cart.info.prgRomBanks
      ensures chrRom.mem[..] == cart.chrRom && chrRom.numBanks == cart.info.chrRomBanks
      ensures chrRom.bankSize == Cart.ChrRomBankSize
    {
      var (info, prg, chr, _) := Cart.IntoParts(cart);
      prgRom := new Mem.Memory(prg, info.prgRomBanks, Cart.PrgRomBankSize);
      prgRam := new Byte[PrgRamSize](_ => 0);
      chrRom := new Mem.Memory(chr, info.chrRomBanks, Cart.ChrRomBankSize);
      shift := ShiftRegisterInit;
      mirroring := Vertical;
      prgMode := Switch8000;
      chrMode := Switch8K;
      prgBank := 0;
      chrBank0 := 0;
      chrBank1 := 0;
    }

    /** The bank and index that read uses for an address of $8000-$FFFF. */
    function PrgWindow(addr: Addr): (int, int)
      requires 0x8000 <= addr
      reads this, prgRom
    {
      match prgMode
      case Switch32K => (prgBank, addr - 0x8000)
      case Switch8000 => if addr <= 0xBFFF then (prgBank, addr - 0x8000) else (prgRom.numBanks - 1, addr - 0xC000)
      case SwitchC000 => if addr <= 0xBFFF then (0, addr - 0x8000) else (prgBank, addr - 0xC000)
    }

    /** The preconditions of read: no panic below $6000, and the bank assertion of Memory. */
    predicate CanRead(addr: Addr)
      reads this, prgRom
    {
      0x6000 <= addr &&
      (0x8000 <= addr ==> PrgWindow(addr).0 >= 0 && PrgWindow(addr).1 >= 0 && prgRom.CanAccess(PrgWindow(addr).0, PrgWindow(addr).1))
    }

    function Read(addr: Addr): (r: Byte)
      requires Valid() && CanRead(addr)
      reads this, prgRom, prgRom.mem, prgRam
      ensures addr <= 0x7FFF ==> r == prgRam[addr - 0x6000]
      ensures 0x8000 <= addr && prgMode == Switch32K ==> r == prgRom.mem[prgBank * 0x8000 + (addr - 0x8000)]
      ensures 0x8000 <= addr <= 0xBFFF && prgMode == Switch8000 ==> r == prgRom.mem[prgBank * 0x4000 + (addr - 0x8000)]
      ensures 0xC000 <= addr && prgMode == Switch8000 ==> r == prgRom.mem[(prgRom.numBanks - 1) * 0x4000 + (addr - 0xC000)]
      ensures 0x8000 <= addr <= 0xBFFF && prgMode == SwitchC000 ==> r == prgRom.mem[addr - 0x8000]
      ensures 0xC000 <= addr && prgMode == SwitchC000 ==> r == prgRom.mem[prgBank * 0x4000 + (addr - 0xC000)]
    {
      if addr <= 0x7FFF then prgRam[addr - 0x6000]
      else
        match prgMode
        case Switch32K => prgRom.Read(prgBank, addr - 0x8000)
        case Switch8000 =>
          if addr <= 0xBFFF then prgRom.Read(prgBank, addr - 0x8000) else prgRom.ReadLast(addr - 0xC000)
        case SwitchC000 =>
          if addr <= 0xBFFF then prgRom.ReadFirst(addr - 0x8000) else prgRom.Read(prgBank, addr - 0xC000)
    }

    /** write: the register file moves by WriteSpec, the PRG ROM is re-sliced when control is written, RAM never changes. */
    method Write(addr: Addr, value: Byte)
      requires Valid()
      modifies this, prgRom
      ensures Valid()
      ensures Regs() == WriteSpec(old(Regs()), addr, value)
      ensures prgRam[..] == old(prgRam[..]) && prgRom.mem[..] == old(prgRom.mem[..])
      ensures WritesControl(old(Regs()), addr, value) ==> prgRom.numBanks == prgRom.mem.Length / prgRom.bankSize
      ensures !WritesControl(old(Regs()), addr, value) ==> prgRom.numBanks == old(prgRom.numBanks)
    {
      if BitIsSet(value, 7) {
        shift := ShiftRegisterInit;
        WriteControlRegister(0x0C);
      } else {
        var s := LoadShift(shift, value);
        shift := s.shift;
        if s.value.Some? {
          WriteRegisterWindow(addr, s.value.value & 0x01);
        }
      }
    }

    method WriteControlRegister(flags: Byte)
      requires prgRam != prgRom.mem && prgRom != chrRom && prgRam.Length == PrgRamSize
      modifies this, prgRom
      ensures Valid()
      ensures Regs() == WriteControl(old(Regs()), flags)
      ensures prgRom.numBanks == prgRom.mem.Length / prgRom.bankSize
    {
      mirroring := MirroringOf(flags);
      prgMode := PrgModeOf(flags);
      chrMode := ChrModeOf(flags);
      prgRom.SetBankSize(PrgSwitchSize(prgMode));
    }

    method WriteRegisterWindow(addr: Addr, value: Byte)
      requires Valid()
      modifies this, prgRom
      ensures Valid()
      ensures Regs() == WriteRegisters(old(Regs()), addr, value)
      ensures 0x8000 <= addr <= 0x9FFF ==> prgRom.numBanks == prgRom.mem.Length / prgRom.bankSize
      ensures !(0x8000 <= addr <= 0x9FFF) ==> prgRom.numBanks == old(prgRom.numBanks)
    {
      if 0x8000 <= addr <= 0x9FFF {
        WriteControlRegister(value);
      } else if 0xA000 <= addr <= 0xBFFF {
        chrBank0 := (value & 0x1F) as nat;
      } else if 0xC000 <= addr <= 0xDFFF {
        chrBank1 := (value & 0x1F) as nat;
      } else if 0xE000 <= addr {
        prgBank := (value & 0x0F) as nat;
      }
    }
  }
}
