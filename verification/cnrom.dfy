// Mapper 3, CNROM (nescore/src/mapper/cnrom.rs): fixed PRG ROM (the last
// 16 KiB bank at $C000-$FFFF; at $8000-$BFFF the last bank again on a
// one-bank cartridge, the first bank otherwise) and a switchable 8 KiB CHR
// ROM bank at PPU $0000-$1FFF.

module Cnrom {
  import opened Bits
  import Cart
  import Mem

  class Cnrom {
    const prgRom: Mem.Memory
    const chrRom: Mem.Memory
    var chrRomBank: nat
    const prgRomBanks: nat

    /** Both ROMs keep the bank sizes they were built with. */
    ghost predicate Valid()
      reads prgRom, chrRom
    {
      prgRom != chrRom && prgRom.bankSize == Cart.PrgRomBankSize && chrRom.bankSize == Cart.ChrRomBankSize
    }

    /** Cnrom::from: both ROMs cut into as many whole banks as fit; the header's PRG bank count is kept aside. */
    constructor (cart: Cart.Cartridge)
      ensures Valid() && fresh(prgRom) && fresh(chrRom)
      ensures prgRom.mem[..] == cart.prgRom && prgRom.numBanks == |cart.prgRom| / Cart.PrgRomBankSize
      ensures chrRom.mem[..] == cart.chrRom && chrRom.numBanks == |cart.chrRom| / Cart.ChrRomBankSize
      ensures chrRomBank == 0 && prgRomBanks == cart.info.prgRomBanks
    {
      var (info, prg, chr, _) := Cart.IntoParts(cart);
      prgRom := new Mem.Memory.OfBankSize(prg, Cart.PrgRomBankSize);
      chrRom := new Mem.Memory.OfBankSize(chr, Cart.ChrRomBankSize);
      chrRomBank := 0;
      prgRomBanks := info.prgRomBanks;
    }

    /** Whether $8000-$BFFF shows the last bank rather than the first. */
    predicate LowerIsLast()
    {
      prgRomBanks == 1
    }

    /** The preconditions of read: the bank assertion of Memory and the buffer bound. */
    predicate CanRead(addr: Addr)
      reads prgRom
    {
      (0xC000 <= addr ==> prgRom.numBanks > 0 && prgRom.CanAccess(prgRom.numBanks - 1, addr - 0xC000)) &&
      (0x8000 <= addr < 0xC000 && LowerIsLast() ==> prgRom.numBanks > 0 && prgRom.CanAccess(prgRom.numBanks - 1, addr - 0x8000)) &&
      (0x8000 <= addr < 0xC000 && !LowerIsLast() ==> prgRom.CanAccess(0, addr - 0x8000))
    }

    function Read(addr: Addr): (r: Byte)
      requires Valid() && CanRead(addr)
      reads this, prgRom, chrRom, prgRom.mem
      ensures 0xC000 <= addr ==> r == prgRom.mem[(prgRom.numBanks - 1) * prgRom.bankSize + (addr - 0xC000)]
      ensures 0x8000 <= addr < 0xC000 && LowerIsLast() ==> r == prgRom.mem[(prgRom.numBanks - 1) * prgRom.bankSize + (addr - 0x8000)]
      ensures 0x8000 <= addr < 0xC000 && !LowerIsLast() ==> r == prgRom.mem[addr - 0x8000]
      ensures addr < 0x8000 ==> r == 0
    {
      if 0xC000 <= addr then prgRom.ReadLast(addr - 0xC000)
      else if 0x8000 <= addr then
        if LowerIsLast() then prgRom.ReadLast(addr - 0x8000) else prgRom.ReadFirst(addr - 0x8000)
      else 0
    }

    /** write: $8000-$FFFF selects CHR bank `data & 3`; lower writes are ignored. */
    method Write(addr: Addr, data: Byte)
      modifies this
      ensures 0x8000 <= addr ==> chrRomBank == (data & 0x03) as nat
      ensures addr < 0x8000 ==> chrRomBank == old(chrRomBank)
      ensures chrRomBank < 4 || chrRomBank == old(chrRomBank)
    {
      if 0x8000 <= addr {
        chrRomBank := (data & 0x03) as nat;
      }
    }

    /** read_chr panics when the selected bank is past the end: the selection is not reduced modulo the bank count. */
    predicate CanReadChr(addr: Addr)
      reads this, chrRom
    {
      addr <= 0x1FFF ==> chrRom.CanAccess(chrRomBank, addr)
    }

    function ReadChr(addr: Addr): (r: Byte)
      requires Valid() && CanReadChr(addr)
      reads this, prgRom, chrRom, chrRom.mem
      ensures addr <= 0x1FFF ==> r == chrRom.mem[chrRomBank * chrRom.bankSize + addr]
      ensures 0x2000 <= addr ==> r == 0
    {
      if addr <= 0x1FFF then chrRom.Read(chrRomBank, addr) else 0
    }

    /** write_chr: there is no CHR RAM; nothing changes. */
    method WriteChr(addr: Addr, value: Byte)
    {
    }
  }

  /**
   * The tests of cnrom.rs: with a one-bank header $8000 and $C000 both show
   * the last bank; after selecting CHR bank 1 the pattern table shows the
   * second 8 KiB of CHR ROM.
   */
  method CnromExamples() returns (lower: Byte, upper: Byte, chrBefore: Byte, chrAfter: Byte)
    ensures lower == 0xDE && upper == 0xDE
    ensures chrBefore == 0xAD && chrAfter == 0xEF
  {
    var prg: seq<Byte> := seq(2 * Cart.PrgRomBankSize, i => if i == Cart.PrgRomBankSize then 0xDE else 0);
    var chr: seq<Byte> := seq(4 * Cart.ChrRomBankSize, i =>
      if i == Cart.ChrRomBankSize - 1 then 0xAD else if i == 2 * Cart.ChrRomBankSize - 1 then 0xEF else 0);
    var info := Cart.CartridgeInfo(Cart.INES, 1, 4, 3, false, false, false, false, false, false, false, 0, 0, 0, 0, 0, 0, 0);
    var c := new Cnrom(Cart.Cartridge(info, prg, chr, []));
    lower := c.Read(0x8000);
    upper := c.Read(0xC000);
    chrBefore := c.ReadChr(0x1FFF);
    c.Write(0x8000, 0x01);
    chrAfter := c.ReadChr(0x1FFF);
  }

  /**
   * The `prg_32k` test of cnrom.rs: with a two-bank header $8000-$BFFF show
   * the first bank and $C000-$FFFF the last.
   */
  method CnromPrg32kExample() returns (first: Byte, firstEnd: Byte, last: Byte, lastEnd: Byte)
    ensures first == 0xDE && firstEnd == 0xAD
    ensures last == 0xBE && lastEnd == 0xEF
  {
    var prg: seq<Byte> := seq(2 * Cart.PrgRomBankSize, i =>
      if i == 0 then 0xDE else if i == Cart.PrgRomBankSize - 1 then 0xAD
      else if i == Cart.PrgRomBankSize then 0xBE else if i == 2 * Cart.PrgRomBankSize - 1 then 0xEF else 0);
    var chr: seq<Byte> := seq(Cart.ChrRomBankSize, _ => 0);
    var info := Cart.CartridgeInfo(Cart.INES, 2, 1, 3, false, false, false, false, false, false, false, 0, 0, 0, 0, 0, 0, 0);
    var c := new Cnrom(Cart.Cartridge(info, prg, chr, []));
    first := c.Read(0x8000);
    firstEnd := c.Read(0xBFFF);
    last := c.Read(0xC000);
    lastEnd := c.Read(0xFFFF);
  }
}
