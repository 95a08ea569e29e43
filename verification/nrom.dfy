// Mapper 0, NROM (nescore/src/mapper/nrom.rs): 8 KiB of PRG RAM at
// $6000-$7FFF, the first 16 KiB PRG bank at $8000-$BFFF and, at $C000-$FFFF,
// the second bank or, on a one-bank cartridge, the first bank again.
//
// Nrom::from calls `to_parts()` and a two-argument `Memory::new`, neither of
// which is in this revision. `to_parts` is taken to be the first three
// components of `into_parts`, and the PRG ROM to be `prg_rom_banks` banks of
// 16 KiB.

module Nrom {
  import opened Bits
  import Cart
  import Mem

  const PrgRamSize: nat := 0x2000
  const ChrRomSize: nat := 0x2000

  class Nrom {
    const prgRom: Mem.Memory
    const prgRam: array<Byte>
    const chrRom: array<Byte>
    const mirrorRom: bool

    /** The buffers are the sizes the struct declares and none of them is another. */
    ghost predicate Valid()
      reads prgRom
    {
      prgRam.Length == PrgRamSize && chrRom.Length == ChrRomSize &&
      prgRom.bankSize == Cart.PrgRomBankSize &&
      prgRam != chrRom && prgRam != prgRom.mem && chrRom != prgRom.mem
    }

    /** Nrom::from: `copy_from_slice` panics unless the CHR ROM is exactly 8 KiB. */
    constructor (cart: Cart.Cartridge)
      requires |cart.chrRom| == ChrRomSize
      ensures Valid() && fresh(prgRam) && fresh(chrRom) && fresh(prgRom) && fresh(prgRom.mem)
      ensures prgRam[..] == seq(PrgRamSize, _ => 0) && chrRom[..] == cart.chrRom
      ensures prgRom.mem[..] == cart.prgRom
      ensures prgRom.numBanks == cart.info.prgRomBanks && prgRom.bankSize == Cart.PrgRomBankSize
      ensures mirrorRom <==> cart.info.prgRomBanks == 1
    {
      var (info, prg, chr, _) := Cart.IntoParts(cart);
      prgRom := new Mem.Memory(prg, info.prgRomBanks, Cart.PrgRomBankSize);
      prgRam := new Byte[PrgRamSize](_ => 0);
      chrRom := new Byte[ChrRomSize](i requires 0 <= i < ChrRomSize => chr[i]);
      mirrorRom := info.prgRomBanks == 1;
    }

    /** The bank $C000-$FFFF shows: bank 0 on a one-bank cartridge, bank 1 otherwise. */
    function UpperBank(): nat
    {
      if mirrorRom then 0 else 1
    }

    /** The preconditions of read: no panic below $6000, and the ROM bank exists. */
    predicate CanRead(addr: Addr)
      reads prgRom
    {
      0x6000 <= addr &&
      (0x8000 <= addr <= 0xBFFF ==> prgRom.CanAccess(0, addr - 0x8000)) &&
      (0xC000 <= addr ==> prgRom.CanAccess(UpperBank(), addr - 0xC000))
    }

    function Read(addr: Addr): (r: Byte)
      requires Valid() && CanRead(addr)
      reads prgRom, prgRom.mem, prgRam
      ensures addr <= 0x7FFF ==> r == prgRam[addr - 0x6000]
      ensures 0x8000 <= addr <= 0xBFFF ==> r == prgRom.mem[addr - 0x8000]
      ensures 0xC000 <= addr ==> r == prgRom.mem[UpperBank() * Cart.PrgRomBankSize + (addr - 0xC000)]
    {
      if addr <= 0x7FFF then prgRam[addr - 0x6000]
      else if addr <= 0xBFFF then prgRom.Read(0, addr - 0x8000)
      else prgRom.Read(UpperBank(), addr - 0xC000)
    }

    /** write: only the PRG RAM window is writable; everything else is ignored. */
    method Write(addr: Addr, value: Byte)
      requires Valid()
      modifies prgRam
      ensures 0x6000 <= addr <= 0x7FFF ==> prgRam[..] == old(prgRam[..])[addr - 0x6000 := value]
      ensures !(0x6000 <= addr <= 0x7FFF) ==> prgRam[..] == old(prgRam[..])
    {
      if 0x6000 <= addr <= 0x7FFF {
        prgRam[addr - 0x6000] := value;
      }
    }

    /** On a one-bank cartridge $C000-$FFFF mirrors $8000-$BFFF. */
    lemma UpperMirrorsLower(i: nat)
      requires Valid() && mirrorRom && i < 0x4000
      requires CanRead(0x8000 + i)
      ensures CanRead(0xC000 + i) && Read(0xC000 + i) == Read(0x8000 + i)
    {
    }
  }
}
