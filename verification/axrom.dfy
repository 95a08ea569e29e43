// Mapper 7, AxROM (nescore/src/mapper/axrom.rs): one switchable 32 KiB PRG
// bank at $8000-$FFFF, 8 KiB of CHR RAM, and a register bit that switches
// the nametables to one-screen (upper) mirroring.

module Axrom {
  import opened Bits
  import opened Results
  import Cart
  import Mem
  import opened MapperControl

  const PrgBankSize: nat := 0x8000
  const ChrRamSize: nat := 0x2000

  class Axrom {
    const prgRom: Mem.Memory
    const chrRam: array<Byte>
    var bankSelect: nat
    var singleScreenSelect: bool

    ghost predicate Valid()
      reads prgRom
    {
      chrRam.Length == ChrRamSize && chrRam != prgRom.mem && prgRom.bankSize == PrgBankSize
    }

    /** Axrom::from: the PRG ROM cut into 32 KiB banks, a zeroed CHR RAM, bank 0, no single screen. */
    constructor (cart: Cart.Cartridge)
      ensures Valid() && fresh(prgRom) && fresh(prgRom.mem) && fresh(chrRam)
      ensures prgRom.mem[..] == cart.prgRom && prgRom.numBanks == |cart.prgRom| / PrgBankSize
      ensures chrRam[..] == seq(ChrRamSize, _ => 0)
      ensures bankSelect == 0 && !singleScreenSelect
    {
      var (_, prg, _, _) := Cart.IntoParts(cart);
      prgRom := new Mem.Memory.OfBankSize(prg, PrgBankSize);
      chrRam := new Byte[ChrRamSize](_ => 0);
      bankSelect := 0;
      singleScreenSelect := false;
    }

    /** read panics at $8000-$FFFF when the selected bank is past the end: the selection is not reduced. */
    predicate CanRead(addr: Addr)
      reads this, prgRom
    {
      0x8000 <= addr ==> prgRom.CanAccess(bankSelect, addr - 0x8000)
    }

    function Read(addr: Addr): (r: Byte)
      requires Valid() && CanRead(addr)
      reads this, prgRom, prgRom.mem
      ensures 0x8000 <= addr ==> r == prgRom.mem[bankSelect * prgRom.bankSize + (addr - 0x8000)]
      ensures addr < 0x8000 ==> r == 0
    {
      if 0x8000 <= addr then prgRom.Read(bankSelect, addr - 0x8000) else 0
    }

    /** write: $8000-$FFFF selects bank `data & 7` and one-screen mirroring from bit 4; lower writes are ignored. */
    method Write(addr: Addr, data: Byte)
      modifies this
      ensures 0x8000 <= addr ==> bankSelect == (data & 0x07) as nat && (singleScreenSelect <==> data & 0x10 != 0)
      ensures addr < 0x8000 ==> bankSelect == old(bankSelect) && singleScreenSelect == old(singleScreenSelect)
    {
      if 0x8000 <= addr {
        bankSelect := (data & 0x07) as nat;
        singleScreenSelect := data & 0x10 != 0;
      }
    }

    /** read_chr indexes the 8 KiB CHR RAM directly; a larger address panics. */
    function ReadChr(addr: Addr): (r: Byte)
      requires Valid() && addr < ChrRamSize
      reads prgRom, chrRam
    {
      chrRam[addr]
    }

    /** write_chr: one byte of CHR RAM changes, and read_chr gives it back. */
    method WriteChr(addr: Addr, value: Byte)
      requires Valid() && addr < ChrRamSize
      modifies chrRam
      ensures chrRam[..] == old(chrRam[..])[addr := value]
      ensures ReadChr(addr) == value
      ensures forall a: Addr :: a < ChrRamSize && a != addr ==> ReadChr(a) == old(ReadChr(a))
    {
      chrRam[addr] := value;
    }

    /** mirroring: the register bit forces one-screen upper mirroring; otherwise the header decides. */
    function Mirroring(): (m: Option<Mirroring>)
      reads this
      ensures m.Some? <==> singleScreenSelect
      ensures m.Some? ==> m.value == OneScreenUpper
    {
      if singleScreenSelect then Some(OneScreenUpper) else None
    }
  }

  /** A write with bit 4 set turns one-screen mirroring on; one with bit 4 clear turns it off again. */
  method MirroringFollowsWrites(x: Axrom, data: Byte) returns (on: Option<Mirroring>, off: Option<Mirroring>)
    modifies x
    ensures on == Some(OneScreenUpper) && off == None
    ensures x.bankSelect == (data & 0x07) as nat
  {
    x.Write(0xFFFF, data | 0x10);
    on := x.Mirroring();
    x.Write(0x8000, data & 0xEF);
    off := x.Mirroring();
    assert (data & 0xEF) & 0x07 == data & 0x07;
  }
}
