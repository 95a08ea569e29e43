// The CPU's view of the address space (nescore/src/cpu/bus.rs). The bus
// holds references to the PPU and the mapper; the model returns where an
// access goes instead of performing it, so that the PPU and the mapper stay
// abstract.

module CpuBus {
  import opened Bits

  /** mirror_address: `base + addr % count`, with Rust's overflow and division panics as preconditions. */
  function MirrorAddress(addr: Addr, base: Addr, count: Addr): (r: Addr)
    requires count != 0
    requires base + addr % count < 0x1_0000
    ensures base <= r && r - base < count
    ensures r - base == addr % count
  {
    base + addr % count
  }

  /** The PPU register an address in $2000-$3FFF selects: the eight registers repeat every eight bytes. */
  function PpuRegister(addr: Addr): (r: Addr)
    requires 0x2000 <= addr <= 0x3FFF
    ensures 0x2000 <= r <= 0x2007
  {
    MirrorAddress(addr, 0x2000, 8)
  }

  /** Where a CPU read goes. */
  datatype ReadRoute =
    | PpuRead(reg: Addr)      // a PPU register
    | ApuIoRead               // $4000-$401F: reads as 0 in this revision
    | MapperRead(addr: Addr)  // cartridge space
    | InvalidRead             // the bus panics ("Invalid address range")

  /** Where a CPU write goes. */
  datatype WriteRoute =
    | PpuWrite(reg: Addr, data: Byte)
    | Dropped

  function ReadByte(addr: Addr): (r: ReadRoute)
    ensures r.PpuRead? <==> 0x2000 <= addr <= 0x3FFF
    ensures r.PpuRead? ==> 0x2000 <= r.reg <= 0x2007 && r.reg - 0x2000 == addr % 8
    ensures r.ApuIoRead? <==> 0x4000 <= addr <= 0x401F
    ensures r.MapperRead? <==> 0x4020 <= addr
    ensures r.MapperRead? ==> r.addr == addr
    ensures r.InvalidRead? <==> addr < 0x2000
  {
    if 0x2000 <= addr <= 0x3FFF then PpuRead(PpuRegister(addr))
    else if 0x4000 <= addr <= 0x401F then ApuIoRead
    else if 0x4020 <= addr then MapperRead(addr)
    else InvalidRead
  }

  /** The value a read returns, given how the PPU and the mapper answer. */
  function ReadValue(addr: Addr, ppu: Addr -> Byte, mapper: Addr -> Byte): (v: Byte)
    requires !ReadByte(addr).InvalidRead?
    ensures 0x4000 <= addr <= 0x401F ==> v == 0
    ensures 0x4020 <= addr ==> v == mapper(addr)
  {
    match ReadByte(addr)
    case PpuRead(reg) => ppu(reg)
    case ApuIoRead => 0
    case MapperRead(a) => mapper(a)
  }

  function WriteByte(addr: Addr, data: Byte): (r: WriteRoute)
    ensures 0x2000 <= addr <= 0x3FFF ==> r == PpuWrite(PpuRegister(addr), data)
    ensures addr == 0x4014 ==> r == PpuWrite(0x4014, data)
    ensures r.Dropped? <==> !(0x2000 <= addr <= 0x3FFF || addr == 0x4014)
  {
    if 0x2000 <= addr <= 0x3FFF then PpuWrite(PpuRegister(addr), data)
    else if addr == 0x4014 then PpuWrite(addr, data)
    else Dropped
  }

  /**
   * A write and a read at two addresses of $2000-$3FFF that agree modulo 8
   * reach the same PPU register, so a byte written through one mirror is
   * read back through every other.
   */
  lemma MirrorsShareRegister(w: Addr, r: Addr, data: Byte)
    requires 0x2000 <= w <= 0x3FFF && 0x2000 <= r <= 0x3FFF
    requires w % 8 == r % 8
    ensures ReadByte(r).PpuRead?
    ensures WriteByte(w, data) == PpuWrite(ReadByte(r).reg, data)
  {
  }

  /** The bus test: $2000 and $2008 are the same register, and so are $2007 and $200F. */
  lemma MirrorExamples()
    ensures MirrorAddress(0x2000, 0x2000, 8) == MirrorAddress(0x2008, 0x2000, 8)
    ensures ReadByte(0x200F) == PpuRead(0x2007)
  {
  }
}
