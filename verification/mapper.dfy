// Mapper selection (nescore/src/mapper/mapper.rs): the iNES mapper number
// chooses the implementation, which is then wrapped in MapperBase.

module Mapper {
  import opened Bits
  import opened Results
  import Cart
  import opened MapperControl
  import opened MapperBase
  import Nrom

  /** from_cartridge's match: 0, 1, 2, 3 and 7 are implemented, anything else panics. */
  function MapperKindOf(id: nat): (k: Option<MapperKind>)
    ensures k.Some? <==> id in {0, 1, 2, 3, 7}
    ensures k == Some(NromKind) <==> id == 0
    ensures k == Some(Mmc1Kind) <==> id == 1
    ensures k == Some(UnromKind) <==> id == 2
    ensures k == Some(CnromKind) <==> id == 3
    ensures k == Some(AxromKind) <==> id == 7
  {
    if id == 0 then Some(NromKind)
    else if id == 1 then Some(Mmc1Kind)
    else if id == 2 then Some(UnromKind)
    else if id == 3 then Some(CnromKind)
    else if id == 7 then Some(AxromKind)
    else None
  }

  /** from_cartridge: the mapper the header names, wrapped in MapperBase with zeroed VRAM. */
  method FromCartridge(cart: Cart.Cartridge) returns (m: MapperBase)
    requires MapperKindOf(cart.info.mapper).Some?
    requires cart.info.mapper == 0 ==> |cart.chrRom| == Nrom.ChrRomSize
    ensures fresh(m) && m.Valid()
    ensures Some(m.mapper.Kind()) == MapperKindOf(cart.info.mapper)
    ensures m.mirrorV == cart.info.mirrorV && m.fourScreen == cart.info.fourScreenMode
  {
    var kind := MapperKindOf(cart.info.mapper).value;
    m := new MapperBase(kind, cart);
  }

  /** The nametable test of base.rs: whatever the mirroring, a byte written at $2000 + i reads back at $3000 + i. */
  method NametableRoundTrip(m: MapperBase, i: nat, value: Byte) returns (r: Byte)
    requires m.Valid() && i < 0x400
    modifies m.nametable, m.palette, if m.mapper.AxromInner? then {m.mapper.axrom.chrRam} else {}
    ensures r == value
  {
    m.WriteChr(0x2000 + i, value);
    m.UpperNametablesMirror(i);
    r := m.ReadChr(0x3000 + i);
  }

  /** The palette tests of base.rs: writes at $3F00 + i read back at $3F20 + i, and $3F10 is $3F00. */
  method PaletteRoundTrip(m: MapperBase, i: nat, value: Byte) returns (mirrored: Byte, backdrop: Byte)
    requires m.Valid() && i < 0x20
    modifies m.nametable, m.palette, if m.mapper.AxromInner? then {m.mapper.axrom.chrRam} else {}
    ensures mirrored == value & 0x3F && backdrop == value & 0x3F
  {
    m.WriteChr(0x3F00 + i, value);
    PaletteRepeats(0x3F00 + i);
    mirrored := m.ReadChr(0x3F20 + i);
    m.WriteChr(0x3F10, value);
    PaletteAliases(0);
    backdrop := m.ReadChr(0x3F00);
  }
}
