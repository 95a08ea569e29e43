// The part every mapper shares (nescore/src/mapper/base.rs): MapperBase
// wraps the cartridge's own mapper, passes PRG accesses and pattern-table
// accesses ($0000-$1FFF) through to it, and keeps the PPU's nametable RAM
// (4 KiB) and palette RAM (32 bytes) itself.
//
// Two indexing bugs are logged here and corrected in the model: in
// four-screen mode the nametable index is the raw address, past the end of
// the 4 KiB buffer; and $3F40-$3FFF index past the end of the palette RAM,
// because only one 32-byte mirror is folded back.

module MapperBase {
  import opened Bits
  import opened Results
  import Cart
  import opened MapperControl
  import Nrom
  import Mmc1
  import Unrom
  import Cnrom
  import Axrom

  const NametableRamSize: nat := 0x1000
  const PaletteRamSize: nat := 32

  /**
   * calc_nametable_idx: the offset of the address inside its 1 KiB table
   * plus the table's buffer, 0 or 1 KiB. Vertical mirroring pairs tables
   * 0x800 apart, horizontal mirroring tables 0x400 apart; the one-screen
   * modes use the first buffer for everything. Vertical and horizontal
   * mirroring panic outside $2000-$2FFF.
   */
  function CalcNametableIdx(addr: Addr, m: Mirroring): (r: Option<nat>)
    ensures r.Some? <==> m == OneScreenLower || m == OneScreenUpper || 0x2000 <= addr <= 0x2FFF
    ensures r.Some? ==> r.value % 0x400 == addr % 0x400 && r.value < 0x800
    ensures r.Some? && m == Vertical ==> (r.value >= 0x400 <==> (addr / 0x400) % 2 == 1)
    ensures r.Some? && m == Horizontal ==> (r.value >= 0x400 <==> (addr / 0x800) % 2 == 1)
    ensures r.Some? && (m == OneScreenLower || m == OneScreenUpper) ==> r.value < 0x400
  {
    var idx := addr % 0x400;
    match m
    case Vertical =>
      if 0x2000 <= addr <= 0x23FF || 0x2800 <= addr <= 0x2BFF then Some(idx)
      else if 0x2400 <= addr <= 0x27FF || 0x2C00 <= addr <= 0x2FFF then Some(0x400 + idx)
      else None
    case Horizontal =>
      if 0x2000 <= addr <= 0x23FF || 0x2400 <= addr <= 0x27FF then Some(idx)
      else if 0x2800 <= addr <= 0x2BFF || 0x2C00 <= addr <= 0x2FFF then Some(0x400 + idx)
      else None
    case OneScreenLower => Some(idx)
    case OneScreenUpper => Some(idx)
  }

  /** The tests of calc_nametable_idx, at the start of each of the four tables. */
  lemma NametableIdxExamples()
    ensures CalcNametableIdx(0x2000, Horizontal) == Some(0) && CalcNametableIdx(0x2400, Horizontal) == Some(0)
    ensures CalcNametableIdx(0x2800, Horizontal) == Some(0x400) && CalcNametableIdx(0x2C00, Horizontal) == Some(0x400)
    ensures CalcNametableIdx(0x2000, Vertical) == Some(0) && CalcNametableIdx(0x2400, Vertical) == Some(0x400)
    ensures CalcNametableIdx(0x2800, Vertical) == Some(0) && CalcNametableIdx(0x2C00, Vertical) == Some(0x400)
    ensures CalcNametableIdx(0x2C00, OneScreenLower) == Some(0)
  {
  }

  /** apply_mirroring as written: in four-screen mode the index is the address itself. */
  function ApplyMirroringAsWritten(fourScreen: bool, m: Mirroring, addr: Addr): nat
    requires 0x2000 <= addr <= 0x2FFF
  {
    if fourScreen then addr else CalcNametableIdx(addr, m).value
  }

  /** Every four-screen nametable access indexes past the end of the 4 KiB buffer, and so panics. */
  lemma FourScreenAsWrittenOverflows(m: Mirroring, addr: Addr)
    requires 0x2000 <= addr <= 0x2FFF
    ensures ApplyMirroringAsWritten(true, m, addr) >= NametableRamSize
    ensures !FourScreenIndexFits(ApplyMirroringAsWritten(true, m, 0x2000))
  {
  }

  predicate FourScreenIndexFits(i: nat)
  {
    i < NametableRamSize
  }

  /**
   * apply_mirroring, corrected: in four-screen mode each of the four tables
   * has its own kilobyte, at the address's offset from $2000.
   */
  function ApplyMirroring(fourScreen: bool, m: Mirroring, addr: Addr): (i: nat)
    requires 0x2000 <= addr <= 0x2FFF
    ensures i < NametableRamSize
    ensures !fourScreen ==> i == ApplyMirroringAsWritten(false, m, addr) && i < 0x800
    ensures fourScreen ==> i + 0x2000 == addr
  {
    if fourScreen then addr - 0x2000 else CalcNametableIdx(addr, m).value
  }

  /** With four-screen mode the 4 KiB of nametable addresses never share a byte. */
  lemma FourScreenSeparate(m: Mirroring, a: Addr, b: Addr)
    requires 0x2000 <= a <= 0x2FFF && 0x2000 <= b <= 0x2FFF && a != b
    ensures ApplyMirroring(true, m, a) != ApplyMirroring(true, m, b)
  {
  }

  /** Vertical mirroring: $2000 and $2800 (and $2400 and $2C00) are the same byte. */
  lemma VerticalPairs(a: Addr)
    requires 0x2000 <= a <= 0x27FF
    ensures ApplyMirroring(false, Vertical, a) == ApplyMirroring(false, Vertical, a + 0x800)
  {
    assert (a + 0x800) % 0x400 == a % 0x400;
    assert ((a + 0x800) / 0x400) % 2 == (a / 0x400) % 2;
  }

  /** Horizontal mirroring: $2000 and $2400 (and $2800 and $2C00) are the same byte. */
  lemma HorizontalPairs(a: Addr)
    requires 0x2000 <= a <= 0x23FF || 0x2800 <= a <= 0x2BFF
    ensures ApplyMirroring(false, Horizontal, a) == ApplyMirroring(false, Horizontal, a + 0x400)
  {
    assert (a + 0x400) % 0x400 == a % 0x400;
    assert ((a + 0x400) / 0x800) % 2 == (a / 0x800) % 2;
  }

  /** Vertical mirroring keeps the two horizontally adjacent tables apart. */
  lemma VerticalSeparatesNeighbours(a: Addr)
    requires 0x2000 <= a <= 0x23FF || 0x2800 <= a <= 0x2BFF
    ensures ApplyMirroring(false, Vertical, a) != ApplyMirroring(false, Vertical, a + 0x400)
  {
    assert ((a + 0x400) / 0x400) % 2 != (a / 0x400) % 2;
  }

  /** get_mirroring_type: the mapper's own mirroring wins; otherwise the header's mirror_v flag decides. */
  function MirroringTypeOf(fromMapper: Option<Mirroring>, mirrorV: bool): (m: Mirroring)
    ensures fromMapper.Some? ==> m == fromMapper.value
    ensures fromMapper.None? ==> (m == Vertical <==> mirrorV) && (m == Horizontal <==> !mirrorV)
  {
    match fromMapper
    case Some(m) => m
    case None => if mirrorV then Vertical else Horizontal
  }

  /** mirror_palette: the backdrop entries of the sprite palettes, $3F10/$3F14/$3F18/$3F1C, fold onto $3F00/$3F04/$3F08/$3F0C. */
  function MirrorPalette(addr: Addr): (r: Addr)
    ensures 0x3F10 <= addr <= 0x3F1F && addr % 4 == 0 ==> r + 0x10 == addr
    ensures !(0x3F10 <= addr <= 0x3F1F && addr % 4 == 0) ==> r == addr
  {
    if addr == 0x3F10 || addr == 0x3F14 || addr == 0x3F18 || addr == 0x3F1C then addr - 0x10 else addr
  }

  /** The palette index of read_chr and write_chr as written: $3F20-$3FFF are moved down by one mirror only. */
  function PaletteIndexAsWritten(addr: Addr): int
    requires 0x3F00 <= addr <= 0x3FFF
  {
    if addr <= 0x3F1F then MirrorPalette(addr) - 0x3F00 else MirrorPalette(addr - 0x20) - 0x3F00
  }

  /** From $3F40 on, the index is past the 32 bytes of palette RAM, and the access panics. */
  lemma PaletteAsWrittenOverflows(addr: Addr)
    requires 0x3F40 <= addr <= 0x3FFF
    ensures PaletteIndexAsWritten(addr) >= PaletteRamSize as int
    ensures PaletteIndexAsWritten(0x3F40) == 32
  {
  }

  /** The palette index, corrected: every 32-byte block of $3F00-$3FFF mirrors the first. */
  function PaletteIndex(addr: Addr): (i: nat)
    requires 0x3F00 <= addr <= 0x3FFF
    ensures i < PaletteRamSize
    ensures addr <= 0x3F3F ==> i == PaletteIndexAsWritten(addr)
    ensures i == (addr - 0x3F00) % 32 || i + 0x10 == (addr - 0x3F00) % 32
  {
    MirrorPalette(0x3F00 + (addr - 0x3F00) % 32) - 0x3F00
  }

  /** $3F10/$3F14/$3F18/$3F1C name the same bytes as $3F00/$3F04/$3F08/$3F0C. */
  lemma PaletteAliases(k: nat)
    requires k < 4
    ensures PaletteIndex(0x3F10 + 4 * k) == PaletteIndex(0x3F00 + 4 * k)
  {
  }

  /** The palette repeats every 32 bytes up to $3FFF. */
  lemma PaletteRepeats(addr: Addr)
    requires 0x3F00 <= addr <= 0x3FDF
    ensures PaletteIndex(addr + 0x20) == PaletteIndex(addr)
  {
    assert (addr + 0x20 - 0x3F00) % 32 == (addr - 0x3F00) % 32;
  }

  /** Apart from the four aliases, distinct palette entries have distinct bytes. */
  lemma PaletteEntriesDistinct(a: Addr, b: Addr)
    requires 0x3F00 <= a <= 0x3F1F && 0x3F00 <= b <= 0x3F1F && a != b
    requires MirrorPalette(a) == a && MirrorPalette(b) == b
    ensures PaletteIndex(a) != PaletteIndex(b)
  {
  }

  /** The type parameter of MapperBase: which cartridge mapper it wraps. */
  datatype MapperKind = NromKind | Mmc1Kind | UnromKind | CnromKind | AxromKind

  datatype Inner =
    | NromInner(nrom: Nrom.Nrom)
    | Mmc1Inner(mmc1: Mmc1.Mmc1)
    | UnromInner(unrom: Unrom.Unrom)
    | CnromInner(cnrom: Cnrom.Cnrom)
    | AxromInner(axrom: Axrom.Axrom)
  {
    function Kind(): MapperKind
    {
      match this
      case NromInner(_) => NromKind
      case Mmc1Inner(_) => Mmc1Kind
      case UnromInner(_) => UnromKind
      case CnromInner(_) => CnromKind
      case AxromInner(_) => AxromKind
    }

    /** The objects that make up the wrapped mapper. */
    ghost function Repr(): set<object>
    {
      match this
      case NromInner(n) => {n, n.prgRom, n.prgRom.mem, n.prgRam, n.chrRom}
      case Mmc1Inner(m) => {m, m.prgRom, m.prgRom.mem, m.prgRam, m.chrRom, m.chrRom.mem}
      case UnromInner(u) => {u}
      case CnromInner(c) => {c, c.prgRom, c.prgRom.mem, c.chrRom, c.chrRom.mem}
      case AxromInner(x) => {x, x.prgRom, x.prgRom.mem, x.chrRam}
    }

    ghost predicate Valid()
      reads Repr()
    {
      match this
      case NromInner(n) => n.Valid()
      case Mmc1Inner(m) => m.Valid()
      case UnromInner(_) => true
      case CnromInner(c) => c.Valid()
      case AxromInner(x) => x.Valid()
    }

    /** The preconditions of the wrapped mapper's read. */
    predicate CanRead(addr: Addr)
      reads Repr()
    {
      match this
      case NromInner(n) => n.CanRead(addr)
      case Mmc1Inner(m) => m.CanRead(addr)
      case UnromInner(_) => true
      case CnromInner(c) => c.CanRead(addr)
      case AxromInner(x) => x.CanRead(addr)
    }

    function Read(addr: Addr): Byte
      requires Valid() && CanRead(addr)
      reads Repr()
    {
      match this
      case NromInner(n) => n.Read(addr)
      case Mmc1Inner(m) => m.Read(addr)
      case UnromInner(u) => u.Read(addr)
      case CnromInner(c) => c.Read(addr)
      case AxromInner(x) => x.Read(addr)
    }

    /** mirroring(): only AxROM overrides the trait's default of None. */
    function Mirroring(): (r: Option<Mirroring>)
      reads Repr()
      ensures r.Some? ==> this.AxromInner? && r.value == OneScreenUpper
      ensures this.AxromInner? ==> (r.Some? <==> this.axrom.singleScreenSelect)
    {
      match this
      case AxromInner(x) => x.Mirroring()
      case _ => None
    }

    /** Whether the wrapped mapper has a pattern-table read for this address (CNROM and AxROM do in this revision). */
    predicate CanReadChr(addr: Addr)
      reads Repr()
    {
      addr <= 0x1FFF &&
      match this
      case CnromInner(c) => c.CanReadChr(addr)
      case AxromInner(_) => true
      case _ => false
    }
  }

  class MapperBase {
    const mapper: Inner
    const nametable: array<Byte>
    const palette: array<Byte>
    const mirrorV: bool
    const fourScreen: bool

    ghost predicate Valid()
      reads mapper.Repr()
    {
      nametable.Length == NametableRamSize && palette.Length == PaletteRamSize && nametable != palette &&
      nametable !in mapper.Repr() && palette !in mapper.Repr() && mapper.Valid()
    }

    /** MapperBase::from: the wrapped mapper built from the cartridge, zeroed VRAM, the header's mirroring flags. */
    constructor (kind: MapperKind, cart: Cart.Cartridge)
      requires kind == NromKind ==> |cart.chrRom| == Nrom.ChrRomSize
      ensures Valid() && mapper.Kind() == kind
      ensures nametable[..] == seq(NametableRamSize, _ => 0) && palette[..] == seq(PaletteRamSize, _ => 0)
      ensures mirrorV == cart.info.mirrorV && fourScreen == cart.info.fourScreenMode
    {
      match kind {
        case NromKind =>
          var n := new Nrom.Nrom(cart);
          mapper := NromInner(n);
        case Mmc1Kind =>
          var m := new Mmc1.Mmc1(cart);
          mapper := Mmc1Inner(m);
        case UnromKind =>
          var u := new Unrom.Unrom(cart);
          mapper := UnromInner(u);
        case CnromKind =>
          var c := new Cnrom.Cnrom(cart);
          mapper := CnromInner(c);
        case AxromKind =>
          var x := new Axrom.Axrom(cart);
          mapper := AxromInner(x);
      }
      nametable := new Byte[NametableRamSize](_ => 0);
      palette := new Byte[PaletteRamSize](_ => 0);
      mirrorV := cart.info.mirrorV;
      fourScreen := cart.info.fourScreenMode;
    }

    /** get_mirroring_type */
    function MirroringType(): Mirroring
      reads mapper.Repr()
    {
      MirroringTypeOf(mapper.Mirroring(), mirrorV)
    }

    /** The nametable byte of a VRAM address; $3000-$3EFF are $2000-$2EFF again. */
    function NametableIndex(addr: Addr): (i: nat)
      requires 0x2000 <= addr <= 0x3EFF
      reads mapper.Repr()
      ensures i < NametableRamSize
    {
      ApplyMirroring(fourScreen, MirroringType(), if addr <= 0x2FFF then addr else addr - 0x1000)
    }

    /** $3000-$3EFF mirror $2000-$2EFF. */
    lemma UpperNametablesMirror(i: nat)
      requires i < 0xF00
      ensures NametableIndex(0x3000 + i) == NametableIndex(0x2000 + i)
    {
    }

    /** read_chr: panics above $3FFF and, through the wrapped mapper, on the pattern tables it cannot serve. */
    predicate CanReadChr(addr: Addr)
      reads mapper.Repr()
    {
      addr <= 0x3FFF && (addr <= 0x1FFF ==> mapper.CanReadChr(addr))
    }

    function ReadChr(addr: Addr): (r: Byte)
      requires Valid() && CanReadChr(addr)
      reads mapper.Repr(), nametable, palette
      ensures 0x2000 <= addr <= 0x3EFF ==> r == nametable[NametableIndex(addr)]
      ensures 0x3F00 <= addr ==> r == palette[PaletteIndex(addr)]
      ensures addr <= 0x1FFF && mapper.CnromInner? ==> r == mapper.cnrom.ReadChr(addr)
      ensures addr <= 0x1FFF && mapper.AxromInner? ==> r == mapper.axrom.chrRam[addr]
    {
      if addr <= 0x1FFF then
        if mapper.CnromInner? then mapper.cnrom.ReadChr(addr) else mapper.axrom.ReadChr(addr)
      else if addr <= 0x3EFF then nametable[NametableIndex(addr)]
      else palette[PaletteIndex(addr)]
    }

    /** Whether the wrapped mapper has a pattern-table write for this address (CNROM and AxROM do in this revision). */
    predicate CanWriteChr(addr: Addr)
    {
      addr <= 0x3FFF && (addr <= 0x1FFF ==> mapper.CnromInner? || mapper.AxromInner?)
    }

    /**
     * write_chr: one nametable byte, one palette byte (keeping its low six
     * bits), or the wrapped mapper's CHR RAM changes.
     */
    method WriteChr(addr: Addr, value: Byte)
      requires Valid() && CanWriteChr(addr)
      modifies nametable, palette, if mapper.AxromInner? then {mapper.axrom.chrRam} else {}
      ensures Valid()
      ensures 0x2000 <= addr <= 0x3EFF ==> nametable[..] == old(nametable[..])[NametableIndex(addr) := value]
      ensures 0x3F00 <= addr ==> palette[..] == old(palette[..])[PaletteIndex(addr) := value & 0x3F]
      ensures addr <= 0x1FFF && mapper.AxromInner? ==> mapper.axrom.chrRam[..] == old(mapper.axrom.chrRam[..])[addr := value]
      ensures !(0x2000 <= addr <= 0x3EFF) ==> nametable[..] == old(nametable[..])
      ensures addr < 0x3F00 ==> palette[..] == old(palette[..])
      ensures mapper.AxromInner? && 0x2000 <= addr ==> mapper.axrom.chrRam[..] == old(mapper.axrom.chrRam[..])
    {
      if addr <= 0x1FFF {
        if mapper.CnromInner? {
          mapper.cnrom.WriteChr(addr, value);
        } else {
          mapper.axrom.WriteChr(addr, value);
        }
      } else if addr <= 0x3EFF {
        nametable[NametableIndex(addr)] := value;
      } else {
        palette[PaletteIndex(addr)] := value & 0x3F;
      }
    }

    /** get_battery_ram: the trait's default, the wrapped mapper's reads of $6000-$7FFF in order. */
    ghost function BatteryRam(): (r: seq<Byte>)
      requires Valid()
      reads mapper.Repr()
      ensures |r| == BatteryRamSize
    {
      seq(BatteryRamSize, i requires 0 <= i < BatteryRamSize && Valid() reads mapper.Repr() => mapper.Read(BatteryRamStart + i))
    }

    /** The battery RAM is the PRG RAM for NROM and MMC1; the other mappers read 0 there. */
    lemma BatteryRamContents()
      requires Valid()
      ensures mapper.NromInner? ==> BatteryRam() == mapper.nrom.prgRam[..]
      ensures mapper.Mmc1Inner? ==> BatteryRam() == mapper.mmc1.prgRam[..]
      ensures mapper.UnromInner? || mapper.CnromInner? || mapper.AxromInner? ==> BatteryRam() == seq(BatteryRamSize, _ => 0)
    {
      var r := BatteryRam();
      match mapper {
        case NromInner(n) =>
          forall i | 0 <= i < BatteryRamSize ensures r[i] == n.prgRam[i] {
            BatteryRamAt(i);
          }
          assert r == n.prgRam[..];
        case Mmc1Inner(m) =>
          forall i | 0 <= i < BatteryRamSize ensures r[i] == m.prgRam[i] {
            BatteryRamAt(i);
          }
          assert r == m.prgRam[..];
        case _ =>
          forall i | 0 <= i < BatteryRamSize ensures r[i] == 0 {
            BatteryRamAt(i);
          }
          assert r == seq(BatteryRamSize, _ => 0);
      }
    }

    lemma BatteryRamAt(i: nat)
      requires Valid() && i < BatteryRamSize
      ensures BatteryRam()[i] == mapper.Read(BatteryRamStart + i)
    {
    }
  }
}
