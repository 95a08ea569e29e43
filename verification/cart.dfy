// The iNES / NES 2.0 cartridge loader (nescore/src/cart.rs): header
// parsing, the cartridge description it yields, and the split of a ROM image
// into program and character ROM.

module Cart {
  import opened Bits
  import opened Results

  const PrgRomBankSize: nat := 16384
  const ChrRomBankSize: nat := 8192
  const HeaderSize: nat := 16
  const TrainerSize: nat := 512

  /** The four signature bytes "NES" followed by MS-DOS end-of-file. */
  const Signature: seq<Byte> := [0x4E, 0x45, 0x53, 0x1A]

  datatype Format = INES | NES2

  /** Every error of the loader is CartridgeError::InvalidRom carrying one of these. */
  datatype ParseError = InvalidSize(size: nat) | InvalidSig | InvalidFormat

  datatype CartridgeInfo = CartridgeInfo(
    format: Format,
    prgRomBanks: nat,      // 16 KiB units
    chrRomBanks: nat,      // 8 KiB units
    mapper: nat,
    fourScreenMode: bool,
    trainer: bool,
    battbackSram: bool,
    mirrorV: bool,
    vsUnisystem: bool,
    playchoice10: bool,
    tvSystemPal: bool,
    tvSystemExt: nat,      // 0 NTSC, 1 PAL, 2 dual compatible
    submapper: nat,        // NES 2.0 only from here on
    mapperPlanes: nat,
    battPrgRam: nat,
    prgRam: nat,
    battChrRam: nat,
    chrRam: nat)

  datatype Cartridge = Cartridge(info: CartridgeInfo, prgRom: seq<Byte>, chrRom: seq<Byte>, batRam: seq<Byte>)

  /** What Cartridge::from does with a ROM image: a cartridge, a header error, or a panic on a short image. */
  datatype LoadOutcome = Loaded(cart: Cartridge) | Rejected(error: ParseError) | SlicePanic

  /** The iNES header says NES 2.0 when bits 2-3 of flag byte 7 are 10. */
  predicate IsNes2Flag(flag7: Byte)
  {
    flag7 & 0x0C == 0x08
  }

  predicate VerifySignature(sig: seq<Byte>)
  {
    sig == Signature
  }

  function GetFormat(header: seq<Byte>): (r: Result<Format, ParseError>)
    requires |header| >= HeaderSize
    ensures r == Ok(NES2) <==> IsNes2Flag(header[7])
    ensures r == Ok(INES) <==> !IsNes2Flag(header[7]) && forall i :: 12 <= i < 16 ==> header[i] == 0
    ensures r.Err? ==> r.error == InvalidFormat
  {
    if IsNes2Flag(header[7]) then Ok(NES2)
    else if header[12..16] == [0, 0, 0, 0] then Ok(INES)
    else Err(InvalidFormat)
  }

  /** The all-zero description get_rom_info starts from. */
  function BlankInfo(format: Format): CartridgeInfo
  {
    CartridgeInfo(format, 0, 0, 0, false, false, false, false, false, false, false, 0, 0, 0, 0, 0, 0, 0)
  }

  /** The mapper number: upper nibble from flag 7, lower nibble from the upper nibble of flag 6. */
  function MapperNumber(flag6: Byte, flag7: Byte): (m: nat)
    ensures m < 256
    ensures m / 16 == flag7 as nat / 16 && m % 16 == flag6 as nat / 16
  {
    var lo := flag6 >> 4;
    var hi := flag7 & 0xF0;
    DisjointNibbles(hi, lo);
    HighNibble(flag7);
    ShiftedNibble(flag6);
    (hi | lo) as nat
  }

  lemma DisjointNibbles(hi: Byte, lo: Byte)
    requires hi & 0x0F == 0 && lo <= 15
    ensures (hi | lo) as nat == hi as nat + lo as nat
  {
    assert hi | lo == hi + lo;
  }

  lemma HighNibble(f: Byte)
    ensures (f & 0xF0) as nat == (f as nat / 16) * 16
  {
  }

  lemma ShiftedNibble(f: Byte)
    ensures (f >> 4) as nat == f as nat / 16
    ensures (f & 0x0F) as nat == f as nat % 16
    ensures ((f & 0xF0) >> 4) as nat == f as nat / 16
  {
  }

  /** get_info_common: bank counts, flag 6/7 bits and the mapper number; nothing else changes. */
  function GetInfoCommon(header: seq<Byte>, info: CartridgeInfo): (r: CartridgeInfo)
    requires |header| >= 8
    ensures r.prgRomBanks == header[4] as nat && r.chrRomBanks == header[5] as nat
    ensures r.mirrorV == (header[6] & 0x01 != 0) && r.battbackSram == (header[6] & 0x02 != 0)
    ensures r.trainer == (header[6] & 0x04 != 0) && r.fourScreenMode == (header[6] & 0x08 != 0)
    ensures r.vsUnisystem == (header[7] & 0x01 != 0) && r.playchoice10 == (header[7] & 0x02 != 0)
    ensures r.mapper == MapperNumber(header[6], header[7])
    ensures r.format == info.format && r.tvSystemPal == info.tvSystemPal && r.tvSystemExt == info.tvSystemExt
    ensures r.submapper == info.submapper && r.mapperPlanes == info.mapperPlanes
    ensures r.battPrgRam == info.battPrgRam && r.prgRam == info.prgRam
    ensures r.battChrRam == info.battChrRam && r.chrRam == info.chrRam
  {
    var flag6 := header[6];
    var flag7 := header[7];
    info.(prgRomBanks := header[4] as nat, chrRomBanks := header[5] as nat,
          mirrorV := BitIsSet(flag6, 0), battbackSram := BitIsSet(flag6, 1),
          trainer := BitIsSet(flag6, 2), fourScreenMode := BitIsSet(flag6, 3),
          mapper := MapperNumber(flag6, flag7),
          vsUnisystem := BitIsSet(flag7, 0), playchoice10 := BitIsSet(flag7, 1))
  }

  /** get_info_ines: TV system from bytes 9 and 10; nothing else changes. */
  function GetInfoInes(header: seq<Byte>, info: CartridgeInfo): (r: CartridgeInfo)
    requires |header| >= 11
    ensures r.tvSystemPal <==> header[9] as nat % 2 == 1
    ensures r.tvSystemExt == 0 <==> header[10] & 0x03 == 0
    ensures r.tvSystemExt == 1 <==> header[10] & 0x03 == 2
    ensures r.tvSystemExt == 2 <==> header[10] & 0x01 == 1
    ensures r == info.(tvSystemPal := r.tvSystemPal, tvSystemExt := r.tvSystemExt)
  {
    info.(tvSystemPal := (header[9] & 0x01) != 0,
          tvSystemExt := var mode := header[10] & 0x03;
                         if mode == 0 then 0 else if mode == 2 then 1 else 2)
  }

  /** Bitwise or on naturals, the `|=` of two usize values. */
  function NatOr(a: nat, b: nat): nat
    decreases a + b
  {
    if a == 0 then b
    else if b == 0 then a
    else 2 * NatOr(a / 2, b / 2) + (if a % 2 == 1 || b % 2 == 1 then 1 else 0)
  }

  function Pow2(k: nat): (p: nat)
    ensures p >= 1
  {
    if k == 0 then 1 else 2 * Pow2(k - 1)
  }

  /** Or-ing a value above bit k into one below bit k adds them. */
  lemma {:induction false} NatOrDisjoint(a: nat, h: nat, k: nat)
    requires a < Pow2(k)
    ensures NatOr(a, h * Pow2(k)) == a + h * Pow2(k)
  {
    var b := h * Pow2(k);
    if a == 0 || h == 0 {
    } else {
      assert k > 0;
      assert b == 2 * (h * Pow2(k - 1));
      assert b / 2 == h * Pow2(k - 1) && b % 2 == 0;
      NatOrDisjoint(a / 2, h, k - 1);
      assert NatOr(a, b) == 2 * NatOr(a / 2, b / 2) + a % 2;
    }
  }

  lemma OrAboveByte(a: nat, h: nat)
    ensures a < 256 ==> NatOr(a, h * 256) == a + h * 256
  {
    if a < 256 {
      assert Pow2(8) == 256;
      NatOrDisjoint(a, h, 8);
    }
  }

  /** get_info_nes2: submapper, planes, the upper bank-count bits, RAM sizes and TV system. */
  function GetInfoNes2(header: seq<Byte>, info: CartridgeInfo): (r: CartridgeInfo)
    requires |header| >= 13
    ensures info.prgRomBanks < 256 ==> r.prgRomBanks == info.prgRomBanks + 256 * (header[9] as nat % 16)
    ensures info.chrRomBanks < 256 ==> r.chrRomBanks == info.chrRomBanks + 256 * (header[9] as nat / 16)
    ensures r.submapper == header[8] as nat / 16 && r.mapperPlanes == header[8] as nat % 16
    ensures r.battPrgRam == header[10] as nat / 16 && r.prgRam == header[10] as nat % 16
    ensures r.battChrRam == header[11] as nat / 16 && r.chrRam == header[11] as nat % 16
    ensures r.tvSystemExt == (if header[12] & 0x01 != 0 then 0 else 1)
    ensures r == info.(prgRomBanks := r.prgRomBanks, chrRomBanks := r.chrRomBanks,
                       submapper := r.submapper, mapperPlanes := r.mapperPlanes,
                       battPrgRam := r.battPrgRam, prgRam := r.prgRam,
                       battChrRam := r.battChrRam, chrRam := r.chrRam, tvSystemExt := r.tvSystemExt)
  {
    var prgHi := LowerNibble(header[9]);
    var chrHi := UpperNibble(header[9]);
    OrAboveByte(info.prgRomBanks, prgHi);
    OrAboveByte(info.chrRomBanks, chrHi);
    info.(submapper := UpperNibble(header[8]),
          mapperPlanes := LowerNibble(header[8]),
          prgRomBanks := NatOr(info.prgRomBanks, prgHi * 256),
          chrRomBanks := NatOr(info.chrRomBanks, chrHi * 256),
          battPrgRam := UpperNibble(header[10]),
          prgRam := LowerNibble(header[10]),
          battChrRam := UpperNibble(header[11]),
          chrRam := LowerNibble(header[11]),
          tvSystemExt := if (header[12] & 0x01) != 0 then 0 else 1)
  }

  /** The upper nibble of a header byte as a number: `(b & 0xF0) >> 4`, or equally `b >> 4`. */
  function UpperNibble(b: Byte): (n: nat)
    ensures n == b as nat / 16 && n == ((b & 0xF0) >> 4) as nat
  {
    ShiftedNibble(b);
    (b >> 4) as nat
  }

  /** The lower nibble of a header byte as a number: `b & 0x0F`. */
  function LowerNibble(b: Byte): (n: nat)
    ensures n == b as nat % 16
  {
    ShiftedNibble(b);
    (b & 0x0F) as nat
  }

  function GetRomInfo(header: seq<Byte>): (r: Result<CartridgeInfo, ParseError>)
    requires |header| >= HeaderSize
    ensures r.Err? <==> GetFormat(header).Err?
    ensures r.Err? ==> r.error == InvalidFormat
  {
    match GetFormat(header)
    case Err(e) => Err(e)
    case Ok(format) =>
      var info := GetInfoCommon(header, BlankInfo(format));
      match format
      case INES => Ok(GetInfoInes(header, info))
      case NES2 => Ok(GetInfoNes2(header, info))
  }

  /**
   * parse_header: size check, then signature check, then format check; on
   * success every field is the header's, and the fields the detected format
   * does not define keep their zero value.
   */
  function ParseHeader(header: seq<Byte>): (r: Result<CartridgeInfo, ParseError>)
    ensures |header| < HeaderSize ==> r == Err(InvalidSize(|header|))
    ensures |header| >= HeaderSize && header[..4] != Signature ==> r == Err(InvalidSig)
    ensures |header| >= HeaderSize && header[..4] == Signature ==>
              (r.Ok? <==> IsNes2Flag(header[7]) || forall i :: 12 <= i < 16 ==> header[i] == 0)
    ensures |header| >= HeaderSize && header[..4] == Signature && r.Err? ==> r == Err(InvalidFormat)
    ensures r.Ok? ==> |header| >= HeaderSize && ParsedFields(header, r.value)
  {
    if |header| < HeaderSize then Err(InvalidSize(|header|))
    else if !VerifySignature(header[0..4]) then Err(InvalidSig)
    else
      RomInfoFields(header);
      GetRomInfo(header)
  }

  /** get_rom_info fills in exactly the fields ParsedFields describes. */
  lemma RomInfoFields(header: seq<Byte>)
    requires |header| >= HeaderSize
    ensures GetRomInfo(header).Ok? ==> ParsedFields(header, GetRomInfo(header).value)
  {
    if GetRomInfo(header).Ok? {
      ShiftedNibble(header[9]);
    }
  }

  /** What a successfully parsed header says, field by field. */
  ghost predicate ParsedFields(header: seq<Byte>, info: CartridgeInfo)
    requires |header| >= HeaderSize
  {
    var nes2 := IsNes2Flag(header[7]);
    && info.format == (if nes2 then NES2 else INES)
    && info.prgRomBanks == header[4] as nat + (if nes2 then 256 * (header[9] as nat % 16) else 0)
    && info.chrRomBanks == header[5] as nat + (if nes2 then 256 * (header[9] as nat / 16) else 0)
    && info.mapper / 16 == header[7] as nat / 16 && info.mapper % 16 == header[6] as nat / 16
    && info.mirrorV == (header[6] & 0x01 != 0)
    && info.battbackSram == (header[6] & 0x02 != 0)
    && info.trainer == (header[6] & 0x04 != 0)
    && info.fourScreenMode == (header[6] & 0x08 != 0)
    && info.vsUnisystem == (header[7] & 0x01 != 0)
    && info.playchoice10 == (header[7] & 0x02 != 0)
    && info.tvSystemPal == (!nes2 && header[9] & 0x01 != 0)
    && info.tvSystemExt <= 2
    && (!nes2 ==> info.submapper == 0 && info.mapperPlanes == 0 && info.battPrgRam == 0
                  && info.prgRam == 0 && info.battChrRam == 0 && info.chrRam == 0)
    && (nes2 ==> info.submapper == header[8] as nat / 16 && info.mapperPlanes == header[8] as nat % 16
                 && info.battPrgRam == header[10] as nat / 16 && info.prgRam == header[10] as nat % 16
                 && info.battChrRam == header[11] as nat / 16 && info.chrRam == header[11] as nat % 16)
  }

  /** Where program ROM starts: after the header and, when present, the 512-byte trainer. */
  function PrgRomOffset(info: CartridgeInfo): nat
  {
    HeaderSize + (if info.trainer then TrainerSize else 0)
  }

  function PrgRomSize(info: CartridgeInfo): nat
  {
    info.prgRomBanks * PrgRomBankSize
  }

  function ChrRomSize(info: CartridgeInfo): nat
  {
    info.chrRomBanks * ChrRomBankSize
  }

  /**
   * Cartridge::from: parse the header, then slice program ROM and character
   * ROM out of the image; the slices are not length-checked, so an image
   * shorter than the header announces panics.
   */
  function CartridgeFrom(rom: seq<Byte>): (r: LoadOutcome)
    ensures ParseHeader(rom).Err? <==> r.Rejected?
    ensures r.Rejected? ==> r.error == ParseHeader(rom).error
    ensures ParseHeader(rom).Ok? ==>
              var info := ParseHeader(rom).value;
              var start := PrgRomOffset(info);
              var mid := start + PrgRomSize(info);
              var end := mid + ChrRomSize(info);
              (r.SlicePanic? <==> |rom| < end) &&
              (r.Loaded? ==> r.cart == Cartridge(info, rom[start..mid], rom[mid..end], []))
  {
    match ParseHeader(rom)
    case Err(e) => Rejected(e)
    case Ok(info) =>
      var start := PrgRomOffset(info);
      var mid := start + PrgRomSize(info);
      var end := mid + ChrRomSize(info);
      if end > |rom| then SlicePanic
      else Loaded(FromParts(info, rom[start..mid], rom[mid..end], []))
  }

  function FromParts(info: CartridgeInfo, prgRom: seq<Byte>, chrRom: seq<Byte>, batRam: seq<Byte>): Cartridge
  {
    Cartridge(info, prgRom, chrRom, batRam)
  }

  /** into_parts gives back exactly the parts from_parts was given. */
  function IntoParts(c: Cartridge): (parts: (CartridgeInfo, seq<Byte>, seq<Byte>, seq<Byte>))
    ensures FromParts(parts.0, parts.1, parts.2, parts.3) == c
  {
    (c.info, c.prgRom, c.chrRom, c.batRam)
  }

  /** add_battery_ram replaces the battery RAM and keeps everything else. */
  function AddBatteryRam(c: Cartridge, batt: seq<Byte>): (r: Cartridge)
    ensures IntoParts(r) == (c.info, c.prgRom, c.chrRom, batt)
  {
    c.(batRam := batt)
  }

  /**
   * An image assembled from a valid trainer-less header, a program ROM and a
   * character ROM of the announced sizes loads back into those same parts.
   */
  lemma LoadAssembledImage(header: seq<Byte>, prg: seq<Byte>, chr: seq<Byte>)
    requires ParseHeader(header).Ok? && !ParseHeader(header).value.trainer
    requires |header| == HeaderSize
    requires |prg| == PrgRomSize(ParseHeader(header).value)
    requires |chr| == ChrRomSize(ParseHeader(header).value)
    ensures CartridgeFrom(header + prg + chr) == Loaded(Cartridge(ParseHeader(header).value, prg, chr, []))
  {
    SplitImage(header, prg, chr);
    HeaderPrefix(header, prg + chr);
  }

  /** The three parts of an assembled image sit where they were put. */
  lemma SplitImage(header: seq<Byte>, prg: seq<Byte>, chr: seq<Byte>)
    ensures header + prg + chr == header + (prg + chr)
    ensures (header + prg + chr)[|header|..|header| + |prg|] == prg
    ensures (header + prg + chr)[|header| + |prg|..|header| + |prg| + |chr|] == chr
  {
    var rom := header + prg + chr;
    assert rom == header + (prg + chr);
    assert rom[|header|..|header| + |prg|] == prg;
    assert rom[|header| + |prg|..|header| + |prg| + |chr|] == chr;
  }

  /** The parser looks at the first sixteen bytes only. */
  lemma HeaderPrefix(header: seq<Byte>, rest: seq<Byte>)
    requires |header| == HeaderSize
    ensures ParseHeader(header + rest) == ParseHeader(header)
  {
    var rom := header + rest;
    assert rom[0..4] == header[0..4];
    assert rom[12..16] == header[12..16];
    forall i | 0 <= i < 16 ensures rom[i] == header[i] { }
  }

  /** The header of the loader's tests: signature, 15 banks of each ROM, all flags clear. */
  const TestHeader: seq<Byte> :=
    [0x4E, 0x45, 0x53, 0x1A, 0x0F, 0x0F, 0x00, 0x00, 0x00, 0x00, 0x00, 0x00, 0x00, 0x00, 0x00, 0x00]

  /** The loader's header tests on the all-clear header, stated on the model. */
  lemma HeaderExamples()
    ensures ParseHeader(TestHeader).Ok?
    ensures ParseHeader(TestHeader).value.prgRomBanks == 15 && ParseHeader(TestHeader).value.chrRomBanks == 15
    ensures !ParseHeader(TestHeader).value.mirrorV
  {
  }

  /** The tests' mirroring and mapper-number headers. */
  lemma HeaderFlagExamples()
    ensures ParseHeader(TestHeader[6 := 0x01]).value.mirrorV
    ensures ParseHeader(TestHeader[6 := 0xE0][7 := 0xD0]).value.mapper == 0xDE
  {
    var m := ParseHeader(TestHeader[6 := 0xE0][7 := 0xD0]).value.mapper;
    assert m / 16 == 0xD && m % 16 == 0xE;
  }

  /** The tests' rejected headers: bad format bytes, bad signature, too short. */
  lemma HeaderErrorExamples()
    ensures ParseHeader(TestHeader[12 := 1]) == Err(InvalidFormat)
    ensures ParseHeader(seq(16, _ => 0 as Byte)) == Err(InvalidSig)
    ensures ParseHeader(seq(10, _ => 0 as Byte)) == Err(InvalidSize(10))
  {
    var h := TestHeader[12 := 1];
    assert h[..4] == Signature && !IsNes2Flag(h[7]) && h[12] != 0;
    var zeros: seq<Byte> := seq(16, _ => 0);
    assert zeros[..4][0] != Signature[0];
  }
}
