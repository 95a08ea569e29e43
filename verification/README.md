# nescore in Dafny

A model of the emulation core of nescore, an NES (Nintendo Entertainment
System) emulator, with proofs about it. Each part of the emulator that works
on bits and small state machines has its own module:

- the cartridge: the iNES / NES 2.0 header loader and the stand-alone header inspector (`Cart`, `NesInfo`);
- the 6502 instruction tables of the disassembler and of the CPU core, and their text output (`Asm`, `CpuState`, `CpuFormat`, `Hex`);
- the CPU bus's address decoding (`CpuBus`);
- banked cartridge memory, the shared mapper base with its nametable and palette RAM, the mappers NROM, MMC1, UNROM, CNROM and AxROM, and the mapper selection (`Mem`, `MapperControl`, `MapperBase`, `Nrom`, `Mmc1`, `Unrom`, `Cnrom`, `Axrom`, `Mapper`);
- the PPU's control, mask and status registers, its background shift registers and the sprite attribute decoding (`PpuRegs`, `PpuHw`, `Sprite`);
- the APU: the frame sequencer and the divider, timer, length counter and envelope units; the pulse, triangle, noise and DMC channels; the register routing and status byte of the current APU (`AudioUnit`) and of the earlier one (`LegacyApu`);
- the controllers' strobe and shift-register protocol (`Joy`);
- the system level: the six-slot clock that drives PPU, CPU and APU in a 6:2:1 ratio, the framebuffer fill and the pixel formats (`NesClock`, `NesSystem`);
- the down-sampler's stride (`DownSampling`) and the CHR tile decoder of the command-line tool (`ChrImage`);
- the bit macros everything uses (`Bits`), and Option/Result values for the emulator's error and panic paths (`Results`).

Objects that the Rust code updates in place are classes:
- the banked memory, the mappers and the mapper base;
- the shift registers, the controllers and the APU units and channels;
- the sequencers, the tile decoder and the `Nes` object.

Each class method is specified against a pure function of the object's state. The properties of the source are then proved about those functions. Where the Rust code panics, the model either returns `None`/`Err` or has a precondition. The precondition is used where the panic is an array bound or an assertion on the caller's side. There are two exceptions, both logged under "## Findings": four-screen nametable accesses and palette accesses at $3F40-$3FFF. The mapper base runs the corrected index there, where the Rust code indexes past the end of its buffer.

The other three findings are slips in the triangle's linear reload, the DMC's direct load and the noise channel's silencing condition. Each is modelled both as written and as evidently intended. The channels and the APU above them run the intended version; "## Left out" lists every member this affects.

Some helpers that the code calls are missing from the revision of the source shown. The module comments of `Mem`, `Nrom`, `ApuPulseChannel` and `LegacyApu` say how each such helper is taken.

MMC1 has two oddities as written. Its shift register takes the data bit in at bit 5. The value it assembles is reduced to bit 0, and that bit is always clear, so every register write stores 0. The model keeps this behaviour and proves its consequences (`Mmc1.ShiftOutputIsEven`, `Mmc1.WritesFromPowerOn`). It is not logged as a finding, because the two oddities interact and the intended fix is not clear from the code.

## Model

| member | source | states |
|---|---|---|
| Bits.Bv | nescore/src/bit.rs:9-13 | bv!(b) is `1 << b`, a byte with exactly one bit set |
| Bits.MaskSet | nescore/src/bit.rs:44-49 | after `x \|= m` every bit of `m` is set and every bit outside `m` is unchanged |
| Bits.MaskClear | nescore/src/bit.rs:51-56 | after `x &= !m` every bit of `m` is clear and every bit outside `m` is unchanged |
| Bits.BitSetAt | nescore/src/bit.rs:58-63 | bit_set! sets bit b and leaves all other bits as they were |
| Bits.BitClearAt | nescore/src/bit.rs:65-70 | bit_clear! clears bit b and leaves all other bits as they were |
| Bits.HighByte | nescore/src/bit.rs:72-77 | the high byte shifted back into place is the upper 8 bits of the word |
| Bits.LowByte | nescore/src/bit.rs:79-84 | the low byte is the lower 8 bits of the word |
| Bits.BitAsValue | nescore/src/bit.rs:86-90 | bit_as_value! is 0 or 1, and 1 exactly when bit b is set |
| Bits.WordBitAsValue | nescore/src/bit.rs:86-90 | the same on 16-bit values |
| Bits.ReverseBits | nescore/src/bit.rs:93-105 | the reverse_bits! loop yields the byte whose bit i is bit 7 - i of the input |
| Bits.ReverseAt | nescore/src/bit.rs:93-105 | bit i of the reversed byte is bit 7 - i of the input |
| Bits.ReverseInvolutive | nescore/src/bit.rs:93-105 | reversing twice gives the byte back |
| Bits.BitGroupFields | nescore/src/bit.rs:109-113 | bit_group! with the channels' masks and shifts gives the shifted fields |
| Bits.MacroExamples | nescore/src/bit.rs:202-217 | the macro tests' values: reverse_bits!(0x80) is 0x01, bit_as_value!(0x08, 3) is 1, bit_group!(0x70, 0x07, 4) is 7 |
| Cart.GetFormat | nescore/src/cart.rs:382-399 | NES 2.0 exactly when flag 7 has `& 0x0C == 0x08`; otherwise iNES exactly when bytes 12 to 15 are zero; every other header is InvalidFormat |
| Cart.MapperNumber | nescore/src/cart.rs:321-323 | the mapper number's upper nibble is flag 7's upper nibble and its lower nibble is flag 6's upper nibble |
| Cart.GetInfoCommon | nescore/src/cart.rs:300-335 | bank counts from bytes 4 and 5, mirroring, battery, trainer, four-screen, VS and PlayChoice bits from flags 6 and 7, the mapper number; every other field unchanged |
| Cart.GetInfoInes | nescore/src/cart.rs:337-347 | PAL from bit 0 of byte 9; the extended TV system from byte 10 as 0 to 0, 2 to 1, 1 or 3 to 2; every other field unchanged |
| Cart.GetInfoNes2 | nescore/src/cart.rs:349-380 | bank counts gain the nibbles of byte 9 shifted by 8; submapper and planes from byte 8; RAM sizes from bytes 10 and 11; TV system from byte 12; every other field unchanged |
| Cart.UpperNibble | nescore/src/cart.rs:349-380 | the shifted-out upper nibble of a header byte is the byte divided by 16 |
| Cart.LowerNibble | nescore/src/cart.rs:349-380 | the masked lower nibble of a header byte is the byte modulo 16 |
| Cart.GetRomInfo | nescore/src/cart.rs:262-298 | fails exactly when the format check fails, and then with InvalidFormat |
| Cart.ParseHeader | nescore/src/cart.rs:249-260 | short input gives InvalidSize(len) first, then a wrong signature gives InvalidSig, then the format check decides; on success every field is the header's |
| Cart.RomInfoFields | nescore/src/cart.rs:262-298 | a header get_rom_info accepts yields exactly the fields the header encodes, format by format |
| Cart.HeaderPrefix | nescore/src/cart.rs:249-260 | the parser reads only the first 16 bytes |
| Cart.CartridgeFrom | nescore/src/cart.rs:133-150 | a header error passes through; otherwise program ROM starts at 16 (plus 512 with a trainer), character ROM follows it, and an image too short for either panics |
| Cart.LoadAssembledImage | nescore/src/cart.rs:133-150 | header, program ROM and character ROM of the announced sizes load back as exactly those parts |
| Cart.SplitImage | nescore/src/cart.rs:140-147 | in an assembled image the program ROM follows the header and the character ROM follows the program ROM |
| Cart.IntoParts | nescore/src/cart.rs:160-172 | into_parts inverts from_parts |
| Cart.AddBatteryRam | nescore/src/cart.rs:174-177 | the battery RAM is replaced and every other part is kept |
| Cart.HeaderExamples | nescore/src/cart.rs:460-504 | the tests on the all-clear header: it parses, with 15 banks of each ROM and horizontal mirroring |
| Cart.HeaderFlagExamples | nescore/src/cart.rs:451-477 | the tests' flag headers: bit 0 of flag 6 gives vertical mirroring, and flags 0xE0 / 0xD0 give mapper 0xDE |
| Cart.HeaderErrorExamples | nescore/src/cart.rs:428-449 | the tests' rejected headers: a nonzero byte 12 is InvalidFormat, zeros are InvalidSig, 10 bytes are InvalidSize(10) |
| NesInfo.GetFormat | nesinfo/src/lib.rs:52-69 | the inspector's format check: NES 2.0 when flag 7 has `& 0x0C == 0x08`, iNES only when byte 8 and bytes 12 to 15 are zero, every other header is an invalid format |
| NesInfo.ParseHeader | nesinfo/src/lib.rs:32-49 | a header shorter than 16 bytes is a size error, a wrong `NES\x1A` signature a signature error, then the format check decides; success carries that format |
| NesInfo.InspectorAcceptsLess | nesinfo/src/lib.rs:52-69 | every header the inspector accepts is accepted by the cartridge loader with the same format |
| NesInfo.SameEarlyErrors | nesinfo/src/lib.rs:32-49 | the inspector and the cartridge loader report the same size and signature errors |
| NesInfo.LoaderAcceptsMore | nesinfo/src/lib.rs:52-69 | an iNES header with a non-zero byte 8 is loaded by the cartridge loader but refused by the inspector |
| NesInfo.FormatExamples | nesinfo/src/lib.rs:80-97 | the unit tests: flag 7 = 0x08 gives NES 2.0, flag 7 = 0x04 with zero padding gives iNES |
| CpuFormat.Disassemble | nescore/src/cpu/format.rs:10-26 | the CPU core's trace line: the three-letter mnemonic, then an operand field of eleven columns for AbsoluteX and nine for every other mode |
| CpuFormat.ImmediateLooksRelative | nescore/src/cpu/format.rs:10-26 | immediate and relative operands render the same text, so the trace cannot tell them apart |
| CpuFormat.OperandReadsBack | nescore/src/cpu/format.rs:10-26 | the operand byte or little-endian word can be read back in hex from a fixed column of the trace for each mode |
| CpuBus.MirrorAddress | nescore/src/cpu/bus.rs:16-18 | the mirrored address lies in `[base, base + count)` and its offset from base is `addr % count` |
| CpuBus.PpuRegister | nescore/src/cpu/bus.rs:30-42 | every address of $2000-$3FFF selects one of the eight PPU registers $2000-$2007 |
| CpuBus.ReadByte | nescore/src/cpu/bus.rs:30-42 | reads below $2000 are invalid, $2000-$3FFF go to the PPU register `addr % 8`, $4000-$401F to APU/IO, $4020 and above to the mapper at the same address |
| CpuBus.ReadValue | nescore/src/cpu/bus.rs:30-42 | APU/IO reads return 0 and mapper reads return what the mapper answers at that address |
| CpuBus.WriteByte | nescore/src/cpu/bus.rs:44-55 | writes to $2000-$3FFF reach the mirrored PPU register, $4014 reaches OAM DMA, every other write is dropped |
| CpuBus.MirrorsShareRegister | nescore/src/cpu/bus.rs:16-55 | two addresses of $2000-$3FFF equal modulo 8 reach the same register, so a write through one mirror is seen through every other |
| CpuBus.MirrorExamples | nescore/src/cpu/bus.rs:63-99 | the bus tests: $2000 and $2008 mirror each other and a read of $200F reaches $2007 |
| CpuState.OperandLen | nescore/src/cpu/state.rs:26-43 | the CPU core's operand lengths agree with the disassembler's for every mode |
| CpuState.ToAddress | nescore/src/cpu/state.rs:51-56 | an address exactly for an address result, and then that address |
| CpuState.ToByte | nescore/src/cpu/state.rs:58-67 | a byte result gives its byte, an address result the byte the supplied read returns there, offsets and implied nothing |
| CpuState.ToOffset | nescore/src/cpu/state.rs:69-74 | an offset exactly for an offset result, and then that offset |
| CpuState.ConversionsExclusive | nescore/src/cpu/state.rs:51-74 | to_address and to_offset never both succeed; to_byte reads through the address whenever to_address succeeds and fails on offsets |
| CpuState.Category | nescore/src/cpu/state.rs:91-139 | Write is exactly STA, STX, STY; Branch exactly the eight conditional branches; CPX and CPY fall in Implied |
| CpuState.CycleCount | nescore/src/cpu/state.rs:146-230 | counts lie between 1 and 7; Indirect costs 4, Accumulator and Immediate 1; Relative has a count exactly for branches; None marks `unreachable!` |
| CpuState.CategoryCost | nescore/src/cpu/state.rs:146-230 | in the addressed modes reads and writes share one count, read-modify-writes another, and every other category is unreachable |
| CpuState.CompareIsUnreachable | nescore/src/cpu/state.rs:91-230 | CPX and CPY with a zero-page or absolute operand have no cycle count in the CPU core while the disassembler's table has one |
| CpuState.CategoriesAgree | nescore/src/cpu/state.rs:91-139 | the CPU core and the disassembler put every instruction in the same category except CPX and CPY |
| Hex.HexDigit | nescore/src/cpu/format.rs:10-26 | every nibble maps to one of the sixteen upper-case hex digits |
| Hex.DigitRoundTrip | nescore/src/cpu/format.rs:10-26 | reading a digit back gives the nibble |
| Hex.Hex2 | nescore/src/cpu/format.rs:10-26 | `{:02X}`: exactly two hex digits |
| Hex.Hex4 | nescore/src/cpu/format.rs:10-26 | `{:04X}`: exactly four hex digits |
| Hex.Hex2RoundTrip | nescore/src/cpu/format.rs:10-26 | reading the two digits back gives the byte |
| Hex.Hex4RoundTrip | nescore/src/cpu/format.rs:10-26 | reading the four digits back gives the word |
| Asm.OperandLen | nescore/src/asm/mod.rs:27-43 | at most two operand bytes; none exactly for Accumulator and Implied; two exactly for the absolute and indirect modes |
| Asm.Mnemonic | nescore/src/asm/mod.rs:61-65 | every instruction prints as a three-letter name |
| Asm.Category | nescore/src/asm/mod.rs:68-134 | Write is exactly STA, STX, SAX, STY; Branch exactly the eight conditional branches |
| Asm.CycleCount | nescore/src/asm/mod.rs:137-227 | counts lie between 1 and 7; Indirect costs 4, Accumulator and Immediate 1; Relative has a count exactly for branches; None marks `unreachable!` |
| Asm.Decode | nescore/src/asm/mod.rs:229-520 | exactly the opcodes of the undecoded set panic; every decoded pair has a cycle count, and its mode is Relative exactly when the instruction is a branch |
| Asm.Address | nescore/src/asm/mod.rs:552-557 | the word's high byte is data[1] and its low byte data[0], i.e. `data[1] * 256 + data[0]` |
| Asm.Disassemble | nescore/src/asm/mod.rs:524-541 | the mnemonic followed by a nine-column operand field for every mode |
| Asm.DisassembleReadsBack | nescore/src/asm/mod.rs:524-557 | the operand byte or word can be read back in hex from the fixed column of its mode |
| Asm.Operands | nescore/src/asm/mod.rs:543-550 | an eight-column field for lengths 0 to 2: the last byte's hex in columns 6-7, the one before it in 3-4, the first of three in 0-1, blanks everywhere else; a panic (None) for any other length |
| Asm.DecodeExamples | nescore/src/asm/mod.rs:229-520 | the seven implied-NOP aliases, SBC immediate at 0xE9 and 0xEB, BRK at 0x00, and 0x02 rejected |
| Mem.OffsetInjective | nescore/src/mapper/mem.rs:44-46 | inside their banks, different (bank, index) pairs address different bytes of the buffer |
| Mem.BankOrder | nescore/src/mapper/mem.rs:44-46 | a later bank starts at or after the end of an earlier one |
| Mem.IndexOverrunAliases | nescore/src/mapper/mem.rs:26-31 | since only the bank is checked, the index one past a bank reaches the first byte of the next bank |
| Mem.Memory.constructor | nescore/src/mapper/mem.rs:18-24 | a new memory holds exactly the given bytes with the given bank count and bank size |
| Mem.Memory.OfBankSize | nescore/src/mapper/mmc1.rs:116 | the banked memory the mappers build: as many whole banks of the given size as the data holds |
| Mem.Memory.Read | nescore/src/mapper/mem.rs:26-31 | a read of bank b, index i is the byte at offset `b * bank_size + i`; a bank at or past the bank count is refused |
| Mem.Memory.ReadLast | nescore/src/mapper/mem.rs:33-35 | the same index of the last bank |
| Mem.Memory.ReadFirst | nescore/src/mapper/cnrom.rs:52 | the same index of bank 0, as the CNROM and MMC1 readers use it |
| Mem.Memory.Write | nescore/src/mapper/mem.rs:37-42 | exactly one byte changes, the one a read of the same bank and index returns afterwards |
| Mem.Memory.SetBankSize | nescore/src/mapper/mmc1.rs:116 | re-slices the same buffer into banks of the new size, as many as fit |
| Mem.WriteThenRead | nescore/src/mapper/mem.rs:26-42 | after a write, the same bank and index read back the new byte and every other in-bank location reads what it read before |
| Mem.ReadBankExample | nescore/src/mapper/mem.rs:53-80 | the tests: byte 5 of a one-bank buffer and byte 0 of bank 1 of a two-bank buffer read back 0xDE |
| MapperBase.CalcNametableIdx | nescore/src/mapper/base.rs:115-143 | the result keeps the address's offset inside its 1 KiB table and lies in the 2 KiB of VRAM; vertical mirroring picks the upper kilobyte for odd tables, horizontal for the lower pair of tables, one-screen always the first; vertical and horizontal panic outside $2000-$2FFF |
| MapperBase.NametableIdxExamples | nescore/src/mapper/base.rs:148-170 | the mirroring tests at the start of each of the four tables |
| MapperBase.FourScreenAsWrittenOverflows | nescore/src/mapper/base.rs:87-95 | four-screen mode as written indexes the nametable buffer with the raw address, which is past its 4 KiB end for every nametable address |
| MapperBase.ApplyMirroring | nescore/src/mapper/base.rs:87-95 | corrected four-screen mode gives each address of $2000-$2FFF its own byte; otherwise the mirroring arrangement's index, inside the 2 KiB of VRAM |
| MapperBase.FourScreenSeparate | nescore/src/mapper/base.rs:87-95 | with four-screen mode no two nametable addresses share a byte |
| MapperBase.VerticalPairs | nescore/src/mapper/base.rs:115-143 | vertical mirroring makes $2000/$2800 and $2400/$2C00 the same bytes |
| MapperBase.HorizontalPairs | nescore/src/mapper/base.rs:115-143 | horizontal mirroring makes $2000/$2400 and $2800/$2C00 the same bytes |
| MapperBase.VerticalSeparatesNeighbours | nescore/src/mapper/base.rs:115-143 | vertical mirroring keeps horizontally adjacent tables apart |
| MapperBase.MirroringTypeOf | nescore/src/mapper/base.rs:97-99 | the mapper's own mirroring wins; otherwise vertical exactly when the header's mirror flag is set |
| MapperBase.MirrorPalette | nescore/src/mapper/base.rs:101-106 | $3F10, $3F14, $3F18 and $3F1C fold 0x10 down; every other address is unchanged |
| MapperBase.PaletteAsWrittenOverflows | nescore/src/mapper/base.rs:58-67 | as written, $3F40-$3FFF index past the 32 bytes of palette RAM |
| MapperBase.PaletteIndex | nescore/src/mapper/base.rs:58-67 | corrected: every address of $3F00-$3FFF reaches one of the 32 bytes, agreeing with the written code up to $3F3F |
| MapperBase.PaletteAliases | nescore/src/mapper/base.rs:101-106 | the four sprite backdrop entries share their bytes with the background ones |
| MapperBase.PaletteRepeats | nescore/src/mapper/base.rs:58-67 | the palette repeats every 32 bytes up to $3FFF |
| MapperBase.PaletteEntriesDistinct | nescore/src/mapper/base.rs:58-67 | apart from those aliases, distinct entries of $3F00-$3F1F have distinct bytes |
| MapperBase.Inner.Mirroring | nescore/src/mapper/mapper.rs:37 | only AxROM overrides the default of no mirroring, and it reports one-screen-upper exactly when its select bit is set |
| MapperBase.MapperBase.constructor | nescore/src/mapper/base.rs:26-39 | the wrapped mapper of the requested kind, zeroed nametable and palette RAM, and the header's mirroring and four-screen flags |
| MapperBase.MapperBase.NametableIndex | nescore/src/mapper/base.rs:58-67 | every VRAM address of $2000-$3EFF reaches a byte of the nametable buffer, through the corrected four-screen index (the Rust code panics in four-screen mode) |
| MapperBase.MapperBase.UpperNametablesMirror | nescore/src/mapper/base.rs:58-67 | $3000-$3EFF reach the same bytes as $2000-$2EFF |
| MapperBase.MapperBase.ReadChr | nescore/src/mapper/base.rs:58-67 | nametable addresses read the mirrored nametable byte, palette addresses the mirrored palette byte, pattern addresses the wrapped mapper's CHR; four-screen nametables and $3F40-$3FFF go through the corrected indexes where the Rust code panics |
| MapperBase.MapperBase.WriteChr | nescore/src/mapper/base.rs:69-79 | exactly one nametable byte, one palette byte (keeping its low six bits) or one CHR RAM byte changes, and nothing else; four-screen nametables and $3F40-$3FFF go through the corrected indexes where the Rust code panics |
| MapperBase.MapperBase.BatteryRam | nescore/src/mapper/mapper.rs:39-41 | the battery RAM copy is 8 KiB long |
| MapperBase.MapperBase.BatteryRamContents | nescore/src/mapper/base.rs:81-84 | for NROM and MMC1 the copy is the PRG RAM; the other mappers read zeros there |
| MapperBase.MapperBase.BatteryRamAt | nescore/src/mapper/mapper.rs:39-41 | byte i of the copy is the mapper's read of $6000 + i |
| Nrom.Nrom.constructor | nescore/src/mapper/nrom.rs:21-34 | zeroed 8 KiB PRG RAM, the cartridge's CHR ROM (a panic unless exactly 8 KiB), its PRG ROM in 16 KiB banks, and ROM mirroring exactly for a one-bank cartridge |
| Nrom.Nrom.Read | nescore/src/mapper/nrom.rs:38-54 | $6000-$7FFF read PRG RAM, $8000-$BFFF the first PRG bank, $C000-$FFFF the first bank again when mirrored and the second otherwise; lower addresses panic |
| Nrom.Nrom.Write | nescore/src/mapper/nrom.rs:56-61 | only a write to $6000-$7FFF changes anything: that one PRG RAM byte |
| Nrom.Nrom.UpperMirrorsLower | nescore/src/mapper/nrom.rs:38-54 | on a one-bank cartridge $C000-$FFFF reads the same bytes as $8000-$BFFF |
| Mmc1.LoadShift | nescore/src/mapper/mmc1.rs:74-88 | the data bit enters at bit 5; a value comes out exactly when the old register had bit 0 set, and then the register restarts at 0x10 |
| Mmc1.LoadKeepsReachable | nescore/src/mapper/mmc1.rs:74-88 | loading keeps the shift register a marker bit followed by data bits |
| Mmc1.ShiftOutputIsEven | nescore/src/mapper/mmc1.rs:74-88 | the value a final write returns always has bit 0 clear |
| Mmc1.FiveWrites | nescore/src/mapper/mmc1.rs:74-88 | from the initial register four writes return nothing and the fifth returns the five data bits at positions 1 to 5 and resets the register |
| Mmc1.MirroringOf | nescore/src/mapper/mmc1.rs:91-97 | control bits 0-1 select one-screen lower, one-screen upper, vertical or horizontal |
| Mmc1.PrgModeOf | nescore/src/mapper/mmc1.rs:99-104 | control bits 2-3 select 32K switching (0 or 1), $C000 switching (2) or $8000 switching (3) |
| Mmc1.ChrModeOf | nescore/src/mapper/mmc1.rs:106-109 | the CHR mode is 4K exactly when mask 0x04 is set in the control value |
| Mmc1.PrgSwitchSize | nescore/src/mapper/mmc1.rs:111-116 | PRG banks are 32 KiB in 32K mode and 16 KiB otherwise |
| Mmc1.WriteControl | nescore/src/mapper/mmc1.rs:90-117 | the mirroring and both bank modes follow the control value and no other register changes |
| Mmc1.ControlIgnoresHighBits | nescore/src/mapper/mmc1.rs:90-117 | only bits 0-3 of the control value matter |
| Mmc1.WriteRegisters | nescore/src/mapper/mmc1.rs:119-155 | $8000-$9FFF write control, $A000-$BFFF CHR bank 0, $C000-$DFFF CHR bank 1 (five bits each), $E000-$FFFF the PRG bank (four bits); lower addresses and the shift register are untouched |
| Mmc1.WriteSpec | nescore/src/mapper/mmc1.rs:189-200 | bit 7 resets the shift register and writes control 0x0C; otherwise the bit is shifted in and the fifth write passes bit 0 of the assembled value to the register window |
| Mmc1.ResetWrite | nescore/src/mapper/mmc1.rs:189-200 | a reset write gives one-screen-lower mirroring, $8000 PRG switching and 4K CHR mode and leaves the bank selections alone |
| Mmc1.WriteKeepsReachable | nescore/src/mapper/mmc1.rs:189-200 | every write keeps the register file reachable, since a register write always stores bit 0 of an even value |
| Mmc1.WritesFromPowerOn | nescore/src/mapper/mmc1.rs:189-200 | after any sequence of writes from power-on the PRG and CHR bank selections are still 0 |
| Mmc1.ReachableAfter | nescore/src/mapper/mmc1.rs:189-200 | any sequence of writes keeps a reachable register file reachable |
| Mmc1.Mmc1.constructor | nescore/src/mapper/mmc1.rs:54-72 | power-on registers, zeroed PRG RAM, PRG and CHR ROM in their cartridge bank sizes |
| Mmc1.Mmc1.Read | nescore/src/mapper/mmc1.rs:159-187 | $6000-$7FFF read PRG RAM; in 32K mode the selected 32 KiB bank; in $8000 mode the selected bank then the last; in $C000 mode the first bank then the selected one |
| Mmc1.Mmc1.Write | nescore/src/mapper/mmc1.rs:189-200 | the registers move as WriteSpec says, PRG ROM is re-sliced exactly when control is written, and RAM and ROM contents never change |
| Mmc1.Mmc1.WriteControlRegister | nescore/src/mapper/mmc1.rs:90-117 | the registers move as WriteControl says and PRG ROM is re-sliced into the new bank size |
| Mmc1.Mmc1.WriteRegisterWindow | nescore/src/mapper/mmc1.rs:133-155 | the registers move as WriteRegisters says; PRG ROM is re-sliced only for the control window |
| Unrom.Unrom.constructor | nescore/src/mapper/unrom.rs:42-48 | bank selection 0; nothing of the cartridge is kept |
| Unrom.Unrom.Read | nescore/src/mapper/unrom.rs:50-52 | every read gives 0 |
| Unrom.Unrom.Write | nescore/src/mapper/unrom.rs:54-63 | a write to $8000-$FFFF sets the selection to the unmasked data; lower writes change nothing |
| Unrom.SelectAndRead | nescore/src/mapper/unrom.rs:50-63 | after a selecting write the selection is the data and reads still give 0 |
| Cnrom.Cnrom.constructor | nescore/src/mapper/cnrom.rs:29-40 | PRG and CHR ROM cut into whole 16 KiB and 8 KiB banks, CHR bank 0, the header's PRG bank count kept |
| Cnrom.Cnrom.Read | nescore/src/mapper/cnrom.rs:43-58 | $C000-$FFFF read the last PRG bank; $8000-$BFFF the last bank on a one-bank header and the first otherwise; lower addresses give 0 |
| Cnrom.Cnrom.Write | nescore/src/mapper/cnrom.rs:60-64 | a write to $8000-$FFFF selects CHR bank `data & 3`; lower writes change nothing |
| Cnrom.Cnrom.ReadChr | nescore/src/mapper/cnrom.rs:66-73 | pattern addresses read the selected 8 KiB CHR bank; higher addresses give 0 |
| Cnrom.CnromExamples | nescore/src/mapper/cnrom.rs:84-135 | the tests: a one-bank header shows the last bank at $8000 and $C000, and selecting CHR bank 1 shows the second 8 KiB |
| Cnrom.CnromPrg32kExample | nescore/src/mapper/cnrom.rs:97-113 | the `prg_32k` test: with two PRG banks $8000-$BFFF show the first bank and $C000-$FFFF the last |
| Axrom.Axrom.constructor | nescore/src/mapper/axrom.rs:20-30 | PRG ROM in 32 KiB banks, zeroed 8 KiB CHR RAM, bank 0, no single-screen mirroring |
| Axrom.Axrom.Read | nescore/src/mapper/axrom.rs:34-41 | $8000-$FFFF read the selected 32 KiB bank; lower addresses give 0 |
| Axrom.Axrom.Write | nescore/src/mapper/axrom.rs:43-50 | a write to $8000-$FFFF selects bank `data & 7` and single-screen mirroring exactly when bit 4 is set; lower writes change nothing |
| Axrom.Axrom.WriteChr | nescore/src/mapper/axrom.rs:52-58 | one CHR RAM byte changes, it reads back, and every other CHR byte reads as before |
| Axrom.Axrom.Mirroring | nescore/src/mapper/axrom.rs:60-67 | one-screen-upper mirroring exactly when the select bit is set, otherwise none |
| Axrom.MirroringFollowsWrites | nescore/src/mapper/axrom.rs:43-67 | a write with bit 4 set turns single-screen mirroring on and one with bit 4 clear turns it off |
| Mapper.MapperKindOf | nescore/src/mapper/mapper.rs:47-56 | mapper numbers 0, 1, 2, 3 and 7 select NROM, MMC1, UNROM, CNROM and AxROM; every other number panics |
| Mapper.FromCartridge | nescore/src/mapper/mapper.rs:47-62 | the mapper the header names, wrapped with the header's mirroring flags |
| Mapper.NametableRoundTrip | nescore/src/mapper/base.rs:185-197 | whatever the mirroring, a byte written at $2000 + i reads back at $3000 + i |
| Mapper.PaletteRoundTrip | nescore/src/mapper/base.rs:199-228 | a palette byte written at $3F00 + i reads back, low six bits kept, at $3F20 + i, and $3F10 reads as $3F00 |
| PpuRegs.Shl | nescore/src/ppu/regs.rs:35-43 | a flag shifted to bit n is that bit alone when set and 0 otherwise |
| PpuRegs.PpuCtrl.Value | nescore/src/ppu/regs.rs:35-43 | for a well-formed register, bits 0-1 are the base nametable and bits 2-7 the increment mode, sprite table, background table, sprite size, master/slave and NMI flags |
| PpuRegs.PpuCtrl.Nametable | nescore/src/ppu/regs.rs:45-49 | the base nametable address is one of $2000, $2400, $2800, $2C00, selected by the two base bits |
| PpuRegs.CtrlFrom | nescore/src/ppu/regs.rs:23-33 | PPUCTRL's base is bits 0-1 and each flag is its own bit (increment mode bit 2 ... NMI enable bit 7) |
| PpuRegs.CtrlRoundTrip | nescore/src/ppu/regs.rs:23-43 | unpacking then packing PPUCTRL gives every byte back |
| PpuRegs.CtrlRoundTripFlags | nescore/src/ppu/regs.rs:23-43 | packing then unpacking a PPUCTRL with a two-bit base gives its fields back |
| PpuRegs.CtrlExamples | nescore/src/ppu/regs.rs:110-136 | the tests: 0xFF sets every flag and packs back to 0xFF, and base values 0-3 select $2000-$2C00 |
| PpuRegs.PpuMask.Value | nescore/src/ppu/regs.rs:94-103 | bit n is set exactly when flag n is: greyscale, left background, left sprites, background, sprites, red, green, blue |
| PpuRegs.PpuStatus.Value | nescore/src/ppu/regs.rs:60-66 | with the low bits within five bits, they pass through and bits 5, 6, 7 are sprite overflow, sprite-0 hit and vblank |
| PpuRegs.StatusExample | nescore/src/ppu/regs.rs:138-148 | the three flags alone give 0xE0 |
| PpuRegs.MaskFrom | nescore/src/ppu/regs.rs:81-92 | PPUMASK flag i is bit i, greyscale bit 0 to blue emphasis bit 7 |
| PpuRegs.MaskRoundTrip | nescore/src/ppu/regs.rs:81-105 | unpacking then packing PPUMASK gives every byte back |
| PpuRegs.MaskRoundTripFlags | nescore/src/ppu/regs.rs:81-105 | packing then unpacking PPUMASK gives the flags back |
| PpuHw.TileValue | nescore/src/ppu/hw.rs:40-46 | the 2-bit colour at a position: bit 0 from the low plane and bit 1 from the high plane at that position |
| PpuHw.TickShiftsColours | nescore/src/ppu/hw.rs:32-46 | one tick moves every colour one position down |
| PpuHw.LoadIntoClearPlane | nescore/src/ppu/hw.rs:51-55 | loading into a plane whose upper byte is clear puts the new byte there and keeps the lower byte |
| PpuHw.TileRegister.constructor | nescore/src/ppu/hw.rs:22-29 | both planes start at 0 |
| PpuHw.TileRegister.Tick | nescore/src/ppu/hw.rs:32-36 | both planes shift right by one |
| PpuHw.TileRegister.Load | nescore/src/ppu/hw.rs:51-55 | the two bytes are ORed into the upper bytes of the planes, which are not cleared first |
| PpuHw.TileLoadAndShift | nescore/src/ppu/hw.rs:103-117 | the test: after loading (0x03, 0x02) and eight ticks, position 0 reads 1 and position 1 reads 3 |
| PpuHw.ShiftIn | nescore/src/ppu/hw.rs:77-81 | a palette shift register after a tick holds its old bits one place down and the latch bit at the top |
| PpuHw.EightShiftsFill | nescore/src/ppu/hw.rs:77-81 | eight ticks fill the register with the latch bit whatever it held |
| PpuHw.PaletteRegister.constructor | nescore/src/ppu/hw.rs:65-74 | both shift registers and the latch start at 0 |
| PpuHw.PaletteRegister.Tick | nescore/src/ppu/hw.rs:77-81 | latch bit 0 enters the low register and latch bit 1 the high one, at the top; the latch stays |
| PpuHw.PaletteRegister.Latch | nescore/src/ppu/hw.rs:94-96 | only the latch changes |
| PpuHw.PaletteRegister.GetValue | nescore/src/ppu/hw.rs:85-91 | the 2-bit value at a position: bit 0 from the low register and bit 1 from the high register |
| PpuHw.PaletteLatchAndShift | nescore/src/ppu/hw.rs:119-132 | the test, for every latch: after eight ticks every position reads the latch's two low bits |
| Sprite.Sprite.Palette | nescore/src/ppu/sprite.rs:28-30 | the sprite palette is the two low attribute bits |
| Sprite.FromBytes | nescore/src/ppu/sprite.rs:17-25 | Y from byte 0, tile from byte 1, attributes from byte 2, X from byte 3; a shorter slice panics |
| Sprite.FromBytesRoundTrip | nescore/src/ppu/sprite.rs:17-25 | decoding an OAM entry and laying it out again gives its four bytes back |
| Sprite.BytesRoundTrip | nescore/src/ppu/sprite.rs:17-25 | laying out a sprite and decoding it gives the sprite back |
| Sprite.AttributesIndependent | nescore/src/ppu/sprite.rs:28-43 | priority and the two flip flags read only attribute bits 5-7, apart from the palette bits |
| Sprite.SpriteExamples | nescore/src/ppu/sprite.rs:49-69 | the tests: field order of a decoded entry, and attribute 0xFF giving palette 3 with every flag set |
| Joy.ButtonBit | nescore/src/joy.rs:12-21 | each button is a bit number below 8 |
| Joy.ButtonBitsDistinct | nescore/src/joy.rs:12-21 | different buttons have different bits |
| Joy.Index | nescore/src/joy.rs:23-26 | a controller selects state 0 or 1 |
| Joy.PressState | nescore/src/joy.rs:43-54 | after a press or release exactly that button's bit follows `pressed` and every other bit is kept |
| Joy.ShiftedLowBit | nescore/src/joy.rs:66-78 | bit 0 of the shift register after k reads is bit k of the latched state |
| Joy.Joy.constructor | nescore/src/joy.rs:32-36 | strobe clear, both states and shift registers zero |
| Joy.Joy.ApplyStrobe | nescore/src/joy.rs:56-62 | with the strobe set both shift registers reload from the states; otherwise nothing changes |
| Joy.Joy.ControllerInput | nescore/src/joy.rs:43-54 | one button of one controller changes, the other controller is kept, and the strobe is re-applied |
| Joy.Joy.Input | nescore/src/joy.rs:39-41 | controller 1's button changes and controller 2 is kept |
| Joy.Joy.ReadByte | nescore/src/joy.rs:66-78 | a read of $4016 or $4017 returns bit 0 of that controller's shift register and shifts it down by one; other addresses panic |
| Joy.Joy.WriteByte | nescore/src/joy.rs:81-89 | a write to $4016 sets the strobe from bit 0 and re-applies it; other addresses change nothing |
| Joy.ReadButtons | nescore/src/joy.rs:66-78 | eight reads after latching return the latched state bit by bit, A first and Right last |
| Joy.JoyExamples | nescore/src/joy.rs:96-148 | the tests: a press latched by a strobe pulse reads back on the right port |
| ApuDivider.RunKeepsPeriod | nescore/src/apu/chnl/div.rs:26-39 | ticks never change the period |
| ApuDivider.CountDown | nescore/src/apu/chnl/div.rs:26-39 | the first k ticks from a counter of k or more only count down |
| ApuDivider.RunAdds | nescore/src/apu/chnl/div.rs:26-39 | a ticks and then b more are a + b ticks |
| ApuDivider.FullCycle | nescore/src/apu/chnl/div.rs:26-39 | counter + 1 ticks bring the divider back to its reloaded state, firing on the last tick only |
| ApuDivider.Periodic | nescore/src/apu/chnl/div.rs:26-47 | after a reset to period p the divider fires on tick n exactly when n mod (p + 1) = p |
| ApuDivider.DefaultFiresAlways | nescore/src/apu/chnl/div.rs:17-39 | the default divider fires on every tick |
| ApuDivider.Divider.constructor | nescore/src/apu/chnl/div.rs:17-22 | counter and period start at 0 |
| ApuDivider.Divider.Tick | nescore/src/apu/chnl/div.rs:26-39 | fires and reloads the period at zero, otherwise counts down without firing |
| ApuDivider.Divider.Reset | nescore/src/apu/chnl/div.rs:41-43 | the counter restarts from the period |
| ApuDivider.Divider.SetPeriod | nescore/src/apu/chnl/div.rs:45-47 | only the period changes; the counter is left as it is |
| ApuDivider.DividerExample | nescore/src/apu/chnl/div.rs:58-73 | the test: period 3 after a reset fires on every fourth tick |
| ApuTimer.WithHigh | nescore/src/apu/chnl/timer.rs:25-29 | the period's high byte is replaced and its low byte kept |
| ApuTimer.WithLow | nescore/src/apu/chnl/timer.rs:31-35 | the period's low byte is replaced and its high byte kept |
| ApuTimer.HalvesCompose | nescore/src/apu/chnl/timer.rs:25-35 | writing both halves in either order gives hi * 256 + lo whatever the period was before |
| ApuTimer.Timer.constructor | nescore/src/apu/chnl/timer.rs:12-16 | a default divider and period 0 |
| ApuTimer.Timer.Tick | nescore/src/apu/chnl/timer.rs:19-21 | the divider ticks and reports its firing; the period stays |
| ApuTimer.Timer.SetPeriodHigh | nescore/src/apu/chnl/timer.rs:25-29 | the new high byte goes into the period, which the divider takes and restarts from |
| ApuTimer.Timer.SetPeriodLow | nescore/src/apu/chnl/timer.rs:31-35 | the new low byte goes into the period, which the divider takes and restarts from |
| ApuTimer.Timer.SetPeriod | nescore/src/apu/chnl/timer.rs:37-40 | the whole period changes and the divider's counter is not restarted |
| ApuTimer.Timer.Reset | nescore/src/apu/chnl/timer.rs:46-48 | the divider restarts from the unchanged period |
| ApuTimer.TimerExample | nescore/src/apu/chnl/timer.rs:59-72 | the test: period 5 after a reset fires on the sixth tick and not before |
| ApuLength.LoadValue | nescore/src/apu/chnl/lenctr.rs:32-35 | every entry of the 32-entry length table is a positive count, entry 0 being 10 |
| ApuLength.LoadIndex | nescore/src/apu/chnl/pulse.rs:47-50 | the length index in bits 7-3 of register 3 addresses the table |
| ApuLength.LengthStep | nescore/src/apu/chnl/lenctr.rs:46-53 | a tick never raises the counter and keeps a disabled counter at zero |
| ApuLength.LengthRunCount | nescore/src/apu/chnl/lenctr.rs:46-53 | n ticks of an enabled, running counter take it down by n, stopping at zero; a halted or disabled counter does not move |
| ApuLength.LengthEnable | nescore/src/apu/chnl/lenctr.rs:56-61 | disabling clears the counter, enabling keeps it, and the halt flag stays |
| ApuLength.LengthRunAdds | nescore/src/apu/chnl/lenctr.rs:46-53 | a ticks and then b more are a + b ticks |
| ApuLength.LoadZeroLastsTen | nescore/src/apu/chnl/lenctr.rs:32-53 | a counter loaded with entry 0 still sounds after 9 ticks and is silent after 10 |
| ApuLength.LengthCounter.constructor | nescore/src/apu/chnl/lenctr.rs:38-43 | disabled, running and zero |
| ApuLength.LengthCounter.Tick | nescore/src/apu/chnl/lenctr.rs:46-53 | counts down when enabled, not halted and not already zero |
| ApuLength.LengthCounter.SetEnable | nescore/src/apu/chnl/lenctr.rs:56-61 | the enable flag changes and disabling forces the counter to zero |
| ApuLength.LengthCounter.Load | nescore/src/apu/chnl/lenctr.rs:63-67 | only an enabled counter takes the table value; a disabled one stays silent |
| ApuLength.LengthCounter.SetHalt | nescore/src/apu/chnl/lenctr.rs:69-71 | only the halt flag changes |
| ApuLength.LoadZeroExample | nescore/src/apu/chnl/lenctr.rs:81-98 | the `simple` test: after load(0) the counter still sounds after nine ticks and is silent after the tenth |
| ApuLength.HaltExample | nescore/src/apu/chnl/lenctr.rs:100-117 | the `halt` test: a halted counter skips a tick, so the silence comes one tick later |
| ApuLength.DisabledLoadExample | nescore/src/apu/chnl/lenctr.rs:119-126 | the `no_load_when_disabled` test: loading a disabled counter leaves it silent |
| ApuEnvelope.DownCounter.constructor | nescore/src/apu/chnl/envelope.rs:28-32 | the derived default: the counter starts at 0 |
| ApuEnvelope.DownCounter.Tick | nescore/src/apu/chnl/envelope.rs:35-46 | expires exactly at zero, where the counter stays; otherwise counts down |
| ApuEnvelope.DownCounter.Reload | nescore/src/apu/chnl/envelope.rs:49-51 | the counter takes the reload value |
| ApuEnvelope.EnvelopeStep | nescore/src/apu/chnl/envelope.rs:70-88 | a tick keeps volume, constant and loop settings, clears the start flag and keeps the decay level within 15 |
| ApuEnvelope.EnvelopeOutput | nescore/src/apu/chnl/envelope.rs:107-114 | a constant envelope outputs its volume, a decaying one its decay level |
| ApuEnvelope.RunAdds | nescore/src/apu/chnl/envelope.rs:70-88 | a ticks and then b more are a + b ticks |
| ApuEnvelope.DividerPeriod | nescore/src/apu/chnl/envelope.rs:70-88 | from a running envelope whose divider stands at k, k + 1 ticks reload the divider with the volume and clock the decay level once |
| ApuEnvelope.DecayAfterPeriods | nescore/src/apu/chnl/envelope.rs:70-88 | after the start tick the decay level falls by one every volume + 1 ticks |
| ApuEnvelope.SixteenthPeriod | nescore/src/apu/chnl/envelope.rs:70-88 | after sixteen periods the level is back at 15 when looping and stays 0 otherwise |
| ApuEnvelope.ConstantOutput | nescore/src/apu/chnl/envelope.rs:107-114 | a constant envelope outputs its volume however often it is ticked |
| ApuEnvelope.RunKeepsSettings | nescore/src/apu/chnl/envelope.rs:70-88 | ticks never change the volume, constant and loop settings |
| ApuEnvelope.Envelope.constructor | nescore/src/apu/chnl/envelope.rs:58-67 | every field zero or false |
| ApuEnvelope.Envelope.Tick | nescore/src/apu/chnl/envelope.rs:70-88 | the state moves as EnvelopeStep says |
| ApuEnvelope.Envelope.SetVolume | nescore/src/apu/chnl/envelope.rs:91-93 | only the volume changes |
| ApuEnvelope.Envelope.SetLoop | nescore/src/apu/chnl/envelope.rs:95-97 | only the loop flag changes |
| ApuEnvelope.Envelope.SetConstant | nescore/src/apu/chnl/envelope.rs:99-101 | only the constant flag changes |
| ApuEnvelope.Envelope.Start | nescore/src/apu/chnl/envelope.rs:103-105 | only the start flag is set, so the next tick reloads divider and decay |
| ApuEnvelope.ClockPeriod | nescore/src/apu/chnl/envelope.rs:206-211 | n ticks in a row move the envelope n steps |
| ApuEnvelope.DecayExample | nescore/src/apu/chnl/envelope.rs:130-177 | the decay tests: volume 10, started, then read after each of 16 periods, give 15 down to 0 and then 15 when looping, 0 when not |
| ApuEnvelope.NextLevel | nescore/src/apu/chnl/envelope.rs:130-177 | one 11-tick period of the tests' envelope takes its decay level one step down, and the sixteenth wraps or stops |
| ApuPulse.PulseWrite | nescore/src/apu/chnl/pulse.rs:29-53 | a write to register 0-3 changes exactly that register's byte as it reads back; any other register panics |
| ApuPulse.WriteControl | nescore/src/apu/chnl/pulse.rs:31-36 | duty, halt, constant and volume come from register 0 and the other registers keep their bytes |
| ApuPulse.WriteSweep | nescore/src/apu/chnl/pulse.rs:37-42 | sweep enable, period, negate and shift come from register 1 and the other registers keep their bytes |
| ApuPulse.WriteTimerLow | nescore/src/apu/chnl/pulse.rs:43-45 | the timer's low byte is register 2 and the other registers keep their bytes |
| ApuPulse.WriteLoad | nescore/src/apu/chnl/pulse.rs:46-50 | timer bits 10-8 and the length index come from register 3 and the other registers keep their bytes |
| ApuPulse.ControlRoundTrip | nescore/src/apu/chnl/pulse.rs:31-36 | the decoded control fields pack back into the written byte |
| ApuPulse.SweepRoundTrip | nescore/src/apu/chnl/pulse.rs:37-42 | the decoded sweep fields pack back into the written byte |
| ApuPulse.TimerLow | nescore/src/apu/chnl/pulse.rs:43-45 | register 2 replaces the low timer byte, keeps the high one, and keeps the timer within 11 bits |
| ApuPulse.TimerHigh | nescore/src/apu/chnl/pulse.rs:46-50 | register 3 sets timer bits 10-8, keeps the low byte, and the written byte can be recovered |
| ApuPulse.RegistersDetermineState | nescore/src/apu/chnl/pulse.rs:29-53 | two decoded states with the same four register bytes are equal, so the channel holds exactly the bytes last written |
| ApuPulse.ControlRegister | nescore/src/apu/chnl/pulse.rs:31-36 | register 0 alone determines duty, halt, constant-volume flag and volume |
| ApuPulse.SweepRegister | nescore/src/apu/chnl/pulse.rs:37-42 | register 1 alone determines the sweep enable, period, negate and shift fields |
| ApuPulse.TimerRegisters | nescore/src/apu/chnl/pulse.rs:43-50 | registers 2 and 3 together determine the 11-bit timer and the length index |
| ApuPulse.Pulse.constructor | nescore/src/apu/chnl/pulse.rs:10-22 | every register reads as zero |
| ApuPulse.Pulse.ReadByte | nescore/src/apu/chnl/pulse.rs:25-27 | the registers are write-only and read as 0 |
| ApuPulse.Pulse.WriteByte | nescore/src/apu/chnl/pulse.rs:29-53 | the state moves as PulseWrite says |
| ApuPulse.Pulse.WriteControlReg | nescore/src/apu/chnl/pulse.rs:31-36 | the state moves as WriteControl says |
| ApuPulse.Pulse.WriteSweepReg | nescore/src/apu/chnl/pulse.rs:37-42 | the state moves as WriteSweep says |
| ApuPulse.Pulse.WriteTimerLowReg | nescore/src/apu/chnl/pulse.rs:43-45 | the state moves as WriteTimerLow says |
| ApuPulse.Pulse.WriteLoadReg | nescore/src/apu/chnl/pulse.rs:46-50 | the state moves as WriteLoad says |
| ApuPulse.Pulse.Tick | nescore/src/apu/chnl/pulse.rs:56-58 | the clock changes nothing |
| ApuPulseChannel.LoadIndexBits | nescore/src/apu/chnl/pulse.rs:46-50 | the register's length index is the length table index |
| ApuPulseChannel.ChannelWrite | nescore/src/apu/apu.rs:143-170 | the registers take the byte; register 3 loads an enabled length counter from its index and restarts the envelope; registers 1 and 2 leave length and envelope alone |
| ApuPulseChannel.LoadSounds | nescore/src/apu/apu.rs:206-213 | a register 3 write to an enabled channel makes its length status report sounding |
| ApuPulseChannel.PulseChannel.constructor | nescore/src/apu/apu.rs:52-70 | zero registers, a disabled length counter and a default envelope |
| ApuPulseChannel.PulseChannel.ReadByte | nescore/src/apu/chnl/pulse.rs:25-27 | write-only registers read as 0 |
| ApuPulseChannel.PulseChannel.WriteByte | nescore/src/apu/apu.rs:143-170 | the state moves as ChannelWrite says |
| ApuPulseChannel.PulseChannel.Tick | nescore/src/apu/chnl/pulse.rs:56-58 | the channel's clock changes nothing |
| ApuPulseChannel.PulseChannel.EnableLength | nescore/src/apu/apu.rs:150-156 | only the length counter's enable changes, clearing it when disabled |
| ApuPulseChannel.PulseChannel.ClockLength | nescore/src/apu/apu.rs:215-220 | only the length counter ticks |
| ApuPulseChannel.PulseChannel.ClockEnvelope | nescore/src/apu/apu.rs:222-226 | only the envelope ticks |
| ApuPulseChannel.PulseChannel.ClockSweep | nescore/src/apu/apu.rs:228-231 | no sweep unit exists, so nothing changes |
| ApuTriangle.SequenceShape | nescore/src/apu/chnl/triangle.rs:34-35 | the 32-step sequence falls from 15 to 0 over its first half and rises from 0 to 15 over its second |
| ApuTriangle.LinearReloadAsWritten | nescore/src/apu/chnl/triangle.rs:85 | the reload value as written, `data & 0xEF`, is a byte |
| ApuTriangle.ReloadAsWrittenLeaksControl | nescore/src/apu/chnl/triangle.rs:80-86 | as written, 0x90 (control set, count 16) reloads 128 where the seven-bit count is 16 |
| ApuTriangle.LinearReload | nescore/src/apu/chnl/triangle.rs:80-86 | corrected: the reload value is a seven-bit count |
| ApuTriangle.ControlReloadSplit | nescore/src/apu/chnl/triangle.rs:80-86 | register 0 splits exactly into the control flag and the corrected reload value |
| ApuTriangle.TriangleOutput | nescore/src/apu/chnl/triangle.rs:44-46 | the output is the sequence entry at the index, within 0..15 |
| ApuTriangle.TriangleStep | nescore/src/apu/chnl/triangle.rs:50-54 | a tick keeps the index within the sequence and leaves the length counter, linear counter and period alone |
| ApuTriangle.TriangleRunAdds | nescore/src/apu/chnl/triangle.rs:50-54 | a ticks and then b more are a + b ticks |
| ApuTriangle.TimerPeriod | nescore/src/apu/chnl/triangle.rs:50-54 | from a timer counter of c, c + 1 ticks reload the timer and step the sequence once exactly when the channel is sounding |
| ApuTriangle.OnePeriod | nescore/src/apu/chnl/triangle.rs:50-54 | a sounding triangle with a freshly reset timer steps once per timer period |
| ApuTriangle.StepsPerPeriod | nescore/src/apu/chnl/triangle.rs:50-54 | k timer periods move a sounding triangle k places round the sequence and change nothing else |
| ApuTriangle.PeriodsSteps | nescore/src/apu/chnl/triangle.rs:50-54 | the same, with k periods of ticks counted one period at a time |
| ApuTriangle.SilentHolds | nescore/src/apu/chnl/triangle.rs:50-54 | a triangle whose length or linear counter is zero never leaves its place in the sequence |
| ApuTriangle.ClockLinearState | nescore/src/apu/chnl/triangle.rs:58-69 | a pending reload loads the reload value, otherwise the counter counts down to zero; the reload flag survives only while the control flag is set |
| ApuTriangle.LinearCountDown | nescore/src/apu/chnl/triangle.rs:58-69 | without a pending reload n clocks take the linear counter down by n, stopping at zero |
| ApuTriangle.ControlKeepsReloading | nescore/src/apu/chnl/triangle.rs:58-69 | with the control flag set every clock reloads the counter and the reload flag stays |
| ApuTriangle.TriangleWrite | nescore/src/apu/chnl/triangle.rs:78-101 | a write to registers 0-3 keeps the channel well formed; any other register panics; register 0 takes the corrected reload value |
| ApuTriangle.WriteControl | nescore/src/apu/chnl/triangle.rs:80-86 | register 0 sets the control flag and the length halt from bit 7 and the reload value from the other seven bits (the corrected `& 0x7F`, where the Rust code has `& 0xEF`); nothing else changes |
| ApuTriangle.WriteTimerLow | nescore/src/apu/chnl/triangle.rs:90-92 | register 2 replaces the period's low byte, keeps its high byte and restarts the timer; nothing else changes |
| ApuTriangle.WriteLoad | nescore/src/apu/chnl/triangle.rs:93-98 | register 3 sets period bits 10-8 and restarts the timer, loads an enabled length counter and sets the reload flag |
| ApuTriangle.PeriodFromRegisters | nescore/src/apu/chnl/triangle.rs:90-98 | writing registers 2 then 3 sets the period to hi * 256 + lo whatever it was and restarts the timer |
| ApuTriangle.Triangle.constructor | nescore/src/apu/chnl/triangle.rs:24-38 | default timer and length counter, every counter and flag zero, index 0 |
| ApuTriangle.Triangle.Output | nescore/src/apu/chnl/triangle.rs:44-46 | the output is within 0..15 |
| ApuTriangle.Triangle.Tick | nescore/src/apu/chnl/triangle.rs:50-54 | the state moves as TriangleStep says |
| ApuTriangle.Triangle.ClockLinear | nescore/src/apu/chnl/triangle.rs:58-69 | the state moves as ClockLinearState says |
| ApuTriangle.Triangle.ReadByte | nescore/src/apu/chnl/triangle.rs:74-76 | the registers are write-only and read as 0 |
| ApuTriangle.Triangle.WriteByte | nescore/src/apu/chnl/triangle.rs:78-101 | the state moves as TriangleWrite says, with the corrected reload value |
| ApuTriangle.Triangle.WriteControlReg | nescore/src/apu/chnl/triangle.rs:80-86 | the state moves as WriteControl says, with the corrected reload value |
| ApuTriangle.Triangle.WriteLoadReg | nescore/src/apu/chnl/triangle.rs:93-98 | the state moves as WriteLoad says |
| ApuTriangle.Triangle.EnableLength | nescore/src/apu/chnl/lenctr.rs:17-30 | only the length counter's enable changes, clearing it when disabled |
| ApuTriangle.Triangle.ClockLength | nescore/src/apu/chnl/lenctr.rs:17-30 | only the length counter ticks |
| ApuTriangle.BasicTriangleExample | nescore/src/apu/chnl/triangle.rs:108-130 | the `basic_triangle` test: the output reads 15 down to 0 and then 0 up to 15, one step every two ticks |
| ApuTriangle.BasicSetUp | nescore/src/apu/chnl/triangle.rs:110-119 | the test's set-up leaves a sounding triangle with timer period 1 at index 0 |
| ApuTriangle.TwoTicks | nescore/src/apu/chnl/triangle.rs:132-136 | two ticks of the test's triangle move it one step round the sequence |
| ApuNoise.NoisePeriodsIncrease | nescore/src/apu/chnl/noise.rs:10 | the period table is strictly increasing and every entry is an even count between 4 and 4068 |
| ApuNoise.Feedback | nescore/src/apu/chnl/noise.rs:53-55 | the feedback is a single bit |
| ApuNoise.Shift | nescore/src/apu/chnl/noise.rs:57-60 | one shift moves bits 14-1 down one place and puts the feedback bit in bit 14, keeping the register within 15 bits |
| ApuNoise.ShiftFromOne | nescore/src/apu/chnl/noise.rs:51-62 | the power-on register 1 shifts a 1 into bit 14 in either mode |
| ApuNoise.NoiseStep | nescore/src/apu/chnl/noise.rs:51-62 | a tick keeps the register within 15 bits and non-zero and leaves length, envelope, mode and period alone |
| ApuNoise.NeverLocksUp | nescore/src/apu/chnl/noise.rs:51-62 | however long it runs, the register keeps 15 bits and never reaches zero |
| ApuNoise.ShiftsOnlyOnFire | nescore/src/apu/chnl/noise.rs:51-62 | the register shifts on exactly the ticks where the timer fires |
| ApuNoise.RunKeepsLoop | nescore/src/apu/chnl/noise.rs:51-62 | ticks never change the mode flag |
| ApuNoise.NoiseOutputAsWritten | nescore/src/apu/chnl/noise.rs:40-47 | as written, the envelope plays exactly when bit 0 is set or the length counter has run out, and 0 otherwise |
| ApuNoise.NoiseOutput | nescore/src/apu/chnl/noise.rs:40-47 | corrected: 0 when bit 0 is set or the length counter has run out, the envelope otherwise |
| ApuNoise.OutputsComplement | nescore/src/apu/chnl/noise.rs:40-47 | the written and corrected outputs are complementary: one of them is always 0 and together they make the envelope output |
| ApuNoise.MutedChannelSounds | nescore/src/apu/chnl/noise.rs:40-47 | a channel whose length counter has run out, at constant volume 15, plays 15 as written and is silent as intended |
| ApuNoise.NoiseWrite | nescore/src/apu/chnl/noise.rs:71-92 | a write to registers 0-3 keeps the channel well formed; any other register panics |
| ApuNoise.WriteControl | nescore/src/apu/chnl/noise.rs:73-79 | bit 5 halts the length counter and loops the envelope, bit 4 selects constant volume, bits 3-0 the volume; nothing else changes |
| ApuNoise.WriteMode | nescore/src/apu/chnl/noise.rs:81-84 | bit 7 selects the short mode and bits 3-0 the table period, without restarting the timer; nothing else changes |
| ApuNoise.WriteLoad | nescore/src/apu/chnl/noise.rs:85-88 | an enabled length counter loads from bits 7-3 and the envelope restarts; nothing else changes |
| ApuNoise.Noise.constructor | nescore/src/apu/chnl/noise.rs:23-33 | default units, long mode, and the shift register at 1 |
| ApuNoise.Noise.Output | nescore/src/apu/chnl/noise.rs:40-47 | 0 when the channel is silenced (bit 0 of the shift register set, or the length counter at 0), the envelope's output otherwise; this is the corrected condition, the inverse of the Rust code's |
| ApuNoise.Noise.Tick | nescore/src/apu/chnl/noise.rs:51-62 | the state moves as NoiseStep says |
| ApuNoise.Noise.ShiftOnce | nescore/src/apu/chnl/noise.rs:53-60 | the register moves as Shift says |
| ApuNoise.Noise.ReadByte | nescore/src/apu/chnl/noise.rs:67-69 | the registers are write-only and read as 0 |
| ApuNoise.Noise.WriteByte | nescore/src/apu/chnl/noise.rs:71-92 | the state moves as NoiseWrite says |
| ApuNoise.Noise.WriteControlReg | nescore/src/apu/chnl/noise.rs:73-79 | the state moves as WriteControl says |
| ApuNoise.Noise.ClockEnvelope | nescore/src/apu/chnl/envelope.rs:18-27 | only the envelope ticks |
| ApuNoise.Noise.EnableLength | nescore/src/apu/chnl/lenctr.rs:17-30 | only the length counter's enable changes, clearing it when disabled |
| ApuNoise.Noise.ClockLength | nescore/src/apu/chnl/lenctr.rs:17-30 | only the length counter ticks |
| ApuDmc.FreqLookupShape | nescore/src/apu/chnl/dmc.rs:12 | higher rate indices are shorter periods and every entry halves exactly |
| ApuDmc.RatePeriod | nescore/src/apu/chnl/dmc.rs:113 | the timer period register 0 selects lies between 27 and 214 |
| ApuDmc.SampleAddress | nescore/src/apu/chnl/dmc.rs:116 | the sample starts at $C000 + 64 d, between $C000 and $FFC0 |
| ApuDmc.SampleLength | nescore/src/apu/chnl/dmc.rs:117 | the sample is 16 d + 1 bytes long, between 1 and 4081 |
| ApuDmc.DirectLoadAsWrittenDropsBit4 | nescore/src/apu/chnl/dmc.rs:115 | as written, `data & 0xEF` loads 0 for 0x10 where 16 is meant, and 239 for 0xFF, a level outside seven bits |
| ApuDmc.DirectLoad | nescore/src/apu/chnl/dmc.rs:115 | corrected: the direct load is the seven-bit level in bits 6-0 |
| ApuDmc.NextAddr | nescore/src/apu/chnl/dmc.rs:46-52 | the reader's next address stays in $8000-$FFFF, wrapping from $FFFF to $8000 |
| ApuDmc.AddrWalk | nescore/src/apu/chnl/dmc.rs:46-52 | after k fetches from an address in $8000-$FFFF the reader is at $8000 + (a - $8000 + k) mod $8000 |
| ApuDmc.StartCycle | nescore/src/apu/chnl/dmc.rs:136-150 | the reader restarts at the sample's address and length, 8 bits remain, and the buffered byte moves into the shift register; with no byte the cycle is silent |
| ApuDmc.Fetch | nescore/src/apu/chnl/dmc.rs:41-69 | the memory reader keeps the level within seven bits and the bit count within 8 and leaves output level and timer alone |
| ApuDmc.BusRead | nescore/src/apu/chnl/dmc.rs:42-44 | a byte is read exactly when a bus is attached |
| ApuDmc.NoFetch | nescore/src/apu/chnl/dmc.rs:41 | a full buffer or an exhausted sample fetches nothing |
| ApuDmc.FetchReads | nescore/src/apu/chnl/dmc.rs:41-69 | a fetch that does not end a looping sample buffers the byte at the current address, moves to the next address and leaves one byte fewer |
| ApuDmc.LoopRestarts | nescore/src/apu/chnl/dmc.rs:54-61 | the last byte of a looping sample rewinds the reader to the start of the sample |
| ApuDmc.OutputLevel | nescore/src/apu/chnl/dmc.rs:72-81 | only the level changes, by 2 at most, and only when not silent and within 2..125: up exactly when bit 0 of the shift register is set |
| ApuDmc.ShiftOut | nescore/src/apu/chnl/dmc.rs:83-91 | shifting out a bit keeps the level within seven bits and the bit count within 8 and leaves level and timer alone |
| ApuDmc.CountBit | nescore/src/apu/chnl/dmc.rs:85-91 | counting a bit keeps the level within seven bits and the bit count within 8 and leaves level and timer alone |
| ApuDmc.CycleEndRewindsReader | nescore/src/apu/chnl/dmc.rs:85-91 | the end of every 8-bit output cycle restarts the reader at the start of the sample |
| ApuDmc.DmcStep | nescore/src/apu/chnl/dmc.rs:39-93 | a tick keeps the level within seven bits and the bit count within 8 |
| ApuDmc.LevelStaysSevenBit | nescore/src/apu/chnl/dmc.rs:39-93 | however long the channel runs, its level stays a seven-bit value |
| ApuDmc.DmcWrite | nescore/src/apu/chnl/dmc.rs:108-120 | register 0 sets IRQ, loop and the rate period without restarting the timer; 1 the direct load (the corrected `& 0x7F`, where the Rust code has `& 0xEF`); 2 the sample address; 3 the sample length; nothing else changes; other registers panic |
| ApuDmc.SetEnableState | nescore/src/apu/chnl/dmc.rs:128-134 | enabling starts a cycle at the sample's address and length; disabling changes only the flag |
| ApuDmc.EnableGivesStatus | nescore/src/apu/chnl/dmc.rs:128-154 | enabling after a sample length write makes the status true, and disabling leaves the status as it was |
| ApuDmc.Dmc.constructor | nescore/src/apu/chnl/dmc.rs:14-36 | every field zero or false, no buffered byte, no bus |
| ApuDmc.Dmc.LoadBus | nescore/src/apu/chnl/dmc.rs:124-126 | the bus is attached and nothing else changes |
| ApuDmc.Dmc.Output | nescore/src/apu/chnl/dmc.rs:97-99 | the output is within seven bits |
| ApuDmc.Dmc.ReadByte | nescore/src/apu/chnl/dmc.rs:104-106 | the registers are write-only and read as 0 |
| ApuDmc.Dmc.WriteByte | nescore/src/apu/chnl/dmc.rs:108-120 | the state moves as DmcWrite says, with the corrected direct load |
| ApuDmc.Dmc.SetEnable | nescore/src/apu/chnl/dmc.rs:128-134 | the state moves as SetEnableState says |
| ApuDmc.Dmc.StartCycleNow | nescore/src/apu/chnl/dmc.rs:136-150 | the state moves as StartCycle says |
| ApuDmc.Dmc.Tick | nescore/src/apu/chnl/dmc.rs:39-93 | the state moves as DmcStep says, reading through the attached bus |
| ApuDmc.Dmc.FetchSample | nescore/src/apu/chnl/dmc.rs:41-69 | the state moves as Fetch says |
| ApuDmc.Dmc.ClockOutputUnit | nescore/src/apu/chnl/dmc.rs:72-81 | the state moves as OutputLevel says |
| ApuDmc.Dmc.ShiftOutBit | nescore/src/apu/chnl/dmc.rs:83-91 | the state moves as ShiftOut says |
| ApuDmc.Dmc.CountOutputBit | nescore/src/apu/chnl/dmc.rs:85-91 | the state moves as CountBit says |
| ApuSequencer.Period | nescore/src/apu/seq.rs:91-94 | a frame lasts 14915 APU cycles in 4-step mode and 18641 in 5-step mode |
| ApuSequencer.CyclesToStep | nescore/src/apu/seq.rs:111-120 | a step is found only at its own cycle count |
| ApuSequencer.StepCyclesFire | nescore/src/apu/seq.rs:111-120 | every step is found at its cycle, and steps are found exactly at cycles 3728, 7456, 11185, 14914 and 18640 |
| ApuSequencer.Step4Events | nescore/src/apu/seq.rs:122-127 | step four raises the IRQ event exactly in 4-step mode without inhibit, and gives no events in 5-step mode |
| ApuSequencer.NextCycle | nescore/src/apu/seq.rs:91-94 | the cycle counter counts up and wraps to 0 at the frame's end, staying below the period |
| ApuSequencer.SeqStep | nescore/src/apu/seq.rs:69-97 | a tick keeps mode and inhibit, keeps the counter within the frame, and sets the frame IRQ flag exactly when it was set or the tick raises the IRQ event |
| ApuSequencer.SeqLoad | nescore/src/apu/seq.rs:50-59 | a load restarts the frame, selects 5-step mode from bit 7 and inhibit from bit 6, and clears the frame IRQ flag when inhibiting |
| ApuSequencer.LoadValueRoundTrip | nescore/src/apu/seq.rs:50-65 | reading the register after a load gives bits 7 and 6 of the loaded byte |
| ApuSequencer.IrqRead | nescore/src/apu/seq.rs:101-106 | reading the IRQ status returns the frame IRQ flag and clears it; nothing else changes |
| ApuSequencer.Count | nescore/src/apu/seq.rs:147-155 | a tick's three events add at most three to any tally |
| ApuSequencer.QuietStep | nescore/src/apu/seq.rs:69-97 | away from the step cycles and the frame end, a tick only advances the counter |
| ApuSequencer.StepOneOrThree | nescore/src/apu/seq.rs:75-77 | steps one and three clock envelopes and the linear counter only |
| ApuSequencer.StepTwo | nescore/src/apu/seq.rs:76 | step two clocks envelopes and lengths |
| ApuSequencer.StepFour | nescore/src/apu/seq.rs:78-84 | step four gives step4's events; in 4-step mode it ends the frame and sets the frame IRQ flag unless inhibited |
| ApuSequencer.StepFive | nescore/src/apu/seq.rs:85 | step five clocks envelopes and lengths and ends a 5-step frame |
| ApuSequencer.WholeFrame | nescore/src/apu/seq.rs:69-97 | a whole frame from cycle 0 clocks envelopes 4 times and lengths twice, raises one IRQ exactly in 4-step mode without inhibit, and ends back at cycle 0 |
| ApuSequencer.Step4Frame | nescore/src/apu/seq.rs:134-165 | 14915 ticks in 4-step mode: 4 envelope clocks, 2 length clocks, 1 IRQ unless inhibited |
| ApuSequencer.Step5Frame | nescore/src/apu/seq.rs:167-194 | 18641 ticks in 5-step mode: 4 envelope clocks, 2 length clocks, no IRQ, and the state back where it began |
| ApuSequencer.FrameSequencer.constructor | nescore/src/apu/seq.rs:38-47 | cycle 0, 4-step mode, no inhibit, no frame IRQ |
| ApuSequencer.FrameSequencer.Load | nescore/src/apu/seq.rs:50-59 | the state moves as SeqLoad says |
| ApuSequencer.FrameSequencer.Value | nescore/src/apu/seq.rs:61-65 | the register reads back mode in bit 7 and inhibit in bit 6 |
| ApuSequencer.FrameSequencer.Tick | nescore/src/apu/seq.rs:69-97 | the state moves as SeqStep says and the events are that cycle's |
| ApuSequencer.FrameSequencer.IrqStatus | nescore/src/apu/seq.rs:101-106 | the result and the new state are IrqRead's |
| ApuSequencer.ClockFrame | nescore/src/apu/seq.rs:145-156 | n ticks with their events tallied end where n steps of the tally function end |
| ApuSequencer.Step4ModeExample | nescore/src/apu/seq.rs:134-165 | the 4-step test: tallies 4, 2, 1, then the IRQ status reads true once and false after |
| ApuSequencer.Step5ModeExample | nescore/src/apu/seq.rs:167-194 | the 5-step test: tallies 4, 2, 0 |
| ApuSequencer.SetModeExample | nescore/src/apu/seq.rs:196-207 | the `set_mode` test: loading 0x80 reads back 0x80, loading 0x00 reads back 0x00 |
| AudioUnit.Decode | nescore/src/apu/apu.rs:130-140 | $4000-$4013 are exactly the channel registers, four per channel counted from the channel's base; $4015 is the status port and $4017 the frame counter |
| AudioUnit.DecodeEncode | nescore/src/apu/apu.rs:143-170 | every register has one address: decoding a port's address gives the port back |
| AudioUnit.EncodeDecode | nescore/src/apu/apu.rs:143-170 | every address the APU answers to is the address of the port it decodes to |
| AudioUnit.StatusByte | nescore/src/apu/apu.rs:206-213 | bits 0-3 are set exactly when the pulse 1, pulse 2, triangle and noise length counters have not run out, bit 4 exactly when the DMC has bytes left, bit 6 exactly when the frame IRQ is latched; bits 5 and 7 are clear |
| AudioUnit.StatusNeedsEnable | nescore/src/apu/apu.rs:206-213 | a length bit of the status is only set for an enabled channel |
| AudioUnit.ApuRead | nescore/src/apu/apu.rs:130-140 | channel registers read 0, $4017 reads the sequencer's mode bits, $4015 reads the status byte and clears the frame IRQ, and nothing else in the APU changes |
| AudioUnit.StatusReadTwice | nescore/src/apu/seq.rs:101-106 | a second status read gives the first one with the frame IRQ bit cleared |
| AudioUnit.WriteChannel | nescore/src/apu/apu.rs:145-149 | a channel register write keeps every channel's and the sequencer's invariants |
| AudioUnit.EnableWrite | nescore/src/apu/apu.rs:150-156 | a $4015 write keeps the invariants |
| AudioUnit.ClockLengths | nescore/src/apu/apu.rs:215-220 | clocking the four length counters keeps the invariants |
| AudioUnit.FrameCounterWrite | nescore/src/apu/apu.rs:157-167 | a $4017 write keeps the invariants |
| AudioUnit.ApuWrite | nescore/src/apu/apu.rs:143-170 | any write to a mapped address keeps the invariants |
| AudioUnit.WriteRouting | nescore/src/apu/apu.rs:145-149 | a write to $4000-$4013 changes only the addressed channel, through that channel's own register write at the offset from its base |
| AudioUnit.EnableEffects | nescore/src/apu/apu.rs:150-156 | after a $4015 write each channel is enabled exactly when its bit of the data is set, the sequencer is untouched, and a length status bit can only be set if the written bit was |
| AudioUnit.FrameCounterEffects | nescore/src/apu/apu.rs:157-167 | a $4017 write reloads the sequencer (reading back bits 7 and 6), clocks each length counter once exactly when bit 7 is set, and leaves the DMC alone |
| AudioUnit.ClockEnvelopes | nescore/src/apu/apu.rs:222-226 | clocking the pulse and noise envelopes keeps the invariants |
| AudioUnit.Dispatch | nescore/src/apu/apu.rs:92-109 | handling one sequencer event keeps the invariants |
| AudioUnit.ClockChannels | nescore/src/apu/apu.rs:111-123 | the per-cycle channel clocks keep the invariants |
| AudioUnit.ApuStep | nescore/src/apu/apu.rs:90-126 | a whole APU cycle keeps the invariants |
| AudioUnit.DispatchLengths | nescore/src/apu/apu.rs:98-101 | an event clocks every length counter once if it is a length event and not at all otherwise, and leaves the sequencer alone |
| AudioUnit.DispatchEnvelopes | nescore/src/apu/apu.rs:94-97 | an event clocks the three envelopes and the triangle's linear counter once if it is an envelope event and not at all otherwise |
| AudioUnit.StepLengths | nescore/src/apu/apu.rs:90-126 | one APU cycle makes the sequencer's step and clocks every length counter as many times as that step emits length events |
| AudioUnit.RunLengths | nescore/src/apu/apu.rs:90-126 | n APU cycles leave the sequencer where n of its own ticks would and clock every length counter as often as those ticks emit length events |
| AudioUnit.Step4FrameLengths | nescore/src/apu/apu.rs:289-293 | a 4-step frame of 14915 cycles from the frame's start clocks every length counter exactly twice and returns the sequencer to the start with the frame IRQ latched unless inhibited |
| AudioUnit.Apu.constructor | nescore/src/apu/apu.rs:51-87 | every channel at its default, 4-step mode, no bus |
| AudioUnit.Apu.LoadBus | nescore/src/apu/apu.rs:233-236 | the bus is attached; nothing else changes |
| AudioUnit.Apu.Tick | nescore/src/apu/apu.rs:90-126 | the new state is ApuStep's and the invariants hold |
| AudioUnit.Apu.HandleEvent | nescore/src/apu/apu.rs:93-108 | the new state is Dispatch's |
| AudioUnit.Apu.ClockUnits | nescore/src/apu/apu.rs:111-123 | the new state is ClockChannels' |
| AudioUnit.Apu.ClockLength | nescore/src/apu/apu.rs:215-220 | the new state is ClockLengths' |
| AudioUnit.Apu.ClockEnvelope | nescore/src/apu/apu.rs:222-226 | the new state is ClockEnvelopes' |
| AudioUnit.Apu.ClockSweep | nescore/src/apu/apu.rs:228-231 | the state is unchanged |
| AudioUnit.Apu.Status | nescore/src/apu/apu.rs:206-213 | result and new state are those of a $4015 read |
| AudioUnit.Apu.ReadByte | nescore/src/apu/apu.rs:130-140 | result and new state are ApuRead's |
| AudioUnit.Apu.WriteByte | nescore/src/apu/apu.rs:143-170 | the new state is ApuWrite's |
| AudioUnit.Apu.WriteChannelReg | nescore/src/apu/apu.rs:145-149 | the new state is WriteChannel's |
| AudioUnit.Apu.EnableUnits | nescore/src/apu/apu.rs:150-156 | the new state is EnableWrite's |
| AudioUnit.RunTicks | nescore/src/apu/apu.rs:289-293 | n ticks leave the APU in ApuRun's state for n cycles |
| AudioUnit.RunFrame | nescore/src/apu/apu.rs:289-293 | one 4-step frame clocks every length counter twice and returns the sequencer to the frame's start |
| AudioUnit.PulseLengthSetup | nescore/src/apu/apu.rs:253-262 | after the test's four writes both pulse counters are enabled with ten clocks to run, in 4-step mode at the frame's start |
| AudioUnit.PulseLengthExample | nescore/src/apu/apu.rs:251-287 | the `pulse_lenctr` test: both pulses report active at the start and after four frames, inactive after five |
| LegacyApu.Status | nescore/src/apu.rs:82-86 | bits 0-2 are set exactly when the pulse 1, pulse 2 and triangle length counters have not run out; no other bit is set |
| LegacyApu.Read | nescore/src/apu.rs:42-53 | channel, noise and DMC registers read 0, $4015 the status byte, $4017 the sequencer's mode bits |
| LegacyApu.ClockLengths | nescore/src/apu.rs:29-33 | clocking the three length counters keeps the channel invariants |
| LegacyApu.EnableWrite | nescore/src/apu.rs:61-65 | a $4015 write keeps the channel invariants |
| LegacyApu.Write | nescore/src/apu.rs:54-78 | any write to a mapped address keeps the channel invariants |
| LegacyApu.Dispatch | nescore/src/apu.rs:26-37 | handling one sequencer event keeps the channel invariants |
| LegacyApu.Cycle | nescore/src/apu.rs:24-39 | one tick keeps the channel invariants |
| LegacyApu.StatusIsLowBits | nescore/src/apu.rs:82-86 | the old status byte is the current APU's status byte restricted to its three low bits |
| LegacyApu.EnableAgrees | nescore/src/apu.rs:61-65 | a $4015 write does to the old APU's channels what it does to the same channels of the current APU |
| LegacyApu.FrameCounterWriteDiffers | nescore/src/apu.rs:66-75 | a $4017 write with bit 7 set but other bits too clocks no length counter here, where the current APU clocks them |
| LegacyApu.DispatchLengths | nescore/src/apu.rs:26-37 | an event clocks the three length counters once if it is a length event and not at all otherwise |
| LegacyApu.StepTracks | nescore/src/apu.rs:24-39 | one tick moves the sequencer and the length counters exactly as one cycle of the current APU moves them |
| LegacyApu.Step4FrameLengths | nescore/src/apu.rs:130-134 | a 4-step frame of 14915 ticks clocks the three length counters twice and returns the sequencer to the start with the frame IRQ latched unless inhibited |
| LegacyApu.Apu.constructor | nescore/src/apu.rs:15-22 | the derived default state |
| LegacyApu.Apu.Tick | nescore/src/apu.rs:24-39 | the new state is Cycle's |
| LegacyApu.Apu.HandleEvent | nescore/src/apu.rs:27-36 | the new state is Dispatch's |
| LegacyApu.Apu.ClockLength | nescore/src/apu.rs:30-32 | the new state is ClockLengths' |
| LegacyApu.Apu.GetStatus | nescore/src/apu.rs:82-86 | the status byte, with bits 3-7 clear |
| LegacyApu.Apu.ReadByte | nescore/src/apu.rs:42-53 | the result is Read's and the state is not changed |
| LegacyApu.Apu.WriteByte | nescore/src/apu.rs:54-78 | the new state is Write's |
| LegacyApu.RunTicks | nescore/src/apu.rs:130-134 | n ticks leave the state n cycles on |
| LegacyApu.RunFrame | nescore/src/apu.rs:130-134 | one 4-step frame clocks each length counter twice and returns the sequencer to the frame's start |
| LegacyApu.PulseLengthSetup | nescore/src/apu.rs:94-103 | after the test's writes both pulse counters are enabled with ten clocks to run, at the start of a 4-step frame |
| LegacyApu.PulseLengthExample | nescore/src/apu.rs:92-128 | the `pulse_lenctr` test: both pulses active at the start and after four frames, inactive after five |
| DownSampling.Stride | nescore/src/utils/sampler.rs:19-24 | the stride is the largest number of whole output periods in the input rate: stride times output rate is at most the input rate, one more stride exceeds it |
| DownSampling.StepBy | nescore/src/utils/sampler.rs:31-33 | the kept samples number ceil(len / stride), and the i-th is the buffer's sample at i strides |
| DownSampling.StepByAt | nescore/src/utils/sampler.rs:31-33 | the k-th sample kept is the buffer's sample k * stride, which lies inside the buffer |
| DownSampling.StrideOneKeepsAll | nescore/src/utils/sampler.rs:31-33 | with a stride of one the whole buffer is kept |
| DownSampling.DownsampleExample | nescore/src/utils/sampler.rs:40-46 | the `downsample` test: 100 samples from rate 100 to rate 10 leave 10 |
| ChrImage.PixelOf | nescli/src/img.rs:42-53 | a pixel is a 2-bit pattern value whose low bit is bit x of plane byte y and whose high bit is bit x of plane byte y + 8 |
| ChrImage.TilePixels | nescli/src/img.rs:39-57 | a decoded tile has 64 pixels |
| ChrImage.TilePixelAt | nescli/src/img.rs:42-54 | the pixel at index y * 8 + x is pixel (x, y) of the pattern data |
| ChrImage.TilePixelsInRange | nescli/src/img.rs:42-53 | every decoded pixel is below 4 |
| ChrImage.DecodedPixel | nescli/src/img.rs:42-53 | pixel (x, y) is 2 for the high plane's bit plus 1 for the low plane's bit |
| ChrImage.TileBytes | nescli/src/img.rs:91-93 | a tile's slice is 16 bytes long |
| ChrImage.Tile.constructor | nescli/src/img.rs:30-36 | a fresh tile of 64 zero pixels |
| ChrImage.Tile.From | nescli/src/img.rs:39-57 | the tile's pixels are the decoded pattern data |
| ChrImage.Tile.FillRow | nescli/src/img.rs:42-54 | filling row y sets every pixel of that row to its decoded pattern value and leaves the other rows alone |
| ChrImage.RowFilledAt | nescli/src/img.rs:46-53 | setting the pixels x up to 7 of row y, the last first, gives each its pattern value and leaves every other byte of the tile alone |
| ChrImage.Tile.SetData | nescli/src/img.rs:59-61 | only the pixel at y * 8 + x changes, to the given value, and reads back |
| ChrImage.TileProvider.From | nescli/src/img.rs:75-83 | the provider starts at tile 0 and holds as many tiles as whole 16-byte blocks fit in the data |
| ChrImage.TileProvider.Next | nescli/src/img.rs:89-98 | while tiles remain, the next tile is the one decoded from the current 16-byte block and the position advances by one; at the end it yields None and stays put |
| ChrImage.DecodeAll | nescli/src/img.rs:115-124 | iterating a fresh provider yields exactly len / 16 tiles, the k-th decoded from bytes 16k to 16k + 16 |
| ChrImage.DecodedTiles | nescli/src/img.rs:86-99 | the first n tiles a provider yields number n |
| ChrImage.DecodedTilesAt | nescli/src/img.rs:86-99 | tile k among them is the decoding of bytes 16k to 16k + 16 |
| ChrImage.PatternColor | nescli/src/img.rs:101-109 | the values 0-3 map to greys (black for 0, white for 3) and every other value has no colour (the panic) |
| ChrImage.PatternColorMonotone | nescli/src/img.rs:101-109 | a higher pattern value is a lighter grey |
| ChrImage.DecodedTileHasColors | nescli/src/img.rs:130-136 | no pixel of a decoded tile makes pattern_to_color panic |
| NesClock.SlotEvents | nescore/src/nes.rs:67-75 | every slot clocks the PPU first and only once; the CPU is clocked exactly in slots 0 and 3, the APU exactly in slot 0 |
| NesClock.Occurrences | nescore/src/nes.rs:269-282 | a count of at most the number of events, positive exactly when the event occurs |
| NesClock.Next | nescore/src/nes.rs:77 | the counter stays within the six slots |
| NesClock.NextIsModular | nescore/src/nes.rs:77 | the next slot is the counter plus one modulo 6 |
| NesClock.Slot | nescore/src/nes.rs:77 | n ticks keep the counter within the six slots |
| NesClock.SlotIsModular | nescore/src/nes.rs:77 | n ticks from slot c reach slot (c + n) mod 6 |
| NesClock.SlotOccurrences | nescore/src/nes.rs:67-75 | a slot clocks the PPU once, and the CPU and APU as often as the slot's table entry says |
| NesClock.SlotAdds | nescore/src/nes.rs:65-80 | a + b ticks reach the slot that a ticks and then b more reach |
| NesClock.SlotCountAdds | nescore/src/nes.rs:65-80 | the clocks given to a component over a + b ticks are those over the first a plus those over the next b |
| NesClock.SixSum | nescore/src/nes.rs:65-80 | six ticks return to the same slot, and the clocks given in them are the sum over the six slots |
| NesClock.SixTicks | nescore/src/nes.rs:67-75 | from any slot, six ticks clock the PPU 6 times, the CPU twice and the APU once, and return to the same slot |
| NesClock.ClockRatio | nescore/src/nes.rs:65-80 | from any slot, 6m ticks clock the PPU 6m times, the CPU 2m times and the APU m times: the 3:1 PPU:CPU and 2:1 CPU:APU ratios |
| NesClock.PpuEveryTick | nescore/src/nes.rs:67-75 | the PPU is clocked on every tick |
| NesClock.SystemSequencer.constructor | nescore/src/nes.rs:60-63 | the counter starts at slot 0 |
| NesClock.SystemSequencer.Tick | nescore/src/nes.rs:66-80 | the events are those of the current slot and the counter moves to the next slot modulo 6 |
| NesClock.Succ | nescore/src/nes.rs:188 | the write index stays inside the framebuffer |
| NesClock.SuccIsModular | nescore/src/nes.rs:188 | the next write index is the current one plus one modulo the buffer length |
| NesClock.Pos | nescore/src/nes.rs:186-189 | k writes keep the write index inside the framebuffer |
| NesClock.PosValue | nescore/src/nes.rs:186-189 | within one lap, k writes after idx land at idx + k, wrapped once past the end |
| NesClock.PosAdds | nescore/src/nes.rs:186-189 | a + b writes land where a writes and then b more land |
| NesSystem.NumBytes | nescore/src/nes.rs:42-49 | RGB8 pixels take three bytes and the three formats with alpha take four |
| NesSystem.FrameSize | nescore/src/nes.rs:97-115 | the framebuffer holds a whole number of pixels, exactly one per display dot |
| NesSystem.FormatColor | nescore/src/nes.rs:203-210 | four bytes whose last is 0 for RGB8 and 255 (opaque alpha) otherwise |
| NesSystem.FormatRoundTrip | nescore/src/nes.rs:203-210 | the bytes a format uses determine the pixel: reading the colour channels back in that format's order gives the pixel |
| NesSystem.Paint | nescore/src/nes.rs:186-189 | writing a pixel's bytes keeps the framebuffer's length |
| NesSystem.PaintAt | nescore/src/nes.rs:186-189 | a framebuffer byte reached by the k-th write holds the k-th byte; a byte no write reaches keeps its old value |
| NesSystem.PaintFrame | nescore/src/nes.rs:178-195 | painting a frame's pixels keeps the framebuffer's length and the write index inside it |
| NesSystem.PaintPixel | nescore/src/nes.rs:182-190 | a cycle without a pixel changes nothing; a pixel moves the write index on by the format's byte count, wrapping |
| NesSystem.PaintFrameIndex | nescore/src/nes.rs:178-195 | when every cycle yields a pixel, the write index moves on by the format's bytes per pixel times the number of cycles, wrapping |
| NesSystem.FullScreenWraps | nescore/src/nes.rs:178-195 | a full screen of pixels fills the framebuffer exactly and brings the write index back to 0 |
| NesSystem.Samples | nescore/src/nes.rs:192-194 | n collected samples form a buffer of length n |
| NesSystem.SamplesSnoc | nescore/src/nes.rs:192-194 | one more collected sample is appended at the end |
| NesSystem.SamplesAt | nescore/src/nes.rs:192-194 | the i-th collected sample is the APU's sample from its tick start + i |
| NesSystem.Cycle | nescore/src/nes.rs:178-195 | one cycle of the frame loop keeps the framebuffer's length and the progress well formed |
| NesSystem.Cycles | nescore/src/nes.rs:178-195 | n cycles keep the framebuffer's length and the progress well formed |
| NesSystem.CyclesClocks | nescore/src/nes.rs:265-285 | n cycles move the slot n places and clock the PPU n times, and the CPU and APU as often as the slots they pass say |
| NesSystem.CyclesPaint | nescore/src/nes.rs:178-195 | the framebuffer after n cycles is the painting of the PPU's next n outputs |
| NesSystem.Zeros | nescore/src/nes.rs:100 | n zero bytes |
| NesSystem.Nes.constructor | nescore/src/nes.rs:97-115 | RGB8, a zeroed framebuffer of the RGB8 frame size, no cartridge, the sequencer at slot 0, no unit clocked yet |
| NesSystem.Nes.SetPixelFormat | nescore/src/nes.rs:144-149 | the format is set and the framebuffer is replaced by a fresh zeroed one of that format's frame size; nothing else changes |
| NesSystem.Nes.Insert | nescore/src/nes.rs:293-308 | the cartridge is present; framebuffer, format and clocks are unchanged |
| NesSystem.Nes.Eject | nescore/src/nes.rs:317-319 | the cartridge's battery RAM, or nothing without a cartridge |
| NesSystem.Nes.HandleEvent | nescore/src/nes.rs:270-281 | a PPU event takes the PPU's next output, an APU event the APU's next sample, and each event clocks only its own unit |
| NesSystem.Nes.ClockComponents | nescore/src/nes.rs:265-285 | every call clocks the PPU once and returns its output; the CPU and APU are clocked as the current slot says, and a sample comes back exactly in slot 0 |
| NesSystem.Nes.FrameCycle | nescore/src/nes.rs:178-195 | one loop iteration moves the state as Cycle says and appends a sample exactly in slot 0 |
| NesSystem.Nes.EmulateFrame | nescore/src/nes.rs:171-199 | without a cartridge nothing changes and no samples come back; with one, the framebuffer holds the frame's pixels painted from index 0 with wrap-around, the units are clocked in the 6-slot pattern, and the samples are the APU's outputs of those cycles in order |
| NesSystem.Nes.LoopStep | nescore/src/nes.rs:178-195 | one more iteration keeps the loop where Cycles puts it after one more cycle, with the samples of every APU tick so far, and leaves the framebuffer array, format and cartridge as they were |
| NesSystem.Nes.RunCycles | nescore/src/nes.rs:178-195 | the loop's state after `cycles` iterations is Cycles', and the samples are the APU's outputs in order |
| NesSystem.Nes.WritePixel | nescore/src/nes.rs:186-189 | the bytes are written as Paint says and the index moves on by their number, wrapping |
| NesSystem.Nes.RunAudio | nescore/src/nes.rs:218-229 | the buffer holds exactly the APU's next n samples, in order |
| NesSystem.NoCartridgeExample | nescore/src/nes.rs:171-199 | without a cartridge a frame is all zeros, returns no audio, and eject returns no RAM |

## Left out

- Floating point: the APU's nonlinear mixer (`mix` and its lookup tables) is not modelled. An APU cycle ends before mixing, and at the system level samples are opaque reals.
- File and device I/O: `load_file`, `from_path` and `CartridgeLoader::load` in cart.rs, and the image creation and saving in img.rs `dispatch`.
- Front ends: the SDL, piston, libretro and plotting front ends.
- Logging: the event senders of nes.rs and apu/apu.rs, and the logging module.
- Rc/RefCell wiring: `Nes::insert` only records the cartridge's battery RAM. The PPU, CPU and APU bus objects (ppu/bus.rs, apu/bus.rs) are not built.
- The DMC's bus is a parameter: no bus, or a total function from addresses to bytes.
- The APU's IRQs are counted instead of being raised on a CPU.
- The CPU's executor and the PPU's renderer (cpu/cpu.rs, ppu/ppu.rs) are not part of this model. The system level takes the PPU's output and the APU's samples as functions of their tick number.
- `Nes::entry`, `debug_mode`, `run_until` and `is_holding` depend on the CPU, so they are left out.
- `Nes::input` and `controller_input` only forward to `Joy`, which is modelled.
- NesSystem.Nes.EmulateFrame: the number of PPU cycles per frame is a parameter, and the display is fixed at 256x240. ppu/ppu.rs, which defines both, is not part of this model.
- DownSampling.Stride: the rates are natural numbers, not f32, so the truncating float division becomes integer division. An output rate of 0 is excluded.
- ApuPulseChannel.ChannelWrite: the pulse channel's length counter and envelope are an assumption. They are wired the way noise.rs wires its own, because pulse.rs of this revision has neither.
- AudioUnit.Apu.ClockSweep: there is no sweep unit, so this clock changes nothing. For the same reason, pulse 2's two's-complement negate mode is not modelled.
- AudioUnit.Apu: the channels and the sequencer are fields holding state values, not separate objects. Aliasing between channel objects is therefore not represented.
- LegacyApu: the earlier APU runs on the current channel and sequencer modules, because the revisions it was written against are not part of this model.
- MapperBase.MapperBase.ReadChr: NROM, MMC1 and UNROM have no `read_chr` in this revision, so pattern-table reads ($0000-$1FFF) through those mappers are excluded.
- MapperBase.MapperBase.WriteChr: pattern-table writes through NROM, MMC1 and UNROM are excluded for the same reason.
- MapperBase.MapperBase.NametableIndex: in four-screen mode this gives each address its own byte through the corrected `ApplyMirroring`. base.rs:87-95 indexes the 4 KiB buffer with the raw address there, so every such access panics (first finding).
- MapperBase.MapperBase.ReadChr: four-screen nametable reads and palette reads at $3F40-$3FFF return the byte at the corrected index. The Rust code panics on both (first and second findings).
- MapperBase.MapperBase.WriteChr: four-screen nametable writes and palette writes at $3F40-$3FFF store at the corrected index. The Rust code panics on both (first and second findings).
- Mapper.NametableRoundTrip: for a four-screen cartridge the round trip holds only for the corrected index. The Rust code panics on the first write.
- ApuTriangle.WriteControl: stores the corrected reload value `data & 0x7F`. triangle.rs:85 stores `data & 0xEF`, so 0x10 reloads 0 and 0x90 reloads 128 there (third finding).
- ApuTriangle.TriangleWrite: register 0 goes through the corrected WriteControl.
- ApuTriangle.Triangle.WriteControlReg: runs the corrected reload value, as WriteControl does.
- ApuTriangle.Triangle.WriteByte: register 0 runs the corrected reload value, as WriteControl does.
- ApuDmc.DmcWrite: register 1 loads the corrected `data & 0x7F`. dmc.rs:115 loads `data & 0xEF`, so 0xFF gives 239 there and 127 here. The DMC invariant's 7-bit output level holds only because of this (fourth finding).
- ApuDmc.Dmc.WriteByte: register 1 runs the corrected direct load, as DmcWrite does.
- ApuNoise.Noise.Output: returns the corrected output, 0 when silenced. noise.rs:40-47 plays the envelope exactly when the channel is silenced (fifth finding).
- AudioUnit.WriteRouting: triangle and DMC register writes go through the corrected channel writes above.
- AudioUnit.ApuWrite: inherits the corrected triangle reload and DMC direct load through WriteRouting.
- AudioUnit.Apu.WriteByte: inherits the corrected triangle reload and DMC direct load through ApuWrite.
- AudioUnit.WriteChannel: triangle and DMC register writes run the corrected channel writes.
- AudioUnit.Apu.WriteChannelReg: inherits the corrected triangle reload and DMC direct load through WriteChannel.
- LegacyApu.Write: triangle register writes run the corrected reload value through TriangleWrite.
- LegacyApu.Apu.WriteByte: inherits the corrected triangle reload through Write.
- Opcode tables: no lemma compares the cycle tables of cpu/state.rs and asm/mod.rs over every instruction and mode. Only the category tables are compared (`CpuState.CategoriesAgree`), plus the pairs where the two cycle tables part ways (`CpuState.CompareIsUnreachable`).
- Cartridge info: `get_info_common`, `get_info_ines` and `get_info_nes2` fill a `CartridgeInfo` field by field. The model builds the same record as a value.
- ApuDivider: the divider's u32 fields are natural numbers. They only ever hold a timer period or a count down from one, so no wrap-around is lost.

## Findings

| source | as written | input that shows it | evidently intended | confidence | as-written member | corrected member |
|---|---|---|---|---|---|---|
| nescore/src/mapper/base.rs:87-95 | in four-screen mode the nametable index is the address itself | any nametable address, e.g. $2000, indexes 0x2000 into the 4 KiB nametable buffer | each of the four tables has its own kilobyte, at the address's offset from $2000 | high, not executed | MapperBase.FourScreenAsWrittenOverflows | MapperBase.ApplyMirroring |
| nescore/src/mapper/base.rs:63-64 | $3F20-$3FFF are folded back by one 32-byte mirror only | $3F40 indexes entry 32 of the 32-byte palette RAM | every 32-byte block of $3F00-$3FFF mirrors the first | high, not executed | MapperBase.PaletteAsWrittenOverflows | MapperBase.PaletteIndex |
| nescore/src/apu/chnl/triangle.rs:85 | the linear counter's reload value is `data & 0xEF` | 0x90 (control flag set, count 16) reloads 128 | the low seven bits, `data & 0x7F` | medium, not executed | ApuTriangle.ReloadAsWrittenLeaksControl | ApuTriangle.LinearReload |
| nescore/src/apu/chnl/dmc.rs:115 | the direct load is `data & 0xEF` | 0x10 loads level 0 instead of 16 | the low seven bits, `data & 0x7F` | medium, not executed | ApuDmc.DirectLoadAsWrittenDropsBit4 | ApuDmc.DirectLoad |
| nescore/src/apu/chnl/noise.rs:40-47 | the output is the envelope when the channel is silenced and 0 otherwise | a noise channel whose length counter has run out, at constant volume 15, outputs 15 | 0 when silenced, the envelope otherwise | medium, not executed | ApuNoise.MutedChannelSounds | ApuNoise.NoiseOutput |
