// The 6502 instruction set as the disassembler sees it
// (nescore/src/asm/mod.rs): addressing modes and their operand lengths,
// instruction categories, cycle counts, the opcode decoder covering the
// official and the common unofficial opcodes, and the text rendering.

module Asm {
  import opened Bits
  import opened Results
  import opened Hex

  datatype AddressingMode =
    | Accumulator | Implied | Immediate | ZeroPage | Absolute | ZeroPageX | ZeroPageY
    | AbsoluteX | AbsoluteY | Indirect | IndexedIndirect | IndirectIndexed | Relative

  datatype InstructionCategory = Read | Write | ReadModifyWrite | Branch | Implied

  datatype Instruction =
    | ADC | AND | ASL | BCC | BCS | BEQ | BIT | BMI | BNE | BPL | BRK | BVC | BVS | CLC
    | CLD | CLI | CLV | CMP | CPX | CPY | DEC | DEX | DEY | EOR | INC | INX | INY | JMP
    | JSR | LDA | LDX | LDY | LSR | NOP | ORA | PHA | PHP | PLA | PLP | ROL | ROR | RTI
    | RTS | SBC | SEC | SED | SEI | STA | STX | STY | TAX | TAY | TSX | TXA | TXS | TYA
    | LAX | SAX | DCP | ISB | SLO | RLA | RRA | SRE | ANC | ALR | ARR | AXS | SHY | SHX

  /** Number of operand bytes that follow the opcode. */
  function OperandLen(mode: AddressingMode): (n: nat)
    ensures n <= 2
    ensures n == 0 <==> mode == Accumulator || mode == AddressingMode.Implied
    ensures n == 2 <==> mode == Absolute || mode == AbsoluteX || mode == AbsoluteY || mode == Indirect
  {
    match mode
    case Accumulator => 0
    case Implied => 0
    case Immediate => 1
    case ZeroPage => 1
    case Absolute => 2
    case ZeroPageX => 1
    case ZeroPageY => 1
    case AbsoluteX => 2
    case AbsoluteY => 2
    case Indirect => 2
    case IndexedIndirect => 1
    case IndirectIndexed => 1
    case Relative => 1
  }

  /** The name `{:?}` prints: the mnemonic itself. */
  function Mnemonic(instr: Instruction): (s: string)
    ensures |s| == 3
  {
    match instr
    case ADC => "ADC" case AND => "AND" case ASL => "ASL" case BCC => "BCC" case BCS => "BCS" case BEQ => "BEQ" case BIT => "BIT"
    case BMI => "BMI" case BNE => "BNE" case BPL => "BPL" case BRK => "BRK" case BVC => "BVC" case BVS => "BVS" case CLC => "CLC"
    case CLD => "CLD" case CLI => "CLI" case CLV => "CLV" case CMP => "CMP" case CPX => "CPX" case CPY => "CPY" case DEC => "DEC"
    case DEX => "DEX" case DEY => "DEY" case EOR => "EOR" case INC => "INC" case INX => "INX" case INY => "INY" case JMP => "JMP"
    case JSR => "JSR" case LDA => "LDA" case LDX => "LDX" case LDY => "LDY" case LSR => "LSR" case NOP => "NOP" case ORA => "ORA"
    case PHA => "PHA" case PHP => "PHP" case PLA => "PLA" case PLP => "PLP" case ROL => "ROL" case ROR => "ROR" case RTI => "RTI"
    case RTS => "RTS" case SBC => "SBC" case SEC => "SEC" case SED => "SED" case SEI => "SEI" case STA => "STA" case STX => "STX"
    case STY => "STY" case TAX => "TAX" case TAY => "TAY" case TSX => "TSX" case TXA => "TXA" case TXS => "TXS" case TYA => "TYA"
    case LAX => "LAX" case SAX => "SAX" case DCP => "DCP" case ISB => "ISB" case SLO => "SLO" case RLA => "RLA" case RRA => "RRA"
    case SRE => "SRE" case ANC => "ANC" case ALR => "ALR" case ARR => "ARR" case AXS => "AXS" case SHY => "SHY" case SHX => "SHX"
  }

  /** category: how an instruction uses its operand; instructions not listed are Implied. */
  function Category(instr: Instruction): (c: InstructionCategory)
    ensures c == Write <==> instr in {STA, STX, SAX, STY}
    ensures c == Branch <==> instr in {BCC, BCS, BEQ, BMI, BNE, BPL, BVC, BVS}
  {
    match instr
    case LDA | LAX | LDX | LDY | EOR | AND | ANC | ALR | ARR | AXS | ORA | ADC | SBC | CMP | CPY | CPX | BIT => Read
    case STA | STX | SAX | STY => Write
    case ASL | SHY | SHX | LSR | ROL | ROR | DCP | ISB | SLO | RLA | RRA | SRE | INC | DEC => ReadModifyWrite
    case BCC | BCS | BEQ | BMI | BNE | BPL | BVC | BVS => Branch
    case _ => InstructionCategory.Implied
  }

  /**
   * cycle_count: the cost of an instruction in a given addressing mode;
   * None where the Rust code reaches `unreachable!`.
   */
  function CycleCount(instr: Instruction, mode: AddressingMode): (r: Option<nat>)
    ensures r.Some? ==> 1 <= r.value <= 7
    ensures mode == Indirect ==> r == Some(4)
    ensures mode == Accumulator || mode == Immediate ==> r == Some(1)
    ensures mode == Relative ==> (r.Some? <==> Category(instr) == Branch)
  {
    match mode
    case Implied =>
      (match instr
       case BRK => Some(6)
       case RTI => Some(5)
       case RTS => Some(5)
       case PHA | PHP => Some(2)
       case PLA | PLP => Some(3)
       case CLD | CLI | CLV | CLC => Some(1)
       case SEC | SED | SEI => Some(1)
       case TAX | TAY | TSX | TXA | TXS | TYA => Some(1)
       case DEX | DEY => Some(1)
       case INX | INY => Some(1)
       case NOP => Some(1)
       case _ => None)
    case Absolute =>
      (match instr
       case JMP => Some(2)
       case JSR => Some(5)
       case _ =>
         match Category(instr)
         case Read => Some(3)
         case ReadModifyWrite => Some(5)
         case Write => Some(3)
         case Implied => Some(3)
         case Branch => None)
    case AbsoluteX | AbsoluteY =>
      (match Category(instr)
       case Read => Some(4)
       case ReadModifyWrite => Some(6)
       case Write => Some(4)
       case Implied => Some(3)
       case Branch => None)
    case ZeroPage =>
      (match Category(instr)
       case Read => Some(2)
       case ReadModifyWrite => Some(4)
       case Write => Some(2)
       case Implied => Some(3)
       case Branch => None)
    case ZeroPageX | ZeroPageY =>
      (match Category(instr)
       case Read => Some(3)
       case ReadModifyWrite => Some(5)
       case Write => Some(3)
       case Implied => Some(3)
       case Branch => None)
    case Relative =>
      (match Category(instr)
       case Branch => Some(2)
       case _ => None)
    case IndexedIndirect | IndirectIndexed =>
      (match Category(instr)
       case Read => Some(5)
       case ReadModifyWrite => Some(7)
       case Write => Some(5)
       case _ => None)
    case Indirect => Some(4)
    case Accumulator | Immediate => Some(1)
  }

  /**
   * What the decoder promises of every pair it returns: cycle_count is
   * defined for it (none of its `unreachable!` arms is hit), and the mode is
   * Relative exactly for the branch instructions.
   */
  predicate DecodedWellFormed(instr: Instruction, mode: AddressingMode)
  {
    CycleCount(instr, mode).Some? && (mode == Relative <==> Category(instr) == Branch)
  }

  /** The opcodes decode rejects (the Rust code panics with "Invalid opcode"). */
  const Undecoded: set<Byte> :=
    {0x02, 0x12, 0x22, 0x32, 0x42, 0x52, 0x62, 0x72, 0x8B, 0x92, 0x93, 0x9B, 0x9F, 0xB2, 0xBB, 0xD2, 0xF2}

  /**
   * decode: the instruction and addressing mode of an opcode; None where the
   * Rust code panics. The single table of the source is laid out here row by
   * row, one function per high nibble.
   */
  function Decode(opcode: Byte): (r: Option<(Instruction, AddressingMode)>)
    ensures r.None? <==> opcode in Undecoded
    ensures r.Some? ==> DecodedWellFormed(r.value.0, r.value.1)
  {
    if opcode < 0x40 then DecodeQuarter0(opcode)
    else if opcode < 0x80 then DecodeQuarter1(opcode)
    else if opcode < 0xC0 then DecodeQuarter2(opcode)
    else DecodeQuarter3(opcode)
  }

  /** decode for the opcodes 0x00-0x3F. */
  function DecodeQuarter0(opcode: Byte): (r: Option<(Instruction, AddressingMode)>)
    requires opcode < 0x40
    ensures r.None? <==> opcode in Undecoded
    ensures r.Some? ==> DecodedWellFormed(r.value.0, r.value.1)
  {
    var lo := opcode & 0x0F;
    match opcode >> 4
    case 0x0 => DecodeRow0(lo) case 0x1 => DecodeRow1(lo) case 0x2 => DecodeRow2(lo) case _ => DecodeRow3(lo)
  }

  /** decode for the opcodes 0x40-0x7F. */
  function DecodeQuarter1(opcode: Byte): (r: Option<(Instruction, AddressingMode)>)
    requires 0x40 <= opcode < 0x80
    ensures r.None? <==> opcode in Undecoded
    ensures r.Some? ==> DecodedWellFormed(r.value.0, r.value.1)
  {
    var lo := opcode & 0x0F;
    match opcode >> 4
    case 0x4 => DecodeRow4(lo) case 0x5 => DecodeRow5(lo) case 0x6 => DecodeRow6(lo) case _ => DecodeRow7(lo)
  }

  /** decode for the opcodes 0x80-0xBF. */
  function DecodeQuarter2(opcode: Byte): (r: Option<(Instruction, AddressingMode)>)
    requires 0x80 <= opcode < 0xC0
    ensures r.None? <==> opcode in Undecoded
    ensures r.Some? ==> DecodedWellFormed(r.value.0, r.value.1)
  {
    var lo := opcode & 0x0F;
    match opcode >> 4
    case 0x8 => DecodeRow8(lo) case 0x9 => DecodeRow9(lo) case 0xA => DecodeRowA(lo) case _ => DecodeRowB(lo)
  }

  /** decode for the opcodes 0xC0-0xFF. */
  function DecodeQuarter3(opcode: Byte): (r: Option<(Instruction, AddressingMode)>)
    requires 0xC0 <= opcode
    ensures r.None? <==> opcode in Undecoded
    ensures r.Some? ==> DecodedWellFormed(r.value.0, r.value.1)
  {
    var lo := opcode & 0x0F;
    match opcode >> 4
    case 0xC => DecodeRowC(lo) case 0xD => DecodeRowD(lo) case 0xE => DecodeRowE(lo) case _ => DecodeRowF(lo)
  }

  /** decode for the opcodes 0x00-0x0F, keyed by the low nibble `lo`. */
  function DecodeRow0(lo: Byte): (r: Option<(Instruction, AddressingMode)>)
    ensures r.None? <==> lo >= 0x10 || lo == 0x2
    ensures r.Some? ==> DecodedWellFormed(r.value.0, r.value.1)
  {
    if lo < 0x08 then DecodeRow0Lo(lo) else DecodeRow0Hi(lo)
  }

  /** decode for the opcodes 0x10-0x1F, keyed by the low nibble `lo`. */
  function DecodeRow1(lo: Byte): (r: Option<(Instruction, AddressingMode)>)
    ensures r.None? <==> lo >= 0x10 || lo == 0x2
    ensures r.Some? ==> DecodedWellFormed(r.value.0, r.value.1)
  {
    if lo < 0x08 then DecodeRow1Lo(lo) else DecodeRow1Hi(lo)
  }

  /** decode for the opcodes 0x20-0x2F, keyed by the low nibble `lo`. */
  function DecodeRow2(lo: Byte): (r: Option<(Instruction, AddressingMode)>)
    ensures r.None? <==> lo >= 0x10 || lo == 0x2
    ensures r.Some? ==> DecodedWellFormed(r.value.0, r.value.1)
  {
    if lo < 0x08 then DecodeRow2Lo(lo) else DecodeRow2Hi(lo)
  }

  /** decode for the opcodes 0x30-0x3F, keyed by the low nibble `lo`. */
  function DecodeRow3(lo: Byte): (r: Option<(Instruction, AddressingMode)>)
    ensures r.None? <==> lo >= 0x10 || lo == 0x2
    ensures r.Some? ==> DecodedWellFormed(r.value.0, r.value.1)
  {
    if lo < 0x08 then DecodeRow3Lo(lo) else DecodeRow3Hi(lo)
  }

  /** decode for the opcodes 0x40-0x4F, keyed by the low nibble `lo`. */
  function DecodeRow4(lo: Byte): (r: Option<(Instruction, AddressingMode)>)
    ensures r.None? <==> lo >= 0x10 || lo == 0x2
    ensures r.Some? ==> DecodedWellFormed(r.value.0, r.value.1)
  {
    if lo < 0x08 then DecodeRow4Lo(lo) else DecodeRow4Hi(lo)
  }

  /** decode for the opcodes 0x50-0x5F, keyed by the low nibble `lo`. */
  function DecodeRow5(lo: Byte): (r: Option<(Instruction, AddressingMode)>)
    ensures r.None? <==> lo >= 0x10 || lo == 0x2
    ensures r.Some? ==> DecodedWellFormed(r.value.0, r.value.1)
  {
    if lo < 0x08 then DecodeRow5Lo(lo) else DecodeRow5Hi(lo)
  }

  /** decode for the opcodes 0x60-0x6F, keyed by the low nibble `lo`. */
  function DecodeRow6(lo: Byte): (r: Option<(Instruction, AddressingMode)>)
    ensures r.None? <==> lo >= 0x10 || lo == 0x2
    ensures r.Some? ==> DecodedWellFormed(r.value.0, r.value.1)
  {
    if lo < 0x08 then DecodeRow6Lo(lo) else DecodeRow6Hi(lo)
  }

  /** decode for the opcodes 0x70-0x7F, keyed by the low nibble `lo`. */
  function DecodeRow7(lo: Byte): (r: Option<(Instruction, AddressingMode)>)
    ensures r.None? <==> lo >= 0x10 || lo == 0x2
    ensures r.Some? ==> DecodedWellFormed(r.value.0, r.value.1)
  {
    if lo < 0x08 then DecodeRow7Lo(lo) else DecodeRow7Hi(lo)
  }

  /** decode for the opcodes 0x80-0x8F, keyed by the low nibble `lo`. */
  function DecodeRow8(lo: Byte): (r: Option<(Instruction, AddressingMode)>)
    ensures r.None? <==> lo >= 0x10 || lo == 0xB
    ensures r.Some? ==> DecodedWellFormed(r.value.0, r.value.1)
  {
    if lo < 0x08 then DecodeRow8Lo(lo) else DecodeRow8Hi(lo)
  }

  /** decode for the opcodes 0x90-0x9F, keyed by the low nibble `lo`. */
  function DecodeRow9(lo: Byte): (r: Option<(Instruction, AddressingMode)>)
    ensures r.None? <==> lo >= 0x10 || lo == 0x2 || lo == 0x3 || lo == 0xB || lo == 0xF
    ensures r.Some? ==> DecodedWellFormed(r.value.0, r.value.1)
  {
    if lo < 0x08 then DecodeRow9Lo(lo) else DecodeRow9Hi(lo)
  }

  /** decode for the opcodes 0xA0-0xAF, keyed by the low nibble `lo`. */
  function DecodeRowA(lo: Byte): (r: Option<(Instruction, AddressingMode)>)
    ensures r.None? <==> lo >= 0x10
    ensures r.Some? ==> DecodedWellFormed(r.value.0, r.value.1)
  {
    if lo < 0x08 then DecodeRowALo(lo) else DecodeRowAHi(lo)
  }

  /** decode for the opcodes 0xB0-0xBF, keyed by the low nibble `lo`. */
  function DecodeRowB(lo: Byte): (r: Option<(Instruction, AddressingMode)>)
    ensures r.None? <==> lo >= 0x10 || lo == 0x2 || lo == 0xB
    ensures r.Some? ==> DecodedWellFormed(r.value.0, r.value.1)
  {
    if lo < 0x08 then DecodeRowBLo(lo) else DecodeRowBHi(lo)
  }

  /** decode for the opcodes 0xC0-0xCF, keyed by the low nibble `lo`. */
  function DecodeRowC(lo: Byte): (r: Option<(Instruction, AddressingMode)>)
    ensures r.None? <==> lo >= 0x10
    ensures r.Some? ==> DecodedWellFormed(r.value.0, r.value.1)
  {
    if lo < 0x08 then DecodeRowCLo(lo) else DecodeRowCHi(lo)
  }

  /** decode for the opcodes 0xD0-0xDF, keyed by the low nibble `lo`. */
  function DecodeRowD(lo: Byte): (r: Option<(Instruction, AddressingMode)>)
    ensures r.None? <==> lo >= 0x10 || lo == 0x2
    ensures r.Some? ==> DecodedWellFormed(r.value.0, r.value.1)
  {
    if lo < 0x08 then DecodeRowDLo(lo) else DecodeRowDHi(lo)
  }

  /** decode for the opcodes 0xE0-0xEF, keyed by the low nibble `lo`. */
  function DecodeRowE(lo: Byte): (r: Option<(Instruction, AddressingMode)>)
    ensures r.None? <==> lo >= 0x10
    ensures r.Some? ==> DecodedWellFormed(r.value.0, r.value.1)
  {
    if lo < 0x08 then DecodeRowELo(lo) else DecodeRowEHi(lo)
  }

  /** decode for the opcodes 0xF0-0xFF, keyed by the low nibble `lo`. */
  function DecodeRowF(lo: Byte): (r: Option<(Instruction, AddressingMode)>)
    ensures r.None? <==> lo >= 0x10 || lo == 0x2
    ensures r.Some? ==> DecodedWellFormed(r.value.0, r.value.1)
  {
    if lo < 0x08 then DecodeRowFLo(lo) else DecodeRowFHi(lo)
  }

  /** decode for the opcodes 0x00-0x07, keyed by the low nibble `lo`. */
  function DecodeRow0Lo(lo: Byte): (r: Option<(Instruction, AddressingMode)>)
    ensures r.None? <==> lo >= 0x08 || lo == 0x2
    ensures r.Some? ==> DecodedWellFormed(r.value.0, r.value.1)
  {
    match lo
    case 0x0 => Some((BRK, Immediate))
    case 0x1 => Some((ORA, IndexedIndirect))
    case 0x3 => Some((SLO, IndexedIndirect))
    case 0x4 => Some((NOP, Immediate))
    case 0x5 => Some((ORA, ZeroPage))
    case 0x6 => Some((ASL, ZeroPage))
    case 0x7 => Some((SLO, ZeroPage))
    case _ => None
  }

  /** decode for the opcodes 0x08-0x0F, keyed by the low nibble `lo`. */
  function DecodeRow0Hi(lo: Byte): (r: Option<(Instruction, AddressingMode)>)
    ensures r.None? <==> lo < 0x08 || lo >= 0x10
    ensures r.Some? ==> DecodedWellFormed(r.value.0, r.value.1)
  {
    match lo
    case 0x8 => Some((PHP, AddressingMode.Implied))
    case 0x9 => Some((ORA, Immediate))
    case 0xA => Some((ASL, Accumulator))
    case 0xB => Some((ANC, Immediate))
    case 0xC => Some((NOP, Absolute))
    case 0xD => Some((ORA, Absolute))
    case 0xE => Some((ASL, Absolute))
    case 0xF => Some((SLO, Absolute))
    case _ => None
  }

  /** decode for the opcodes 0x10-0x17, keyed by the low nibble `lo`. */
  function DecodeRow1Lo(lo: Byte): (r: Option<(Instruction, AddressingMode)>)
    ensures r.None? <==> lo >= 0x08 || lo == 0x2
    ensures r.Some? ==> DecodedWellFormed(r.value.0, r.value.1)
  {
    match lo
    case 0x0 => Some((BPL, Relative))
    case 0x1 => Some((ORA, IndirectIndexed))
    case 0x3 => Some((SLO, IndirectIndexed))
    case 0x4 => Some((NOP, ZeroPageX))
    case 0x5 => Some((ORA, ZeroPageX))
    case 0x6 => Some((ASL, ZeroPageX))
    case 0x7 => Some((SLO, ZeroPageX))
    case _ => None
  }

  /** decode for the opcodes 0x18-0x1F, keyed by the low nibble `lo`. */
  function DecodeRow1Hi(lo: Byte): (r: Option<(Instruction, AddressingMode)>)
    ensures r.None? <==> lo < 0x08 || lo >= 0x10
    ensures r.Some? ==> DecodedWellFormed(r.value.0, r.value.1)
  {
    match lo
    case 0x8 => Some((CLC, AddressingMode.Implied))
    case 0x9 => Some((ORA, AbsoluteY))
    case 0xA => Some((NOP, AddressingMode.Implied))
    case 0xB => Some((SLO, AbsoluteY))
    case 0xC => Some((NOP, AbsoluteX))
    case 0xD => Some((ORA, AbsoluteX))
    case 0xE => Some((ASL, AbsoluteX))
    case 0xF => Some((SLO, AbsoluteX))
    case _ => None
  }

  /** decode for the opcodes 0x20-0x27, keyed by the low nibble `lo`. */
  function DecodeRow2Lo(lo: Byte): (r: Option<(Instruction, AddressingMode)>)
    ensures r.None? <==> lo >= 0x08 || lo == 0x2
    ensures r.Some? ==> DecodedWellFormed(r.value.0, r.value.1)
  {
    match lo
    case 0x0 => Some((JSR, Absolute))
    case 0x1 => Some((AND, IndexedIndirect))
    case 0x3 => Some((RLA, IndexedIndirect))
    case 0x4 => Some((BIT, ZeroPage))
    case 0x5 => Some((AND, ZeroPage))
    case 0x6 => Some((ROL, ZeroPage))
    case 0x7 => Some((RLA, ZeroPage))
    case _ => None
  }

  /** decode for the opcodes 0x28-0x2F, keyed by the low nibble `lo`. */
  function DecodeRow2Hi(lo: Byte): (r: Option<(Instruction, AddressingMode)>)
    ensures r.None? <==> lo < 0x08 || lo >= 0x10
    ensures r.Some? ==> DecodedWellFormed(r.value.0, r.value.1)
  {
    match lo
    case 0x8 => Some((PLP, AddressingMode.Implied))
    case 0x9 => Some((AND, Immediate))
    case 0xA => Some((ROL, Accumulator))
    case 0xB => Some((ANC, Immediate))
    case 0xC => Some((BIT, Absolute))
    case 0xD => Some((AND, Absolute))
    case 0xE => Some((ROL, Absolute))
    case 0xF => Some((RLA, Absolute))
    case _ => None
  }

  /** decode for the opcodes 0x30-0x37, keyed by the low nibble `lo`. */
  function DecodeRow3Lo(lo: Byte): (r: Option<(Instruction, AddressingMode)>)
    ensures r.None? <==> lo >= 0x08 || lo == 0x2
    ensures r.Some? ==> DecodedWellFormed(r.value.0, r.value.1)
  {
    match lo
    case 0x0 => Some((BMI, Relative))
    case 0x1 => Some((AND, IndirectIndexed))
    case 0x3 => Some((RLA, IndirectIndexed))
    case 0x4 => Some((NOP, ZeroPageX))
    case 0x5 => Some((AND, ZeroPageX))
    case 0x6 => Some((ROL, ZeroPageX))
    case 0x7 => Some((RLA, ZeroPageX))
    case _ => None
  }

  /** decode for the opcodes 0x38-0x3F, keyed by the low nibble `lo`. */
  function DecodeRow3Hi(lo: Byte): (r: Option<(Instruction, AddressingMode)>)
    ensures r.None? <==> lo < 0x08 || lo >= 0x10
    ensures r.Some? ==> DecodedWellFormed(r.value.0, r.value.1)
  {
    match lo
    case 0x8 => Some((SEC, AddressingMode.Implied))
    case 0x9 => Some((AND, AbsoluteY))
    case 0xA => Some((NOP, AddressingMode.Implied))
    case 0xB => Some((RLA, AbsoluteY))
    case 0xC => Some((NOP, AbsoluteX))
    case 0xD => Some((AND, AbsoluteX))
    case 0xE => Some((ROL, AbsoluteX))
    case 0xF => Some((RLA, AbsoluteX))
    case _ => None
  }

  /** decode for the opcodes 0x40-0x47, keyed by the low nibble `lo`. */
  function DecodeRow4Lo(lo: Byte): (r: Option<(Instruction, AddressingMode)>)
    ensures r.None? <==> lo >= 0x08 || lo == 0x2
    ensures r.Some? ==> DecodedWellFormed(r.value.0, r.value.1)
  {
    match lo
    case 0x0 => Some((RTI, AddressingMode.Implied))
    case 0x1 => Some((EOR, IndexedIndirect))
    case 0x3 => Some((SRE, IndexedIndirect))
    case 0x4 => Some((NOP, Immediate))
    case 0x5 => Some((EOR, ZeroPage))
    case 0x6 => Some((LSR, ZeroPage))
    case 0x7 => Some((SRE, ZeroPage))
    case _ => None
  }

  /** decode for the opcodes 0x48-0x4F, keyed by the low nibble `lo`. */
  function DecodeRow4Hi(lo: Byte): (r: Option<(Instruction, AddressingMode)>)
    ensures r.None? <==> lo < 0x08 || lo >= 0x10
    ensures r.Some? ==> DecodedWellFormed(r.value.0, r.value.1)
  {
    match lo
    case 0x8 => Some((PHA, AddressingMode.Implied))
    case 0x9 => Some((EOR, Immediate))
    case 0xA => Some((LSR, Accumulator))
    case 0xB => Some((ALR, Immediate))
    case 0xC => Some((JMP, Absolute))
    case 0xD => Some((EOR, Absolute))
    case 0xE => Some((LSR, Absolute))
    case 0xF => Some((SRE, Absolute))
    case _ => None
  }

  /** decode for the opcodes 0x50-0x57, keyed by the low nibble `lo`. */
  function DecodeRow5Lo(lo: Byte): (r: Option<(Instruction, AddressingMode)>)
    ensures r.None? <==> lo >= 0x08 || lo == 0x2
    ensures r.Some? ==> DecodedWellFormed(r.value.0, r.value.1)
  {
    match lo
    case 0x0 => Some((BVC, Relative))
    case 0x1 => Some((EOR, IndirectIndexed))
    case 0x3 => Some((SRE, IndirectIndexed))
    case 0x4 => Some((NOP, ZeroPageX))
    case 0x5 => Some((EOR, ZeroPageX))
    case 0x6 => Some((LSR, ZeroPageX))
    case 0x7 => Some((SRE, ZeroPageX))
    case _ => None
  }

  /** decode for the opcodes 0x58-0x5F, keyed by the low nibble `lo`. */
  function DecodeRow5Hi(lo: Byte): (r: Option<(Instruction, AddressingMode)>)
    ensures r.None? <==> lo < 0x08 || lo >= 0x10
    ensures r.Some? ==> DecodedWellFormed(r.value.0, r.value.1)
  {
    match lo
    case 0x8 => Some((CLI, AddressingMode.Implied))
    case 0x9 => Some((EOR, AbsoluteY))
    case 0xA => Some((NOP, AddressingMode.Implied))
    case 0xB => Some((SRE, AbsoluteY))
    case 0xC => Some((NOP, AbsoluteX))
    case 0xD => Some((EOR, AbsoluteX))
    case 0xE => Some((LSR, AbsoluteX))
    case 0xF => Some((SRE, AbsoluteX))
    case _ => None
  }

  /** decode for the opcodes 0x60-0x67, keyed by the low nibble `lo`. */
  function DecodeRow6Lo(lo: Byte): (r: Option<(Instruction, AddressingMode)>)
    ensures r.None? <==> lo >= 0x08 || lo == 0x2
    ensures r.Some? ==> DecodedWellFormed(r.value.0, r.value.1)
  {
    match lo
    case 0x0 => Some((RTS, AddressingMode.Implied))
    case 0x1 => Some((ADC, IndexedIndirect))
    case 0x3 => Some((RRA, IndexedIndirect))
    case 0x4 => Some((NOP, Immediate))
    case 0x5 => Some((ADC, ZeroPage))
    case 0x6 => Some((ROR, ZeroPage))
    case 0x7 => Some((RRA, ZeroPage))
    case _ => None
  }

  /** decode for the opcodes 0x68-0x6F, keyed by the low nibble `lo`. */
  function DecodeRow6Hi(lo: Byte): (r: Option<(Instruction, AddressingMode)>)
    ensures r.None? <==> lo < 0x08 || lo >= 0x10
    ensures r.Some? ==> DecodedWellFormed(r.value.0, r.value.1)
  {
    match lo
    case 0x8 => Some((PLA, AddressingMode.Implied))
    case 0x9 => Some((ADC, Immediate))
    case 0xA => Some((ROR, Accumulator))
    case 0xB => Some((ARR, Immediate))
    case 0xC => Some((JMP, Indirect))
    case 0xD => Some((ADC, Absolute))
    case 0xE => Some((ROR, Absolute))
    case 0xF => Some((RRA, Absolute))
    case _ => None
  }

  /** decode for the opcodes 0x70-0x77, keyed by the low nibble `lo`. */
  function DecodeRow7Lo(lo: Byte): (r: Option<(Instruction, AddressingMode)>)
    ensures r.None? <==> lo >= 0x08 || lo == 0x2
    ensures r.Some? ==> DecodedWellFormed(r.value.0, r.value.1)
  {
    match lo
    case 0x0 => Some((BVS, Relative))
    case 0x1 => Some((ADC, IndirectIndexed))
    case 0x3 => Some((RRA, IndirectIndexed))
    case 0x4 => Some((NOP, ZeroPageX))
    case 0x5 => Some((ADC, ZeroPageX))
    case 0x6 => Some((ROR, ZeroPageX))
    case 0x7 => Some((RRA, ZeroPageX))
    case _ => None
  }

  /** decode for the opcodes 0x78-0x7F, keyed by the low nibble `lo`. */
  function DecodeRow7Hi(lo: Byte): (r: Option<(Instruction, AddressingMode)>)
    ensures r.None? <==> lo < 0x08 || lo >= 0x10
    ensures r.Some? ==> DecodedWellFormed(r.value.0, r.value.1)
  {
    match lo
    case 0x8 => Some((SEI, AddressingMode.Implied))
    case 0x9 => Some((ADC, AbsoluteY))
    case 0xA => Some((NOP, AddressingMode.Implied))
    case 0xB => Some((RRA, AbsoluteY))
    case 0xC => Some((NOP, AbsoluteX))
    case 0xD => Some((ADC, AbsoluteX))
    case 0xE => Some((ROR, AbsoluteX))
    case 0xF => Some((RRA, AbsoluteX))
    case _ => None
  }

  /** decode for the opcodes 0x80-0x87, keyed by the low nibble `lo`. */
  function DecodeRow8Lo(lo: Byte): (r: Option<(Instruction, AddressingMode)>)
    ensures r.None? <==> lo >= 0x08
    ensures r.Some? ==> DecodedWellFormed(r.value.0, r.value.1)
  {
    match lo
    case 0x0 => Some((NOP, ZeroPage))
    case 0x1 => Some((STA, IndexedIndirect))
    case 0x2 => Some((NOP, Immediate))
    case 0x3 => Some((SAX, IndexedIndirect))
    case 0x4 => Some((STY, ZeroPage))
    case 0x5 => Some((STA, ZeroPage))
    case 0x6 => Some((STX, ZeroPage))
    case 0x7 => Some((SAX, ZeroPage))
    case _ => None
  }

  /** decode for the opcodes 0x88-0x8F, keyed by the low nibble `lo`. */
  function DecodeRow8Hi(lo: Byte): (r: Option<(Instruction, AddressingMode)>)
    ensures r.None? <==> lo < 0x08 || lo >= 0x10 || lo == 0xB
    ensures r.Some? ==> DecodedWellFormed(r.value.0, r.value.1)
  {
    match lo
    case 0x8 => Some((DEY, AddressingMode.Implied))
    case 0x9 => Some((NOP, Immediate))
    case 0xA => Some((TXA, AddressingMode.Implied))
    case 0xC => Some((STY, Absolute))
    case 0xD => Some((STA, Absolute))
    case 0xE => Some((STX, Absolute))
    case 0xF => Some((SAX, Absolute))
    case _ => None
  }

  /** decode for the opcodes 0x90-0x97, keyed by the low nibble `lo`. */
  function DecodeRow9Lo(lo: Byte): (r: Option<(Instruction, AddressingMode)>)
    ensures r.None? <==> lo >= 0x08 || lo == 0x2 || lo == 0x3
    ensures r.Some? ==> DecodedWellFormed(r.value.0, r.value.1)
  {
    match lo
    case 0x0 => Some((BCC, Relative))
    case 0x1 => Some((STA, IndirectIndexed))
    case 0x4 => Some((STY, ZeroPageX))
    case 0x5 => Some((STA, ZeroPageX))
    case 0x6 => Some((STX, ZeroPageY))
    case 0x7 => Some((SAX, ZeroPageY))
    case _ => None
  }

  /** decode for the opcodes 0x98-0x9F, keyed by the low nibble `lo`. */
  function DecodeRow9Hi(lo: Byte): (r: Option<(Instruction, AddressingMode)>)
    ensures r.None? <==> lo < 0x08 || lo >= 0x10 || lo == 0xB || lo == 0xF
    ensures r.Some? ==> DecodedWellFormed(r.value.0, r.value.1)
  {
    match lo
    case 0x8 => Some((TYA, AddressingMode.Implied))
    case 0x9 => Some((STA, AbsoluteY))
    case 0xA => Some((TXS, AddressingMode.Implied))
    case 0xC => Some((SHY, AbsoluteX))
    case 0xD => Some((STA, AbsoluteX))
    case 0xE => Some((SHX, AbsoluteY))
    case _ => None
  }

  /** decode for the opcodes 0xA0-0xA7, keyed by the low nibble `lo`. */
  function DecodeRowALo(lo: Byte): (r: Option<(Instruction, AddressingMode)>)
    ensures r.None? <==> lo >= 0x08
    ensures r.Some? ==> DecodedWellFormed(r.value.0, r.value.1)
  {
    match lo
    case 0x0 => Some((LDY, Immediate))
    case 0x1 => Some((LDA, IndexedIndirect))
    case 0x2 => Some((LDX, Immediate))
    case 0x3 => Some((LAX, IndexedIndirect))
    case 0x4 => Some((LDY, ZeroPage))
    case 0x5 => Some((LDA, ZeroPage))
    case 0x6 => Some((LDX, ZeroPage))
    case 0x7 => Some((LAX, ZeroPage))
    case _ => None
  }

  /** decode for the opcodes 0xA8-0xAF, keyed by the low nibble `lo`. */
  function DecodeRowAHi(lo: Byte): (r: Option<(Instruction, AddressingMode)>)
    ensures r.None? <==> lo < 0x08 || lo >= 0x10
    ensures r.Some? ==> DecodedWellFormed(r.value.0, r.value.1)
  {
    match lo
    case 0x8 => Some((TAY, AddressingMode.Implied))
    case 0x9 => Some((LDA, Immediate))
    case 0xA => Some((TAX, AddressingMode.Implied))
    case 0xB => Some((LAX, Immediate))
    case 0xC => Some((LDY, Absolute))
    case 0xD => Some((LDA, Absolute))
    case 0xE => Some((LDX, Absolute))
    case 0xF => Some((LAX, Absolute))
    case _ => None
  }

  /** decode for the opcodes 0xB0-0xB7, keyed by the low nibble `lo`. */
  function DecodeRowBLo(lo: Byte): (r: Option<(Instruction, AddressingMode)>)
    ensures r.None? <==> lo >= 0x08 || lo == 0x2
    ensures r.Some? ==> DecodedWellFormed(r.value.0, r.value.1)
  {
    match lo
    case 0x0 => Some((BCS, Relative))
    case 0x1 => Some((LDA, IndirectIndexed))
    case 0x3 => Some((LAX, IndirectIndexed))
    case 0x4 => Some((LDY, ZeroPageX))
    case 0x5 => Some((LDA, ZeroPageX))
    case 0x6 => Some((LDX, ZeroPageY))
    case 0x7 => Some((LAX, ZeroPageY))
    case _ => None
  }

  /** decode for the opcodes 0xB8-0xBF, keyed by the low nibble `lo`. */
  function DecodeRowBHi(lo: Byte): (r: Option<(Instruction, AddressingMode)>)
    ensures r.None? <==> lo < 0x08 || lo >= 0x10 || lo == 0xB
    ensures r.Some? ==> DecodedWellFormed(r.value.0, r.value.1)
  {
    match lo
    case 0x8 => Some((CLV, AddressingMode.Implied))
    case 0x9 => Some((LDA, AbsoluteY))
    case 0xA => Some((TSX, AddressingMode.Implied))
    case 0xC => Some((LDY, AbsoluteX))
    case 0xD => Some((LDA, AbsoluteX))
    case 0xE => Some((LDX, AbsoluteY))
    case 0xF => Some((LAX, AbsoluteY))
    case _ => None
  }

  /** decode for the opcodes 0xC0-0xC7, keyed by the low nibble `lo`. */
  function DecodeRowCLo(lo: Byte): (r: Option<(Instruction, AddressingMode)>)
    ensures r.None? <==> lo >= 0x08
    ensures r.Some? ==> DecodedWellFormed(r.value.0, r.value.1)
  {
    match lo
    case 0x0 => Some((CPY, Immediate))
    case 0x1 => Some((CMP, IndexedIndirect))
    case 0x2 => Some((NOP, Immediate))
    case 0x3 => Some((DCP, IndexedIndirect))
    case 0x4 => Some((CPY, ZeroPage))
    case 0x5 => Some((CMP, ZeroPage))
    case 0x6 => Some((DEC, ZeroPage))
    case 0x7 => Some((DCP, ZeroPage))
    case _ => None
  }

  /** decode for the opcodes 0xC8-0xCF, keyed by the low nibble `lo`. */
  function DecodeRowCHi(lo: Byte): (r: Option<(Instruction, AddressingMode)>)
    ensures r.None? <==> lo < 0x08 || lo >= 0x10
    ensures r.Some? ==> DecodedWellFormed(r.value.0, r.value.1)
  {
    match lo
    case 0x8 => Some((INY, AddressingMode.Implied))
    case 0x9 => Some((CMP, Immediate))
    case 0xA => Some((DEX, AddressingMode.Implied))
    case 0xB => Some((AXS, Immediate))
    case 0xC => Some((CPY, Absolute))
    case 0xD => Some((CMP, Absolute))
    case 0xE => Some((DEC, Absolute))
    case 0xF => Some((DCP, Absolute))
    case _ => None
  }

  /** decode for the opcodes 0xD0-0xD7, keyed by the low nibble `lo`. */
  function DecodeRowDLo(lo: Byte): (r: Option<(Instruction, AddressingMode)>)
    ensures r.None? <==> lo >= 0x08 || lo == 0x2
    ensures r.Some? ==> DecodedWellFormed(r.value.0, r.value.1)
  {
    match lo
    case 0x0 => Some((BNE, Relative))
    case 0x1 => Some((CMP, IndirectIndexed))
    case 0x3 => Some((DCP, IndirectIndexed))
    case 0x4 => Some((NOP, ZeroPageX))
    case 0x5 => Some((CMP, ZeroPageX))
    case 0x6 => Some((DEC, ZeroPageX))
    case 0x7 => Some((DCP, ZeroPageX))
    case _ => None
  }

  /** decode for the opcodes 0xD8-0xDF, keyed by the low nibble `lo`. */
  function DecodeRowDHi(lo: Byte): (r: Option<(Instruction, AddressingMode)>)
    ensures r.None? <==> lo < 0x08 || lo >= 0x10
    ensures r.Some? ==> DecodedWellFormed(r.value.0, r.value.1)
  {
    match lo
    case 0x8 => Some((CLD, AddressingMode.Implied))
    case 0x9 => Some((CMP, AbsoluteY))
    case 0xA => Some((NOP, AddressingMode.Implied))
    case 0xB => Some((DCP, AbsoluteY))
    case 0xC => Some((NOP, AbsoluteX))
    case 0xD => Some((CMP, AbsoluteX))
    case 0xE => Some((DEC, AbsoluteX))
    case 0xF => Some((DCP, AbsoluteX))
    case _ => None
  }

  /** decode for the opcodes 0xE0-0xE7, keyed by the low nibble `lo`. */
  function DecodeRowELo(lo: Byte): (r: Option<(Instruction, AddressingMode)>)
    ensures r.None? <==> lo >= 0x08
    ensures r.Some? ==> DecodedWellFormed(r.value.0, r.value.1)
  {
    match lo
    case 0x0 => Some((CPX, Immediate))
    case 0x1 => Some((SBC, IndexedIndirect))
    case 0x2 => Some((NOP, Immediate))
    case 0x3 => Some((ISB, IndexedIndirect))
    case 0x4 => Some((CPX, ZeroPage))
    case 0x5 => Some((SBC, ZeroPage))
    case 0x6 => Some((INC, ZeroPage))
    case 0x7 => Some((ISB, ZeroPage))
    case _ => None
  }

  /** decode for the opcodes 0xE8-0xEF, keyed by the low nibble `lo`. */
  function DecodeRowEHi(lo: Byte): (r: Option<(Instruction, AddressingMode)>)
    ensures r.None? <==> lo < 0x08 || lo >= 0x10
    ensures r.Some? ==> DecodedWellFormed(r.value.0, r.value.1)
  {
    match lo
    case 0x8 => Some((INX, AddressingMode.Implied))
    case 0x9 | 0xB => Some((SBC, Immediate))
    case 0xA => Some((NOP, AddressingMode.Implied))
    case 0xC => Some((CPX, Absolute))
    case 0xD => Some((SBC, Absolute))
    case 0xE => Some((INC, Absolute))
    case 0xF => Some((ISB, Absolute))
    case _ => None
  }

  /** decode for the opcodes 0xF0-0xF7, keyed by the low nibble `lo`. */
  function DecodeRowFLo(lo: Byte): (r: Option<(Instruction, AddressingMode)>)
    ensures r.None? <==> lo >= 0x08 || lo == 0x2
    ensures r.Some? ==> DecodedWellFormed(r.value.0, r.value.1)
  {
    match lo
    case 0x0 => Some((BEQ, Relative))
    case 0x1 => Some((SBC, IndirectIndexed))
    case 0x3 => Some((ISB, IndirectIndexed))
    case 0x4 => Some((NOP, ZeroPageX))
    case 0x5 => Some((SBC, ZeroPageX))
    case 0x6 => Some((INC, ZeroPageX))
    case 0x7 => Some((ISB, ZeroPageX))
    case _ => None
  }

  /** decode for the opcodes 0xF8-0xFF, keyed by the low nibble `lo`. */
  function DecodeRowFHi(lo: Byte): (r: Option<(Instruction, AddressingMode)>)
    ensures r.None? <==> lo < 0x08 || lo >= 0x10
    ensures r.Some? ==> DecodedWellFormed(r.value.0, r.value.1)
  {
    match lo
    case 0x8 => Some((SED, AddressingMode.Implied))
    case 0x9 => Some((SBC, AbsoluteY))
    case 0xA => Some((NOP, AddressingMode.Implied))
    case 0xB => Some((ISB, AbsoluteY))
    case 0xC => Some((NOP, AbsoluteX))
    case 0xD => Some((SBC, AbsoluteX))
    case 0xE => Some((INC, AbsoluteX))
    case 0xF => Some((ISB, AbsoluteX))
    case _ => None
  }

  /** address: the little-endian 16-bit operand in data[0..2]. */
  function Address(data: seq<Byte>): (a: Word)
    requires |data| >= 2
    ensures HighByte(a) == data[1] && LowByte(a) == data[0]
    ensures a as nat == data[1] as nat * 256 + data[0] as nat
  {
    ComposeHigh(data[1], data[0]);
    ComposeLow(data[1], data[0]);
    ComposeNat(data[1], data[0]);
    Compose(data[1], data[0])
  }

  /** The word `hi << 8 | lo` that address and the disassemblers assemble. */
  function Compose(hi: Byte, lo: Byte): Word
  {
    ((hi as Word) << 8) | lo as Word
  }

  lemma ComposeHigh(hi: Byte, lo: Byte)
    ensures HighByte(Compose(hi, lo)) == hi
  {
    assert Compose(hi, lo) >> 8 == hi as Word;
  }

  lemma ComposeLow(hi: Byte, lo: Byte)
    ensures LowByte(Compose(hi, lo)) == lo
  {
    assert Compose(hi, lo) & 0x00FF == lo as Word;
  }

  lemma ComposeNat(hi: Byte, lo: Byte)
    ensures Compose(hi, lo) as nat == hi as nat * 256 + lo as nat
  {
    ComposeHigh(hi, lo);
    ComposeLow(hi, lo);
    WordBytes(Compose(hi, lo));
  }

  /**
   * disassemble: the mnemonic followed by the operand in the syntax of the
   * addressing mode, padded so that every line has the same width.
   */
  function Disassemble(instr: Instruction, mode: AddressingMode, data: seq<Byte>): (s: string)
    requires |data| >= OperandLen(mode)
    ensures |s| == |Mnemonic(instr)| + 9
    ensures s[..|Mnemonic(instr)|] == Mnemonic(instr)
  {
    var name := Mnemonic(instr);
    match mode
    case Accumulator => name + " A       "
    case Implied => name + "         "
    case Immediate => name + " #" + Hex2(data[0]) + "     "
    case Relative => name + " +" + Hex2(data[0]) + "     "
    case ZeroPage => name + " " + Hex2(data[0]) + "      "
    case ZeroPageX => name + " " + Hex2(data[0]) + ",X    "
    case ZeroPageY => name + " " + Hex2(data[0]) + ",Y    "
    case Absolute => name + " " + Hex4(Address(data)) + "    "
    case AbsoluteX => name + " " + Hex4(Address(data)) + ",X  "
    case AbsoluteY => name + " " + Hex4(Address(data)) + ",Y  "
    case Indirect => name + " (" + Hex4(Address(data)) + ")  "
    case IndexedIndirect => name + " (" + Hex2(data[0]) + ",X)  "
    case IndirectIndexed => name + " (" + Hex2(data[0]) + "),Y  "
  }

  /** The operand can be read back from the text: the digits sit at a fixed column for each mode. */
  lemma DisassembleReadsBack(instr: Instruction, mode: AddressingMode, data: seq<Byte>)
    requires |data| >= OperandLen(mode)
    ensures var s := Disassemble(instr, mode, data);
            (mode in {ZeroPage, ZeroPageX, ZeroPageY} ==> ReadHex2(s[4..6]) == data[0] as nat) &&
            (mode in {Immediate, Relative, IndexedIndirect, IndirectIndexed} ==> ReadHex2(s[5..7]) == data[0] as nat) &&
            (mode in {Absolute, AbsoluteX, AbsoluteY} ==> ReadHex4(s[4..8]) == data[1] as nat * 256 + data[0] as nat) &&
            (mode == Indirect ==> ReadHex4(s[5..9]) == data[1] as nat * 256 + data[0] as nat)
  {
    var s := Disassemble(instr, mode, data);
    if OperandLen(mode) == 1 {
      Hex2RoundTrip(data[0]);
      if mode in {ZeroPage, ZeroPageX, ZeroPageY} {
        assert s[4..6] == Hex2(data[0]);
      } else {
        assert s[5..7] == Hex2(data[0]);
      }
    } else if OperandLen(mode) == 2 {
      Hex4RoundTrip(Address(data));
      if mode == Indirect {
        assert s[5..9] == Hex4(Address(data));
      } else {
        assert s[4..8] == Hex4(Address(data));
      }
    }
  }

  /**
   * operands: the raw instruction bytes in hex, right-aligned in an
   * eight-column field; None (a panic in the Rust code) for a length above 2.
   * The last byte takes columns 6-7, the one before it columns 3-4 and the
   * first of three columns 0-1; every other column is a blank.
   */
  function Operands(data: seq<Byte>, operandLen: nat): (r: Option<string>)
    requires operandLen <= 2 ==> |data| > operandLen
    ensures r.Some? <==> operandLen <= 2
    ensures r.Some? ==> |r.value| == 8 && r.value[6..] == Hex2(data[operandLen]) && r.value[5] == ' '
    ensures operandLen == 0 ==> r.value[..6] == "      "
    ensures operandLen == 1 ==> r.value[..3] == "   " && r.value[3..5] == Hex2(data[0])
    ensures operandLen == 2 ==> r.value[..2] == Hex2(data[0]) && r.value[2] == ' ' && r.value[3..5] == Hex2(data[1])
  {
    match operandLen
    case 0 => Some("      " + Hex2(data[0]))
    case 1 => Some("   " + Hex2(data[0]) + " " + Hex2(data[1]))
    case 2 => Some(Hex2(data[0]) + " " + Hex2(data[1]) + " " + Hex2(data[2]))
    case _ => None
  }

  /**
   * The aliases the table lists: seven opcodes for the implied NOP, two for
   * SBC immediate; 0x00 is BRK with an immediate operand and 0x02 is rejected.
   */
  lemma DecodeExamples()
    ensures forall op :: op in {0xEA, 0x1A, 0x3A, 0x5A, 0x7A, 0xDA, 0xFA} ==> Decode(op) == Some((NOP, AddressingMode.Implied))
    ensures Decode(0xE9) == Decode(0xEB) == Some((SBC, Immediate))
    ensures Decode(0x00) == Some((BRK, Immediate))
    ensures Decode(0x02) == None
  {
  }
}
