// The older instruction tables of the CPU core (nescore/src/cpu/state.rs):
// the 56 official instructions only, the operand values an addressing mode
// produces, and a cycle table in which more combinations are unreachable
// than in the disassembler's table (CPX and CPY are filed as Implied here).

module CpuState {
  import opened Bits
  import opened Results
  import Asm

  type AddressingMode = Asm.AddressingMode

  datatype Instruction =
    | ADC | AND | ASL | BCC | BCS | BEQ | BIT | BMI | BNE | BPL | BRK | BVC | BVS | CLC
    | CLD | CLI | CLV | CMP | CPX | CPY | DEC | DEX | DEY | EOR | INC | INX | INY | JMP
    | JSR | LDA | LDX | LDY | LSR | NOP | ORA | PHA | PHP | PLA | PLP | ROL | ROR | RTI
    | RTS | SBC | SEC | SED | SEI | STA | STX | STY | TAX | TAY | TSX | TXA | TXS | TYA

  /** The operand an addressing mode resolves to: a byte, an address, a branch offset, or nothing. */
  datatype AddressingModeResult =
    | ByteResult(b: Byte)
    | AddressResult(a: Word)
    | OffsetResult(o: Byte)
    | ImpliedResult

  /** operand_len of this revision: the number of operand bytes after the opcode. */
  function OperandLen(mode: AddressingMode): (n: nat)
    ensures n == Asm.OperandLen(mode)
  {
    match mode
    case Accumulator => 0
    case Implied => 0
    case Immediate => 1
    case ZeroPage => 1
    case Absolute => 2
    case ZeroPageX => 1
    case ZeroPageY => 1
    case AbsoluteX => 2
    case AbsoluteY => 2
    case Indirect => 2
    case IndexedIndirect => 1
    case IndirectIndexed => 1
    case Relative => 1
  }

  function ToAddress(r: AddressingModeResult): (a: Option<Word>)
    ensures a.Some? <==> r.AddressResult?
    ensures a.Some? ==> a.value == r.a
  {
    match r
    case AddressResult(a) => Some(a)
    case _ => None
  }

  /**
   * to_byte: an immediate byte as it is, an address through the read
   * function `a2b` supplied by the caller, nothing for an offset or implied.
   */
  function ToByte(r: AddressingModeResult, a2b: Word -> Byte): (b: Option<Byte>)
    ensures b.Some? <==> r.ByteResult? || r.AddressResult?
    ensures r.ByteResult? ==> b == Some(r.b)
    ensures r.AddressResult? ==> b == Some(a2b(r.a))
  {
    match r
    case ByteResult(b) => Some(b)
    case AddressResult(a) => Some(a2b(a))
    case _ => None
  }

  function ToOffset(r: AddressingModeResult): (o: Option<Byte>)
    ensures o.Some? <==> r.OffsetResult?
    ensures o.Some? ==> o.value == r.o
  {
    match r
    case OffsetResult(o) => Some(o)
    case _ => None
  }

  /** At most one of to_address and to_offset yields a value, and to_byte yields one whenever to_address does. */
  lemma ConversionsExclusive(r: AddressingModeResult, a2b: Word -> Byte)
    ensures !(ToAddress(r).Some? && ToOffset(r).Some?)
    ensures ToAddress(r).Some? ==> ToByte(r, a2b) == Some(a2b(ToAddress(r).value))
    ensures ToOffset(r).Some? ==> ToByte(r, a2b).None?
  {
  }

  /** category of this revision: CPX and CPY fall in the Implied group. */
  function Category(instr: Instruction): (c: Asm.InstructionCategory)
    ensures c == Asm.Write <==> instr in {STA, STX, STY}
    ensures c == Asm.Branch <==> instr in {BCC, BCS, BEQ, BMI, BNE, BPL, BVC, BVS}
    ensures instr == CPX || instr == CPY ==> c == Asm.InstructionCategory.Implied
  {
    match instr
    case LDA | LDX | LDY | EOR | AND | ORA | ADC | SBC | CMP | BIT => Asm.Read
    case STA | STX | STY => Asm.Write
    case ASL | LSR | ROL | ROR | INC | DEC => Asm.ReadModifyWrite
    case BCC | BCS | BEQ | BMI | BNE | BPL | BVC | BVS => Asm.Branch
    case NOP | CLD | CLI | CLV | CPX | CLC | DEX | DEY | BRK | INX | INY | PHA | PHP | PLA | PLP | CPY =>
      Asm.InstructionCategory.Implied
    case _ => Asm.InstructionCategory.Implied
  }

  /** The same instruction in the disassembler's larger instruction set. */
  function ToAsm(instr: Instruction): Asm.Instruction
  {
    match instr
    case ADC => Asm.ADC case AND => Asm.AND case ASL => Asm.ASL case BCC => Asm.BCC case BCS => Asm.BCS case BEQ => Asm.BEQ case BIT => Asm.BIT
    case BMI => Asm.BMI case BNE => Asm.BNE case BPL => Asm.BPL case BRK => Asm.BRK case BVC => Asm.BVC case BVS => Asm.BVS case CLC => Asm.CLC
    case CLD => Asm.CLD case CLI => Asm.CLI case CLV => Asm.CLV case CMP => Asm.CMP case CPX => Asm.CPX case CPY => Asm.CPY case DEC => Asm.DEC
    case DEX => Asm.DEX case DEY => Asm.DEY case EOR => Asm.EOR case INC => Asm.INC case INX => Asm.INX case INY => Asm.INY case JMP => Asm.JMP
    case JSR => Asm.JSR case LDA => Asm.LDA case LDX => Asm.LDX case LDY => Asm.LDY case LSR => Asm.LSR case NOP => Asm.NOP case ORA => Asm.ORA
    case PHA => Asm.PHA case PHP => Asm.PHP case PLA => Asm.PLA case PLP => Asm.PLP case ROL => Asm.ROL case ROR => Asm.ROR case RTI => Asm.RTI
    case RTS => Asm.RTS case SBC => Asm.SBC case SEC => Asm.SEC case SED => Asm.SED case SEI => Asm.SEI case STA => Asm.STA case STX => Asm.STX
    case STY => Asm.STY case TAX => Asm.TAX case TAY => Asm.TAY case TSX => Asm.TSX case TXA => Asm.TXA case TXS => Asm.TXS case TYA => Asm.TYA
  }

  /**
   * cycle_count of this revision; None where the Rust code reaches
   * `unreachable!`, which now includes every Implied-category instruction
   * in an absolute, zero-page or indexed mode.
   */
  function CycleCount(instr: Instruction, mode: AddressingMode): (r: Option<nat>)
    ensures r.Some? ==> 1 <= r.value <= 7
    ensures mode == Asm.Indirect ==> r == Some(4)
    ensures mode == Asm.Accumulator || mode == Asm.Immediate ==> r == Some(1)
    ensures mode == Asm.Relative ==> (r.Some? <==> Category(instr) == Asm.Branch)
  {
    match mode
    case Implied =>
      (match instr
       case BRK => Some(6)
       case RTI => Some(5)
       case RTS => Some(5)
       case PHA | PHP => Some(2)
       case PLA | PLP => Some(3)
       case CLD | CLI | CLV | CLC => Some(1)
       case SEC | SED | SEI => Some(1)
       case TAX | TAY | TSX | TXA | TXS | TYA => Some(1)
       case DEX | DEY => Some(1)
       case INX | INY => Some(1)
       case NOP => Some(1)
       case _ => None)
    case Absolute =>
      (match instr
       case JMP => Some(2)
       case JSR => Some(5)
       case _ => CategoryCost(Category(instr), 3, 5))
    case AbsoluteX | AbsoluteY => CategoryCost(Category(instr), 4, 6)
    case ZeroPage => CategoryCost(Category(instr), 2, 4)
    case ZeroPageX | ZeroPageY => CategoryCost(Category(instr), 3, 5)
    case Relative =>
      (match Category(instr)
       case Branch => Some(2)
       case _ => None)
    case IndexedIndirect => CategoryCost(Category(instr), 5, 7)
    case IndirectIndexed => CategoryCost(Category(instr), 5, 7)
    case Indirect => Some(4)
    case Accumulator | Immediate => Some(1)
  }

  /**
   * The shape every addressed mode shares in this revision: reads and
   * writes cost `rw`, read-modify-writes cost `rmw`, anything else is
   * unreachable.
   */
  function CategoryCost(c: Asm.InstructionCategory, rw: nat, rmw: nat): (r: Option<nat>)
    ensures r.Some? <==> c in {Asm.Read, Asm.Write, Asm.ReadModifyWrite}
    ensures r.Some? ==> r.value == if c == Asm.ReadModifyWrite then rmw else rw
  {
    match c
    case Read => Some(rw)
    case ReadModifyWrite => Some(rmw)
    case Write => Some(rw)
    case _ => None
  }

  /** The comparisons CPX and CPY with a memory operand have no cycle count here. */
  lemma CompareIsUnreachable(instr: Instruction, mode: AddressingMode)
    requires instr == CPX || instr == CPY
    requires mode in {Asm.ZeroPage, Asm.Absolute}
    ensures CycleCount(instr, mode).None?
    ensures Asm.CycleCount(ToAsm(instr), mode).Some?
  {
  }

  /** The two revisions file every instruction alike except CPX and CPY. */
  lemma CategoriesAgree(instr: Instruction)
    ensures Category(instr) == Asm.Category(ToAsm(instr)) <==> instr != CPX && instr != CPY
  {
    match Category(instr)
    case Read => ReadsAgree(instr);
    case Write => WritesAgree(instr);
    case ReadModifyWrite => ReadModifyWritesAgree(instr);
    case Branch => BranchesAgree(instr);
    case Implied => ImpliedAgree(instr);
  }

  /** Every instruction this revision files as a read is a read in the disassembler's table too. */
  lemma ReadsAgree(instr: Instruction)
    requires Category(instr) == Asm.Read
    ensures Asm.Category(ToAsm(instr)) == Asm.Read
  {
  }

  /** The same for the writes. */
  lemma WritesAgree(instr: Instruction)
    requires Category(instr) == Asm.Write
    ensures Asm.Category(ToAsm(instr)) == Asm.Write
  {
  }

  /** The same for the read-modify-writes. */
  lemma ReadModifyWritesAgree(instr: Instruction)
    requires Category(instr) == Asm.ReadModifyWrite
    ensures Asm.Category(ToAsm(instr)) == Asm.ReadModifyWrite
  {
  }

  /** The same for the branches. */
  lemma BranchesAgree(instr: Instruction)
    requires Category(instr) == Asm.Branch
    ensures Asm.Category(ToAsm(instr)) == Asm.Branch
  {
  }

  /** The implied-category instructions agree, except CPX and CPY, which the disassembler files as reads. */
  lemma ImpliedAgree(instr: Instruction)
    requires Category(instr) == Asm.InstructionCategory.Implied
    ensures Asm.Category(ToAsm(instr)) == Asm.InstructionCategory.Implied <==> instr != CPX && instr != CPY
  {
  }
}
