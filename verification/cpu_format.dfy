// The CPU core's own trace formatter (nescore/src/cpu/format.rs). It renders
// the 56 instructions of the CPU core in a syntax of its own: operands in
// parentheses for the zero-page and absolute modes, no `#` or `+` prefix,
// and an eleven-column operand field for AbsoluteX where all the others
// have nine. Its `operands` and `address` are the same as the
// disassembler's (Asm.Operands, Asm.Address).

module CpuFormat {
  import opened Bits
  import opened Hex
  import Asm
  import CpuState

  /** The width of the text after the mnemonic. */
  function FieldWidth(mode: Asm.AddressingMode): nat
  {
    if mode == Asm.AbsoluteX then 11 else 9
  }

  /** disassemble: the mnemonic and the operand in this formatter's syntax. */
  function Disassemble(instr: CpuState.Instruction, mode: Asm.AddressingMode, data: seq<Byte>): (s: string)
    requires |data| >= Asm.OperandLen(mode)
    ensures |s| == 3 + FieldWidth(mode)
    ensures s[..3] == Asm.Mnemonic(CpuState.ToAsm(instr))
  {
    var name := Asm.Mnemonic(CpuState.ToAsm(instr));
    match mode
    case Accumulator => name + " A       "
    case Implied => name + "         "
    case Immediate | Relative => name + " " + Hex2(data[0]) + "      "
    case ZeroPage => name + " (" + Hex2(data[0]) + ")    "
    case ZeroPageX => name + " (" + Hex2(data[0]) + ",X)  "
    case ZeroPageY => name + " (" + Hex2(data[0]) + ",Y)  "
    case Absolute => name + " " + Hex4(Asm.Address(data)) + "    "
    case AbsoluteX => name + " (" + Hex4(Asm.Address(data)) + ",X)  "
    case AbsoluteY => name + " (" + Hex4(Asm.Address(data)) + ",Y)"
    case Indirect => name + " (" + Hex4(Asm.Address(data)) + ")  "
    case IndexedIndirect => name + " (" + Hex2(data[0]) + ",X)  "
    case IndirectIndexed => name + " (" + Hex2(data[0]) + "),Y  "
  }

  /** Immediate and relative operands are rendered alike: an immediate byte cannot be told from a branch offset. */
  lemma ImmediateLooksRelative(instr: CpuState.Instruction, data: seq<Byte>)
    requires |data| >= 1
    ensures Disassemble(instr, Asm.Immediate, data) == Disassemble(instr, Asm.Relative, data)
  {
  }

  /** The operand can be read back from the text: the digits sit at a fixed column for each mode. */
  lemma OperandReadsBack(instr: CpuState.Instruction, mode: Asm.AddressingMode, data: seq<Byte>)
    requires |data| >= Asm.OperandLen(mode)
    ensures var s := Disassemble(instr, mode, data);
            (mode in {Asm.Immediate, Asm.Relative} ==> ReadHex2(s[4..6]) == data[0] as nat) &&
            (mode in {Asm.ZeroPage, Asm.ZeroPageX, Asm.ZeroPageY, Asm.IndexedIndirect, Asm.IndirectIndexed} ==>
               ReadHex2(s[5..7]) == data[0] as nat) &&
            (mode == Asm.Absolute ==> ReadHex4(s[4..8]) == data[1] as nat * 256 + data[0] as nat) &&
            (mode in {Asm.AbsoluteX, Asm.AbsoluteY, Asm.Indirect} ==>
               ReadHex4(s[5..9]) == data[1] as nat * 256 + data[0] as nat)
  {
    var s := Disassemble(instr, mode, data);
    if Asm.OperandLen(mode) == 1 {
      Hex2RoundTrip(data[0]);
      if mode in {Asm.Immediate, Asm.Relative} {
        assert s[4..6] == Hex2(data[0]);
      } else if mode in {Asm.ZeroPage, Asm.ZeroPageX, Asm.ZeroPageY, Asm.IndexedIndirect, Asm.IndirectIndexed} {
        assert s[5..7] == Hex2(data[0]);
      }
    } else if Asm.OperandLen(mode) == 2 {
      Hex4RoundTrip(Asm.Address(data));
      if mode == Asm.Absolute {
        assert s[4..8] == Hex4(Asm.Address(data));
      } else {
        assert s[5..9] == Hex4(Asm.Address(data));
      }
    }
  }
}
