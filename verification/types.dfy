/**
 * The shared data model of the assembler: the twelve addressing modes, the
 * instruction descriptor and the symbol-table entry.
 */
module Types {

  /** The addressing modes of the assembler, in their declaration order. */
  datatype AddrMode =
    | IMP  // implied
    | IMM  // immediate        #$nn
    | ZPG  // zero page        $nn
    | ZPX  // zero page,X      $nn,X
    | ZPY  // zero page,Y      $nn,Y
    | ABS  // absolute         $nnnn
    | ABX  // absolute,X       $nnnn,X
    | ABY  // absolute,Y       $nnnn,Y
    | IND  // indirect         ($nnnn)
    | IZX  // indexed indirect ($nn,X)
    | IZY  // indirect indexed ($nn),Y
    | REL  // relative (branches)

  /** An `unsigned char`. */
  type Byte = x: int | 0 <= x < 0x100

  /** An `unsigned short`. */
  type Word = x: int | 0 <= x < 0x1_0000

  /**
   * The 56 distinct mnemonics of the instruction table. They are declared by
   * family: the branches, the one-byte implied instructions, then the
   * instructions that take an operand, grouped as the opcode matrix groups
   * them. The text each one stands for is given by `Text`.
   */
  datatype Mnemonic =
    | ORA | AND | EOR | ADC | STA | LDA | CMP | SBC
    | BPL | BMI | BVC | BVS | BCC | BCS | BNE | BEQ
    | TAX | TAY | TSX | TXA | TXS | TYA | CLC | CLD | CLI | CLV
    | PHA | PHP | PLA | PLP | SEC | SED | SEI | RTI | RTS
    | DEX | DEY | INX | INY | BRK | NOP | JSR | BIT | JMP
    | ASL | ROL | LSR | ROR | DEC | INC | LDX | LDY
    | CPX | CPY | STX | STY
  {
    /**
     * The characters stored in the descriptor's `char[4]` mnemonic field:
     * three capital letters, which leave room for the terminator.
     */
    function Text(): (t: string)
      ensures |t| == 3 && forall k :: 0 <= k < |t| ==> 'A' <= t[k] <= 'Z'
    {
      match this
      case ADC => "ADC" case AND => "AND" case ASL => "ASL" case BCC => "BCC"
      case BCS => "BCS" case BEQ => "BEQ" case BMI => "BMI" case BNE => "BNE"
      case BPL => "BPL" case BVC => "BVC" case BVS => "BVS" case BIT => "BIT"
      case BRK => "BRK" case CLC => "CLC" case CLD => "CLD" case CLI => "CLI"
      case CLV => "CLV" case CMP => "CMP" case CPX => "CPX" case CPY => "CPY"
      case DEC => "DEC" case DEX => "DEX" case DEY => "DEY" case EOR => "EOR"
      case INC => "INC" case INX => "INX" case INY => "INY" case JMP => "JMP"
      case JSR => "JSR" case LDA => "LDA" case LDX => "LDX" case LDY => "LDY"
      case LSR => "LSR" case NOP => "NOP" case ORA => "ORA" case PHA => "PHA"
      case PHP => "PHP" case PLA => "PLA" case PLP => "PLP" case ROL => "ROL"
      case ROR => "ROR" case RTI => "RTI" case RTS => "RTS" case SBC => "SBC"
      case SEC => "SEC" case SED => "SED" case SEI => "SEI" case STA => "STA"
      case STX => "STX" case STY => "STY" case TAX => "TAX" case TAY => "TAY"
      case TSX => "TSX" case TXA => "TXA" case TXS => "TXS" case TYA => "TYA"
    }
  }

  /** An instruction descriptor: mnemonic, opcode byte and addressing mode. */
  datatype Instruction = Instruction(mnemonic: Mnemonic, opcode: Byte, mode: AddrMode)

  /** A symbol-table entry; `defined` stands for the C `int` flag (1 is true). */
  datatype Symbol = Symbol(name: string, address: Word, defined: bool)

  datatype Option<T> = None | Some(value: T)
}
