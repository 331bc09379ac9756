/**
 * The assembler's instruction table: one descriptor per (mnemonic, addressing
 * mode) of the MOS 6502, written as one constant sequence, group by group in
 * the order of the source. Alongside it, the 6502's own opcode layout
 * (opcode = aaabbbcc) as two reference functions, `MatrixOpcode` and
 * `MatrixDecode`, against which every row is checked.
 */
module Instructions {
  import opened Types

  /*** The 6502 opcode matrix, as an independent reference ***/

  /** Opcode of a "cc = 01" instruction (ORA, AND, EOR, ADC, STA, LDA, CMP, SBC). */
  function Column01(a: nat, mode: AddrMode): (r: Option<Byte>)
    requires a < 8
    ensures r.Some? ==> r.value % 4 == 1 && r.value / 32 == a
  {
    var base := a * 32 + 1;
    match mode
    case IZX => Some(base)
    case ZPG => Some(base + 0x04)
    case IMM => Some(base + 0x08)
    case ABS => Some(base + 0x0C)
    case IZY => Some(base + 0x10)
    case ZPX => Some(base + 0x14)
    case ABY => Some(base + 0x18)
    case ABX => Some(base + 0x1C)
    case _ => None
  }

  /** Opcode of a "cc = 10" read-modify-write instruction (ASL, ROL, LSR, ROR, DEC, INC). */
  function Column10(a: nat, mode: AddrMode, accumulator: bool): (r: Option<Byte>)
    requires a < 8
    ensures r.Some? ==> r.value % 4 == 2 && r.value / 32 == a
  {
    var base := a * 32 + 2;
    match mode
    case IMP => if accumulator then Some(base + 0x08) else None
    case ZPG => Some(base + 0x04)
    case ZPX => Some(base + 0x14)
    case ABS => Some(base + 0x0C)
    case ABX => Some(base + 0x1C)
    case _ => None
  }

  /** `op` if `mode` is `want`, nothing otherwise. */
  function Only(mode: AddrMode, want: AddrMode, op: Byte): (r: Option<Byte>)
    ensures r.Some? <==> mode == want
  {
    if mode == want then Some(op) else None
  }

  /**
   * The opcode the MOS 6502 assigns to a mnemonic in an addressing mode, or
   * None when the processor has no such (documented) instruction.
   */
  function MatrixOpcode(m: Mnemonic, mode: AddrMode): Option<Byte>
  {
    match m
    case ORA => Column01(0, mode)
    case AND => Column01(1, mode)
    case EOR => Column01(2, mode)
    case ADC => Column01(3, mode)
    case STA => if mode == IMM then None else Column01(4, mode)
    case LDA => Column01(5, mode)
    case CMP => Column01(6, mode)
    case SBC => Column01(7, mode)
    case ASL => Column10(0, mode, true)
    case ROL => Column10(1, mode, true)
    case LSR => Column10(2, mode, true)
    case ROR => Column10(3, mode, true)
    case DEC => Column10(6, mode, false)
    case INC => Column10(7, mode, false)
    case STX =>
      (match mode
      case ZPG => Some(0x86) case ZPY => Some(0x96) case ABS => Some(0x8E)
      case _ => None)
    case LDX =>
      (match mode
      case IMM => Some(0xA2) case ZPG => Some(0xA6) case ZPY => Some(0xB6)
      case ABS => Some(0xAE) case ABY => Some(0xBE)
      case _ => None)
    case STY =>
      (match mode
      case ZPG => Some(0x84) case ZPX => Some(0x94) case ABS => Some(0x8C)
      case _ => None)
    case LDY =>
      (match mode
      case IMM => Some(0xA0) case ZPG => Some(0xA4) case ZPX => Some(0xB4)
      case ABS => Some(0xAC) case ABX => Some(0xBC)
      case _ => None)
    case CPY =>
      (match mode
      case IMM => Some(0xC0) case ZPG => Some(0xC4) case ABS => Some(0xCC)
      case _ => None)
    case CPX =>
      (match mode
      case IMM => Some(0xE0) case ZPG => Some(0xE4) case ABS => Some(0xEC)
      case _ => None)
    case BIT =>
      (match mode
      case ZPG => Some(0x24) case ABS => Some(0x2C)
      case _ => None)
    case JMP =>
      (match mode
      case ABS => Some(0x4C) case IND => Some(0x6C)
      case _ => None)
    case JSR => Only(mode, ABS, 0x20)
    case BPL => Only(mode, REL, 0x10)
    case BMI => Only(mode, REL, 0x30)
    case BVC => Only(mode, REL, 0x50)
    case BVS => Only(mode, REL, 0x70)
    case BCC => Only(mode, REL, 0x90)
    case BCS => Only(mode, REL, 0xB0)
    case BNE => Only(mode, REL, 0xD0)
    case BEQ => Only(mode, REL, 0xF0)
    case BRK => Only(mode, IMP, 0x00)
    case RTI => Only(mode, IMP, 0x40)
    case RTS => Only(mode, IMP, 0x60)
    case PHP => Only(mode, IMP, 0x08)
    case PLP => Only(mode, IMP, 0x28)
    case PHA => Only(mode, IMP, 0x48)
    case PLA => Only(mode, IMP, 0x68)
    case DEY => Only(mode, IMP, 0x88)
    case TAY => Only(mode, IMP, 0xA8)
    case INY => Only(mode, IMP, 0xC8)
    case INX => Only(mode, IMP, 0xE8)
    case CLC => Only(mode, IMP, 0x18)
    case SEC => Only(mode, IMP, 0x38)
    case CLI => Only(mode, IMP, 0x58)
    case SEI => Only(mode, IMP, 0x78)
    case TYA => Only(mode, IMP, 0x98)
    case CLV => Only(mode, IMP, 0xB8)
    case CLD => Only(mode, IMP, 0xD8)
    case SED => Only(mode, IMP, 0xF8)
    case TXA => Only(mode, IMP, 0x8A)
    case TXS => Only(mode, IMP, 0x9A)
    case TAX => Only(mode, IMP, 0xAA)
    case TSX => Only(mode, IMP, 0xBA)
    case DEX => Only(mode, IMP, 0xCA)
    case NOP => Only(mode, IMP, 0xEA)
  }

  /** What an opcode byte stands for: nothing documented, or a mnemonic in a mode. */
  datatype Decoded = Undocumented | Key(m: Mnemonic, mode: AddrMode)

  /** The instruction a documented opcode stands for, read off its aaabbbcc bit fields. */
  function MatrixDecode(op: Byte): Decoded
  {
    var a, b, c := op / 32, (op / 4) % 8, op % 4;
    if c == 1 then
      var m := match a
        case 0 => ORA case 1 => AND case 2 => EOR case 3 => ADC
        case 4 => STA case 5 => LDA case 6 => CMP case _ => SBC;
      var mode := match b
        case 0 => IZX case 1 => ZPG case 2 => IMM case 3 => ABS
        case 4 => IZY case 5 => ZPX case 6 => ABY case _ => ABX;
      if m == STA && mode == IMM then Undocumented else Key(m, mode)
    else if c == 2 then DecodeColumn10(a, b)
    else if c == 0 then DecodeColumn00(a, b)
    else Undocumented
  }

  function DecodeColumn10(a: nat, b: nat): Decoded
  {
    var m := match a
      case 0 => ASL case 1 => ROL case 2 => LSR case 3 => ROR
      case 4 => STX case 5 => LDX case 6 => DEC case _ => INC;
    var yIndexed := m == STX || m == LDX;
    if b == 0 then (if m == LDX then Key(LDX, IMM) else Undocumented)
    else if b == 1 then Key(m, ZPG)
    else if b == 2 then
      Key(match a case 4 => TXA case 5 => TAX case 6 => DEX case 7 => NOP case _ => m, IMP)
    else if b == 3 then Key(m, ABS)
    else if b == 5 then Key(m, if yIndexed then ZPY else ZPX)
    else if b == 6 then
      (if m == STX then Key(TXS, IMP) else if m == LDX then Key(TSX, IMP) else Undocumented)
    else if b == 7 then (if m == STX then Undocumented else Key(m, if yIndexed then ABY else ABX))
    else Undocumented
  }

  function DecodeColumn00(a: nat, b: nat): Decoded
  {
    if b == 4 then
      Key(match a
        case 0 => BPL case 1 => BMI case 2 => BVC case 3 => BVS
        case 4 => BCC case 5 => BCS case 6 => BNE case _ => BEQ, REL)
    else if b == 2 then
      Key(match a
        case 0 => PHP case 1 => PLP case 2 => PHA case 3 => PLA
        case 4 => DEY case 5 => TAY case 6 => INY case _ => INX, IMP)
    else if b == 6 then
      Key(match a
        case 0 => CLC case 1 => SEC case 2 => CLI case 3 => SEI
        case 4 => TYA case 5 => CLV case 6 => CLD case _ => SED, IMP)
    else if b == 0 then
      match a
      case 0 => Key(BRK, IMP) case 1 => Key(JSR, ABS) case 2 => Key(RTI, IMP)
      case 3 => Key(RTS, IMP) case 5 => Key(LDY, IMM) case 6 => Key(CPY, IMM)
      case 7 => Key(CPX, IMM) case _ => Undocumented
    else if b == 1 then
      match a
      case 1 => Key(BIT, ZPG) case 4 => Key(STY, ZPG) case 5 => Key(LDY, ZPG)
      case 6 => Key(CPY, ZPG) case 7 => Key(CPX, ZPG) case _ => Undocumented
    else if b == 3 then
      match a
      case 1 => Key(BIT, ABS) case 2 => Key(JMP, ABS) case 3 => Key(JMP, IND)
      case 4 => Key(STY, ABS) case 5 => Key(LDY, ABS) case 6 => Key(CPY, ABS)
      case 7 => Key(CPX, ABS) case _ => Undocumented
    else if b == 5 then
      (if a == 4 then Key(STY, ZPX) else if a == 5 then Key(LDY, ZPX) else Undocumented)
    else if b == 7 then
      (if a == 5 then Key(LDY, ABX) else Undocumented)
    else Undocumented
  }

  /** A descriptor carries the opcode the processor gives its mnemonic and mode. */
  predicate InMatrix(r: Instruction)
  {
    MatrixOpcode(r.mnemonic, r.mode) == Some(r.opcode)
  }

  /*** The table, group by group, in source order ***/

  /** ADC, add with carry. */
  function AdcRows(): (g: seq<Instruction>)
    ensures forall r :: r in g ==> InMatrix(r)
  {
    [ Instruction(ADC, 0x69, IMM),
      Instruction(ADC, 0x65, ZPG),
      Instruction(ADC, 0x75, ZPX),
      Instruction(ADC, 0x6D, ABS),
      Instruction(ADC, 0x7D, ABX),
      Instruction(ADC, 0x79, ABY),
      Instruction(ADC, 0x61, IZX),
      Instruction(ADC, 0x71, IZY) ]
  }

  /** AND, logical and. */
  function AndRows(): (g: seq<Instruction>)
    ensures forall r :: r in g ==> InMatrix(r)
  {
    [ Instruction(AND, 0x29, IMM),
      Instruction(AND, 0x25, ZPG),
      Instruction(AND, 0x35, ZPX),
      Instruction(AND, 0x2D, ABS),
      Instruction(AND, 0x3D, ABX),
      Instruction(AND, 0x39, ABY),
      Instruction(AND, 0x21, IZX),
      Instruction(AND, 0x31, IZY) ]
  }

  /** ASL, arithmetic shift left. */
  function AslRows(): (g: seq<Instruction>)
    ensures forall r :: r in g ==> InMatrix(r)
  {
    [ Instruction(ASL, 0x0A, IMP),
      Instruction(ASL, 0x06, ZPG),
      Instruction(ASL, 0x16, ZPX),
      Instruction(ASL, 0x0E, ABS),
      Instruction(ASL, 0x1E, ABX) ]
  }

  /** BCC, BCS, BEQ, BMI, BNE, BPL, BVC, BVS: the branches. */
  function BranchRows(): (g: seq<Instruction>)
    ensures forall r :: r in g ==> InMatrix(r)
  {
    [ Instruction(BCC, 0x90, REL),
      Instruction(BCS, 0xB0, REL),
      Instruction(BEQ, 0xF0, REL),
      Instruction(BMI, 0x30, REL),
      Instruction(BNE, 0xD0, REL),
      Instruction(BPL, 0x10, REL),
      Instruction(BVC, 0x50, REL),
      Instruction(BVS, 0x70, REL) ]
  }

  /** BIT, bit test. */
  function BitRows(): (g: seq<Instruction>)
    ensures forall r :: r in g ==> InMatrix(r)
  {
    [ Instruction(BIT, 0x24, ZPG),
      Instruction(BIT, 0x2C, ABS) ]
  }

  /** BRK, break. */
  function BrkRows(): (g: seq<Instruction>)
    ensures forall r :: r in g ==> InMatrix(r)
  {
    [ Instruction(BRK, 0x00, IMP) ]
  }

  /** CLC, CLD, CLI, CLV: clear a flag. */
  function ClearFlagRows(): (g: seq<Instruction>)
    ensures forall r :: r in g ==> InMatrix(r)
  {
    [ Instruction(CLC, 0x18, IMP),
      Instruction(CLD, 0xD8, IMP),
      Instruction(CLI, 0x58, IMP),
      Instruction(CLV, 0xB8, IMP) ]
  }

  /** CMP, compare with the accumulator. */
  function CmpRows(): (g: seq<Instruction>)
    ensures forall r :: r in g ==> InMatrix(r)
  {
    [ Instruction(CMP, 0xC9, IMM),
      Instruction(CMP, 0xC5, ZPG),
      Instruction(CMP, 0xD5, ZPX),
      Instruction(CMP, 0xCD, ABS),
      Instruction(CMP, 0xDD, ABX),
      Instruction(CMP, 0xD9, ABY),
      Instruction(CMP, 0xC1, IZX),
      Instruction(CMP, 0xD1, IZY) ]
  }

  /** CPX, compare with X. */
  function CpxRows(): (g: seq<Instruction>)
    ensures forall r :: r in g ==> InMatrix(r)
  {
    [ Instruction(CPX, 0xE0, IMM),
      Instruction(CPX, 0xE4, ZPG),
      Instruction(CPX, 0xEC, ABS) ]
  }

  /** CPY, compare with Y. */
  function CpyRows(): (g: seq<Instruction>)
    ensures forall r :: r in g ==> InMatrix(r)
  {
    [ Instruction(CPY, 0xC0, IMM),
      Instruction(CPY, 0xC4, ZPG),
      Instruction(CPY, 0xCC, ABS) ]
  }

  /** DEC, decrement memory. */
  function DecRows(): (g: seq<Instruction>)
    ensures forall r :: r in g ==> InMatrix(r)
  {
    [ Instruction(DEC, 0xC6, ZPG),
      Instruction(DEC, 0xD6, ZPX),
      Instruction(DEC, 0xCE, ABS),
      Instruction(DEC, 0xDE, ABX) ]
  }

  /** DEX, DEY: decrement X or Y. */
  function DexDeyRows(): (g: seq<Instruction>)
    ensures forall r :: r in g ==> InMatrix(r)
  {
    [ Instruction(DEX, 0xCA, IMP),
      Instruction(DEY, 0x88, IMP) ]
  }

  /** EOR, exclusive or. */
  function EorRows(): (g: seq<Instruction>)
    ensures forall r :: r in g ==> InMatrix(r)
  {
    [ Instruction(EOR, 0x49, IMM),
      Instruction(EOR, 0x45, ZPG),
      Instruction(EOR, 0x55, ZPX),
      Instruction(EOR, 0x4D, ABS),
      Instruction(EOR, 0x5D, ABX),
      Instruction(EOR, 0x59, ABY),
      Instruction(EOR, 0x41, IZX),
      Instruction(EOR, 0x51, IZY) ]
  }

  /** The block labelled XOR: the EOR rows written out a second time. */
  function XorRows(): (g: seq<Instruction>)
    ensures forall r :: r in g ==> InMatrix(r)
  {
    [ Instruction(EOR, 0x49, IMM),
      Instruction(EOR, 0x45, ZPG),
      Instruction(EOR, 0x55, ZPX),
      Instruction(EOR, 0x4D, ABS),
      Instruction(EOR, 0x5D, ABX),
      Instruction(EOR, 0x59, ABY),
      Instruction(EOR, 0x41, IZX),
      Instruction(EOR, 0x51, IZY) ]
  }

  /** INC, increment memory. */
  function IncRows(): (g: seq<Instruction>)
    ensures forall r :: r in g ==> InMatrix(r)
  {
    [ Instruction(INC, 0xE6, ZPG),
      Instruction(INC, 0xF6, ZPX),
      Instruction(INC, 0xEE, ABS),
      Instruction(INC, 0xFE, ABX) ]
  }

  /** INX, INY: increment X or Y. */
  function InxInyRows(): (g: seq<Instruction>)
    ensures forall r :: r in g ==> InMatrix(r)
  {
    [ Instruction(INX, 0xE8, IMP),
      Instruction(INY, 0xC8, IMP) ]
  }

  /** JMP, jump. */
  function JmpRows(): (g: seq<Instruction>)
    ensures forall r :: r in g ==> InMatrix(r)
  {
    [ Instruction(JMP, 0x4C, ABS),
      Instruction(JMP, 0x6C, IND) ]
  }

  /** JSR, jump to subroutine. */
  function JsrRows(): (g: seq<Instruction>)
    ensures forall r :: r in g ==> InMatrix(r)
  {
    [ Instruction(JSR, 0x20, ABS) ]
  }

  /** LDA, load the accumulator. */
  function LdaRows(): (g: seq<Instruction>)
    ensures forall r :: r in g ==> InMatrix(r)
  {
    [ Instruction(LDA, 0xA9, IMM),
      Instruction(LDA, 0xA5, ZPG),
      Instruction(LDA, 0xB5, ZPX),
      Instruction(LDA, 0xAD, ABS),
      Instruction(LDA, 0xBD, ABX),
      Instruction(LDA, 0xB9, ABY),
      Instruction(LDA, 0xA1, IZX),
      Instruction(LDA, 0xB1, IZY) ]
  }

  /** LDX, load X. */
  function LdxRows(): (g: seq<Instruction>)
    ensures forall r :: r in g ==> InMatrix(r)
  {
    [ Instruction(LDX, 0xA2, IMM),
      Instruction(LDX, 0xA6, ZPG),
      Instruction(LDX, 0xB6, ZPY),
      Instruction(LDX, 0xAE, ABS),
      Instruction(LDX, 0xBE, ABY) ]
  }

  /** LDY, load Y. */
  function LdyRows(): (g: seq<Instruction>)
    ensures forall r :: r in g ==> InMatrix(r)
  {
    [ Instruction(LDY, 0xA0, IMM),
      Instruction(LDY, 0xA4, ZPG),
      Instruction(LDY, 0xB4, ZPX),
      Instruction(LDY, 0xAC, ABS),
      Instruction(LDY, 0xBC, ABX) ]
  }

  /** LSR, logical shift right. */
  function LsrRows(): (g: seq<Instruction>)
    ensures forall r :: r in g ==> InMatrix(r)
  {
    [ Instruction(LSR, 0x4A, IMP),
      Instruction(LSR, 0x46, ZPG),
      Instruction(LSR, 0x56, ZPX),
      Instruction(LSR, 0x4E, ABS),
      Instruction(LSR, 0x5E, ABX) ]
  }

  /** NOP, no operation. */
  function NopRows(): (g: seq<Instruction>)
    ensures forall r :: r in g ==> InMatrix(r)
  {
    [ Instruction(NOP, 0xEA, IMP) ]
  }

  /** ORA, logical or. */
  function OraRows(): (g: seq<Instruction>)
    ensures forall r :: r in g ==> InMatrix(r)
  {
    [ Instruction(ORA, 0x09, IMM),
      Instruction(ORA, 0x05, ZPG),
      Instruction(ORA, 0x15, ZPX),
      Instruction(ORA, 0x0D, ABS),
      Instruction(ORA, 0x1D, ABX),
      Instruction(ORA, 0x19, ABY),
      Instruction(ORA, 0x01, IZX),
      Instruction(ORA, 0x11, IZY) ]
  }

  /** PHA, PHP, PLA, PLP: stack operations. */
  function StackRows(): (g: seq<Instruction>)
    ensures forall r :: r in g ==> InMatrix(r)
  {
    [ Instruction(PHA, 0x48, IMP),
      Instruction(PHP, 0x08, IMP),
      Instruction(PLA, 0x68, IMP),
      Instruction(PLP, 0x28, IMP) ]
  }

  /** ROL, rotate left. */
  function RolRows(): (g: seq<Instruction>)
    ensures forall r :: r in g ==> InMatrix(r)
  {
    [ Instruction(ROL, 0x2A, IMP),
      Instruction(ROL, 0x26, ZPG),
      Instruction(ROL, 0x36, ZPX),
      Instruction(ROL, 0x2E, ABS),
      Instruction(ROL, 0x3E, ABX) ]
  }

  /** ROR, rotate right. */
  function RorRows(): (g: seq<Instruction>)
    ensures forall r :: r in g ==> InMatrix(r)
  {
    [ Instruction(ROR, 0x6A, IMP),
      Instruction(ROR, 0x66, ZPG),
      Instruction(ROR, 0x76, ZPX),
      Instruction(ROR, 0x6E, ABS),
      Instruction(ROR, 0x7E, ABX) ]
  }

  /** RTI, RTS: return. */
  function ReturnRows(): (g: seq<Instruction>)
    ensures forall r :: r in g ==> InMatrix(r)
  {
    [ Instruction(RTI, 0x40, IMP),
      Instruction(RTS, 0x60, IMP) ]
  }

  /** SBC, subtract with carry. */
  function SbcRows(): (g: seq<Instruction>)
    ensures forall r :: r in g ==> InMatrix(r)
  {
    [ Instruction(SBC, 0xE9, IMM),
      Instruction(SBC, 0xE5, ZPG),
      Instruction(SBC, 0xF5, ZPX),
      Instruction(SBC, 0xED, ABS),
      Instruction(SBC, 0xFD, ABX),
      Instruction(SBC, 0xF9, ABY),
      Instruction(SBC, 0xE1, IZX),
      Instruction(SBC, 0xF1, IZY) ]
  }

  /** SEC, SED, SEI: set a flag. */
  function SetFlagRows(): (g: seq<Instruction>)
    ensures forall r :: r in g ==> InMatrix(r)
  {
    [ Instruction(SEC, 0x38, IMP),
      Instruction(SED, 0xF8, IMP),
      Instruction(SEI, 0x78, IMP) ]
  }

  /** STA, store the accumulator. */
  function StaRows(): (g: seq<Instruction>)
    ensures forall r :: r in g ==> InMatrix(r)
  {
    [ Instruction(STA, 0x85, ZPG),
      Instruction(STA, 0x95, ZPX),
      Instruction(STA, 0x8D, ABS),
      Instruction(STA, 0x9D, ABX),
      Instruction(STA, 0x99, ABY),
      Instruction(STA, 0x81, IZX),
      Instruction(STA, 0x91, IZY) ]
  }

  /** STX, store X. */
  function StxRows(): (g: seq<Instruction>)
    ensures forall r :: r in g ==> InMatrix(r)
  {
    [ Instruction(STX, 0x86, ZPG),
      Instruction(STX, 0x96, ZPY),
      Instruction(STX, 0x8E, ABS) ]
  }

  /** STY, store Y. */
  function StyRows(): (g: seq<Instruction>)
    ensures forall r :: r in g ==> InMatrix(r)
  {
    [ Instruction(STY, 0x84, ZPG),
      Instruction(STY, 0x94, ZPX),
      Instruction(STY, 0x8C, ABS) ]
  }

  /** TAX, TAY, TSX, TXA, TXS, TYA: transfers. */
  function TransferRows(): (g: seq<Instruction>)
    ensures forall r :: r in g ==> InMatrix(r)
  {
    [ Instruction(TAX, 0xAA, IMP),
      Instruction(TAY, 0xA8, IMP),
      Instruction(TSX, 0xBA, IMP),
      Instruction(TXA, 0x8A, IMP),
      Instruction(TXS, 0x9A, IMP),
      Instruction(TYA, 0x98, IMP) ]
  }

  /*** The groups gathered in four runs, and the whole table ***/

  function RowsAdcToCpx(): seq<Instruction>
  {
    AdcRows() + AndRows() + AslRows() + BranchRows() + BitRows() + BrkRows() +
    ClearFlagRows() + CmpRows() + CpxRows()
  }

  function RowsCpyToJsr(): seq<Instruction>
  {
    CpyRows() + DecRows() + DexDeyRows() + EorRows() + XorRows() + IncRows() +
    InxInyRows() + JmpRows() + JsrRows()
  }

  function RowsLdaToRol(): seq<Instruction>
  {
    LdaRows() + LdxRows() + LdyRows() + LsrRows() + NopRows() + OraRows() + StackRows() +
    RolRows()
  }

  function RowsRorToTya(): seq<Instruction>
  {
    RorRows() + ReturnRows() + SbcRows() + SetFlagRows() + StaRows() + StxRows() +
    StyRows() + TransferRows()
  }

  /** `instructions[]`. */
  const Table: seq<Instruction> :=
    RowsAdcToCpx() + RowsCpyToJsr() + RowsLdaToRol() + RowsRorToTya()

  /** `NUM_INSTRUCTIONS`, the element count of `instructions[]`. */
  const NumInstructions: nat := |Table|

  /*** The table against the opcode matrix ***/

  /** Membership in the table is membership in one of its groups. */
  lemma TableMembership(r: Instruction)
    ensures r in Table <==>
      r in AdcRows() ||
      r in AndRows() ||
      r in AslRows() ||
      r in BranchRows() ||
      r in BitRows() ||
      r in BrkRows() ||
      r in ClearFlagRows() ||
      r in CmpRows() ||
      r in CpxRows() ||
      r in CpyRows() ||
      r in DecRows() ||
      r in DexDeyRows() ||
      r in EorRows() ||
      r in XorRows() ||
      r in IncRows() ||
      r in InxInyRows() ||
      r in JmpRows() ||
      r in JsrRows() ||
      r in LdaRows() ||
      r in LdxRows() ||
      r in LdyRows() ||
      r in LsrRows() ||
      r in NopRows() ||
      r in OraRows() ||
      r in StackRows() ||
      r in RolRows() ||
      r in RorRows() ||
      r in ReturnRows() ||
      r in SbcRows() ||
      r in SetFlagRows() ||
      r in StaRows() ||
      r in StxRows() ||
      r in StyRows() ||
      r in TransferRows()
  {
    RowsAdcToCpxMembership(r);
    RowsCpyToJsrMembership(r);
    RowsLdaToRolMembership(r);
    RowsRorToTyaMembership(r);
  }

  lemma RowsAdcToCpxMembership(r: Instruction)
    ensures r in RowsAdcToCpx() <==>
      r in AdcRows() ||
      r in AndRows() ||
      r in AslRows() ||
      r in BranchRows() ||
      r in BitRows() ||
      r in BrkRows() ||
      r in ClearFlagRows() ||
      r in CmpRows() ||
      r in CpxRows()
  {
  }

  lemma RowsCpyToJsrMembership(r: Instruction)
    ensures r in RowsCpyToJsr() <==>
      r in CpyRows() ||
      r in DecRows() ||
      r in DexDeyRows() ||
      r in EorRows() ||
      r in XorRows() ||
      r in IncRows() ||
      r in InxInyRows() ||
      r in JmpRows() ||
      r in JsrRows()
  {
  }

  lemma RowsLdaToRolMembership(r: Instruction)
    ensures r in RowsLdaToRol() <==>
      r in LdaRows() ||
      r in LdxRows() ||
      r in LdyRows() ||
      r in LsrRows() ||
      r in NopRows() ||
      r in OraRows() ||
      r in StackRows() ||
      r in RolRows()
  {
  }

  lemma RowsRorToTyaMembership(r: Instruction)
    ensures r in RowsRorToTya() <==>
      r in RorRows() ||
      r in ReturnRows() ||
      r in SbcRows() ||
      r in SetFlagRows() ||
      r in StaRows() ||
      r in StxRows() ||
      r in StyRows() ||
      r in TransferRows()
  {
  }

  /** Every row of the table is a documented 6502 instruction with its true opcode. */
  lemma {:induction false} TableInMatrix(r: Instruction)
    requires r in Table
    ensures InMatrix(r)
  {
    TableMembership(r);
  }

  lemma {:induction false} MatrixDecodeInvertsOraAnd(m: Mnemonic, mode: AddrMode)
    requires (m == ORA || m == AND) && MatrixOpcode(m, mode).Some?
    ensures MatrixDecode(MatrixOpcode(m, mode).value) == Key(m, mode)
  {
    match m
    case ORA =>
    case AND =>
  }

  lemma {:induction false} MatrixDecodeInvertsEorAdc(m: Mnemonic, mode: AddrMode)
    requires (m == EOR || m == ADC) && MatrixOpcode(m, mode).Some?
    ensures MatrixDecode(MatrixOpcode(m, mode).value) == Key(m, mode)
  {
    match m
    case EOR =>
    case ADC =>
  }

  lemma {:induction false} MatrixDecodeInvertsStaLda(m: Mnemonic, mode: AddrMode)
    requires (m == STA || m == LDA) && MatrixOpcode(m, mode).Some?
    ensures MatrixDecode(MatrixOpcode(m, mode).value) == Key(m, mode)
  {
    match m
    case STA =>
    case LDA =>
  }

  lemma {:induction false} MatrixDecodeInvertsCmpSbc(m: Mnemonic, mode: AddrMode)
    requires (m == CMP || m == SBC) && MatrixOpcode(m, mode).Some?
    ensures MatrixDecode(MatrixOpcode(m, mode).value) == Key(m, mode)
  {
    match m
    case CMP =>
    case SBC =>
  }

  lemma {:induction false} MatrixDecodeInvertsBplBmi(m: Mnemonic, mode: AddrMode)
    requires (m == BPL || m == BMI) && MatrixOpcode(m, mode).Some?
    ensures MatrixDecode(MatrixOpcode(m, mode).value) == Key(m, mode)
  {
    match m
    case BPL =>
    case BMI =>
  }

  lemma {:induction false} MatrixDecodeInvertsBvcBvs(m: Mnemonic, mode: AddrMode)
    requires (m == BVC || m == BVS) && MatrixOpcode(m, mode).Some?
    ensures MatrixDecode(MatrixOpcode(m, mode).value) == Key(m, mode)
  {
    match m
    case BVC =>
    case BVS =>
  }

  lemma {:induction false} MatrixDecodeInvertsBccBcs(m: Mnemonic, mode: AddrMode)
    requires (m == BCC || m == BCS) && MatrixOpcode(m, mode).Some?
    ensures MatrixDecode(MatrixOpcode(m, mode).value) == Key(m, mode)
  {
    match m
    case BCC =>
    case BCS =>
  }

  lemma {:induction false} MatrixDecodeInvertsBneBeq(m: Mnemonic, mode: AddrMode)
    requires (m == BNE || m == BEQ) && MatrixOpcode(m, mode).Some?
    ensures MatrixDecode(MatrixOpcode(m, mode).value) == Key(m, mode)
  {
    match m
    case BNE =>
    case BEQ =>
  }

  lemma {:induction false} MatrixDecodeInvertsTaxTay(m: Mnemonic, mode: AddrMode)
    requires (m == TAX || m == TAY) && MatrixOpcode(m, mode).Some?
    ensures MatrixDecode(MatrixOpcode(m, mode).value) == Key(m, mode)
  {
    match m
    case TAX =>
    case TAY =>
  }

  lemma {:induction false} MatrixDecodeInvertsTsxTxa(m: Mnemonic, mode: AddrMode)
    requires (m == TSX || m == TXA) && MatrixOpcode(m, mode).Some?
    ensures MatrixDecode(MatrixOpcode(m, mode).value) == Key(m, mode)
  {
    match m
    case TSX =>
    case TXA =>
  }

  lemma {:induction false} MatrixDecodeInvertsTxsTya(m: Mnemonic, mode: AddrMode)
    requires (m == TXS || m == TYA) && MatrixOpcode(m, mode).Some?
    ensures MatrixDecode(MatrixOpcode(m, mode).value) == Key(m, mode)
  {
    match m
    case TXS =>
    case TYA =>
  }

  lemma {:induction false} MatrixDecodeInvertsClcCld(m: Mnemonic, mode: AddrMode)
    requires (m == CLC || m == CLD) && MatrixOpcode(m, mode).Some?
    ensures MatrixDecode(MatrixOpcode(m, mode).value) == Key(m, mode)
  {
    match m
    case CLC =>
    case CLD =>
  }

  lemma {:induction false} MatrixDecodeInvertsCliClv(m: Mnemonic, mode: AddrMode)
    requires (m == CLI || m == CLV) && MatrixOpcode(m, mode).Some?
    ensures MatrixDecode(MatrixOpcode(m, mode).value) == Key(m, mode)
  {
    match m
    case CLI =>
    case CLV =>
  }

  lemma {:induction false} MatrixDecodeInvertsPhaPhp(m: Mnemonic, mode: AddrMode)
    requires (m == PHA || m == PHP) && MatrixOpcode(m, mode).Some?
    ensures MatrixDecode(MatrixOpcode(m, mode).value) == Key(m, mode)
  {
    match m
    case PHA =>
    case PHP =>
  }

  lemma {:induction false} MatrixDecodeInvertsPlaPlp(m: Mnemonic, mode: AddrMode)
    requires (m == PLA || m == PLP) && MatrixOpcode(m, mode).Some?
    ensures MatrixDecode(MatrixOpcode(m, mode).value) == Key(m, mode)
  {
    match m
    case PLA =>
    case PLP =>
  }

  lemma {:induction false} MatrixDecodeInvertsSecSed(m: Mnemonic, mode: AddrMode)
    requires (m == SEC || m == SED) && MatrixOpcode(m, mode).Some?
    ensures MatrixDecode(MatrixOpcode(m, mode).value) == Key(m, mode)
  {
    match m
    case SEC =>
    case SED =>
  }

  lemma {:induction false} MatrixDecodeInvertsSeiRti(m: Mnemonic, mode: AddrMode)
    requires (m == SEI || m == RTI) && MatrixOpcode(m, mode).Some?
    ensures MatrixDecode(MatrixOpcode(m, mode).value) == Key(m, mode)
  {
    match m
    case SEI =>
    case RTI =>
  }

  lemma {:induction false} MatrixDecodeInvertsRtsDex(m: Mnemonic, mode: AddrMode)
    requires (m == RTS || m == DEX) && MatrixOpcode(m, mode).Some?
    ensures MatrixDecode(MatrixOpcode(m, mode).value) == Key(m, mode)
  {
    match m
    case RTS =>
    case DEX =>
  }

  lemma {:induction false} MatrixDecodeInvertsDeyInx(m: Mnemonic, mode: AddrMode)
    requires (m == DEY || m == INX) && MatrixOpcode(m, mode).Some?
    ensures MatrixDecode(MatrixOpcode(m, mode).value) == Key(m, mode)
  {
    match m
    case DEY =>
    case INX =>
  }

  lemma {:induction false} MatrixDecodeInvertsInyBrk(m: Mnemonic, mode: AddrMode)
    requires (m == INY || m == BRK) && MatrixOpcode(m, mode).Some?
    ensures MatrixDecode(MatrixOpcode(m, mode).value) == Key(m, mode)
  {
    match m
    case INY =>
    case BRK =>
  }

  lemma {:induction false} MatrixDecodeInvertsNopJsr(m: Mnemonic, mode: AddrMode)
    requires (m == NOP || m == JSR) && MatrixOpcode(m, mode).Some?
    ensures MatrixDecode(MatrixOpcode(m, mode).value) == Key(m, mode)
  {
    match m
    case NOP =>
    case JSR =>
  }

  lemma {:induction false} MatrixDecodeInvertsBitJmp(m: Mnemonic, mode: AddrMode)
    requires (m == BIT || m == JMP) && MatrixOpcode(m, mode).Some?
    ensures MatrixDecode(MatrixOpcode(m, mode).value) == Key(m, mode)
  {
    match m
    case BIT =>
    case JMP =>
  }

  lemma {:induction false} MatrixDecodeInvertsAslRol(m: Mnemonic, mode: AddrMode)
    requires (m == ASL || m == ROL) && MatrixOpcode(m, mode).Some?
    ensures MatrixDecode(MatrixOpcode(m, mode).value) == Key(m, mode)
  {
    match m
    case ASL =>
    case ROL =>
  }

  lemma {:induction false} MatrixDecodeInvertsLsrRor(m: Mnemonic, mode: AddrMode)
    requires (m == LSR || m == ROR) && MatrixOpcode(m, mode).Some?
    ensures MatrixDecode(MatrixOpcode(m, mode).value) == Key(m, mode)
  {
    match m
    case LSR =>
    case ROR =>
  }

  lemma {:induction false} MatrixDecodeInvertsDecInc(m: Mnemonic, mode: AddrMode)
    requires (m == DEC || m == INC) && MatrixOpcode(m, mode).Some?
    ensures MatrixDecode(MatrixOpcode(m, mode).value) == Key(m, mode)
  {
    match m
    case DEC =>
    case INC =>
  }

  lemma {:induction false} MatrixDecodeInvertsLdxLdy(m: Mnemonic, mode: AddrMode)
    requires (m == LDX || m == LDY) && MatrixOpcode(m, mode).Some?
    ensures MatrixDecode(MatrixOpcode(m, mode).value) == Key(m, mode)
  {
    match m
    case LDX =>
    case LDY =>
  }

  lemma {:induction false} MatrixDecodeInvertsCpxCpy(m: Mnemonic, mode: AddrMode)
    requires (m == CPX || m == CPY) && MatrixOpcode(m, mode).Some?
    ensures MatrixDecode(MatrixOpcode(m, mode).value) == Key(m, mode)
  {
    match m
    case CPX =>
    case CPY =>
  }

  lemma {:induction false} MatrixDecodeInvertsStxSty(m: Mnemonic, mode: AddrMode)
    requires (m == STX || m == STY) && MatrixOpcode(m, mode).Some?
    ensures MatrixDecode(MatrixOpcode(m, mode).value) == Key(m, mode)
  {
    match m
    case STX =>
    case STY =>
  }

  /** Decoding the opcode of a documented instruction gives that instruction back. */
  lemma {:induction false} MatrixDecodeInverts(m: Mnemonic, mode: AddrMode)
    requires MatrixOpcode(m, mode).Some?
    ensures MatrixDecode(MatrixOpcode(m, mode).value) == Key(m, mode)
  {
    if m == ORA || m == AND {
      MatrixDecodeInvertsOraAnd(m, mode);
    } else if m == EOR || m == ADC {
      MatrixDecodeInvertsEorAdc(m, mode);
    } else if m == STA || m == LDA {
      MatrixDecodeInvertsStaLda(m, mode);
    } else if m == CMP || m == SBC {
      MatrixDecodeInvertsCmpSbc(m, mode);
    } else if m == BPL || m == BMI {
      MatrixDecodeInvertsBplBmi(m, mode);
    } else if m == BVC || m == BVS {
      MatrixDecodeInvertsBvcBvs(m, mode);
    } else if m == BCC || m == BCS {
      MatrixDecodeInvertsBccBcs(m, mode);
    } else if m == BNE || m == BEQ {
      MatrixDecodeInvertsBneBeq(m, mode);
    } else if m == TAX || m == TAY {
      MatrixDecodeInvertsTaxTay(m, mode);
    } else if m == TSX || m == TXA {
      MatrixDecodeInvertsTsxTxa(m, mode);
    } else if m == TXS || m == TYA {
      MatrixDecodeInvertsTxsTya(m, mode);
    } else if m == CLC || m == CLD {
      MatrixDecodeInvertsClcCld(m, mode);
    } else if m == CLI || m == CLV {
      MatrixDecodeInvertsCliClv(m, mode);
    } else if m == PHA || m == PHP {
      MatrixDecodeInvertsPhaPhp(m, mode);
    } else if m == PLA || m == PLP {
      MatrixDecodeInvertsPlaPlp(m, mode);
    } else if m == SEC || m == SED {
      MatrixDecodeInvertsSecSed(m, mode);
    } else if m == SEI || m == RTI {
      MatrixDecodeInvertsSeiRti(m, mode);
    } else if m == RTS || m == DEX {
      MatrixDecodeInvertsRtsDex(m, mode);
    } else if m == DEY || m == INX {
      MatrixDecodeInvertsDeyInx(m, mode);
    } else if m == INY || m == BRK {
      MatrixDecodeInvertsInyBrk(m, mode);
    } else if m == NOP || m == JSR {
      MatrixDecodeInvertsNopJsr(m, mode);
    } else if m == BIT || m == JMP {
      MatrixDecodeInvertsBitJmp(m, mode);
    } else if m == ASL || m == ROL {
      MatrixDecodeInvertsAslRol(m, mode);
    } else if m == LSR || m == ROR {
      MatrixDecodeInvertsLsrRor(m, mode);
    } else if m == DEC || m == INC {
      MatrixDecodeInvertsDecInc(m, mode);
    } else if m == LDX || m == LDY {
      MatrixDecodeInvertsLdxLdy(m, mode);
    } else if m == CPX || m == CPY {
      MatrixDecodeInvertsCpxCpy(m, mode);
    } else {
      MatrixDecodeInvertsStxSty(m, mode);
    }
  }

  /** Distinct documented instructions have distinct opcodes. */
  lemma {:induction false} MatrixOpcodeInjective(m1: Mnemonic, mode1: AddrMode, m2: Mnemonic, mode2: AddrMode)
    requires MatrixOpcode(m1, mode1).Some? && MatrixOpcode(m1, mode1) == MatrixOpcode(m2, mode2)
    ensures m1 == m2 && mode1 == mode2
  {
    MatrixDecodeInverts(m1, mode1);
    MatrixDecodeInverts(m2, mode2);
  }
}
