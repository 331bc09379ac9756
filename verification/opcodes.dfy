/**
 * Lookup in the instruction table and the facts about its shape, all derived
 * from the agreement of every row with the 6502 opcode matrix.
 */
module Opcodes {
  import opened Types
  import opened Instructions

  /** The eight conditional branches. */
  predicate IsBranch(m: Mnemonic)
  {
    m == BPL || m == BMI || m == BVC || m == BVS || m == BCC || m == BCS || m == BNE || m == BEQ
  }

  /** The opcode of the first row of `rows` with this mnemonic and mode. */
  function FindOpcode(rows: seq<Instruction>, m: Mnemonic, mode: AddrMode): (r: Option<Byte>)
    ensures r.Some? ==> Instruction(m, r.value, mode) in rows
  {
    if |rows| == 0 then None
    else if rows[0].mnemonic == m && rows[0].mode == mode then Some(rows[0].opcode)
    else FindOpcode(rows[1..], m, mode)
  }

  /** When the search finds nothing, no row has that mnemonic and mode. */
  lemma {:induction false} FindOpcodeMissing(rows: seq<Instruction>, m: Mnemonic, mode: AddrMode, row: Instruction)
    requires FindOpcode(rows, m, mode).None? && row in rows
    ensures row.mnemonic != m || row.mode != mode
  {
    if rows[0] != row {
      FindOpcodeMissing(rows[1..], m, mode, row);
    }
  }

  /** The opcode the table gives a mnemonic in an addressing mode, if it has a row for it. */
  function Lookup(m: Mnemonic, mode: AddrMode): (r: Option<Byte>)
    ensures r.Some? ==> Instruction(m, r.value, mode) in Table
  {
    FindOpcode(Table, m, mode)
  }

  /** The element count of the table. */
  lemma TableSize()
    ensures NumInstructions == 159
  {
  }

  /**
   * Two rows carry the same opcode exactly when they carry the same mnemonic
   * and mode, and then they are the same row: rows that share a key agree on
   * the opcode, and distinct keys never share one.
   */
  lemma {:induction false} OpcodeIffKey(i: int, j: int)
    requires 0 <= i < |Table| && 0 <= j < |Table|
    ensures Table[i].opcode == Table[j].opcode <==>
      Table[i].mnemonic == Table[j].mnemonic && Table[i].mode == Table[j].mode
    ensures Table[i].opcode == Table[j].opcode ==> Table[i] == Table[j]
  {
    TableInMatrix(Table[i]);
    TableInMatrix(Table[j]);
    if Table[i].opcode == Table[j].opcode {
      MatrixOpcodeInjective(Table[i].mnemonic, Table[i].mode, Table[j].mnemonic, Table[j].mode);
    }
  }

  /** Lookup finds every row of the table, with that row's opcode. */
  lemma {:induction false} LookupFindsRow(r: Instruction)
    requires r in Table
    ensures Lookup(r.mnemonic, r.mode) == Some(r.opcode)
  {
    var found := Lookup(r.mnemonic, r.mode);
    if found.None? {
      FindOpcodeMissing(Table, r.mnemonic, r.mode, r);
    } else {
      TableInMatrix(r);
      TableInMatrix(Instruction(r.mnemonic, found.value, r.mode));
    }
  }

  /** Lookup gives the processor's opcode whenever it finds one. */
  lemma {:induction false} LookupAgreesWithMatrix(m: Mnemonic, mode: AddrMode)
    requires Lookup(m, mode).Some?
    ensures MatrixOpcode(m, mode) == Lookup(m, mode)
  {
    TableInMatrix(Instruction(m, Lookup(m, mode).value, mode));
  }

  /** A slice of a concatenation that lies within one of its parts. */
  lemma SliceWithin(a: seq<Instruction>, b: seq<Instruction>, c: seq<Instruction>, d: seq<Instruction>, i: nat, j: nat)
    requires i <= j <= |b|
    ensures (a + b + c + d)[|a| + i..|a| + j] == b[i..j]
  {
    assert (a + b + c + d)[|a| + i..|a| + j] == (a + b)[|a| + i..|a| + j];
  }

  /** The first four groups hold 47 rows. */
  lemma RowsBeforeCpy()
    ensures |RowsAdcToCpx()| == 47
  {
  }

  /** The EOR group and the XOR group are identical, and come ninth and tenth of the second run. */
  lemma EorBlocksInSecondRun()
    ensures RowsCpyToJsr()[9..17] == EorRows()
    ensures RowsCpyToJsr()[17..25] == EorRows()
  {
    assert XorRows() == EorRows();
  }

  /** The block labelled XOR repeats the EOR rows, immediately after them. */
  lemma DuplicateEorBlock()
    ensures Table[56..64] == EorRows() && Table[64..72] == EorRows()
  {
    RowsBeforeCpy();
    EorBlocksInSecondRun();
    SliceWithin(RowsAdcToCpx(), RowsCpyToJsr(), RowsLdaToRol(), RowsRorToTya(), 9, 17);
    SliceWithin(RowsAdcToCpx(), RowsCpyToJsr(), RowsLdaToRol(), RowsRorToTya(), 17, 25);
  }

  /** In the opcode matrix, REL is the mode of the branches... */
  lemma {:induction false} DecodeRelativeIsBranch(op: Byte)
    requires MatrixDecode(op).Key? && MatrixDecode(op).mode == REL
    ensures IsBranch(MatrixDecode(op).m)
  {
  }

  /** ...and of nothing else. */
  lemma {:induction false} MatrixBranchIsRelative(m: Mnemonic, mode: AddrMode)
    requires IsBranch(m) && MatrixOpcode(m, mode).Some?
    ensures mode == REL
  {
  }

  /** In the opcode matrix, IND occurs once, for JMP at 0x6C. */
  lemma {:induction false} DecodeIndirectShape(op: Byte)
    requires MatrixDecode(op).Key?
    ensures MatrixDecode(op).mode == IND <==> op == 0x6C
    ensures op == 0x6C ==> MatrixDecode(op).m == JMP
  {
  }

  /** In the opcode matrix, LDX and STX are indexed by Y and STA has no immediate form. */
  lemma {:induction false} DecodeIndexShape(op: Byte)
    requires MatrixDecode(op).Key?
    ensures MatrixDecode(op) != Key(STA, IMM)
    ensures MatrixDecode(op).m == LDX || MatrixDecode(op).m == STX ==>
      MatrixDecode(op).mode !in {ZPX, ABX, IZX, IZY}
  {
  }

  /** The opcode of a row decodes to the row's own mnemonic and mode. */
  lemma {:induction false} RowDecodes(r: Instruction)
    requires r in Table
    ensures MatrixDecode(r.opcode) == Key(r.mnemonic, r.mode)
  {
    TableInMatrix(r);
    MatrixDecodeInverts(r.mnemonic, r.mode);
  }

  /** The eight branches appear with REL and nothing else does. */
  lemma {:induction false} BranchesOnlyRelative(r: Instruction)
    requires r in Table
    ensures r.mode == REL <==> IsBranch(r.mnemonic)
  {
    RowDecodes(r);
    if r.mode == REL {
      DecodeRelativeIsBranch(r.opcode);
    }
    if IsBranch(r.mnemonic) {
      TableInMatrix(r);
      MatrixBranchIsRelative(r.mnemonic, r.mode);
    }
  }

  /** IND has exactly one row: JMP at 0x6C. */
  lemma {:induction false} IndirectOnlyJmp(r: Instruction)
    requires r in Table
    ensures r.mode == IND <==> r == Instruction(JMP, 0x6C, IND)
  {
    RowDecodes(r);
    DecodeIndirectShape(r.opcode);
  }

  /** LDX and STX are indexed through Y, never through X. */
  lemma {:induction false} LdxStxIndexByY(r: Instruction)
    requires r in Table && (r.mnemonic == LDX || r.mnemonic == STX)
    ensures r.mode !in {ZPX, ABX, IZX, IZY}
  {
    RowDecodes(r);
    DecodeIndexShape(r.opcode);
  }

  /** The Y-indexed forms of LDX and STX the table does have. */
  lemma LdxStxYRows()
    ensures Lookup(LDX, ZPY) == Some(0xB6) && Lookup(LDX, ABY) == Some(0xBE)
    ensures Lookup(STX, ZPY) == Some(0x96)
  {
    TableMembership(Instruction(LDX, 0xB6, ZPY));
    LookupFindsRow(Instruction(LDX, 0xB6, ZPY));
    TableMembership(Instruction(LDX, 0xBE, ABY));
    LookupFindsRow(Instruction(LDX, 0xBE, ABY));
    TableMembership(Instruction(STX, 0x96, ZPY));
    LookupFindsRow(Instruction(STX, 0x96, ZPY));
  }

  /** STA has no immediate form. */
  lemma {:induction false} NoStaImmediate()
    ensures Lookup(STA, IMM) == None
  {
    if Lookup(STA, IMM).Some? {
      LookupAgreesWithMatrix(STA, IMM);
    }
  }
}
