/**
 * The Lisp compiler's output as the assembler reads it: how the operand
 * classifier and the number reader treat each operand form the code
 * generator writes, and which table entries the generated instructions need.
 */
module Pipeline {
  import opened Types
  import opened CLib
  import opened Symbols
  import opened Instructions
  import opened Opcodes
  import opened Utils
  import opened Codegen
  import opened CodegenFacts
  import opened CodegenShapes

  /** A text without white space at either end is its own trimmed text. */
  lemma TrimUnpadded(s: string)
    requires s != [] && !IsSpace(s[0]) && !IsSpace(s[|s| - 1])
    ensures Trim(s) == s
  {
    TrimBetween(s, 0, |s| - 1);
  }

  /** `#$hh`, the operand of a number load, is immediate and reads back as hh. */
  lemma ImmediateOperand(t: seq<Symbol>, b: Byte)
    ensures DetectAddressingMode(t, Some("#$" + Hex2(b))) == IMM
    ensures ParseNumber(t, Some("#$" + Hex2(b))) == b
  {
    var s := "#$" + Hex2(b);
    assert s[|s| - 1] == Hex2(b)[1];
    TrimUnpadded(s);
    ParseReadsBackHex(t, b);
  }

  /** `$hh`, the operand naming a variable or a temporary, is zero page and reads back as hh. */
  lemma ZeroPageOperand(t: seq<Symbol>, b: Byte)
    ensures DetectAddressingMode(t, Some(Zp(b))) == ZPG
    ensures ParseNumber(t, Some(Zp(b))) == b
  {
    var s := Zp(b);
    assert s[|s| - 1] == Hex2(b)[1];
    TrimUnpadded(s);
    NotContains(s, ",X");
    NotContains(s, ",Y");
    DetectZeroPageIff(t, s);
    ParseReadsBackHex(t, b);
  }

  /** `$0200`, the operand of `print`'s store, is absolute and reads back as 0x0200. */
  lemma OutputPortOperand(t: seq<Symbol>)
    ensures DetectAddressingMode(t, Some("$0200")) == ABS
    ensures ParseNumber(t, Some("$0200")) == 0x0200
  {
    PortMode(t, "$0200");
    PortValue(t, "$0200");
  }

  lemma PortMode(t: seq<Symbol>, s: string)
    requires s == "$0200"
    ensures DetectAddressingMode(t, Some(s)) == ABS
  {
    TrimUnpadded(s);
    NotContains(s, ",X");
    NotContains(s, ",Y");
    assert CharAt(s, 0) == '$' && CharAt(s, |s| - 1) == '0';
  }

  lemma PortValue(t: seq<Symbol>, s: string)
    requires s == "$0200"
    ensures ParseNumber(t, Some(s)) == 0x0200
  {
    assert CharAt(s, 0) == '$';
    assert s[1..] == "0200";
    PortDigits(s[1..]);
  }

  lemma PortDigits(d: string)
    requires d == "0200"
    ensures StrToL(d, 16) == 0x0200
  {
    assert forall k :: 0 <= k < 4 ==> IsDigitIn(d[k], 16);
    assert DigitPrefix(d, 16) == 4;
    assert d[..4] == d;
    assert d[..3] == "020" && d[..3][..2] == "02" && d[..3][..2][..1] == "0" && d[..3][..2][..1][..0] == [];
    assert ValueOf("0", 16) == 0;
    assert ValueOf("02", 16) == 2;
    assert ValueOf("020", 16) == 0x20;
  }

  /**
   * A label operand is absolute; it reads as the address of the symbol of
   * that name, and as 0 when there is none, since it starts with a letter.
   */
  lemma LabelOperand(t: seq<Symbol>, k: nat)
    ensures DetectAddressingMode(t, Some(LabelName(k))) == ABS
    ensures var i := FindIndex(t, LabelName(k));
      ParseNumber(t, Some(LabelName(k))) == if i >= 0 then t[i].address else 0
  {
    var s := LabelName(k);
    assert s[|s| - 1] == Decimal(k)[|Decimal(k)| - 1];
    TrimUnpadded(s);
    assert forall c :: c in s ==> c == 'L' || IsDigit(c);
    NotContains(s, ",X");
    NotContains(s, ",Y");
    assert DigitPrefix(s, 10) == 0 by {
      assert DigitValue(s[0]) == 21;
    }
    assert s[..0] == [];
  }

  /**
   * The generator writes its branches with a label operand, which the
   * classifier calls absolute, and the table has no absolute form of a
   * branch; only the jump has one.
   */
  lemma BranchesHaveNoAbsoluteRow()
    ensures Lookup(BEQ, ABS) == None && Lookup(BCC, ABS) == None && Lookup(BNE, ABS) == None
    ensures Lookup(JMP, ABS) == Some(0x4C)
  {
    NoAbsoluteBranch(BEQ);
    NoAbsoluteBranch(BCC);
    NoAbsoluteBranch(BNE);
    JumpIsAbsolute();
  }

  /** No conditional branch has an absolute row. */
  lemma NoAbsoluteBranch(m: Mnemonic)
    requires IsBranch(m)
    ensures Lookup(m, ABS) == None
  {
    var found := Lookup(m, ABS);
    if found.Some? {
      BranchesOnlyRelative(Instruction(m, found.value, ABS));
    }
  }

  lemma JumpIsAbsolute()
    ensures Lookup(JMP, ABS) == Some(0x4C)
  {
    TableMembership(Instruction(JMP, 0x4C, ABS));
    LookupFindsRow(Instruction(JMP, 0x4C, ABS));
  }

  /**
   * The loads, stores and arithmetic the generator writes are in the table
   * in the mode their operands are read in.
   */
  lemma LoadsKnown()
    ensures Lookup(LDA, IMM) == Some(0xA9) && Lookup(LDA, ZPG) == Some(0xA5)
  {
    TableMembership(Instruction(LDA, 0xA9, IMM));
    LookupFindsRow(Instruction(LDA, 0xA9, IMM));
    TableMembership(Instruction(LDA, 0xA5, ZPG));
    LookupFindsRow(Instruction(LDA, 0xA5, ZPG));
  }

  lemma StoresKnown()
    ensures Lookup(STA, ZPG) == Some(0x85) && Lookup(STA, ABS) == Some(0x8D)
  {
    TableMembership(Instruction(STA, 0x85, ZPG));
    LookupFindsRow(Instruction(STA, 0x85, ZPG));
    TableMembership(Instruction(STA, 0x8D, ABS));
    LookupFindsRow(Instruction(STA, 0x8D, ABS));
  }

  lemma ArithmeticKnown()
    ensures Lookup(ADC, ZPG) == Some(0x65) && Lookup(SBC, ZPG) == Some(0xE5)
  {
    TableMembership(Instruction(ADC, 0x65, ZPG));
    LookupFindsRow(Instruction(ADC, 0x65, ZPG));
    TableMembership(Instruction(SBC, 0xE5, ZPG));
    LookupFindsRow(Instruction(SBC, 0xE5, ZPG));
  }

  lemma CompareKnown()
    ensures Lookup(CMP, ZPG) == Some(0xC5) && Lookup(CMP, IMM) == Some(0xC9)
    ensures Lookup(DEC, ZPG) == Some(0xC6)
  {
    TableMembership(Instruction(CMP, 0xC5, ZPG));
    LookupFindsRow(Instruction(CMP, 0xC5, ZPG));
    TableMembership(Instruction(CMP, 0xC9, IMM));
    LookupFindsRow(Instruction(CMP, 0xC9, IMM));
    TableMembership(Instruction(DEC, 0xC6, ZPG));
    LookupFindsRow(Instruction(DEC, 0xC6, ZPG));
  }

  lemma BranchesKnown()
    ensures Lookup(BEQ, REL) == Some(0xF0) && Lookup(BNE, REL) == Some(0xD0)
    ensures Lookup(BCC, REL) == Some(0x90)
  {
    TableMembership(Instruction(BEQ, 0xF0, REL));
    LookupFindsRow(Instruction(BEQ, 0xF0, REL));
    TableMembership(Instruction(BNE, 0xD0, REL));
    LookupFindsRow(Instruction(BNE, 0xD0, REL));
    TableMembership(Instruction(BCC, 0x90, REL));
    LookupFindsRow(Instruction(BCC, 0x90, REL));
  }

  lemma ImpliedKnown()
    ensures Lookup(CLC, IMP) == Some(0x18) && Lookup(SEC, IMP) == Some(0x38)
    ensures Lookup(BRK, IMP) == Some(0x00)
  {
    TableMembership(Instruction(CLC, 0x18, IMP));
    LookupFindsRow(Instruction(CLC, 0x18, IMP));
    TableMembership(Instruction(SEC, 0x38, IMP));
    LookupFindsRow(Instruction(SEC, 0x38, IMP));
    TableMembership(Instruction(BRK, 0x00, IMP));
    LookupFindsRow(Instruction(BRK, 0x00, IMP));
  }

  /**
   * `print` keeps the code before it, compiles its argument into A and ends
   * with `STA $0200`, whose operand the classifier calls absolute and reads
   * as 0x0200; the table's STA ABS row is 0x8D.
   */
  lemma PrintStoresToOutputPort(g: Gen, n: Node, t: seq<Symbol>)
    requires n.ChildCount() >= 2 && n.children[0].Contents() == "print"
    ensures var r := CompileExpr(g, n);
      |r.out| > |g.out| && r.out[..|g.out|] == g.out && r.out[|r.out| - 1] == "STA $0200" &&
      DetectAddressingMode(t, Some("$0200")) == ABS && ParseNumber(t, Some("$0200")) == 0x0200 &&
      Lookup(STA, ABS) == Some(0x8D)
  {
    PrintEndsWithStore(g, n);
    OutputPortOperand(t);
    StoresKnown();
  }

  /**
   * A number atom becomes an immediate load of the number modulo 256, which
   * the assembler reads back as that byte.
   */
  lemma NumberLoadReadsBack(g: Gen, text: string, t: seq<Symbol>)
    requires text != [] && IsDigit(text[0])
    ensures var operand := "#$" + Hex2(Atoi(text) % 256);
      CompileExpr(g, Atom(text)).out == g.out + ["LDA " + operand] &&
      DetectAddressingMode(t, Some(operand)) == IMM &&
      ParseNumber(t, Some(operand)) == Atoi(text) % 256
  {
    ImmediateOperand(t, Atoi(text) % 256);
    assert CharAt(text, 0) == text[0];
    assert "LDA #$" + Hex2(Atoi(text) % 256) == "LDA " + ("#$" + Hex2(Atoi(text) % 256));
  }

  /**
   * A name atom becomes a zero-page load from the address the name is bound
   * to afterwards, which the assembler reads back as that address.
   */
  lemma VariableLoadReadsBack(g: Gen, name: string, t: seq<Symbol>)
    requires !IsDigit(CharAt(name, 0))
    requires FindVar(g.vars, name) >= 0 || |g.vars| < MaxVars
    ensures var r := CompileExpr(g, Atom(name)); var i := FindVar(r.vars, name);
      i >= 0 && var operand := Zp(r.vars[i].addr);
      r.out == g.out + ["LDA " + operand] &&
      DetectAddressingMode(t, Some(operand)) == ZPG &&
      ParseNumber(t, Some(operand)) == r.vars[i].addr
  {
    VarAddrBinds(g, name);
    var v := VarAddr(g, name);
    ZeroPageOperand(t, v.addr);
    VarAddrExtends(g, name);
  }
}
