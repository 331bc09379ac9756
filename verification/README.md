# 6502cc in Dafny

A model of the core of 6502cc, a small tool chain for the MOS 6502: the Lisp
compiler's code generator (`6502lisp/main.c`) and the assembler's operand
helpers, symbol table and instruction table (`asembler/utils.c`,
`assembler/symbols.c`, `assembler/instructions.c`), with proofs of what they
compute.

- `types.dfy` (`Types`): the addressing modes, the instruction descriptor
  and the symbol entry of `assembler/types.h`. The 56 mnemonics are a
  datatype, and `Text` gives their three letters.
- `clib.dfy` (`CLib`): the C library behaviour the sources rely on. This
  covers `strlen`, `strstr`, `isspace`, `isdigit`, `strtol` and `atoi`
  (longest digit prefix), and the `%02X` and `%d` conversions, with their
  round trips.
- `symbols.dfy` (`Symbols`): the global symbol table as a class over a
  256-entry array. `find_symbol` is a search loop proved against the
  reference search `FindIndex`; `add_symbol` writes one entry in place.
- `instructions.dfy` (`Instructions`): `instructions[]` as a constant
  sequence, built group by group in source order. Every row is checked
  against an independent reference, the 6502's own opcode layout
  (`aaabbbcc`), given both ways: `MatrixOpcode` and `MatrixDecode`.
- `opcodes.dfy` (`Opcodes`): lookup in the table and the table's shape.
  Opcodes and (mnemonic, mode) keys determine each other. The EOR block is
  repeated as "XOR". Branches are relative only, IND belongs to JMP alone,
  LDX and STX index through Y, and STA has no immediate form.
- `utils.dfy` (`Utils`): `trim_whitespace` as a method that writes its NUL
  into a character array. `parse_number`, `detect_addressing_mode` and
  `get_instruction_bytes` are functions, with lemmas for each branch of
  their decision chains.
- `codegen.dfy` (`Codegen`): what the code generator computes, as functions
  on its state. The state is the output lines, `stack_ptr`,
  `label_counter`, the variable table and the text in `gen_label`'s static
  buffer.
- `lisp_compiler.dfy` (`LispCompiler`): the generator's globals as the class
  `Compiler`. Its methods (`GetVarAddr` with its search loop, `GenLabel`,
  the `compile_*` procedures and `LispTo6502`) update the state in place.
  Each is proved to end in the state the matching `Codegen` function gives.
- `codegen_facts.dfy`, `codegen_shapes.dfy` (`CodegenFacts`,
  `CodegenShapes`): properties of the generator.
  - Label accounting, with `LabelsUsed` as the reference count.
  - Output and variables only grow.
  - Temporaries are released.
  - The variable table behaves like a first-match dictionary.
  - Programs are framed by the header and footer.
  - The shape of the code each construct emits.
- `pipeline.dfy` (`Pipeline`): the compiler's output as the assembler reads
  it. It gives the addressing mode and value of each operand form the
  generator writes, and the table entries its instructions need.

Behaviour of the code that the model reproduces, and proves:

- `gen_label` returns one static buffer. Both label pointers a construct
  saves therefore print as the label generated last.
  - A comparison defines the same label twice, and its branch, its jump
    past the true case and both definitions all name that one label
    (`ComparisonReusesOneLabel`). The multiplication loop behaves the same
    way (`MulReusesOneLabel`). An `if` whose branches take no label names
    that label in its `BEQ`, its `JMP` and both definitions; the positions
    are counted with `LinesEmitted`, the number of lines each expression
    appends (`IfReusesOneLabel`, `LineAccounting`).
  - The buffer is not reset between compilations. It still never changes
    the program text (`ProgramTextIgnoresStaleLabel`).
- After an arithmetic operator or a comparison, `stack_ptr` is put back to
  the first operand's temporary, even when the second operand bound a
  variable above it (`ArithRestores`, `ComparisonRestores`). A later
  variable can then share that variable's address
  (`VariablesShareAddress`).
- A number is recognised by its first character alone, so `-5` is a
  variable named `-5` (`NegativeNumberIsVariable`).
- `compile_let` binds only when its binding list has at least two children.
  `compile_if` with fewer than four children emits nothing, so its default
  else-branch is unreachable. The `Compiler.CompileIf` method proves this
  with `assert false` in that branch.
- The classifier never answers REL, so the generator's branch operands
  (`BEQ L3`) are classified ABS. The table has no ABS row for a branch
  (`BranchesHaveNoAbsoluteRow`).

The tree handed to the generator is abstract: an atom with its text, or a
list of sub-expressions with the operator first. A parse is either the list
of top-level expressions or a failure, whose text after `; Parse error: ` is a
stand-in (see "Left out").

## Model

| member | source | states |
|---|---|---|
| Types.Mnemonic.Text | assembler/types.h:21-25 | every mnemonic is three capital letters, so it fits the `char[4]` field with its terminator |
| CLib.StrLen | asembler/utils.c:12 | the length of a NUL-terminated text is the position of its first NUL: no NUL before it |
| CLib.DigitPrefix | asembler/utils.c:20-28 | `strtol` reads exactly the longest run of leading digits of the base |
| CLib.StrToL | asembler/utils.c:20-28 | `strtol(s, NULL, base)`: the value of the longest prefix of digits of the base, most significant first; no digit reads as 0 |
| CLib.Atoi | 6502lisp/main.c:218 | `atoi`: the same reading in base 10 |
| CLib.Hex2 | 6502lisp/main.c:73 | `%02X` of a byte is two upper-case hexadecimal digits |
| CLib.Hex2RoundTrip | asembler/utils.c:20-21 | reading back with `strtol(.., 16)` what `%02X` wrote gives the byte again |
| CLib.Hex2Injective | 6502lisp/main.c:73 | distinct bytes print as distinct `%02X` texts, both directions |
| CLib.Decimal | 6502lisp/main.c:57 | `%d` of a non-negative number is a non-empty run of digits with no leading zero |
| CLib.DecimalRoundTrip | 6502lisp/main.c:57 | `atoi` reads back what `%d` wrote |
| CLib.DecimalInjective | 6502lisp/main.c:57 | distinct numbers print as distinct `%d` texts, both directions |
| Symbols.FindIndex | assembler/symbols.c:9-16 | the reference search: the first index whose name matches, with no match before it; -1 exactly when no entry matches |
| Symbols.FindAfterAppend | assembler/symbols.c:9-25 | after an append, an earlier match stays where it was; the new entry is found only when the name was absent; otherwise -1 |
| Symbols.AddThenFind | assembler/symbols.c:9-25 | a name added to a table that lacked it is found at the new index, with the address it was given |
| Symbols.AddDuplicateKeepsFirst | assembler/symbols.c:9-25 | duplicates are not rejected, and re-adding a name leaves the earlier entry the one found |
| Symbols.SymbolTable.constructor | assembler/symbols.c:4-6 | the zero-initialised globals: no symbols, program counter 0 |
| Symbols.SymbolTable.FindSymbol | assembler/symbols.c:9-16 | the search loop returns the reference search's answer over the entries in use, and changes nothing |
| Symbols.SymbolTable.AddSymbol | assembler/symbols.c:19-25 | with room: (name, address, defined) is written at index `symbol_count`, the count goes up by one and nothing else changes; on a full table nothing changes; the count stays within 256 |
| Symbols.SymbolTable.Reset | assembler/assembler.c:18-20 | the reset at the start of `assemble_6502` empties the table and zeroes the program counter |
| Instructions.AdcRows | assembler/instructions.c:6-13 | the rows of ADC, in source order; every one is a documented 6502 instruction with the processor's opcode for that mode |
| Instructions.AndRows | assembler/instructions.c:16-23 | the rows of AND, in source order; every one is a documented 6502 instruction with the processor's opcode for that mode |
| Instructions.AslRows | assembler/instructions.c:26-30 | the rows of ASL, in source order; every one is a documented 6502 instruction with the processor's opcode for that mode |
| Instructions.BranchRows | assembler/instructions.c:33-40 | the rows of the eight branches, in source order; every one is a documented 6502 instruction with the processor's opcode for that mode |
| Instructions.BitRows | assembler/instructions.c:43-44 | the rows of BIT, in source order; every one is a documented 6502 instruction with the processor's opcode for that mode |
| Instructions.BrkRows | assembler/instructions.c:47-47 | the rows of BRK, in source order; every one is a documented 6502 instruction with the processor's opcode for that mode |
| Instructions.ClearFlagRows | assembler/instructions.c:50-53 | the rows of CLC, CLD, CLI, CLV, in source order; every one is a documented 6502 instruction with the processor's opcode for that mode |
| Instructions.CmpRows | assembler/instructions.c:56-63 | the rows of CMP, in source order; every one is a documented 6502 instruction with the processor's opcode for that mode |
| Instructions.CpxRows | assembler/instructions.c:66-68 | the rows of CPX, in source order; every one is a documented 6502 instruction with the processor's opcode for that mode |
| Instructions.CpyRows | assembler/instructions.c:71-73 | the rows of CPY, in source order; every one is a documented 6502 instruction with the processor's opcode for that mode |
| Instructions.DecRows | assembler/instructions.c:76-79 | the rows of DEC, in source order; every one is a documented 6502 instruction with the processor's opcode for that mode |
| Instructions.DexDeyRows | assembler/instructions.c:82-83 | the rows of DEX, DEY, in source order; every one is a documented 6502 instruction with the processor's opcode for that mode |
| Instructions.EorRows | assembler/instructions.c:86-93 | the rows of EOR, in source order; every one is a documented 6502 instruction with the processor's opcode for that mode |
| Instructions.XorRows | assembler/instructions.c:96-103 | the rows of the block labelled XOR, in source order; every one is a documented 6502 instruction with the processor's opcode for that mode |
| Instructions.IncRows | assembler/instructions.c:106-109 | the rows of INC, in source order; every one is a documented 6502 instruction with the processor's opcode for that mode |
| Instructions.InxInyRows | assembler/instructions.c:112-113 | the rows of INX, INY, in source order; every one is a documented 6502 instruction with the processor's opcode for that mode |
| Instructions.JmpRows | assembler/instructions.c:116-117 | the rows of JMP, in source order; every one is a documented 6502 instruction with the processor's opcode for that mode |
| Instructions.JsrRows | assembler/instructions.c:120-120 | the rows of JSR, in source order; every one is a documented 6502 instruction with the processor's opcode for that mode |
| Instructions.LdaRows | assembler/instructions.c:123-130 | the rows of LDA, in source order; every one is a documented 6502 instruction with the processor's opcode for that mode |
| Instructions.LdxRows | assembler/instructions.c:133-137 | the rows of LDX, in source order; every one is a documented 6502 instruction with the processor's opcode for that mode |
| Instructions.LdyRows | assembler/instructions.c:140-144 | the rows of LDY, in source order; every one is a documented 6502 instruction with the processor's opcode for that mode |
| Instructions.LsrRows | assembler/instructions.c:147-151 | the rows of LSR, in source order; every one is a documented 6502 instruction with the processor's opcode for that mode |
| Instructions.NopRows | assembler/instructions.c:154-154 | the rows of NOP, in source order; every one is a documented 6502 instruction with the processor's opcode for that mode |
| Instructions.OraRows | assembler/instructions.c:157-164 | the rows of ORA, in source order; every one is a documented 6502 instruction with the processor's opcode for that mode |
| Instructions.StackRows | assembler/instructions.c:167-170 | the rows of PHA, PHP, PLA, PLP, in source order; every one is a documented 6502 instruction with the processor's opcode for that mode |
| Instructions.RolRows | assembler/instructions.c:173-177 | the rows of ROL, in source order; every one is a documented 6502 instruction with the processor's opcode for that mode |
| Instructions.RorRows | assembler/instructions.c:180-184 | the rows of ROR, in source order; every one is a documented 6502 instruction with the processor's opcode for that mode |
| Instructions.ReturnRows | assembler/instructions.c:187-188 | the rows of RTI, RTS, in source order; every one is a documented 6502 instruction with the processor's opcode for that mode |
| Instructions.SbcRows | assembler/instructions.c:191-198 | the rows of SBC, in source order; every one is a documented 6502 instruction with the processor's opcode for that mode |
| Instructions.SetFlagRows | assembler/instructions.c:201-203 | the rows of SEC, SED, SEI, in source order; every one is a documented 6502 instruction with the processor's opcode for that mode |
| Instructions.StaRows | assembler/instructions.c:206-212 | the rows of STA, in source order; every one is a documented 6502 instruction with the processor's opcode for that mode |
| Instructions.StxRows | assembler/instructions.c:215-217 | the rows of STX, in source order; every one is a documented 6502 instruction with the processor's opcode for that mode |
| Instructions.StyRows | assembler/instructions.c:220-222 | the rows of STY, in source order; every one is a documented 6502 instruction with the processor's opcode for that mode |
| Instructions.TransferRows | assembler/instructions.c:225-230 | the rows of TAX, TAY, TSX, TXA, TXS, TYA, in source order; every one is a documented 6502 instruction with the processor's opcode for that mode |
| Instructions.Column01 | assembler/instructions.c:4-231 | reference opcodes of the `cc = 01` family carry that family's bit pattern |
| Instructions.Column10 | assembler/instructions.c:4-231 | reference opcodes of the `cc = 10` family carry that family's bit pattern |
| Instructions.TableMembership | assembler/instructions.c:4-231 | a descriptor is in `instructions[]` exactly when it is in one of its groups |
| Instructions.TableInMatrix | assembler/instructions.c:4-231 | every row of the table is a documented 6502 instruction with the processor's opcode |
| Instructions.MatrixDecodeInverts | assembler/instructions.c:4-231 | decoding the opcode of a documented instruction gives its mnemonic and mode back |
| Instructions.MatrixOpcodeInjective | assembler/instructions.c:4-231 | distinct documented (mnemonic, mode) pairs have distinct opcodes |
| Opcodes.FindOpcode | assembler/instructions.c:4-231 | a search of the rows answers only with the opcode of a row that has that mnemonic and mode |
| Opcodes.FindOpcodeMissing | assembler/instructions.c:4-231 | when the search finds nothing, no row has that mnemonic and mode |
| Opcodes.Lookup | assembler/instructions.c:4-231 | an opcode found in the table belongs to a row with that mnemonic and mode |
| Opcodes.TableSize | assembler/instructions.c:233 | `NUM_INSTRUCTIONS` is 159 |
| Opcodes.OpcodeIffKey | assembler/instructions.c:4-231 | two rows share an opcode exactly when they share mnemonic and mode, and then they are the same row |
| Opcodes.LookupFindsRow | assembler/instructions.c:4-231 | lookup finds every row, with that row's opcode |
| Opcodes.LookupAgreesWithMatrix | assembler/instructions.c:4-231 | whatever lookup finds is the processor's opcode |
| Opcodes.DuplicateEorBlock | assembler/instructions.c:85-103 | rows 56-63 and 64-71 (source lines 86-93 and 96-103) are both exactly the EOR rows |
| Opcodes.BranchesOnlyRelative | assembler/instructions.c:32-40 | a row has mode REL exactly when its mnemonic is one of the eight branches |
| Opcodes.IndirectOnlyJmp | assembler/instructions.c:115-117 | the only IND row is JMP at 0x6C |
| Opcodes.LdxStxIndexByY | assembler/instructions.c:132-217 | LDX and STX rows never use an X-indexed or indirect-indexed mode |
| Opcodes.LdxStxYRows | assembler/instructions.c:132-217 | LDX has ZPY 0xB6 and ABY 0xBE, and STX has ZPY 0x96 |
| Opcodes.NoStaImmediate | assembler/instructions.c:205-212 | STA has no immediate row |
| Utils.TrimStart | asembler/utils.c:10 | the text after the leading white space: a suffix that does not start with white space |
| Utils.TrimEnd | asembler/utils.c:12-14 | the text before the trailing white space: a prefix that does not end with white space |
| Utils.Trim | asembler/utils.c:8-16 | the text `trim_whitespace` leaves: the leading blanks skipped, then the trailing blanks dropped |
| Utils.TrimStartSkipsBlanks | asembler/utils.c:10 | everything the first loop skips is white space |
| Utils.TrimEndDropsBlanks | asembler/utils.c:13 | everything the second loop drops is white space |
| Utils.TrimIsInnerRun | asembler/utils.c:8-16 | the trimmed text is the run of the input that starts after the leading blanks |
| Utils.TrimHasNoBlankEnds | asembler/utils.c:8-16 | the trimmed text neither starts nor ends with white space |
| Utils.TrimEmptyIffBlank | asembler/utils.c:11 | the trimmed text is empty exactly when the input is all white space |
| Utils.TrimIdempotent | asembler/utils.c:8-16 | trimming twice is trimming once |
| Utils.TrimBetween | asembler/utils.c:10-14 | with blanks before `i` and after `j` and non-blanks at both, the trimmed text is `s[i..j+1]` |
| Utils.TrimmedBuffer | asembler/utils.c:12-15 | writing the NUL after the last non-blank leaves the trimmed text at the returned index, terminated |
| Utils.BlankBuffer | asembler/utils.c:11 | a blank text is left untouched, and the returned index holds its NUL |
| Utils.TrimWhitespace | asembler/utils.c:8-16 | the pointer loops and the in-place NUL write: the returned index starts the trimmed text, which is NUL-terminated in the buffer; the one byte written is that NUL, and a blank text is not written at all |
| Utils.ParseNumber | asembler/utils.c:18-29 | `parse_number`: NULL is 0; `$` and `#$` read hexadecimal, `#` decimal, `%` binary, tested in that order; otherwise the first symbol of that name gives its address, and a name with no symbol reads as decimal |
| Utils.ParsePrefixedIgnoresSymbols | asembler/utils.c:20-23 | a `$`, `#` or `%` operand is read without consulting the symbol table |
| Utils.ParseUnprefixed | asembler/utils.c:25-28 | otherwise a defined symbol's address wins, and only a name with no symbol is read as decimal |
| Utils.ParseReadsBackHex | asembler/utils.c:20-21 | `$hh` and `#$hh` read back as the byte `hh` |
| Utils.ParseReadsBackDecimal | asembler/utils.c:22 | `#` and a decimal read back as that number |
| Utils.ShortHexIsByte | asembler/utils.c:48 | at most two hexadecimal digits never exceed 0xFF |
| Utils.DetectAddressingMode | asembler/utils.c:31-51 | `detect_addressing_mode`: the first matching test decides, emptiness before trimming and every other test on the trimmed text; the lemmas below state each outcome |
| Utils.DetectNeverRelative | asembler/utils.c:31-51 | the classifier never answers REL |
| Utils.DetectImpliedIff | asembler/utils.c:32 | IMP exactly for a NULL or empty operand |
| Utils.DetectImmediateIff | asembler/utils.c:33-34 | IMM exactly when the trimmed operand starts with `#` |
| Utils.DetectIndexedByXIff | asembler/utils.c:35-39 | an X-indexed mode exactly when the trimmed operand has `,X` and no leading `#` |
| Utils.DetectIndexedByYIff | asembler/utils.c:40-44 | a Y-indexed mode exactly when it has `,Y`, no `,X` and no leading `#` |
| Utils.DetectIndexedByXSplit | asembler/utils.c:35-39 | within the `,X` family: IZX exactly for `(` with `)` third from the end, otherwise ZPX exactly for at most five characters, otherwise ABX |
| Utils.DetectIndexedByYSplit | asembler/utils.c:40-44 | within the `,Y` family: IZY exactly for `(` with `),Y` in the text, otherwise ZPY exactly for at most five characters, otherwise ABY |
| Utils.DetectIndirectIff | asembler/utils.c:45 | IND exactly for an unindexed text in parentheses |
| Utils.DetectZeroPageIff | asembler/utils.c:47-48 | ZPG exactly for a `$` operand of at most three characters without index; the value test never fails there |
| Utils.DetectAbsoluteIff | asembler/utils.c:47-50 | ABS exactly for what is left: a non-empty operand neither immediate, indexed, in parentheses nor a `$` text of at most three characters |
| Utils.DetectIgnoresSymbols | asembler/utils.c:31-51 | the classification is the same whatever the symbol table holds |
| Utils.DetectBlankIsAbsolute | asembler/utils.c:32-33 | emptiness is tested before trimming, so a blank operand is classified ABS |
| Utils.InstructionBytes | asembler/utils.c:53-60 | the length of an instruction is between 1 and 3 bytes |
| Utils.InstructionBytesBySize | asembler/utils.c:53-60 | 1 byte exactly for IMP, 3 exactly for ABS, ABX, ABY and IND, 2 exactly for the other seven modes |
| Codegen.LabelName | 6502lisp/main.c:55-59 | a label is `L` followed by the counter in decimal |
| Codegen.FindVar | 6502lisp/main.c:38-42 | the first entry with that name, none before it; -1 exactly when no entry has it |
| Codegen.VarAddr | 6502lisp/main.c:37-52 | `get_var_addr`: a known name's address with no change; else, with fewer than 32 entries, a new entry at `stack_ptr` truncated to a byte and the cursor moved on; else 0x80 with no change |
| Codegen.Reset | 6502lisp/main.c:261-266 | the reset of `lisp_to_6502`: no output, cursor 0x80, counter 0, no variables; the label buffer keeps its text |
| Codegen.CompileExpr | 6502lisp/main.c:211-256 | `compile_expr`: a digit-led atom loads `atoi` of it modulo 256 immediately, another atom loads its variable's address; a list dispatches on its first child in source order; `print` with an argument stores it at 0x0200; anything else emits nothing |
| Codegen.CompileArith | 6502lisp/main.c:65-115 | `compile_arith`: nothing with fewer than three children; else first operand, its store to a fresh temporary, second operand, the operator's code, and the cursor set back to that temporary |
| Codegen.ArithOp | 6502lisp/main.c:79-112 | the code for `+` (CLC, ADC), for `-` (a second temporary, SEC, SBC) and for `*` (two temporaries, two labels and the loop); nothing for another operator |
| Codegen.MulLoop | 6502lisp/main.c:96-111 | the fourteen lines of the repeated-addition loop, every label operand and definition printing the buffer's last label |
| Codegen.CompileComparison | 6502lisp/main.c:118-156 | `compile_comparison`: nothing with fewer than three children; else two labels first, then the operands as in arithmetic, the tail, and the cursor set back to the temporary |
| Codegen.ComparisonTail | 6502lisp/main.c:133-154 | CMP with the temporary, the operator's branches, then `LDA #$00`, the jump, both label definitions around `LDA #$FF`, all naming the buffer's last label |
| Codegen.CompileIf | 6502lisp/main.c:159-185 | `compile_if`: nothing with fewer than four children; else two labels, the condition, `CMP #$00` and BEQ, the then-branch, JMP and a label definition, the else-branch and a final label definition |
| Codegen.CompileLet | 6502lisp/main.c:188-208 | `compile_let`: nothing with fewer than three children; a binding list of at least two children compiles the value and stores it in the named variable; then the body |
| Codegen.CompileForms | 6502lisp/main.c:295-299 | the top-level loop: each expression in order, those without children skipped |
| Codegen.CompileProgram | 6502lisp/main.c:259-315 | the state `lisp_to_6502` ends in: the reset, the three header lines, the forms, `end:` and `BRK`; after a parse error only the reset |
| Codegen.ProgramText | 6502lisp/main.c:287-309 | the returned text: every emitted line followed by a newline, or, after a failed parse, `; Parse error: ` followed by the stand-in text |
| LispCompiler.Compiler.constructor | 6502lisp/main.c:10-25 | the zero-initialised globals, with `stack_ptr` at 0x80 |
| LispCompiler.Compiler.EmitLines | 6502lisp/main.c:28-34 | `emit`: the lines are appended to the output and nothing else changes |
| LispCompiler.Compiler.GenLabel | 6502lisp/main.c:55-59 | the buffer receives the next label name and the counter moves on by one |
| LispCompiler.Compiler.AllocTemp | 6502lisp/main.c:72 | `stack_ptr++` read into a byte: the old cursor modulo 256, and the cursor moves on |
| LispCompiler.Compiler.GetVarAddr | 6502lisp/main.c:37-52 | the search loop and the append end in the state, and give the address, that `get_var_addr` specifies |
| LispCompiler.Compiler.CompileExpr | 6502lisp/main.c:211-256 | atoms, operator dispatch and `print` end in the state `Codegen.CompileExpr` gives |
| LispCompiler.Compiler.CompileArith | 6502lisp/main.c:65-115 | ends in the state `Codegen.CompileArith` gives |
| LispCompiler.Compiler.EmitArithOp | 6502lisp/main.c:79-112 | the `+`, `-` and `*` code ends in the state `Codegen.ArithOp` gives |
| LispCompiler.Compiler.CompileComparison | 6502lisp/main.c:118-156 | ends in the state `Codegen.CompileComparison` gives |
| LispCompiler.Compiler.EmitComparisonTail | 6502lisp/main.c:133-154 | compare, branch and the 0 / 0xFF result end in the state `Codegen.ComparisonTail` gives |
| LispCompiler.Compiler.CompileIf | 6502lisp/main.c:159-185 | ends in the state `Codegen.CompileIf` gives; the default else-branch is proved unreachable |
| LispCompiler.Compiler.CompileLet | 6502lisp/main.c:188-208 | ends in the state `Codegen.CompileLet` gives |
| LispCompiler.Compiler.LispTo6502 | 6502lisp/main.c:259-315 | reset, header, each top-level expression with children, footer, or the parse-error text; the state and the returned text are those `Codegen` gives |
| CodegenFacts.LabelAccounting | 6502lisp/main.c:55-59 | compiling advances the label counter by exactly the reference count `LabelsUsed`: two per compiled `*`, comparison and `if`, none otherwise; the buffer then holds the newest label, and is untouched when none was taken |
| CodegenFacts.ArithLabels | 6502lisp/main.c:89-94 | an arithmetic form takes two labels for `*` and none for `+` and `-`, beyond its operands' |
| CodegenFacts.ComparisonLabels | 6502lisp/main.c:121-122 | a comparison takes exactly two labels beyond its operands' |
| CodegenFacts.IfLabels | 6502lisp/main.c:162-163 | an `if` takes exactly two labels beyond its branches' |
| CodegenFacts.LetLabels | 6502lisp/main.c:188-208 | a `let` takes only the labels of its value and body |
| CodegenFacts.LabelNamesDistinct | 6502lisp/main.c:57 | distinct counter values give distinct label names, so labels are unique within a compilation |
| CodegenFacts.ExtendsTransitive | 6502lisp/main.c:28-34 | growing the output and the table twice is growing them once |
| CodegenFacts.VarAddrExtends | 6502lisp/main.c:37-52 | a lookup never rewrites or drops an entry, keeps the table within 32 entries and emits nothing |
| CodegenFacts.CompileExtends | 6502lisp/main.c:211-256 | compiling only appends: earlier lines and variables stay as they were, and the table stays within 32 entries |
| CodegenFacts.ArithExtends | 6502lisp/main.c:65-115 | the same for arithmetic |
| CodegenFacts.ComparisonExtends | 6502lisp/main.c:118-156 | the same for comparisons |
| CodegenFacts.IfExtends | 6502lisp/main.c:159-185 | the same for `if` |
| CodegenFacts.LetExtends | 6502lisp/main.c:188-208 | the same for `let` |
| CodegenFacts.LineAccounting | 6502lisp/main.c:211-256 | compiling an expression appends exactly `LinesEmitted` lines: one per atom, and each construct's own lines plus its parts' |
| CodegenFacts.ArithLines | 6502lisp/main.c:65-115 | the same for arithmetic: the operands' lines, the store of the temporary and 2, 4 or 14 lines for `+`, `-` and `*` |
| CodegenFacts.ComparisonLines | 6502lisp/main.c:118-156 | the same for comparisons: the operands' lines, the store and 7 lines, 9 for `>` |
| CodegenFacts.IfLines | 6502lisp/main.c:159-185 | the same for `if`: the three parts' lines and five of its own |
| CodegenFacts.LetLines | 6502lisp/main.c:188-208 | the same for `let`: the value's lines and its store when it binds, then the body's |
| CodegenFacts.StackRestored | 6502lisp/main.c:72-114 | temporaries are released: an expression that binds no new variable leaves `stack_ptr` where it found it |
| CodegenFacts.ArithRestores | 6502lisp/main.c:72-114 | from any cursor, arithmetic ends with `stack_ptr` at the temporary taken after the first operand, that operand's end cursor truncated to a byte, whatever the second operand bound; from a cursor below 256 and with no new variable, that is the starting cursor |
| CodegenFacts.ComparisonRestores | 6502lisp/main.c:121-155 | from any cursor, a comparison ends with `stack_ptr` at the temporary taken after its first operand, which is compiled after the two labels, truncated to a byte; from a cursor below 256 and with no new variable, that is the starting cursor |
| CodegenFacts.IfRestores | 6502lisp/main.c:159-185 | from a cursor below 256, an `if` that binds no new variable leaves `stack_ptr` where it found it |
| CodegenFacts.LetRestores | 6502lisp/main.c:188-208 | from a cursor below 256, a `let` that binds no new variable leaves `stack_ptr` where it found it |
| CodegenFacts.StaleLabelIgnored | 6502lisp/main.c:55-59 | what the label buffer held before compiling changes nothing but the buffer itself |
| CodegenFacts.ArithIgnoresStaleLabel | 6502lisp/main.c:65-115 | the same for arithmetic |
| CodegenFacts.ArithOpIgnoresStaleLabel | 6502lisp/main.c:79-112 | the same for the operator code |
| CodegenFacts.LetIgnoresStaleLabel | 6502lisp/main.c:188-208 | the same for `let` |
| CodegenFacts.FindVarAppend | 6502lisp/main.c:38-48 | after an append, an earlier match stays first; the new entry is found only when the name was absent |
| CodegenFacts.VarAddrBinds | 6502lisp/main.c:37-52 | a known name, or a new one while there is room, ends up bound to the address returned; asking again changes nothing and gives the same address |
| CodegenFacts.VarAddrUnknown | 6502lisp/main.c:45-51 | a new name gets `stack_ptr` modulo 256 and both the cursor and the count go up by one; on a full table it gets 0x80 and nothing changes |
| CodegenFacts.FormsExtend | 6502lisp/main.c:295-299 | compiling the top-level expressions only appends |
| CodegenFacts.ProgramFramed | 6502lisp/main.c:289-303 | every compiled program starts with the three header lines and ends with `end:` and `BRK` |
| CodegenFacts.RenderAppend | 6502lisp/main.c:28-34 | the buffer text of two runs of lines is the text of the first then the second |
| CodegenFacts.ProgramTextFramed | 6502lisp/main.c:289-303 | the returned text is the header text, the compiled expressions' text, then the footer text |
| CodegenFacts.FormsIgnoreStaleLabel | 6502lisp/main.c:295-299 | a run of top-level expressions does not depend on the stale label |
| CodegenFacts.ProgramTextIgnoresStaleLabel | 6502lisp/main.c:259-315 | the returned text does not depend on the label buffer an earlier call left behind |
| CodegenShapes.MulReusesOneLabel | 6502lisp/main.c:93-110 | the loop of `*` branches to and defines one label, the newest, twice |
| CodegenShapes.ComparisonReusesOneLabel | 6502lisp/main.c:121-154 | a comparison's branch, its jump past the true case and both label definitions all name the newest label |
| CodegenShapes.IfReusesOneLabel | 6502lisp/main.c:162-184 | counting back from the end past the branches' `LinesEmitted`: the last line defines the newest label and `CMP #$00` sits before the then-branch and the `BEQ`; when the else-branch takes no label, the `JMP` and the definition before the else-branch name that label; when neither branch takes one, so does the `BEQ` |
| CodegenShapes.IfLayout | 6502lisp/main.c:162-184 | for any states after the condition and the branches, the `if`'s own five lines sit at those positions and name the labels the buffer held |
| CodegenShapes.KeepsNewest | 6502lisp/main.c:55-59 | compiling from a state whose buffer holds the newest label leaves it on the newest label, and on the same one when the expression takes no label |
| CodegenShapes.PrintEndsWithStore | 6502lisp/main.c:248-253 | `print` keeps the code emitted before it and ends with `STA $0200` |
| CodegenShapes.ShortFormsIgnored | 6502lisp/main.c:64-256 | operators with too few operands, a `print` without argument and unknown operators emit nothing and change nothing |
| CodegenShapes.NegativeNumberIsVariable | 6502lisp/main.c:215-224 | `-5` is compiled as a load from a new variable at 0x80 |
| CodegenShapes.VariablesShareAddress | 6502lisp/main.c:37-115 | in `(let (y (+ 1 (let (x 5) x))) (let (z 9) z))`, `x` and `z` both get 0x81 |
| CodegenShapes.SumBindsAboveCursor | 6502lisp/main.c:69-114 | in `(+ 1 (let (x 5) x))` the temporary takes 0x80, `x` takes 0x81 and the cursor returns to 0x80 |
| CodegenShapes.LetFromHighCursor | 6502lisp/main.c:69-114 | from `stack_ptr` 300, `(let (x (+ 1 2)) x)` with `x` bound binds nothing new, yet ends with `stack_ptr` 44: the sum's temporary is 300 truncated to a byte |
| CodegenShapes.LetBindsFresh | 6502lisp/main.c:192-207 | `(let (name value) name)` where the value is an atom starting with a digit, the body is the name itself, the name does not start with a digit and is not yet bound, and the table has room: the name is appended bound to the cursor modulo 256, and the cursor moves on by one |
| Pipeline.TrimUnpadded | asembler/utils.c:8-16 | a text without white space at either end is its own trimmed text |
| Pipeline.ImmediateOperand | asembler/utils.c:20-34 | `#$hh` is classified IMM and reads back as `hh` |
| Pipeline.ZeroPageOperand | asembler/utils.c:18-51 | `$hh`, the generator's variable and temporary operand, is classified ZPG and reads back as `hh` |
| Pipeline.OutputPortOperand | asembler/utils.c:18-51 | `$0200`, the operand of `print`'s store, is classified ABS and reads back as 0x0200 |
| Pipeline.PrintStoresToOutputPort | 6502lisp/main.c:248-253 | `print` keeps the earlier code and ends with `STA $0200`; the classifier calls that operand absolute and reads it as 0x0200, and the table's STA ABS row is 0x8D |
| Pipeline.LabelOperand | asembler/utils.c:25-50 | a label operand is classified ABS and reads as the symbol's address, or 0 when it is not defined |
| Pipeline.BranchesHaveNoAbsoluteRow | assembler/instructions.c:32-117 | BEQ, BCC and BNE have no ABS row, the mode their label operands are classified in; JMP has one |
| Pipeline.NoAbsoluteBranch | assembler/instructions.c:32-40 | no conditional branch has an ABS row |
| Pipeline.JumpIsAbsolute | assembler/instructions.c:116 | JMP with ABS is 0x4C |
| Pipeline.LoadsKnown | assembler/instructions.c:123-125 | LDA has IMM 0xA9 and ZPG 0xA5 |
| Pipeline.StoresKnown | assembler/instructions.c:206-208 | STA has ZPG 0x85 and ABS 0x8D |
| Pipeline.ArithmeticKnown | assembler/instructions.c:6-192 | ADC has ZPG 0x65 and SBC has ZPG 0xE5 |
| Pipeline.CompareKnown | assembler/instructions.c:56-76 | CMP has ZPG 0xC5 and IMM 0xC9, DEC has ZPG 0xC6 |
| Pipeline.BranchesKnown | assembler/instructions.c:33-37 | BEQ, BNE and BCC have their REL rows |
| Pipeline.ImpliedKnown | assembler/instructions.c:47-201 | CLC, SEC and BRK have their IMP rows |
| Pipeline.NumberLoadReadsBack | 6502lisp/main.c:216-219 | a number atom becomes `LDA #$hh`, which the assembler classifies IMM and reads back as the number modulo 256 |
| Pipeline.VariableLoadReadsBack | 6502lisp/main.c:220-223 | a name atom becomes `LDA $aa`, classified ZPG and read back as the address the name is bound to |

## Left out

- The mpc grammar and parser (`6502lisp/main.c:268-287`, `305-312`): mpc is a foreign library, so a parse is given as `ParseResult`, the top-level expressions or a failure. The expression tree is abstract, not mpc's node layout, and a list's children are exactly its sub-expressions. A NULL node (`6502lisp/main.c:212`) cannot occur in it.
- The text after `; Parse error: `: `6502lisp/main.c:307` hands `result.error`, an `mpc_err_t*` and not a string, to `%s`, so what follows the prefix depends on that structure's bytes. `ParseError`'s `message` is an unconstrained stand-in for it, and the model claims nothing about its content.
- mpc's node layout for a list: if mpc keeps the `(` and `)` tokens of `sexpr : '(' <expr>* ')'` (`6502lisp/main.c:280`) as children, then `children[0]->contents` is `(` and `compile_expr` (`6502lisp/main.c:229-254`) matches no operator. The model's tree assumes the operator is the first child.
- Both programs' `main` functions: argument handling, file I/O and the `sscanf` hex conversion.
- `assemble_6502` beyond its reset (`assembler/assembler.c:19-20`, as `SymbolTable.Reset`): the two passes are only a comment in the source, and clearing its local buffers has no effect the model can see.
- `temp_counter`: reset but never read.
- The 4096-byte `asm_output` buffer: the output is kept as a sequence of lines, and `Render` gives its text. A `vsprintf` overflow and the `memset` are not modelled.
- `strcpy` into 32-byte names and the 16-byte label buffer: names and label texts are unbounded.
- `strtol` and `atoi` read the longest digit prefix of the base, or 0 when there is none. Leading white space, signs, the `0x` prefix and overflow of `int` are not modelled, so `ParseNumber` and `Atoi` are unbounded non-negative numbers.
- `detect_addressing_mode` trims the caller's buffer in place. `DetectAddressingMode` works on the trimmed text as a value, and the write into the caller's buffer is modelled only in `TrimWhitespace`.
- Consecutive `emit` calls with no state change in between are one `EmitLines` call.
- Completeness of the instruction table: the model does not claim that every documented 6502 instruction has a row. It proves only that every row is documented and correct.
- Consequences for the emitted program that need an assembler: the source's assembler has no passes, so whether it could resolve a duplicated label or a branch classified ABS is out of the model.
- CodegenFacts.StackRestored: proved for expressions that bind no new variable and from a cursor below 256, where truncation to a byte does not bite. When a variable is bound, the cursor is still reset to the temporary, and `VariablesShareAddress` shows the effect.
- CodegenFacts.IfRestores: the same two conditions. From a cursor of 256 or more, a temporary taken inside the `if` is truncated to a byte and written back (`6502lisp/main.c:72`, `114`), so the cursor is not restored even when nothing new is bound.
- CodegenFacts.LetRestores: the same two conditions, for the same reason: from `stack_ptr` 300, `(let (x (+ 1 2)) x)` with `x` already bound ends with `stack_ptr` 44 (`LetFromHighCursor`).
