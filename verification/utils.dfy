/**
 * The assembler's operand helpers: trimming a NUL-terminated buffer in
 * place, reading a number in one of its prefixed notations, classifying an
 * operand into an addressing mode and the length of an instruction.
 *
 * The symbol table these read is passed as the sequence of its entries in
 * use (`SymbolTable.Entries()`).
 */
module Utils {
  import opened Types
  import opened CLib
  import opened Symbols

  /* ---------------------------------------------------------------- */
  /* trim_whitespace                                                   */
  /* ---------------------------------------------------------------- */

  /** `s` without its leading white space. */
  function TrimStart(s: string): (t: string)
    ensures |t| <= |s| && t == s[|s| - |t|..]
    ensures |t| == 0 || !IsSpace(t[0])
  {
    if |s| > 0 && IsSpace(s[0]) then TrimStart(s[1..]) else s
  }

  /** `s` without its trailing white space. */
  function TrimEnd(s: string): (t: string)
    ensures |t| <= |s| && t == s[..|t|]
    ensures |t| == 0 || !IsSpace(t[|t| - 1])
  {
    if |s| > 0 && IsSpace(s[|s| - 1]) then TrimEnd(s[..|s| - 1]) else s
  }

  /** The text `trim_whitespace` leaves: no white space at either end. */
  function Trim(s: string): string {
    TrimEnd(TrimStart(s))
  }

  /** What `TrimStart` skips is all white space. */
  lemma {:induction false} TrimStartSkipsBlanks(s: string)
    ensures forall k :: 0 <= k < |s| - |TrimStart(s)| ==> IsSpace(s[k])
  {
    if |s| > 0 && IsSpace(s[0]) {
      TrimStartSkipsBlanks(s[1..]);
    }
  }

  /** What `TrimEnd` drops is all white space. */
  lemma {:induction false} TrimEndDropsBlanks(s: string)
    ensures forall k :: |TrimEnd(s)| <= k < |s| ==> IsSpace(s[k])
  {
    if |s| > 0 && IsSpace(s[|s| - 1]) {
      TrimEndDropsBlanks(s[..|s| - 1]);
    }
  }

  /** The trimmed text is the run of `s` that starts after the leading blanks. */
  lemma TrimIsInnerRun(s: string)
    ensures var a := |s| - |TrimStart(s)|;
      a + |Trim(s)| <= |s| && Trim(s) == s[a..a + |Trim(s)|]
  {
    RunOfSuffix(s, TrimStart(s), Trim(s));
  }

  /** A prefix `r` of a suffix `t` of `s` is a run of `s`. */
  lemma RunOfSuffix(s: string, t: string, r: string)
    requires |t| <= |s| && t == s[|s| - |t|..]
    requires |r| <= |t| && r == t[..|r|]
    ensures r == s[|s| - |t|..|s| - |t| + |r|]
  {
  }

  /** The trimmed text neither starts nor ends with white space. */
  lemma TrimHasNoBlankEnds(s: string)
    ensures Trim(s) == [] || (!IsSpace(Trim(s)[0]) && !IsSpace(Trim(s)[|Trim(s)| - 1]))
  {
    var t := TrimStart(s);
    var r := TrimEnd(t);
    if r != [] {
      assert r[0] == t[0];
    }
  }

  /** A text is trimmed to nothing exactly when it is all white space. */
  lemma TrimEmptyIffBlank(s: string)
    ensures Trim(s) == [] <==> forall k :: 0 <= k < |s| ==> IsSpace(s[k])
  {
    var t := TrimStart(s);
    TrimStartSkipsBlanks(s);
    if t != [] {
      assert t[0] == s[|s| - |t|];
      TrimEndDropsBlanks(t);
    }
  }

  /** Trimming twice is trimming once. */
  lemma TrimIdempotent(s: string)
    ensures Trim(Trim(s)) == Trim(s)
  {
    var t := TrimStart(s);
    var r := TrimEnd(t);
    if r != [] {
      assert r[0] == t[0];
      assert TrimStart(r) == r;
      assert TrimEnd(r) == r;
    }
  }

  /** `TrimStart` stops at the first character that is not white space. */
  lemma {:induction false} TrimStartAt(s: string, i: nat)
    requires i <= |s| && (i == |s| || !IsSpace(s[i]))
    requires forall k :: 0 <= k < i ==> IsSpace(s[k])
    ensures TrimStart(s) == s[i..]
  {
    if i > 0 {
      TrimStartAt(s[1..], i - 1);
      assert s[1..][i - 1..] == s[i..];
    }
  }

  /** `TrimEnd` stops at the last character that is not white space. */
  lemma {:induction false} TrimEndAt(s: string, m: nat)
    requires m < |s| && !IsSpace(s[m])
    requires forall k :: m < k < |s| ==> IsSpace(s[k])
    ensures TrimEnd(s) == s[..m + 1]
  {
    if m + 1 < |s| {
      TrimEndAt(s[..|s| - 1], m);
      assert s[..|s| - 1][..m + 1] == s[..m + 1];
    }
  }

  /**
   * With blanks before `i` and after `j`, and `s[i]`, `s[j]` not blank,
   * the trimmed text is `s[i..j + 1]`.
   */
  lemma TrimBetween(s: string, i: nat, j: nat)
    requires i <= j < |s| && (forall k :: 0 <= k < i ==> IsSpace(s[k])) && !IsSpace(s[i])
    requires (j == i || !IsSpace(s[j])) && forall k :: j < k < |s| ==> IsSpace(s[k])
    ensures |s| - |TrimStart(s)| == i && Trim(s) == s[i..j + 1]
  {
    TrimStartAt(s, i);
    TrimEndFrom(s, i, j);
  }

  /** `TrimEnd` of the text from `i` on keeps it up to the last non-blank `s[j]`. */
  lemma TrimEndFrom(s: string, i: nat, j: nat)
    requires i <= j < |s| && !IsSpace(s[j])
    requires forall k :: j < k < |s| ==> IsSpace(s[k])
    ensures TrimEnd(s[i..]) == s[i..j + 1]
  {
    var t := s[i..];
    assert forall k :: j - i < k < |t| ==> t[k] == s[i + k];
    TrimEndAt(t, j - i);
  }

  /**
   * `b` is what trimming the NUL-terminated text in `a` in place leaves, with
   * the trimmed text starting at `start`: the trimmed text sits at `start`
   * followed by a NUL, which was written just after it unless the text is
   * blank; nothing else differs from `a`.
   */
  ghost predicate TrimmedInPlace(a: seq<char>, b: seq<char>, start: nat)
    requires '\0' in a
  {
    var s := CString(a);
    var e := start + |Trim(s)|;
    start == |s| - |TrimStart(s)| && e < |b| &&
    b[start..e] == Trim(s) && b[e] == '\0' &&
    b == if Trim(s) == [] then a else a[e := '\0']
  }

  /**
   * The buffer after the terminator is written at `j + 1` holds the trimmed
   * text from `i` on, followed by a NUL.
   */
  lemma TrimmedBuffer(a: seq<char>, i: nat, j: nat)
    requires '\0' in a && i <= j < StrLen(a)
    requires |CString(a)| - |TrimStart(CString(a))| == i && Trim(CString(a)) == a[i..j + 1]
    ensures TrimmedInPlace(a, a[j + 1 := '\0'], i)
  {
    PlaceTerminator(a, Trim(CString(a)), i, j);
  }

  /** Writing a NUL just after a run leaves the run in place, now terminated. */
  lemma PlaceTerminator(a: seq<char>, t: string, i: nat, j: nat)
    requires i <= j < |a| - 1 && t == a[i..j + 1]
    ensures var b := a[j + 1 := '\0'];
      i + |t| == j + 1 && b[i..i + |t|] == t && b[i + |t|] == '\0' && t != []
  {
  }

  /**
   * With blanks before `i` and after `j` in the text held in `a`, and
   * `a[i]`, `a[j]` not blank, the trimmed text is `a[i..j + 1]`.
   */
  lemma TrimmedRun(a: seq<char>, i: nat, j: nat)
    requires '\0' in a
    requires var s := CString(a);
      i <= j < |s| && (forall k :: 0 <= k < i ==> IsSpace(s[k])) && !IsSpace(s[i]) &&
      (j == i || !IsSpace(s[j])) && (forall k :: j < k < |s| ==> IsSpace(s[k]))
    ensures |CString(a)| - |TrimStart(CString(a))| == i && Trim(CString(a)) == a[i..j + 1]
  {
    TrimBetween(CString(a), i, j);
    TextRun(a, i, j);
  }

  /** A run of the text held in `a` is the same run of `a`. */
  lemma TextRun(a: seq<char>, i: nat, j: nat)
    requires '\0' in a && i <= j < StrLen(a)
    ensures CString(a)[i..j + 1] == a[i..j + 1]
  {
  }

  /** A blank text is left as it is, its trimmed text empty at the terminator. */
  lemma BlankBuffer(a: seq<char>, i: nat)
    requires '\0' in a
    requires i == StrLen(a) && forall k :: 0 <= k < i ==> IsSpace(CString(a)[k])
    ensures TrimmedInPlace(a, a, i)
  {
    var s := CString(a);
    TrimStartAt(s, i);
  }

  /**
   * `trim_whitespace` on the NUL-terminated text in `buf`: returns the index
   * of the first character that is not white space; when any such character
   * remains, writes a NUL just after the last one. The text starting at the
   * returned index is then the trimmed text.
   */
  method TrimWhitespace(buf: array<char>) returns (start: nat)
    requires '\0' in buf[..]
    modifies buf
    ensures TrimmedInPlace(old(buf[..]), buf[..], start)
  {
    ghost var a := buf[..];
    ghost var len := StrLen(a);
    ghost var s := a[..len];
    start := 0;
    while IsSpace(buf[start])
      modifies {}
      invariant start <= len
      invariant forall k :: 0 <= k < start ==> IsSpace(s[k])
      decreases len - start
    {
      assert buf[start] == s[start];
      start := start + 1;
    }
    if buf[start] == '\0' {
      BlankBuffer(a, start);
      return;
    }
    // the last character before the terminator
    var end := StrLen(buf[..]) - 1;
    while end > start && IsSpace(buf[end])
      modifies {}
      invariant start <= end < len
      invariant forall k :: end < k < len ==> IsSpace(s[k])
    {
      assert buf[end] == s[end];
      end := end - 1;
    }
    TrimmedRun(a, start, end);
    TrimmedBuffer(a, start, end);
    buf[end + 1] := '\0';
  }

  /* ---------------------------------------------------------------- */
  /* parse_number                                                      */
  /* ---------------------------------------------------------------- */

  /**
   * `parse_number`: `$` and `#$` read hexadecimal, `#` decimal, `%` binary;
   * otherwise a symbol's address, otherwise decimal. `None` is a NULL
   * pointer.
   */
  function ParseNumber(symbols: seq<Symbol>, str: Option<string>): int {
    match str
    case None => 0
    case Some(s) =>
      if CharAt(s, 0) == '$' then StrToL(s[1..], 16)
      else if CharAt(s, 0) == '#' && CharAt(s, 1) == '$' then StrToL(s[2..], 16)
      else if CharAt(s, 0) == '#' then StrToL(s[1..], 10)
      else if CharAt(s, 0) == '%' then StrToL(s[1..], 2)
      else
        var idx := FindIndex(symbols, s);
        if idx >= 0 then symbols[idx].address
        else StrToL(s, 10)
  }

  /** Whether `s` starts with one of the notation prefixes `$`, `#`, `%`. */
  predicate HasNumberPrefix(s: string) {
    CharAt(s, 0) == '$' || CharAt(s, 0) == '#' || CharAt(s, 0) == '%'
  }

  /** A prefixed number never consults the symbol table. */
  lemma ParsePrefixedIgnoresSymbols(t1: seq<Symbol>, t2: seq<Symbol>, s: string)
    requires HasNumberPrefix(s)
    ensures ParseNumber(t1, Some(s)) == ParseNumber(t2, Some(s))
  {
  }

  /**
   * Without a prefix, a symbol's address wins over reading the text as a
   * decimal number; only a text that names no symbol is read as decimal.
   */
  lemma ParseUnprefixed(t: seq<Symbol>, s: string)
    requires !HasNumberPrefix(s)
    ensures FindIndex(t, s) >= 0 ==> ParseNumber(t, Some(s)) == t[FindIndex(t, s)].address
    ensures FindIndex(t, s) < 0 ==> ParseNumber(t, Some(s)) == Atoi(s)
    ensures 0 <= ParseNumber(t, Some(s))
  {
  }

  /** The notations the code generator writes read back as the byte they encode. */
  lemma ParseReadsBackHex(t: seq<Symbol>, b: Byte)
    ensures ParseNumber(t, Some("$" + Hex2(b))) == b
    ensures ParseNumber(t, Some("#$" + Hex2(b))) == b
  {
    assert ("$" + Hex2(b))[1..] == Hex2(b);
    assert ("#$" + Hex2(b))[2..] == Hex2(b);
    Hex2RoundTrip(b);
  }

  /** `#` followed by a decimal reads back as that number. */
  lemma ParseReadsBackDecimal(t: seq<Symbol>, n: nat)
    ensures ParseNumber(t, Some("#" + Decimal(n))) == n
  {
    assert ("#" + Decimal(n))[1..] == Decimal(n);
    DecimalRoundTrip(n);
  }

  /** At most two hexadecimal digits never exceed a byte. */
  lemma ShortHexIsByte(s: string)
    requires |s| <= 2
    ensures StrToL(s, 16) <= 0xFF
  {
    var n := DigitPrefix(s, 16);
    var p := s[..n];
    assert forall k :: 0 <= k < n ==> DigitValue(p[k]) < 16;
    if n == 2 {
      assert p[..1][..0] == [];
      assert ValueOf(p[..1], 16) == DigitValue(p[0]);
    } else if n == 1 {
      assert p[..0] == [];
      assert ValueOf(p, 16) == DigitValue(p[0]);
    }
  }

  /* ---------------------------------------------------------------- */
  /* detect_addressing_mode                                            */
  /* ---------------------------------------------------------------- */

  /**
   * `detect_addressing_mode`: the first test that matches decides. Emptiness
   * is checked before trimming; everything after looks at the trimmed text.
   */
  function DetectAddressingMode(symbols: seq<Symbol>, operand: Option<string>): AddrMode {
    if operand.None? || |operand.value| == 0 then IMP
    else
      var t := Trim(operand.value);
      if CharAt(t, 0) == '#' then IMM
      else if Contains(t, ",X") then
        if CharAt(t, 0) == '(' && CharAt(t, |t| - 3) == ')' then IZX
        else if |t| <= 5 then ZPX
        else ABX
      else if Contains(t, ",Y") then
        if CharAt(t, 0) == '(' && Contains(t, "),Y") then IZY
        else if |t| <= 5 then ZPY
        else ABY
      else if CharAt(t, 0) == '(' && CharAt(t, |t| - 1) == ')' then IND
      else
        var value := ParseNumber(symbols, Some(t));
        if value <= 0xFF && CharAt(t, 0) == '$' && |t| <= 3 then ZPG
        else ABS
  }

  /** The classifier never answers REL, so branch targets are never relative. */
  lemma DetectNeverRelative(symbols: seq<Symbol>, operand: Option<string>)
    ensures DetectAddressingMode(symbols, operand) != REL
  {
  }

  /** IMP exactly for a NULL or empty operand. */
  lemma DetectImpliedIff(symbols: seq<Symbol>, operand: Option<string>)
    ensures DetectAddressingMode(symbols, operand) == IMP <==> operand.None? || operand.value == []
  {
  }

  /** IMM exactly for a non-empty operand whose trimmed text starts with `#`. */
  lemma DetectImmediateIff(symbols: seq<Symbol>, s: string)
    ensures DetectAddressingMode(symbols, Some(s)) == IMM <==> s != [] && CharAt(Trim(s), 0) == '#'
  {
  }

  /**
   * An X-indexed mode exactly when the trimmed text contains `,X` and does
   * not start with `#`: the `,X` test comes after the `#` test.
   */
  lemma DetectIndexedByXIff(symbols: seq<Symbol>, s: string)
    ensures var m := DetectAddressingMode(symbols, Some(s));
      (m == IZX || m == ZPX || m == ABX) <==>
        s != [] && CharAt(Trim(s), 0) != '#' && Contains(Trim(s), ",X")
  {
  }

  /**
   * A Y-indexed mode exactly when the trimmed text contains `,Y` but not
   * `,X` and does not start with `#`: `,X` wins when both occur.
   */
  lemma DetectIndexedByYIff(symbols: seq<Symbol>, s: string)
    ensures var m := DetectAddressingMode(symbols, Some(s));
      (m == IZY || m == ZPY || m == ABY) <==>
        s != [] && CharAt(Trim(s), 0) != '#' && !Contains(Trim(s), ",X") && Contains(Trim(s), ",Y")
  {
  }

  /**
   * Within the X family: `(` with `)` third from the end is indexed
   * indirect, otherwise at most five characters is zero page, otherwise
   * absolute.
   */
  lemma DetectIndexedByXSplit(symbols: seq<Symbol>, s: string)
    requires s != [] && CharAt(Trim(s), 0) != '#' && Contains(Trim(s), ",X")
    ensures var t := Trim(s); var m := DetectAddressingMode(symbols, Some(s));
      (m == IZX <==> CharAt(t, 0) == '(' && CharAt(t, |t| - 3) == ')') &&
      (m == ZPX <==> !(CharAt(t, 0) == '(' && CharAt(t, |t| - 3) == ')') && |t| <= 5) &&
      (m == ABX <==> !(CharAt(t, 0) == '(' && CharAt(t, |t| - 3) == ')') && |t| > 5)
  {
  }

  /**
   * Within the Y family: `(` with `),Y` anywhere is indirect indexed,
   * otherwise at most five characters is zero page, otherwise absolute.
   */
  lemma DetectIndexedByYSplit(symbols: seq<Symbol>, s: string)
    requires s != [] && CharAt(Trim(s), 0) != '#'
    requires !Contains(Trim(s), ",X") && Contains(Trim(s), ",Y")
    ensures var t := Trim(s); var m := DetectAddressingMode(symbols, Some(s));
      (m == IZY <==> CharAt(t, 0) == '(' && Contains(t, "),Y")) &&
      (m == ZPY <==> !(CharAt(t, 0) == '(' && Contains(t, "),Y")) && |t| <= 5) &&
      (m == ABY <==> !(CharAt(t, 0) == '(' && Contains(t, "),Y")) && |t| > 5)
  {
  }

  /** IND exactly for an unindexed text in parentheses. */
  lemma DetectIndirectIff(symbols: seq<Symbol>, s: string)
    ensures var t := Trim(s);
      DetectAddressingMode(symbols, Some(s)) == IND <==>
        s != [] && !Contains(t, ",X") && !Contains(t, ",Y") &&
        CharAt(t, 0) == '(' && CharAt(t, |t| - 1) == ')'
  {
  }

  /**
   * ABS is what is left: a non-empty operand that is neither immediate,
   * indexed, in parentheses nor a short `$` text.
   */
  lemma DetectAbsoluteIff(symbols: seq<Symbol>, s: string)
    ensures var t := Trim(s);
      DetectAddressingMode(symbols, Some(s)) == ABS <==>
        s != [] && CharAt(t, 0) != '#' && !Contains(t, ",X") && !Contains(t, ",Y") &&
        !(CharAt(t, 0) == '(' && CharAt(t, |t| - 1) == ')') &&
        !(CharAt(t, 0) == '$' && |t| <= 3)
  {
    DetectZeroPageIff(symbols, s);
  }

  /**
   * The zero-page test needs only the text: a `$` operand of at most three
   * characters never exceeds a byte, so the value check never fails.
   */
  lemma DetectZeroPageIff(symbols: seq<Symbol>, s: string)
    ensures DetectAddressingMode(symbols, Some(s)) == ZPG <==>
      s != [] && CharAt(Trim(s), 0) == '$' && |Trim(s)| <= 3 &&
      !Contains(Trim(s), ",X") && !Contains(Trim(s), ",Y")
  {
    var t := Trim(s);
    if s != [] && CharAt(t, 0) == '$' && |t| <= 3 {
      ShortHexIsByte(t[1..]);
    }
  }

  /** The classification does not depend on the symbol table. */
  lemma DetectIgnoresSymbols(t1: seq<Symbol>, t2: seq<Symbol>, operand: Option<string>)
    ensures DetectAddressingMode(t1, operand) == DetectAddressingMode(t2, operand)
  {
    if operand.Some? && operand.value != [] {
      DetectZeroPageIff(t1, operand.value);
      DetectZeroPageIff(t2, operand.value);
    }
  }

  /**
   * A non-empty operand of white space alone trims to nothing and falls
   * through every test to ABS, because emptiness was checked before trimming.
   */
  lemma DetectBlankIsAbsolute(symbols: seq<Symbol>, s: string)
    requires s != [] && forall k :: 0 <= k < |s| ==> IsSpace(s[k])
    ensures DetectAddressingMode(symbols, Some(s)) == ABS
  {
    TrimEmptyIffBlank(s);
  }

  /* ---------------------------------------------------------------- */
  /* get_instruction_bytes                                             */
  /* ---------------------------------------------------------------- */

  /** `get_instruction_bytes`: opcode byte plus operand bytes. */
  function InstructionBytes(mode: AddrMode): (n: nat)
    ensures 1 <= n <= 3
  {
    match mode
    case IMP => 1
    case IMM | ZPG | ZPX | ZPY | IZX | IZY | REL => 2
    case ABS | ABX | ABY | IND => 3
  }

  /**
   * One byte for the implied mode alone, three for the modes that carry a
   * 16-bit address, two for every mode with an 8-bit operand.
   */
  lemma InstructionBytesBySize(mode: AddrMode)
    ensures InstructionBytes(mode) == 1 <==> mode == IMP
    ensures InstructionBytes(mode) == 3 <==> mode in {ABS, ABX, ABY, IND}
    ensures InstructionBytes(mode) == 2 <==> mode in {IMM, ZPG, ZPX, ZPY, IZX, IZY, REL}
  {
  }
}
