/**
 * The shape of the code generated for each construct. The two label
 * pointers a construct asks `gen_label` for both point to its one static
 * buffer, so every label operand of a construct names the label generated
 * last, and the same label is defined twice.
 */
module CodegenShapes {
  import opened Types
  import opened CLib
  import opened Codegen
  import opened CodegenFacts

  /**
   * The loop of `*` tests, branches back and exits through one label, which
   * it defines twice: once at the loop head and once after the loop.
   */
  lemma MulReusesOneLabel(g: Gen, n: Node)
    requires n.ChildCount() >= 3 && n.children[0].Contents() == "*"
    ensures var r := CompileExpr(g, n);
      r.labelCounter >= 2 && var l := LabelName(r.labelCounter - 1);
      |r.out| >= 14 &&
      r.out[|r.out| - 10] == "BEQ " + l && r.out[|r.out| - 9] == l + ":" &&
      r.out[|r.out| - 3] == "BNE " + l && r.out[|r.out| - 2] == l + ":"
  {
    var g1 := CompileExpr(g, n.children[1]);
    var t := TakeTemp(g1);
    var g2 := CompileExpr(EmitAll(t.state, ["STA " + Zp(t.addr)]), n.children[2]);
    var counter := TakeTemp(g2);
    var result := TakeTemp(counter.state);
    var h := NextLabel(NextLabel(result.state));
    assert CompileExpr(g, n) == MulLoop(h, t.addr, counter.addr, result.addr).(stackPtr := t.addr);
  }

  /**
   * A comparison ends by defining the label generated last twice, around
   * the load of 0xFF; its branch and its jump past the true case both name
   * that label.
   */
  lemma ComparisonReusesOneLabel(g: Gen, n: Node, op: string)
    requires n.ChildCount() >= 3 && op == n.children[0].Contents()
    requires op == "=" || op == "<" || op == ">"
    ensures var r := CompileExpr(g, n);
      r.labelCounter >= 2 && var l := LabelName(r.labelCounter - 1);
      |r.out| >= 6 &&
      r.out[|r.out| - 6] == (if op == ">" then "JMP " else if op == "<" then "BCC " else "BEQ ") + l &&
      r.out[|r.out| - 5..] == ["LDA #$00", "JMP " + l, l + ":", "LDA #$FF", l + ":"]
  {
    var g1 := CompileExpr(NextLabel(NextLabel(g)), n.children[1]);
    var t := TakeTemp(g1);
    var g2 := CompileExpr(EmitAll(t.state, ["STA " + Zp(t.addr)]), n.children[2]);
    var r := CompileExpr(g, n);
    assert r == CompileComparison(g, n, op);
    assert CompileComparison(g, n, op) == ComparisonTail(g2, op, t.addr).(stackPtr := t.addr);
    ComparisonTailEnds(g2, op, t.addr);
    ComparisonLabels(g, n, op);
    assert LabelsUsed(n) >= 2;
  }

  lemma ComparisonTailEnds(g: Gen, op: string, operand: Byte)
    requires op == "=" || op == "<" || op == ">"
    ensures var r := ComparisonTail(g, op, operand); var l := g.lastLabel;
      r.lastLabel == l && r.labelCounter == g.labelCounter && |r.out| >= 6 &&
      r.out[|r.out| - 6] == (if op == ">" then "JMP " else if op == "<" then "BCC " else "BEQ ") + l &&
      r.out[|r.out| - 5..] == ["LDA #$00", "JMP " + l, l + ":", "LDA #$FF", l + ":"]
  {
  }

  /**
   * The lines an `if` emits around its branches, counted back from the end
   * with `LinesEmitted`: the test `CMP #$00` sits just before the `BEQ`,
   * after the condition's lines, and the last line defines the newest label.
   * When the else-branch takes no label, the `JMP` after the then-branch and
   * the definition before the else-branch name that same label, so it is
   * defined twice; when neither branch takes one, the `BEQ` names it too.
   */
  lemma IfReusesOneLabel(g: Gen, n: Node)
    requires n.ChildCount() >= 4 && n.children[0].Contents() == "if"
    ensures var r := CompileExpr(g, n);
      var t := LinesEmitted(n.children[2]); var e := LinesEmitted(n.children[3]);
      r.labelCounter >= 2 && var l := LabelName(r.labelCounter - 1);
      |r.out| >= 5 + t + e && r.out[|r.out| - 1] == l + ":" && r.out[|r.out| - 5 - e - t] == "CMP #$00" &&
      (LabelsUsed(n.children[3]) == 0 ==>
        r.out[|r.out| - 3 - e] == "JMP " + l && r.out[|r.out| - 2 - e] == l + ":") &&
      (LabelsUsed(n.children[2]) == 0 && LabelsUsed(n.children[3]) == 0 ==>
        r.out[|r.out| - 4 - e - t] == "BEQ " + l)
  {
    IfShape(g, n, CompileExpr(g, n), LinesEmitted(n.children[2]), LinesEmitted(n.children[3]),
            LabelsUsed(n.children[2]) == 0, LabelsUsed(n.children[3]) == 0);
  }

  /**
   * `IfReusesOneLabel` over the result `r`, the branches' line counts `t`
   * and `e`, and whether each branch takes no label (`same2`, `same3`).
   */
  lemma IfShape(g: Gen, n: Node, r: Gen, t: nat, e: nat, same2: bool, same3: bool)
    requires n.ChildCount() >= 4 && n.children[0].Contents() == "if"
    requires r == CompileExpr(g, n)
    requires t == LinesEmitted(n.children[2]) && e == LinesEmitted(n.children[3])
    requires same2 == (LabelsUsed(n.children[2]) == 0) && same3 == (LabelsUsed(n.children[3]) == 0)
    ensures r.labelCounter >= 2 && var l := LabelName(r.labelCounter - 1);
      |r.out| >= 5 + t + e && r.out[|r.out| - 1] == l + ":" && r.out[|r.out| - 5 - e - t] == "CMP #$00" &&
      (same3 ==> r.out[|r.out| - 3 - e] == "JMP " + l && r.out[|r.out| - 2 - e] == l + ":") &&
      (same2 && same3 ==> r.out[|r.out| - 4 - e - t] == "BEQ " + l)
  {
    var g0 := NextLabel(NextLabel(g));
    var g1 := CompileExpr(g0, n.children[1]);
    var test := ["CMP #$00", "BEQ " + g1.lastLabel];
    var g2 := CompileExpr(EmitAll(g1, test), n.children[2]);
    var skip := ["JMP " + g2.lastLabel, g2.lastLabel + ":"];
    var g3 := CompileExpr(EmitAll(g2, skip), n.children[3]);
    IfSteps(g, n);
    IfBranches(g0, g1, g2, g3, n, t, e, same2, same3);
    IfLayout(g1, g2, g3, r, t, e, same2, same3);
  }

  /** What the condition and the two branches of an `if` do to the state. */
  lemma IfBranches(g0: Gen, g1: Gen, g2: Gen, g3: Gen, n: Node, t: nat, e: nat, same2: bool, same3: bool)
    requires n.ChildCount() >= 4
    requires g0.labelCounter >= 2 && g0.lastLabel == LabelName(g0.labelCounter - 1)
    requires g1 == CompileExpr(g0, n.children[1])
    requires g2 == CompileExpr(EmitAll(g1, ["CMP #$00", "BEQ " + g1.lastLabel]), n.children[2])
    requires g3 == CompileExpr(EmitAll(g2, ["JMP " + g2.lastLabel, g2.lastLabel + ":"]), n.children[3])
    requires t == LinesEmitted(n.children[2]) && e == LinesEmitted(n.children[3])
    requires same2 == (LabelsUsed(n.children[2]) == 0) && same3 == (LabelsUsed(n.children[3]) == 0)
    ensures g1.labelCounter >= 2 && g1.lastLabel == LabelName(g1.labelCounter - 1)
    ensures Branch(g1, ["CMP #$00", "BEQ " + g1.lastLabel], g2, t, same2)
    ensures Branch(g2, ["JMP " + g2.lastLabel, g2.lastLabel + ":"], g3, e, same3)
  {
    KeepsNewest(g0, n.children[1]);
    BranchAfter(g1, ["CMP #$00", "BEQ " + g1.lastLabel], n.children[2]);
    BranchAfter(g2, ["JMP " + g2.lastLabel, g2.lastLabel + ":"], n.children[3]);
  }

  /** `(if c t e)`: two labels, the condition, the test, then-branch, jump, else-branch, label. */
  lemma IfSteps(g: Gen, n: Node)
    requires n.ChildCount() >= 4 && n.children[0].Contents() == "if"
    ensures var g1 := CompileExpr(NextLabel(NextLabel(g)), n.children[1]);
      var g2 := CompileExpr(EmitAll(g1, ["CMP #$00", "BEQ " + g1.lastLabel]), n.children[2]);
      var g3 := CompileExpr(EmitAll(g2, ["JMP " + g2.lastLabel, g2.lastLabel + ":"]), n.children[3]);
      CompileExpr(g, n) == EmitAll(g3, [g3.lastLabel + ":"])
  {
  }

  /**
   * State `k` follows `g` by the lines `lines` and then a branch of `t`
   * lines that leaves the label buffer on the newest label, and on `g`'s
   * label when `same` says the branch takes none.
   */
  ghost predicate Branch(g: Gen, lines: seq<string>, k: Gen, t: nat, same: bool) {
    k.labelCounter >= g.labelCounter && k.labelCounter >= 1 && k.lastLabel == LabelName(k.labelCounter - 1) &&
    (same ==> k.lastLabel == g.lastLabel) &&
    |k.out| == |g.out| + |lines| + t && k.out[..|g.out| + |lines|] == g.out + lines
  }

  /** Emitting `lines` and compiling `c` after a state on the newest label is a `Branch`. */
  lemma BranchAfter(g: Gen, lines: seq<string>, c: Node)
    requires g.labelCounter >= 1 && g.lastLabel == LabelName(g.labelCounter - 1)
    ensures Branch(g, lines, CompileExpr(EmitAll(g, lines), c), LinesEmitted(c), LabelsUsed(c) == 0)
  {
    KeepsNewest(EmitAll(g, lines), c);
    AppendsLines(EmitAll(g, lines), c);
  }

  /**
   * The `if`'s own lines around its branches, for any states `g1`, `g2`, `g3`
   * after the condition, the then-branch and the else-branch, and `r` after
   * the final label definition.
   */
  lemma IfLayout(g1: Gen, g2: Gen, g3: Gen, r: Gen, t: nat, e: nat, same2: bool, same3: bool)
    requires g1.labelCounter >= 2 && g1.lastLabel == LabelName(g1.labelCounter - 1)
    requires Branch(g1, ["CMP #$00", "BEQ " + g1.lastLabel], g2, t, same2)
    requires Branch(g2, ["JMP " + g2.lastLabel, g2.lastLabel + ":"], g3, e, same3)
    requires r == EmitAll(g3, [g3.lastLabel + ":"])
    ensures r.labelCounter >= 2 && var l := LabelName(r.labelCounter - 1);
      |r.out| >= 5 + t + e && r.out[|r.out| - 1] == l + ":" && r.out[|r.out| - 5 - e - t] == "CMP #$00" &&
      (same3 ==> r.out[|r.out| - 3 - e] == "JMP " + l && r.out[|r.out| - 2 - e] == l + ":") &&
      (same2 && same3 ==> r.out[|r.out| - 4 - e - t] == "BEQ " + l)
  {
    var o := g3.out + [g3.lastLabel + ":"];
    assert o[|g1.out|] == g2.out[|g1.out|] == "CMP #$00";
    assert o[|g1.out| + 1] == g2.out[|g1.out| + 1] == "BEQ " + g1.lastLabel;
    assert o[|g2.out|] == "JMP " + g2.lastLabel && o[|g2.out| + 1] == g2.lastLabel + ":";
  }

  /**
   * Compiling from a state whose buffer holds the newest label leaves the
   * buffer on the newest label, and on the same one when `c` takes none.
   */
  lemma KeepsNewest(h: Gen, c: Node)
    requires h.labelCounter >= 1 && h.lastLabel == LabelName(h.labelCounter - 1)
    ensures var k := CompileExpr(h, c);
      k.labelCounter >= h.labelCounter && k.lastLabel == LabelName(k.labelCounter - 1) &&
      (LabelsUsed(c) == 0 ==> k.lastLabel == h.lastLabel)
  {
    LabelAccounting(h, c);
  }

  /** Compiling `c` appends exactly `LinesEmitted(c)` lines to `h`'s output. */
  lemma AppendsLines(h: Gen, c: Node)
    ensures var o := CompileExpr(h, c).out;
      |o| == |h.out| + LinesEmitted(c) && o[..|h.out|] == h.out
  {
    CompileExtends(h, c);
    LineAccounting(h, c);
  }

  /** `print` keeps the code before it and ends with the store to 0x0200. */
  lemma PrintEndsWithStore(g: Gen, n: Node)
    requires n.ChildCount() >= 2 && n.children[0].Contents() == "print"
    ensures var r := CompileExpr(g, n);
      |r.out| > |g.out| && r.out[..|g.out|] == g.out && r.out[|r.out| - 1] == "STA $0200"
  {
    var a := CompileExpr(g, n.children[1]);
    CompileExtends(g, n.children[1]);
    assert CompileExpr(g, n) == EmitAll(a, ["STA $0200"]);
  }

  /**
   * Forms the code generator skips: an operator with too few operands, a
   * `print` without argument and an unknown operator emit nothing and
   * change nothing.
   */
  lemma ShortFormsIgnored(g: Gen, n: Node)
    requires n.ChildCount() > 0
    requires var op := n.children[0].Contents(); var k := n.ChildCount();
      ((op == "+" || op == "-" || op == "*" || op == "=" || op == "<" || op == ">" || op == "let") && k < 3) ||
      (op == "if" && k < 4) || (op == "print" && k < 2) ||
      !(op in {"+", "-", "*", "=", "<", ">", "if", "let", "print"})
    ensures CompileExpr(g, n) == g
  {
  }

  /**
   * A number is recognised by its first character only: `-5` is compiled
   * as a load from a new variable named `-5`.
   */
  lemma NegativeNumberIsVariable(l: string)
    ensures CompileExpr(Reset(l), Atom("-5")) == Gen(["LDA $80"], 0x81, 0, [Var("-5", 0x80)], l)
  {
    var g := Reset(l);
    assert !IsDigit(CharAt("-5", 0));
    assert FindVar(g.vars, "-5") == -1;
    var v := VarAddr(g, "-5");
    assert v == Slot(g.(stackPtr := 0x81, vars := [Var("-5", 0x80)]), 0x80);
    assert CompileExpr(g, Atom("-5")) == EmitAll(v.state, ["LDA " + Zp(v.addr)]);
    assert "LDA " + Zp(0x80) == "LDA $80" by {
      assert Hex2(0x80) == "80";
    }
  }

  /**
   * The cursor is put back to the first operand's temporary even when the
   * second operand bound a variable above it, so a later variable gets the
   * same address: compiling `(let (y (+ 1 (let (x 5) x))) (let (z 9) z))`
   * from the reset state puts `x` and `z` both at 0x81.
   */
  lemma VariablesShareAddress(g: Gen, e: Node, sum: Node, letX: Node, letZ: Node)
    requires g.stackPtr == 0x80 && g.vars == []
    requires letX == List([Atom("let"), List([Atom("x"), Atom("5")]), Atom("x")])
    requires sum == List([Atom("+"), Atom("1"), letX])
    requires letZ == List([Atom("let"), List([Atom("z"), Atom("9")]), Atom("z")])
    requires e == List([Atom("let"), List([Atom("y"), sum]), letZ])
    ensures CompileExpr(g, e).vars == [Var("x", 0x81), Var("y", 0x80), Var("z", 0x81)]
  {
    var s := CompileExpr(g, sum);
    SumBindsAboveCursor(g, sum, letX);
    // y takes 0x80, and z then takes 0x81 again
    var v := VarAddr(s, "y");
    assert v.state.vars == [Var("x", 0x81), Var("y", 0x80)] && v.state.stackPtr == 0x81;
    var g3 := EmitAll(v.state, ["STA " + Zp(v.addr)]);
    LetBindsFresh(g3, letZ, "z", Atom("9"), Atom("z"));
    LetSteps(g, e, "y", sum, letZ);
    var r := CompileExpr(g3, letZ);
    assert r.vars == [Var("x", 0x81), Var("y", 0x80)] + [Var("z", 0x81)];
    assert r.vars == [Var("x", 0x81), Var("y", 0x80), Var("z", 0x81)];
  }

  /** `(let (name value) body)`: value, store into the variable, then body. */
  lemma LetSteps(g: Gen, n: Node, name: string, value: Node, body: Node)
    requires n == List([Atom("let"), List([Atom(name), value]), body])
    ensures var v := VarAddr(CompileExpr(g, value), name);
      CompileExpr(g, n) == CompileExpr(EmitAll(v.state, ["STA " + Zp(v.addr)]), body)
  {
    assert CompileExpr(g, n) == CompileLet(g, n);
  }

  /**
   * `(+ 1 (let (x 5) x))` from the reset state: the temporary takes 0x80,
   * `x` takes 0x81, and the cursor returns to 0x80.
   */
  lemma SumBindsAboveCursor(g: Gen, sum: Node, letX: Node)
    requires g.stackPtr == 0x80 && g.vars == []
    requires letX == List([Atom("let"), List([Atom("x"), Atom("5")]), Atom("x")])
    requires sum == List([Atom("+"), Atom("1"), letX])
    ensures CompileExpr(g, sum).stackPtr == 0x80 && CompileExpr(g, sum).vars == [Var("x", 0x81)]
  {
    var g1 := CompileExpr(g, Atom("1"));
    assert g1.stackPtr == 0x80 && g1.vars == [];
    var h := EmitAll(TakeTemp(g1).state, ["STA " + Zp(0x80)]);
    var g2 := CompileExpr(h, letX);
    LetBindsFresh(h, letX, "x", Atom("5"), Atom("x"));
    assert CompileExpr(g, sum) == CompileArith(g, sum, "+");
    assert CompileArith(g, sum, "+") == ArithOp(g2, "+", 0x80).(stackPtr := 0x80);
  }

  /**
   * `(let (name value) name)` with a number as value, on a state that does
   * not know `name` and has room: `name` is bound at the cursor, which moves
   * on by one.
   */
  lemma LetBindsFresh(g: Gen, n: Node, name: string, value: Node, body: Node)
    requires n == List([Atom("let"), List([Atom(name), value]), body])
    requires value.Atom? && value.text != [] && IsDigit(value.text[0])
    requires body == Atom(name) && !IsDigit(CharAt(name, 0))
    requires FindVar(g.vars, name) == -1 && |g.vars| < MaxVars
    ensures CompileExpr(g, n).vars == g.vars + [Var(name, g.stackPtr % 256)]
    ensures CompileExpr(g, n).stackPtr == g.stackPtr + 1
  {
    var h := CompileExpr(g, value);
    assert h.vars == g.vars && h.stackPtr == g.stackPtr;
    var v := VarAddr(h, name);
    FindVarAppend(g.vars, Var(name, g.stackPtr % 256), name);
    LetSteps(g, n, name, value, body);
  }

  /**
   * From a cursor of 300, `(let (x (+ 1 2)) x)` with `x` already bound binds
   * nothing new, yet the sum's temporary is taken as 300 mod 256 and the
   * cursor is put back to 44.
   */
  lemma LetFromHighCursor(g: Gen, sum: Node, n: Node)
    requires g.stackPtr == 300 && g.vars == [Var("x", 0x81)]
    requires sum == List([Atom("+"), Atom("1"), Atom("2")])
    requires n == List([Atom("let"), List([Atom("x"), sum]), Atom("x")])
    ensures CompileExpr(g, n).vars == g.vars && CompileExpr(g, n).stackPtr == 44
  {
    var s := CompileExpr(g, sum);
    var g1 := CompileExpr(g, Atom("1"));
    assert g1.stackPtr == 300 && g1.vars == g.vars;
    var h := EmitAll(TakeTemp(g1).state, ["STA " + Zp(44)]);
    var g2 := CompileExpr(h, Atom("2"));
    assert g2.vars == g.vars;
    assert s == ArithOp(g2, "+", 44).(stackPtr := 44);
    var v := VarAddr(s, "x");
    assert v.state == s;
    LetSteps(g, n, "x", sum, Atom("x"));
    var r := CompileExpr(EmitAll(v.state, ["STA " + Zp(v.addr)]), Atom("x"));
    assert r.vars == g.vars && r.stackPtr == 44;
  }
}
