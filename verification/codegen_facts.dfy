/**
 * Properties of the Lisp code generator: how many labels each expression
 * takes, what it leaves in place, and what the generated code looks like.
 */
module CodegenFacts {
  import opened Types
  import opened CLib
  import opened Codegen

  /**
   * The number of labels an expression takes, counted from the language:
   * two for every `*`, comparison and `if` that is compiled, plus those of
   * the sub-expressions that are compiled.
   */
  function LabelsUsed(n: Node): nat
    decreases n
  {
    if n.ChildCount() == 0 then 0
    else
      var op := n.children[0].Contents();
      var k := n.ChildCount();
      if (op == "+" || op == "-") && k >= 3 then
        LabelsUsed(n.children[1]) + LabelsUsed(n.children[2])
      else if (op == "*" || op == "=" || op == "<" || op == ">") && k >= 3 then
        2 + LabelsUsed(n.children[1]) + LabelsUsed(n.children[2])
      else if op == "if" && k >= 4 then
        2 + LabelsUsed(n.children[1]) + LabelsUsed(n.children[2]) + LabelsUsed(n.children[3])
      else if op == "let" && k >= 3 then
        var b := n.children[1];
        (if b.ChildCount() >= 2 then LabelsUsed(b.children[1]) else 0) + LabelsUsed(n.children[2])
      else if op == "print" && k >= 2 then LabelsUsed(n.children[1])
      else 0
  }

  /**
   * `h` took `used` labels after `g`: the counter moved on by `used` and the
   * buffer holds the newest label, or is untouched when none was taken.
   */
  ghost predicate TookLabels(g: Gen, h: Gen, used: nat) {
    h.labelCounter == g.labelCounter + used &&
    h.lastLabel == if used == 0 then g.lastLabel else LabelName(h.labelCounter - 1)
  }

  /**
   * The label counter advances by exactly `LabelsUsed(n)`, and the label
   * buffer then holds the newest label; when no label was taken the buffer
   * is untouched.
   */
  lemma {:induction false} LabelAccounting(g: Gen, n: Node)
    ensures TookLabels(g, CompileExpr(g, n), LabelsUsed(n))
    decreases n, 1
  {
    if n.ChildCount() == 0 {
      return;
    }
    var op := n.children[0].Contents();
    if op == "+" || op == "-" || op == "*" {
      ArithLabels(g, n, op);
    } else if op == "=" || op == "<" || op == ">" {
      ComparisonLabels(g, n, op);
    } else if op == "if" {
      IfLabels(g, n);
    } else if op == "let" {
      LetLabels(g, n);
    } else if op == "print" && n.ChildCount() > 1 {
      LabelAccounting(g, n.children[1]);
    }
  }

  lemma {:induction false} ArithLabels(g: Gen, n: Node, op: string)
    requires n.ChildCount() > 0 && op == n.children[0].Contents()
    requires op == "+" || op == "-" || op == "*"
    ensures TookLabels(g, CompileArith(g, n, op), LabelsUsed(n))
    decreases n, 0
  {
    if n.ChildCount() >= 3 {
      var g1 := CompileExpr(g, n.children[1]);
      LabelAccounting(g, n.children[1]);
      var t := TakeTemp(g1);
      var h := EmitAll(t.state, ["STA " + Zp(t.addr)]);
      LabelAccounting(h, n.children[2]);
    }
  }

  lemma {:induction false} ComparisonLabels(g: Gen, n: Node, op: string)
    requires n.ChildCount() > 0 && op == n.children[0].Contents()
    requires op == "=" || op == "<" || op == ">"
    ensures TookLabels(g, CompileComparison(g, n, op), LabelsUsed(n))
    decreases n, 0
  {
    if n.ChildCount() >= 3 {
      var g0 := NextLabel(NextLabel(g));
      var g1 := CompileExpr(g0, n.children[1]);
      LabelAccounting(g0, n.children[1]);
      var t := TakeTemp(g1);
      var h := EmitAll(t.state, ["STA " + Zp(t.addr)]);
      LabelAccounting(h, n.children[2]);
    }
  }

  lemma {:induction false} IfLabels(g: Gen, n: Node)
    requires n.ChildCount() > 0 && n.children[0].Contents() == "if"
    ensures TookLabels(g, CompileIf(g, n), LabelsUsed(n))
    decreases n, 0
  {
    if n.ChildCount() >= 4 {
      var g0 := NextLabel(NextLabel(g));
      var g1 := CompileExpr(g0, n.children[1]);
      LabelAccounting(g0, n.children[1]);
      var h1 := EmitAll(g1, ["CMP #$00", "BEQ " + g1.lastLabel]);
      var g2 := CompileExpr(h1, n.children[2]);
      LabelAccounting(h1, n.children[2]);
      var h2 := EmitAll(g2, ["JMP " + g2.lastLabel, g2.lastLabel + ":"]);
      LabelAccounting(h2, n.children[3]);
    }
  }

  lemma {:induction false} LetLabels(g: Gen, n: Node)
    requires n.ChildCount() > 0 && n.children[0].Contents() == "let"
    ensures TookLabels(g, CompileLet(g, n), LabelsUsed(n))
    decreases n, 0
  {
    if n.ChildCount() >= 3 {
      var b := n.children[1];
      var g1 := g;
      if b.ChildCount() >= 2 {
        var h := CompileExpr(g, b.children[1]);
        LabelAccounting(g, b.children[1]);
        var v := VarAddr(h, b.children[0].Contents());
        g1 := EmitAll(v.state, ["STA " + Zp(v.addr)]);
      }
      LabelAccounting(g1, n.children[2]);
    }
  }

  /** Distinct label numbers give distinct label names. */
  lemma LabelNamesDistinct(j: nat, k: nat)
    requires j != k
    ensures LabelName(j) != LabelName(k)
  {
    if LabelName(j) == LabelName(k) {
      assert Decimal(j) == LabelName(j)[1..];
      DecimalInjective(j, k);
    }
  }

  /**
   * `h` only added to `g`: earlier lines and variables stay as they were,
   * and the variable table stays within its capacity.
   */
  ghost predicate Extends(g: Gen, h: Gen) {
    g.out <= h.out && g.vars <= h.vars && (|g.vars| <= MaxVars ==> |h.vars| <= MaxVars)
  }

  lemma ExtendsTransitive(a: Gen, b: Gen, c: Gen)
    requires Extends(a, b) && Extends(b, c)
    ensures Extends(a, c)
  {
    assert a.out == b.out[..|a.out|] == c.out[..|b.out|][..|a.out|];
    assert a.vars == b.vars[..|a.vars|] == c.vars[..|b.vars|][..|a.vars|];
  }

  /** Looking up a variable never rewrites or drops an entry. */
  lemma VarAddrExtends(g: Gen, name: string)
    ensures Extends(g, VarAddr(g, name).state)
    ensures VarAddr(g, name).state.out == g.out
  {
  }

  /**
   * The number of lines an expression emits, counted from the language:
   * one per atom, and per compiled construct its own lines plus those of
   * the sub-expressions it compiles.
   */
  function LinesEmitted(n: Node): nat
    decreases n
  {
    if n.ChildCount() == 0 then 1
    else
      var op := n.children[0].Contents();
      var k := n.ChildCount();
      if (op == "+" || op == "-" || op == "*") && k >= 3 then
        LinesEmitted(n.children[1]) + 1 + LinesEmitted(n.children[2]) +
        (if op == "+" then 2 else if op == "-" then 4 else 14)
      else if (op == "=" || op == "<" || op == ">") && k >= 3 then
        LinesEmitted(n.children[1]) + 1 + LinesEmitted(n.children[2]) +
        (if op == ">" then 9 else 7)
      else if op == "if" && k >= 4 then
        LinesEmitted(n.children[1]) + 2 + LinesEmitted(n.children[2]) + 2 + LinesEmitted(n.children[3]) + 1
      else if op == "let" && k >= 3 then
        var b := n.children[1];
        (if b.ChildCount() >= 2 then LinesEmitted(b.children[1]) + 1 else 0) + LinesEmitted(n.children[2])
      else if op == "print" && k >= 2 then LinesEmitted(n.children[1]) + 1
      else 0
  }

  /** The output grows by exactly `LinesEmitted(n)` lines, whatever the state. */
  lemma {:induction false} LineAccounting(g: Gen, n: Node)
    ensures |CompileExpr(g, n).out| == |g.out| + LinesEmitted(n)
    decreases n, 1
  {
    if n.ChildCount() == 0 {
      return;
    }
    var op := n.children[0].Contents();
    if op == "+" || op == "-" || op == "*" {
      ArithLines(g, n, op);
    } else if op == "=" || op == "<" || op == ">" {
      ComparisonLines(g, n, op);
    } else if op == "if" {
      IfLines(g, n);
    } else if op == "let" {
      LetLines(g, n);
    } else if op == "print" && n.ChildCount() > 1 {
      LineAccounting(g, n.children[1]);
    }
  }

  lemma {:induction false} ArithLines(g: Gen, n: Node, op: string)
    requires n.ChildCount() > 0 && op == n.children[0].Contents()
    requires op == "+" || op == "-" || op == "*"
    ensures |CompileArith(g, n, op).out| == |g.out| + LinesEmitted(n)
    decreases n, 0
  {
    if n.ChildCount() >= 3 {
      var g1 := CompileExpr(g, n.children[1]);
      LineAccounting(g, n.children[1]);
      var t := TakeTemp(g1);
      var h := EmitAll(t.state, ["STA " + Zp(t.addr)]);
      LineAccounting(h, n.children[2]);
    }
  }

  lemma {:induction false} ComparisonLines(g: Gen, n: Node, op: string)
    requires n.ChildCount() > 0 && op == n.children[0].Contents()
    requires op == "=" || op == "<" || op == ">"
    ensures |CompileComparison(g, n, op).out| == |g.out| + LinesEmitted(n)
    decreases n, 0
  {
    if n.ChildCount() >= 3 {
      var g0 := NextLabel(NextLabel(g));
      var g1 := CompileExpr(g0, n.children[1]);
      LineAccounting(g0, n.children[1]);
      var t := TakeTemp(g1);
      var h := EmitAll(t.state, ["STA " + Zp(t.addr)]);
      LineAccounting(h, n.children[2]);
    }
  }

  lemma {:induction false} IfLines(g: Gen, n: Node)
    requires n.ChildCount() > 0 && n.children[0].Contents() == "if"
    ensures |CompileIf(g, n).out| == |g.out| + LinesEmitted(n)
    decreases n, 0
  {
    if n.ChildCount() >= 4 {
      var g0 := NextLabel(NextLabel(g));
      var g1 := CompileExpr(g0, n.children[1]);
      LineAccounting(g0, n.children[1]);
      var h1 := EmitAll(g1, ["CMP #$00", "BEQ " + g1.lastLabel]);
      var g2 := CompileExpr(h1, n.children[2]);
      LineAccounting(h1, n.children[2]);
      var h2 := EmitAll(g2, ["JMP " + g2.lastLabel, g2.lastLabel + ":"]);
      LineAccounting(h2, n.children[3]);
    }
  }

  lemma {:induction false} LetLines(g: Gen, n: Node)
    requires n.ChildCount() > 0 && n.children[0].Contents() == "let"
    ensures |CompileLet(g, n).out| == |g.out| + LinesEmitted(n)
    decreases n, 0
  {
    if n.ChildCount() >= 3 {
      var b := n.children[1];
      var g1 := g;
      if b.ChildCount() >= 2 {
        var h := CompileExpr(g, b.children[1]);
        LineAccounting(g, b.children[1]);
        var v := VarAddr(h, b.children[0].Contents());
        g1 := EmitAll(v.state, ["STA " + Zp(v.addr)]);
      }
      LineAccounting(g1, n.children[2]);
    }
  }

  /**
   * Compiling appends to the output and to the variable table; nothing
   * emitted or bound before is changed.
   */
  lemma {:induction false} CompileExtends(g: Gen, n: Node)
    ensures Extends(g, CompileExpr(g, n))
    decreases n, 1
  {
    if n.ChildCount() == 0 {
      VarAddrExtends(g, n.Contents());
      return;
    }
    var op := n.children[0].Contents();
    if op == "+" || op == "-" || op == "*" {
      ArithExtends(g, n, op);
    } else if op == "=" || op == "<" || op == ">" {
      ComparisonExtends(g, n, op);
    } else if op == "if" {
      IfExtends(g, n);
    } else if op == "let" {
      LetExtends(g, n);
    } else if op == "print" && n.ChildCount() > 1 {
      CompileExtends(g, n.children[1]);
      ExtendsTransitive(g, CompileExpr(g, n.children[1]), CompileExpr(g, n));
    }
  }

  lemma {:induction false} ArithExtends(g: Gen, n: Node, op: string)
    requires n.ChildCount() > 0 && op == n.children[0].Contents()
    requires op == "+" || op == "-" || op == "*"
    ensures Extends(g, CompileArith(g, n, op))
    decreases n, 0
  {
    if n.ChildCount() >= 3 {
      var g1 := CompileExpr(g, n.children[1]);
      CompileExtends(g, n.children[1]);
      var t := TakeTemp(g1);
      var h := EmitAll(t.state, ["STA " + Zp(t.addr)]);
      ExtendsTransitive(g, g1, h);
      var g2 := CompileExpr(h, n.children[2]);
      CompileExtends(h, n.children[2]);
      ExtendsTransitive(g, h, g2);
      ExtendsTransitive(g, g2, CompileArith(g, n, op));
    }
  }

  lemma {:induction false} ComparisonExtends(g: Gen, n: Node, op: string)
    requires n.ChildCount() > 0 && op == n.children[0].Contents()
    requires op == "=" || op == "<" || op == ">"
    ensures Extends(g, CompileComparison(g, n, op))
    decreases n, 0
  {
    if n.ChildCount() >= 3 {
      var g0 := NextLabel(NextLabel(g));
      var g1 := CompileExpr(g0, n.children[1]);
      CompileExtends(g0, n.children[1]);
      var t := TakeTemp(g1);
      var h := EmitAll(t.state, ["STA " + Zp(t.addr)]);
      ExtendsTransitive(g, g1, h);
      var g2 := CompileExpr(h, n.children[2]);
      CompileExtends(h, n.children[2]);
      ExtendsTransitive(g, h, g2);
      ExtendsTransitive(g, g2, CompileComparison(g, n, op));
    }
  }

  lemma {:induction false} IfExtends(g: Gen, n: Node)
    requires n.ChildCount() > 0 && n.children[0].Contents() == "if"
    ensures Extends(g, CompileIf(g, n))
    decreases n, 0
  {
    if n.ChildCount() >= 4 {
      var g0 := NextLabel(NextLabel(g));
      var g1 := CompileExpr(g0, n.children[1]);
      CompileExtends(g0, n.children[1]);
      var h1 := EmitAll(g1, ["CMP #$00", "BEQ " + g1.lastLabel]);
      ExtendsTransitive(g, g1, h1);
      var g2 := CompileExpr(h1, n.children[2]);
      CompileExtends(h1, n.children[2]);
      ExtendsTransitive(g, h1, g2);
      var h2 := EmitAll(g2, ["JMP " + g2.lastLabel, g2.lastLabel + ":"]);
      ExtendsTransitive(g, g2, h2);
      var g3 := CompileExpr(h2, n.children[3]);
      CompileExtends(h2, n.children[3]);
      ExtendsTransitive(g, h2, g3);
      ExtendsTransitive(g, g3, CompileIf(g, n));
    }
  }

  lemma {:induction false} LetExtends(g: Gen, n: Node)
    requires n.ChildCount() > 0 && n.children[0].Contents() == "let"
    ensures Extends(g, CompileLet(g, n))
    decreases n, 0
  {
    if n.ChildCount() >= 3 {
      var b := n.children[1];
      var g1 := g;
      if b.ChildCount() >= 2 {
        var h := CompileExpr(g, b.children[1]);
        CompileExtends(g, b.children[1]);
        var v := VarAddr(h, b.children[0].Contents());
        VarAddrExtends(h, b.children[0].Contents());
        ExtendsTransitive(g, h, v.state);
        g1 := EmitAll(v.state, ["STA " + Zp(v.addr)]);
        ExtendsTransitive(g, v.state, g1);
      }
      CompileExtends(g1, n.children[2]);
      ExtendsTransitive(g, g1, CompileExpr(g1, n.children[2]));
    }
  }

  /**
   * Temporaries are given back: an expression that binds no new variable
   * leaves `stack_ptr` where it found it (below 256, where the truncation
   * to a byte does not bite).
   */
  lemma {:induction false} StackRestored(g: Gen, n: Node)
    requires g.stackPtr < 256
    ensures |CompileExpr(g, n).vars| == |g.vars| ==> CompileExpr(g, n).stackPtr == g.stackPtr
    decreases n, 1
  {
    if n.ChildCount() == 0 {
      return;
    }
    var op := n.children[0].Contents();
    if op == "+" || op == "-" || op == "*" {
      ArithRestores(g, n, op);
    } else if op == "=" || op == "<" || op == ">" {
      ComparisonRestores(g, n, op);
    } else if op == "if" {
      IfRestores(g, n);
    } else if op == "let" {
      LetRestores(g, n);
    } else if op == "print" && n.ChildCount() > 1 {
      StackRestored(g, n.children[1]);
    }
  }

  /**
   * Arithmetic ends with the cursor put back to the temporary taken after
   * the first operand, whatever the second operand bound and wherever the
   * cursor started; from a cursor below 256 and with no new variable, that
   * is where the cursor started.
   */
  lemma {:induction false} ArithRestores(g: Gen, n: Node, op: string)
    requires n.ChildCount() > 0 && op == n.children[0].Contents()
    requires op == "+" || op == "-" || op == "*"
    ensures n.ChildCount() >= 3 ==>
      CompileArith(g, n, op).stackPtr == CompileExpr(g, n.children[1]).stackPtr % 256
    ensures g.stackPtr < 256 && |CompileArith(g, n, op).vars| == |g.vars| ==>
      CompileArith(g, n, op).stackPtr == g.stackPtr
    decreases n, 0
  {
    if n.ChildCount() >= 3 {
      var g1 := CompileExpr(g, n.children[1]);
      CompileExtends(g, n.children[1]);
      if g.stackPtr < 256 {
        StackRestored(g, n.children[1]);
      }
      var t := TakeTemp(g1);
      var h := EmitAll(t.state, ["STA " + Zp(t.addr)]);
      var g2 := CompileExpr(h, n.children[2]);
      CompileExtends(h, n.children[2]);
      assert ArithOp(g2, op, t.addr).vars == g2.vars;
      assert CompileArith(g, n, op) == ArithOp(g2, op, t.addr).(stackPtr := t.addr);
    }
  }

  /** A comparison puts the cursor back the same way, after its two labels. */
  lemma {:induction false} ComparisonRestores(g: Gen, n: Node, op: string)
    requires n.ChildCount() > 0 && op == n.children[0].Contents()
    requires op == "=" || op == "<" || op == ">"
    ensures n.ChildCount() >= 3 ==>
      CompileComparison(g, n, op).stackPtr == CompileExpr(NextLabel(NextLabel(g)), n.children[1]).stackPtr % 256
    ensures g.stackPtr < 256 && |CompileComparison(g, n, op).vars| == |g.vars| ==>
      CompileComparison(g, n, op).stackPtr == g.stackPtr
    decreases n, 0
  {
    if n.ChildCount() >= 3 {
      var g0 := NextLabel(NextLabel(g));
      var g1 := CompileExpr(g0, n.children[1]);
      CompileExtends(g0, n.children[1]);
      if g0.stackPtr < 256 {
        StackRestored(g0, n.children[1]);
      }
      var t := TakeTemp(g1);
      var h := EmitAll(t.state, ["STA " + Zp(t.addr)]);
      CompileExtends(h, n.children[2]);
    }
  }

  lemma {:induction false} IfRestores(g: Gen, n: Node)
    requires g.stackPtr < 256
    requires n.ChildCount() > 0 && n.children[0].Contents() == "if"
    ensures |CompileIf(g, n).vars| == |g.vars| ==> CompileIf(g, n).stackPtr == g.stackPtr
    decreases n, 0
  {
    if n.ChildCount() >= 4 {
      var g0 := NextLabel(NextLabel(g));
      var g1 := CompileExpr(g0, n.children[1]);
      CompileExtends(g0, n.children[1]);
      StackRestored(g0, n.children[1]);
      var h1 := EmitAll(g1, ["CMP #$00", "BEQ " + g1.lastLabel]);
      var g2 := CompileExpr(h1, n.children[2]);
      CompileExtends(h1, n.children[2]);
      var h2 := EmitAll(g2, ["JMP " + g2.lastLabel, g2.lastLabel + ":"]);
      var g3 := CompileExpr(h2, n.children[3]);
      CompileExtends(h2, n.children[3]);
      if |g3.vars| == |g.vars| {
        StackRestored(h1, n.children[2]);
        StackRestored(h2, n.children[3]);
      }
    }
  }

  lemma {:induction false} LetRestores(g: Gen, n: Node)
    requires g.stackPtr < 256
    requires n.ChildCount() > 0 && n.children[0].Contents() == "let"
    ensures |CompileLet(g, n).vars| == |g.vars| ==> CompileLet(g, n).stackPtr == g.stackPtr
    decreases n, 0
  {
    if n.ChildCount() >= 3 {
      var b := n.children[1];
      var g1 := g;
      if b.ChildCount() >= 2 {
        var h := CompileExpr(g, b.children[1]);
        CompileExtends(g, b.children[1]);
        var v := VarAddr(h, b.children[0].Contents());
        g1 := EmitAll(v.state, ["STA " + Zp(v.addr)]);
        CompileExtends(g1, n.children[2]);
        if |CompileExpr(g1, n.children[2]).vars| == |g.vars| {
          StackRestored(g, b.children[1]);
          StackRestored(g1, n.children[2]);
        }
      } else {
        StackRestored(g1, n.children[2]);
      }
    }
  }

  /** The state with the label buffer left out. */
  function Forget(g: Gen): Gen {
    g.(lastLabel := "")
  }

  /**
   * What was left in the label buffer before compiling makes no difference
   * to anything but the buffer itself: every label operand is emitted after
   * a label of the same construct has been generated.
   */
  lemma {:induction false} StaleLabelIgnored(g: Gen, x: string, n: Node)
    ensures Forget(CompileExpr(g.(lastLabel := x), n)) == Forget(CompileExpr(g, n))
    decreases n, 1
  {
    if n.ChildCount() == 0 {
      return;
    }
    var op := n.children[0].Contents();
    if op == "+" || op == "-" || op == "*" {
      ArithIgnoresStaleLabel(g, x, n, op);
    } else if op == "let" {
      LetIgnoresStaleLabel(g, x, n);
    } else if op == "print" && n.ChildCount() > 1 {
      StaleLabelIgnored(g, x, n.children[1]);
    } else if op == "=" || op == "<" || op == ">" || op == "if" {
      assert NextLabel(NextLabel(g.(lastLabel := x))) == NextLabel(NextLabel(g));
    }
  }

  lemma {:induction false} ArithIgnoresStaleLabel(g: Gen, x: string, n: Node, op: string)
    requires n.ChildCount() > 0 && op == n.children[0].Contents()
    requires op == "+" || op == "-" || op == "*"
    ensures Forget(CompileArith(g.(lastLabel := x), n, op)) == Forget(CompileArith(g, n, op))
    decreases n, 0
  {
    if n.ChildCount() >= 3 {
      var g1 := CompileExpr(g, n.children[1]);
      var g1x := CompileExpr(g.(lastLabel := x), n.children[1]);
      StaleLabelIgnored(g, x, n.children[1]);
      assert g1x == g1.(lastLabel := g1x.lastLabel);
      var t := TakeTemp(g1);
      var h := EmitAll(t.state, ["STA " + Zp(t.addr)]);
      assert EmitAll(TakeTemp(g1x).state, ["STA " + Zp(t.addr)]) == h.(lastLabel := g1x.lastLabel);
      StaleLabelIgnored(h, g1x.lastLabel, n.children[2]);
      var g2 := CompileExpr(h, n.children[2]);
      var g2x := CompileExpr(h.(lastLabel := g1x.lastLabel), n.children[2]);
      assert g2x == g2.(lastLabel := g2x.lastLabel);
      ArithOpIgnoresStaleLabel(g2, g2x.lastLabel, op, t.addr);
    }
  }

  lemma ArithOpIgnoresStaleLabel(g: Gen, x: string, op: string, operand: Byte)
    ensures Forget(ArithOp(g.(lastLabel := x), op, operand)) == Forget(ArithOp(g, op, operand))
  {
    if op == "*" {
      var c := TakeTemp(g).state;
      var r := TakeTemp(c).state;
      assert NextLabel(NextLabel(TakeTemp(TakeTemp(g.(lastLabel := x)).state).state)) == NextLabel(NextLabel(r));
    }
  }

  lemma {:induction false} LetIgnoresStaleLabel(g: Gen, x: string, n: Node)
    requires n.ChildCount() > 0 && n.children[0].Contents() == "let"
    ensures Forget(CompileLet(g.(lastLabel := x), n)) == Forget(CompileLet(g, n))
    decreases n, 0
  {
    if n.ChildCount() >= 3 {
      var b := n.children[1];
      if b.ChildCount() >= 2 {
        var name := b.children[0].Contents();
        var h := CompileExpr(g, b.children[1]);
        var hx := CompileExpr(g.(lastLabel := x), b.children[1]);
        StaleLabelIgnored(g, x, b.children[1]);
        assert hx == h.(lastLabel := hx.lastLabel);
        var v := VarAddr(h, name);
        assert VarAddr(hx, name) == Slot(v.state.(lastLabel := hx.lastLabel), v.addr);
        var g1 := EmitAll(v.state, ["STA " + Zp(v.addr)]);
        StaleLabelIgnored(g1, hx.lastLabel, n.children[2]);
      } else {
        StaleLabelIgnored(g, x, n.children[2]);
      }
    }
  }

  /** A search of a table with one more entry at the end. */
  lemma FindVarAppend(vars: seq<Var>, v: Var, name: string)
    ensures FindVar(vars + [v], name) ==
      if FindVar(vars, name) >= 0 then FindVar(vars, name)
      else if v.name == name then |vars|
      else -1
  {
    var e := vars + [v];
    var j := FindVar(vars, name);
    assert forall k :: 0 <= k < |vars| ==> e[k] == vars[k];
    if j >= 0 {
      assert e[j].name == name;
      assert forall k :: 0 <= k < j ==> e[k].name != name;
    } else if v.name == name {
      assert e[|vars|].name == name;
    }
  }

  /**
   * A lookup that finds the name, or has room for it, leaves the name bound
   * to the address it answered; asking again changes nothing and gives the
   * same address.
   */
  lemma VarAddrBinds(g: Gen, name: string)
    requires FindVar(g.vars, name) >= 0 || |g.vars| < MaxVars
    ensures var s := VarAddr(g, name);
      FindVar(s.state.vars, name) >= 0 && s.state.vars[FindVar(s.state.vars, name)].addr == s.addr
    ensures VarAddr(VarAddr(g, name).state, name) == Slot(VarAddr(g, name).state, VarAddr(g, name).addr)
  {
    if FindVar(g.vars, name) < 0 {
      FindVarAppend(g.vars, Var(name, g.stackPtr % 256), name);
    }
  }

  /**
   * A new name gets the cursor's address, truncated to a byte; an unknown
   * name on a full table gets 0x80 and nothing is recorded.
   */
  lemma VarAddrUnknown(g: Gen, name: string)
    requires FindVar(g.vars, name) == -1
    ensures |g.vars| < MaxVars ==>
      (VarAddr(g, name).addr == g.stackPtr % 256 &&
       VarAddr(g, name).state.vars == g.vars + [Var(name, g.stackPtr % 256)] &&
       VarAddr(g, name).state.stackPtr == g.stackPtr + 1)
    ensures |g.vars| >= MaxVars ==> VarAddr(g, name) == Slot(g, StackBase)
  {
  }

  /** The output of a run of top-level expressions only grows. */
  lemma {:induction false} FormsExtend(g: Gen, forms: seq<Node>)
    ensures Extends(g, CompileForms(g, forms))
    decreases |forms|
  {
    if |forms| > 0 {
      var prefix := forms[..|forms| - 1];
      var f := forms[|forms| - 1];
      FormsExtend(g, prefix);
      var h := CompileForms(g, prefix);
      if f.ChildCount() > 0 {
        CompileExtends(h, f);
        ExtendsTransitive(g, h, CompileExpr(h, f));
      }
    }
  }

  /** Every compiled program opens with the header and closes with the footer. */
  lemma ProgramFramed(l: string, forms: seq<Node>)
    ensures var out := CompileProgram(l, Parsed(forms)).out;
      |out| >= |Header| + |Footer| && out[..|Header|] == Header && out[|out| - |Footer|..] == Footer
  {
    var start := EmitAll(Reset(l), Header);
    FormsExtend(start, forms);
  }

  /** The buffer's text of a list of lines is the texts of its parts, in order. */
  lemma {:induction false} RenderAppend(a: seq<string>, b: seq<string>)
    ensures Render(a + b) == Render(a) + Render(b)
    decreases |b|
  {
    if |b| == 0 {
      assert a + b == a;
    } else {
      var b' := b[..|b| - 1];
      assert (a + b)[..|a + b| - 1] == a + b';
      RenderAppend(a, b');
    }
  }

  /**
   * The text of a program that parsed is the header's text, the text of the
   * compiled expressions and the footer's text.
   */
  lemma ProgramTextFramed(l: string, forms: seq<Node>)
    ensures var out := CompileForms(EmitAll(Reset(l), Header), forms).out;
      |Header| <= |out| &&
      ProgramText(l, Parsed(forms)) ==
        "; Generated 6502 assembly from Lisp\n.org $0800\nstart:\n" + Render(out[|Header|..]) + "end:\nBRK\n"
  {
    var start := EmitAll(Reset(l), Header);
    FormsExtend(start, forms);
    var mid := CompileForms(start, forms).out;
    assert mid == Header + mid[|Header|..];
    RenderAppend(mid, Footer);
    RenderAppend(Header, mid[|Header|..]);
    assert Render(Header) == "; Generated 6502 assembly from Lisp\n.org $0800\nstart:\n" by {
      assert Header[..2][..1] == [Header[0]];
      assert Header[..2] == [Header[0], Header[1]];
    }
    assert Render(Footer) == "end:\nBRK\n" by {
      assert Footer[..1] == [Footer[0]];
    }
  }

  lemma {:induction false} FormsIgnoreStaleLabel(g: Gen, x: string, forms: seq<Node>)
    ensures Forget(CompileForms(g.(lastLabel := x), forms)) == Forget(CompileForms(g, forms))
    decreases |forms|
  {
    if |forms| > 0 {
      var prefix := forms[..|forms| - 1];
      var f := forms[|forms| - 1];
      FormsIgnoreStaleLabel(g, x, prefix);
      var h := CompileForms(g, prefix);
      var hx := CompileForms(g.(lastLabel := x), prefix);
      assert hx == h.(lastLabel := hx.lastLabel);
      if f.ChildCount() > 0 {
        StaleLabelIgnored(h, hx.lastLabel, f);
      }
    }
  }

  /**
   * The label buffer is not reset between calls, yet the text of a program
   * does not depend on what an earlier call left in it.
   */
  lemma ProgramTextIgnoresStaleLabel(x: string, y: string, p: ParseResult)
    ensures ProgramText(x, p) == ProgramText(y, p)
  {
    if p.Parsed? {
      var gy := EmitAll(Reset(y), Header);
      assert EmitAll(Reset(x), Header) == gy.(lastLabel := x);
      FormsIgnoreStaleLabel(gy, x, p.forms);
    }
  }
}
