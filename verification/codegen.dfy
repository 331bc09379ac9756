/**
 * What the Lisp compiler's code generator computes, as functions on its
 * state: the emitted lines, the zero-page cursor, the label counter, the
 * variable table and the text of the last generated label. The `Compiler`
 * class carries out the same steps in place; its methods are proved to
 * end in the state these functions give.
 */
module Codegen {
  import opened Types
  import opened CLib

  /**
   * An expression tree: an atom carries its text, a list its children with
   * the operator first.
   */
  datatype Node = Atom(text: string) | List(children: seq<Node>)
  {
    /** `children_num`. */
    function ChildCount(): nat {
      if Atom? then 0 else |children|
    }

    /** `contents`: the text of an atom; a list has none. */
    function Contents(): string {
      if Atom? then text else ""
    }
  }

  /** A variable-table entry: a name and its zero-page address. */
  datatype Var = Var(name: string, addr: Byte)

  /** Capacity of the variable table. */
  const MaxVars: nat := 32

  /** The first zero-page address handed out, and the fallback address. */
  const StackBase: Byte := 0x80

  /**
   * The generator's state: the lines emitted so far, `stack_ptr`,
   * `label_counter`, the variables in use and the text held in the static
   * buffer of `gen_label`.
   */
  datatype Gen = Gen(out: seq<string>, stackPtr: nat, labelCounter: nat, vars: seq<Var>, lastLabel: string)

  /** An address together with the state after it was handed out. */
  datatype Slot = Slot(state: Gen, addr: Byte)

  /** Appends lines to the output. */
  function EmitAll(g: Gen, lines: seq<string>): Gen {
    g.(out := g.out + lines)
  }

  /** `%02X` of an address, after `$`. */
  function Zp(addr: Byte): string {
    "$" + Hex2(addr)
  }

  /** The text `gen_label` writes for label number `k`. */
  function LabelName(k: nat): (l: string)
    ensures |l| >= 2 && l[0] == 'L'
  {
    "L" + Decimal(k)
  }

  /** `gen_label`: the buffer now holds the next label; the counter moves on. */
  function NextLabel(g: Gen): Gen {
    g.(labelCounter := g.labelCounter + 1, lastLabel := LabelName(g.labelCounter))
  }

  /** `stack_ptr++` into an `unsigned char`: the old cursor, truncated. */
  function TakeTemp(g: Gen): Slot {
    Slot(g.(stackPtr := g.stackPtr + 1), g.stackPtr % 256)
  }

  /** The position of the first variable named `name`, or -1. */
  function FindVar(vars: seq<Var>, name: string): (i: int)
    ensures -1 <= i < |vars|
    ensures 0 <= i ==> vars[i].name == name
    ensures 0 <= i ==> forall k :: 0 <= k < i ==> vars[k].name != name
    ensures i == -1 <==> forall k :: 0 <= k < |vars| ==> vars[k].name != name
  {
    if |vars| == 0 then -1
    else if vars[0].name == name then 0
    else
      var j := FindVar(vars[1..], name);
      if j < 0 then -1 else j + 1
  }

  /**
   * `get_var_addr`: the address of a known name; otherwise, while there is
   * room, a new entry at the truncated cursor; otherwise the fallback.
   */
  function VarAddr(g: Gen, name: string): Slot {
    var i := FindVar(g.vars, name);
    if i >= 0 then Slot(g, g.vars[i].addr)
    else if |g.vars| < MaxVars then
      var t := TakeTemp(g);
      Slot(t.state.(vars := g.vars + [Var(name, t.addr)]), t.addr)
    else Slot(g, StackBase)
  }

  /** `compile_expr`. */
  function CompileExpr(g: Gen, n: Node): Gen
    decreases n, 1
  {
    if n.ChildCount() == 0 then
      var text := n.Contents();
      if IsDigit(CharAt(text, 0)) then
        EmitAll(g, ["LDA #$" + Hex2(Atoi(text) % 256)])
      else
        var v := VarAddr(g, text);
        EmitAll(v.state, ["LDA " + Zp(v.addr)])
    else
      var op := n.children[0].Contents();
      if op == "+" || op == "-" || op == "*" then CompileArith(g, n, op)
      else if op == "=" || op == "<" || op == ">" then CompileComparison(g, n, op)
      else if op == "if" then CompileIf(g, n)
      else if op == "let" then CompileLet(g, n)
      else if op == "print" then
        if n.ChildCount() > 1 then EmitAll(CompileExpr(g, n.children[1]), ["STA $0200"])
        else g
      else g
  }

  /**
   * `compile_arith`: first operand, saved in a temporary; second operand;
   * then the operation; the temporaries are released.
   */
  function CompileArith(g: Gen, n: Node, op: string): Gen
    decreases n, 0
  {
    if n.ChildCount() < 3 then g
    else
      var g1 := CompileExpr(g, n.children[1]);
      var t := TakeTemp(g1);
      var g2 := CompileExpr(EmitAll(t.state, ["STA " + Zp(t.addr)]), n.children[2]);
      ArithOp(g2, op, t.addr).(stackPtr := t.addr)
  }

  /**
   * What `compile_arith` emits for `op` once both operands are compiled, the
   * first one held at `operand`; an unknown operator emits nothing.
   */
  function ArithOp(g: Gen, op: string, operand: Byte): Gen {
    if op == "+" then EmitAll(g, ["CLC", "ADC " + Zp(operand)])
    else if op == "-" then
      var t := TakeTemp(g);
      EmitAll(t.state, ["STA " + Zp(t.addr), "LDA " + Zp(operand), "SEC", "SBC " + Zp(t.addr)])
    else if op == "*" then
      var counter := TakeTemp(g);
      var result := TakeTemp(counter.state);
      MulLoop(NextLabel(NextLabel(result.state)), operand, counter.addr, result.addr)
    else g
  }

  /**
   * The repeated-addition loop of `*`. Both label variables point to the one
   * static buffer, so both print as the label generated last.
   */
  function MulLoop(h: Gen, operand: Byte, counter: Byte, result: Byte): Gen {
    var l := h.lastLabel;
    EmitAll(h, [
      "STA " + Zp(counter), "LDA #$00", "STA " + Zp(result), "LDA " + Zp(counter), "BEQ " + l,
      l + ":", "LDA " + Zp(result), "CLC", "ADC " + Zp(operand), "STA " + Zp(result),
      "DEC " + Zp(counter), "BNE " + l,
      l + ":", "LDA " + Zp(result)])
  }

  /** The branch `compile_comparison` emits for `op` after `CMP`. */
  function ComparisonBranch(op: string, l: string): seq<string> {
    if op == "=" then ["BEQ " + l]
    else if op == "<" then ["BCC " + l]
    else if op == ">" then ["BEQ " + l, "BCC " + l, "JMP " + l]
    else []
  }

  /**
   * `compile_comparison`: two labels, first operand saved in a temporary,
   * second operand, compare, branch, then 0 or 0xFF in A.
   */
  function CompileComparison(g: Gen, n: Node, op: string): Gen
    decreases n, 0
  {
    if n.ChildCount() < 3 then g
    else
      var g1 := CompileExpr(NextLabel(NextLabel(g)), n.children[1]);
      var t := TakeTemp(g1);
      var g2 := CompileExpr(EmitAll(t.state, ["STA " + Zp(t.addr)]), n.children[2]);
      ComparisonTail(g2, op, t.addr).(stackPtr := t.addr)
  }

  /**
   * What `compile_comparison` emits once both operands are compiled, the
   * first one held at `operand`: compare, branch, and the code that leaves
   * 0 or 0xFF in A. Every label operand is the label generated last.
   */
  function ComparisonTail(g: Gen, op: string, operand: Byte): Gen {
    var l := g.lastLabel;
    EmitAll(g, ["CMP " + Zp(operand)] + ComparisonBranch(op, l) +
               ["LDA #$00", "JMP " + l, l + ":", "LDA #$FF", l + ":"])
  }

  /**
   * `compile_if`: two labels, condition, test, then-branch, else-branch.
   * Every label operand prints the label generated last at that point. With
   * fewer than four children nothing is emitted, so the else-branch child
   * always exists.
   */
  function CompileIf(g: Gen, n: Node): Gen
    decreases n, 0
  {
    if n.ChildCount() < 4 then g
    else
      var g1 := CompileExpr(NextLabel(NextLabel(g)), n.children[1]);
      var g2 := CompileExpr(EmitAll(g1, ["CMP #$00", "BEQ " + g1.lastLabel]), n.children[2]);
      var g3 := CompileExpr(EmitAll(g2, ["JMP " + g2.lastLabel, g2.lastLabel + ":"]), n.children[3]);
      EmitAll(g3, [g3.lastLabel + ":"])
  }

  /**
   * `compile_let`: when the binding list has at least two children, the
   * value (its second child) is stored in the variable named by its first
   * child; then the body is compiled.
   */
  function CompileLet(g: Gen, n: Node): Gen
    decreases n, 0
  {
    if n.ChildCount() < 3 then g
    else
      var bindings := n.children[1];
      var g1 :=
        if bindings.ChildCount() >= 2 then
          var h := CompileExpr(g, bindings.children[1]);
          var v := VarAddr(h, bindings.children[0].Contents());
          EmitAll(v.state, ["STA " + Zp(v.addr)])
        else g;
      CompileExpr(g1, n.children[2])
  }

  /** The first lines of every compiled program. */
  const Header: seq<string> := ["; Generated 6502 assembly from Lisp", ".org $0800", "start:"]

  /** The last lines of every compiled program. */
  const Footer: seq<string> := ["end:", "BRK"]

  /**
   * What the parser hands over: the top-level expressions, or a failure.
   * The failure's `message` is a stand-in for the text after `; Parse error: `.
   */
  datatype ParseResult = Parsed(forms: seq<Node>) | ParseError(message: string)

  /**
   * The reset at the start of `lisp_to_6502`. The static label buffer is not
   * reset.
   */
  function Reset(lastLabel: string): Gen {
    Gen([], StackBase, 0, [], lastLabel)
  }

  /** One top-level expression: compiled only when it has children. */
  function CompileForm(g: Gen, f: Node): Gen {
    if f.ChildCount() > 0 then CompileExpr(g, f) else g
  }

  /** Compiles the top-level expressions in order, first to last. */
  function CompileForms(g: Gen, forms: seq<Node>): Gen
    decreases |forms|
  {
    if |forms| == 0 then g
    else CompileForm(CompileForms(g, forms[..|forms| - 1]), forms[|forms| - 1])
  }

  /** The state `lisp_to_6502` ends in. */
  function CompileProgram(lastLabel: string, p: ParseResult): Gen {
    match p
    case Parsed(forms) => EmitAll(CompileForms(EmitAll(Reset(lastLabel), Header), forms), Footer)
    case ParseError(_) => Reset(lastLabel)
  }

  /** The output buffer's text: each line followed by a newline. */
  function Render(lines: seq<string>): string {
    if |lines| == 0 then "" else Render(lines[..|lines| - 1]) + lines[|lines| - 1] + "\n"
  }

  /** The text `lisp_to_6502` returns. */
  function ProgramText(lastLabel: string, p: ParseResult): string {
    match p
    case Parsed(_) => Render(CompileProgram(lastLabel, p).out)
    case ParseError(msg) => "; Parse error: " + msg
  }
}
