/**
 * The Lisp compiler's global state and its compile procedures, carried out
 * in place. Every method is proved to leave the state that the matching
 * `Codegen` function describes.
 */
module LispCompiler {
  import opened Types
  import opened CLib
  import opened Codegen

  /**
   * The globals `asm_output` (kept as its lines), `stack_ptr`,
   * `label_counter`, the static buffer of `gen_label`, `variables` and
   * `var_count`.
   */
  class Compiler {
    var output: seq<string>
    var stackPtr: nat
    var labelCounter: nat
    var lastLabel: string
    const variables: array<Var>
    var varCount: nat

    ghost predicate Valid()
      reads this
    {
      variables.Length == MaxVars && varCount <= MaxVars
    }

    /** The state as the `Codegen` functions see it. */
    ghost function State(): Gen
      reads this, variables
      requires Valid()
    {
      Gen(output, stackPtr, labelCounter, variables[..varCount], lastLabel)
    }

    /** The zero-initialised globals, with `stack_ptr` at its initial 0x80. */
    constructor ()
      ensures Valid() && fresh(variables)
      ensures State() == Reset("")
    {
      output := [];
      stackPtr := StackBase;
      labelCounter := 0;
      lastLabel := "";
      variables := new Var[MaxVars](_ => Var("", 0));
      varCount := 0;
    }

    /**
     * `emit`, once for each of `lines` in order. Nothing else changes in
     * between, so a run of consecutive `emit` calls is one call here.
     */
    method EmitLines(lines: seq<string>)
      requires Valid()
      modifies this
      ensures Valid() && State() == EmitAll(old(State()), lines)
    {
      output := output + lines;
    }

    /** `gen_label`: the buffer receives the next label name. */
    method GenLabel()
      requires Valid()
      modifies this
      ensures Valid() && State() == NextLabel(old(State()))
    {
      lastLabel := LabelName(labelCounter);
      labelCounter := labelCounter + 1;
    }

    /** `stack_ptr++` read into an `unsigned char`. */
    method AllocTemp() returns (addr: Byte)
      requires Valid()
      modifies this
      ensures Valid() && Slot(State(), addr) == TakeTemp(old(State()))
    {
      addr := stackPtr % 256;
      stackPtr := stackPtr + 1;
    }

    /** `get_var_addr`. */
    method GetVarAddr(name: string) returns (addr: Byte)
      requires Valid()
      modifies this, variables
      ensures Valid() && Slot(State(), addr) == VarAddr(old(State()), name)
    {
      var i := 0;
      while i < varCount
        modifies {}
        invariant 0 <= i <= varCount
        invariant forall k :: 0 <= k < i ==> variables[k].name != name
      {
        if variables[i].name == name {
          return variables[i].addr;
        }
        i := i + 1;
      }
      if varCount < MaxVars {
        variables[varCount] := Var(name, stackPtr % 256);
        stackPtr := stackPtr + 1;
        addr := variables[varCount].addr;
        varCount := varCount + 1;
        assert variables[..varCount] == old(variables[..varCount]) + [Var(name, addr)];
        return;
      }
      return StackBase;
    }

    /** `compile_expr`. */
    method CompileExpr(n: Node)
      requires Valid()
      modifies this, variables
      decreases n, 1
      ensures Valid() && State() == Codegen.CompileExpr(old(State()), n)
    {
      if n.ChildCount() == 0 {
        var text := n.Contents();
        if IsDigit(CharAt(text, 0)) {
          EmitLines(["LDA #$" + Hex2(Atoi(text) % 256)]);
        } else {
          var addr := GetVarAddr(text);
          EmitLines(["LDA " + Zp(addr)]);
        }
        return;
      }
      var op := n.children[0].Contents();
      if op == "+" || op == "-" || op == "*" {
        CompileArith(n, op);
      } else if op == "=" || op == "<" || op == ">" {
        CompileComparison(n, op);
      } else if op == "if" {
        CompileIf(n);
      } else if op == "let" {
        CompileLet(n);
      } else if op == "print" {
        if n.ChildCount() > 1 {
          CompileExpr(n.children[1]);
          EmitLines(["STA $0200"]);
        }
      }
    }

    /** `compile_arith`. */
    method CompileArith(n: Node, op: string)
      requires Valid()
      modifies this, variables
      decreases n, 0
      ensures Valid() && State() == Codegen.CompileArith(old(State()), n, op)
    {
      if n.ChildCount() < 3 {
        return;
      }
      CompileExpr(n.children[1]);
      var temp := AllocTemp();
      EmitLines(["STA " + Zp(temp)]);
      CompileExpr(n.children[2]);
      EmitArithOp(op, temp);
      stackPtr := temp;
    }

    /** The operator part of `compile_arith`. */
    method EmitArithOp(op: string, operand: Byte)
      requires Valid()
      modifies this
      ensures Valid() && State() == ArithOp(old(State()), op, operand)
    {
      if op == "+" {
        EmitLines(["CLC", "ADC " + Zp(operand)]);
      } else if op == "-" {
        var temp2 := AllocTemp();
        EmitLines(["STA " + Zp(temp2), "LDA " + Zp(operand), "SEC", "SBC " + Zp(temp2)]);
      } else if op == "*" {
        var counter := AllocTemp();
        var result := AllocTemp();
        GenLabel();
        GenLabel();
        var l := lastLabel;
        EmitLines([
          "STA " + Zp(counter), "LDA #$00", "STA " + Zp(result), "LDA " + Zp(counter), "BEQ " + l,
          l + ":", "LDA " + Zp(result), "CLC", "ADC " + Zp(operand), "STA " + Zp(result),
          "DEC " + Zp(counter), "BNE " + l,
          l + ":", "LDA " + Zp(result)]);
      }
    }

    /** `compile_comparison`. */
    method CompileComparison(n: Node, op: string)
      requires Valid()
      modifies this, variables
      decreases n, 0
      ensures Valid() && State() == Codegen.CompileComparison(old(State()), n, op)
    {
      if n.ChildCount() < 3 {
        return;
      }
      GenLabel();
      GenLabel();
      CompileExpr(n.children[1]);
      var temp := AllocTemp();
      EmitLines(["STA " + Zp(temp)]);
      CompileExpr(n.children[2]);
      EmitComparisonTail(op, temp);
      stackPtr := temp;
    }

    /** The part of `compile_comparison` after the operands. */
    method EmitComparisonTail(op: string, operand: Byte)
      requires Valid()
      modifies this
      ensures Valid() && State() == ComparisonTail(old(State()), op, operand)
    {
      var l := lastLabel;
      EmitLines(["CMP " + Zp(operand)]);
      if op == "=" {
        EmitLines(["BEQ " + l]);
      } else if op == "<" {
        EmitLines(["BCC " + l]);
      } else if op == ">" {
        EmitLines(["BEQ " + l, "BCC " + l, "JMP " + l]);
      }
      EmitLines(["LDA #$00", "JMP " + l, l + ":", "LDA #$FF", l + ":"]);
    }

    /** `compile_if`. */
    method CompileIf(n: Node)
      requires Valid()
      modifies this, variables
      decreases n, 0
      ensures Valid() && State() == Codegen.CompileIf(old(State()), n)
    {
      if n.ChildCount() < 4 {
        return;
      }
      GenLabel();
      GenLabel();
      CompileExpr(n.children[1]);
      EmitLines(["CMP #$00", "BEQ " + lastLabel]);
      CompileExpr(n.children[2]);
      EmitLines(["JMP " + lastLabel, lastLabel + ":"]);
      if n.ChildCount() > 3 {
        CompileExpr(n.children[3]);
      } else {
        // the guard above leaves at least four children
        assert false;
      }
      EmitLines([lastLabel + ":"]);
    }

    /** `compile_let`. */
    method CompileLet(n: Node)
      requires Valid()
      modifies this, variables
      decreases n, 0
      ensures Valid() && State() == Codegen.CompileLet(old(State()), n)
    {
      if n.ChildCount() < 3 {
        return;
      }
      var bindings := n.children[1];
      if bindings.ChildCount() >= 2 {
        var name := bindings.children[0].Contents();
        CompileExpr(bindings.children[1]);
        var addr := GetVarAddr(name);
        EmitLines(["STA " + Zp(addr)]);
      }
      CompileExpr(n.children[2]);
    }

    /**
     * `lisp_to_6502` after parsing: reset, then header, every top-level
     * expression with children, footer; or the parse-error text.
     */
    method LispTo6502(p: ParseResult) returns (text: string)
      requires Valid()
      modifies this, variables
      ensures Valid() && State() == CompileProgram(old(lastLabel), p)
      ensures text == ProgramText(old(lastLabel), p)
    {
      output := [];
      labelCounter := 0;
      varCount := 0;
      stackPtr := StackBase;
      match p
      case ParseError(msg) =>
        text := "; Parse error: " + msg;
      case Parsed(forms) =>
        EmitLines(Header);
        ghost var start := State();
        for i := 0 to |forms|
          invariant Valid()
          invariant State() == CompileForms(start, forms[..i])
        {
          if forms[i].ChildCount() > 0 {
            CompileExpr(forms[i]);
          }
          assert forms[..i + 1][..i] == forms[..i];
        }
        EmitLines(Footer);
        assert forms[..|forms|] == forms;
        text := Render(output);
    }
  }
}
