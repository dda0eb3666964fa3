/** Expression trees: their precedence, equality, rendering and copying (src/ast/ast.h, src/ast/ast.cpp). */
module Tree {
  import opened Basics
  import opened Precedence
  import opened Functions

  /**
   * An expression tree: a literal number, an unbound variable, or a call of
   * a catalog function on arguments in order. A Call always refers to a
   * catalog entry, which is what the non-null assertion of the C++
   * constructor guarantees.
   */
  datatype Ast = Literal(value: Num) | Variable(identifier: string) | Call(fn: FnRef, args: seq<Ast>)

  /**
   * Ast::precedence: a call binds as tightly as its function, anything else
   * as tightly as possible. Only a call of a binary infix operator binds
   * looser than L1: prefix operators and routines are built at L1.
   */
  function PrecedenceOf(a: Ast): (p: Level)
    ensures p != L1 ==> a.Call? && Fn(a.fn).syntax == INFIX && Fn(a.fn).arityType == DYNAMIC
  {
    if a.Call? then CatalogShapes(a.fn); Fn(a.fn).precedence else L1
  }

  /** Every call in the tree has at least one argument (the parser never builds an empty call). */
  predicate NonEmptyCalls(a: Ast)
    decreases a
  {
    a.Call? ==> |a.args| > 0 && forall i :: 0 <= i < |a.args| ==> NonEmptyCalls(a.args[i])
  }

  // ---------------------------------------------------------------------------
  // Rendering

  /** Whether an operand of `fn` needs parentheses: only a call that binds no tighter than `fn`. */
  predicate NeedsParens(fn: Function, arg: Ast)
  {
    Le(PrecedenceOf(arg), fn.precedence) && arg.Call?
  }

  /** format_operand: an operand of an infix call. */
  function Operand(fn: Function, arg: Ast, format: DecimalFormatter): string
    decreases arg, 1
  {
    if NeedsParens(fn, arg) then "(" + Render(arg, format) + ")" else Render(arg, format)
  }

  function Operands(fn: Function, args: seq<Ast>, format: DecimalFormatter): (ops: seq<string>)
    ensures |ops| == |args|
    decreases args, 2
  {
    seq(|args|, i requires 0 <= i < |args| => Operand(fn, args[i], format))
  }

  /** format_infix: a prefix operator before its one operand, otherwise the operands joined by " id ". */
  function InfixText(f: FnRef, args: seq<Ast>, format: DecimalFormatter): string
    decreases args, 3
  {
    if |args| == 1 then Fn(f).identifier + Operand(Fn(f), args[0], format)
    else Join(Operands(Fn(f), args, format), " " + Fn(f).identifier + " ")
  }

  function Renders(args: seq<Ast>, format: DecimalFormatter): (texts: seq<string>)
    ensures |texts| == |args|
    decreases args, 2
  {
    seq(|args|, i requires 0 <= i < |args| => Render(args[i], format))
  }

  /** format_routine: the identifier, then the arguments in parentheses separated by ", ". */
  function RoutineText(f: FnRef, args: seq<Ast>, format: DecimalFormatter): string
    decreases args, 3
  {
    Fn(f).identifier + "(" + Join(Renders(args, format), ", ") + ")"
  }

  /** Ast::to_string */
  function Render(a: Ast, format: DecimalFormatter): string
    decreases a, 0
  {
    match a
    case Literal(v) => format(v)
    case Variable(name) => name
    case Call(f, args) => if Fn(f).syntax == INFIX then InfixText(f, args, format) else RoutineText(f, args, format)
  }

  /**
   * An operand is wrapped in parentheses exactly when it is a call binding
   * no tighter than the operator; literals and variables never are.
   */
  lemma {:induction false} OperandParens(fn: Function, arg: Ast, format: DecimalFormatter)
    ensures Operand(fn, arg, format) == "(" + Render(arg, format) + ")" <==> NeedsParens(fn, arg)
    ensures !NeedsParens(fn, arg) ==> Operand(fn, arg, format) == Render(arg, format)
    ensures !arg.Call? ==> Operand(fn, arg, format) == Render(arg, format)
  {
    if !NeedsParens(fn, arg) {
      assert |Operand(fn, arg, format)| != |"(" + Render(arg, format) + ")"|;
    }
  }

  /**
   * Under an operator at L1 (a prefix operator or '**') every call operand is
   * parenthesised, routine calls and prefix calls included, and no leaf is.
   */
  lemma {:induction false} TightestOperand(fn: Function, arg: Ast)
    requires fn.precedence == L1
    ensures NeedsParens(fn, arg) <==> arg.Call?
  {
    LowestIsBottom(PrecedenceOf(arg));
  }

  /**
   * Under an operator looser than L1 only a binary infix call can be
   * parenthesised: a routine or prefix call never is.
   */
  lemma {:induction false} LooserOperand(fn: Function, arg: Ast)
    requires fn.precedence != L1
    ensures NeedsParens(fn, arg) ==> arg.Call? && Fn(arg.fn).syntax == INFIX && Fn(arg.fn).arityType == DYNAMIC
  {
  }

  /** A binary infix call renders as its two operands around " id ". */
  lemma {:induction false} RenderBinary(f: FnRef, x: Ast, y: Ast, format: DecimalFormatter)
    requires Fn(f).syntax == INFIX
    ensures Render(Call(f, [x, y]), format)
            == Operand(Fn(f), x, format) + " " + Fn(f).identifier + " " + Operand(Fn(f), y, format)
  {
    var ops := Operands(Fn(f), [x, y], format);
    assert ops[1..] == [ops[1]];
  }

  /** A variable operand renders as its name, never in parentheses. */
  lemma {:induction false} VariableOperand(fn: Function, name: string, format: DecimalFormatter)
    ensures Operand(fn, Variable(name), format) == name
  {
  }

  /** The difference of two variables, `a - b`. */
  lemma {:induction false} RenderDifference(a: string, b: string, format: DecimalFormatter)
    ensures Render(Call(6, [Variable(a), Variable(b)]), format) == a + " - " + b
  {
    RenderBinary(6, Variable(a), Variable(b), format);
    VariableOperand(Fn(6), a, format);
    VariableOperand(Fn(6), b, format);
    assert Fn(6).identifier == "-";
  }

  /** The product of two variables, `a * b`. */
  lemma {:induction false} RenderProduct(a: string, b: string, format: DecimalFormatter)
    ensures Render(Call(2, [Variable(a), Variable(b)]), format) == a + " * " + b
  {
    RenderBinary(2, Variable(a), Variable(b), format);
    VariableOperand(Fn(2), a, format);
    VariableOperand(Fn(2), b, format);
    assert Fn(2).identifier == "*";
  }

  /** `(a - b) * c`: an operand that binds more loosely than its operator is parenthesised. */
  lemma {:induction false} RenderLooserOperand(a: string, b: string, c: string, format: DecimalFormatter)
    ensures Render(Call(2, [Call(6, [Variable(a), Variable(b)]), Variable(c)]), format)
            == "(" + a + " - " + b + ") * " + c
  {
    var inner := Call(6, [Variable(a), Variable(b)]);
    RenderDifference(a, b, format);
    assert Operand(Fn(2), inner, format) == "(" + a + " - " + b + ")";
    VariableOperand(Fn(2), c, format);
    RenderBinary(2, inner, Variable(c), format);
    assert Fn(2).identifier == "*";
  }

  /** `a * b - c`: an operand that binds more tightly is not. */
  lemma {:induction false} RenderTighterOperand(a: string, b: string, c: string, format: DecimalFormatter)
    ensures Render(Call(6, [Call(2, [Variable(a), Variable(b)]), Variable(c)]), format)
            == a + " * " + b + " - " + c
  {
    var inner := Call(2, [Variable(a), Variable(b)]);
    RenderProduct(a, b, format);
    assert Operand(Fn(6), inner, format) == a + " * " + b;
    VariableOperand(Fn(6), c, format);
    RenderBinary(6, inner, Variable(c), format);
    assert Fn(6).identifier == "-";
  }

  /** `a - (b - c)`: an operand of equal precedence is parenthesised, also on the right. */
  lemma {:induction false} RenderEqualOperand(a: string, b: string, c: string, format: DecimalFormatter)
    ensures Render(Call(6, [Variable(a), Call(6, [Variable(b), Variable(c)])]), format)
            == a + " - (" + b + " - " + c + ")"
  {
    var inner := Call(6, [Variable(b), Variable(c)]);
    RenderDifference(b, c, format);
    assert Operand(Fn(6), inner, format) == "(" + b + " - " + c + ")";
    VariableOperand(Fn(6), a, format);
    RenderBinary(6, Variable(a), inner, format);
    assert Fn(6).identifier == "-";
  }

  /** `-(-x)`: a prefix operator applied to a prefix operator is parenthesised. */
  lemma {:induction false} RenderDoubleNegation(x: string, format: DecimalFormatter)
    ensures Render(Call(0, [Call(0, [Variable(x)])]), format) == "-(-" + x + ")"
  {
    var inner := Call(0, [Variable(x)]);
    VariableOperand(Fn(0), x, format);
    assert Fn(0).identifier == "-";
    assert Render(inner, format) == "-" + x;
    assert Operand(Fn(0), inner, format) == "(-" + x + ")";
  }

  /** `min(a, b)`: routine arguments are separated by ", " and never parenthesised. */
  lemma {:induction false} RenderRoutine(a: Ast, b: Ast, format: DecimalFormatter)
    ensures Render(Call(19, [a, b]), format) == "min(" + Render(a, format) + ", " + Render(b, format) + ")"
  {
    var texts := Renders([a, b], format);
    assert texts[1..] == [Render(b, format)];
    assert Fn(19).identifier == "min";
  }

  // ---------------------------------------------------------------------------
  // The rendering loops

  method FormatOperand(fn: Function, arg: Ast, format: DecimalFormatter) returns (out: string)
    ensures out == Operand(fn, arg, format)
    decreases arg, 1
  {
    var argOut := ToString(arg, format);
    if Le(PrecedenceOf(arg), fn.precedence) && arg.Call? {
      out := "(" + argOut + ")";
    } else {
      out := argOut;
    }
  }

  method FormatInfix(f: FnRef, args: seq<Ast>, format: DecimalFormatter) returns (out: string)
    ensures out == InfixText(f, args, format)
    decreases args, 2
  {
    var fn := Fn(f);
    if |args| == 1 {
      var operand := FormatOperand(fn, args[0], format);
      return fn.identifier + operand;
    }
    var delimiter := " " + fn.identifier + " ";
    out := "";
    for i := 0 to |args|
      invariant out == Join(Operands(fn, args[..i], format), delimiter)
    {
      var operand := FormatOperand(fn, args[i], format);
      OperandsSnoc(fn, args, i, format);
      if i > 0 {
        JoinSnoc(Operands(fn, args[..i], format), operand, delimiter);
        out := out + delimiter;
      }
      out := out + operand;
    }
    assert args[..|args|] == args;
  }

  method FormatRoutine(f: FnRef, args: seq<Ast>, format: DecimalFormatter) returns (out: string)
    ensures out == RoutineText(f, args, format)
    decreases args, 2
  {
    var argsString := "";
    for i := 0 to |args|
      invariant argsString == Join(Renders(args[..i], format), ", ")
    {
      var arg := ToString(args[i], format);
      RendersSnoc(args, i, format);
      if i > 0 {
        JoinSnoc(Renders(args[..i], format), arg, ", ");
        argsString := argsString + ", ";
      }
      argsString := argsString + arg;
    }
    assert args[..|args|] == args;
    out := Fn(f).identifier + "(" + argsString + ")";
  }

  lemma {:induction false} OperandsSnoc(fn: Function, args: seq<Ast>, i: nat, format: DecimalFormatter)
    requires i < |args|
    ensures Operands(fn, args[..i + 1], format) == Operands(fn, args[..i], format) + [Operand(fn, args[i], format)]
  {
    var a := Operands(fn, args[..i + 1], format);
    var b := Operands(fn, args[..i], format) + [Operand(fn, args[i], format)];
    forall k | 0 <= k < i + 1 ensures a[k] == b[k] {
      assert args[..i + 1][k] == args[k];
      if k < i {
        assert args[..i][k] == args[k];
      }
    }
  }

  lemma {:induction false} RendersSnoc(args: seq<Ast>, i: nat, format: DecimalFormatter)
    requires i < |args|
    ensures Renders(args[..i + 1], format) == Renders(args[..i], format) + [Render(args[i], format)]
  {
    var a := Renders(args[..i + 1], format);
    var b := Renders(args[..i], format) + [Render(args[i], format)];
    forall k | 0 <= k < i + 1 ensures a[k] == b[k] {
      assert args[..i + 1][k] == args[k];
      if k < i {
        assert args[..i][k] == args[k];
      }
    }
  }

  /** Ast::to_string, dispatching on the variant and on the function's syntax. */
  method ToString(a: Ast, format: DecimalFormatter) returns (out: string)
    ensures out == Render(a, format)
    decreases a, 0
  {
    match a {
      case Call(f, args) =>
        if Fn(f).syntax == INFIX {
          out := FormatInfix(f, args, format);
        } else {
          out := FormatRoutine(f, args, format);
        }
      case Literal(v) =>
        out := format(v);
      case Variable(name) =>
        out := name;
    }
  }

  // ---------------------------------------------------------------------------
  // Equality

  /**
   * operator==: calls are equal when they call the same entry on pairwise
   * equal arguments, literals when double_equality holds, variables when
   * their names agree; different variants are never equal.
   */
  predicate Equal(a: Ast, b: Ast, eq: NumEquality)
    decreases a
  {
    match a
    case Call(f, xs) =>
      b.Call? && f == b.fn && |xs| == |b.args| && forall i :: 0 <= i < |xs| ==> Equal(xs[i], b.args[i], eq)
    case Literal(x) => b.Literal? && eq(x, b.value)
    case Variable(m) => b.Variable? && m == b.identifier
  }

  /** With exact equality on numbers, tree equality is structural equality. */
  lemma {:induction false} EqualIsStructural(a: Ast, b: Ast, eq: NumEquality)
    requires forall x: Num, y: Num :: eq(x, y) <==> x == y
    ensures Equal(a, b, eq) <==> a == b
    decreases a
  {
    if a.Call? && b.Call? && a.fn == b.fn && |a.args| == |b.args| {
      forall i | 0 <= i < |a.args|
        ensures Equal(a.args[i], b.args[i], eq) <==> a.args[i] == b.args[i]
      {
        EqualIsStructural(a.args[i], b.args[i], eq);
      }
      if Equal(a, b, eq) {
        assert a.args == b.args;
      }
    }
  }

  /** Equality is symmetric whenever double_equality is. */
  lemma {:induction false} EqualSymmetric(a: Ast, b: Ast, eq: NumEquality)
    requires forall x: Num, y: Num :: eq(x, y) ==> eq(y, x)
    requires Equal(a, b, eq)
    ensures Equal(b, a, eq)
    decreases a
  {
    if a.Call? {
      forall i | 0 <= i < |b.args|
        ensures Equal(b.args[i], a.args[i], eq)
      {
        EqualSymmetric(a.args[i], b.args[i], eq);
      }
    }
  }

  /** Every tree equals itself unless one of its literals is unequal to itself (a NaN). */
  lemma {:induction false} EqualReflexive(a: Ast, eq: NumEquality)
    requires forall x: Num :: eq(x, x)
    ensures Equal(a, a, eq)
    decreases a
  {
    if a.Call? {
      forall i | 0 <= i < |a.args|
        ensures Equal(a.args[i], a.args[i], eq)
      {
        EqualReflexive(a.args[i], eq);
      }
    }
  }

  // ---------------------------------------------------------------------------
  // Copying

  /** Ast::copy: a deep copy; the copy is the same tree. */
  method Copy(a: Ast) returns (c: Ast)
    ensures c == a
    decreases a, 1
  {
    match a {
      case Call(f, args) =>
        var copied := CopyArgs(args);
        c := Call(f, copied);
      case Literal(_) =>
        c := a;
      case Variable(_) =>
        c := a;
    }
  }

  /** copy_args: each argument copied, in order. */
  method CopyArgs(args: seq<Ast>) returns (cloned: seq<Ast>)
    ensures cloned == args
    decreases args, 0
  {
    cloned := [];
    for i := 0 to |args|
      invariant cloned == args[..i]
    {
      var c := Copy(args[i]);
      cloned := cloned + [c];
    }
  }
}
