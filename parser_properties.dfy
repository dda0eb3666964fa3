/** Properties of the parser specification: the inner climb, error cases and the shapes of small inputs. */
module ParserProperties {
  import opened Basics
  import opened Precedence
  import opened Functions
  import opened Lexing
  import opened Tree
  import opened Parsing

  /**
   * parse_precedence never clears `from`: once a climb starts with an
   * operator at or above `min`, it keeps taking that operator for every
   * further round (without looking at the token under the cursor) until a
   * primary or an inner climb fails, so it never returns a tree.
   */
  lemma {:induction false} ClimbFromFails(st: Stream, c: nat, lhs: Ast, min: Level, f: FnRef)
    requires Within(st, c) && NonEmptyCalls(lhs)
    requires ArityMatch(Fn(f), 2) && Le(min, Fn(f).precedence)
    ensures Climb(st, c, lhs, min, Some(f)).Failed?
    decreases st.Last() - c
  {
    var round := Round(st, c, lhs, f, min);
    if round.Parsed? {
      ClimbFromFails(st, round.cursor, round.value, min, f);
    }
  }

  /** So the inner loop either stops at once, leaving the operand and cursor alone, or fails. */
  lemma {:induction false} InnerNeverCombines(st: Stream, c: nat, rhs: Ast, f: FnRef, min: Level)
    requires Within(st, c) && NonEmptyCalls(rhs)
    requires ArityMatch(Fn(f), 2) && Le(min, Fn(f).precedence)
    ensures Inner(st, c, rhs, f, min).Parsed? ==> Inner(st, c, rhs, f, min) == Parsed(rhs, c)
    ensures Inner(st, c, rhs, f, min).Failed? <==>
              var sub := PeekFunction(st, c, 2);
              sub.Some? && BindsTighter(sub.value, f)
  {
    var sub := PeekFunction(st, c, 2);
    if sub.Some? && BindsTighter(sub.value, f) {
      ClimbsHigher(min, f, sub.value);
      ClimbFromFails(st, c, rhs, Next(min), sub.value);
    }
  }

  // ---------------------------------------------------------------------------
  // One step of each parse routine, for chaining over small streams.

  lemma {:induction false} PrimaryStep(st: Stream, c: nat, u: Step<Ast>)
    requires Within(st, c) && !st.tokens[c].EOL? && u == Unit(st, c)
    ensures u.Failed? ==> Primary(st, c) == u
    ensures u.Parsed? ==> Primary(st, c) == Shorthand(st, u.cursor, u.value)
  {
  }

  lemma {:induction false} ExpressionStep(st: Stream, c: nat, p: Step<Ast>)
    requires Within(st, c) && p == Primary(st, c)
    ensures p.Failed? ==> Expression(st, c) == p
    ensures p.Parsed? ==> Expression(st, c) == Climb(st, p.cursor, p.value, LOWEST, None)
  {
  }

  lemma {:induction false} InnerStops(st: Stream, c: nat, rhs: Ast, f: FnRef, min: Level)
    requires Within(st, c) && NonEmptyCalls(rhs)
    requires ArityMatch(Fn(f), 2) && Le(min, Fn(f).precedence)
    requires PeekFunction(st, c, 2).None? || !BindsTighter(PeekFunction(st, c, 2).value, f)
    ensures Inner(st, c, rhs, f, min) == Parsed(rhs, c)
  {
  }

  lemma {:induction false} InnerEntersClimb(st: Stream, c: nat, rhs: Ast, f: FnRef, min: Level, g: FnRef, e: Error)
    requires Within(st, c) && NonEmptyCalls(rhs)
    requires ArityMatch(Fn(f), 2) && Le(min, Fn(f).precedence)
    requires PeekFunction(st, c, 2) == Some(g) && BindsTighter(g, f)
    requires Climb(st, c, rhs, Next(min), Some(g)) == Failed(e)
    ensures Inner(st, c, rhs, f, min) == Failed(e)
  {
  }

  lemma {:induction false} UnitName(st: Stream, c: nat, x: string)
    requires Within(st, c) && st.tokens[c] == Name(x)
    ensures c < st.Last() && Unit(st, c) == Parsed(Variable(x), c + 1)
  {
  }

  lemma {:induction false} UnitNumber(st: Stream, c: nat, v: Num)
    requires Within(st, c) && st.tokens[c] == Number(v)
    ensures c < st.Last() && Unit(st, c) == Parsed(Literal(v), c + 1)
  {
  }

  lemma {:induction false} UnitParenthesis(st: Stream, c: nat, nested: Step<Ast>)
    requires Within(st, c) && st.tokens[c] == Char('(')
    requires c < st.Last() && nested == Expression(st, c + 1)
    ensures nested.Failed? ==> Unit(st, c) == nested
    ensures nested.Parsed? && st.tokens[nested.cursor] == Char(')') ==> Unit(st, c) == Parsed(nested.value, st.Advance(nested.cursor))
    ensures nested.Parsed? && st.tokens[nested.cursor] != Char(')') ==>
              Unit(st, c) == Failed(Error(st.StartBefore(st.Advance(nested.cursor)), "expected ')'"))
  {
  }

  lemma {:induction false} UnitPrefix(st: Stream, c: nat, s: string, arg: Step<Ast>)
    requires Within(st, c) && st.tokens[c] == Ident(s)
    requires c < st.Last() && st.tokens[c + 1] != Char('(') && arg == Primary(st, c + 1)
    ensures Find(s, 1).None? ==> Unit(st, c) == Failed(Error(st.offsets[c], "function is not a unary operator '" + s + "'"))
    ensures Find(s, 1).Some? && arg.Failed? ==> Unit(st, c) == arg
    ensures Find(s, 1).Some? && arg.Parsed? ==> Unit(st, c) == Parsed(Call(Find(s, 1).value, [arg.value]), arg.cursor)
  {
    assert st.Advance(c) == c + 1 && st.StartBefore(c + 1) == st.offsets[c];
  }

  lemma {:induction false} UnitRoutine(st: Stream, c: nat, s: string)
    requires Within(st, c) && st.tokens[c] == Ident(s)
    requires c < st.Last() && st.tokens[c + 1] == Char('(')
    ensures Unit(st, c) == RoutineCall(st, c + 1, s)
  {
  }

  lemma {:induction false} ShorthandStops(st: Stream, c: nat, lhs: Ast)
    requires Within(st, c) && NonEmptyCalls(lhs) && EndsPrimary(st.tokens[c])
    ensures Shorthand(st, c, lhs) == Parsed(lhs, c)
  {
  }

  lemma {:induction false} ShorthandStep(st: Stream, c: nat, lhs: Ast, rhs: Step<Ast>)
    requires Within(st, c) && NonEmptyCalls(lhs) && !EndsPrimary(st.tokens[c]) && rhs == Primary(st, c)
    ensures rhs.Failed? ==> Shorthand(st, c, lhs) == rhs
    ensures rhs.Parsed? ==> Shorthand(st, c, lhs) == Parsed(Call(MULTIPLICATION, [lhs, rhs.value]), rhs.cursor)
  {
  }

  lemma {:induction false} ArgsClose(st: Stream, c: nat, args: seq<Ast>, first: bool)
    requires Within(st, c) && forall i :: 0 <= i < |args| ==> NonEmptyCalls(args[i])
    requires st.tokens[c] == Char(')')
    ensures Args(st, c, args, first) == Parsed(args, c)
  {
  }

  lemma {:induction false} ArgsFirst(st: Stream, c: nat, e: Step<Ast>)
    requires Within(st, c) && st.tokens[c] != Char(')') && e == Expression(st, c)
    ensures e.Failed? ==> Args(st, c, [], true) == Step.Failed(e.error)
    ensures e.Parsed? ==> Args(st, c, [], true) == Args(st, e.cursor, [e.value], false)
  {
    if e.Parsed? {
      assert [] + [e.value] == [e.value];
    }
  }

  lemma {:induction false} ArgsNext(st: Stream, c: nat, args: seq<Ast>, e: Step<Ast>)
    requires Within(st, c) && forall i :: 0 <= i < |args| ==> NonEmptyCalls(args[i])
    requires st.tokens[c] == Char(',') && c < st.Last() && e == Expression(st, c + 1)
    ensures e.Failed? ==> Args(st, c, args, false) == Step.Failed(e.error)
    ensures e.Parsed? ==> Args(st, c, args, false) == Args(st, e.cursor, args + [e.value], false)
  {
  }

  lemma {:induction false} RoutineStep(st: Stream, c: nat, s: string, a: Step<seq<Ast>>)
    requires Within(st, c) && st.tokens[c] == Char('(') && c < st.Last() && a == Args(st, c + 1, [], true)
    ensures a.Failed? ==> RoutineCall(st, c, s) == Step.Failed(a.error)
    ensures a.Parsed? ==> RoutineCall(st, c, s) == Overload(s, a.value, st.StartBefore(st.Advance(a.cursor)), st.Advance(a.cursor))
  {
  }

  lemma {:induction false} ParseStreamStep(st: Stream, e: Step<Ast>, format: DecimalFormatter)
    requires st.Ok() && e == Expression(st, 0)
    ensures e.Failed? ==> ParseStream(st, format) == Err(e.error)
    ensures e.Parsed? && st.tokens[e.cursor].EOL? ==> ParseStream(st, format) == Ok(e.value)
    ensures e.Parsed? && !st.tokens[e.cursor].EOL? ==>
              ParseStream(st, format) == Err(Error(st.StartBefore(st.Advance(e.cursor)), "unexpected '" + TokenString(st.tokens[e.cursor], format) + "'"))
  {
  }

  /** parse_primary at EOL fails at once, whatever follows. */
  lemma {:induction false} PrimaryAtEnd(st: Stream, c: nat)
    requires Within(st, c) && st.tokens[c].EOL?
    ensures Primary(st, c) == Failed(Error(st.StartBefore(st.Advance(c)), "expected an expression"))
  {
  }

  // ---------------------------------------------------------------------------
  // Small streams. Columns are left symbolic: only the token sequence matters.

  /** A token that cannot start a primary ends a shorthand product. */
  predicate EndsPrimary(t: Token)
  {
    !(t.Name? || t.Number? || t == Char('('))
  }

  /** A name followed by a token that does not start a primary parses as that variable alone. */
  lemma {:induction false} VariableAt(st: Stream, c: nat, x: string)
    requires Within(st, c) && c < st.Last()
    requires st.tokens[c] == Name(x) && EndsPrimary(st.tokens[c + 1])
    ensures Primary(st, c) == Parsed(Variable(x), c + 1)
  {
    UnitName(st, c, x);
    PrimaryStep(st, c, Unit(st, c));
    ShorthandStops(st, c + 1, Variable(x));
  }

  /** The same for a numeral. */
  lemma {:induction false} LiteralAt(st: Stream, c: nat, v: Num)
    requires Within(st, c) && c < st.Last()
    requires st.tokens[c] == Number(v) && EndsPrimary(st.tokens[c + 1])
    ensures Primary(st, c) == Parsed(Literal(v), c + 1)
  {
    UnitNumber(st, c, v);
    PrimaryStep(st, c, Unit(st, c));
    ShorthandStops(st, c + 1, Literal(v));
  }

  /** The empty expression: the first primary meets EOL. */
  lemma {:induction false} NothingToParse(st: Stream, format: DecimalFormatter)
    requires st.Ok() && st.tokens == [EOL]
    ensures ParseStream(st, format) == Err(Error(st.offsets[0], "expected an expression"))
  {
    PrimaryAtEnd(st, 0);
    ExpressionStep(st, 0, Primary(st, 0));
    ParseStreamStep(st, Expression(st, 0), format);
  }

  /** One round of the outer climb over `op name`, where the inner loop does not take the operator after the name. */
  lemma {:induction false} RoundOverName(st: Stream, c: nat, lhs: Ast, f: FnRef, b: string)
    requires Within(st, c) && c + 2 <= st.Last() && NonEmptyCalls(lhs)
    requires ArityMatch(Fn(f), 2) && Le(LOWEST, Fn(f).precedence)
    requires st.tokens[c + 1] == Name(b) && EndsPrimary(st.tokens[c + 2])
    requires PeekFunction(st, c + 2, 2).None? || !BindsTighter(PeekFunction(st, c + 2, 2).value, f)
    ensures Round(st, c, lhs, f, LOWEST) == Parsed(Call(f, [lhs, Variable(b)]), c + 2)
  {
    assert c + 1 < st.Last();
    VariableAt(st, c + 1, b);
    assert Primary(st, c + 1) == Parsed(Variable(b), c + 2);
    RoundOverLeaf(st, c, lhs, f, Variable(b));
  }

  /** A round whose operand is a single token and whose inner loop takes nothing. */
  lemma {:induction false} RoundOverLeaf(st: Stream, c: nat, lhs: Ast, f: FnRef, rhs: Ast)
    requires Within(st, c) && c + 2 <= st.Last() && NonEmptyCalls(lhs)
    requires ArityMatch(Fn(f), 2) && Le(LOWEST, Fn(f).precedence)
    requires Primary(st, c + 1) == Parsed(rhs, c + 2)
    requires PeekFunction(st, c + 2, 2).None? || !BindsTighter(PeekFunction(st, c + 2, 2).value, f)
    ensures Round(st, c, lhs, f, LOWEST) == Parsed(Call(f, [lhs, rhs]), c + 2)
  {
    InnerStops(st, c + 2, rhs, f, LOWEST);
    RoundCombines(st, c, lhs, f, LOWEST, rhs, c + 2, rhs, c + 2);
  }

  /** A round whose operand and inner climb both succeed combines the left operand with the climbed one. */
  lemma {:induction false} RoundCombines(st: Stream, c: nat, lhs: Ast, f: FnRef, min: Level, rhs: Ast, c2: nat, rhs2: Ast, c3: nat)
    requires Within(st, c) && c < st.Last() && NonEmptyCalls(lhs)
    requires ArityMatch(Fn(f), 2) && Le(min, Fn(f).precedence)
    requires Primary(st, c + 1) == Parsed(rhs, c2)
    requires Inner(st, c2, rhs, f, min) == Parsed(rhs2, c3)
    ensures Round(st, c, lhs, f, min) == Parsed(Call(f, [lhs, rhs2]), c3)
  {
    assert st.Advance(c) == c + 1;
    RoundThrough(st, c, lhs, f, min, Parsed(rhs, c2), Parsed(rhs2, c3));
  }

  /** A pass over `op b` at the lowest level that combines: the climb goes on after b. */
  lemma {:induction false} ClimbAfterName(st: Stream, c: nat, lhs: Ast, f: FnRef, b: string)
    requires Within(st, c) && c + 2 <= st.Last() && NonEmptyCalls(lhs)
    requires Operator(st, c, None) == Some(f) && ArityMatch(Fn(f), 2)
    requires Round(st, c, lhs, f, LOWEST) == Parsed(Call(f, [lhs, Variable(b)]), c + 2)
    ensures Climb(st, c, lhs, LOWEST, None) == Climb(st, c + 2, Call(f, [lhs, Variable(b)]), LOWEST, None)
  {
    LowestIsBottom(Fn(f).precedence);
    ClimbThrough(st, c, lhs, LOWEST, None, f);
  }

  /** One outer-loop pass at the lowest level that fails: the climb fails with it. */
  lemma {:induction false} ClimbRoundFails(st: Stream, c: nat, lhs: Ast, f: FnRef, e: Error)
    requires Within(st, c) && NonEmptyCalls(lhs)
    requires Operator(st, c, None) == Some(f) && ArityMatch(Fn(f), 2)
    requires Round(st, c, lhs, f, LOWEST) == Failed(e)
    ensures Climb(st, c, lhs, LOWEST, None) == Failed(e)
  {
    LowestIsBottom(Fn(f).precedence);
    ClimbThrough(st, c, lhs, LOWEST, None, f);
  }

  /** The climb over `op b`, where the token after b does not take b away. */
  lemma {:induction false} ClimbOverName(st: Stream, c: nat, lhs: Ast, f: FnRef, b: string)
    requires Within(st, c) && c + 2 <= st.Last() && NonEmptyCalls(lhs)
    requires Operator(st, c, None) == Some(f) && ArityMatch(Fn(f), 2)
    requires st.tokens[c + 1] == Name(b) && EndsPrimary(st.tokens[c + 2])
    requires PeekFunction(st, c + 2, 2).None? || !BindsTighter(PeekFunction(st, c + 2, 2).value, f)
    ensures Climb(st, c, lhs, LOWEST, None) == Climb(st, c + 2, Call(f, [lhs, Variable(b)]), LOWEST, None)
  {
    LowestIsBottom(Fn(f).precedence);
    RoundOverName(st, c, lhs, f, b);
    ClimbAfterName(st, c, lhs, f, b);
  }

  /**
   * `a op b op c` for a binary operator that is not right-associative nests
   * to the left: the inner loop does not take an operator of the same level.
   */
  lemma {:induction false} LeftNesting(st: Stream, a: string, op: string, b: string, d: string, f: FnRef, format: DecimalFormatter)
    requires st.Ok() && st.tokens == [Name(a), Ident(op), Name(b), Ident(op), Name(d), EOL]
    requires Find(op, 2) == Some(f) && Fn(f).associativity != Associativity.RIGHT
    ensures ParseStream(st, format) == Ok(Call(f, [Call(f, [Variable(a), Variable(b)]), Variable(d)]))
  {
    var ab := Call(f, [Variable(a), Variable(b)]);
    assert st.Last() == 5 && st.tokens[1] == Ident(op) && st.tokens[3] == Ident(op) && st.tokens[5] == EOL;
    OperatorAt(st, 1, op, f);
    OperatorAt(st, 3, op, f);
    assert !BindsTighter(f, f);
    ExpressionOverName(st, a);
    ClimbOverName(st, 1, Variable(a), f, b);
    ClimbOverName(st, 3, ab, f, d);
    ClimbStops(st, 5, Call(f, [ab, Variable(d)]), LOWEST, None);
    ParseStreamStep(st, Expression(st, 0), format);
  }

  /** An identifier with a binary entry is the operator the outer loop sees. */
  lemma {:induction false} OperatorAt(st: Stream, c: nat, op: string, f: FnRef)
    requires Within(st, c) && st.tokens[c] == Ident(op) && Find(op, 2) == Some(f)
    ensures PeekFunction(st, c, 2) == Some(f) && Operator(st, c, None) == Some(f) && ArityMatch(Fn(f), 2)
  {
  }

  /** An expression that starts with a name climbs from just after it. */
  lemma {:induction false} ExpressionOverName(st: Stream, a: string)
    requires st.Ok() && 1 <= st.Last() && st.tokens[0] == Name(a) && EndsPrimary(st.tokens[1])
    ensures Expression(st, 0) == Climb(st, 1, Variable(a), LOWEST, None)
  {
    VariableAt(st, 0, a);
    ExpressionStep(st, 0, Primary(st, 0));
  }

  /** `a - b - c` is `-(-(a, b), c)`. */
  lemma {:induction false} SubtractionNestsLeft(st: Stream, a: string, b: string, d: string, format: DecimalFormatter)
    requires st.Ok() && st.tokens == [Name(a), Ident("-"), Name(b), Ident("-"), Name(d), EOL]
    ensures ParseStream(st, format) == Ok(Call(6, [Call(6, [Variable(a), Variable(b)]), Variable(d)]))
  {
    FindMinus();
    LeftNesting(st, a, "-", b, d, 6, format);
  }

  /** A climb that must take `g` again at the last token fails there: its operand would be EOL. */
  lemma {:induction false} ClimbAtEnd(st: Stream, lhs: Ast, min: Level, g: FnRef)
    requires st.Ok() && NonEmptyCalls(lhs)
    requires ArityMatch(Fn(g), 2) && Le(min, Fn(g).precedence)
    ensures Climb(st, st.Last(), lhs, min, Some(g)) == Failed(Error(st.StartBefore(st.Last()), "expected an expression"))
  {
    var e := Error(st.StartBefore(st.Last()), "expected an expression");
    assert st.Advance(st.Last()) == st.Last();
    ClimbThrough(st, st.Last(), lhs, min, Some(g), g);
    PrimaryAtEnd(st, st.Last());
    RoundThrough(st, st.Last(), lhs, g, min, Failed(e), Failed(e));
  }

  /** The inner climb of `y op' z` at the end of the stream: it combines y and z, then fails at EOL. */
  lemma {:induction false} InnerClimbAtEnd(st: Stream, x: Num, p: string, y: Num, t: string, z: Num, f: FnRef, g: FnRef)
    requires st.Ok() && st.tokens == [Number(x), Ident(p), Number(y), Ident(t), Number(z), EOL]
    requires ArityMatch(Fn(f), 2) && PeekFunction(st, 3, 2) == Some(g) && BindsTighter(g, f)
    ensures Inner(st, 3, Literal(y), f, LOWEST) == Failed(Error(st.offsets[4], "expected an expression"))
  {
    var min := Next(LOWEST);
    var yz := Call(g, [Literal(y), Literal(z)]);
    LowestIsBottom(Fn(f).precedence);
    ClimbsHigher(LOWEST, f, g);
    ClimbThrough(st, 3, Literal(y), min, Some(g), g);
    assert st.Last() == 5 && st.Advance(3) == 4;
    LiteralAt(st, 4, z);
    InnerStops(st, 5, Literal(z), g, min);
    RoundThrough(st, 3, Literal(y), g, min, Parsed(Literal(z), 5), Parsed(Literal(z), 5));
    ClimbAtEnd(st, yz, min, g);
    InnerEntersClimb(st, 3, Literal(y), f, LOWEST, g, Error(st.offsets[4], "expected an expression"));
  }

  /** `x op y ...` where the inner loop after y fails: the whole parse fails with its error. */
  lemma {:induction false} InnerFailureEndsParse(st: Stream, x: Num, p: string, y: Num, t: string, z: Num, f: FnRef, e: Error, format: DecimalFormatter)
    requires st.Ok() && st.tokens == [Number(x), Ident(p), Number(y), Ident(t), Number(z), EOL]
    requires PeekFunction(st, 1, 2) == Some(f)
    requires Inner(st, 3, Literal(y), f, LOWEST) == Failed(e)
    ensures ParseStream(st, format) == Err(e)
  {
    assert st.Last() == 5 && st.tokens[0] == Number(x) && st.tokens[2] == Number(y) && st.tokens[3] == Ident(t);
    assert Operator(st, 1, None) == Some(f) && ArityMatch(Fn(f), 2);
    ExpressionOverNumber(st, x);
    RoundOverNumberFails(st, 1, Literal(x), f, y, e);
    ClimbRoundFails(st, 1, Literal(x), f, e);
    ParseStreamStep(st, Expression(st, 0), format);
  }

  /** An expression that starts with a number climbs from just after it. */
  lemma {:induction false} ExpressionOverNumber(st: Stream, x: Num)
    requires st.Ok() && 1 <= st.Last() && st.tokens[0] == Number(x) && EndsPrimary(st.tokens[1])
    ensures Expression(st, 0) == Climb(st, 1, Literal(x), LOWEST, None)
  {
    LiteralAt(st, 0, x);
    ExpressionStep(st, 0, Primary(st, 0));
  }

  /** A pass over `op y` whose inner climb fails fails with the same error. */
  lemma {:induction false} RoundOverNumberFails(st: Stream, c: nat, lhs: Ast, f: FnRef, y: Num, e: Error)
    requires Within(st, c) && c + 2 <= st.Last() && NonEmptyCalls(lhs)
    requires PeekFunction(st, c, 2) == Some(f) && ArityMatch(Fn(f), 2)
    requires st.tokens[c + 1] == Number(y) && EndsPrimary(st.tokens[c + 2])
    requires Inner(st, c + 2, Literal(y), f, LOWEST) == Failed(e)
    ensures Round(st, c, lhs, f, LOWEST) == Failed(e)
  {
    LowestIsBottom(Fn(f).precedence);
    LiteralAt(st, c + 1, y);
    RoundInnerFails(st, c, lhs, f, LOWEST, Literal(y), c + 2, e);
  }

  /** A round whose inner climb fails fails with the same error. */
  lemma {:induction false} RoundInnerFails(st: Stream, c: nat, lhs: Ast, f: FnRef, min: Level, rhs: Ast, c2: nat, e: Error)
    requires Within(st, c) && c < st.Last() && NonEmptyCalls(lhs)
    requires ArityMatch(Fn(f), 2) && Le(min, Fn(f).precedence)
    requires Primary(st, c + 1) == Parsed(rhs, c2)
    requires Inner(st, c2, rhs, f, min) == Failed(e)
    ensures Round(st, c, lhs, f, min) == Failed(e)
  {
    assert st.Advance(c) == c + 1;
    RoundThrough(st, c, lhs, f, min, Parsed(rhs, c2), Failed(e));
  }

  /**
   * `x op y op' z` where op' binds tighter than op (or is op itself and
   * right-associative) fails: the inner climb re-applies op' after z and
   * finds EOL, so the error is "expected an expression" at the column of z.
   */
  lemma {:induction false} TighterOperatorFails(st: Stream, x: Num, p: string, y: Num, t: string, z: Num, f: FnRef, g: FnRef, format: DecimalFormatter)
    requires st.Ok() && st.tokens == [Number(x), Ident(p), Number(y), Ident(t), Number(z), EOL]
    requires Find(p, 2) == Some(f) && Find(t, 2) == Some(g) && BindsTighter(g, f)
    ensures ParseStream(st, format) == Err(Error(st.offsets[4], "expected an expression"))
  {
    InnerClimbAtEnd(st, x, p, y, t, z, f, g);
    InnerFailureEndsParse(st, x, p, y, t, z, f, Error(st.offsets[4], "expected an expression"), format);
  }

  /** `1 + 2 * 3` is a syntax error as the climb is written. */
  lemma {:induction false} SumOfProductFails(st: Stream, x: Num, y: Num, z: Num, format: DecimalFormatter)
    requires st.Ok() && st.tokens == [Number(x), Ident("+"), Number(y), Ident("*"), Number(z), EOL]
    ensures ParseStream(st, format) == Err(Error(st.offsets[4], "expected an expression"))
  {
    FindPlus();
    MultiplicationFound();
    ProductBindsTighter();
    TighterOperatorFails(st, x, "+", y, "*", z, 5, MULTIPLICATION, format);
  }

  /** '*' (level 2) is tighter than '+' (level 3). */
  lemma {:induction false} ProductBindsTighter()
    ensures BindsTighter(MULTIPLICATION, 5)
  {
    assert Fn(5).precedence == L3 && Fn(MULTIPLICATION).precedence == L2;
  }

  /** '**' is right-associative, so it binds tighter than itself. */
  lemma {:induction false} PowerBindsTighter()
    ensures BindsTighter(1, 1)
  {
    assert Fn(1).associativity == RIGHT;
  }

  /** `2 ** 3 ** 2` is a syntax error too: a right-associative operator re-enters the inner climb. */
  lemma {:induction false} PowerChainFails(st: Stream, x: Num, y: Num, z: Num, format: DecimalFormatter)
    requires st.Ok() && st.tokens == [Number(x), Ident("**"), Number(y), Ident("**"), Number(z), EOL]
    ensures ParseStream(st, format) == Err(Error(st.offsets[4], "expected an expression"))
  {
    FindPower();
    PowerBindsTighter();
    TighterOperatorFails(st, x, "**", y, "**", z, 1, 1, format);
  }

  /** Juxtaposed primaries multiply, nesting to the right: `5 x y` is `*(5, *(x, y))`. */
  lemma {:induction false} ShorthandNestsRight(st: Stream, n: Num, x: string, y: string, format: DecimalFormatter)
    requires st.Ok() && st.tokens == [Number(n), Name(x), Name(y), EOL]
    ensures ParseStream(st, format) == Ok(Call(MULTIPLICATION, [Literal(n), Call(MULTIPLICATION, [Variable(x), Variable(y)])]))
  {
    var xy := Call(MULTIPLICATION, [Variable(x), Variable(y)]);
    var all := Call(MULTIPLICATION, [Literal(n), xy]);
    VariableAt(st, 2, y);
    UnitName(st, 1, x);
    ShorthandStep(st, 2, Variable(x), Primary(st, 2));
    PrimaryStep(st, 1, Unit(st, 1));
    UnitNumber(st, 0, n);
    ShorthandStep(st, 1, Literal(n), Primary(st, 1));
    PrimaryStep(st, 0, Unit(st, 0));
    ExpressionStep(st, 0, Primary(st, 0));
    ClimbStops(st, 3, all, LOWEST, None);
    ParseStreamStep(st, Expression(st, 0), format);
  }

  /** An identifier not followed by '(' is a prefix operator applied to one primary. */
  lemma {:induction false} PrefixApplies(st: Stream, s: string, n: Num, f: FnRef, format: DecimalFormatter)
    requires st.Ok() && st.tokens == [Ident(s), Number(n), EOL]
    requires Find(s, 1) == Some(f)
    ensures ParseStream(st, format) == Ok(Call(f, [Literal(n)]))
  {
    LiteralAt(st, 1, n);
    UnitPrefix(st, 0, s, Primary(st, 1));
    PrimaryStep(st, 0, Unit(st, 0));
    CatalogShapes(f);
    ShorthandStops(st, 2, Call(f, [Literal(n)]));
    ExpressionStep(st, 0, Primary(st, 0));
    ClimbStops(st, 2, Call(f, [Literal(n)]), LOWEST, None);
    ParseStreamStep(st, Expression(st, 0), format);
  }

  /** `sqrt 4` is `sqrt(4)`. */
  lemma {:induction false} SquareRootAsPrefix(st: Stream, n: Num, format: DecimalFormatter)
    requires st.Ok() && st.tokens == [Ident(Fn(17).identifier), Number(n), EOL]
    ensures ParseStream(st, format) == Ok(Call(17, [Literal(n)]))
  {
    FindSqrt();
    PrefixApplies(st, Fn(17).identifier, n, 17, format);
  }

  /** An identifier with no single-argument entry cannot be used as a prefix. */
  lemma {:induction false} PrefixRejected(st: Stream, s: string, n: Num, format: DecimalFormatter)
    requires st.Ok() && st.tokens == [Ident(s), Number(n), EOL]
    requires Find(s, 1) == None
    ensures ParseStream(st, format) == Err(Error(st.offsets[0], "function is not a unary operator '" + s + "'"))
  {
    UnitPrefix(st, 0, s, Primary(st, 1));
    PrimaryStep(st, 0, Unit(st, 0));
    ExpressionStep(st, 0, Primary(st, 0));
    ParseStreamStep(st, Expression(st, 0), format);
  }

  /** `+ 3` is rejected. */
  lemma {:induction false} PlusIsNotPrefix(st: Stream, n: Num, format: DecimalFormatter)
    requires st.Ok() && st.tokens == [Ident("+"), Number(n), EOL]
    ensures ParseStream(st, format) == Err(Error(st.offsets[0], "function is not a unary operator '" + "+" + "'"))
  {
    FindPlus();
    PrefixRejected(st, "+", n, format);
  }

  /** A call with no arguments never resolves, whatever the identifier: no catalog entry takes zero arguments. */
  lemma {:induction false} EmptyCallFails(st: Stream, c: nat, s: string)
    requires Within(st, c) && c + 1 <= st.Last()
    requires st.tokens[c] == Char('(') && st.tokens[c + 1] == Char(')')
    ensures RoutineCall(st, c, s) == Failed(Error(st.offsets[c + 1], "no overload found for '" + s + "' taking " + NatToString(0) + " arguments"))
  {
    ArgsClose(st, c + 1, [], true);
    RoutineWithArgs(st, c, s, [], c + 1);
    NoNullaryLookup(s);
    OverloadMissing(s, [], st.offsets[c + 1], c + 2);
  }

  /** Once the arguments are read up to ')' at `c2`, the call is the overload lookup just after it. */
  lemma {:induction false} RoutineWithArgs(st: Stream, c: nat, s: string, args: seq<Ast>, c2: nat)
    requires Within(st, c) && st.tokens[c] == Char('(') && c < st.Last()
    requires Args(st, c + 1, [], true) == Parsed(args, c2)
    requires c2 < st.Last()
    ensures forall i :: 0 <= i < |args| ==> NonEmptyCalls(args[i])
    ensures RoutineCall(st, c, s) == Overload(s, args, st.offsets[c2], c2 + 1)
  {
    assert st.Advance(c2) == c2 + 1 && st.StartBefore(c2 + 1) == st.offsets[c2];
    RoutineStep(st, c, s, Args(st, c + 1, [], true));
  }

  /** Without an entry for the narrowed count, the call is rejected with the count in the message. */
  lemma {:induction false} OverloadMissing(s: string, args: seq<Ast>, column: nat, c: nat)
    requires forall i :: 0 <= i < |args| ==> NonEmptyCalls(args[i])
    requires Find(s, |args| % 256) == None
    ensures Overload(s, args, column, c) == Failed(Error(column, "no overload found for '" + s + "' taking " + NatToString(|args|) + " arguments"))
  {
  }

  /** So `min()` fails: the whole input is rejected at the column of '('. */
  lemma {:induction false} EmptyRoutineRejected(st: Stream, s: string, format: DecimalFormatter)
    requires st.Ok() && st.tokens == [Ident(s), Char('('), Char(')'), EOL]
    ensures ParseStream(st, format) == Err(Error(st.offsets[2], "no overload found for '" + s + "' taking " + NatToString(0) + " arguments"))
  {
    EmptyCallFails(st, 1, s);
    UnitRoutine(st, 0, s);
    PrimaryStep(st, 0, Unit(st, 0));
    ExpressionStep(st, 0, Primary(st, 0));
    ParseStreamStep(st, Expression(st, 0), format);
  }

  /** The argument list `a, b)`: two expressions separated by ','. */
  lemma {:induction false} ArgsOfTwo(st: Stream, s: string, a: string, b: string)
    requires st.Ok() && st.tokens == [Ident(s), Char('('), Name(a), Char(','), Name(b), Char(')'), EOL]
    ensures Args(st, 2, [], true) == Parsed([Variable(a), Variable(b)], 5)
  {
    VariableAt(st, 2, a);
    ExpressionStep(st, 2, Primary(st, 2));
    ClimbStops(st, 3, Variable(a), LOWEST, None);
    ArgsFirst(st, 2, Expression(st, 2));
    VariableAt(st, 4, b);
    ExpressionStep(st, 4, Primary(st, 4));
    ClimbStops(st, 5, Variable(b), LOWEST, None);
    ArgsNext(st, 3, [Variable(a)], Expression(st, 4));
    assert [Variable(a)] + [Variable(b)] == [Variable(a), Variable(b)];
    ArgsClose(st, 5, [Variable(a), Variable(b)], false);
  }

  /** The call `s(a, b)` resolves to the two-argument entry of `s`. */
  lemma {:induction false} CallOfTwo(st: Stream, s: string, a: string, b: string, f: FnRef)
    requires st.Ok() && st.tokens == [Ident(s), Char('('), Name(a), Char(','), Name(b), Char(')'), EOL]
    requires Find(s, 2) == Some(f)
    ensures RoutineCall(st, 1, s) == Parsed(Call(f, [Variable(a), Variable(b)]), 6)
  {
    ArgsOfTwo(st, s, a, b);
    RoutineStep(st, 1, s, Args(st, 2, [], true));
    var args := [Variable(a), Variable(b)];
    assert |args| == 2;
    OverloadFound(s, args, st.offsets[5], 6, f);
  }

  /** An argument count below 256 survives the narrowing unchanged. */
  lemma {:induction false} OverloadFound(s: string, args: seq<Ast>, column: nat, c: nat, f: FnRef)
    requires forall i :: 0 <= i < |args| ==> NonEmptyCalls(args[i])
    requires |args| < 256 && Find(s, |args|) == Some(f)
    ensures Overload(s, args, column, c) == Parsed(Call(f, args), c)
  {
    assert |args| % 256 == |args|;
  }

  /** Arguments are separated by ',' and resolve the overload by their count. */
  lemma {:induction false} RoutineOfTwo(st: Stream, s: string, a: string, b: string, f: FnRef, format: DecimalFormatter)
    requires st.Ok() && st.tokens == [Ident(s), Char('('), Name(a), Char(','), Name(b), Char(')'), EOL]
    requires Find(s, 2) == Some(f)
    ensures ParseStream(st, format) == Ok(Call(f, [Variable(a), Variable(b)]))
  {
    var call := Call(f, [Variable(a), Variable(b)]);
    CallOfTwo(st, s, a, b, f);
    UnitRoutine(st, 0, s);
    PrimaryStep(st, 0, Unit(st, 0));
    ShorthandStops(st, 6, call);
    ExpressionStep(st, 0, Primary(st, 0));
    ClimbStops(st, 6, call, LOWEST, None);
    ParseStreamStep(st, Expression(st, 0), format);
  }

  /** A '(' whose expression is not followed by ')' fails at the column of the token before. */
  lemma {:induction false} UnclosedParenthesis(st: Stream, a: string, format: DecimalFormatter)
    requires st.Ok() && st.tokens == [Char('('), Name(a), EOL]
    ensures ParseStream(st, format) == Err(Error(st.offsets[1], "expected ')'"))
  {
    VariableAt(st, 1, a);
    ExpressionStep(st, 1, Primary(st, 1));
    ClimbStops(st, 2, Variable(a), LOWEST, None);
    UnitParenthesis(st, 0, Expression(st, 1));
    PrimaryStep(st, 0, Unit(st, 0));
    ExpressionStep(st, 0, Primary(st, 0));
    ParseStreamStep(st, Expression(st, 0), format);
  }

  /** A token left over after the expression is reported with its text. */
  lemma {:induction false} TrailingToken(st: Stream, a: string, format: DecimalFormatter)
    requires st.Ok() && st.tokens == [Name(a), Char(')'), EOL]
    ensures ParseStream(st, format) == Err(Error(st.offsets[1], "unexpected ')'"))
  {
    VariableAt(st, 0, a);
    ExpressionStep(st, 0, Primary(st, 0));
    ClimbStops(st, 1, Variable(a), LOWEST, None);
    ParseStreamStep(st, Expression(st, 0), format);
    assert "unexpected '" + [')'] + "'" == "unexpected ')'";
  }

  // ---------------------------------------------------------------------------
  // Error columns. Every error is raised at last_token_start(), so its column
  // is StartBefore(d) for a cursor d the routine reached.

  /** The column of `e` is last_token_start() at some cursor from `c` on. */
  predicate ReportedFrom(st: Stream, c: nat, e: Error)
    requires st.Ok()
  {
    exists d :: c <= d <= st.Last() && e.column == st.StartBefore(d)
  }

  lemma {:induction false} ReportedAt(st: Stream, c: nat, d: nat, e: Error)
    requires st.Ok() && c <= d <= st.Last() && e.column == st.StartBefore(d)
    ensures ReportedFrom(st, c, e)
  {
  }

  lemma {:induction false} ReportedLater<T>(st: Stream, c: nat, d: nat, r: Step<T>)
    requires st.Ok() && c <= d <= st.Last()
    requires r.Failed? ==> ReportedFrom(st, d, r.error)
    ensures r.Failed? ==> ReportedFrom(st, c, r.error)
  {
    if r.Failed? {
      var k :| d <= k <= st.Last() && r.error.column == st.StartBefore(k);
      ReportedAt(st, c, k, r.error);
    }
  }

  lemma {:induction false} ExpressionReported(st: Stream, c: nat)
    requires Within(st, c)
    ensures Expression(st, c).Failed? ==> ReportedFrom(st, c, Expression(st, c).error)
    decreases st.Last() - c, 3
  {
    PrimaryReported(st, c);
    var p := Primary(st, c);
    if p.Parsed? {
      ClimbReported(st, p.cursor, p.value, LOWEST, None);
      ReportedLater(st, c, p.cursor, Climb(st, p.cursor, p.value, LOWEST, None));
    }
  }

  lemma {:induction false} ClimbReported(st: Stream, c: nat, lhs: Ast, min: Level, from: Option<FnRef>)
    requires Within(st, c) && NonEmptyCalls(lhs)
    requires from.Some? ==> ArityMatch(Fn(from.value), 2)
    ensures Climb(st, c, lhs, min, from).Failed? ==> ReportedFrom(st, c, Climb(st, c, lhs, min, from).error)
    decreases st.Last() - c, 3
  {
    var fnOpt := Operator(st, c, from);
    if fnOpt.Some? && !Lt(Fn(fnOpt.value).precedence, min) {
      var f := fnOpt.value;
      ClimbThrough(st, c, lhs, min, from, f);
      RoundReported(st, c, lhs, f, min);
      var round := Round(st, c, lhs, f, min);
      if round.Parsed? {
        ClimbReported(st, round.cursor, round.value, min, from);
        ReportedLater(st, c, round.cursor, Climb(st, round.cursor, round.value, min, from));
      }
    }
  }

  lemma {:induction false} RoundReported(st: Stream, c: nat, lhs: Ast, f: FnRef, min: Level)
    requires Within(st, c) && NonEmptyCalls(lhs)
    requires ArityMatch(Fn(f), 2) && Le(min, Fn(f).precedence)
    ensures Round(st, c, lhs, f, min).Failed? ==> ReportedFrom(st, c, Round(st, c, lhs, f, min).error)
    decreases st.Last() - c, 2
  {
    var c1 := st.Advance(c);
    PrimaryReported(st, c1);
    var operand := Primary(st, c1);
    ReportedLater(st, c, c1, operand);
    if operand.Parsed? {
      InnerReported(st, operand.cursor, operand.value, f, min);
      var tighter := Inner(st, operand.cursor, operand.value, f, min);
      ReportedLater(st, c, operand.cursor, tighter);
      RoundThrough(st, c, lhs, f, min, operand, tighter);
    } else {
      RoundThrough(st, c, lhs, f, min, operand, operand);
    }
  }

  lemma {:induction false} InnerReported(st: Stream, c: nat, rhs: Ast, f: FnRef, min: Level)
    requires Within(st, c) && NonEmptyCalls(rhs)
    requires ArityMatch(Fn(f), 2) && Le(min, Fn(f).precedence)
    ensures Inner(st, c, rhs, f, min).Failed? ==> ReportedFrom(st, c, Inner(st, c, rhs, f, min).error)
    decreases st.Last() - c, 4
  {
    var sub := PeekFunction(st, c, 2);
    if sub.Some? && BindsTighter(sub.value, f) {
      ClimbsHigher(min, f, sub.value);
      ClimbReported(st, c, rhs, Next(min), sub);
      var climbed := Climb(st, c, rhs, Next(min), sub);
      if climbed.Parsed? {
        InnerReported(st, climbed.cursor, climbed.value, f, min);
        ReportedLater(st, c, climbed.cursor, Inner(st, climbed.cursor, climbed.value, f, min));
      }
    }
  }

  lemma {:induction false} PrimaryReported(st: Stream, c: nat)
    requires Within(st, c)
    ensures Primary(st, c).Failed? ==> ReportedFrom(st, c, Primary(st, c).error)
    decreases st.Last() - c, 1
  {
    if st.tokens[c].EOL? {
      PrimaryAtEnd(st, c);
      ReportedAt(st, c, st.Advance(c), Primary(st, c).error);
    } else {
      UnitReported(st, c);
      var u := Unit(st, c);
      if u.Parsed? {
        ShorthandReported(st, u.cursor, u.value);
        ReportedLater(st, c, u.cursor, Shorthand(st, u.cursor, u.value));
      }
    }
  }

  lemma {:induction false} UnitReported(st: Stream, c: nat)
    requires Within(st, c) && !st.tokens[c].EOL?
    ensures Unit(st, c).Failed? ==> ReportedFrom(st, c, Unit(st, c).error)
    decreases st.Last() - c, 0
  {
    var token := st.tokens[c];
    var c1 := st.Advance(c);
    var r := Unit(st, c);
    if token == Char('(') {
      ExpressionReported(st, c1);
      var nested := Expression(st, c1);
      ReportedLater(st, c, c1, nested);
      if nested.Parsed? && st.tokens[nested.cursor] != Char(')') {
        ReportedAt(st, c, st.Advance(nested.cursor), r.error);
      }
    } else if token.Ident? {
      if st.tokens[c1] == Char('(') {
        RoutineCallReported(st, c1, token.text);
        ReportedLater(st, c, c1, RoutineCall(st, c1, token.text));
      } else if Find(token.text, 1).None? {
        ReportedAt(st, c, c1, r.error);
      } else {
        PrimaryReported(st, c1);
        ReportedLater(st, c, c1, Primary(st, c1));
      }
    } else if token.Char? {
      ReportedAt(st, c, c1, r.error);
    }
  }

  lemma {:induction false} RoutineCallReported(st: Stream, c: nat, identifier: string)
    requires Within(st, c) && st.tokens[c] == Char('(')
    ensures RoutineCall(st, c, identifier).Failed? ==> ReportedFrom(st, c, RoutineCall(st, c, identifier).error)
    decreases st.Last() - c, 5
  {
    var c1 := st.Advance(c);
    ArgsReported(st, c1, [], true);
    var a := Args(st, c1, [], true);
    ReportedLater(st, c, c1, a);
    if a.Parsed? {
      var c3 := st.Advance(a.cursor);
      if Find(identifier, |a.value| % 256).None? {
        ReportedAt(st, c, c3, RoutineCall(st, c, identifier).error);
      }
    }
  }

  lemma {:induction false} ArgsReported(st: Stream, c: nat, args: seq<Ast>, first: bool)
    requires Within(st, c)
    requires forall i :: 0 <= i < |args| ==> NonEmptyCalls(args[i])
    ensures Args(st, c, args, first).Failed? ==> ReportedFrom(st, c, Args(st, c, args, first).error)
    decreases st.Last() - c, 4
  {
    if st.tokens[c] != Char(')') {
      var c1 := st.Advance(c);
      if first || st.tokens[c] == Char(',') {
        var start := if first then c else c1;
        ExpressionReported(st, start);
        var e := Expression(st, start);
        ReportedLater(st, c, start, e);
        if e.Parsed? {
          ArgsReported(st, e.cursor, args + [e.value], false);
          ReportedLater(st, c, e.cursor, Args(st, e.cursor, args + [e.value], false));
        }
      } else {
        ReportedAt(st, c, c1, Args(st, c, args, first).error);
      }
    }
  }

  lemma {:induction false} ShorthandReported(st: Stream, c: nat, lhs: Ast)
    requires Within(st, c) && NonEmptyCalls(lhs)
    ensures Shorthand(st, c, lhs).Failed? ==> ReportedFrom(st, c, Shorthand(st, c, lhs).error)
    decreases st.Last() - c, 3
  {
    if !EndsPrimary(st.tokens[c]) {
      PrimaryReported(st, c);
    }
  }

  /**
   * Every syntax error of parser::parse is reported at last_token_start():
   * its column is the start of the token before some cursor the parse
   * reached, so it is a token column and at most the column of EOL.
   */
  lemma {:induction false} ErrorsAtTokenStarts(st: Stream, format: DecimalFormatter)
    requires st.Ok()
    ensures ParseStream(st, format).Err? ==> ReportedFrom(st, 0, ParseStream(st, format).error)
    ensures ParseStream(st, format).Err? ==>
              exists k :: 0 <= k <= st.Last() && ParseStream(st, format).error.column == st.offsets[k]
    ensures ParseStream(st, format).Err? ==> ParseStream(st, format).error.column <= st.offsets[st.Last()]
  {
    ExpressionReported(st, 0);
    var e := Expression(st, 0);
    ParseStreamStep(st, e, format);
    if e.Parsed? && !st.tokens[e.cursor].EOL? {
      ReportedAt(st, 0, st.Advance(e.cursor), ParseStream(st, format).error);
    }
    if ParseStream(st, format).Err? {
      var err := ParseStream(st, format).error;
      var d :| 0 <= d <= st.Last() && err.column == st.StartBefore(d);
      var k := if d == 0 then 0 else d - 1;
      assert err.column == st.offsets[k];
      assert st.offsets[k] <= st.offsets[st.Last()];
    }
  }

  /** So a syntax error of parse(input) points into the input, or just past it at EOL. */
  lemma {:induction false} SyntaxErrorInInput(input: string, stod: DecimalParser, format: DecimalFormatter)
    ensures ParseInput(input, stod, format).Err? && ParseInput(input, stod, format).error.SyntaxError? ==>
              ParseInput(input, stod, format).error.error.column <= |input|
  {
    if NumbersParse(input, stod) {
      var st := LexStream(input, Identifiers(), stod);
      LexStreamOk(input, Identifiers(), stod);
      ErrorsAtTokenStarts(st, format);
    }
  }

  // ---------------------------------------------------------------------------
  // The remaining error paths

  /** A character token other than '(' cannot start a primary: "invalid token". */
  lemma {:induction false} UnitInvalidToken(st: Stream, c: nat, ch: char)
    requires Within(st, c) && st.tokens[c] == Char(ch) && ch != '('
    ensures c < st.Last()
    ensures Unit(st, c) == Failed(Error(st.offsets[c], "invalid token '" + [ch] + "'"))
    ensures Primary(st, c) == Unit(st, c)
  {
    assert st.Advance(c) == c + 1 && st.StartBefore(c + 1) == st.offsets[c];
  }

  /** `)` alone is rejected at its own column. */
  lemma {:induction false} InvalidTokenRejected(st: Stream, ch: char, format: DecimalFormatter)
    requires st.Ok() && st.tokens == [Char(ch), EOL] && ch != '('
    ensures ParseStream(st, format) == Err(Error(st.offsets[0], "invalid token '" + [ch] + "'"))
  {
    UnitInvalidToken(st, 0, ch);
    ExpressionStep(st, 0, Primary(st, 0));
    ParseStreamStep(st, Expression(st, 0), format);
  }

  /** After an argument, a token other than ',' or ')' is "expected ',' or ')'", reported at that token. */
  lemma {:induction false} ArgsBadSeparator(st: Stream, c: nat, args: seq<Ast>)
    requires Within(st, c) && forall i :: 0 <= i < |args| ==> NonEmptyCalls(args[i])
    requires st.tokens[c] != Char(')') && st.tokens[c] != Char(',')
    ensures Args(st, c, args, false) == Failed(Error(st.StartBefore(st.Advance(c)), "expected ',' or ')'"))
  {
  }

  /** `s(a;` fails at ';': arguments must be separated by ','. */
  lemma {:induction false} MissingSeparator(st: Stream, s: string, a: string, ch: char, format: DecimalFormatter)
    requires st.Ok() && st.tokens == [Ident(s), Char('('), Name(a), Char(ch), EOL]
    requires ch != ')' && ch != ',' && ch != '('
    ensures ParseStream(st, format) == Err(Error(st.offsets[3], "expected ',' or ')'"))
  {
    var e := Error(st.offsets[3], "expected ',' or ')'");
    VariableAt(st, 2, a);
    ExpressionStep(st, 2, Primary(st, 2));
    ClimbStops(st, 3, Variable(a), LOWEST, None);
    ArgsFirst(st, 2, Expression(st, 2));
    assert st.Advance(3) == 4 && st.StartBefore(4) == st.offsets[3];
    ArgsBadSeparator(st, 3, [Variable(a)]);
    RoutineStep(st, 1, s, Args(st, 2, [], true));
    UnitRoutine(st, 0, s);
    PrimaryStep(st, 0, Unit(st, 0));
    ExpressionStep(st, 0, Primary(st, 0));
    ParseStreamStep(st, Expression(st, 0), format);
  }
}
