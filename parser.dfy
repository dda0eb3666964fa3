/** Recursive descent with precedence climbing over the token buffer (src/parser/parser.cpp, src/parser/parser.h). */
module Parsing {
  import opened Basics
  import opened Precedence
  import opened Functions
  import opened Lexing
  import opened Tree

  /** parser::Error: the column of the token before the failure point, and a message. */
  datatype Error = Error(column: nat, msg: string)

  /** The outcome of one parse step: a value and the cursor after it, or a syntax error. */
  datatype Step<T> = Parsed(value: T, cursor: nat) | Failed(error: Error)

  predicate Within(st: Stream, c: nat)
  {
    st.Ok() && c <= st.Last()
  }

  /** peek_function: the function for the identifier under the cursor at `arity`, without consuming it. */
  function PeekFunction(st: Stream, c: nat, arity: Byte): (r: Option<FnRef>)
    requires Within(st, c)
    ensures r.Some? ==> st.tokens[c].Ident? && Find(st.tokens[c].text, arity) == r
    ensures r.Some? ==> ArityMatch(Fn(r.value), arity)
    ensures st.tokens[c].Ident? ==> r == Find(st.tokens[c].text, arity)
  {
    if st.tokens[c].Ident? then Find(st.tokens[c].text, arity) else None
  }

  /** The inner climb's test: `sub` binds tighter than `fn`, or as tightly when `fn` is right-associative. */
  predicate BindsTighter(sub: FnRef, fn: FnRef)
  {
    Lt(Fn(fn).precedence, Fn(sub).precedence)
    || (Fn(sub).precedence == Fn(fn).precedence && Fn(fn).associativity == Associativity.RIGHT)
  }

  /** An operator that binds tighter than one at or above `min` is at or above next(min). */
  lemma {:induction false} ClimbsHigher(min: Level, fn: FnRef, sub: FnRef)
    requires ArityMatch(Fn(fn), 2) && Le(min, Fn(fn).precedence) && BindsTighter(sub, fn)
    ensures Le(Next(min), Fn(sub).precedence)
  {
    NextSteps(min);
    if Fn(fn).associativity == Associativity.RIGHT && Fn(sub).precedence == Fn(fn).precedence {
      RightAssociativeIsTightest(fn);
      LowestIsBottom(Next(min));
    }
  }

  // ---------------------------------------------------------------------------
  // Specification, one function per parse routine. The decreases clauses pair
  // the tokens left before EOL with a rank that orders calls at one cursor.

  /** parse_expression: a primary, then infix operators from the loosest level on. */
  function Expression(st: Stream, c: nat): (r: Step<Ast>)
    requires Within(st, c)
    ensures r.Parsed? ==> c < r.cursor <= st.Last() && NonEmptyCalls(r.value)
    decreases st.Last() - c, 3
  {
    match Primary(st, c)
    case Failed(e) => Failed(e)
    case Parsed(lhs, c1) => Climb(st, c1, lhs, LOWEST, None)
  }

  /**
   * parse_precedence: while the operator (`from`, or else the arity-2
   * function under the cursor) is at or above `min`, consume it, parse a
   * primary, let tighter operators take that operand, and combine.
   */
  function Climb(st: Stream, c: nat, lhs: Ast, min: Level, from: Option<FnRef>): (r: Step<Ast>)
    requires Within(st, c) && NonEmptyCalls(lhs)
    requires from.Some? ==> ArityMatch(Fn(from.value), 2)
    ensures r.Parsed? ==> c <= r.cursor <= st.Last() && NonEmptyCalls(r.value)
    ensures r.Parsed? && from.Some? && Le(min, Fn(from.value).precedence) ==> c < r.cursor
    decreases st.Last() - c, 3
  {
    var fnOpt := Operator(st, c, from);
    if fnOpt.None? || Lt(Fn(fnOpt.value).precedence, min) then Parsed(lhs, c)
    else
      match Round(st, c, lhs, fnOpt.value, min)
      case Failed(e) => Failed(e)
      case Parsed(combined, c1) => Climb(st, c1, combined, min, from)
  }

  /** The operator parse_precedence considers: `from` when given, otherwise the binary function under the cursor. */
  function Operator(st: Stream, c: nat, from: Option<FnRef>): (r: Option<FnRef>)
    requires Within(st, c)
    requires from.Some? ==> ArityMatch(Fn(from.value), 2)
    ensures r.Some? ==> ArityMatch(Fn(r.value), 2)
    ensures from.Some? ==> r == from
  {
    if from.Some? then from else PeekFunction(st, c, 2)
  }

  /** One pass of the outer loop of parse_precedence with `f` accepted: consume it, parse the operand, combine. */
  function Round(st: Stream, c: nat, lhs: Ast, f: FnRef, min: Level): (r: Step<Ast>)
    requires Within(st, c) && NonEmptyCalls(lhs)
    requires ArityMatch(Fn(f), 2) && Le(min, Fn(f).precedence)
    ensures r.Parsed? ==> c < r.cursor <= st.Last() && NonEmptyCalls(r.value)
    decreases st.Last() - c, 2
  {
    var c1 := st.Advance(c);
    match Primary(st, c1)
    case Failed(e) => Failed(e)
    case Parsed(rhs, c2) =>
      match Inner(st, c2, rhs, f, min)
      case Failed(e) => Failed(e)
      case Parsed(rhs2, c3) => Parsed(Call(f, [lhs, rhs2]), c3)
  }

  /** Climb once the operator `f` is accepted: the round's failure, or a climb from where the round ends. */
  lemma {:induction false} ClimbThrough(st: Stream, c: nat, lhs: Ast, min: Level, from: Option<FnRef>, f: FnRef)
    requires Within(st, c) && NonEmptyCalls(lhs)
    requires from.Some? ==> ArityMatch(Fn(from.value), 2)
    requires Operator(st, c, from) == Some(f) && !Lt(Fn(f).precedence, min)
    ensures Round(st, c, lhs, f, min).Failed? ==> Climb(st, c, lhs, min, from) == Failed(Round(st, c, lhs, f, min).error)
    ensures Round(st, c, lhs, f, min).Parsed? ==>
              var next := Round(st, c, lhs, f, min);
              Climb(st, c, lhs, min, from) == Climb(st, next.cursor, next.value, min, from)
  {
  }

  /** Climb with no acceptable operator under the cursor: the left operand as it is. */
  lemma {:induction false} ClimbStops(st: Stream, c: nat, lhs: Ast, min: Level, from: Option<FnRef>)
    requires Within(st, c) && NonEmptyCalls(lhs)
    requires from.Some? ==> ArityMatch(Fn(from.value), 2)
    requires Operator(st, c, from).None? || Lt(Fn(Operator(st, c, from).value).precedence, min)
    ensures Climb(st, c, lhs, min, from) == Parsed(lhs, c)
  {
  }

  /** Round, split by how its operand and the inner climb end. */
  lemma {:induction false} RoundThrough(st: Stream, c: nat, lhs: Ast, f: FnRef, min: Level, operand: Step<Ast>, tighter: Step<Ast>)
    requires Within(st, c) && NonEmptyCalls(lhs)
    requires ArityMatch(Fn(f), 2) && Le(min, Fn(f).precedence)
    requires operand == Primary(st, st.Advance(c))
    requires operand.Parsed? ==> tighter == Inner(st, operand.cursor, operand.value, f, min)
    ensures operand.Failed? ==> Round(st, c, lhs, f, min) == Failed(operand.error)
    ensures operand.Parsed? && tighter.Failed? ==> Round(st, c, lhs, f, min) == Failed(tighter.error)
    ensures operand.Parsed? && tighter.Parsed? ==> Round(st, c, lhs, f, min) == Parsed(Call(f, [lhs, tighter.value]), tighter.cursor)
  {
  }

  /** The inner loop of parse_precedence: climb at next(min) while the next operator binds tighter than `f`. */
  function Inner(st: Stream, c: nat, rhs: Ast, f: FnRef, min: Level): (r: Step<Ast>)
    requires Within(st, c) && NonEmptyCalls(rhs)
    requires ArityMatch(Fn(f), 2) && Le(min, Fn(f).precedence)
    ensures r.Parsed? ==> c <= r.cursor <= st.Last() && NonEmptyCalls(r.value)
    decreases st.Last() - c, 4
  {
    var sub := PeekFunction(st, c, 2);
    if sub.None? || !BindsTighter(sub.value, f) then Parsed(rhs, c)
    else
      ClimbsHigher(min, f, sub.value);
      match Climb(st, c, rhs, Next(min), sub)
      case Failed(e) => Failed(e)
      case Parsed(rhs2, c2) => Inner(st, c2, rhs2, f, min)
  }

  /** parse_primary: fails on EOL, otherwise reads one token, parses a unit from it and checks for a shorthand product. */
  function Primary(st: Stream, c: nat): (r: Step<Ast>)
    requires Within(st, c)
    ensures r.Parsed? ==> c < r.cursor <= st.Last() && NonEmptyCalls(r.value)
    decreases st.Last() - c, 1
  {
    var c1 := st.Advance(c);
    if st.tokens[c].EOL? then Failed(Error(st.StartBefore(c1), "expected an expression"))
    else
      match Unit(st, c)
      case Failed(e) => Failed(e)
      case Parsed(expr, c2) => Shorthand(st, c2, expr)
  }

  /**
   * The body of parse_primary after the token at `c` is read: a parenthesised
   * expression, a variable, a routine call or a prefix operator applied to a
   * primary, a literal, or an invalid token.
   */
  function Unit(st: Stream, c: nat): (r: Step<Ast>)
    requires Within(st, c) && !st.tokens[c].EOL?
    ensures r.Parsed? ==> c < r.cursor <= st.Last() && NonEmptyCalls(r.value)
    decreases st.Last() - c, 0
  {
    var token := st.tokens[c];
    var c1 := st.Advance(c);
    if token == Char('(') then
      match Expression(st, c1)
      case Failed(e) => Failed(e)
      case Parsed(nested, c2) =>
        var c3 := st.Advance(c2);
        if st.tokens[c2] == Char(')') then Parsed(nested, c3) else Failed(Error(st.StartBefore(c3), "expected ')'"))
    else if token.Name? then Parsed(Variable(token.text), c1)
    else if token.Ident? then
      if st.tokens[c1] == Char('(') then RoutineCall(st, c1, token.text)
      else
        match Find(token.text, 1)
        case None => Failed(Error(st.StartBefore(c1), "function is not a unary operator '" + token.text + "'"))
        case Some(f) =>
          match Primary(st, c1)
          case Failed(e) => Failed(e)
          case Parsed(arg, c2) => Parsed(Call(f, [arg]), c2)
    else if token.Number? then Parsed(Literal(token.value), c1)
    else Failed(Error(st.StartBefore(c1), "invalid token '" + [token.c] + "'"))
  }

  /** parse_routine_call: the cursor is at '('; arguments up to ')', then the overload for their count. */
  function RoutineCall(st: Stream, c: nat, identifier: string): (r: Step<Ast>)
    requires Within(st, c) && st.tokens[c] == Char('(')
    ensures r.Parsed? ==> c < r.cursor <= st.Last() && NonEmptyCalls(r.value)
    decreases st.Last() - c, 5
  {
    var c1 := st.Advance(c);
    match Args(st, c1, [], true)
    case Failed(e) => Failed(e)
    case Parsed(args, c2) =>
      var c3 := st.Advance(c2);
      Overload(identifier, args, st.StartBefore(c3), c3)
  }

  /** The end of parse_routine_call: the overload for the argument count, narrowed to std::uint8_t. */
  function Overload(identifier: string, args: seq<Ast>, column: nat, c: nat): (r: Step<Ast>)
    requires forall i :: 0 <= i < |args| ==> NonEmptyCalls(args[i])
    ensures r.Parsed? ==> r.cursor == c && NonEmptyCalls(r.value)
    ensures r.Parsed? <==> Find(identifier, |args| % 256).Some?
  {
    match Find(identifier, |args| % 256)
    case None =>
      Failed(Error(column, "no overload found for '" + identifier + "' taking " + NatToString(|args|) + " arguments"))
    case Some(f) =>
      FoundTakesArguments(identifier, |args|);
      Parsed(Call(f, args), c)
  }

  /** The argument loop of parse_routine_call: expressions separated by ',' until the ')' under the cursor. */
  function Args(st: Stream, c: nat, args: seq<Ast>, first: bool): (r: Step<seq<Ast>>)
    requires Within(st, c)
    requires forall i :: 0 <= i < |args| ==> NonEmptyCalls(args[i])
    ensures r.Parsed? ==> c <= r.cursor <= st.Last() && st.tokens[r.cursor] == Char(')')
    ensures r.Parsed? ==> |r.value| >= |args| && forall i :: 0 <= i < |r.value| ==> NonEmptyCalls(r.value[i])
    decreases st.Last() - c, 4
  {
    if st.tokens[c] == Char(')') then Parsed(args, c)
    else if first then
      match Expression(st, c)
      case Failed(e) => Failed(e)
      case Parsed(arg, c2) => Args(st, c2, args + [arg], false)
    else
      var c1 := st.Advance(c);
      if st.tokens[c] == Char(',') then
        match Expression(st, c1)
        case Failed(e) => Failed(e)
        case Parsed(arg, c2) => Args(st, c2, args + [arg], false)
      else Failed(Error(st.StartBefore(c1), "expected ',' or ')'"))
  }

  /** parse_shorthand: a name, a number or '(' right after a primary multiplies it by the next primary. */
  function Shorthand(st: Stream, c: nat, lhs: Ast): (r: Step<Ast>)
    requires Within(st, c) && NonEmptyCalls(lhs)
    ensures r.Parsed? ==> c <= r.cursor <= st.Last() && NonEmptyCalls(r.value)
    decreases st.Last() - c, 3
  {
    var next := st.tokens[c];
    if next.Name? || next.Number? || next == Char('(') then
      match Primary(st, c)
      case Failed(e) => Failed(e)
      case Parsed(rhs, c2) => Parsed(Call(MULTIPLICATION, [lhs, rhs]), c2)
    else Parsed(lhs, c)
  }

  /** parser::parse after lexing: an expression, then the end of the stream or an "unexpected" error. */
  function ParseStream(st: Stream, format: DecimalFormatter): (r: Outcome<Ast, Error>)
    requires st.Ok()
    ensures r.Ok? ==> NonEmptyCalls(r.value)
  {
    match Expression(st, 0)
    case Failed(e) => Err(e)
    case Parsed(a, c) =>
      var c1 := st.Advance(c);
      if st.tokens[c].EOL? then Ok(a)
      else Err(Error(st.StartBefore(c1), "unexpected '" + TokenString(st.tokens[c], format) + "'"))
  }

  /** A failure of parser::parse: a syntax error, or a numeral std::stod rejects (std::invalid_argument). */
  datatype ParseError = SyntaxError(error: Error) | InvalidNumber

  /** parser::parse: lex `input` against the catalog identifiers, then parse the whole stream. */
  function ParseInput(input: string, stod: DecimalParser, format: DecimalFormatter): (r: Outcome<Ast, ParseError>)
    ensures r == Err(InvalidNumber) <==> !NumbersParse(input, stod)
    ensures r.Ok? ==> NonEmptyCalls(r.value)
  {
    if !NumbersParse(input, stod) then Err(InvalidNumber)
    else
      var st := LexStream(input, Identifiers(), stod);
      LexStreamOk(input, Identifiers(), stod);
      match ParseStream(st, format)
      case Ok(a) => Ok(a)
      case Err(e) => Err(SyntaxError(e))
  }

  // ---------------------------------------------------------------------------
  // The parse routines over the shared lexer. A thrown parser::Error is an
  // Err result; each routine's outcome, with the cursor it leaves, is the
  // specification function applied to the stream and the cursor on entry.

  function Observed<T>(r: Outcome<T, Error>, cursor: nat): Step<T>
  {
    match r
    case Ok(v) => Parsed(v, cursor)
    case Err(e) => Failed(e)
  }

  method PeekFunctionAt(lexer: Lexer, arity: Byte) returns (r: Option<FnRef>)
    requires lexer.Valid()
    ensures r == PeekFunction(lexer.Contents(), lexer.cursor, arity)
  {
    var token := lexer.Peek();
    if token.Ident? {
      r := Get(token.text, arity);
    } else {
      r := None;
    }
  }

  method ParseExpression(lexer: Lexer) returns (r: Outcome<Ast, Error>)
    requires lexer.Valid()
    modifies lexer`cursor
    ensures lexer.Valid()
    ensures Observed(r, lexer.cursor) == Expression(lexer.Contents(), old(lexer.cursor))
    decreases lexer.Contents().Last() - lexer.cursor, 3
  {
    var lhs := ParsePrimary(lexer);
    if lhs.Err? {
      return Err(lhs.error);
    }
    r := ParsePrecedence(lexer, lhs.value, LOWEST, None);
  }

  method ParsePrecedence(lexer: Lexer, lhs0: Ast, min: Level, from: Option<FnRef>) returns (r: Outcome<Ast, Error>)
    requires lexer.Valid() && NonEmptyCalls(lhs0)
    requires from.Some? ==> ArityMatch(Fn(from.value), 2)
    modifies lexer`cursor
    ensures lexer.Valid()
    ensures Observed(r, lexer.cursor) == Climb(lexer.Contents(), old(lexer.cursor), lhs0, min, from)
    decreases lexer.Contents().Last() - lexer.cursor, 3
  {
    ghost var st := lexer.Contents();
    ghost var c0 := lexer.cursor;
    var lhs := lhs0;
    while true
      invariant lexer.Valid() && lexer.Contents() == st && NonEmptyCalls(lhs)
      invariant c0 <= lexer.cursor
      invariant Climb(st, lexer.cursor, lhs, min, from) == Climb(st, c0, lhs0, min, from)
      decreases st.Last() - lexer.cursor
    {
      ghost var c := lexer.cursor;
      var fn := from;
      if fn.None? {
        fn := PeekFunctionAt(lexer, 2);
      }
      assert fn == Operator(st, c, from);
      if fn.None? || Lt(Fn(fn.value).precedence, min) {
        ClimbStops(st, c, lhs, min, from);
        return Ok(lhs);
      }
      var f := fn.value;
      ClimbThrough(st, c, lhs, min, from, f);
      var round := ParseRound(lexer, lhs, f, min);
      if round.Err? {
        return Err(round.error);
      }
      lhs := round.value;
    }
  }

  /** The body of the outer loop of parse_precedence once `f` is accepted. */
  method ParseRound(lexer: Lexer, lhs: Ast, f: FnRef, min: Level) returns (r: Outcome<Ast, Error>)
    requires lexer.Valid() && NonEmptyCalls(lhs)
    requires ArityMatch(Fn(f), 2) && Le(min, Fn(f).precedence)
    modifies lexer`cursor
    ensures lexer.Valid()
    ensures Observed(r, lexer.cursor) == Round(lexer.Contents(), old(lexer.cursor), lhs, f, min)
    decreases lexer.Contents().Last() - lexer.cursor, 2
  {
    ghost var st := lexer.Contents();
    ghost var c := lexer.cursor;
    lexer.Discard();
    var primary := ParsePrimary(lexer);
    ghost var operand := Observed(primary, lexer.cursor);
    if primary.Err? {
      RoundThrough(st, c, lhs, f, min, operand, operand);
      return Err(primary.error);
    }
    var tighter := ParseTighter(lexer, primary.value, f, min);
    RoundThrough(st, c, lhs, f, min, operand, Observed(tighter, lexer.cursor));
    if tighter.Err? {
      return Err(tighter.error);
    }
    r := Ok(Call(f, [lhs, tighter.value]));
  }

  /** The inner while loop of parse_precedence: climb at next(min) while the next operator binds tighter than `f`. */
  method ParseTighter(lexer: Lexer, rhs0: Ast, f: FnRef, min: Level) returns (r: Outcome<Ast, Error>)
    requires lexer.Valid() && NonEmptyCalls(rhs0)
    requires ArityMatch(Fn(f), 2) && Le(min, Fn(f).precedence)
    modifies lexer`cursor
    ensures lexer.Valid()
    ensures Observed(r, lexer.cursor) == Inner(lexer.Contents(), old(lexer.cursor), rhs0, f, min)
    decreases lexer.Contents().Last() - lexer.cursor, 4
  {
    ghost var st := lexer.Contents();
    ghost var c0 := lexer.cursor;
    var rhs := rhs0;
    while true
      invariant lexer.Valid() && lexer.Contents() == st && NonEmptyCalls(rhs)
      invariant c0 <= lexer.cursor
      invariant Inner(st, lexer.cursor, rhs, f, min) == Inner(st, c0, rhs0, f, min)
      decreases st.Last() - lexer.cursor
    {
      var sub := PeekFunctionAt(lexer, 2);
      if sub.None? || !BindsTighter(sub.value, f) {
        return Ok(rhs);
      }
      ClimbsHigher(min, f, sub.value);
      var climbed := ParsePrecedence(lexer, rhs, Next(min), sub);
      if climbed.Err? {
        return Err(climbed.error);
      }
      rhs := climbed.value;
    }
  }

  method ParsePrimary(lexer: Lexer) returns (r: Outcome<Ast, Error>)
    requires lexer.Valid()
    modifies lexer`cursor
    ensures lexer.Valid()
    ensures Observed(r, lexer.cursor) == Primary(lexer.Contents(), old(lexer.cursor))
    decreases lexer.Contents().Last() - lexer.cursor, 1
  {
    ghost var c := lexer.cursor;
    var token := lexer.Read();
    if token.EOL? {
      return Err(Error(lexer.LastTokenStart(), "expected an expression"));
    }
    var expr := ParseUnit(lexer, token, c);
    if expr.Err? {
      return Err(expr.error);
    }
    r := ParseShorthand(lexer, expr.value);
  }

  /** The lambda inside parse_primary, entered with `token` already read from position `c`. */
  method ParseUnit(lexer: Lexer, token: Token, ghost c: nat) returns (r: Outcome<Ast, Error>)
    requires lexer.Valid() && c <= lexer.Contents().Last()
    requires token == lexer.tokens[c] && !token.EOL? && lexer.cursor == lexer.Contents().Advance(c)
    modifies lexer`cursor
    ensures lexer.Valid()
    ensures Observed(r, lexer.cursor) == Unit(lexer.Contents(), c)
    decreases lexer.Contents().Last() - c, 0
  {
    if token == Char('(') {
      var nested := ParseExpression(lexer);
      if nested.Err? {
        return Err(nested.error);
      }
      var close := lexer.Read();
      if close != Char(')') {
        return Err(Error(lexer.LastTokenStart(), "expected ')'"));
      }
      r := Ok(nested.value);
    } else if token.Name? {
      r := Ok(Variable(token.text));
    } else if token.Ident? {
      if lexer.Peek() == Char('(') {
        r := ParseRoutineCall(lexer, token.text);
      } else {
        var fn := Get(token.text, 1);
        if fn.None? {
          return Err(Error(lexer.LastTokenStart(), "function is not a unary operator '" + token.text + "'"));
        }
        var arg := ParsePrimary(lexer);
        if arg.Err? {
          return Err(arg.error);
        }
        r := Ok(Call(fn.value, [arg.value]));
      }
    } else if token.Number? {
      r := Ok(Literal(token.value));
    } else {
      r := Err(Error(lexer.LastTokenStart(), "invalid token '" + [token.c] + "'"));
    }
  }

  method ParseRoutineCall(lexer: Lexer, identifier: string) returns (r: Outcome<Ast, Error>)
    requires lexer.Valid() && lexer.Peek() == Char('(')
    modifies lexer`cursor
    ensures lexer.Valid()
    ensures Observed(r, lexer.cursor) == RoutineCall(lexer.Contents(), old(lexer.cursor), identifier)
    decreases lexer.Contents().Last() - lexer.cursor, 5
  {
    ghost var st := lexer.Contents();
    ghost var c0 := lexer.cursor;
    lexer.Discard();
    ghost var c1 := lexer.cursor;
    var args: seq<Ast> := [];
    var first := true;
    while lexer.Peek() != Char(')')
      invariant lexer.Valid() && lexer.Contents() == st && c0 < lexer.cursor
      invariant forall i :: 0 <= i < |args| ==> NonEmptyCalls(args[i])
      invariant Args(st, lexer.cursor, args, first) == Args(st, c1, [], true)
      decreases st.Last() - lexer.cursor
    {
      var proceed := first;
      if !proceed {
        var separator := lexer.Read();
        proceed := separator == Char(',');
      }
      if !proceed {
        return Err(Error(lexer.LastTokenStart(), "expected ',' or ')'"));
      }
      var arg := ParseExpression(lexer);
      if arg.Err? {
        return Err(arg.error);
      }
      args := args + [arg.value];
      first := false;
    }
    lexer.Discard();
    var arity := |args|;
    var fn := Get(identifier, arity % 256);
    if fn.None? {
      return Err(Error(lexer.LastTokenStart(), "no overload found for '" + identifier + "' taking " + NatToString(arity) + " arguments"));
    }
    r := Ok(Call(fn.value, args));
  }

  method ParseShorthand(lexer: Lexer, lhs: Ast) returns (r: Outcome<Ast, Error>)
    requires lexer.Valid() && NonEmptyCalls(lhs)
    modifies lexer`cursor
    ensures lexer.Valid()
    ensures Observed(r, lexer.cursor) == Shorthand(lexer.Contents(), old(lexer.cursor), lhs)
    decreases lexer.Contents().Last() - lexer.cursor, 3
  {
    var next := lexer.Peek();
    if next.Name? || next.Number? || next == Char('(') {
      var rhs := ParsePrimary(lexer);
      if rhs.Err? {
        return Err(rhs.error);
      }
      r := Ok(Call(MULTIPLICATION, [lhs, rhs.value]));
    } else {
      r := Ok(lhs);
    }
  }

  /** parser::parse: build the lexer over the catalog identifiers, parse one expression, demand EOL. */
  method Parse(input: string, stod: DecimalParser, format: DecimalFormatter) returns (r: Outcome<Ast, ParseError>)
    ensures r == ParseInput(input, stod, format)
  {
    if !NumbersParse(input, stod) {
      return Err(InvalidNumber);
    }
    var ids := CollectIdentifiers();
    var lexer := new Lexer(input, ids, stod);
    var expr := ParseExpression(lexer);
    if expr.Err? {
      return Err(SyntaxError(expr.error));
    }
    var trailing := lexer.Read();
    if !trailing.EOL? {
      return Err(SyntaxError(Error(lexer.LastTokenStart(), "unexpected '" + TokenString(trailing, format) + "'")));
    }
    r := Ok(expr.value);
  }
}
