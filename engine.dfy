/** Canonicalisation by flattening nested calls (src/engine/engine.cpp). */
module Engine {
  import opened Basics
  import opened Functions
  import opened Tree
  import opened Parsing

  // ---------------------------------------------------------------------------
  // Specification

  /**
   * Whether argument `i` of a call of `f` whose last index is `lastI` may be
   * spliced by associativity: LEFT only at the first position, RIGHT only at
   * the last, ALL anywhere, NONE never.
   */
  predicate AssociativityMatch(f: FnRef, i: nat, lastI: int)
  {
    || (Fn(f).associativity == LEFT && i == 0)
    || (Fn(f).associativity == RIGHT && i == lastI)
    || Fn(f).associativity == Associativity.ALL
  }

  /** A flattened argument is spliced when it calls the same function and associativity allows it. */
  predicate Splices(f: FnRef, i: nat, lastI: int, flatArg: Ast)
  {
    flatArg.Call? && flatArg.fn == f && AssociativityMatch(f, i, lastI)
  }

  /** What one flattened argument adds to the new argument list. */
  function Contribution(f: FnRef, i: nat, lastI: int, flatArg: Ast): seq<Ast>
  {
    if Splices(f, i, lastI, flatArg) then flatArg.args else [flatArg]
  }

  /** The new arguments built from the first `n` arguments, in order. */
  function SplicedUpTo(f: FnRef, args: seq<Ast>, n: nat): seq<Ast>
    requires n <= |args|
    decreases args, n
  {
    if n == 0 then []
    else SplicedUpTo(f, args, n - 1) + Contribution(f, n - 1, |args| - 1, Flattened(args[n - 1]))
  }

  /** impl::flatten: bottom-up, splicing same-function children where associativity allows. */
  function Flattened(a: Ast): Ast
    decreases a, 1
  {
    match a
    case Call(f, args) => Call(f, SplicedUpTo(f, args, |args|))
    case _ => a
  }

  // ---------------------------------------------------------------------------
  // The loop

  /** impl::flatten, flattening each argument before deciding whether to splice it. */
  method Flatten(a: Ast) returns (r: Ast)
    ensures r == Flattened(a)
    decreases a
  {
    if !a.Call? {
      return a;
    }
    var newArgs: seq<Ast> := [];
    var lastI := |a.args| - 1;
    for i := 0 to |a.args|
      invariant newArgs == SplicedUpTo(a.fn, a.args, i)
    {
      var flatArg := Flatten(a.args[i]);
      if flatArg.Call? {
        if flatArg.fn == a.fn && AssociativityMatch(a.fn, i, lastI) {
          newArgs := newArgs + flatArg.args;
          continue;
        }
      }
      newArgs := newArgs + [flatArg];
    }
    r := Call(a.fn, newArgs);
  }

  /** evaluate_expr: evaluation is, for now, flattening. */
  method EvaluateExpr(a: Ast) returns (r: Ast)
    ensures r == Flattened(a)
  {
    r := Flatten(a);
  }

  /** evaluate_str: the flattened parse of `input`, or the parse failure. */
  function EvaluatedStr(input: string, stod: DecimalParser, format: DecimalFormatter): Outcome<Ast, ParseError>
  {
    match ParseInput(input, stod, format)
    case Ok(a) => Ok(Flattened(a))
    case Err(e) => Err(e)
  }

  /** evaluate_str: parse, then evaluate the tree. */
  method EvaluateStr(input: string, stod: DecimalParser, format: DecimalFormatter) returns (r: Outcome<Ast, ParseError>)
    ensures r == EvaluatedStr(input, stod, format)
  {
    var parsed := Parse(input, stod, format);
    if parsed.Err? {
      return Err(parsed.error);
    }
    var flat := EvaluateExpr(parsed.value);
    r := Ok(flat);
  }

  // ---------------------------------------------------------------------------
  // Properties

  /** A literal or a variable comes back unchanged, and a call keeps its function. */
  lemma {:induction false} FlattenedShape(a: Ast)
    ensures !a.Call? ==> Flattened(a) == a
    ensures a.Call? ==> Flattened(a).Call? && Flattened(a).fn == a.fn
  {
  }

  /** Under NONE nothing is spliced: the call keeps its arity and each argument is flattened in place. */
  lemma {:induction false} NoneKeepsArity(f: FnRef, args: seq<Ast>, n: nat)
    requires Fn(f).associativity == Associativity.NONE && n <= |args|
    ensures |SplicedUpTo(f, args, n)| == n
    ensures forall i :: 0 <= i < n ==> SplicedUpTo(f, args, n)[i] == Flattened(args[i])
  {
    if n > 0 {
      NoneKeepsArity(f, args, n - 1);
      var flat := Flattened(args[n - 1]);
      assert !AssociativityMatch(f, n - 1, |args| - 1);
      assert SplicedUpTo(f, args, n) == SplicedUpTo(f, args, n - 1) + [flat];
    }
  }

  /** The same for a whole call. */
  lemma {:induction false} NoneCallKeepsArity(a: Ast)
    requires a.Call? && Fn(a.fn).associativity == Associativity.NONE
    ensures |Flattened(a).args| == |a.args|
    ensures forall i :: 0 <= i < |a.args| ==> Flattened(a).args[i] == Flattened(a.args[i])
  {
    NoneKeepsArity(a.fn, a.args, |a.args|);
  }

  /** A flattened tree: nothing left to splice anywhere. */
  predicate Flat(a: Ast)
    decreases a
  {
    a.Call? ==>
      && (forall i :: 0 <= i < |a.args| ==> Flat(a.args[i]))
      && (forall i :: 0 <= i < |a.args| ==> !Splices(a.fn, i, |a.args| - 1, a.args[i]))
  }

  lemma {:induction false} SplicedOfFlat(f: FnRef, args: seq<Ast>, n: nat)
    requires n <= |args|
    requires forall i :: 0 <= i < |args| ==> Flattened(args[i]) == args[i]
    requires forall i :: 0 <= i < |args| ==> !Splices(f, i, |args| - 1, args[i])
    ensures SplicedUpTo(f, args, n) == args[..n]
  {
    if n > 0 {
      SplicedOfFlat(f, args, n - 1);
      assert args[..n] == args[..n - 1] + [args[n - 1]];
    }
  }

  /** A tree with nothing to splice is its own flattening. */
  lemma {:induction false} FlatIsFixed(a: Ast)
    requires Flat(a)
    ensures Flattened(a) == a
    decreases a
  {
    if a.Call? {
      forall i | 0 <= i < |a.args| ensures Flattened(a.args[i]) == a.args[i] {
        FlatIsFixed(a.args[i]);
      }
      SplicedOfFlat(a.fn, a.args, |a.args|);
      assert a.args[..|a.args|] == a.args;
    }
  }

  /** A good elements predicate for the new argument list: flat, without empty calls and, under ALL, not a call of `f`. */
  predicate Settled(f: FnRef, e: Ast)
  {
    NonEmptyCalls(e) && Flat(e) && (Fn(f).associativity == Associativity.ALL ==> !(e.Call? && e.fn == f))
  }

  /** What a flat argument contributes is non-empty and settled. */
  lemma {:induction false} ContributionSettled(f: FnRef, i: nat, lastI: int, c: Ast)
    requires NonEmptyCalls(c) && Flat(c)
    ensures |Contribution(f, i, lastI, c)| > 0
    ensures forall j :: 0 <= j < |Contribution(f, i, lastI, c)| ==> Settled(f, Contribution(f, i, lastI, c)[j])
  {
    if Splices(f, i, lastI, c) {
      forall j | 0 <= j < |c.args| ensures Settled(f, c.args[j]) {
        assert !Splices(c.fn, j, |c.args| - 1, c.args[j]);
      }
    }
  }

  /** Every element of the spliced prefix is settled. */
  lemma {:induction false} SplicedElements(f: FnRef, args: seq<Ast>, n: nat)
    requires n <= |args|
    requires forall i :: 0 <= i < |args| ==> NonEmptyCalls(Flattened(args[i])) && Flat(Flattened(args[i]))
    ensures forall j :: 0 <= j < |SplicedUpTo(f, args, n)| ==> Settled(f, SplicedUpTo(f, args, n)[j])
    ensures n > 0 ==> |SplicedUpTo(f, args, n)| > 0
  {
    if n > 0 {
      SplicedElements(f, args, n - 1);
      var prev := SplicedUpTo(f, args, n - 1);
      var c := Flattened(args[n - 1]);
      var more := Contribution(f, n - 1, |args| - 1, c);
      ContributionSettled(f, n - 1, |args| - 1, c);
      var all := prev + more;
      assert all == SplicedUpTo(f, args, n);
      forall j | 0 <= j < |all| ensures Settled(f, all[j]) {
        if j >= |prev| {
          assert all[j] == more[j - |prev|];
        } else {
          assert all[j] == prev[j];
        }
      }
    }
  }

  /** The first element of the spliced prefix, under LEFT. */
  lemma {:induction false} SplicedFirst(f: FnRef, args: seq<Ast>, n: nat)
    requires 0 < n <= |args|
    requires forall i :: 0 <= i < |args| ==> NonEmptyCalls(Flattened(args[i])) && Flat(Flattened(args[i]))
    requires Fn(f).associativity == LEFT
    ensures |SplicedUpTo(f, args, n)| > 0
    ensures !(SplicedUpTo(f, args, n)[0].Call? && SplicedUpTo(f, args, n)[0].fn == f)
  {
    var c := Flattened(args[0]);
    assert NonEmptyCalls(c) && Flat(c);
    if n == 1 {
      assert SplicedUpTo(f, args, 1) == Contribution(f, 0, |args| - 1, c);
      if Splices(f, 0, |args| - 1, c) {
        assert !Splices(c.fn, 0, |c.args| - 1, c.args[0]);
      }
    } else {
      SplicedFirst(f, args, n - 1);
    }
  }

  /** The last element of the spliced arguments, under RIGHT. */
  lemma {:induction false} SplicedLast(f: FnRef, args: seq<Ast>)
    requires 0 < |args|
    requires forall i :: 0 <= i < |args| ==> NonEmptyCalls(Flattened(args[i])) && Flat(Flattened(args[i]))
    requires Fn(f).associativity == RIGHT
    ensures var all := SplicedUpTo(f, args, |args|);
            |all| > 0 && !(all[|all| - 1].Call? && all[|all| - 1].fn == f)
  {
    var n := |args|;
    SplicedElements(f, args, n - 1);
    var prev := SplicedUpTo(f, args, n - 1);
    var c := Flattened(args[n - 1]);
    assert NonEmptyCalls(c) && Flat(c);
    var more := Contribution(f, n - 1, n - 1, c);
    var all := prev + more;
    assert |more| > 0;
    assert all[|all| - 1] == more[|more| - 1];
    if Splices(f, n - 1, n - 1, c) {
      assert !Splices(c.fn, |c.args| - 1, |c.args| - 1, c.args[|c.args| - 1]);
    }
  }

  /** Flattening a tree without empty calls gives a flat tree without empty calls. */
  lemma {:induction false} FlattenedIsFlat(a: Ast)
    requires NonEmptyCalls(a)
    ensures NonEmptyCalls(Flattened(a)) && Flat(Flattened(a))
    decreases a
  {
    if a.Call? {
      var f := a.fn;
      var args := a.args;
      forall i | 0 <= i < |args| ensures NonEmptyCalls(Flattened(args[i])) && Flat(Flattened(args[i])) {
        FlattenedIsFlat(args[i]);
      }
      SplicedElements(f, args, |args|);
      var all := SplicedUpTo(f, args, |args|);
      forall j | 0 <= j < |all| ensures !Splices(f, j, |all| - 1, all[j]) {
        assert Settled(f, all[j]);
        if Fn(f).associativity == LEFT && j == 0 {
          SplicedFirst(f, args, |args|);
        } else if Fn(f).associativity == RIGHT && j == |all| - 1 {
          SplicedLast(f, args);
        }
      }
    }
  }

  /** Flattening is idempotent on trees without empty calls, the trees the parser builds. */
  lemma {:induction false} FlattenIdempotent(a: Ast)
    requires NonEmptyCalls(a)
    ensures Flattened(Flattened(a)) == Flattened(a)
  {
    FlattenedIsFlat(a);
    FlatIsFixed(Flattened(a));
  }

  // ---------------------------------------------------------------------------
  // Order: the new argument list is the contributions of the arguments, in
  // order, and the leaves of the tree are read in the same order as before.

  /** The contributions of the first `n` flattened arguments, one list per argument. */
  function Contributions(f: FnRef, args: seq<Ast>, n: nat): (parts: seq<seq<Ast>>)
    requires n <= |args|
    ensures |parts| == n
  {
    seq(n, i requires 0 <= i < n && n <= |args| => Contribution(f, i, |args| - 1, Flattened(args[i])))
  }

  /** flatten's splice loop concatenates, in argument order, what each flattened argument contributes. */
  lemma {:induction false} SplicedIsConcatenation(f: FnRef, args: seq<Ast>, n: nat)
    requires n <= |args|
    ensures SplicedUpTo(f, args, n) == Concat(Contributions(f, args, n))
  {
    if n > 0 {
      SplicedIsConcatenation(f, args, n - 1);
      var parts := Contributions(f, args, n - 1);
      var last := Contribution(f, n - 1, |args| - 1, Flattened(args[n - 1]));
      assert Contributions(f, args, n) == parts + [last];
      ConcatAppend(parts, [last]);
      assert Concat([last]) == last by {
        assert [last][1..] == [];
      }
    }
  }

  /** The leaves of a tree, left to right: literals and variables in the order they are written. */
  function Leaves(a: Ast): seq<Ast>
    decreases a, 1
  {
    if a.Call? then LeavesOf(a.args) else [a]
  }

  function LeavesOf(args: seq<Ast>): seq<Ast>
    decreases args, 0
  {
    if args == [] then [] else Leaves(args[0]) + LeavesOf(args[1..])
  }

  lemma {:induction false} LeavesOfAppend(xs: seq<Ast>, ys: seq<Ast>)
    ensures LeavesOf(xs + ys) == LeavesOf(xs) + LeavesOf(ys)
    decreases |xs|
  {
    if xs == [] {
      assert xs + ys == ys;
    } else {
      assert (xs + ys)[1..] == xs[1..] + ys;
      LeavesOfAppend(xs[1..], ys);
    }
  }

  /** Flattening keeps every leaf and their left-to-right order: splicing only removes inner nodes. */
  lemma {:induction false} FlattenKeepsLeaves(a: Ast)
    ensures Leaves(Flattened(a)) == Leaves(a)
    decreases a, 1
  {
    if a.Call? {
      SplicedLeaves(a.fn, a.args, |a.args|);
      assert a.args[..|a.args|] == a.args;
    }
  }

  /** The spliced prefix has the leaves of the first `n` arguments, in order. */
  lemma {:induction false} SplicedLeaves(f: FnRef, args: seq<Ast>, n: nat)
    requires n <= |args|
    ensures LeavesOf(SplicedUpTo(f, args, n)) == LeavesOf(args[..n])
    decreases args, n
  {
    if n == 0 {
      assert args[..0] == [];
    } else {
      var arg := args[n - 1];
      var flat := Flattened(arg);
      var more := Contribution(f, n - 1, |args| - 1, flat);
      SplicedLeaves(f, args, n - 1);
      FlattenKeepsLeaves(arg);
      LeavesOfAppend(SplicedUpTo(f, args, n - 1), more);
      assert LeavesOf(more) == Leaves(arg) by {
        if !Splices(f, n - 1, |args| - 1, flat) {
          assert [flat][1..] == [];
        }
      }
      assert args[..n] == args[..n - 1] + [arg];
      LeavesOfAppend(args[..n - 1], [arg]);
      assert [arg][1..] == [];
    }
  }

  lemma {:induction false} FlattenOne(f: FnRef, p: Ast)
    ensures Flattened(Call(f, [p])) == Call(f, Contribution(f, 0, 0, Flattened(p)))
  {
    assert SplicedUpTo(f, [p], 1) == SplicedUpTo(f, [p], 0) + Contribution(f, 0, 0, Flattened(p));
  }

  lemma {:induction false} FlattenTwo(f: FnRef, p: Ast, q: Ast)
    ensures Flattened(Call(f, [p, q]))
         == Call(f, Contribution(f, 0, 1, Flattened(p)) + Contribution(f, 1, 1, Flattened(q)))
  {
    var args := [p, q];
    var fp, fq := Flattened(p), Flattened(q);
    assert args[0] == p && args[1] == q;
    var first := Contribution(f, 0, 1, fp);
    assert SplicedUpTo(f, args, 1) == first by {
      assert SplicedUpTo(f, args, 1) == SplicedUpTo(f, args, 0) + first;
    }
    assert SplicedUpTo(f, args, 2) == first + Contribution(f, 1, 1, fq);
  }

  /** `(x / y)` with leaf operands is already flat. */
  lemma {:induction false} LeavesFixed(f: FnRef, x: Ast, y: Ast)
    requires !x.Call? && !y.Call?
    ensures Flattened(Call(f, [x, y])) == Call(f, [x, y])
  {
    FlattenTwo(f, x, y);
  }

  /** Without the non-empty precondition idempotence fails: an empty `/` call spliced away at the front shifts another into its place. */
  lemma {:induction false} EmptyCallBreaksIdempotence(x: Ast, y: Ast)
    requires !x.Call? && !y.Call?
    ensures Flattened(Call(3, [Call(3, []), Call(3, [x, y])])) == Call(3, [Call(3, [x, y])])
    ensures Flattened(Flattened(Call(3, [Call(3, []), Call(3, [x, y])]))) == Call(3, [x, y])
  {
    assert Fn(3).associativity == LEFT;
    var inner := Call(3, [x, y]);
    LeavesFixed(3, x, y);
    assert Flattened(Call(3, [])) == Call(3, []);
    FlattenTwo(3, Call(3, []), inner);
    FlattenOne(3, inner);
  }

  /** `(1 + 2) + 3` and `1 + (2 + 3)` both become `+(1, 2, 3)`: `+` is associative in every position. */
  lemma {:induction false} AdditionRegroups(x: Ast, y: Ast, z: Ast)
    requires !x.Call? && !y.Call? && !z.Call?
    ensures Flattened(Call(5, [Call(5, [x, y]), z])) == Call(5, [x, y, z])
    ensures Flattened(Call(5, [x, Call(5, [y, z])])) == Call(5, [x, y, z])
  {
    assert Fn(5).associativity == Associativity.ALL;
    LeavesFixed(5, x, y);
    LeavesFixed(5, y, z);
    FlattenTwo(5, Call(5, [x, y]), z);
    FlattenTwo(5, x, Call(5, [y, z]));
  }

  /** Binary `-` is LEFT-associative: `(a - b) - c` becomes `-(a, b, c)` while `a - (b - c)` stays nested. */
  lemma {:induction false} SubtractionLeans(x: Ast, y: Ast, z: Ast)
    requires !x.Call? && !y.Call? && !z.Call?
    ensures Flattened(Call(6, [Call(6, [x, y]), z])) == Call(6, [x, y, z])
    ensures Flattened(Call(6, [x, Call(6, [y, z])])) == Call(6, [x, Call(6, [y, z])])
  {
    assert Fn(6).associativity == LEFT;
    LeavesFixed(6, x, y);
    LeavesFixed(6, y, z);
    FlattenTwo(6, Call(6, [x, y]), z);
    FlattenTwo(6, x, Call(6, [y, z]));
  }

  /** Unary minus is RIGHT-associative with one argument, so `-(-x)` becomes `-(x)`. */
  lemma {:induction false} DoubleNegationCollapses(x: Ast)
    requires !x.Call?
    ensures Flattened(Call(0, [Call(0, [x])])) == Call(0, [x])
  {
    assert Fn(0).associativity == RIGHT;
    FlattenOne(0, x);
    FlattenOne(0, Call(0, [x]));
  }

  /**
   * evaluate_str fails exactly where parsing fails, with the same failure,
   * and what it returns is a flat tree without empty calls that evaluation
   * leaves unchanged.
   */
  lemma {:induction false} EvaluatedStrSettled(input: string, stod: DecimalParser, format: DecimalFormatter)
    ensures EvaluatedStr(input, stod, format).Err? <==> ParseInput(input, stod, format).Err?
    ensures ParseInput(input, stod, format).Err? ==> EvaluatedStr(input, stod, format) == ParseInput(input, stod, format)
    ensures EvaluatedStr(input, stod, format).Ok? ==>
              var a := EvaluatedStr(input, stod, format).value;
              NonEmptyCalls(a) && Flat(a) && Flattened(a) == a
  {
    var parsed := ParseInput(input, stod, format);
    if parsed.Ok? {
      FlattenedIsFlat(parsed.value);
      FlattenIdempotent(parsed.value);
    }
  }
}
