/** The templates a rule builds its replacement from (src/engine/result.h). */
module Results {
  import opened Basics
  import opened Hashing
  import opened Functions
  import Tree

  /**
   * engine::result::Result: exactly one of Tag (the tree bound to a tag by
   * the matching predicate), Ast (a fixed tree) and Call (a call of a
   * catalog function on further results).
   */
  datatype Result =
    | Tag(tag: Byte)
    | Ast(expr: Tree.Ast)
    | Call(fn: FnRef, args: seq<Result>)

  /** Result(T expr): anything convertible to a tree becomes a fixed-tree result. */
  function FromAst(a: Tree.Ast): (r: Result)
    ensures r.Ast?
  {
    Ast(a)
  }

  /** The conversion keeps the tree, so different trees give different results. */
  lemma {:induction false} FromAstKeepsTree(a: Tree.Ast, b: Tree.Ast)
    ensures FromAst(a).expr == a
    ensures FromAst(a) == FromAst(b) <==> a == b
  {
    if FromAst(a) == FromAst(b) {
      assert FromAst(a).expr == a;
    }
  }

  /**
   * Call(identifier, args...): resolve the function by identifier and the
   * number of arguments (narrowed to std::uint8_t), keep the arguments in
   * order. None stands for the failed assert(fn) of a lookup that found nothing.
   */
  function CallByName(identifier: string, args: seq<Result>): (r: Option<Result>)
    ensures r.Some? <==> Find(identifier, |args| % 256).Some?
    ensures r.Some? ==> r.value.Call? && r.value.args == args
    ensures r.Some? ==> Matches(Fn(r.value.fn), Fnv1a(identifier), |args| % 256)
  {
    match Find(identifier, |args| % 256)
    case None => None
    case Some(f) => Some(Call(f, args))
  }

  /** The constructor, which runs the lookup loop of get. */
  method MakeCall(identifier: string, args: seq<Result>) returns (r: Option<Result>)
    ensures r == CallByName(identifier, args)
  {
    var fn := Get(identifier, |args| % 256);
    if fn.None? {
      return None;
    }
    r := Some(Call(fn.value, args));
  }

  /** The resolved function is the first catalog entry that matches the identifier and the argument count. */
  lemma {:induction false} CallByNameFirst(identifier: string, args: seq<Result>)
    ensures CallByName(identifier, args).Some? ==>
              forall j {:trigger Matches(CATALOG[j], Fnv1a(identifier), |args| % 256)} ::
                0 <= j < CallByName(identifier, args).value.fn ==> !Matches(CATALOG[j], Fnv1a(identifier), |args| % 256)
    ensures CallByName(identifier, args).None? ==>
              forall j {:trigger Matches(CATALOG[j], Fnv1a(identifier), |args| % 256)} ::
                0 <= j < 21 ==> !Matches(CATALOG[j], Fnv1a(identifier), |args| % 256)
  {
    FindIsFirst(identifier, |args| % 256);
  }

  /**
   * `Call("min", a)` has no overload (min takes at least two arguments),
   * while `Call("min", a, b, c)` resolves to min; stated for every
   * identifier with the hash of "min".
   */
  lemma {:induction false} MinTemplateArity(s: string, a: Result, b: Result, c: Result)
    requires Fnv1a(s) == Fn(19).identifierHash
    ensures CallByName(s, [a]) == None
    ensures CallByName(s, [a, b, c]) == Some(Call(19, [a, b, c]))
  {
    var one, three := [a], [a, b, c];
    assert |one| % 256 == 1 && |three| % 256 == 3;
    MinArities(s);
  }
}
