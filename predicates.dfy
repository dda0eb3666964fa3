/** The patterns a rule matches against trees (src/engine/predicate.h). */
module Predicates {
  import opened Basics
  import opened Hashing
  import opened Functions

  /**
   * engine::predicate::Predicate: exactly one of Any, Literal, Tag, Variable
   * and Call. A Literal matches a given number, or any number when its value
   * is absent; a Tag binds what its nested predicate matched to a tag.
   */
  datatype Predicate =
    | Any
    | Literal(value: Option<Num>)
    | Tag(nested: Predicate, tag: Byte)
    | Variable
    | Call(fn: FnRef, args: seq<Predicate>)

  /** Predicates that inherit Taggable::operator[] with its definition. */
  predicate Taggable(p: Predicate)
  {
    p.Any? || p.Literal?
  }

  /** Taggable::operator[]: wrap the predicate in a Tag carrying `tag`. */
  function Tagged(p: Predicate, tag: Byte): (r: Predicate)
    requires Taggable(p)
    ensures r.Tag? && !Taggable(r)
  {
    Tag(p, tag)
  }

  /** Taking a tag apart gives back the predicate and the tag it was built from. */
  lemma {:induction false} TaggedRoundTrip(p: Predicate, tag: Byte)
    requires Taggable(p)
    ensures Tagged(p, tag).nested == p && Tagged(p, tag).tag == tag
  {
  }

  /** Tagging is injective: different predicates or tags give different tags. */
  lemma {:induction false} TaggedInjective(p: Predicate, q: Predicate, s: Byte, t: Byte)
    requires Taggable(p) && Taggable(q)
    ensures Tagged(p, s) == Tagged(q, t) <==> p == q && s == t
  {
    if Tagged(p, s) == Tagged(q, t) {
      TaggedRoundTrip(p, s);
      TaggedRoundTrip(q, t);
    }
  }

  /** Predicate(double): a bare number is a literal predicate with that value. */
  function FromNumber(v: Num): (p: Predicate)
    ensures p.Literal? && p.value.Some?
  {
    Literal(Some(v))
  }

  /** A number-built literal holds exactly that number, so different numbers give different predicates. */
  lemma {:induction false} FromNumberValue(v: Num, w: Num)
    ensures FromNumber(v).value == Some(v)
    ensures FromNumber(v) == FromNumber(w) <==> v == w
  {
    if FromNumber(v) == FromNumber(w) {
      assert FromNumber(v).value.value == v;
    }
  }

  /**
   * Call(identifier, args...): resolve the function by identifier and the
   * number of arguments (narrowed to std::uint8_t), keep the arguments in
   * order. None stands for the failed assert(fn) of a lookup that found nothing.
   */
  function CallByName(identifier: string, args: seq<Predicate>): (r: Option<Predicate>)
    ensures r.Some? <==> Find(identifier, |args| % 256).Some?
    ensures r.Some? ==> r.value.Call? && r.value.args == args
    ensures r.Some? ==> Matches(Fn(r.value.fn), Fnv1a(identifier), |args| % 256)
  {
    match Find(identifier, |args| % 256)
    case None => None
    case Some(f) => Some(Call(f, args))
  }

  /** The constructor, which runs the lookup loop of get. */
  method MakeCall(identifier: string, args: seq<Predicate>) returns (r: Option<Predicate>)
    ensures r == CallByName(identifier, args)
  {
    var fn := Get(identifier, |args| % 256);
    if fn.None? {
      return None;
    }
    r := Some(Call(fn.value, args));
  }

  /** The resolved function is the first catalog entry that matches the identifier and the argument count. */
  lemma {:induction false} CallByNameFirst(identifier: string, args: seq<Predicate>)
    ensures CallByName(identifier, args).Some? ==>
              forall j {:trigger Matches(CATALOG[j], Fnv1a(identifier), |args| % 256)} ::
                0 <= j < CallByName(identifier, args).value.fn ==> !Matches(CATALOG[j], Fnv1a(identifier), |args| % 256)
    ensures CallByName(identifier, args).None? ==>
              forall j {:trigger Matches(CATALOG[j], Fnv1a(identifier), |args| % 256)} ::
                0 <= j < 21 ==> !Matches(CATALOG[j], Fnv1a(identifier), |args| % 256)
  {
    FindIsFirst(identifier, |args| % 256);
  }

  /**
   * `Call("sqrt", p)` resolves to sqrt, while `Call("sqrt", p, q)` finds no
   * overload and would fail its assert; stated for every identifier with the
   * hash of "sqrt" (EntryHash shows "sqrt" has it).
   */
  lemma {:induction false} SqrtPatternArity(s: string, p: Predicate, q: Predicate)
    requires Fnv1a(s) == Fn(17).identifierHash
    ensures CallByName(s, [p]) == Some(Call(17, [p]))
    ensures CallByName(s, [p, q]) == None
  {
    var one, two := [p], [p, q];
    assert |one| % 256 == 1 && |two| % 256 == 2;
    SqrtArities(s);
  }

  /** `Call("-", p)` resolves to unary minus and `Call("-", p, q)` to binary minus. */
  lemma {:induction false} MinusPatterns(s: string, p: Predicate, q: Predicate)
    requires Fnv1a(s) == Fn(0).identifierHash
    ensures CallByName(s, [p]) == Some(Call(0, [p]))
    ensures CallByName(s, [p, q]) == Some(Call(6, [p, q]))
  {
    var one, two := [p], [p, q];
    assert |one| % 256 == 1 && |two| % 256 == 2;
    MinusArities(s);
  }
}
