/** The six precedence levels of the expression language (src/ast/precedence.h). */
module Precedence {

  /** Declared loosest first; the underlying value is the position in this list. */
  datatype Level = L6 | L5 | L4 | L3 | L2 | L1

  /** The enum's underlying std::uint8_t value. */
  function Value(p: Level): nat
  {
    match p
    case L6 => 0
    case L5 => 1
    case L4 => 2
    case L3 => 3
    case L2 => 4
    case L1 => 5
  }

  /** The level with underlying value `v` (static_cast<Precedence>(v)). */
  function FromValue(v: nat): (p: Level)
    requires v < 6
    ensures Value(p) == v
  {
    [L6, L5, L4, L3, L2, L1][v]
  }

  /** The comparison operators of the enum class compare underlying values. */
  predicate Le(a: Level, b: Level)
  {
    Value(a) <= Value(b)
  }

  predicate Lt(a: Level, b: Level)
  {
    Value(a) < Value(b)
  }

  /** The next tighter level, staying at L1. */
  function Next(p: Level): (r: Level)
    ensures Le(p, r)
  {
    if p == L1 then L1 else FromValue(Value(p) + 1)
  }

  /** The loosest level, where a full expression starts. */
  const LOWEST: Level := L6

  lemma {:induction false} ValueBounds(p: Level)
    ensures Value(p) < 6
    ensures FromValue(Value(p)) == p
  {
  }

  /** Levels are totally ordered by their underlying value, loosest first. */
  lemma {:induction false} Ordering()
    ensures Lt(L6, L5) && Lt(L5, L4) && Lt(L4, L3) && Lt(L3, L2) && Lt(L2, L1)
    ensures forall a: Level, b: Level :: Le(a, b) && Le(b, a) ==> a == b
  {
  }

  /** next saturates at L1 and otherwise moves up exactly one level. */
  lemma {:induction false} NextSteps(p: Level)
    ensures p == L1 ==> Next(p) == L1
    ensures p != L1 ==> Value(Next(p)) == Value(p) + 1 && Lt(p, Next(p))
    ensures forall q :: Lt(p, q) ==> Le(Next(p), q)
  {
  }

  /** LOWEST is at or below every level and L1 is at or above every level. */
  lemma {:induction false} LowestIsBottom(p: Level)
    ensures Le(LOWEST, p) && Le(p, L1)
  {
  }
}
