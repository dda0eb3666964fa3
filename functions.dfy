/** The function registry: the static catalog of operators and routines (src/ast/function.h). */
module Functions {
  import opened Basics
  import opened Precedence
  import opened Hashing

  // ---------------------------------------------------------------------------
  // Function descriptors

  /** How the arguments of a call may be reordered. */
  datatype Commutativity = NONE | ALL | TAIL

  /** How nested calls to the same function may be flattened. */
  datatype Associativity = NONE | LEFT | RIGHT | ALL

  /** Routine syntax `f(a, b)` or infix syntax `a f b`. */
  datatype Syntax = ROUTINE | INFIX

  /** Exactly `arity` arguments, or at least `arity`. */
  datatype ArityType = STATIC | DYNAMIC

  datatype Function = Function(
    identifier: string,
    syntax: Syntax,
    commutativity: Commutativity,
    associativity: Associativity,
    arityType: ArityType,
    arity: Byte,
    precedence: Level,
    identifierHash: bv32)

  /** Function::unary: an infix prefix operator taking one argument. */
  function Unary(identifier: string): Function
  {
    Function(identifier, INFIX, Commutativity.ALL, Associativity.RIGHT, STATIC, 1, L1, Fnv1a(identifier))
  }

  /** Function::binary: an infix operator taking two or more arguments. */
  function Binary(identifier: string, precedence: Level, commutativity: Commutativity, associativity: Associativity): Function
  {
    Function(identifier, INFIX, commutativity, associativity, DYNAMIC, 2, precedence, Fnv1a(identifier))
  }

  /** Function::routine: a function called as `identifier(args)`. */
  function Routine(identifier: string, commutativity: Commutativity, associativity: Associativity, arityType: ArityType, arity: Byte): Function
  {
    Function(identifier, ROUTINE, commutativity, associativity, arityType, arity, L1, Fnv1a(identifier))
  }

  /**
   * ARRAY: the catalog, in lookup order, with each builder call evaluated
   * (CatalogBuilt proves every entry equal to the builder call it replaces).
   */
  const CATALOG: seq<Function> := [
    // arithmetic operators
    Function("-", INFIX, Commutativity.ALL, Associativity.RIGHT, STATIC, 1, L1, 0x280c9438),
    Function("**", INFIX, Commutativity.NONE, Associativity.RIGHT, DYNAMIC, 2, L1, 0x27de7135),
    Function("*", INFIX, Commutativity.ALL, Associativity.ALL, DYNAMIC, 2, L2, 0x2f0c9f3d),
    Function("/", INFIX, TAIL, LEFT, DYNAMIC, 2, L2, 0x2a0c975e),
    Function("%", INFIX, Commutativity.NONE, LEFT, DYNAMIC, 2, L2, 0x200c87a0),
    Function("+", INFIX, Commutativity.ALL, Associativity.ALL, DYNAMIC, 2, L3, 0x2e0c9daa),
    Function("-", INFIX, TAIL, LEFT, DYNAMIC, 2, L3, 0x280c9438),
    // comparison operators
    Function("==", INFIX, Commutativity.ALL, Associativity.NONE, DYNAMIC, 2, L4, 0x90f4dccf),
    Function("!=", INFIX, Commutativity.ALL, Associativity.NONE, DYNAMIC, 2, L4, 0x90c34003),
    Function("<", INFIX, Commutativity.NONE, Associativity.NONE, DYNAMIC, 2, L4, 0x390caefb),
    Function("<=", INFIX, Commutativity.NONE, Associativity.NONE, DYNAMIC, 2, L4, 0x94f721b2),
    Function(">", INFIX, Commutativity.NONE, Associativity.NONE, DYNAMIC, 2, L4, 0x3b0cb221),
    Function(">=", INFIX, Commutativity.NONE, Associativity.NONE, DYNAMIC, 2, L4, 0x10fc6214),
    // logical operators
    Function("!", INFIX, Commutativity.ALL, Associativity.RIGHT, STATIC, 1, L1, 0x240c8dec),
    Function("&&", INFIX, Commutativity.ALL, LEFT, DYNAMIC, 2, L5, 0xabc12bed),
    Function("^^", INFIX, Commutativity.ALL, LEFT, DYNAMIC, 2, L5, 0x330f168d),
    Function("||", INFIX, Commutativity.ALL, LEFT, DYNAMIC, 2, L6, 0x5558edc5),
    // routines
    Function("sqrt", ROUTINE, Commutativity.ALL, Associativity.NONE, STATIC, 1, L1, 0x7dee3bcf),
    Function("abs", ROUTINE, Commutativity.ALL, Associativity.NONE, STATIC, 1, L1, 0x2a48023b),
    Function("min", ROUTINE, Commutativity.NONE, Associativity.ALL, DYNAMIC, 2, L1, 0xc98f4557),
    Function("max", ROUTINE, Commutativity.NONE, Associativity.ALL, DYNAMIC, 2, L1, 0xd7a2e319)
  ]

  /** A reference to a catalog entry: the index of the pointed-to element. It is never null. */
  type FnRef = i: nat | i < 21

  function Fn(f: FnRef): Function
  {
    CATALOG[f]
  }

  /** Each stored hash is the FNV-1a hash of the entry's identifier, as the builders compute it. */
  lemma {:induction false} EntryHash(k: FnRef)
    ensures Fn(k).identifierHash == Fnv1a(Fn(k).identifier)
  {
    if k < 7 {
      ArithmeticHashes(k);
    } else if k < 13 {
      ComparisonHashes(k);
    } else if k < 17 {
      LogicalHashes(k);
    } else {
      RoutineHashes(k);
    }
  }

  lemma {:induction false} ArithmeticHashes(k: FnRef)
    requires k < 7
    ensures Fn(k).identifierHash == Fnv1a(Fn(k).identifier)
  {
    if k == 0 { assert Fn(k).identifier == "-"; HashOfMinus(); }
    else if k == 1 { assert Fn(k).identifier == "**"; HashOfPower(); }
    else if k == 2 { assert Fn(k).identifier == "*"; HashOfTimes(); }
    else if k == 3 { assert Fn(k).identifier == "/"; HashOfDivide(); }
    else if k == 4 { assert Fn(k).identifier == "%"; HashOfModulo(); }
    else if k == 5 { assert Fn(k).identifier == "+"; HashOfPlus(); }
    else { assert Fn(k).identifier == "-"; HashOfMinus(); }
  }

  lemma {:induction false} ComparisonHashes(k: FnRef)
    requires 7 <= k < 13
    ensures Fn(k).identifierHash == Fnv1a(Fn(k).identifier)
  {
    if k == 7 { assert Fn(k).identifier == "=="; HashOfEqual(); }
    else if k == 8 { assert Fn(k).identifier == "!="; HashOfNotEqual(); }
    else if k == 9 { assert Fn(k).identifier == "<"; HashOfLess(); }
    else if k == 10 { assert Fn(k).identifier == "<="; HashOfLessEqual(); }
    else if k == 11 { assert Fn(k).identifier == ">"; HashOfGreater(); }
    else { assert Fn(k).identifier == ">="; HashOfGreaterEqual(); }
  }

  lemma {:induction false} LogicalHashes(k: FnRef)
    requires 13 <= k < 17
    ensures Fn(k).identifierHash == Fnv1a(Fn(k).identifier)
  {
    if k == 13 { assert Fn(k).identifier == "!"; HashOfNot(); }
    else if k == 14 { assert Fn(k).identifier == "&&"; HashOfAnd(); }
    else if k == 15 { assert Fn(k).identifier == "^^"; HashOfXor(); }
    else { assert Fn(k).identifier == "||"; HashOfOr(); }
  }

  lemma {:induction false} RoutineHashes(k: FnRef)
    requires 17 <= k < 21
    ensures Fn(k).identifierHash == Fnv1a(Fn(k).identifier)
  {
    if k == 17 { assert Fn(k).identifier == "sqrt"; HashOfSqrt(); }
    else if k == 18 { assert Fn(k).identifier == "abs"; HashOfAbs(); }
    else if k == 19 { assert Fn(k).identifier == "min"; HashOfMin(); }
    else { assert Fn(k).identifier == "max"; HashOfMax(); }
  }
  /**
   * The catalog is the builder calls of the source, in the same order: the
   * two prefix operators built by unary, the infix operators by binary, the
   * routines by routine, each carrying the hash of its identifier.
   */
  lemma {:induction false} CatalogBuilt(k: FnRef)
    ensures k == 0 || k == 13 <==> Fn(k) == Unary(Fn(k).identifier)
    ensures 0 < k < 17 && k != 13 <==> Fn(k) == Binary(Fn(k).identifier, Fn(k).precedence, Fn(k).commutativity, Fn(k).associativity)
    ensures 17 <= k <==> Fn(k) == Routine(Fn(k).identifier, Fn(k).commutativity, Fn(k).associativity, Fn(k).arityType, Fn(k).arity)
  {
    EntryHash(k);
  }

  /** The first catalog index whose entry stores hash `h`, or -1. */
  function HashIndex(h: bv32): int
  {
    if h == 0x280c9438 then 0
    else if h == 0x27de7135 then 1
    else if h == 0x2f0c9f3d then 2
    else if h == 0x2a0c975e then 3
    else if h == 0x200c87a0 then 4
    else if h == 0x2e0c9daa then 5
    else if h == 0x90f4dccf then 7
    else if h == 0x90c34003 then 8
    else if h == 0x390caefb then 9
    else if h == 0x94f721b2 then 10
    else if h == 0x3b0cb221 then 11
    else if h == 0x10fc6214 then 12
    else if h == 0x240c8dec then 13
    else if h == 0xabc12bed then 14
    else if h == 0x330f168d then 15
    else if h == 0x5558edc5 then 16
    else if h == 0x7dee3bcf then 17
    else if h == 0x2a48023b then 18
    else if h == 0xc98f4557 then 19
    else if h == 0xd7a2e319 then 20
    else -1
  }

  lemma {:induction false} HashIndexOf(k: FnRef)
    ensures HashIndex(Fn(k).identifierHash) == if k == 6 then 0 else k
  {
    if k < 7 {
      ArithmeticIndices(k);
    } else if k < 13 {
      ComparisonIndices(k);
    } else if k < 17 {
      LogicalIndices(k);
    } else {
      RoutineIndices(k);
    }
  }

  lemma {:induction false} ArithmeticIndices(k: FnRef)
    requires k < 7
    ensures HashIndex(Fn(k).identifierHash) == if k == 6 then 0 else k
  {
    if k == 0 { assert Fn(k).identifierHash == 0x280c9438; }
    else if k == 1 { assert Fn(k).identifierHash == 0x27de7135; }
    else if k == 2 { assert Fn(k).identifierHash == 0x2f0c9f3d; }
    else if k == 3 { assert Fn(k).identifierHash == 0x2a0c975e; }
    else if k == 4 { assert Fn(k).identifierHash == 0x200c87a0; }
    else if k == 5 { assert Fn(k).identifierHash == 0x2e0c9daa; }
    else { assert Fn(k).identifierHash == 0x280c9438; }
  }

  lemma {:induction false} ComparisonIndices(k: FnRef)
    requires 7 <= k < 13
    ensures HashIndex(Fn(k).identifierHash) == if k == 6 then 0 else k
  {
    if k == 7 { assert Fn(k).identifierHash == 0x90f4dccf; }
    else if k == 8 { assert Fn(k).identifierHash == 0x90c34003; }
    else if k == 9 { assert Fn(k).identifierHash == 0x390caefb; }
    else if k == 10 { assert Fn(k).identifierHash == 0x94f721b2; }
    else if k == 11 { assert Fn(k).identifierHash == 0x3b0cb221; }
    else { assert Fn(k).identifierHash == 0x10fc6214; }
  }

  lemma {:induction false} LogicalIndices(k: FnRef)
    requires 13 <= k < 17
    ensures HashIndex(Fn(k).identifierHash) == if k == 6 then 0 else k
  {
    if k == 13 { assert Fn(k).identifierHash == 0x240c8dec; }
    else if k == 14 { assert Fn(k).identifierHash == 0xabc12bed; }
    else if k == 15 { assert Fn(k).identifierHash == 0x330f168d; }
    else { assert Fn(k).identifierHash == 0x5558edc5; }
  }

  lemma {:induction false} RoutineIndices(k: FnRef)
    requires 17 <= k < 21
    ensures HashIndex(Fn(k).identifierHash) == if k == 6 then 0 else k
  {
    if k == 17 { assert Fn(k).identifierHash == 0x7dee3bcf; }
    else if k == 18 { assert Fn(k).identifierHash == 0x2a48023b; }
    else if k == 19 { assert Fn(k).identifierHash == 0xc98f4557; }
    else { assert Fn(k).identifierHash == 0xd7a2e319; }
  }
  /** Two entries store the same hash exactly when they have the same identifier: the catalog has no collision. */
  lemma {:induction false} HashesDistinct(i: FnRef, j: FnRef)
    ensures Fn(i).identifierHash == Fn(j).identifierHash <==> Fn(i).identifier == Fn(j).identifier
  {
    HashIndexOf(i);
    HashIndexOf(j);
    EntryHash(i);
    EntryHash(j);
    if Fn(i).identifierHash == Fn(j).identifierHash && i != j {
      assert {i, j} == {0, 6};
      assert Fn(0).identifier == Fn(6).identifier;
    }
  }

  /** Every entry has the fields its builder gives it: unary, binary or routine. */
  lemma {:induction false} CatalogShapes(f: FnRef)
    ensures Fn(f).syntax == INFIX && Fn(f).arityType == STATIC ==>
              Fn(f).arity == 1 && Fn(f).precedence == L1 && Fn(f).commutativity == Commutativity.ALL && Fn(f).associativity == Associativity.RIGHT
    ensures Fn(f).syntax == INFIX && Fn(f).arityType == DYNAMIC ==> Fn(f).arity == 2
    ensures Fn(f).syntax == ROUTINE ==> Fn(f).precedence == L1
    ensures Fn(f).arity >= 1
  {
  }

  // ---------------------------------------------------------------------------
  // Lookup

  /** STATIC entries take exactly `arity` arguments, DYNAMIC ones at least `arity`. */
  predicate ArityMatch(f: Function, arity: nat)
  {
    if f.arityType == STATIC then arity == f.arity else arity >= f.arity
  }

  /** The test of the lookup loop: the arity rule and the stored hash, never the text. */
  predicate Matches(f: Function, hash: bv32, arity: nat)
  {
    ArityMatch(f, arity) && f.identifierHash == hash
  }

  /** The first entry at index `i` or later that passes the test. */
  function FindFrom(hash: bv32, arity: Byte, i: nat): (r: Option<FnRef>)
    requires i <= 21
    ensures r.Some? ==> i <= r.value && Matches(Fn(r.value), hash, arity)
    decreases 21 - i
  {
    if i == 21 then None
    else if Matches(CATALOG[i], hash, arity) then Some(i)
    else FindFrom(hash, arity, i + 1)
  }

  /** FindFrom finds the FIRST passing entry: none before its result passes, and none at all when it finds nothing. */
  lemma {:induction false} FindFromFirst(hash: bv32, arity: Byte, i: nat)
    requires i <= 21
    ensures FindFrom(hash, arity, i).Some? ==>
              forall j {:trigger Matches(CATALOG[j], hash, arity)} :: i <= j < FindFrom(hash, arity, i).value ==> !Matches(CATALOG[j], hash, arity)
    ensures FindFrom(hash, arity, i).None? ==>
              forall j {:trigger Matches(CATALOG[j], hash, arity)} :: i <= j < 21 ==> !Matches(CATALOG[j], hash, arity)
    decreases 21 - i
  {
    if i < 21 && !Matches(CATALOG[i], hash, arity) {
      var r := FindFrom(hash, arity, i + 1);
      assert FindFrom(hash, arity, i) == r;
      FindFromFirst(hash, arity, i + 1);
      var end := if r.Some? then r.value else 21;
      forall j | i <= j < end
        ensures !Matches(CATALOG[j], hash, arity)
      {
        if j == i {
        } else {
          assert i + 1 <= j;
        }
      }
    }
  }

  /** function::get, as a value: the first entry in catalog order that passes the test, or null. */
  function Find(identifier: string, arity: Byte): (r: Option<FnRef>)
    ensures r.Some? ==> Matches(Fn(r.value), Fnv1a(identifier), arity)
  {
    FindFrom(Fnv1a(identifier), arity, 0)
  }

  /** The entry Find returns is the first that passes; when it returns null, no entry passes. */
  lemma {:induction false} FindIsFirst(identifier: string, arity: Byte)
    ensures Find(identifier, arity).Some? ==>
              forall j {:trigger Matches(CATALOG[j], Fnv1a(identifier), arity)} :: 0 <= j < Find(identifier, arity).value ==> !Matches(CATALOG[j], Fnv1a(identifier), arity)
    ensures Find(identifier, arity).None? ==>
              forall j {:trigger Matches(CATALOG[j], Fnv1a(identifier), arity)} :: 0 <= j < 21 ==> !Matches(CATALOG[j], Fnv1a(identifier), arity)
  {
    FindFromFirst(Fnv1a(identifier), arity, 0);
  }

  /** No catalog entry takes zero arguments, so a successful lookup of a count means a non-empty count. */
  lemma {:induction false} FoundTakesArguments(identifier: string, count: nat)
    requires Find(identifier, count % 256).Some?
    ensures count >= 1
  {
    var f := Find(identifier, count % 256).value;
    assert ArityMatch(Fn(f), count % 256);
    NoNullary(f);
  }

  /** So looking up zero arguments never finds anything. */
  lemma {:induction false} NoNullaryLookup(identifier: string)
    ensures Find(identifier, 0) == None
  {
    if Find(identifier, 0).Some? {
      NoNullary(Find(identifier, 0).value);
    }
  }

  lemma {:induction false} NoNullary(f: FnRef)
    ensures !ArityMatch(Fn(f), 0)
  {
    CatalogShapes(f);
  }

  /** function::get: hash the identifier once, then scan the catalog. */
  method Get(identifier: string, arity: Byte) returns (r: Option<FnRef>)
    ensures r == Find(identifier, arity)
  {
    var hash := Hash(identifier);
    r := Scan(hash, arity);
  }

  /** The loop of function::get: the first entry that passes the test, or null. */
  method Scan(hash: bv32, arity: Byte) returns (r: Option<FnRef>)
    ensures r == FindFrom(hash, arity, 0)
  {
    for i := 0 to 21
      invariant forall j {:trigger Matches(CATALOG[j], hash, arity)} :: 0 <= j < i ==> !Matches(CATALOG[j], hash, arity)
    {
      var fn := CATALOG[i];
      var arityMatch := if fn.arityType == STATIC then arity == fn.arity else arity >= fn.arity;
      if arityMatch && fn.identifierHash == hash {
        FirstMatch(hash, arity, i);
        return Some(i);
      }
      forall j | 0 <= j < i + 1
        ensures !Matches(CATALOG[j], hash, arity)
      {
        if j == i {
          assert CATALOG[j] == fn;
        }
      }
    }
    NoMatch(hash, arity);
    return None;
  }

  lemma {:induction false} FirstMatch(hash: bv32, arity: Byte, i: FnRef)
    requires Matches(CATALOG[i], hash, arity)
    requires forall j {:trigger Matches(CATALOG[j], hash, arity)} :: 0 <= j < i ==> !Matches(CATALOG[j], hash, arity)
    ensures FindFrom(hash, arity, 0) == Some(i)
  {
    var r := FindFrom(hash, arity, 0);
    FindFromFirst(hash, arity, 0);
    assert r.Some?;
    assert !(r.value < i) && !(i < r.value);
  }

  lemma {:induction false} NoMatch(hash: bv32, arity: Byte)
    requires forall j {:trigger Matches(CATALOG[j], hash, arity)} :: 0 <= j < 21 ==> !Matches(CATALOG[j], hash, arity)
    ensures FindFrom(hash, arity, 0) == None
  {
  }

  /** An entry whose hash no earlier entry shares is found by its own hash when its arity rule passes. */
  lemma {:induction false} FirstWithHash(k: FnRef, arity: Byte)
    requires k != 6 && ArityMatch(Fn(k), arity)
    ensures FindFrom(Fn(k).identifierHash, arity, 0) == Some(k)
  {
    forall j | 0 <= j < k
      ensures !Matches(CATALOG[j], Fn(k).identifierHash, arity)
    {
      HashIndexOf(j);
      HashIndexOf(k);
    }
    FirstMatch(Fn(k).identifierHash, arity, k);
  }

  /** An entry whose hash no other entry shares, looked up with an arity it rejects, is not found. */
  lemma {:induction false} NoneWithHash(k: FnRef, arity: Byte)
    requires k != 0 && k != 6 && !ArityMatch(Fn(k), arity)
    ensures FindFrom(Fn(k).identifierHash, arity, 0) == None
  {
    forall j | 0 <= j < 21
      ensures !Matches(CATALOG[j], Fn(k).identifierHash, arity)
    {
      HashIndexOf(j);
      HashIndexOf(k);
    }
    NoMatch(Fn(k).identifierHash, arity);
  }

  /** The reference lookup: the first entry whose identifier TEXT equals `identifier` and whose arity rule passes. */
  function FindByText(identifier: string, arity: nat, i: nat): (r: Option<FnRef>)
    requires i <= 21
    decreases 21 - i
  {
    if i == 21 then None
    else if Fn(i).identifier == identifier && ArityMatch(Fn(i), arity) then Some(i)
    else FindByText(identifier, arity, i + 1)
  }

  /** When the hash test and the text test agree on every entry from `i` on, so do the two searches. */
  lemma {:induction false} SameSearch(hash: bv32, identifier: string, arity: Byte, i: nat)
    requires i <= 21
    requires forall j :: i <= j < 21 ==> (Fn(j).identifierHash == hash <==> Fn(j).identifier == identifier)
    ensures FindFrom(hash, arity, i) == FindByText(identifier, arity, i)
    decreases 21 - i
  {
    if i < 21 {
      SameSearch(hash, identifier, arity, i + 1);
    }
  }

  /**
   * For an identifier of the catalog, looking up by hash finds the entry that
   * looking up by text finds: the hash never confuses two functions.
   */
  lemma {:induction false} FindMatchesText(identifier: string, arity: Byte)
    requires identifier in Identifiers()
    ensures Find(identifier, arity) == FindByText(identifier, arity, 0)
  {
    var k :| 0 <= k < 21 && Fn(k).identifier == identifier;
    EntryHash(k);
    forall j | 0 <= j < 21
      ensures Fn(j).identifierHash == Fnv1a(identifier) <==> Fn(j).identifier == identifier
    {
      HashesDistinct(j, k);
    }
    SameSearch(Fnv1a(identifier), identifier, arity, 0);
  }

  /** IDENTIFIERS: the set of catalog identifiers. */
  function Identifiers(): (ids: set<string>)
    ensures forall k: FnRef :: Fn(k).identifier in ids
  {
    set i | 0 <= i < 21 :: Fn(i).identifier
  }

  /** Building IDENTIFIERS: one insertion per catalog entry. */
  method CollectIdentifiers() returns (out: set<string>)
    ensures out == Identifiers()
    ensures forall s :: s in out <==> exists i :: 0 <= i < 21 && Fn(i).identifier == s
  {
    out := {};
    for i := 0 to 21
      invariant out == set j | 0 <= j < i :: Fn(j).identifier
    {
      out := out + {Fn(i).identifier};
    }
  }

  // ---------------------------------------------------------------------------
  // Facts about particular lookups

  /** An identifier with the hash stored in entry k is looked up by scanning for that stored hash. */
  lemma {:induction false} LookupByStoredHash(identifier: string, arity: Byte, k: FnRef)
    requires Fnv1a(identifier) == Fn(k).identifierHash
    ensures Find(identifier, arity) == FindFrom(Fn(k).identifierHash, arity, 0)
  {
  }

  /** The lookup of entry k's own identifier. */
  lemma {:induction false} LookupOwnIdentifier(arity: Byte, k: FnRef)
    ensures Find(Fn(k).identifier, arity) == FindFrom(Fn(k).identifierHash, arity, 0)
  {
    EntryHash(k);
    LookupByStoredHash(Fn(k).identifier, arity, k);
  }

  /** `-` resolves to the unary minus (entry 0) at arity 1 and to the binary minus (entry 6) at arity 2. */
  lemma {:induction false} FindMinus()
    ensures Fn(0).identifier == "-" == Fn(6).identifier
    ensures Find("-", 1) == Some(0)
    ensures Find("-", 2) == Some(6)
  {
    EntryHash(0);
    MinusArities(Fn(0).identifier);
  }

  /** An identifier hashing like `-` is the unary minus at arity 1 and the binary minus at arity 2. */
  lemma {:induction false} MinusArities(s: string)
    requires Fnv1a(s) == Fn(0).identifierHash
    ensures Find(s, 1) == Some(0) && Find(s, 2) == Some(6)
  {
    var h := Fn(0).identifierHash;
    FirstMatch(h, 1, 0);
    forall j | 0 <= j < 6
      ensures !Matches(CATALOG[j], h, 2)
    {
      HashIndexOf(j);
      HashIndexOf(0);
    }
    FirstMatch(h, 2, 6);
  }

  /** sqrt (entry 17) takes exactly one argument, so no entry accepts it with two. */
  lemma {:induction false} FindSqrt()
    ensures Find(Fn(17).identifier, 1) == Some(17)
    ensures Find(Fn(17).identifier, 2) == None
  {
    EntryHash(17);
    SqrtArities(Fn(17).identifier);
  }

  lemma {:induction false} SqrtArities(s: string)
    requires Fnv1a(s) == Fn(17).identifierHash
    ensures Find(s, 1) == Some(17) && Find(s, 2) == None
  {
    FirstWithHash(17, 1);
    NoneWithHash(17, 2);
  }

  /** min (entry 19) takes two or more arguments. */
  lemma {:induction false} FindMin()
    ensures Find(Fn(19).identifier, 1) == None
    ensures Find(Fn(19).identifier, 3) == Some(19)
  {
    EntryHash(19);
    MinArities(Fn(19).identifier);
  }

  lemma {:induction false} MinArities(s: string)
    requires Fnv1a(s) == Fn(19).identifierHash
    ensures Find(s, 1) == None && Find(s, 3) == Some(19)
  {
    NoneWithHash(19, 1);
    FirstWithHash(19, 3);
  }

  /** The function implicit multiplication builds: get("*", 2). */
  const MULTIPLICATION: FnRef := 2

  lemma {:induction false} MultiplicationFound()
    ensures Fn(MULTIPLICATION).identifier == "*" && Fn(MULTIPLICATION).syntax == INFIX
    ensures Find("*", 2) == Some(MULTIPLICATION)
  {
    LookupOwnIdentifier(2, 2);
    FirstWithHash(2, 2);
  }

  /** "+" is binary addition (entry 5) and is not a prefix operator. */
  lemma {:induction false} FindPlus()
    ensures Find("+", 1) == None
    ensures Find("+", 2) == Some(5)
  {
    HashOfPlus();
    PlusNotUnary("+");
    PlusBinary("+");
  }

  lemma {:induction false} PlusNotUnary(s: string)
    requires Fnv1a(s) == 0x2e0c9daa
    ensures Find(s, 1) == None
  {
    assert Fn(5).identifierHash == 0x2e0c9daa;
    NoneWithHash(5, 1);
  }

  lemma {:induction false} PlusBinary(s: string)
    requires Fnv1a(s) == 0x2e0c9daa
    ensures Find(s, 2) == Some(5)
  {
    assert Fn(5).identifierHash == 0x2e0c9daa;
    FirstWithHash(5, 2);
  }

  /** "**" is the binary power (entry 1). */
  lemma {:induction false} FindPower()
    ensures Find("**", 2) == Some(1)
  {
    HashOfPower();
    PowerBinary("**");
  }

  lemma {:induction false} PowerBinary(s: string)
    requires Fnv1a(s) == 0x27de7135
    ensures Find(s, 2) == Some(1)
  {
    assert Fn(1).identifierHash == 0x27de7135;
    FirstWithHash(1, 2);
  }

  /** Among entries that accept two arguments, only L1 ones are right-associative. */
  lemma {:induction false} RightAssociativeIsTightest(f: FnRef)
    requires ArityMatch(Fn(f), 2) && Fn(f).associativity == Associativity.RIGHT
    ensures Fn(f).precedence == L1
  {
  }
}
