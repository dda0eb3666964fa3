/** The 32-bit FNV-1a hash the registry keys its lookups on (impl::hash in src/ast/function.h). */
module Hashing {

  const SEED: bv32 := 0x811C9DC5
  const PRIME: bv32 := 0x01000193

  /**
   * The value `data[0] ^ hash` XORs in: the character as a signed char,
   * promoted to int and converted to uint32. Each character is read as one
   * byte (its code modulo 256); for ASCII this is the character code itself.
   */
  function CharCode(c: char): bv32
  {
    var b := c as int % 256;
    var low := Bit(b, 1, 0x01) | Bit(b, 2, 0x02) | Bit(b, 4, 0x04) | Bit(b, 8, 0x08)
             | Bit(b, 16, 0x10) | Bit(b, 32, 0x20) | Bit(b, 64, 0x40);
    if b < 128 then low else low | 0xFFFF_FF80
  }

  /** `mask` when the bit of `b` with place value `place` is set, else 0. */
  function Bit(b: int, place: int, mask: bv32): bv32
    requires place > 0
  {
    if (b / place) % 2 == 1 then mask else 0
  }

  /** One round of the loop; bv32 multiplication wraps modulo 2^32. */
  function Step(h: bv32, c: char): bv32
  {
    (CharCode(c) ^ h) * PRIME
  }

  /** The value the loop returns from running hash `h` with `data` still to consume. */
  function HashFrom(h: bv32, data: string): bv32
    decreases |data|
  {
    if data == [] then h else HashFrom(Step(h, data[0]), data[1..])
  }

  function Fnv1a(data: string): bv32
  {
    HashFrom(SEED, data)
  }

  /** impl::hash: consumes `data` from the front, one round per character. */
  method Hash(data: string) returns (hash: bv32)
    ensures hash == Fnv1a(data)
  {
    hash := SEED;
    var rest := data;
    while rest != []
      invariant HashFrom(hash, rest) == Fnv1a(data)
      decreases |rest|
    {
      hash := Step(hash, rest[0]);
      rest := rest[1..];
    }
  }

  /**
   * Read left to right: the hash of "" is the seed, and appending a character
   * c maps the hash h of the prefix to (c ^ h) * PRIME modulo 2^32.
   */
  lemma {:induction false} HashSnoc(h: bv32, s: string, c: char)
    ensures HashFrom(h, s + [c]) == Step(HashFrom(h, s), c)
    decreases |s|
  {
    if s == [] {
      assert ([] + [c])[1..] == [];
    } else {
      assert (s + [c])[1..] == s[1..] + [c];
      HashSnoc(Step(h, s[0]), s[1..], c);
    }
  }

  lemma {:induction false} HashEmptyAndSnoc(s: string, c: char)
    ensures Fnv1a("") == 0x811C9DC5
    ensures Fnv1a(s + [c]) == Step(Fnv1a(s), c)
  {
    HashSnoc(SEED, s, c);
  }

  lemma {:induction false} Unfold(h: bv32, c: char, s: string)
    ensures HashFrom(h, [c] + s) == HashFrom(Step(h, c), s)
  {
    assert ([c] + s)[1..] == s;
  }

  // The rounds needed for the catalog's identifiers, each evaluated on its own.
  lemma {:induction false} Round01() ensures Step(0x811c9dc5, '-') == 0x280c9438 {}
  lemma {:induction false} Round02() ensures Step(0x811c9dc5, '*') == 0x2f0c9f3d {}
  lemma {:induction false} Round03() ensures Step(0x2f0c9f3d, '*') == 0x27de7135 {}
  lemma {:induction false} Round04() ensures Step(0x811c9dc5, '/') == 0x2a0c975e {}
  lemma {:induction false} Round05() ensures Step(0x811c9dc5, '%') == 0x200c87a0 {}
  lemma {:induction false} Round06() ensures Step(0x811c9dc5, '+') == 0x2e0c9daa {}
  lemma {:induction false} Round07() ensures Step(0x811c9dc5, '=') == 0x380cad68 {}
  lemma {:induction false} Round08() ensures Step(0x380cad68, '=') == 0x90f4dccf {}
  lemma {:induction false} Round09() ensures Step(0x811c9dc5, '!') == 0x240c8dec {}
  lemma {:induction false} Round10() ensures Step(0x240c8dec, '=') == 0x90c34003 {}
  lemma {:induction false} Round11() ensures Step(0x811c9dc5, '<') == 0x390caefb {}
  lemma {:induction false} Round12() ensures Step(0x390caefb, '=') == 0x94f721b2 {}
  lemma {:induction false} Round13() ensures Step(0x811c9dc5, '>') == 0x3b0cb221 {}
  lemma {:induction false} Round14() ensures Step(0x3b0cb221, '=') == 0x10fc6214 {}
  lemma {:induction false} Round15() ensures Step(0x811c9dc5, '&') == 0x230c8c59 {}
  lemma {:induction false} Round16() ensures Step(0x230c8c59, '&') == 0xabc12bed {}
  lemma {:induction false} Round17() ensures Step(0x811c9dc5, '^') == 0xdb0c1b01 {}
  lemma {:induction false} Round18() ensures Step(0xdb0c1b01, '^') == 0x330f168d {}
  lemma {:induction false} Round19() ensures Step(0x811c9dc5, '|') == 0xf90c4a3b {}
  lemma {:induction false} Round20() ensures Step(0xf90c4a3b, '|') == 0x5558edc5 {}
  lemma {:induction false} Round21() ensures Step(0x811c9dc5, 's') == 0xf60c4582 {}
  lemma {:induction false} Round22() ensures Step(0xf60c4582, 'q') == 0x48521d89 {}
  lemma {:induction false} Round23() ensures Step(0x48521d89, 'r') == 0xd4453221 {}
  lemma {:induction false} Round24() ensures Step(0xd4453221, 't') == 0x7dee3bcf {}
  lemma {:induction false} Round25() ensures Step(0x811c9dc5, 'a') == 0xe40c292c {}
  lemma {:induction false} Round26() ensures Step(0xe40c292c, 'b') == 0x4d2505ca {}
  lemma {:induction false} Round27() ensures Step(0x4d2505ca, 's') == 0x2a48023b {}
  lemma {:induction false} Round28() ensures Step(0x811c9dc5, 'm') == 0xe80c2f78 {}
  lemma {:induction false} Round29() ensures Step(0xe80c2f78, 'i') == 0x5c2e17c3 {}
  lemma {:induction false} Round30() ensures Step(0x5c2e17c3, 'n') == 0xc98f4557 {}
  lemma {:induction false} Round31() ensures Step(0xe80c2f78, 'a') == 0x642e245b {}
  lemma {:induction false} Round32() ensures Step(0x642e245b, 'x') == 0xd7a2e319 {}

  lemma {:induction false} HashOfMinus() ensures Fnv1a("-") == 0x280c9438 {
    assert "-" == ['-'] + "";
    Unfold(0x811c9dc5, '-', ""); Round01();
  }
  lemma {:induction false} HashOfPower() ensures Fnv1a("**") == 0x27de7135 {
    assert "**" == ['*'] + "*" && "*" == ['*'] + "";
    Unfold(0x811c9dc5, '*', "*"); Round02();
    Unfold(0x2f0c9f3d, '*', ""); Round03();
  }
  lemma {:induction false} HashOfTimes() ensures Fnv1a("*") == 0x2f0c9f3d {
    assert "*" == ['*'] + "";
    Unfold(0x811c9dc5, '*', ""); Round02();
  }
  lemma {:induction false} HashOfDivide() ensures Fnv1a("/") == 0x2a0c975e {
    assert "/" == ['/'] + "";
    Unfold(0x811c9dc5, '/', ""); Round04();
  }
  lemma {:induction false} HashOfModulo() ensures Fnv1a("%") == 0x200c87a0 {
    assert "%" == ['%'] + "";
    Unfold(0x811c9dc5, '%', ""); Round05();
  }
  lemma {:induction false} HashOfPlus() ensures Fnv1a("+") == 0x2e0c9daa {
    assert "+" == ['+'] + "";
    Unfold(0x811c9dc5, '+', ""); Round06();
  }
  lemma {:induction false} HashOfEqual() ensures Fnv1a("==") == 0x90f4dccf {
    assert "==" == ['='] + "=" && "=" == ['='] + "";
    Unfold(0x811c9dc5, '=', "="); Round07();
    Unfold(0x380cad68, '=', ""); Round08();
  }
  lemma {:induction false} HashOfNotEqual() ensures Fnv1a("!=") == 0x90c34003 {
    assert "!=" == ['!'] + "=" && "=" == ['='] + "";
    Unfold(0x811c9dc5, '!', "="); Round09();
    Unfold(0x240c8dec, '=', ""); Round10();
  }
  lemma {:induction false} HashOfLess() ensures Fnv1a("<") == 0x390caefb {
    assert "<" == ['<'] + "";
    Unfold(0x811c9dc5, '<', ""); Round11();
  }
  lemma {:induction false} HashOfLessEqual() ensures Fnv1a("<=") == 0x94f721b2 {
    assert "<=" == ['<'] + "=" && "=" == ['='] + "";
    Unfold(0x811c9dc5, '<', "="); Round11();
    Unfold(0x390caefb, '=', ""); Round12();
  }
  lemma {:induction false} HashOfGreater() ensures Fnv1a(">") == 0x3b0cb221 {
    assert ">" == ['>'] + "";
    Unfold(0x811c9dc5, '>', ""); Round13();
  }
  lemma {:induction false} HashOfGreaterEqual() ensures Fnv1a(">=") == 0x10fc6214 {
    assert ">=" == ['>'] + "=" && "=" == ['='] + "";
    Unfold(0x811c9dc5, '>', "="); Round13();
    Unfold(0x3b0cb221, '=', ""); Round14();
  }
  lemma {:induction false} HashOfNot() ensures Fnv1a("!") == 0x240c8dec {
    assert "!" == ['!'] + "";
    Unfold(0x811c9dc5, '!', ""); Round09();
  }
  lemma {:induction false} HashOfAnd() ensures Fnv1a("&&") == 0xabc12bed {
    assert "&&" == ['&'] + "&" && "&" == ['&'] + "";
    Unfold(0x811c9dc5, '&', "&"); Round15();
    Unfold(0x230c8c59, '&', ""); Round16();
  }
  lemma {:induction false} HashOfXor() ensures Fnv1a("^^") == 0x330f168d {
    assert "^^" == ['^'] + "^" && "^" == ['^'] + "";
    Unfold(0x811c9dc5, '^', "^"); Round17();
    Unfold(0xdb0c1b01, '^', ""); Round18();
  }
  lemma {:induction false} HashOfOr() ensures Fnv1a("||") == 0x5558edc5 {
    assert "||" == ['|'] + "|" && "|" == ['|'] + "";
    Unfold(0x811c9dc5, '|', "|"); Round19();
    Unfold(0xf90c4a3b, '|', ""); Round20();
  }
  lemma {:induction false} HashOfSqrt() ensures Fnv1a("sqrt") == 0x7dee3bcf {
    assert "sqrt" == ['s'] + "qrt" && "qrt" == ['q'] + "rt" && "rt" == ['r'] + "t" && "t" == ['t'] + "";
    Unfold(0x811c9dc5, 's', "qrt"); Round21();
    Unfold(0xf60c4582, 'q', "rt"); Round22();
    Unfold(0x48521d89, 'r', "t"); Round23();
    Unfold(0xd4453221, 't', ""); Round24();
  }
  lemma {:induction false} HashOfAbs() ensures Fnv1a("abs") == 0x2a48023b {
    assert "abs" == ['a'] + "bs" && "bs" == ['b'] + "s" && "s" == ['s'] + "";
    Unfold(0x811c9dc5, 'a', "bs"); Round25();
    Unfold(0xe40c292c, 'b', "s"); Round26();
    Unfold(0x4d2505ca, 's', ""); Round27();
  }
  lemma {:induction false} HashOfMin() ensures Fnv1a("min") == 0xc98f4557 {
    assert "min" == ['m'] + "in" && "in" == ['i'] + "n" && "n" == ['n'] + "";
    Unfold(0x811c9dc5, 'm', "in"); Round28();
    Unfold(0xe80c2f78, 'i', "n"); Round29();
    Unfold(0x5c2e17c3, 'n', ""); Round30();
  }
  lemma {:induction false} HashOfMax() ensures Fnv1a("max") == 0xd7a2e319 {
    assert "max" == ['m'] + "ax" && "ax" == ['a'] + "x" && "x" == ['x'] + "";
    Unfold(0x811c9dc5, 'm', "ax"); Round28();
    Unfold(0xe80c2f78, 'a', "x"); Round31();
    Unfold(0x642e245b, 'x', ""); Round32();
  }
}
