/** Small value types shared by every other module. */
module Basics {

  /** An optional value; stands for a nullable pointer or std::optional. */
  datatype Option<T> = None | Some(value: T)

  /** A value or an error; stands for a call that may throw. */
  datatype Outcome<T, E> = Ok(value: T) | Err(error: E)

  /** An unsigned 8-bit integer (std::uint8_t). */
  type Byte = x: int | 0 <= x < 256

  /**
   * A double-precision number, kept as its IEEE-754 bit pattern. The model
   * never looks inside it: decimal parsing, decimal formatting and the
   * tolerant comparison of two doubles are supplied by the caller as
   * functions of the types below.
   */
  datatype Num = Num(bits: bv64)

  /** std::stod on a run of digits and dots; None where it throws. */
  type DecimalParser = string -> Option<Num>

  /** std::format("{}", double). */
  type DecimalFormatter = Num -> string

  /** double_equality: a tolerance comparison, not assumed reflexive (NaN). */
  type NumEquality = (Num, Num) -> bool

  /** Decimal rendering of a natural number, as std::format("{}", n) does it. */
  function NatToString(n: nat): (s: string)
    ensures |s| > 0
    ensures forall k :: 0 <= k < |s| ==> '0' <= s[k] <= '9'
    ensures |s| > 1 ==> s[0] != '0'
    decreases n
  {
    if n < 10 then [Digit(n)] else NatToString(n / 10) + [Digit(n % 10)]
  }

  function Digit(d: nat): (c: char)
    requires d < 10
    ensures '0' <= c <= '9'
  {
    ['0', '1', '2', '3', '4', '5', '6', '7', '8', '9'][d]
  }

  /** The value a decimal numeral denotes; the partner of NatToString. */
  function DecimalValue(s: string): int
  {
    if s == [] then 0 else DecimalValue(s[..|s| - 1]) * 10 + (s[|s| - 1] as int - '0' as int)
  }

  lemma {:induction false} NatToStringRoundTrip(n: nat)
    ensures DecimalValue(NatToString(n)) == n
    decreases n
  {
    var s := NatToString(n);
    if n < 10 {
      assert s[..|s| - 1] == [];
    } else {
      NatToStringRoundTrip(n / 10);
      assert s[..|s| - 1] == NatToString(n / 10);
    }
  }

  /** The elements of `parts` with `sep` between neighbours. */
  function Join(parts: seq<string>, sep: string): (r: string)
    ensures |parts| == 1 ==> r == parts[0]
    ensures parts == [] ==> r == []
  {
    if |parts| == 0 then [] else if |parts| == 1 then parts[0] else parts[0] + sep + Join(parts[1..], sep)
  }

  lemma {:induction false} JoinSnoc(parts: seq<string>, last: string, sep: string)
    requires |parts| > 0
    ensures Join(parts + [last], sep) == Join(parts, sep) + sep + last
  {
    if |parts| == 1 {
      assert parts + [last] == [parts[0], last];
      assert [parts[0], last][1..] == [last];
    } else {
      assert (parts + [last])[1..] == parts[1..] + [last];
      JoinSnoc(parts[1..], last, sep);
    }
  }

  /** All elements of a sequence of sequences, in order. */
  function Concat<T>(parts: seq<seq<T>>): seq<T>
  {
    if parts == [] then [] else parts[0] + Concat(parts[1..])
  }

  lemma {:induction false} ConcatAppend<T>(a: seq<seq<T>>, b: seq<seq<T>>)
    ensures Concat(a + b) == Concat(a) + Concat(b)
  {
    if a == [] {
      assert a + b == b;
    } else {
      assert (a + b)[1..] == a[1..] + b;
      ConcatAppend(a[1..], b);
    }
  }
}
