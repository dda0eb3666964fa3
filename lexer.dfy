/** Tokenization (src/parser/lexer.h, src/parser/lexer.cpp). */
module Lexing {
  import opened Basics

  // ---------------------------------------------------------------------------
  // Tokens

  /**
   * The token sum type: a single character, a number, a bare name, the text
   * of a function identifier (never a resolved function, since that needs
   * the arity), or the end of the stream.
   */
  datatype Token = Char(c: char) | Number(value: Num) | Name(text: string) | Ident(text: string) | EOL

  /**
   * Token::to_string. A character, a name or an identifier prints as the
   * text it was lexed from (Describes); a number prints through the
   * formatter, which need not give back the numeral.
   */
  function TokenString(t: Token, format: DecimalFormatter): (s: string)
    ensures forall text, ids, stod {:trigger Describes(t, text, ids, stod)} ::
              Describes(t, text, ids, stod) && !t.Number? ==> s == text
  {
    match t
    case Char(c) => [c]
    case Number(v) => format(v)
    case Name(text) => text
    case Ident(text) => text
    case EOL => "EOL"
  }

  // ---------------------------------------------------------------------------
  // Character classes (ASCII, the "C" locale)

  datatype Category = ALPHA | DIGIT | SYMBOL | WHITESPACE

  predicate IsAlpha(c: char)
  {
    'a' <= c <= 'z' || 'A' <= c <= 'Z'
  }

  predicate IsDigit(c: char)
  {
    '0' <= c <= '9'
  }

  /** std::isspace: space, tab, newline, vertical tab, form feed, carriage return. */
  predicate IsSpace(c: char)
  {
    c == ' ' || c == '\t' || c == '\n' || c == '\U{B}' || c == '\U{C}' || c == '\r'
  }

  /** categorize(char): letters and '_' are ALPHA, digits and '.' DIGIT, white space WHITESPACE, the rest SYMBOL. */
  function CategoryOf(c: char): (cat: Category)
    ensures cat == ALPHA <==> IsAlpha(c) || c == '_'
    ensures cat == DIGIT <==> IsDigit(c) || c == '.'
    ensures cat == WHITESPACE <==> IsSpace(c)
    ensures cat == SYMBOL <==> !IsAlpha(c) && c != '_' && !IsDigit(c) && c != '.' && !IsSpace(c)
  {
    if IsAlpha(c) || c == '_' then ALPHA
    else if IsDigit(c) || c == '.' then DIGIT
    else if IsSpace(c) then WHITESPACE
    else SYMBOL
  }

  // ---------------------------------------------------------------------------
  // Segments: maximal runs of one category

  datatype Segment = Segment(category: Category, text: string)

  /** The segments of the first `n` characters of `s`, built one character at a time. */
  function Runs(s: string, n: nat): (segs: seq<Segment>)
    requires 0 < n <= |s|
    ensures |segs| > 0
  {
    if n == 1 then [Segment(CategoryOf(s[0]), [s[0]])]
    else
      var prev := Runs(s, n - 1);
      var last := prev[|prev| - 1];
      var c := s[n - 1];
      if CategoryOf(c) == last.category then prev[..|prev| - 1] + [Segment(last.category, last.text + [c])]
      else prev + [Segment(CategoryOf(c), [c])]
  }

  /** The segments of a whole non-empty input. */
  function Segments(s: string): (segs: seq<Segment>)
    requires |s| > 0
  {
    Runs(s, |s|)
  }

  /** The texts of `segs`, one after the other. */
  function Joined(segs: seq<Segment>): string
  {
    if segs == [] then [] else Joined(segs[..|segs| - 1]) + segs[|segs| - 1].text
  }

  /** A segment is a non-empty run of characters of its category. */
  predicate Uniform(seg: Segment)
  {
    |seg.text| > 0 && forall k :: 0 <= k < |seg.text| ==> CategoryOf(seg.text[k]) == seg.category
  }

  /** Segmentation: the runs cover `s` in order, each is uniform, and neighbours differ in category. */
  predicate SegmentsOf(segs: seq<Segment>, s: string)
  {
    && Joined(segs) == s
    && (forall i :: 0 <= i < |segs| ==> Uniform(segs[i]))
    && (forall i :: 0 < i < |segs| ==> segs[i - 1].category != segs[i].category)
  }

  lemma {:induction false} JoinedSnoc(segs: seq<Segment>, seg: Segment)
    ensures Joined(segs + [seg]) == Joined(segs) + seg.text
  {
    assert (segs + [seg])[..|segs|] == segs;
  }

  /** The runs of a prefix spell it out. */
  lemma {:induction false} RunsJoin(s: string, n: nat)
    requires 0 < n <= |s|
    ensures Joined(Runs(s, n)) == s[..n]
  {
    if n == 1 {
      RunsJoinFirst(s);
    } else {
      RunsJoin(s, n - 1);
      RunsJoinNext(s, n);
    }
  }

  lemma {:induction false} RunsJoinFirst(s: string)
    requires 0 < |s|
    ensures Joined(Runs(s, 1)) == s[..1]
  {
    var seg := Segment(CategoryOf(s[0]), [s[0]]);
    assert Runs(s, 1) == [seg];
    assert [seg][..0] == [];
    assert Joined([seg]) == Joined([]) + seg.text;
    assert seg.text == s[..1];
  }

  lemma {:induction false} RunsJoinNext(s: string, n: nat)
    requires 1 < n <= |s|
    requires Joined(Runs(s, n - 1)) == s[..n - 1]
    ensures Joined(Runs(s, n)) == s[..n]
  {
    RunsGrow(s, n);
    PrefixSnoc(s, n);
  }

  lemma {:induction false} PrefixSnoc(s: string, n: nat)
    requires 0 < n <= |s|
    ensures s[..n - 1] + [s[n - 1]] == s[..n]
  {
    assert forall k :: 0 <= k < n ==> (s[..n - 1] + [s[n - 1]])[k] == s[..n][k];
  }

  /** Adding a character adds it to the end of the joined text. */
  lemma {:induction false} RunsGrow(s: string, n: nat)
    requires 1 < n <= |s|
    ensures Joined(Runs(s, n)) == Joined(Runs(s, n - 1)) + [s[n - 1]]
  {
    var prev := Runs(s, n - 1);
    var last := prev[|prev| - 1];
    var c := s[n - 1];
    if CategoryOf(c) == last.category {
      var front := prev[..|prev| - 1];
      assert prev == front + [last];
      ExtendLast(front, last, c);
    } else {
      JoinedSnoc(prev, Segment(CategoryOf(c), [c]));
    }
  }

  lemma {:induction false} ExtendLast(front: seq<Segment>, last: Segment, c: char)
    ensures Joined(front + [Segment(last.category, last.text + [c])]) == Joined(front + [last]) + [c]
  {
    JoinedSnoc(front, last);
    JoinedSnoc(front, Segment(last.category, last.text + [c]));
  }

  /** Every run is a non-empty stretch of its own category. */
  lemma {:induction false} RunsUniform(s: string, n: nat)
    requires 0 < n <= |s|
    ensures forall i :: 0 <= i < |Runs(s, n)| ==> Uniform(Runs(s, n)[i])
  {
    if n > 1 {
      RunsUniform(s, n - 1);
      var prev := Runs(s, n - 1);
      var last := prev[|prev| - 1];
      var c := s[n - 1];
      if CategoryOf(c) == last.category {
        var seg := Segment(last.category, last.text + [c]);
        assert Uniform(last);
        assert Uniform(seg) by {
          forall k | 0 <= k < |seg.text| ensures CategoryOf(seg.text[k]) == seg.category {
            if k < |last.text| {
              assert seg.text[k] == last.text[k];
            }
          }
        }
      }
    }
  }

  /** Neighbouring runs differ in category, so each run is maximal. */
  lemma {:induction false} RunsAlternate(s: string, n: nat)
    requires 0 < n <= |s|
    ensures forall i :: 0 < i < |Runs(s, n)| ==> Runs(s, n)[i - 1].category != Runs(s, n)[i].category
  {
    if n > 1 {
      RunsAlternate(s, n - 1);
    }
  }

  /** The segments of a non-empty input are a segmentation of it. */
  lemma {:induction false} SegmentsCorrect(s: string)
    requires |s| > 0
    ensures SegmentsOf(Segments(s), s)
  {
    RunsJoin(s, |s|);
    RunsUniform(s, |s|);
    RunsAlternate(s, |s|);
    assert s[..|s|] == s;
  }

  lemma {:induction false} RunsStepFirst(s: string)
    requires 0 < |s|
    ensures [] + [Segment(CategoryOf(s[0]), s[0..1])] == Runs(s, 1)
  {
    assert s[0..1] == [s[0]];
  }

  /** A character of a new category opens a new run. */
  lemma {:induction false} RunsStepNew(s: string, i: nat, segments: seq<Segment>, prevCat: Category, start: nat)
    requires 0 < i < |s| && start < i
    requires segments + [Segment(prevCat, s[start..i])] == Runs(s, i)
    requires prevCat != CategoryOf(s[i])
    ensures (segments + [Segment(prevCat, s[start..i])]) + [Segment(CategoryOf(s[i]), s[i..i + 1])] == Runs(s, i + 1)
  {
    assert s[i..i + 1] == [s[i]];
  }

  /** A character of the same category extends the open run. */
  lemma {:induction false} RunsStepSame(s: string, i: nat, segments: seq<Segment>, prevCat: Category, start: nat)
    requires 0 < i < |s| && start < i
    requires segments + [Segment(prevCat, s[start..i])] == Runs(s, i)
    requires prevCat == CategoryOf(s[i])
    ensures segments + [Segment(prevCat, s[start..i + 1])] == Runs(s, i + 1)
  {
    var runs := segments + [Segment(prevCat, s[start..i])];
    assert runs[..|runs| - 1] == segments;
    assert s[start..i] + [s[i]] == s[start..i + 1];
  }

  /** One iteration of categorize(string): close the open segment when the category changes. */
  method CategorizeStep(s: string, i: nat, segments: seq<Segment>, prevCat: Category, start: nat)
    returns (segments': seq<Segment>, prevCat': Category, start': nat)
    requires i < |s|
    requires i == 0 ==> segments == [] && start == 0 && prevCat == CategoryOf(s[0])
    requires i > 0 ==> start < i && segments + [Segment(prevCat, s[start..i])] == Runs(s, i)
    ensures start' < i + 1 && segments' + [Segment(prevCat', s[start'..i + 1])] == Runs(s, i + 1)
  {
    var currentCat := CategoryOf(s[i]);
    segments', start' := segments, start;
    if i > 0 && prevCat != currentCat {
      RunsStepNew(s, i, segments, prevCat, start);
      segments' := segments + [Segment(prevCat, s[start..i])];
      start' := i;
    } else if i > 0 {
      RunsStepSame(s, i, segments, prevCat, start);
    } else {
      RunsStepFirst(s);
    }
    prevCat' := currentCat;
  }

  /** categorize(string): one pass that closes a segment whenever the category changes. */
  method Categorize(s: string) returns (segments: seq<Segment>)
    requires |s| > 0
    ensures segments == Segments(s)
  {
    segments := [];
    // prev_cat is only read once i > 0; it starts as the first character's category
    var prevCat := CategoryOf(s[0]);
    var start: nat := 0;
    for i := 0 to |s|
      invariant i == 0 ==> segments == [] && start == 0 && prevCat == CategoryOf(s[0])
      invariant i > 0 ==> start < i && segments + [Segment(prevCat, s[start..i])] == Runs(s, i)
    {
      segments, prevCat, start := CategorizeStep(s, i, segments, prevCat, start);
    }
    segments := segments + [Segment(prevCat, s[start..])];
    assert s[start..] == s[start..|s|];
  }

  // ---------------------------------------------------------------------------
  // Symbol runs: longest function identifier first, else one character

  /** A token together with the input text it was made from. */
  datatype Piece = Piece(token: Token, text: string)

  /**
   * The length of the piece at the front of a symbol run, considering only
   * its first `n` characters: the longest prefix that is a function
   * identifier, or a single character when there is none.
   */
  function PieceLength(run: string, n: nat, ids: set<string>): (k: nat)
    requires 1 <= n <= |run|
    ensures 1 <= k <= n
    ensures run[..k] in ids || k == 1
    ensures forall m :: k < m <= n ==> run[..m] !in ids
    decreases n
  {
    if run[..n] in ids then n else if n == 1 then 1 else PieceLength(run, n - 1, ids)
  }

  /** The piece at the front of a non-empty symbol run. */
  function FrontPiece(run: string, ids: set<string>): (p: Piece)
    requires |run| > 0
  {
    var k := PieceLength(run, |run|, ids);
    if run[..k] in ids then Piece(Ident(run[..k]), run[..k]) else Piece(Char(run[0]), run[..1])
  }

  /** A piece is an identifier token for a text in the set, or a one-character token for a text that is not. */
  predicate WellFormedPiece(p: Piece, ids: set<string>)
  {
    && |p.text| > 0
    && ((p.token == Ident(p.text) && p.text in ids) || (|p.text| == 1 && p.text !in ids && p.token == Char(p.text[0])))
  }

  /** No longer prefix of `rest` than the piece taken from it is an identifier. */
  predicate Longest(p: Piece, rest: string, ids: set<string>)
  {
    && |p.text| <= |rest|
    && p.text == rest[..|p.text|]
    && forall m :: |p.text| < m <= |rest| ==> rest[..m] !in ids
  }

  lemma {:induction false} FrontPieceIsLongest(run: string, ids: set<string>)
    requires |run| > 0
    ensures WellFormedPiece(FrontPiece(run, ids), ids)
    ensures Longest(FrontPiece(run, ids), run, ids)
  {
    var k := PieceLength(run, |run|, ids);
    assert run[..1] == [run[0]];
  }

  /** The pieces of a symbol run, left to right. */
  function SplitSymbols(run: string, ids: set<string>): (pieces: seq<Piece>)
    decreases |run|
  {
    if run == [] then []
    else
      var p := FrontPiece(run, ids);
      FrontPieceIsLongest(run, ids);
      [p] + SplitSymbols(run[|p.text|..], ids)
  }

  /** The texts of `pieces`, one after the other. */
  function Spelled(pieces: seq<Piece>): string
  {
    if pieces == [] then [] else pieces[0].text + Spelled(pieces[1..])
  }

  /** Unfolding of SplitSymbols at a non-empty run. */
  lemma {:induction false} SplitSymbolsFront(run: string, ids: set<string>)
    requires |run| > 0
    ensures var p := FrontPiece(run, ids);
            && WellFormedPiece(p, ids) && Longest(p, run, ids)
            && SplitSymbols(run, ids) == [p] + SplitSymbols(run[|p.text|..], ids)
            && p.text + run[|p.text|..] == run
  {
    var p := FrontPiece(run, ids);
    FrontPieceIsLongest(run, ids);
    assert p.text + run[|p.text|..] == run by {
      assert p.text == run[..|p.text|];
    }
  }

  /** Splitting a symbol run loses and adds nothing. */
  lemma {:induction false} SplitSymbolsSpelled(run: string, ids: set<string>)
    ensures Spelled(SplitSymbols(run, ids)) == run
    decreases |run|
  {
    if run != [] {
      var p := FrontPiece(run, ids);
      SplitSymbolsFront(run, ids);
      SplitSymbolsSpelled(run[|p.text|..], ids);
    }
  }

  /** Every piece of a symbol run is well formed. */
  lemma {:induction false} SplitSymbolsWellFormed(run: string, ids: set<string>)
    ensures forall i :: 0 <= i < |SplitSymbols(run, ids)| ==> WellFormedPiece(SplitSymbols(run, ids)[i], ids)
    decreases |run|
  {
    if run != [] {
      var p := FrontPiece(run, ids);
      SplitSymbolsFront(run, ids);
      SplitSymbolsWellFormed(run[|p.text|..], ids);
    }
  }

  /** Each piece is the longest identifier available where it starts (maximal munch). */
  lemma {:induction false} SplitSymbolsMaximal(run: string, ids: set<string>)
    ensures forall i :: 0 <= i < |SplitSymbols(run, ids)| ==>
              Longest(SplitSymbols(run, ids)[i], Spelled(SplitSymbols(run, ids)[i..]), ids)
    decreases |run|
  {
    if run != [] {
      var p := FrontPiece(run, ids);
      var rest := run[|p.text|..];
      SplitSymbolsFront(run, ids);
      SplitSymbolsMaximal(rest, ids);
      SplitSymbolsSpelled(run, ids);
      var pieces := SplitSymbols(run, ids);
      forall i | 0 <= i < |pieces|
        ensures Longest(pieces[i], Spelled(pieces[i..]), ids)
      {
        if i == 0 {
          assert pieces[0..] == pieces;
        } else {
          assert pieces[i..] == SplitSymbols(rest, ids)[i - 1..];
        }
      }
    }
  }

  /** The inner loop of the symbol case: shrink from the right until an identifier or a single character remains. */
  method TakePiece(rest: string, ids: set<string>) returns (token: Token, substr: string)
    requires |rest| > 0
    ensures Piece(token, substr) == FrontPiece(rest, ids)
  {
    substr := rest;
    var found: Option<Token> := None;
    while found.None?
      invariant 1 <= |substr| <= |rest| && substr == rest[..|substr|]
      invariant found.None? ==> PieceLength(rest, |substr|, ids) == PieceLength(rest, |rest|, ids)
      invariant found.Some? ==> Piece(found.value, substr) == FrontPiece(rest, ids)
      decreases |substr|, if found.None? then 1 else 0
    {
      if substr in ids {
        found := Some(Ident(substr));
      } else if |substr| == 1 {
        found := Some(Char(substr[0]));
      } else {
        substr := substr[..|substr| - 1];
        assert substr == rest[..|substr|];
      }
    }
    token := found.value;
  }

  /** The symbol case of the constructor: one piece after another until the run is used up. */
  method SplitSymbolRun(run: string, ids: set<string>) returns (pieces: seq<Piece>)
    ensures pieces == SplitSymbols(run, ids)
  {
    pieces := [];
    var start := 0;
    while start < |run|
      invariant 0 <= start <= |run|
      invariant pieces + SplitSymbols(run[start..], ids) == SplitSymbols(run, ids)
      decreases |run| - start
    {
      var token, substr := TakePiece(run[start..], ids);
      SplitAdvance(run, start, ids, pieces);
      pieces := pieces + [Piece(token, substr)];
      start := start + |substr|;
    }
    assert run[start..] == [];
  }

  /** One step of the splitting loop: the front piece of the rest moves to the pieces found so far. */
  lemma {:induction false} SplitAdvance(run: string, start: nat, ids: set<string>, pieces: seq<Piece>)
    requires start < |run| && pieces + SplitSymbols(run[start..], ids) == SplitSymbols(run, ids)
    ensures var p := FrontPiece(run[start..], ids);
            && 0 < |p.text| && start + |p.text| <= |run|
            && (pieces + [p]) + SplitSymbols(run[start + |p.text|..], ids) == SplitSymbols(run, ids)
  {
    var rest := run[start..];
    var p := FrontPiece(rest, ids);
    SplitSymbolsFront(rest, ids);
    assert rest[|p.text|..] == run[start + |p.text|..];
    var later := SplitSymbols(rest[|p.text|..], ids);
    assert (pieces + [p]) + later == pieces + ([p] + later);
  }

  // ---------------------------------------------------------------------------
  // From segments to tokens and offsets

  /** A token, the column where its text starts, and that text (" " for the end of the stream). */
  datatype Item = Item(token: Token, offset: nat, text: string)

  function End(item: Item): nat
  {
    item.offset + |item.text|
  }

  /** handle_segment for each piece of a symbol run, starting at column `offset`. */
  function PieceItems(pieces: seq<Piece>, offset: nat): (items: seq<Item>)
    ensures |items| == |pieces|
  {
    if pieces == [] then []
    else [Item(pieces[0].token, offset, pieces[0].text)] + PieceItems(pieces[1..], offset + |pieces[0].text|)
  }

  /** An alphabetic run is a function identifier when it is in the set, a name otherwise. */
  function AlphaToken(text: string, ids: set<string>): Token
  {
    if text in ids then Ident(text) else Name(text)
  }

  /** std::stod succeeds on every run of digits and dots. */
  predicate DigitsParse(segs: seq<Segment>, stod: DecimalParser)
  {
    forall i :: 0 <= i < |segs| && segs[i].category == DIGIT ==> stod(segs[i].text).Some?
  }

  /** The tokens one segment contributes; white space contributes none. */
  function SegmentItems(seg: Segment, offset: nat, ids: set<string>, stod: DecimalParser): seq<Item>
    requires seg.category == DIGIT ==> stod(seg.text).Some?
  {
    match seg.category
    case ALPHA => [Item(AlphaToken(seg.text, ids), offset, seg.text)]
    case DIGIT => [Item(Number(stod(seg.text).value), offset, seg.text)]
    case SYMBOL => PieceItems(SplitSymbols(seg.text, ids), offset)
    case WHITESPACE => []
  }

  /** The tokens of the segments from column `offset` on, closed by the end-of-stream token. */
  function ItemsFrom(segs: seq<Segment>, offset: nat, ids: set<string>, stod: DecimalParser): seq<Item>
    requires DigitsParse(segs, stod)
  {
    if segs == [] then [Item(EOL, offset, " ")]
    else SegmentItems(segs[0], offset, ids, stod) + ItemsFrom(segs[1..], offset + |segs[0].text|, ids, stod)
  }

  /**
   * The segments the constructor works through. For the empty input the
   * source emits one empty segment whose category is an uninitialised
   * variable; the model reads it as a category that emits no token.
   */
  function InputSegments(input: string): seq<Segment>
  {
    if |input| == 0 then [] else Segments(input)
  }

  predicate NumbersParse(input: string, stod: DecimalParser)
  {
    DigitsParse(InputSegments(input), stod)
  }

  /** The token stream of `input`, with the column of each token. */
  function Lex(input: string, ids: set<string>, stod: DecimalParser): seq<Item>
    requires NumbersParse(input, stod)
  {
    ItemsFrom(InputSegments(input), 0, ids, stod)
  }

  // ---------------------------------------------------------------------------
  // The token stream spells out the input

  /** The token says what its text is. */
  predicate Describes(token: Token, text: string, ids: set<string>, stod: DecimalParser)
  {
    match token
    case Char(c) => text == [c] && text !in ids
    case Ident(t) => t == text && t in ids
    case Name(t) => t == text && t !in ids && forall k :: 0 <= k < |t| ==> CategoryOf(t[k]) == ALPHA
    case Number(v) => stod(text) == Some(v) && forall k :: 0 <= k < |text| ==> CategoryOf(text[k]) == DIGIT
    case EOL => false
  }

  /** An item's text is non-empty, sits in the input at its offset, and is described by its token. */
  predicate Faithful(item: Item, input: string, ids: set<string>, stod: DecimalParser)
  {
    && |item.text| > 0
    && End(item) <= |input|
    && input[item.offset..End(item)] == item.text
    && Describes(item.token, item.text, ids, stod)
  }

  /** Only white space lies in columns `from` up to `to`. */
  predicate Blank(input: string, from: nat, to: nat)
  {
    from <= to <= |input| && forall p :: from <= p < to ==> IsSpace(input[p])
  }

  /**
   * The items read the input from column `from` to its end: each token but
   * the last is faithful to its text, only white space lies between
   * neighbours, and the last is the end-of-stream token at column |input|.
   */
  predicate LaidOut(items: seq<Item>, input: string, from: nat, ids: set<string>, stod: DecimalParser)
  {
    && |items| > 0
    && Blank(input, from, items[0].offset)
    && items[|items| - 1] == Item(EOL, |input|, " ")
    && (forall i :: 0 <= i < |items| - 1 ==> Faithful(items[i], input, ids, stod))
    && (forall i :: 0 <= i < |items| - 1 ==> End(items[i]) <= items[i + 1].offset)
    && (forall i :: 0 <= i < |items| - 1 ==> Blank(input, End(items[i]), items[i + 1].offset))
  }

  /** A block of items that covers columns `from` to `to` exactly, with no gaps. */
  predicate Tiles(items: seq<Item>, input: string, from: nat, to: nat, ids: set<string>, stod: DecimalParser)
  {
    && (items == [] ==> from == to)
    && (items != [] ==> items[0].offset == from && End(items[|items| - 1]) == to)
    && (forall i :: 0 <= i < |items| ==> Faithful(items[i], input, ids, stod))
    && (forall i :: 0 < i < |items| ==> End(items[i - 1]) == items[i].offset)
  }

  lemma {:induction false} SpelledCons(p: Piece, pieces: seq<Piece>)
    ensures Spelled([p] + pieces) == p.text + Spelled(pieces)
  {
    assert ([p] + pieces)[1..] == pieces;
  }

  /** The pieces of a symbol run that sits at column `offset` tile it. */
  lemma {:induction false} PieceItemsTile(pieces: seq<Piece>, offset: nat, input: string, ids: set<string>, stod: DecimalParser)
    requires offset + |Spelled(pieces)| <= |input|
    requires input[offset..offset + |Spelled(pieces)|] == Spelled(pieces)
    requires forall i :: 0 <= i < |pieces| ==> WellFormedPiece(pieces[i], ids)
    ensures Tiles(PieceItems(pieces, offset), input, offset, offset + |Spelled(pieces)|, ids, stod)
  {
    if pieces != [] {
      var p := pieces[0];
      var mid := offset + |p.text|;
      FirstPieceText(pieces, offset, input, ids, stod);
      PieceItemsTile(pieces[1..], mid, input, ids, stod);
      TilesCons(Item(p.token, offset, p.text), PieceItems(pieces[1..], mid), input, mid, offset + |Spelled(pieces)|, ids, stod);
    }
  }

  /** The first piece sits at `offset` and the other pieces spell the input after it. */
  lemma {:induction false} FirstPieceText(pieces: seq<Piece>, offset: nat, input: string, ids: set<string>, stod: DecimalParser)
    requires pieces != []
    requires offset + |Spelled(pieces)| <= |input|
    requires input[offset..offset + |Spelled(pieces)|] == Spelled(pieces)
    requires forall i :: 0 <= i < |pieces| ==> WellFormedPiece(pieces[i], ids)
    ensures Faithful(Item(pieces[0].token, offset, pieces[0].text), input, ids, stod)
    ensures forall i :: 0 <= i < |pieces[1..]| ==> WellFormedPiece(pieces[1..][i], ids)
    ensures |Spelled(pieces)| == |pieces[0].text| + |Spelled(pieces[1..])|
    ensures input[offset..offset + |pieces[0].text|] == pieces[0].text
    ensures input[offset + |pieces[0].text|..offset + |Spelled(pieces)|] == Spelled(pieces[1..])
    ensures PieceItems(pieces, offset)
         == [Item(pieces[0].token, offset, pieces[0].text)] + PieceItems(pieces[1..], offset + |pieces[0].text|)
  {
    var p := pieces[0];
    var rest := pieces[1..];
    assert pieces == [p] + rest;
    SpelledCons(p, rest);
    var mid := offset + |p.text|;
    assert input[offset..mid] == p.text by {
      assert input[offset..mid] == input[offset..offset + |Spelled(pieces)|][..|p.text|];
    }
    assert input[mid..mid + |Spelled(rest)|] == Spelled(rest) by {
      assert input[mid..mid + |Spelled(rest)|] == input[offset..offset + |Spelled(pieces)|][|p.text|..];
    }
    forall i | 0 <= i < |rest| ensures WellFormedPiece(rest[i], ids) {
      assert rest[i] == pieces[i + 1];
    }
    assert WellFormedPiece(p, ids);
  }

  /** A faithful item right in front of a block that tiles from its end tiles from its own start. */
  lemma {:induction false} TilesCons(head: Item, tail: seq<Item>, input: string, mid: nat, to: nat, ids: set<string>, stod: DecimalParser)
    requires Faithful(head, input, ids, stod) && End(head) == mid
    requires Tiles(tail, input, mid, to, ids, stod)
    ensures Tiles([head] + tail, input, head.offset, to, ids, stod)
  {
    var block := [head] + tail;
    forall i | 0 <= i < |block| ensures Faithful(block[i], input, ids, stod) {
      if i > 0 {
        assert block[i] == tail[i - 1];
      }
    }
    forall i | 0 < i < |block| ensures End(block[i - 1]) == block[i].offset {
      if i > 1 {
        assert block[i - 1] == tail[i - 2] && block[i] == tail[i - 1];
      }
    }
  }

  /** The items of one uniform segment at column `offset` tile it; only white space gives none. */
  lemma {:induction false} SegmentItemsTile(seg: Segment, offset: nat, input: string, ids: set<string>, stod: DecimalParser)
    requires seg.category == DIGIT ==> stod(seg.text).Some?
    requires Uniform(seg)
    requires offset + |seg.text| <= |input| && input[offset..offset + |seg.text|] == seg.text
    ensures SegmentItems(seg, offset, ids, stod) == [] <==> seg.category == WHITESPACE
    ensures Tiles(SegmentItems(seg, offset, ids, stod), input, offset, offset + |seg.text|, ids, stod)
            || (seg.category == WHITESPACE && Blank(input, offset, offset + |seg.text|))
  {
    if seg.category == SYMBOL {
      SplitSymbolsSpelled(seg.text, ids);
      SplitSymbolsWellFormed(seg.text, ids);
      PieceItemsTile(SplitSymbols(seg.text, ids), offset, input, ids, stod);
    } else if seg.category == WHITESPACE {
      forall p | offset <= p < offset + |seg.text| ensures IsSpace(input[p]) {
        assert input[p] == seg.text[p - offset];
      }
    }
  }

  lemma {:induction false} JoinedCons(seg: Segment, segs: seq<Segment>)
    ensures Joined([seg] + segs) == seg.text + Joined(segs)
    decreases |segs|
  {
    if segs == [] {
      assert [seg] == [] + [seg];
      JoinedSnoc([], seg);
    } else {
      var init := segs[..|segs| - 1];
      var last := segs[|segs| - 1];
      assert segs == init + [last];
      assert [seg] + segs == ([seg] + init) + [last];
      JoinedSnoc([seg] + init, last);
      JoinedSnoc(init, last);
      JoinedCons(seg, init);
    }
  }

  /** A tiled block, or white space, in front of a laid-out stream is again laid out. */
  lemma {:induction false} Prepend(block: seq<Item>, items: seq<Item>, input: string, from: nat, mid: nat, ids: set<string>, stod: DecimalParser)
    requires Tiles(block, input, from, mid, ids, stod) || (block == [] && Blank(input, from, mid))
    requires LaidOut(items, input, mid, ids, stod)
    ensures LaidOut(block + items, input, from, ids, stod)
  {
    if block == [] {
      PrependBlank(items, input, from, mid, ids, stod);
      assert block + items == items;
    } else {
      PrependTiled(block, items, input, from, mid, ids, stod);
    }
  }

  /** White space (or nothing) in front of a laid-out stream. */
  lemma {:induction false} PrependBlank(items: seq<Item>, input: string, from: nat, mid: nat, ids: set<string>, stod: DecimalParser)
    requires from == mid || Blank(input, from, mid)
    requires LaidOut(items, input, mid, ids, stod)
    ensures LaidOut(items, input, from, ids, stod)
  {
    if from != mid {
      BlankJoin(input, from, mid, items[0].offset);
    }
  }

  /** A non-empty tiled block in front of a laid-out stream. */
  lemma {:induction false} PrependTiled(block: seq<Item>, items: seq<Item>, input: string, from: nat, mid: nat, ids: set<string>, stod: DecimalParser)
    requires Tiles(block, input, from, mid, ids, stod) && block != []
    requires LaidOut(items, input, mid, ids, stod)
    ensures LaidOut(block + items, input, from, ids, stod)
  {
    var all := block + items;
    var n := |block|;
    assert all[0] == block[0];
    assert all[|all| - 1] == items[|items| - 1];
    forall i | 0 <= i < |all| - 1
      ensures Faithful(all[i], input, ids, stod)
      ensures End(all[i]) <= all[i + 1].offset
      ensures Blank(input, End(all[i]), all[i + 1].offset)
    {
      if i < n - 1 {
        PrependWithinBlock(block, items, input, from, mid, ids, stod, i);
      } else if i == n - 1 {
        PrependAtSeam(block, items, input, from, mid, ids, stod);
      } else {
        PrependWithinItems(block, items, input, mid, ids, stod, i);
      }
    }
  }

  lemma {:induction false} PrependWithinBlock(block: seq<Item>, items: seq<Item>, input: string, from: nat, mid: nat, ids: set<string>, stod: DecimalParser, i: nat)
    requires Tiles(block, input, from, mid, ids, stod) && i + 1 < |block|
    ensures Faithful((block + items)[i], input, ids, stod)
    ensures End((block + items)[i]) <= (block + items)[i + 1].offset
    ensures Blank(input, End((block + items)[i]), (block + items)[i + 1].offset)
  {
    assert (block + items)[i] == block[i] && (block + items)[i + 1] == block[i + 1];
  }

  lemma {:induction false} PrependAtSeam(block: seq<Item>, items: seq<Item>, input: string, from: nat, mid: nat, ids: set<string>, stod: DecimalParser)
    requires Tiles(block, input, from, mid, ids, stod) && block != []
    requires LaidOut(items, input, mid, ids, stod)
    ensures Faithful((block + items)[|block| - 1], input, ids, stod)
    ensures End((block + items)[|block| - 1]) <= (block + items)[|block|].offset
    ensures Blank(input, End((block + items)[|block| - 1]), (block + items)[|block|].offset)
  {
    var n := |block|;
    assert (block + items)[n - 1] == block[n - 1] && (block + items)[n] == items[0];
  }

  lemma {:induction false} PrependWithinItems(block: seq<Item>, items: seq<Item>, input: string, mid: nat, ids: set<string>, stod: DecimalParser, i: nat)
    requires LaidOut(items, input, mid, ids, stod) && |block| <= i < |block| + |items| - 1
    ensures Faithful((block + items)[i], input, ids, stod)
    ensures End((block + items)[i]) <= (block + items)[i + 1].offset
    ensures Blank(input, End((block + items)[i]), (block + items)[i + 1].offset)
  {
    var n := |block|;
    assert (block + items)[i] == items[i - n] && (block + items)[i + 1] == items[i - n + 1];
  }

  lemma {:induction false} BlankJoin(input: string, a: nat, b: nat, c: nat)
    requires Blank(input, a, b) && Blank(input, b, c)
    ensures Blank(input, a, c)
  {
  }

  /** The items of a segmentation read the input from `offset` to its end. */
  lemma {:induction false} ItemsFromLaidOut(segs: seq<Segment>, offset: nat, input: string, ids: set<string>, stod: DecimalParser)
    requires DigitsParse(segs, stod)
    requires forall i :: 0 <= i < |segs| ==> Uniform(segs[i])
    requires offset + |Joined(segs)| == |input| && input[offset..] == Joined(segs)
    ensures LaidOut(ItemsFrom(segs, offset, ids, stod), input, offset, ids, stod)
    decreases |segs|
  {
    if segs != [] {
      var mid := offset + |segs[0].text|;
      FirstSegmentText(segs, offset, input);
      DigitsParseTail(segs, stod);
      ItemsFromLaidOut(segs[1..], mid, input, ids, stod);
      SegmentPrepended(segs[0], segs[1..], offset, mid, input, ids, stod);
    }
  }

  lemma {:induction false} DigitsParseTail(segs: seq<Segment>, stod: DecimalParser)
    requires segs != [] && DigitsParse(segs, stod)
    ensures segs[0].category == DIGIT ==> stod(segs[0].text).Some?
    ensures DigitsParse(segs[1..], stod)
  {
    forall i | 0 <= i < |segs[1..]| && segs[1..][i].category == DIGIT ensures stod(segs[1..][i].text).Some? {
      assert segs[1..][i] == segs[i + 1];
    }
  }

  /** The items of one segment in front of the laid-out items of the segments after it are laid out from `offset`. */
  lemma {:induction false} SegmentPrepended(seg: Segment, rest: seq<Segment>, offset: nat, mid: nat, input: string, ids: set<string>, stod: DecimalParser)
    requires seg.category == DIGIT ==> stod(seg.text).Some?
    requires DigitsParse(rest, stod) && Uniform(seg)
    requires mid == offset + |seg.text| <= |input| && input[offset..mid] == seg.text
    requires LaidOut(ItemsFrom(rest, mid, ids, stod), input, mid, ids, stod)
    ensures LaidOut(SegmentItems(seg, offset, ids, stod) + ItemsFrom(rest, mid, ids, stod), input, offset, ids, stod)
  {
    SegmentItemsTile(seg, offset, input, ids, stod);
    Prepend(SegmentItems(seg, offset, ids, stod), ItemsFrom(rest, mid, ids, stod), input, offset, mid, ids, stod);
  }

  /** The text of the first segment is the input at `offset`, and the other segments spell what follows. */
  lemma {:induction false} FirstSegmentText(segs: seq<Segment>, offset: nat, input: string)
    requires segs != []
    requires forall i :: 0 <= i < |segs| ==> Uniform(segs[i])
    requires offset + |Joined(segs)| == |input| && input[offset..] == Joined(segs)
    ensures Uniform(segs[0]) && forall i :: 0 <= i < |segs[1..]| ==> Uniform(segs[1..][i])
    ensures offset + |segs[0].text| <= |input| && input[offset..offset + |segs[0].text|] == segs[0].text
    ensures offset + |segs[0].text| + |Joined(segs[1..])| == |input|
    ensures input[offset + |segs[0].text|..] == Joined(segs[1..])
  {
    var seg := segs[0];
    var rest := segs[1..];
    assert segs == [seg] + rest;
    JoinedCons(seg, rest);
    var mid := offset + |seg.text|;
    assert input[offset..mid] == seg.text by {
      assert input[offset..mid] == input[offset..][..|seg.text|];
    }
    assert input[mid..] == Joined(rest) by {
      assert input[mid..] == input[offset..][|seg.text|..];
    }
    assert Uniform(segs[0]);
    forall i | 0 <= i < |rest| ensures Uniform(rest[i]) {
      assert rest[i] == segs[i + 1];
    }
  }

  /**
   * Lexing reads the whole input: the tokens, in order, are faithful to the
   * text at their offsets, only white space lies between them, and the stream
   * ends with the end-of-stream token at column |input|.
   */
  lemma {:induction false} LexLaidOut(input: string, ids: set<string>, stod: DecimalParser)
    requires NumbersParse(input, stod)
    ensures LaidOut(Lex(input, ids, stod), input, 0, ids, stod)
  {
    if |input| > 0 {
      SegmentsCorrect(input);
    }
    ItemsFromLaidOut(InputSegments(input), 0, input, ids, stod);
  }

  /** The suffix of a segmentation from `k` on still has parsing digit runs. */
  lemma {:induction false} ItemsFromAt(segs: seq<Segment>, k: nat, offset: nat, ids: set<string>, stod: DecimalParser)
    requires DigitsParse(segs, stod) && k < |segs|
    ensures DigitsParse(segs[k..], stod) && DigitsParse(segs[k + 1..], stod)
    ensures segs[k].category == DIGIT ==> stod(segs[k].text).Some?
    ensures ItemsFrom(segs[k..], offset, ids, stod)
         == SegmentItems(segs[k], offset, ids, stod) + ItemsFrom(segs[k + 1..], offset + |segs[k].text|, ids, stod)
  {
    assert segs[k..][1..] == segs[k + 1..];
  }

  /** One pass of the constructor's switch: the tokens of one segment at column `offset`. */
  method HandleSegment(seg: Segment, offset: nat, ids: set<string>, stod: DecimalParser) returns (block: seq<Item>)
    requires seg.category == DIGIT ==> stod(seg.text).Some?
    ensures block == SegmentItems(seg, offset, ids, stod)
  {
    match seg.category {
      case ALPHA =>
        var token := if seg.text in ids then Ident(seg.text) else Name(seg.text);
        block := [Item(token, offset, seg.text)];
      case DIGIT =>
        var value := stod(seg.text).value;
        block := [Item(Number(value), offset, seg.text)];
      case SYMBOL =>
        var pieces := SplitSymbolRun(seg.text, ids);
        block := PieceItems(pieces, offset);
      case WHITESPACE =>
        block := [];
    }
  }

  /** One step of the constructor's loop: the items so far and the segment at `k` account for one more segment. */
  lemma {:induction false} ItemsAdvance(segs: seq<Segment>, k: nat, offset: nat, ids: set<string>, stod: DecimalParser, items: seq<Item>, all: seq<Item>)
    requires DigitsParse(segs, stod) && k < |segs|
    requires DigitsParse(segs[k..], stod) && items + ItemsFrom(segs[k..], offset, ids, stod) == all
    ensures segs[k].category == DIGIT ==> stod(segs[k].text).Some?
    ensures DigitsParse(segs[k + 1..], stod)
    ensures (items + SegmentItems(segs[k], offset, ids, stod)) + ItemsFrom(segs[k + 1..], offset + |segs[k].text|, ids, stod) == all
  {
    ItemsFromAt(segs, k, offset, ids, stod);
    var block := SegmentItems(segs[k], offset, ids, stod);
    var later := ItemsFrom(segs[k + 1..], offset + |segs[k].text|, ids, stod);
    assert (items + block) + later == items + (block + later);
  }

  /** The segmentation step of the constructor, then its loop over the segments. */
  method LexItems(input: string, ids: set<string>, stod: DecimalParser) returns (items: seq<Item>)
    requires NumbersParse(input, stod)
    ensures items == Lex(input, ids, stod)
  {
    var segments: seq<Segment> := [];
    if |input| > 0 {
      segments := Categorize(input);
    }
    assert segments == InputSegments(input);
    items := SegmentLoop(segments, ids, stod);
  }

  /** The constructor's loop over the segments, with handle_segment's running offset, and the closing EOL. */
  method SegmentLoop(segments: seq<Segment>, ids: set<string>, stod: DecimalParser) returns (items: seq<Item>)
    requires DigitsParse(segments, stod)
    ensures items == ItemsFrom(segments, 0, ids, stod)
  {
    ghost var all := ItemsFrom(segments, 0, ids, stod);
    items := [];
    var offset: nat := 0;
    assert segments[0..] == segments;
    for k := 0 to |segments|
      invariant DigitsParse(segments[k..], stod)
      invariant items + ItemsFrom(segments[k..], offset, ids, stod) == all
    {
      ItemsAdvance(segments, k, offset, ids, stod, items, all);
      var block := HandleSegment(segments[k], offset, ids, stod);
      items := items + block;
      offset := offset + |segments[k].text|;
    }
    assert segments[|segments|..] == [];
    items := items + [Item(EOL, offset, " ")];
  }

  // ---------------------------------------------------------------------------
  // The token buffer

  /** The lexer's two parallel buffers: tokens and the column where each starts. */
  datatype Stream = Stream(tokens: seq<Token>, offsets: seq<nat>)
  {
    /** Same length, at least one token, the last one EOL, columns strictly increasing. */
    predicate Ok()
    {
      && |tokens| == |offsets| > 0
      && tokens[|tokens| - 1] == EOL
      && forall i, j :: 0 <= i < j < |offsets| ==> offsets[i] < offsets[j]
    }

    /** The index of the end-of-stream token. */
    function Last(): nat
      requires Ok()
    {
      |tokens| - 1
    }

    /** The cursor after discard: one step, never past the last token. */
    function Advance(c: nat): (d: nat)
      requires Ok() && c <= Last()
      ensures d <= Last()
      ensures c < Last() ==> d == c + 1
      ensures c == Last() ==> d == c
    {
      if c + 1 < |tokens| then c + 1 else c
    }

    /** last_token_start at cursor `c`: the column of the token before the cursor, or of the first. */
    function StartBefore(c: nat): (col: nat)
      requires Ok() && c <= Last()
      ensures col <= offsets[c]
      ensures 0 < c ==> col < offsets[c]
    {
      if c == 0 then offsets[0] else offsets[c - 1]
    }
  }

  function TokensOf(items: seq<Item>): (ts: seq<Token>)
    ensures |ts| == |items| && forall i :: 0 <= i < |items| ==> ts[i] == items[i].token
  {
    seq(|items|, i requires 0 <= i < |items| => items[i].token)
  }

  function OffsetsOf(items: seq<Item>): (os: seq<nat>)
    ensures |os| == |items| && forall i :: 0 <= i < |items| ==> os[i] == items[i].offset
  {
    seq(|items|, i requires 0 <= i < |items| => items[i].offset)
  }

  /** The buffers the constructor fills for `input`. */
  function LexStream(input: string, ids: set<string>, stod: DecimalParser): Stream
    requires NumbersParse(input, stod)
  {
    var items := Lex(input, ids, stod);
    Stream(TokensOf(items), OffsetsOf(items))
  }

  /**
   * The buffers are well formed, EOL is the last token and the only one, and
   * it sits at column |input|; every other token starts inside the input.
   */
  lemma {:induction false} LexStreamOk(input: string, ids: set<string>, stod: DecimalParser)
    requires NumbersParse(input, stod)
    ensures var st := LexStream(input, ids, stod);
            && st.Ok()
            && st.offsets[st.Last()] == |input|
            && forall i :: 0 <= i < st.Last() ==> !st.tokens[i].EOL? && st.offsets[i] < |input|
  {
    LexLaidOut(input, ids, stod);
    LaidOutInOrder(Lex(input, ids, stod), input, ids, stod);
    OrderedStreamOk(Lex(input, ids, stod), |input|);
  }

  /** Laid-out items end with EOL at column |input|; the others are not EOL, start in the input and in increasing columns. */
  lemma {:induction false} LaidOutInOrder(items: seq<Item>, input: string, ids: set<string>, stod: DecimalParser)
    requires LaidOut(items, input, 0, ids, stod)
    ensures |items| > 0 && items[|items| - 1] == Item(EOL, |input|, " ")
    ensures forall i :: 0 <= i < |items| - 1 ==>
              !items[i].token.EOL? && items[i].offset < items[i + 1].offset && items[i].offset < |input|
  {
    forall i | 0 <= i < |items| - 1
      ensures !items[i].token.EOL? && items[i].offset < items[i + 1].offset && items[i].offset < |input|
    {
      assert Faithful(items[i], input, ids, stod);
    }
  }

  /** Items in increasing columns, ending with EOL at column `n`, fill well-formed buffers. */
  lemma {:induction false} OrderedStreamOk(items: seq<Item>, n: nat)
    requires |items| > 0 && items[|items| - 1] == Item(EOL, n, " ")
    requires forall i :: 0 <= i < |items| - 1 ==>
               !items[i].token.EOL? && items[i].offset < items[i + 1].offset && items[i].offset < n
    ensures var st := Stream(TokensOf(items), OffsetsOf(items));
            && st.Ok()
            && st.offsets[st.Last()] == n
            && forall i :: 0 <= i < st.Last() ==> !st.tokens[i].EOL? && st.offsets[i] < n
  {
    var os := OffsetsOf(items);
    forall i, j | 0 <= i < j < |os|
      ensures os[i] < os[j]
    {
      Ascending(os, i, j);
    }
  }

  /**
   * A lexed character, name or identifier token prints as the input text at
   * its column, so a message quoting it (the parser's "unexpected '...'")
   * quotes the input.
   */
  lemma {:induction false} QuotedToken(input: string, ids: set<string>, stod: DecimalParser, format: DecimalFormatter, k: nat)
    requires NumbersParse(input, stod)
    requires k < |Lex(input, ids, stod)|
    requires !Lex(input, ids, stod)[k].token.Number? && !Lex(input, ids, stod)[k].token.EOL?
    ensures var st := LexStream(input, ids, stod);
            var s := TokenString(st.tokens[k], format);
            st.offsets[k] + |s| <= |input| && input[st.offsets[k]..st.offsets[k] + |s|] == s
  {
    var items := Lex(input, ids, stod);
    LexLaidOut(input, ids, stod);
    assert k < |items| - 1;
    var item := items[k];
    assert Faithful(item, input, ids, stod);
    assert Describes(item.token, item.text, ids, stod);
    assert TokenString(item.token, format) == item.text;
  }

  /** Columns that grow from each token to the next grow from any token to any later one. */
  lemma {:induction false} Ascending(os: seq<nat>, i: nat, j: nat)
    requires forall k :: 0 <= k < |os| - 1 ==> os[k] < os[k + 1]
    requires i < j < |os|
    ensures os[i] < os[j]
    decreases j - i
  {
    if i + 1 < j {
      Ascending(os, i, j - 1);
      assert os[j - 1] < os[j];
    }
  }

  /** The tokenizer with its read cursor. */
  class Lexer {
    var tokens: seq<Token>
    var offsets: seq<nat>
    var cursor: nat

    function Contents(): Stream
      reads this`tokens, this`offsets
    {
      Stream(tokens, offsets)
    }

    predicate Valid()
      reads this
    {
      Contents().Ok() && cursor < |tokens|
    }

    /** Lexer::Lexer: tokenizes all of `input` up front; the cursor starts at the first token. */
    constructor (input: string, ids: set<string>, stod: DecimalParser)
      requires NumbersParse(input, stod)
      ensures Valid()
      ensures Contents() == LexStream(input, ids, stod) && cursor == 0
    {
      var items := LexItems(input, ids, stod);
      tokens := TokensOf(items);
      offsets := OffsetsOf(items);
      cursor := 0;
      LexStreamOk(input, ids, stod);
    }

    /** The token under the cursor, without consuming it. */
    function Peek(): (t: Token)
      reads this
      requires Valid()
      ensures t == tokens[cursor]
      ensures cursor == Contents().Last() ==> t == EOL
    {
      tokens[cursor]
    }

    /** Moves one token on, except at the end-of-stream token, where the cursor stays. */
    method Discard()
      requires Valid()
      modifies this`cursor
      ensures Valid()
      ensures cursor == Contents().Advance(old(cursor))
    {
      var newCursor := cursor + 1;
      if newCursor < |tokens| {
        cursor := newCursor;
      }
    }

    /** The token under the cursor, which is then consumed. */
    method Read() returns (t: Token)
      requires Valid()
      modifies this`cursor
      ensures Valid()
      ensures t == old(Peek())
      ensures cursor == Contents().Advance(old(cursor))
    {
      t := Peek();
      Discard();
    }

    /** The column where the previously consumed token starts (the first token's before any read). */
    function LastTokenStart(): (col: nat)
      reads this
      requires Valid()
      ensures col == Contents().StartBefore(cursor)
      ensures col <= offsets[cursor]
    {
      if cursor == 0 then offsets[0] else offsets[cursor - 1]
    }
  }
}
