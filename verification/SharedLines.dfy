/** A file of two directives on one line, from its bytes to its index. */
module SharedLines {
  import opened Prelude
  import opened Utf8
  import opened Syntax
  import opened Scanning
  import opened Segments
  import opened FixedLines
  import opened Merging
  import opened MergingLaws
  import opened Merge

  const BLANK := Trivia(WhitespaceTrivia, " ")

  /** A close directive of 25 bytes. */
  predicate IsClose(w: seq<byte>) {
    |w| == 25 && IsDate(w[..10]) && w[10] == ' ' && w[11..17] == "close " && w[17..24] == "Assets:" && IsUpper(w[24])
  }

  /** It stands at `o`, and a blank and a digit follow it, or nothing does. */
  predicate ClosesAt(src: seq<byte>, o: nat, w: seq<byte>, last: bool) {
    && IsClose(w) && o + 25 <= |src| && src[o..o + 25] == w
    && if last then |src| == o + 25 else o + 26 < |src| && src[o + 25] == ' ' && IsDigit(src[o + 26])
  }

  function Trailer(last: bool): seq<Trivia> {
    if last then [] else [BLANK]
  }

  function DateToken(o: nat, w: seq<byte>): Token
    requires IsClose(w)
  {
    Token(DATE, o, w[..10], [], [BLANK])
  }

  function KeywordToken(o: nat): Token {
    Token(IDENT, o + 11, "close", [], [BLANK])
  }

  function AccountToken(o: nat, w: seq<byte>, last: bool): Token
    requires IsClose(w)
  {
    Token(ACCOUNT, o + 17, w[17..], [], Trailer(last))
  }

  function CloseOf(o: nat, w: seq<byte>, last: bool): Statement
    requires IsClose(w)
  {
    Statement(CloseDirective, [DateToken(o, w), KeywordToken(o), AccountToken(o, w, last)], [])
  }

  // ------------------------------------------------------------------ scanning it

  lemma {:induction false} RunEnds(src: seq<byte>, o: nat, end: nat, p: byte -> bool)
    requires o <= end <= |src| && (forall i :: o <= i < end ==> p(src[i])) && (end < |src| ==> !p(src[end]))
    ensures Munch(src, o, p) == end
    decreases end - o
  {
    if o < end {
      RunEnds(src, o + 1, end, p);
    }
  }

  lemma {:induction false} OneBlank(src: seq<byte>, o: nat)
    requires o + 1 < |src| && src[o] == ' ' && !IsBlank(src[o + 1]) && src[o + 1] != ';'
    ensures TrailingTrivia(src, o) == ([BLANK], o + 1)
  {
    RunEnds(src, o, o + 1, IsBlank);
    assert src[o..o + 1] == " ";
    var none: seq<Trivia> := [];
    assert TrailingTrivia(src, o + 1) == (none, o + 1) && [BLANK] + none == [BLANK];
  }

  lemma {:induction false} NoLeading(src: seq<byte>, o: nat, lineStart: bool)
    requires o < |src| && (IsDigit(src[o]) || IsLower(src[o]) || IsUpper(src[o]))
    ensures LeadingTrivia(src, o, lineStart) == ([], o)
  {
  }

  lemma {:induction false} BytesOf(src: seq<byte>, a: nat, b: nat, x: seq<byte>)
    requires a <= b <= |src| && src[a..b] == x
    ensures forall i :: a <= i < b ==> src[i] == x[i - a]
  {
  }

  /** The bytes of a part are those of the source. */
  lemma {:induction false} PartOf(src: seq<byte>, o: nat, w: seq<byte>, last: bool, a: nat, b: nat)
    requires ClosesAt(src, o, w, last) && a <= b <= 25
    ensures src[o + a..o + b] == w[a..b]
    ensures forall i :: o + a <= i < o + b ==> src[i] == w[a..b][i - o - a]
  {
    BytesOf(src, o, o + 25, w);
  }

  lemma {:induction false} TokenScans(u: Alphabet, src: seq<byte>, o: nat, kind: TokenKind, end: nat, trailing: seq<Trivia>, stop: nat)
    requires o < |src| && (IsDigit(src[o]) || IsLower(src[o]) || IsUpper(src[o]))
    requires Lexeme(u, src, o) == (kind, end) && end <= |src| && TrailingTrivia(src, end) == (trailing, stop)
    ensures ScanAt(u, src, o) == (Token(kind, o, src[o..end], [], trailing), stop)
  {
    NoLeading(src, o, o == 0);
  }

  lemma {:induction false} DateLexeme(u: Alphabet, src: seq<byte>, o: nat)
    requires o + 10 <= |src| && IsDate(src[o..o + 10])
    ensures Lexeme(u, src, o) == (DATE, o + 10) && IsDigit(src[o])
  {
    assert src[o..o + 10][0] == src[o];
  }

  lemma {:induction false} DateScans(u: Alphabet, src: seq<byte>, o: nat, w: seq<byte>, last: bool)
    requires ClosesAt(src, o, w, last)
    ensures ScanAt(u, src, o) == (DateToken(o, w), o + 11)
  {
    PartOf(src, o, w, last, 0, 10);
    assert w[0..10] == w[..10];
    DateLexeme(u, src, o);
    PartOf(src, o, w, last, 11, 17);
    KeywordBytes(src, o + 11);
    OneBlank(src, o + 10);
    TokenScans(u, src, o, DATE, o + 10, [BLANK], o + 11);
  }

  lemma {:induction false} KeywordBytes(src: seq<byte>, o: nat)
    requires o + 6 <= |src| && src[o..o + 6] == "close "
    ensures src[o] == 'c' && (forall i :: o <= i < o + 5 ==> IsLower(src[i])) && src[o + 5] == ' '
    ensures src[o..o + 5] == "close"
  {
    BytesOf(src, o, o + 6, "close ");
  }

  lemma {:induction false} RootBytes(src: seq<byte>, o: nat)
    requires o + 7 <= |src| && src[o..o + 7] == "Assets:"
    ensures src[o] == 'A' && (forall i :: o < i < o + 6 ==> IsLower(src[i])) && src[o + 6] == ':'
    ensures src[o..o + 6] == "Assets"
  {
    BytesOf(src, o, o + 7, "Assets:");
  }

  lemma {:induction false} KeywordLexeme(u: Alphabet, src: seq<byte>, o: nat)
    requires o + 6 <= |src| && src[o] == 'c' && (forall i :: o <= i < o + 5 ==> IsLower(src[i])) && src[o + 5] == ' '
    ensures Lexeme(u, src, o) == (IDENT, o + 5)
  {
    RunEnds(src, o + 1, o + 5, IsIdentChar);
  }

  lemma {:induction false} KeywordScans(u: Alphabet, src: seq<byte>, o: nat, w: seq<byte>, last: bool)
    requires ClosesAt(src, o, w, last)
    ensures ScanAt(u, src, o + 11) == (KeywordToken(o), o + 17)
  {
    PartOf(src, o, w, last, 11, 17);
    PartOf(src, o, w, last, 17, 24);
    KeywordBytes(src, o + 11);
    RootBytes(src, o + 17);
    KeywordLexeme(u, src, o + 11);
    OneBlank(src, o + 16);
    TokenScans(u, src, o + 11, IDENT, o + 16, [BLANK], o + 17);
  }

  lemma {:induction false} AccountEnds(u: Alphabet, src: seq<byte>, o: nat)
    requires o + 1 < |src| && src[o] == ':' && IsUpper(src[o + 1]) && (o + 2 < |src| ==> src[o + 2] == ' ')
    ensures AccountEnd(u, src, o) == o + 2
  {
    assert DecodeRune(src, o + 1) == Rune(src[o + 1] as int, 1);
    if o + 2 < |src| {
      assert DecodeRune(src, o + 2) == Rune(' ' as int, 1);
    }
    assert ComponentEnd(u, src, o + 2) == o + 2;
    assert AccountEnd(u, src, o + 2) == o + 2;
  }

  lemma {:induction false} AccountLexeme(u: Alphabet, src: seq<byte>, o: nat)
    requires o + 8 <= |src| && src[o..o + 7] == "Assets:" && IsUpper(src[o + 7]) && (o + 8 < |src| ==> src[o + 8] == ' ')
    ensures Lexeme(u, src, o) == (ACCOUNT, o + 8) && IsUpper(src[o])
  {
    RootBytes(src, o);
    RunEnds(src, o + 1, o + 6, IsUpperWordChar);
    AccountEnds(u, src, o + 6);
    assert UpperWord(u, src, o) == (ACCOUNT, o + 8);
  }

  lemma {:induction false} AccountScans(u: Alphabet, src: seq<byte>, o: nat, w: seq<byte>, last: bool)
    requires ClosesAt(src, o, w, last)
    ensures ScanAt(u, src, o + 17) == (AccountToken(o, w, last), if last then o + 25 else o + 26)
  {
    PartOf(src, o, w, last, 17, 24);
    PartOf(src, o, w, last, 17, 25);
    assert w[17..25] == w[17..] && src[o + 24] == w[17..25][7] == w[24];
    AccountLexeme(u, src, o + 17);
    if !last {
      OneBlank(src, o + 25);
    }
    TokenScans(u, src, o + 17, ACCOUNT, o + 25, Trailer(last), if last then o + 25 else o + 26);
  }

  lemma {:induction false} CloseScans(u: Alphabet, src: seq<byte>, o: nat, w: seq<byte>, last: bool)
    requires ClosesAt(src, o, w, last)
    ensures Stream(u, src, o) == CloseOf(o, w, last).head + Stream(u, src, if last then o + 25 else o + 26)
  {
    DateScans(u, src, o, w, last);
    KeywordScans(u, src, o, w, last);
    AccountScans(u, src, o, w, last);
    var next := if last then o + 25 else o + 26;
    ThreeThenMore(DateToken(o, w), KeywordToken(o), AccountToken(o, w, last), Stream(u, src, next));
    assert Stream(u, src, o + 17) == [AccountToken(o, w, last)] + Stream(u, src, next);
    assert Stream(u, src, o + 11) == [KeywordToken(o)] + Stream(u, src, o + 17);
    assert Stream(u, src, o) == [DateToken(o, w)] + Stream(u, src, o + 11);
  }

  lemma {:induction false} ThreeThenMore(a: Token, b: Token, c: Token, rest: seq<Token>)
    ensures [a] + ([b] + ([c] + rest)) == [a, b, c] + rest
  {
  }

  // ------------------------------------------------------------------ two of them

  predicate TwoCloses(src: seq<byte>, v: seq<byte>, w: seq<byte>) {
    ClosesAt(src, 0, v, false) && ClosesAt(src, 26, w, true)
  }

  function Both(v: seq<byte>, w: seq<byte>): seq<Statement>
    requires IsClose(v) && IsClose(w)
  {
    [CloseOf(0, v, false), CloseOf(26, w, true)]
  }

  function TheEnd(): Token {
    Token(EOF, 51, [], [], [])
  }

  lemma {:induction false} CloseIsSpelled(o: nat, w: seq<byte>, last: bool)
    requires IsClose(w)
    ensures Spelled(CloseOf(o, w, last)) && !KeyAhead(CloseOf(o, w, last).head[0])
  {
    assert HeadKinds(CloseDirective) == [DATE, IDENT, ACCOUNT];
  }

  lemma {:induction false} BothScan(u: Alphabet, src: seq<byte>, v: seq<byte>, w: seq<byte>)
    requires TwoCloses(src, v, w)
    ensures Stream(u, src, 0) == AllTokens(Both(v, w)) + [TheEnd()]
  {
    CloseScans(u, src, 0, v, false);
    CloseScans(u, src, 26, w, true);
    assert Stream(u, src, 51) == [TheEnd()];
    AllOfTwo(CloseOf(0, v, false), CloseOf(26, w, true), [TheEnd()]);
  }

  lemma {:induction false} BothAreWritten(v: seq<byte>, w: seq<byte>)
    requires IsClose(v) && IsClose(w)
    ensures WellWritten(Both(v, w))
  {
    CloseIsSpelled(0, v, false);
    CloseIsSpelled(26, w, true);
  }

  lemma {:induction false} AllOfTwo(d: Statement, e: Statement, end: seq<Token>)
    requires d.metas == [] && e.metas == []
    ensures AllTokens([d, e]) + end == d.head + (e.head + end)
  {
    var none: seq<Statement> := [];
    assert [d, e][1..] == [e] && [e][1..] == none;
    assert AllTokens(none) == [] && Joined([]) == [];
    assert AllTokens([e]) == e.head;
    assert AllTokens([d, e]) == d.head + e.head;
  }

  // ------------------------------------------------------------------ their index

  lemma {:induction false} NoBreakWithin(src: seq<byte>, o: nat, w: seq<byte>, last: bool)
    requires ClosesAt(src, o, w, last)
    ensures forall i :: o <= i < o + 25 ==> src[i] != '\n'
  {
    PartOf(src, o, w, last, 0, 10);
    assert w[0..10] == w[..10];
    NoBreakInDate(w[..10]);
    BytesOf(src, o, o + 25, w);
    PartOf(src, o, w, last, 11, 17);
    KeywordBytes(src, o + 11);
    PartOf(src, o, w, last, 17, 24);
    RootBytes(src, o + 17);
  }

  lemma {:induction false} NoBreakInDate(w: seq<byte>)
    requires IsDate(w)
    ensures forall i :: 0 <= i < |w| ==> w[i] != '\n'
  {
    assert IsDigit(w[0]) && IsDigit(w[1]) && IsDigit(w[2]) && IsDigit(w[3]) && IsDigit(w[5]) && IsDigit(w[6]) && IsDigit(w[8]) && IsDigit(w[9]);
  }

  lemma {:induction false} LineGoesOn(src: seq<byte>, o: nat)
    requires o <= |src| && forall i :: o <= i < |src| ==> src[i] != '\n'
    ensures LineEnd(src, o) == |src|
    decreases |src| - o
  {
    if o < |src| {
      LineGoesOn(src, o + 1);
    }
  }

  lemma {:induction false} CloseEntry(src: seq<byte>, o: nat, w: seq<byte>, last: bool, reading: DateReading, date: int)
    requires IsClose(w) && reading(w[..10]) == Some(date)
    ensures Entry(NodeChild(NodeOf(CloseOf(o, w, last))), src, reading)
            == Ok(Some(Existing(date, o, LineEnd(src, if last then o + 25 else o + 26))))
  {
    var a, b, c := DateToken(o, w), KeywordToken(o), AccountToken(o, w, last);
    LeavesOfThree(a, b, c);
    var n := NodeOf(CloseOf(o, w, last));
    assert n.children == [TokenChild(a), TokenChild(b), TokenChild(c)];
    assert FindToken(n.children, DATE) == Some(a);
    assert TriviaSize([BLANK]) == 1 + TriviaSize([]);
    assert FullEnd(c) == if last then o + 25 else o + 26;
  }

  lemma {:induction false} LeavesOfThree(a: Token, b: Token, c: Token)
    ensures Leaves([a, b, c]) == [TokenChild(a), TokenChild(b), TokenChild(c)]
    ensures Leaves([a, b, c]) + LineNodes([]) == [TokenChild(a), TokenChild(b), TokenChild(c)]
    ensures TokensOf([TokenChild(a), TokenChild(b), TokenChild(c)]) == [a, b, c]
  {
    var none: seq<Child> := [];
    assert TokensOf(none) == [] && [TokenChild(c)][1..] == none;
    assert TokensOf([TokenChild(c)]) == [c];
    assert [TokenChild(b), TokenChild(c)][1..] == [TokenChild(c)];
    assert TokensOf([TokenChild(b), TokenChild(c)]) == [b, c];
    assert [TokenChild(a), TokenChild(b), TokenChild(c)][1..] == [TokenChild(b), TokenChild(c)];
  }

  /**
   A source of two directives on one line scans to well written directives, so it parses
   to them, and its index has both on the same line.
   */
  lemma {:induction false} SharedLineIsIndexed(u: Alphabet, src: seq<byte>, v: seq<byte>, w: seq<byte>, reading: DateReading, d: int, e: int)
    requires TwoCloses(src, v, w) && reading(v[..10]) == Some(d) && reading(w[..10]) == Some(e)
    ensures WellWritten(Both(v, w)) && Stream(u, src, 0) == AllTokens(Both(v, w)) + [TheEnd()]
    ensures IndexOf(Nodes(Both(v, w)) + [TokenChild(TheEnd())], src, reading) == Ok([Existing(d, 0, 51), Existing(e, 26, 51)])
  {
    BothScan(u, src, v, w);
    BothAreWritten(v, w);
    NoBreakWithin(src, 0, v, false);
    NoBreakWithin(src, 26, w, true);
    LineGoesOn(src, 26);
    LineGoesOn(src, 51);
    CloseEntry(src, 0, v, false, reading, d);
    CloseEntry(src, 26, w, true, reading, e);
    var a, b, c := NodeChild(NodeOf(CloseOf(0, v, false))), NodeChild(NodeOf(CloseOf(26, w, true))), TokenChild(TheEnd());
    TwoNodes(CloseOf(0, v, false), CloseOf(26, w, true));
    assert Nodes(Both(v, w)) + [c] == [a, b, c];
    IndexOfThree(a, b, c, src, reading, Existing(d, 0, 51), Existing(e, 26, 51));
  }

  lemma {:induction false} TwoNodes(d: Statement, e: Statement)
    ensures Nodes([d, e]) == [NodeChild(NodeOf(d)), NodeChild(NodeOf(e))]
  {
    var none: seq<Statement> := [];
    assert [d, e][1..] == [e] && [e][1..] == none && Nodes(none) == [];
  }

  lemma {:induction false} IndexOfThree(a: Child, b: Child, c: Child, data: seq<byte>, reading: DateReading, x: Existing, y: Existing)
    requires Entry(a, data, reading) == Ok(Some(x)) && Entry(b, data, reading) == Ok(Some(y)) && Entry(c, data, reading) == Ok(None)
    ensures IndexOf([a, b, c], data, reading) == Ok([x, y])
  {
    var none: seq<Child> := [];
    var nothing: seq<Existing> := [];
    assert [a][..0] == none && [a, b][..1] == [a] && [a, b, c][..2] == [a, b];
    assert nothing + [x] == [x] && [x] + [y] == [x, y];
    assert IndexOf(none, data, reading) == Ok(nothing);
    assert IndexOf([a], data, reading) == Ok([x]);
    assert IndexOf([a, b], data, reading) == Ok([x, y]);
  }

  /** "2024-01-0" and a digit, "close", and "Assets:" and a capital letter. */
  function CloseText(digit: byte, letter: byte): seq<byte> {
    "2024-01-0" + [digit] + " " + "close " + "Assets:" + [letter]
  }

  lemma {:induction false} CloseTextIsClose(digit: byte, letter: byte)
    requires IsDigit(digit) && IsUpper(letter)
    ensures var w := CloseText(digit, letter); IsClose(w) && w[..10] == "2024-01-0" + [digit]
  {
    var w, date := CloseText(digit, letter), "2024-01-0" + [digit];
    assert w[..10] == date;
    assert IsDate(date);
    assert w[11..17] == "close ";
    assert w[17..24] == "Assets:";
  }

  lemma {:induction false} OnOneLine(v: seq<byte>, w: seq<byte>)
    requires IsClose(v) && IsClose(w)
    ensures TwoCloses(v + " " + w, v, w)
  {
    var src := v + " " + w;
    assert src[0..25] == v && src[26..51] == w;
    assert src[26] == w[0] == w[..10][0];
  }

  /**
   There is such a file: "2024-01-01 close Assets:A 2024-01-03 close Assets:B". Two dates
   share its only line.
   */
  lemma {:induction false} SharedLineExists(u: Alphabet, reading: DateReading, d: int, e: int)
    requires reading("2024-01-0" + ['1']) == Some(d) && reading("2024-01-0" + ['3']) == Some(e) && d < e
    ensures var v, w, existing := CloseText('1', 'A'), CloseText('3', 'B'), [Existing(d, 0, 51), Existing(e, 26, 51)];
            && IsClose(v) && IsClose(w) && WellWritten(Both(v, w))
            && Stream(u, v + " " + w, 0) == AllTokens(Both(v, w)) + [TheEnd()]
            && IndexOf(Nodes(Both(v, w)) + [TokenChild(TheEnd())], v + " " + w, reading) == Ok(existing)
            && WellPlaced(existing, 51) && FileInOrder(existing, Ascending) && !Separable(existing, Ascending)
  {
    var v, w := CloseText('1', 'A'), CloseText('3', 'B');
    CloseTextIsClose('1', 'A');
    CloseTextIsClose('3', 'B');
    OnOneLine(v, w);
    SharedLineIsIndexed(u, v + " " + w, v, w, reading, d, e);
    SharesItsLine(Existing(d, 0, 51), Existing(e, 26, 51));
  }

  lemma {:induction false} SharesItsLine(a: Existing, b: Existing)
    requires a.date < b.date && a.startOff < b.startOff < a.endOff == b.endOff == 51
    ensures WellPlaced([a, b], 51) && FileInOrder([a, b], Ascending) && !Separable([a, b], Ascending)
  {
    assert [a, b][0] == a && [a, b][1] == b;
  }
}
