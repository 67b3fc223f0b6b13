/**
 What the scanner makes of the source from a given offset, as functions: runs of
 bytes, trivia, lexemes, and the next token with its trivia.
 */
module Scanning {
  import opened Utf8
  import opened Syntax

  // ------------------------------------------------------------------ alphabets

  /** Which runes beyond ASCII may start and continue an account component. */
  datatype Alphabet = Alphabet(start: int -> bool, cont: int -> bool)

  predicate IsUpper(c: byte) { 'A' <= c <= 'Z' }

  predicate IsLower(c: byte) { 'a' <= c <= 'z' }

  predicate IsDigit(c: byte) { '0' <= c <= '9' }

  predicate IsBlank(c: byte) { c == ' ' || c == '\t' }

  predicate IsLineBreak(c: byte) { c == '\n' || c == '\r' }

  predicate InLine(c: byte) { !IsLineBreak(c) }

  predicate IsDigitOrComma(c: byte) { IsDigit(c) || c == ',' }

  predicate IsTagLinkChar(c: byte) { IsUpper(c) || IsLower(c) || IsDigit(c) || c == '_' || c == '-' }

  predicate IsIdentChar(c: byte) { IsUpper(c) || IsLower(c) || IsDigit(c) || c == '_' || c == '-' }

  predicate IsCurrencyEnd(c: byte) { IsUpper(c) || IsDigit(c) }

  predicate IsCurrencyChar(c: byte) { IsUpper(c) || IsDigit(c) || c == '\'' || c == '.' || c == '_' || c == '-' }

  predicate IsUpperWordChar(c: byte) { IsCurrencyChar(c) || IsLower(c) }

  predicate IsAccountComponentStart(u: Alphabet, r: int) {
    if r < 0x80 then ('A' as int <= r <= 'Z' as int) || ('0' as int <= r <= '9' as int) else u.start(r)
  }

  predicate IsOtherIDContinue(r: int) {
    r in {0x00B7, 0x0387, 0x19DA, 0x30FB, 0xFF65} || 0x1369 <= r <= 0x1371
  }

  predicate IsAccountComponentCont(u: Alphabet, r: int) {
    if r == '-' as int then true
    else if r < 0x80 then
      ('A' as int <= r <= 'Z' as int) || ('a' as int <= r <= 'z' as int) || ('0' as int <= r <= '9' as int)
    else IsOtherIDContinue(r) || u.cont(r)
  }

  predicate IsAccountRoot(word: seq<byte>) {
    word in {"Assets", "Liabilities", "Equity", "Income", "Expenses"}
  }

  /** One or more currency characters, the first and last a letter or a digit. */
  predicate IsCurrency(word: seq<byte>) {
    && |word| > 0
    && IsCurrencyEnd(word[0])
    && IsCurrencyEnd(word[|word| - 1])
    && forall i :: 1 <= i < |word| - 1 ==> IsCurrencyChar(word[i])
  }

  predicate IsTagLinkName(name: seq<byte>) {
    |name| > 0 && forall i :: 0 <= i < |name| ==> IsTagLinkChar(name[i])
  }

  // ------------------------------------------------------------------ runs

  /** Where the run of bytes in class `p` that starts at `o` ends. */
  function Munch(src: seq<byte>, o: nat, p: byte -> bool): (r: nat)
    requires o <= |src|
    ensures o <= r <= |src|
    decreases |src| - o
  {
    if o < |src| && p(src[o]) then Munch(src, o + 1, p) else o
  }

  /** A run is maximal, and every byte of it is in the class. */
  lemma {:induction false} MunchIsMaximal(src: seq<byte>, o: nat, p: byte -> bool)
    requires o <= |src|
    ensures forall i :: o <= i < Munch(src, o, p) ==> p(src[i])
    ensures Munch(src, o, p) < |src| ==> !p(src[Munch(src, o, p)])
    decreases |src| - o
  {
    if o < |src| && p(src[o]) {
      MunchIsMaximal(src, o + 1, p);
    }
  }

  predicate At(src: seq<byte>, o: nat, c: byte) {
    o < |src| && src[o] == c
  }

  predicate AtClass(src: seq<byte>, o: nat, p: byte -> bool) {
    o < |src| && p(src[o])
  }

  // ------------------------------------------------------------------ trivia

  function Piece(src: seq<byte>, kind: TriviaKind, o: nat, end: nat): Trivia
    requires o <= end <= |src|
  {
    Trivia(kind, src[o..end])
  }

  /** How many bytes of line break stand at `o`. */
  function BreakSize(src: seq<byte>, o: nat): (r: nat)
    requires o < |src|
    ensures o + r <= |src|
    ensures r > 0 <==> IsLineBreak(src[o])
  {
    if src[o] == '\n' then 1
    else if src[o] == '\r' then (if At(src, o + 1, '\n') then 2 else 1)
    else 0
  }

  /** A heading is a star at the start of a line before a star, a blank or a line break. */
  predicate IsHeadingStart(src: seq<byte>, o: nat) {
    AtClass(src, o + 1, (c: byte) => c == '*' || IsBlank(c) || IsLineBreak(c))
  }

  /** The piece of leading trivia at `o` with its end, if there is one. */
  function LeadingPiece(src: seq<byte>, o: nat, lineStart: bool): (r: (TriviaKind, nat))
    requires o < |src|
    ensures o <= r.1 <= |src|
    ensures r.1 > o ==> (IsBlank(src[o]) || IsLineBreak(src[o]) || src[o] == ';' || src[o] == '*')
  {
    if IsBlank(src[o]) then (WhitespaceTrivia, Munch(src, o, IsBlank))
    else if IsLineBreak(src[o]) then (NewlineTrivia, o + BreakSize(src, o))
    else if src[o] == ';' then (CommentTrivia, Munch(src, o, InLine))
    else if src[o] == '*' && lineStart && IsHeadingStart(src, o) then (HeadingTrivia, Munch(src, o, InLine))
    else (WhitespaceTrivia, o)
  }

  function LeadingTrivia(src: seq<byte>, o: nat, lineStart: bool): (r: (seq<Trivia>, nat))
    requires o <= |src|
    ensures o <= r.1 <= |src|
    decreases |src| - o
  {
    if o == |src| then ([], o)
    else
      var (kind, end) := LeadingPiece(src, o, lineStart);
      if end == o then ([], o)
      else
        var (rest, stop) := LeadingTrivia(src, end, kind == NewlineTrivia);
        ([Piece(src, kind, o, end)] + rest, stop)
  }

  /** Trivia found so far, before what is found from here on. */
  function After(found: seq<Trivia>, rest: (seq<Trivia>, nat)): (seq<Trivia>, nat) {
    (found + rest.0, rest.1)
  }

  lemma {:induction false} AfterOneMore(found: seq<Trivia>, piece: Trivia, rest: (seq<Trivia>, nat))
    ensures After(found + [piece], rest) == After(found, ([piece] + rest.0, rest.1))
  {
    assert (found + [piece]) + rest.0 == found + ([piece] + rest.0);
  }

  lemma {:induction false} AfterNothing(rest: (seq<Trivia>, nat))
    ensures After([], rest) == rest
  {
    assert [] + rest.0 == rest.0;
  }

  lemma {:induction false} AfterEnd(found: seq<Trivia>, o: nat)
    ensures After(found, ([], o)) == (found, o)
  {
    assert found + [] == found;
  }

  lemma {:induction false} LeadingStep(src: seq<byte>, o: nat, lineStart: bool)
    requires o < |src|
    ensures var (kind, end) := LeadingPiece(src, o, lineStart);
            end > o ==>
              LeadingTrivia(src, o, lineStart)
              == var r := LeadingTrivia(src, end, kind == NewlineTrivia); ([Piece(src, kind, o, end)] + r.0, r.1)
  {
  }

  /** Blanks on the same line, then at most one comment. */
  function TrailingTrivia(src: seq<byte>, o: nat): (r: (seq<Trivia>, nat))
    requires o <= |src|
    ensures o <= r.1 <= |src|
    decreases |src| - o
  {
    if AtClass(src, o, IsBlank) then
      var end := Munch(src, o, IsBlank);
      var (rest, stop) := TrailingTrivia(src, end);
      ([Piece(src, WhitespaceTrivia, o, end)] + rest, stop)
    else if At(src, o, ';') then ([Piece(src, CommentTrivia, o, Munch(src, o, InLine))], Munch(src, o, InLine))
    else ([], o)
  }

  // ------------------------------------------------------------------ lexemes

  predicate IsDate(w: seq<byte>) {
    && |w| == 10
    && (forall i :: i in {0, 1, 2, 3, 5, 6, 8, 9} ==> IsDigit(w[i]))
    && (w[4] == '-' || w[4] == '/') && (w[7] == '-' || w[7] == '/')
  }

  predicate DateAt(src: seq<byte>, o: nat) {
    o + 10 <= |src| && IsDate(src[o..o + 10])
  }

  function NumberEnd(src: seq<byte>, o: nat): (r: nat)
    requires o < |src|
    ensures o <= r <= |src|
  {
    if src[o] == '.' then Munch(src, o + 1, IsDigit)
    else
      var whole := Munch(src, o, IsDigitOrComma);
      if At(src, whole, '.') then Munch(src, whole + 1, IsDigit) else whole
  }

  /** The end of a string whose opening quote is before `o`; a backslash hides the next byte. */
  function StringEnd(src: seq<byte>, o: nat): (r: nat)
    requires o <= |src|
    ensures o <= r <= |src|
    decreases |src| - o
  {
    if o == |src| then o
    else if src[o] == '\\' && o + 1 < |src| then StringEnd(src, o + 2)
    else if src[o] == '"' then o + 1
    else StringEnd(src, o + 1)
  }

  /** The end of the run of runes that continue an account component. */
  function ComponentEnd(u: Alphabet, src: seq<byte>, o: nat): (r: nat)
    requires o <= |src|
    ensures o <= r <= |src|
    decreases |src| - o
  {
    if o < |src| && IsAccountComponentCont(u, DecodeRune(src, o).code) then ComponentEnd(u, src, o + DecodeRune(src, o).size)
    else o
  }

  /** The end of the account components that start at `o`; `o` itself when there is none. */
  function AccountEnd(u: Alphabet, src: seq<byte>, o: nat): (r: nat)
    requires o <= |src|
    ensures o <= r <= |src|
    decreases |src| - o
  {
    if At(src, o, ':') && o + 1 < |src| && IsAccountComponentStart(u, DecodeRune(src, o + 1).code) then
      AccountEnd(u, src, ComponentEnd(u, src, o + 1 + DecodeRune(src, o + 1).size))
    else o
  }

  /** A word with a capital first letter: an account, a currency or an identifier. */
  function UpperWord(u: Alphabet, src: seq<byte>, o: nat): (r: (TokenKind, nat))
    requires o < |src|
    ensures o < r.1 <= |src|
  {
    var end := Munch(src, o + 1, IsUpperWordChar);
    var word := src[o..end];
    if IsAccountRoot(word) && AccountEnd(u, src, end) > end then (ACCOUNT, AccountEnd(u, src, end))
    else (if IsCurrency(word) then CURRENCY else IDENT, end)
  }

  /** A one-byte token, or a two-byte one when the byte is doubled. */
  function Doubled(src: seq<byte>, o: nat, single: TokenKind, double: TokenKind): (TokenKind, nat)
    requires o < |src|
  {
    if At(src, o + 1, src[o]) then (double, o + 2) else (single, o + 1)
  }

  function Marked(src: seq<byte>, o: nat, bare: TokenKind, marked: TokenKind): (r: (TokenKind, nat))
    requires o < |src|
    ensures o < r.1 <= |src|
  {
    if AtClass(src, o + 1, IsTagLinkChar) then (marked, Munch(src, o + 1, IsTagLinkChar)) else (bare, o + 1)
  }

  /** Kind and end of the token at `o`. */
  function Lexeme(u: Alphabet, src: seq<byte>, o: nat): (r: (TokenKind, nat))
    requires o < |src|
    ensures o < r.1 <= |src|
    ensures r.0 != EOF
  {
    var c := src[o];
    match c
    case '+' => (PLUS, o + 1)
    case '-' => (MINUS, o + 1)
    case '*' => (STAR, o + 1)
    case '/' => (SLASH, o + 1)
    case '(' => (LPAREN, o + 1)
    case ')' => (RPAREN, o + 1)
    case '{' => Doubled(src, o, LBRACE, LBRACE2)
    case '}' => Doubled(src, o, RBRACE, RBRACE2)
    case '@' => Doubled(src, o, AT, ATAT)
    case '~' => (TILDE, o + 1)
    case ',' => (COMMA, o + 1)
    case ':' => (COLON, o + 1)
    case '!' => (BANG, o + 1)
    case '#' => Marked(src, o, HASH, TAG)
    case '^' => Marked(src, o, CARET, LINK)
    case '"' => (STRING, StringEnd(src, o + 1))
    case _ =>
      if IsDigit(c) then (if DateAt(src, o) then (DATE, o + 10) else (NUMBER, NumberEnd(src, o)))
      else if c == '.' && AtClass(src, o + 1, IsDigit) then (NUMBER, NumberEnd(src, o))
      else if IsUpper(c) then UpperWord(u, src, o)
      else if IsLower(c) then (IDENT, Munch(src, o + 1, IsIdentChar))
      else (ILLEGAL, o + DecodeRune(src, o).size)
  }

  // ------------------------------------------------------------------ tokens

  /** The next token from `o`, with its trivia, and where the one after it starts. */
  function ScanAt(u: Alphabet, src: seq<byte>, o: nat): (r: (Token, nat))
    requires o <= |src|
    ensures o <= r.1 <= |src|
    ensures r.0.kind == EOF ==> r.1 == |src| && r.0.raw == [] && r.0.pos == |src|
    ensures r.0.kind != EOF ==> o < r.1
  {
    var (leading, start) := LeadingTrivia(src, o, o == 0);
    if start == |src| then (Token(EOF, start, [], leading, []), start)
    else
      var (kind, end) := Lexeme(u, src, start);
      var (trailing, stop) := TrailingTrivia(src, end);
      (Token(kind, start, src[start..end], leading, trailing), stop)
  }

  // ------------------------------------------------------------------ nothing is lost

  lemma {:induction false} Adjacent(src: seq<byte>, a: nat, b: nat, c: nat)
    requires a <= b <= c <= |src|
    ensures src[a..b] + src[b..c] == src[a..c]
  {
  }

  lemma {:induction false} LeadingTriviaIsSource(src: seq<byte>, o: nat, lineStart: bool)
    requires o <= |src|
    ensures var (ts, end) := LeadingTrivia(src, o, lineStart); TriviaText(ts) == src[o..end]
    decreases |src| - o
  {
    if o < |src| {
      var (kind, end) := LeadingPiece(src, o, lineStart);
      if end != o {
        LeadingTriviaIsSource(src, end, kind == NewlineTrivia);
        var (rest, stop) := LeadingTrivia(src, end, kind == NewlineTrivia);
        HeadText(Piece(src, kind, o, end), rest);
        Adjacent(src, o, end, stop);
      }
    }
  }

  lemma {:induction false} HeadText(t: Trivia, rest: seq<Trivia>)
    ensures TriviaText([t] + rest) == t.raw + TriviaText(rest)
  {
    assert ([t] + rest)[1..] == rest;
  }

  lemma {:induction false} TrailingTriviaIsSource(src: seq<byte>, o: nat)
    requires o <= |src|
    ensures var (ts, end) := TrailingTrivia(src, o); TriviaText(ts) == src[o..end]
    decreases |src| - o
  {
    if AtClass(src, o, IsBlank) {
      var end := Munch(src, o, IsBlank);
      TrailingTriviaIsSource(src, end);
      var (rest, stop) := TrailingTrivia(src, end);
      HeadText(Piece(src, WhitespaceTrivia, o, end), rest);
      Adjacent(src, o, end, stop);
    } else if At(src, o, ';') {
      var none: seq<Trivia> := [];
      HeadText(Piece(src, CommentTrivia, o, Munch(src, o, InLine)), none);
    }
  }

  /** A scanned token and its trivia are exactly the source text it spans, and its position is right. */
  lemma {:induction false} ScannedTextIsSource(u: Alphabet, src: seq<byte>, o: nat)
    requires o <= |src|
    ensures var (t, end) := ScanAt(u, src, o);
            && t.Text() == src[o..end]
            && t.pos + |t.raw| <= |src| && t.raw == src[t.pos..t.pos + |t.raw|]
  {
    var (t, end) := ScanAt(u, src, o);
    LeadingTriviaIsSource(src, o, o == 0);
    var (leading, start) := LeadingTrivia(src, o, o == 0);
    if start == |src| {
      assert t.Text() == TriviaText(leading) + [] + [];
    } else {
      var stop := Lexeme(u, src, start).1;
      TrailingTriviaIsSource(src, stop);
      Adjacent(src, o, start, stop);
      Adjacent(src, o, stop, end);
    }
  }
}
