/**
 The scanner object: the source and a byte offset that every method moves forward.
 Each method is proved to take the step the functions of `Scanning` describe.
 */
module Scanners {
  import opened Utf8
  import opened Syntax
  import opened Scanning

  class Scanner {
    const alphabet: Alphabet
    const src: seq<byte>
    var offset: nat

    constructor (alphabet: Alphabet, src: seq<byte>)
      ensures this.alphabet == alphabet && this.src == src && offset == 0
    {
      this.alphabet, this.src, offset := alphabet, src, 0;
    }

    /** The next token, with trivia attached. */
    method Scan() returns (t: Token)
      requires offset <= |src|
      modifies this`offset
      ensures offset <= |src| && (t, offset) == ScanAt(alphabet, src, old(offset))
    {
      var leading := ScanLeadingTrivia();
      if offset >= |src| {
        return Token(EOF, offset, [], leading, []);
      }
      t := ScanToken();
      var trailing := ScanTrailingTrivia();
      t := t.(leading := leading, trailing := trailing);
    }

    method ScanLeadingTrivia() returns (trivia: seq<Trivia>)
      requires offset <= |src|
      modifies this`offset
      ensures offset <= |src| && (trivia, offset) == LeadingTrivia(src, old(offset), old(offset) == 0)
    {
      trivia := [];
      var atLineStart := offset == 0;
      AfterNothing(LeadingTrivia(src, offset, atLineStart));
      while offset < |src|
        invariant old(offset) <= offset <= |src|
        invariant LeadingTrivia(src, old(offset), old(offset) == 0) == After(trivia, LeadingTrivia(src, offset, atLineStart))
        decreases |src| - offset
      {
        var ch := src[offset];
        ghost var start, here := atLineStart, offset;
        var piece;
        if IsBlank(ch) {
          piece := ScanWhitespace();
        } else if IsLineBreak(ch) {
          piece := ScanLineBreak();
        } else if ch == ';' {
          piece := ScanToLineEnd(CommentTrivia);
        } else if ch == '*' && atLineStart && IsHeadingStart(src, offset) {
          piece := ScanToLineEnd(HeadingTrivia);
        } else {
          break;
        }
        AfterOneMore(trivia, piece, LeadingTrivia(src, offset, piece.kind == NewlineTrivia));
        LeadingStep(src, here, start);
        trivia := trivia + [piece];
        atLineStart := piece.kind == NewlineTrivia;
      }
      AfterEnd(trivia, offset);
    }

    /** A newline, a carriage return with a newline, or a bare carriage return. */
    method ScanLineBreak() returns (t: Trivia)
      requires offset < |src| && IsLineBreak(src[offset])
      modifies this`offset
      ensures old(offset) < offset == old(offset) + BreakSize(src, old(offset)) <= |src|
      ensures t == Piece(src, NewlineTrivia, old(offset), offset)
    {
      var start := offset;
      if src[offset] == '\n' {
        offset := offset + 1;
      } else if offset + 1 < |src| && src[offset + 1] == '\n' {
        offset := offset + 2;
      } else {
        offset := offset + 1;
      }
      t := Trivia(NewlineTrivia, src[start..offset]);
    }

    method ScanTrailingTrivia() returns (trivia: seq<Trivia>)
      requires offset <= |src|
      modifies this`offset
      ensures offset <= |src| && (trivia, offset) == TrailingTrivia(src, old(offset))
    {
      trivia := [];
      AfterNothing(TrailingTrivia(src, offset));
      while offset < |src|
        invariant old(offset) <= offset <= |src|
        invariant TrailingTrivia(src, old(offset)) == After(trivia, TrailingTrivia(src, offset))
        decreases |src| - offset
      {
        var ch := src[offset];
        if ch == ' ' || ch == '\t' {
          ghost var before := trivia;
          var piece := ScanWhitespace();
          trivia := trivia + [piece];
          AfterOneMore(before, piece, TrailingTrivia(src, offset));
        } else if ch == ';' {
          var piece := ScanToLineEnd(CommentTrivia);
          trivia := trivia + [piece];
          return;
        } else {
          break;
        }
      }
      AfterEnd(trivia, offset);
    }

    method ScanWhitespace() returns (t: Trivia)
      requires offset < |src| && IsBlank(src[offset])
      modifies this`offset
      ensures old(offset) < offset == Munch(src, old(offset), IsBlank)
      ensures t == Piece(src, WhitespaceTrivia, old(offset), offset)
    {
      var start := offset;
      Skip(IsBlank);
      t := Trivia(WhitespaceTrivia, src[start..offset]);
    }

    /** A comment or a heading: everything up to the line break. */
    method ScanToLineEnd(kind: TriviaKind) returns (t: Trivia)
      requires offset < |src| && InLine(src[offset])
      modifies this`offset
      ensures old(offset) < offset == Munch(src, old(offset), InLine)
      ensures t == Piece(src, kind, old(offset), offset)
    {
      var start := offset;
      Skip(InLine);
      t := Trivia(kind, src[start..offset]);
    }

    /** Moves past the bytes in class `p`. */
    method Skip(p: byte -> bool)
      requires offset <= |src|
      modifies this`offset
      ensures offset == Munch(src, old(offset), p)
    {
      while offset < |src| && p(src[offset])
        invariant old(offset) <= offset <= |src|
        invariant Munch(src, old(offset), p) == Munch(src, offset, p)
      {
        offset := offset + 1;
      }
    }

    /** The token at the offset, without trivia. */
    method ScanToken() returns (t: Token)
      requires offset < |src|
      modifies this`offset
      ensures offset <= |src| && (t.kind, offset) == Lexeme(alphabet, src, old(offset))
      ensures t == Token(t.kind, old(offset), src[old(offset)..offset], [], [])
    {
      var pos, ch := offset, src[offset];
      var kind;
      match ch {
        case '+' => offset, kind := offset + 1, PLUS;
        case '-' => offset, kind := offset + 1, MINUS;
        case '*' => offset, kind := offset + 1, STAR;
        case '/' => offset, kind := offset + 1, SLASH;
        case '(' => offset, kind := offset + 1, LPAREN;
        case ')' => offset, kind := offset + 1, RPAREN;
        case '{' => kind := ScanDoubled(LBRACE, LBRACE2);
        case '}' => kind := ScanDoubled(RBRACE, RBRACE2);
        case '@' => kind := ScanDoubled(AT, ATAT);
        case '~' => offset, kind := offset + 1, TILDE;
        case ',' => offset, kind := offset + 1, COMMA;
        case ':' => offset, kind := offset + 1, COLON;
        case '!' => offset, kind := offset + 1, BANG;
        case '#' => kind := ScanMarked(HASH, TAG);
        case '^' => kind := ScanMarked(CARET, LINK);
        case '"' =>
          ScanString();
          kind := STRING;
        case _ =>
          kind := ScanWord();
      }
      t := Token(kind, pos, src[pos..offset], [], []);
    }

    method ScanDoubled(single: TokenKind, double: TokenKind) returns (kind: TokenKind)
      requires offset < |src|
      modifies this`offset
      ensures kind == Doubled(src, old(offset), single, double).0 && offset == Doubled(src, old(offset), single, double).1
    {
      if offset + 1 < |src| && src[offset + 1] == src[offset] {
        offset := offset + 2;
        return double;
      }
      offset := offset + 1;
      return single;
    }

    /** A tag or a link, or its bare sigil. */
    method ScanMarked(bare: TokenKind, marked: TokenKind) returns (kind: TokenKind)
      requires offset < |src|
      modifies this`offset
      ensures kind == Marked(src, old(offset), bare, marked).0 && offset == Marked(src, old(offset), bare, marked).1
    {
      offset := offset + 1;
      kind := bare;
      if offset < |src| && IsTagLinkChar(src[offset]) {
        Skip(IsTagLinkChar);
        kind := marked;
      }
    }

    /** Words, numbers, dates, and anything else. */
    method ScanWord() returns (kind: TokenKind)
      requires offset < |src|
      requires src[offset] !in {'+', '-', '*', '/', '(', ')', '{', '}', '@', '~', ',', ':', '!', '#', '^', '"'}
      modifies this`offset
      ensures offset <= |src| && (kind, offset) == Lexeme(alphabet, src, old(offset))
    {
      var ch := src[offset];
      if IsDigit(ch) {
        kind := ScanDateOrNumber();
      } else if ch == '.' && offset + 1 < |src| && IsDigit(src[offset + 1]) {
        ScanNumber();
        kind := NUMBER;
      } else if IsUpper(ch) {
        kind := ScanUpperWord();
      } else if IsLower(ch) {
        offset := offset + 1;
        Skip(IsIdentChar);
        kind := IDENT;
      } else {
        offset := offset + DecodeRune(src, offset).size;
        kind := ILLEGAL;
      }
    }

    method ScanDateOrNumber() returns (kind: TokenKind)
      requires offset < |src|
      modifies this`offset
      ensures offset <= |src|
      ensures (kind, offset) == if DateAt(src, old(offset)) then (DATE, old(offset) + 10) else (NUMBER, NumberEnd(src, old(offset)))
    {
      if offset + 10 <= |src| {
        var candidate := src[offset..offset + 10];
        if IsDigit(candidate[0]) && IsDigit(candidate[1]) && IsDigit(candidate[2]) && IsDigit(candidate[3])
           && (candidate[4] == '-' || candidate[4] == '/')
           && IsDigit(candidate[5]) && IsDigit(candidate[6])
           && (candidate[7] == '-' || candidate[7] == '/')
           && IsDigit(candidate[8]) && IsDigit(candidate[9]) {
          offset := offset + 10;
          return DATE;
        }
      }
      ScanNumber();
      return NUMBER;
    }

    method ScanNumber()
      requires offset < |src|
      modifies this`offset
      ensures offset == NumberEnd(src, old(offset))
    {
      if src[offset] == '.' {
        offset := offset + 1;
        Skip(IsDigit);
        return;
      }
      Skip(IsDigitOrComma);
      if offset < |src| && src[offset] == '.' {
        offset := offset + 1;
        Skip(IsDigit);
      }
    }

    method ScanUpperWord() returns (kind: TokenKind)
      requires offset < |src|
      modifies this`offset
      ensures offset <= |src| && (kind, offset) == UpperWord(alphabet, src, old(offset))
    {
      var pos := offset;
      offset := offset + 1;
      Skip(IsUpperWordChar);
      var word := src[pos..offset];
      if IsAccountRoot(word) && offset < |src| && src[offset] == ':' {
        var saved := offset;
        var componentCount := ScanComponents();
        if componentCount > 0 {
          return ACCOUNT;
        }
        offset := saved;
      }
      if IsCurrency(word) {
        return CURRENCY;
      }
      return IDENT;
    }

    /** Consumes account components and counts them. */
    method ScanComponents() returns (count: nat)
      requires offset <= |src|
      modifies this`offset
      ensures offset == AccountEnd(alphabet, src, old(offset))
      ensures count > 0 <==> offset > old(offset)
    {
      count := 0;
      while offset < |src| && src[offset] == ':'
        invariant old(offset) <= offset <= |src|
        invariant count > 0 <==> offset > old(offset)
        invariant AccountEnd(alphabet, src, old(offset)) == AccountEnd(alphabet, src, offset)
      {
        var next := offset + 1;
        if next >= |src| { break; }
        var rune := DecodeRune(src, next);
        if !IsAccountComponentStart(alphabet, rune.code) { break; }
        offset := next + rune.size;
        ScanComponent();
        count := count + 1;
      }
    }

    method ScanComponent()
      requires offset <= |src|
      modifies this`offset
      ensures offset == ComponentEnd(alphabet, src, old(offset))
    {
      while offset < |src|
        invariant old(offset) <= offset <= |src|
        invariant ComponentEnd(alphabet, src, old(offset)) == ComponentEnd(alphabet, src, offset)
      {
        var rune := DecodeRune(src, offset);
        if !IsAccountComponentCont(alphabet, rune.code) { break; }
        offset := offset + rune.size;
      }
    }

    /** From the opening quote to past the closing one, or to the end of the source. */
    method ScanString()
      requires offset < |src|
      modifies this`offset
      ensures offset == StringEnd(src, old(offset) + 1)
    {
      offset := offset + 1;
      while offset < |src|
        invariant old(offset) < offset <= |src|
        invariant StringEnd(src, old(offset) + 1) == StringEnd(src, offset)
        decreases |src| - offset
      {
        var ch := src[offset];
        if ch == '\\' && offset + 1 < |src| {
          offset := offset + 2;
          continue;
        }
        if ch == '"' {
          offset := offset + 1;
          return;
        }
        offset := offset + 1;
      }
    }
  }
}
