/** What the text of a token looks like, kind by kind, and that no token could be longer. */
module ScanningLaws {
  import opened Utf8
  import opened Syntax
  import opened Scanning

  predicate AllIn(w: seq<byte>, p: byte -> bool) {
    forall i :: 0 <= i < |w| ==> p(w[i])
  }

  /** Digits and commas after a first digit, then optionally a point and digits. */
  predicate IsWholeNumber(w: seq<byte>, whole: nat) {
    && 1 <= whole <= |w| && IsDigit(w[0]) && AllIn(w[..whole], IsDigitOrComma)
    && (whole == |w| || (w[whole] == '.' && AllIn(w[whole + 1..], IsDigit)))
  }

  predicate IsPointNumber(w: seq<byte>) {
    |w| >= 2 && w[0] == '.' && AllIn(w[1..], IsDigit)
  }

  predicate IsNumber(w: seq<byte>) {
    IsPointNumber(w) || exists whole :: 1 <= whole <= |w| && IsWholeNumber(w, whole)
  }

  /** From `o` on, every rune may continue a component. */
  predicate Continues(u: Alphabet, w: seq<byte>, o: nat)
    requires o <= |w|
    decreases |w| - o
  {
    o == |w| || (IsAccountComponentCont(u, DecodeRune(w, o).code) && Continues(u, w, o + DecodeRune(w, o).size))
  }

  /** A rune that may start a component, and runes that may continue it. */
  predicate IsComponent(u: Alphabet, w: seq<byte>) {
    |w| > 0 && IsAccountComponentStart(u, DecodeRune(w, 0).code) && Continues(u, w, DecodeRune(w, 0).size)
  }

  /** Components, each after a colon. */
  predicate AreComponents(u: Alphabet, w: seq<byte>)
    decreases |w|
  {
    w == [] || (w[0] == ':' && exists k :: 1 < k <= |w| && IsComponent(u, w[1..k]) && AreComponents(u, w[k..]))
  }

  /** An account root and at least one component. */
  predicate IsAccount(u: Alphabet, w: seq<byte>) {
    exists i :: 0 <= i < |w| && IsAccountRoot(w[..i]) && AreComponents(u, w[i..])
  }

  /** A backslash that is not itself escaped stands before `i`; the byte at `start` opens the string. */
  predicate Escaped(w: seq<byte>, start: nat, i: nat)
    requires i <= |w|
  {
    i > start + 1 && w[i - 1] == '\\' && !Escaped(w, start, i - 1)
  }

  /** A quote opens it, and no unescaped quote stands inside. */
  predicate IsQuoted(w: seq<byte>) {
    |w| > 0 && w[0] == '"' && forall i :: 0 < i < |w| - 1 && w[i] == '"' ==> Escaped(w, 0, i)
  }

  /** An unescaped quote ends it. */
  predicate IsClosed(w: seq<byte>) {
    |w| > 1 && w[|w| - 1] == '"' && !Escaped(w, 0, |w| - 1)
  }

  /** The text that a token of `kind` may have. */
  predicate Spells(u: Alphabet, kind: TokenKind, w: seq<byte>) {
    match kind
    case DATE => IsDate(w)
    case NUMBER => IsNumber(w)
    case STRING => IsQuoted(w)
    case ACCOUNT => IsAccount(u, w)
    case CURRENCY => IsCurrency(w) && IsUpper(w[0])
    case TAG => |w| > 1 && w[0] == '#' && IsTagLinkName(w[1..])
    case LINK => |w| > 1 && w[0] == '^' && IsTagLinkName(w[1..])
    case IDENT => |w| > 0 && (IsLower(w[0]) || (IsUpper(w[0]) && !IsCurrency(w))) && AllIn(w, IsUpperWordChar)
    case PLUS => w == "+"
    case MINUS => w == "-"
    case STAR => w == "*"
    case SLASH => w == "/"
    case LPAREN => w == "("
    case RPAREN => w == ")"
    case LBRACE => w == "{"
    case RBRACE => w == "}"
    case LBRACE2 => w == "{{"
    case RBRACE2 => w == "}}"
    case AT => w == "@"
    case ATAT => w == "@@"
    case TILDE => w == "~"
    case COMMA => w == ","
    case COLON => w == ":"
    case BANG => w == "!"
    case HASH => w == "#"
    case CARET => w == "^"
    case ILLEGAL => |w| > 0 && |w| == DecodeRune(w, 0).size
    case EOF => w == []
  }

  lemma {:induction false} RunOf(src: seq<byte>, o: nat, p: byte -> bool)
    requires o <= |src|
    ensures AllIn(src[o..Munch(src, o, p)], p) && !AtClass(src, Munch(src, o, p), p)
  {
    MunchIsMaximal(src, o, p);
  }

  lemma {:induction false} MarkedSpells(src: seq<byte>, o: nat)
    requires o < |src| && AtClass(src, o + 1, IsTagLinkChar)
    ensures var end := Munch(src, o + 1, IsTagLinkChar);
            src[o..end][1..] == src[o + 1..end] && IsTagLinkName(src[o + 1..end]) && end > o + 1
  {
    RunOf(src, o + 1, IsTagLinkChar);
  }

  lemma {:induction false} NumberSpells(src: seq<byte>, o: nat)
    requires o < |src| && (IsDigit(src[o]) || (src[o] == '.' && AtClass(src, o + 1, IsDigit)))
    ensures IsNumber(src[o..NumberEnd(src, o)])
  {
    var end := NumberEnd(src, o);
    var w := src[o..end];
    if src[o] == '.' {
      RunOf(src, o + 1, IsDigit);
      assert w[1..] == src[o + 1..end];
    } else {
      RunOf(src, o, IsDigitOrComma);
      var whole := Munch(src, o, IsDigitOrComma);
      assert w[..whole - o] == src[o..whole];
      if At(src, whole, '.') {
        RunOf(src, whole + 1, IsDigit);
        assert w[whole - o + 1..] == src[whole + 1..end];
      }
      assert IsWholeNumber(w, whole - o);
    }
  }

  /** A number token could not be longer: no digit follows it, nor a comma or a point that would continue it. */
  lemma {:induction false} NumberIsMaximal(src: seq<byte>, o: nat)
    requires o < |src|
    ensures var end := NumberEnd(src, o);
            && !AtClass(src, end, IsDigit)
            && ((forall i :: o <= i < end ==> src[i] != '.') ==> !AtClass(src, end, c => c == '.' || c == ','))
  {
    if src[o] == '.' {
      RunOf(src, o + 1, IsDigit);
    } else {
      RunOf(src, o, IsDigitOrComma);
      var whole := Munch(src, o, IsDigitOrComma);
      if At(src, whole, '.') {
        RunOf(src, whole + 1, IsDigit);
      }
    }
  }

  /** A rune that ends before `c` is the same when the text is cut there. */
  lemma {:induction false} DecodesWithin(src: seq<byte>, b: nat, p: nat, c: nat)
    requires b <= p < c <= |src| && p + DecodeRune(src, p).size <= c
    ensures DecodeRune(src[b..c], p - b) == DecodeRune(src, p)
  {
    assert forall i :: b <= i < c ==> src[b..c][i - b] == src[i];
  }

  lemma {:induction false} RunesContinue(u: Alphabet, src: seq<byte>, b: nat, p: nat)
    requires b <= p <= |src|
    ensures Continues(u, src[b..ComponentEnd(u, src, p)], p - b)
    decreases |src| - p
  {
    var c := ComponentEnd(u, src, p);
    if p < c {
      var next := p + DecodeRune(src, p).size;
      RunesContinue(u, src, b, next);
      DecodesWithin(src, b, p, c);
    }
  }

  lemma {:induction false} ComponentSpells(u: Alphabet, src: seq<byte>, p: nat)
    requires p < |src| && IsAccountComponentStart(u, DecodeRune(src, p).code)
    ensures p < ComponentEnd(u, src, p + DecodeRune(src, p).size)
    ensures IsComponent(u, src[p..ComponentEnd(u, src, p + DecodeRune(src, p).size)])
  {
    var next := p + DecodeRune(src, p).size;
    RunesContinue(u, src, p, next);
    DecodesWithin(src, p, p, ComponentEnd(u, src, next));
  }

  lemma {:induction false} OneMoreComponent(u: Alphabet, src: seq<byte>, o: nat, c: nat, end: nat)
    requires o + 1 < c <= end <= |src| && src[o] == ':' && IsComponent(u, src[o + 1..c]) && AreComponents(u, src[c..end])
    ensures AreComponents(u, src[o..end])
  {
    var w, k := src[o..end], c - o;
    CutTwice(src, o, end, 1, k);
    CutTwice(src, o, end, k, |w|);
    assert w[k..] == w[k..|w|];
  }

  lemma {:induction false} CutTwice(src: seq<byte>, o: nat, end: nat, a: nat, b: nat)
    requires o + a <= o + b <= end <= |src|
    ensures src[o..end][a..b] == src[o + a..o + b]
  {
    var w := src[o..end];
    forall k | 0 <= k < b - a ensures w[a..b][k] == src[o + a..o + b][k] {
      assert w[a + k] == src[o + (a + k)];
    }
  }

  /** What follows the root of an account is components up to its end. */
  lemma {:induction false} ComponentsSpell(u: Alphabet, src: seq<byte>, o: nat)
    requires o <= |src|
    ensures AreComponents(u, src[o..AccountEnd(u, src, o)])
    decreases |src| - o
  {
    if o < AccountEnd(u, src, o) {
      var c := ComponentEnd(u, src, o + 1 + DecodeRune(src, o + 1).size);
      ComponentSpells(u, src, o + 1);
      ComponentsSpell(u, src, c);
      OneMoreComponent(u, src, o, c, AccountEnd(u, src, c));
    }
  }

  lemma {:induction false} UpperWordSpells(u: Alphabet, src: seq<byte>, o: nat)
    requires o < |src| && IsUpper(src[o])
    ensures var (kind, end) := UpperWord(u, src, o); Spells(u, kind, src[o..end]) && kind in {ACCOUNT, CURRENCY, IDENT}
    ensures var (kind, end) := UpperWord(u, src, o); kind != ACCOUNT ==> !AtClass(src, end, IsUpperWordChar)
  {
    RunOf(src, o + 1, IsUpperWordChar);
    var word := Munch(src, o + 1, IsUpperWordChar);
    var (kind, end) := UpperWord(u, src, o);
    var w := src[o..end];
    if kind == ACCOUNT {
      assert w[..word - o] == src[o..word] && w[word - o..] == src[word..end];
      ComponentsSpell(u, src, word);
    } else {
      assert forall i :: 0 < i < |w| ==> w[i] == src[o + 1..end][i - 1];
    }
  }

  lemma {:induction false} EscapedInPlace(src: seq<byte>, o: nat, end: nat, i: nat)
    requires o <= end <= |src| && i <= end - o
    ensures Escaped(src[o..end], 0, i) == Escaped(src, o, o + i)
    decreases i
  {
    if i > 1 {
      EscapedInPlace(src, o, end, i - 1);
    }
  }

  /** Every quote between `o` and `end` is escaped. */
  ghost predicate QuotesEscaped(src: seq<byte>, o: nat, end: nat)
    requires end <= |src|
  {
    forall i :: o < i < end && src[i] == '"' ==> Escaped(src, o, i)
  }

  /** The end of a string is just after its first unescaped quote, or the end of the source. */
  lemma {:induction false} StringRuns(src: seq<byte>, o: nat, p: nat)
    requires o < p <= |src| && !Escaped(src, o, p) && QuotesEscaped(src, o, p)
    ensures var end := StringEnd(src, p);
            || (o + 1 < end && QuotesEscaped(src, o, end - 1) && src[end - 1] == '"' && !Escaped(src, o, end - 1))
            || (end == |src| && QuotesEscaped(src, o, end))
    decreases |src| - p
  {
    if p < |src| {
      if src[p] == '\\' && p + 1 < |src| {
        assert Escaped(src, o, p + 1);
        StringRuns(src, o, p + 2);
      } else if src[p] == '"' {
      } else if src[p] == '\\' {
        assert StringEnd(src, p) == StringEnd(src, p + 1) == |src|;
      } else {
        StringRuns(src, o, p + 1);
      }
    }
  }

  lemma {:induction false} StringSpells(src: seq<byte>, o: nat)
    requires o < |src| && src[o] == '"'
    ensures var w := src[o..StringEnd(src, o + 1)];
            IsQuoted(w) && (StringEnd(src, o + 1) == |src| || IsClosed(w))
  {
    var end := StringEnd(src, o + 1);
    var w := src[o..end];
    StringRuns(src, o, o + 1);
    forall i: nat | i < |w| ensures Escaped(w, 0, i) == Escaped(src, o, o + i) {
      EscapedInPlace(src, o, end, i);
    }
  }

  /**
   The text of every token is one that its kind may have; a string not closed by an
   unescaped quote ends with the source.
   */
  lemma {:induction false} LexemeSpells(u: Alphabet, src: seq<byte>, o: nat)
    requires o < |src|
    ensures var (kind, end) := Lexeme(u, src, o);
            Spells(u, kind, src[o..end]) && (kind == STRING ==> end == |src| || IsClosed(src[o..end]))
  {
    var c := src[o];
    if c == '"' {
      StringSpells(src, o);
    } else if c in {'#', '^', '+', '-', '*', '/', '(', ')', '{', '}', '@', '~', ',', ':', '!'} {
      SignSpells(u, src, o);
    } else {
      WordSpells(u, src, o);
    }
  }

  /** Tags, links and punctuation. */
  lemma {:induction false} SignSpells(u: Alphabet, src: seq<byte>, o: nat)
    requires o < |src| && src[o] in {'#', '^', '+', '-', '*', '/', '(', ')', '{', '}', '@', '~', ',', ':', '!'}
    ensures var (kind, end) := Lexeme(u, src, o); Spells(u, kind, src[o..end]) && kind != STRING
  {
    if src[o] in {'#', '^'} && AtClass(src, o + 1, IsTagLinkChar) {
      MarkedSpells(src, o);
    }
  }

  /** Numbers, words and unknown runes. */
  lemma {:induction false} WordSpells(u: Alphabet, src: seq<byte>, o: nat)
    requires o < |src|
    requires src[o] !in {'#', '^', '+', '-', '*', '/', '(', ')', '{', '}', '@', '~', ',', ':', '!', '"'}
    ensures var (kind, end) := Lexeme(u, src, o); Spells(u, kind, src[o..end]) && kind != STRING
  {
    var c := src[o];
    var (kind, end) := Lexeme(u, src, o);
    if IsDigit(c) || (c == '.' && AtClass(src, o + 1, IsDigit)) {
      NumberSpells(src, o);
    } else if IsUpper(c) {
      UpperWordSpells(u, src, o);
    } else if IsLower(c) {
      RunOf(src, o + 1, IsIdentChar);
      assert forall i :: 0 < i < |src[o..end]| ==> src[o..end][i] == src[o + 1..end][i - 1];
    } else {
      DecodesWithin(src, o, o, end);
    }
  }
}
