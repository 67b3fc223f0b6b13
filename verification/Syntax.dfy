/**
 The concrete syntax tree: tokens that carry the trivia around them, and nodes
 whose children are tokens and nodes in source order.
 */
module Syntax {
  import opened Utf8

  datatype TokenKind =
    | ILLEGAL
    | DATE | NUMBER | STRING | ACCOUNT | CURRENCY | TAG | LINK | IDENT
    | PLUS | MINUS | STAR | SLASH | LPAREN | RPAREN | LBRACE | RBRACE | LBRACE2 | RBRACE2
    | AT | ATAT | TILDE | COMMA | COLON | BANG | HASH | CARET
    | EOF

  datatype TriviaKind = WhitespaceTrivia | CommentTrivia | NewlineTrivia | HeadingTrivia

  datatype Trivia = Trivia(kind: TriviaKind, raw: seq<byte>)

  /** The source text of a run of trivia. */
  function TriviaText(ts: seq<Trivia>): seq<byte> {
    if ts == [] then [] else ts[0].raw + TriviaText(ts[1..])
  }

  /** `pos` is the byte offset of `raw` in the source. */
  datatype Token = Token(kind: TokenKind, pos: nat, raw: seq<byte>, leading: seq<Trivia>, trailing: seq<Trivia>)
  {
    function Text(): seq<byte> {
      TriviaText(leading) + raw + TriviaText(trailing)
    }

    /** Whether a newline stands before the token. */
    predicate OnNextLine() {
      exists i :: 0 <= i < |leading| && leading[i].kind == NewlineTrivia
    }

    /** Whether whitespace follows a newline in the leading trivia. */
    predicate Indented() {
      exists i, j :: 0 <= i < j < |leading| && leading[i].kind == NewlineTrivia && leading[j].kind == WhitespaceTrivia
    }
  }

  datatype NodeKind =
    | FileNode
    | OptionDirective | PluginDirective | IncludeDirective | PushtagDirective | PoptagDirective
    | OpenDirective | CloseDirective | CommodityDirective | BalanceDirective | PadDirective | NoteDirective
    | DocumentDirective | PriceDirective | EventDirective | QueryDirective | CustomDirective | TransactionDirective
    | PostingNode | AmountNode | BalanceAmountNode | CostSpecNode | PriceAnnotNode | MetadataLineNode | ArithExprNode
    | UnrecognizedLineNode

  datatype Child = TokenChild(token: Token) | NodeChild(node: Node)

  datatype Node = Node(kind: NodeKind, children: seq<Child>)
  {
    function AddToken(t: Token): Node {
      this.(children := children + [TokenChild(t)])
    }

    function AddNode(n: Node): Node {
      this.(children := children + [NodeChild(n)])
    }
  }

  /** All tokens of the subtree, in source order. */
  function Tokens(n: Node): seq<Token>
    decreases n
  {
    TokensOf(n.children)
  }

  function TokensOf(cs: seq<Child>): seq<Token>
    decreases cs
  {
    if cs == [] then [] else ChildTokens(cs[0]) + TokensOf(cs[1..])
  }

  function ChildTokens(c: Child): seq<Token>
    decreases c
  {
    match c
    case TokenChild(t) => [t]
    case NodeChild(n) => Tokens(n)
  }

  function TextOf(ts: seq<Token>): seq<byte> {
    if ts == [] then [] else ts[0].Text() + TextOf(ts[1..])
  }

  /** The source text of the subtree: all trivia and raw text, in order. */
  function FullText(n: Node): seq<byte> {
    TextOf(Tokens(n))
  }

  lemma {:induction false} TokensOfAppended(cs: seq<Child>, c: Child)
    ensures TokensOf(cs + [c]) == TokensOf(cs) + ChildTokens(c)
  {
    if cs == [] {
      var none: seq<Child> := [];
      assert [c][1..] == none && cs + [c] == [c];
    } else {
      assert (cs + [c])[1..] == cs[1..] + [c];
      TokensOfAppended(cs[1..], c);
    }
  }

  lemma {:induction false} TextOfSplit(a: seq<Token>, b: seq<Token>)
    ensures TextOf(a + b) == TextOf(a) + TextOf(b)
  {
    if a == [] {
      assert a + b == b;
    } else {
      assert (a + b)[1..] == a[1..] + b;
      TextOfSplit(a[1..], b);
    }
  }

  /** Appending a child appends its tokens and its text. */
  lemma {:induction false} AppendingAddsText(n: Node, c: Child)
    ensures var m := n.(children := n.children + [c]);
            && Tokens(m) == Tokens(n) + ChildTokens(c)
            && FullText(m) == FullText(n) + TextOf(ChildTokens(c))
  {
    TokensOfAppended(n.children, c);
    TextOfSplit(Tokens(n), ChildTokens(c));
  }
}
