/**
 Entry points of the parser. Parsing is total and lossless: whatever the source, the
 text of the tree is the source, byte for byte.
 */
module Parse {
  import opened Utf8
  import opened Syntax
  import opened Scanning
  import opened Segments
  import opened Grammar
  import opened Expressions
  import opened ExpressionLaws
  import opened FixedLines
  import opened Parsers

  /** Every token, made up or not, has its text at its position. */
  ghost predicate InPlace(src: seq<byte>, ts: seq<Token>) {
    forall t :: t in ts ==> t.pos + |t.raw| <= |src| && t.raw == src[t.pos..t.pos + |t.raw|]
  }

  /** If the source is of well written directives of fixed shape, they are what the file has, without an error. */
  ghost predicate ReadsWritten(alphabet: Alphabet, src: seq<byte>, file: File) {
    forall ds: seq<Statement>, eof: Token :: WellWritten(ds) && eof.kind == EOF && Stream(alphabet, src, 0) == AllTokens(ds) + [eof]
      ==> file == File(Node(FileNode, Nodes(ds) + [TokenChild(eof)]), [])
  }

  /**
   Parses a source text. The tree holds every byte of it, in order; every scanned
   token is in it exactly once; without errors every node has the shape of its kind; and
   a source of well written directives of fixed shape parses, without an error, to the
   very nodes that they spell.
   */
  method ParseSource(alphabet: Alphabet, src: seq<byte>) returns (file: File)
    ensures FullText(file.root) == src
    ensures Segment(SourceOf(alphabet, src), Tokens(file.root), 0, |src|)
    ensures InPlace(src, Tokens(file.root))
    ensures var found, stream := Scanned(Tokens(file.root)), Stream(alphabet, src, 0);
            stream <= found && OnlyEnds(src, found[|stream|..])
    ensures file.root.kind == FileNode && (file.errors == [] ==> Sound(file.root))
    ensures ReadsWritten(alphabet, src, file)
  {
    var p := new Parser(alphabet, src);
    file := p.ParseFile();
    forall ds: seq<Statement>, eof: Token | WellWritten(ds) && eof.kind == EOF && Stream(alphabet, src, 0) == AllTokens(ds) + [eof]
      ensures file == File(Node(FileNode, Nodes(ds) + [TokenChild(eof)]), [])
    {
      WrittenFile(ds, eof, file);
    }
    SegmentText(alphabet, src, p.scan, Tokens(file.root), 0, |src|);
    SegmentIsStream(alphabet, src, p.scan, Tokens(file.root), 0, |src|);
    PlacedIn(alphabet, src, p.scan, Tokens(file.root), 0, |src|);
    assert src[0..|src|] == src;
  }

  lemma {:induction false} WrittenFile(ds: seq<Statement>, eof: Token, file: File)
    requires WellWritten(ds) && eof.kind == EOF && ReadsFile(AllTokens(ds) + [eof], file.root, file.errors == [])
    ensures file == File(Node(FileNode, Nodes(ds) + [TokenChild(eof)]), [])
  {
    assert Look(0);
    DirectivesReadBack(ds, eof);
  }

  lemma {:induction false} PlacedIn(u: Alphabet, src: seq<byte>, scan: Source, ts: seq<Token>, a: nat, b: nat)
    requires Faithful(scan, u, src) && Segment(scan, ts, a, b) && a <= |src|
    ensures InPlace(src, ts)
  {
    forall t | t in ts ensures t.pos + |t.raw| <= |src| && t.raw == src[t.pos..t.pos + |t.raw|] {
      SegmentPositions(u, src, scan, ts, a, b, t);
    }
  }

  /**
   Parses one amount and takes whatever trails it into the node, as an error. Its first
   child is always the expression; without errors the expression evaluates, unless a
   number or a division fails.
   */
  method ParseAmountExpression(alphabet: Alphabet, src: seq<byte>) returns (node: Node, errors: seq<Error>)
    ensures FullText(node) <= src
    ensures node.kind == AmountNode && |node.children| > 0 && IsNode(node.children[0], ArithExprNode)
    ensures errors == [] ==>
              && Sound(node) && HasCurrency(node)
              && forall reading :: ArithmeticFailure(Eval(node.children[0].node, reading))
  {
    var p := new Parser(alphabet, src);
    node := p.ParseAmount();
    ghost var amount := node;
    if p.tok.kind != EOF {
      p.Report(TrailingInput);
      node := Drain(p, node);
    }
    errors := p.errors;
    Prefix(p, node);
    if errors == [] {
      WholeIsSound(node);
      assert Sound(node.children[0].node);
      forall reading: Reading ensures ArithmeticFailure(Eval(node.children[0].node, reading)) {
        ErrorFreeEvaluates(node.children[0].node, reading);
      }
    }
  }

  /** Takes everything up to the end token into a node that already has an error. */
  method Drain(p: Parser, n: Node) returns (node: Node)
    requires p.Valid() && p.Spans(n, 0, p.at) && |p.errors| > 0 && n.children != []
    modifies p, p.scanner
    ensures p.Valid() && p.Spans(node, 0, p.at) && p.errors == old(p.errors)
    ensures node.kind == n.kind && |node.children| > 0 && node.children[0] == n.children[0]
  {
    node := n;
    while p.tok.kind != EOF
      invariant p.Valid() && p.Spans(node, 0, p.at) && p.errors == old(p.errors)
      invariant node.kind == n.kind && |node.children| > 0 && node.children[0] == n.children[0]
      decreases |p.scanner.src| - p.at
    {
      node := p.Shift(node, 0, 0, 0, 0);
    }
  }

  lemma {:induction false} Prefix(p: Parser, n: Node)
    requires p.Valid() && p.Spans(n, 0, p.at)
    ensures FullText(n) <= p.scanner.src
  {
    assert Look(0);
    SegmentText(p.scanner.alphabet, p.scanner.src, p.scan, Tokens(n), 0, p.at);
  }
}
