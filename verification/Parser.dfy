/**
 The recovering recursive-descent parser: a scanner, one token of lookahead and a
 list of errors, all changed step by step. Every production returns the node it
 built and is proved to have put into it exactly the tokens it took from the source,
 and to have built a node of the grammar's shape unless it reported an error.
 */
module Parsers {
  import opened Utf8
  import opened Syntax
  import opened Scanning
  import opened Scanners
  import opened Segments
  import opened Grammar
  import opened Expressions
  import opened FixedLines

  datatype File = File(root: Node, errors: seq<Error>)

  /** Metadata belongs to the last child, a posting that is already in place. */
  function AddToLast(n: Node, meta: Node): Node
    requires n.children != [] && n.children[|n.children| - 1].NodeChild?
  {
    var last := |n.children| - 1;
    n.(children := n.children[last := NodeChild(n.children[last].node.AddNode(meta))])
  }

  /** Whether a token of kind `k` on the same line belongs to a posting that so far ends as it does. */
  predicate GoesOn(posting: Node, k: TokenKind) {
    && posting.children != []
    && match posting.children[|posting.children| - 1]
       case TokenChild(_) => k in {NUMBER, MINUS, PLUS, LPAREN}
       case NodeChild(last) =>
         || (last.kind == AmountNode && k in {LBRACE, LBRACE2, AT, ATAT})
         || (last.kind == CostSpecNode && k in {AT, ATAT})
  }

  class Parser {
    const scanner: Scanner
    var tok: Token
    var errors: seq<Error>
    /** The tokens of the source, by offset. */
    ghost const scan: Source
    /** Where the token ahead starts, with its trivia. */
    ghost var at: nat
    /** The tokens not yet consumed. */
    ghost var ahead: seq<Token>

    constructor (alphabet: Alphabet, src: seq<byte>)
      ensures Valid() && at == 0 && errors == [] && fresh(scanner)
      ensures scanner.alphabet == alphabet && scanner.src == src && ahead == Stream(alphabet, src, 0)
      ensures scan == SourceOf(alphabet, src)
    {
      var s := new Scanner(alphabet, src);
      var t := s.Scan();
      scanner, tok, errors, scan, at, ahead := s, t, [], SourceOf(alphabet, src), 0, Stream(alphabet, src, 0);
      new;
      SourceIsFaithful(alphabet, src);
      StreamStreams(alphabet, src, scan, 0);
      StreamsEnd(scan, 0, ahead);
      assert Recall(0);
    }

    ghost predicate Valid()
      reads this, scanner
    {
      && at <= |scanner.src| && scanner.offset <= |scanner.src|
      && (tok, scanner.offset) == scan(at)
      && ahead != [] && ahead[0] == tok
      && InStep(scanner.alphabet, scanner.src, at, ahead)
    }

    /** `scan` yields the tokens of the source, and `ahead` are those from `a`. */
    ghost predicate InStep(u: Alphabet, src: seq<byte>, a: nat, ts: seq<Token>) {
      forall i: nat {:trigger Look(i)} :: Look(i) ==> Faithful(scan, u, src) && Streams(scan, a, ts) && Ended(ts)
    }

    /** The tokens of the node are those from `a` to `b`. */
    ghost predicate Spans(n: Node, a: nat, b: nat) {
      forall i: nat {:trigger Look(i)} :: Look(i) ==> Segment(scan, Tokens(n), a, b)
    }

    /** A node begun at `a`, when there were `e` errors, and now in state `s` unless there are more. */
    ghost predicate Grown(n: Node, a: nat, e: nat, s: nat)
      reads this
    {
      Spans(n, a, at) && e <= |errors| && (|errors| == e ==> InState(n, s))
    }

    /** A finished node. */
    ghost predicate Done(n: Node, a: nat, e: nat)
      reads this
    {
      Spans(n, a, at) && e <= |errors| && (|errors| == e ==> Whole(n))
    }

    /** `t` is the token consumed last, and it started at `a`. */
    ghost predicate Took(t: Token, a: nat)
      reads this
    {
      Segment(scan, [t], a, at)
    }

    lemma {:induction false} Finish(n: Node, a: nat, e: nat, s: nat)
      requires Grown(n, a, e, s) && (|errors| == e ==> s in Final(n.kind))
      ensures Done(n, a, e)
    {
      if |errors| == e {
        Complete(n, s);
      }
    }

    lemma {:induction false} EmptyNode(k: NodeKind)
      requires Valid()
      ensures Grown(Node(k, []), at, |errors|, 0)
    {
      NoChildYet(k);
    }

    lemma {:induction false} Joined(n: Node, c: Child, a: nat, b: nat)
      requires Spans(n, a, b) && Segment(scan, ChildTokens(c), b, at)
      ensures Spans(n.(children := n.children + [c]), a, at)
    {
      assert Look(0);
      TokensOfAppended(n.children, c);
      SegmentsJoin(scan, Tokens(n), a, b, ChildTokens(c), at);
    }

    /** The node begun with a token already consumed. */
    lemma {:induction false} Begun(k: NodeKind, t: Token, a: nat)
      requires Valid() && Took(t, a)
      ensures Grown(Node(k, []).AddToken(t), a, |errors|, Step(k, 0, TokenChild(t)))
    {
      var n := Node(k, []);
      NoChildYet(k);
      Joined(n, TokenChild(t), a, a);
      OneMoreChild(n, 0, TokenChild(t));
    }

    /** A child finished at `at` after the node reached `b` with `c` errors. */
    lemma {:induction false} Attached(n: Node, child: Node, a: nat, b: nat, e: nat, c: nat, s: nat, t: nat)
      requires Spans(n, a, b) && e <= c && (c == e ==> InState(n, s))
      requires Done(child, b, c) && (|errors| == e ==> Step(n.kind, s, NodeChild(child)) == t)
      ensures Grown(n.AddNode(child), a, e, t)
    {
      assert Look(0);
      Joined(n, NodeChild(child), a, b);
      if |errors| == e {
        OneMoreChild(n, s, NodeChild(child));
      }
    }

    // ---------------------------------------------------------------- tokens

    /** Consumes the token ahead and reads the next one. */
    method Advance() returns (t: Token)
      requires Valid()
      modifies this`tok, this`at, this`ahead, scanner
      ensures Valid() && t == old(tok) && old(at) <= at && (t.kind != EOF ==> old(at) < at)
      ensures t.kind == EOF ==> at == |scanner.src|
      ensures Took(t, old(at)) && ahead == Next(old(ahead))
    {
      t := tok;
      ghost var a := at;
      NextInStep(a, ahead);
      at, ahead := scanner.offset, Next(ahead);
      tok := scanner.Scan();
      assert Recall(at) && Look(0);
      assert [t][1..] == [];
    }

    /** The tokens after the first one, and where they are. */
    lemma {:induction false} NextInStep(a: nat, ts: seq<Token>)
      requires InStep(scanner.alphabet, scanner.src, a, ts) && a <= |scanner.src|
      ensures ts != [] && InStep(scanner.alphabet, scanner.src, scan(a).1, Next(ts))
      ensures ts[0] == scan(a).0 && Next(ts)[0] == scan(scan(a).1).0 && !IsMadeUp(ts[0])
      ensures a <= scan(a).1 <= |scanner.src| && if ts[0].kind == EOF then scan(a).1 == |scanner.src| else a < scan(a).1
    {
      assert Look(0) && Recall(a) && Recall(|scanner.src|);
      var end := |scanner.src|;
      assert ScanAt(scanner.alphabet, scanner.src, end) == (Token(EOF, end, [], [], []), end);
    }

    method Report(problem: Problem)
      modifies this`errors
      ensures errors == old(errors) + [Error(tok.pos, problem)]
    {
      errors := errors + [Error(tok.pos, problem)];
    }

    /** Consumes a token of `kind`, or reports its absence and makes one up. */
    method Expect(kind: TokenKind) returns (t: Token)
      requires Valid()
      modifies this, scanner
      ensures Valid() && old(at) <= at && Took(t, old(at)) && (old(tok).kind == kind != EOF ==> old(at) < at)
      ensures if old(tok).kind == kind then t == old(tok) && errors == old(errors) && ahead == Next(old(ahead))
              else && t == MadeUp(old(tok).pos) && ahead == old(ahead)
                   && errors == old(errors) + [Error(old(tok).pos, Expected(kind, old(tok).kind))]
    {
      if tok.kind == kind {
        t := Advance();
        return;
      }
      Report(Expected(kind, tok.kind));
      t := MadeUp(tok.pos);
      assert [t][1..] == [];
    }

    /** Consumes the token ahead into a node. */
    method Shift(n: Node, ghost a: nat, ghost e: nat, ghost s: nat, ghost t: nat) returns (m: Node)
      requires Valid() && Grown(n, a, e, s)
      requires |errors| == e ==> Step(n.kind, s, TokenChild(tok)) == t
      modifies this`tok, this`at, this`ahead, scanner
      ensures Valid() && old(at) <= at && if old(tok).kind == EOF then at == |scanner.src| else old(at) < at
      ensures m == n.AddToken(old(tok)) && Grown(m, a, e, t) && ahead == Next(old(ahead))
    {
      ghost var b := at;
      var taken := Advance();
      m := n.AddToken(taken);
      Joined(n, TokenChild(taken), a, b);
      if |errors| == e {
        OneMoreChild(n, s, TokenChild(taken));
      }
    }

    /** Consumes an expected token into a node. */
    method ShiftExpected(n: Node, kind: TokenKind, ghost a: nat, ghost e: nat, ghost s: nat, ghost t: nat) returns (m: Node)
      requires Valid() && Grown(n, a, e, s)
      requires |errors| == e && tok.kind == kind ==> Step(n.kind, s, TokenChild(tok)) == t
      modifies this, scanner
      ensures Valid() && old(at) <= at && |old(errors)| <= |errors|
      ensures old(tok).kind == kind != EOF ==> old(at) < at
      ensures if old(tok).kind == kind then m == n.AddToken(old(tok)) && errors == old(errors) && ahead == Next(old(ahead))
              else && m == n.AddToken(MadeUp(old(tok).pos)) && ahead == old(ahead)
                   && errors == old(errors) + [Error(old(tok).pos, Expected(kind, old(tok).kind))]
      ensures Grown(m, a, e, t)
    {
      ghost var b := at;
      var taken := Expect(kind);
      m := n.AddToken(taken);
      Joined(n, TokenChild(taken), a, b);
      if |errors| == e {
        OneMoreChild(n, s, TokenChild(taken));
      }
    }

    // ---------------------------------------------------------------- expressions

    /** NUMBER, a signed factor, or a parenthesised expression. */
    method ParseFactor() returns (node: Node, ghost more: seq<Error>)
      requires Valid()
      modifies this, scanner
      ensures Valid() && old(at) <= at && (old(tok).kind != EOF ==> old(at) < at)
      ensures node.kind == ArithExprNode && Done(node, old(at), |old(errors)|)
      ensures Reads(2, old(ahead), node, ahead, more) && errors == old(errors) + more
      decreases |scanner.src| - at, 1
    {
      if IsSign(tok.kind) {
        node, more := ParseSigned();
      } else if tok.kind == LPAREN {
        node, more := ParseGroup();
      } else {
        node, more := ParseNumber();
      }
    }

    /** A number; any other token is reported and consumed in its place. */
    method ParseNumber() returns (node: Node, ghost more: seq<Error>)
      requires Valid() && !IsSign(tok.kind) && tok.kind != LPAREN
      modifies this, scanner
      ensures Valid() && old(at) <= at && (old(tok).kind != EOF ==> old(at) < at)
      ensures node.kind == ArithExprNode && Done(node, old(at), |old(errors)|)
      ensures Reads(2, old(ahead), node, ahead, more) && errors == old(errors) + more
    {
      ghost var a, e := at, |errors|;
      node := Node(ArithExprNode, []);
      EmptyNode(ArithExprNode);
      AheadIsEnded();
      LeafRead(ahead, tok.pos);
      more := [];
      if tok.kind != NUMBER {
        Report(NotExpression(tok.kind));
        more := [Error(tok.pos, NotExpression(tok.kind))];
      }
      Assembled(tok, node, tok, node);
      assert old(errors) + [] == old(errors);
      node := Shift(node, a, e, 0, 1);
      Finish(node, a, e, 1);
    }

    method ParseSigned() returns (node: Node, ghost more: seq<Error>)
      requires Valid() && IsSign(tok.kind)
      modifies this, scanner
      ensures Valid() && old(at) < at
      ensures node.kind == ArithExprNode && Done(node, old(at), |old(errors)|)
      ensures Reads(2, old(ahead), node, ahead, more) && errors == old(errors) + more
      decreases |scanner.src| - at, 0
    {
      ghost var a, e := at, |errors|;
      node := Node(ArithExprNode, []);
      EmptyNode(ArithExprNode);
      AheadIsEnded();
      node := Shift(node, a, e, 0, 2);
      ghost var b, c := at, |errors|;
      var operand;
      operand, more := ParseFactor();
      Assembled(old(tok), operand, tok, operand);
      SignedRead(old(ahead), operand, ahead, more);
      ExprFollows(ArithExprNode, 2, 1);
      assert IsNode(NodeChild(operand), ArithExprNode);
      Attached(node, operand, a, b, e, c, 2, 1);
      node := node.AddNode(operand);
      Finish(node, a, e, 1);
    }

    method OpenGroup() returns (node: Node)
      requires Valid() && tok.kind == LPAREN
      modifies this`tok, this`at, this`ahead, scanner
      ensures Valid() && old(at) < at && ahead == Next(old(ahead))
      ensures node == Node(ArithExprNode, []).AddToken(old(tok)) && Grown(node, old(at), |errors|, 3)
    {
      EmptyNode(ArithExprNode);
      ParenthesesFollow();
      assert Is(TokenChild(tok), LPAREN);
      node := Shift(Node(ArithExprNode, []), at, |errors|, 0, 3);
    }

    method ParseGroup() returns (node: Node, ghost more: seq<Error>)
      requires Valid() && tok.kind == LPAREN
      modifies this, scanner
      ensures Valid() && old(at) < at
      ensures node.kind == ArithExprNode && Done(node, old(at), |old(errors)|)
      ensures Reads(2, old(ahead), node, ahead, more) && errors == old(errors) + more
      decreases |scanner.src| - at, 0
    {
      ghost var a, e := at, |errors|;
      AheadIsEnded();
      node := OpenGroup();
      ghost var b, c := at, |errors|;
      var inner;
      inner, more := ParseExpr();
      ghost var rest, found := ahead, more;
      node, more := CloseGroup(node, inner, a, b, e, c, old(errors), found);
      GroupIsRead(old(ahead), inner, rest, found, node, ahead, more);
    }

    /** The inner expression, and the closing parenthesis or an error. */
    method CloseGroup(n: Node, inner: Node, ghost a: nat, ghost b: nat, ghost e: nat, ghost c: nat,
                      ghost before: seq<Error>, ghost found: seq<Error>)
      returns (node: Node, ghost more: seq<Error>)
      requires Valid() && n.kind == ArithExprNode && Spans(n, a, b) && e <= c && (c == e ==> InState(n, 3))
      requires inner.kind == ArithExprNode && Done(inner, b, c) && errors == before + found
      modifies this, scanner
      ensures Valid() && old(at) <= at && node.kind == ArithExprNode && Done(node, a, e)
      ensures node == n.AddNode(inner).AddToken(if old(tok).kind == RPAREN then old(tok) else MadeUp(old(tok).pos))
      ensures ahead == if old(tok).kind == RPAREN then Next(old(ahead)) else old(ahead)
      ensures more == found + (if old(tok).kind == RPAREN then [] else [Error(old(tok).pos, Expected(RPAREN, old(tok).kind))])
      ensures errors == before + more
    {
      ghost var lacking := if tok.kind == RPAREN then [] else [Error(tok.pos, Expected(RPAREN, tok.kind))];
      more := found + lacking;
      ErrorsAddUp(before, found, lacking);
      assert errors + [] == errors;
      ExprFollows(ArithExprNode, 3, 4);
      assert IsNode(NodeChild(inner), ArithExprNode);
      Attached(n, inner, a, b, e, c, 3, 4);
      node := ShiftExpected(n.AddNode(inner), RPAREN, a, e, 4, 1);
      Finish(node, a, e, 1);
    }

    /** Factors joined by `*` and `/`, to the left. */
    method ParseTerm() returns (left: Node, ghost more: seq<Error>)
      requires Valid()
      modifies this, scanner
      ensures Valid() && old(at) <= at && (old(tok).kind != EOF ==> old(at) < at)
      ensures left.kind == ArithExprNode && Done(left, old(at), |old(errors)|)
      ensures Reads(1, old(ahead), left, ahead, more) && errors == old(errors) + more
      decreases |scanner.src| - at, 2
    {
      left, more := ParseFactor();
      LeftOperandRead(1, old(ahead), left, ahead, more);
      while tok.kind == STAR || tok.kind == SLASH
        invariant Valid() && old(at) <= at && (old(tok).kind != EOF ==> old(at) < at)
        invariant left.kind == ArithExprNode && Done(left, old(at), |old(errors)|) && errors == old(errors) + more
        invariant Continues(1, old(ahead), left, ahead, more)
        decreases |scanner.src| - at
      {
        left, more := ParseOperation(1, left, old(ahead), old(at), |old(errors)|, old(errors), more);
      }
      NothingMoreRead(1, old(ahead), left, ahead, more);
    }

    /** Terms joined by `+` and `-`, to the left. */
    method ParseExpr() returns (left: Node, ghost more: seq<Error>)
      requires Valid()
      modifies this, scanner
      ensures Valid() && old(at) <= at && (old(tok).kind != EOF ==> old(at) < at)
      ensures left.kind == ArithExprNode && Done(left, old(at), |old(errors)|)
      ensures Reads(0, old(ahead), left, ahead, more) && errors == old(errors) + more
      decreases |scanner.src| - at, 3
    {
      left, more := ParseTerm();
      LeftOperandRead(0, old(ahead), left, ahead, more);
      while tok.kind == PLUS || tok.kind == MINUS
        invariant Valid() && old(at) <= at && (old(tok).kind != EOF ==> old(at) < at)
        invariant left.kind == ArithExprNode && Done(left, old(at), |old(errors)|) && errors == old(errors) + more
        invariant Continues(0, old(ahead), left, ahead, more)
        decreases |scanner.src| - at
      {
        left, more := ParseOperation(0, left, old(ahead), old(at), |old(errors)|, old(errors), more);
      }
      NothingMoreRead(0, old(ahead), left, ahead, more);
    }

    /** The rest of an operation whose left operand is `left`: the operator and the right operand. */
    method ParseOperation(level: nat, left: Node, ghost start: seq<Token>, ghost a: nat, ghost e: nat,
                          ghost before: seq<Error>, ghost found: seq<Error>)
      returns (node: Node, ghost more: seq<Error>)
      requires Valid() && left.kind == ArithExprNode && Done(left, a, e) && errors == before + found
      requires level < 2 && Joins(level, tok.kind) && Continues(level, start, left, ahead, found)
      modifies this, scanner
      ensures Valid() && old(at) < at && node.kind == ArithExprNode && Done(node, a, e) && errors == before + more
      ensures Continues(level, start, node, ahead, more)
      decreases |scanner.src| - at, 0
    {
      node := Node(ArithExprNode, []);
      LeftOperand(left, a, e);
      node := node.AddNode(left);
      node := Shift(node, a, e, 5, 2);
      ghost var c, d := at, |errors|;
      var right;
      ghost var added;
      if level == 0 {
        right, added := ParseTerm();
      } else {
        right, added := ParseFactor();
      }
      Assembled(old(tok), left, old(tok), right);
      RightOperandRead(level, start, left, old(ahead), found, old(tok), right, ahead, added);
      more := found + added;
      ErrorsAddUp(before, found, added);
      ExprFollows(ArithExprNode, 2, 1);
      assert IsNode(NodeChild(right), ArithExprNode);
      Attached(node, right, a, c, e, d, 2, 1);
      node := node.AddNode(right);
      Finish(node, a, e, 1);
    }

    lemma {:induction false} ErrorsAddUp(before: seq<Error>, found: seq<Error>, added: seq<Error>)
      ensures (before + found) + added == before + (found + added)
    {
    }

    lemma {:induction false} AheadIsEnded()
      requires Valid()
      ensures Ended(ahead)
    {
      assert Look(0);
    }

    /** A finished expression becomes the first child of a new one. */
    lemma {:induction false} LeftOperand(left: Node, a: nat, e: nat)
      requires Valid() && left.kind == ArithExprNode && Done(left, a, e)
      ensures Grown(Node(ArithExprNode, []).AddNode(left), a, e, 5)
    {
      EmptyNode(ArithExprNode);
      SpansNothing(a);
      ExprFollows(ArithExprNode, 0, 5);
      assert IsNode(NodeChild(left), ArithExprNode);
      Attached(Node(ArithExprNode, []), left, a, a, e, e, 0, 5);
    }

    lemma {:induction false} SpansNothing(a: nat)
      ensures Spans(Node(ArithExprNode, []), a, a)
    {
    }

    /** An expression becomes the next child. */
    method AddExpr(n: Node, ghost a: nat, ghost e: nat, ghost s: nat, ghost t: nat) returns (node: Node)
      requires Valid() && Grown(n, a, e, s) && NodeMayFollow(n.kind, s, t, ArithExprNode)
      modifies this, scanner
      ensures Valid() && old(at) <= at && (old(tok).kind != EOF ==> old(at) < at) && |old(errors)| <= |errors|
      ensures node.kind == n.kind && Grown(node, a, e, t) && Adds(n, node, ArithExprNode)
    {
      ghost var b, c := at, |errors|;
      var expr, _ := ParseExpr();
      assert IsNode(NodeChild(expr), ArithExprNode);
      Attached(n, expr, a, b, e, c, s, t);
      node := n.AddNode(expr);
    }

    /** An amount becomes the next child. */
    method AddAmount(n: Node, ghost a: nat, ghost e: nat, ghost s: nat, ghost t: nat) returns (node: Node)
      requires Valid() && Grown(n, a, e, s) && NodeMayFollow(n.kind, s, t, AmountNode)
      modifies this, scanner
      ensures Valid() && old(at) <= at && (old(tok).kind != EOF ==> old(at) < at) && |old(errors)| <= |errors|
      ensures node.kind == n.kind && Grown(node, a, e, t) && Adds(n, node, AmountNode)
    {
      ghost var b, c := at, |errors|;
      var amount := ParseAmount();
      assert |errors| == c ==> IsNode(NodeChild(amount), AmountNode);
      Attached(n, amount, a, b, e, c, s, t);
      node := n.AddNode(amount);
    }

    /** The node has one more child, a node of kind `k`. */
    static predicate Adds(n: Node, m: Node, k: NodeKind) {
      |m.children| == |n.children| + 1 && m.children[..|n.children|] == n.children && LastIs(m, k)
    }

    /** An expression and its currency. */
    method ParseAmount() returns (node: Node)
      requires Valid()
      modifies this, scanner
      ensures Valid() && old(at) <= at && (old(tok).kind != EOF ==> old(at) < at)
      ensures node.kind == AmountNode && Done(node, old(at), |old(errors)|)
      ensures |errors| == |old(errors)| ==> HasCurrency(node)
      ensures |node.children| > 0 && IsNode(node.children[0], ArithExprNode)
    {
      ghost var a, e := at, |errors|;
      node := Node(AmountNode, []);
      EmptyNode(AmountNode);
      ExprFollows(AmountNode, 0, 1);
      node := AddExpr(node, a, e, 0, 1);
      ghost var expr := node.children[0];
      node := ShiftExpected(node, CURRENCY, a, e, 1, 2);
      assert node.children[0] == expr;
      assert |errors| == e ==> Is(node.children[1], CURRENCY);
      Finish(node, a, e, 2);
    }

    /** An expression that may go without a currency. */
    method ParseAmountOptionalCurrency() returns (node: Node)
      requires Valid()
      modifies this, scanner
      ensures Valid() && old(at) <= at && (old(tok).kind != EOF ==> old(at) < at)
      ensures node.kind == AmountNode && Done(node, old(at), |old(errors)|)
    {
      ghost var a, e := at, |errors|;
      node := Node(AmountNode, []);
      EmptyNode(AmountNode);
      ExprFollows(AmountNode, 0, 1);
      node := AddExpr(node, a, e, 0, 1);
      if tok.kind == CURRENCY {
        node := Shift(node, a, e, 1, 2);
        Finish(node, a, e, 2);
      } else {
        Finish(node, a, e, 1);
      }
    }

    /** The body of a balance directive; stray tokens after the currency are reported and kept. */
    method ParseBalanceAmount() returns (node: Node)
      requires Valid()
      modifies this, scanner
      ensures Valid() && old(at) <= at && (old(tok).kind != EOF ==> old(at) < at)
      ensures node.kind == BalanceAmountNode && Done(node, old(at), |old(errors)|)
    {
      ghost var a, e := at, |errors|;
      node := Node(BalanceAmountNode, []);
      EmptyNode(BalanceAmountNode);
      ExprFollows(BalanceAmountNode, 0, 1);
      node := AddExpr(node, a, e, 0, 1);
      ghost var s := 1;
      if tok.kind == TILDE && !tok.OnNextLine() {
        node := Shift(node, a, e, 1, 2);
        ExprFollows(BalanceAmountNode, 2, 3);
        node := AddExpr(node, a, e, 2, 3);
        s := 3;
      }
      node := ParseBalanceCurrency(node, a, e, s);
    }

    /** The currency, and whatever strays after it on the line. */
    method ParseBalanceCurrency(n: Node, ghost a: nat, ghost e: nat, ghost s: nat) returns (node: Node)
      requires Valid() && n.kind == BalanceAmountNode && Grown(n, a, e, s) && (|errors| == e ==> s in {1, 3})
      modifies this, scanner
      ensures Valid() && old(at) <= at && node.kind == BalanceAmountNode && Done(node, a, e)
    {
      node := ShiftExpected(n, CURRENCY, a, e, s, 4);
      if !tok.OnNextLine() && tok.kind != EOF {
        Report(StrayAfterBalance(tok.kind));
        node := ShiftLine(node, a, e);
      }
      Finish(node, a, e, 4);
    }

    /** Consumes the rest of the line into a node that already has an error. */
    method ShiftLine(n: Node, ghost a: nat, ghost e: nat) returns (node: Node)
      requires Valid() && Spans(n, a, at) && e < |errors|
      modifies this`tok, this`at, this`ahead, scanner
      ensures Valid() && old(at) <= at && node.kind == n.kind && Spans(node, a, at)
    {
      node := n;
      while !tok.OnNextLine() && tok.kind != EOF
        invariant Valid() && old(at) <= at && node.kind == n.kind && Spans(node, a, at)
        decreases |scanner.src| - at
      {
        node := Shift(node, a, e, 0, 0);
      }
    }

    // ---------------------------------------------------------------- costs and prices

    /** A cost in braces. */
    method ParseCostSpec() returns (node: Node)
      requires Valid() && (tok.kind == LBRACE || tok.kind == LBRACE2)
      modifies this, scanner
      ensures Valid() && old(at) < at
      ensures node.kind == CostSpecNode && Done(node, old(at), |old(errors)|)
    {
      ghost var a, e := at, |errors|;
      node := Node(CostSpecNode, []);
      EmptyNode(CostSpecNode);
      var isTotalBraces := tok.kind == LBRACE2;
      node := Shift(node, a, e, 0, if isTotalBraces then 11 else 1);
      node := ParseBraced(node, isTotalBraces, a, e);
    }

    /** What the opening brace of a cost begins, and the brace that closes it. */
    method ParseBraced(n: Node, isTotalBraces: bool, ghost a: nat, ghost e: nat) returns (node: Node)
      requires Valid() && n.kind == CostSpecNode && Grown(n, a, e, if isTotalBraces then 11 else 1)
      modifies this, scanner
      ensures Valid() && old(at) <= at && node.kind == CostSpecNode && Done(node, a, e)
    {
      ghost var s;
      node, s := ParseCostContents(n, isTotalBraces, a, e);
      node := ShiftExpected(node, if isTotalBraces then RBRACE2 else RBRACE, a, e, s, 9);
      Finish(node, a, e, 9);
    }

    /** The elements between the braces; only the first may be a currency or have a `#` total. */
    method ParseCostContents(n: Node, isTotalBraces: bool, ghost a: nat, ghost e: nat) returns (node: Node, ghost s: nat)
      requires Valid() && n.kind == CostSpecNode && Grown(n, a, e, if isTotalBraces then 11 else 1)
      modifies this, scanner
      ensures Valid() && old(at) <= at && |old(errors)| <= |errors|
      ensures node.kind == CostSpecNode && Grown(node, a, e, s)
      ensures |errors| == e ==> s in (if isTotalBraces then {11, 12} else {1, 2})
    {
      node := n;
      s := if isTotalBraces then 11 else 1;
      if tok.kind == RBRACE || tok.kind == RBRACE2 { return; }
      node := ParseFirstCostElement(node, isTotalBraces, a, e);
      s := if isTotalBraces then 12 else 2;
      while tok.kind == COMMA
        invariant Valid() && old(at) <= at && |old(errors)| <= |errors| && node.kind == CostSpecNode && Grown(node, a, e, s)
        decreases |scanner.src| - at
      {
        CommaFollows();
        assert Is(TokenChild(tok), COMMA);
        node := Shift(node, a, e, s, if isTotalBraces then 15 else 5);
        node := ParseCostElement(node, isTotalBraces, a, e);
      }
    }

    method ParseFirstCostElement(n: Node, isTotalBraces: bool, ghost a: nat, ghost e: nat) returns (node: Node)
      requires Valid() && n.kind == CostSpecNode && Grown(n, a, e, if isTotalBraces then 11 else 1)
      modifies this, scanner
      ensures Valid() && old(at) <= at && |old(errors)| <= |errors|
      ensures node.kind == CostSpecNode && Grown(node, a, e, if isTotalBraces then 12 else 2)
    {
      ghost var s, t := if isTotalBraces then 11 else 1, if isTotalBraces then 12 else 2;
      if tok.kind in {NUMBER, MINUS, PLUS, LPAREN} {
        node := ParseLeadingAmount(n, isTotalBraces, a, e);
      } else if tok.kind in {CURRENCY, DATE, STRING} {
        node := Shift(n, a, e, s, t);
      } else {
        Report(NotCostElement(tok.kind));
        node := Shift(n, a, e, s, t);
      }
    }

    /** A leading amount, with the `#` total that may follow it. */
    method ParseLeadingAmount(n: Node, isTotalBraces: bool, ghost a: nat, ghost e: nat) returns (node: Node)
      requires Valid() && n.kind == CostSpecNode && Grown(n, a, e, if isTotalBraces then 11 else 1) && tok.kind != EOF
      modifies this, scanner
      ensures Valid() && old(at) < at && |old(errors)| <= |errors|
      ensures node.kind == CostSpecNode && Grown(node, a, e, if isTotalBraces then 12 else 2)
    {
      ghost var b, c := at, |errors|;
      ghost var s := if isTotalBraces then 11 else 1;
      var amt := ParseAmountOptionalCurrency();
      ghost var t := Step(CostSpecNode, s, NodeChild(amt));
      Attached(n, amt, a, b, e, c, s, t);
      node := ParseAfterAmount(n.AddNode(amt), isTotalBraces, HasCurrency(amt), a, e, t);
    }

    /** After the first amount: a `#` total if a `#` follows, else the amount needs its currency. */
    method ParseAfterAmount(n: Node, isTotalBraces: bool, carriesCurrency: bool, ghost a: nat, ghost e: nat, ghost s: nat) returns (node: Node)
      requires Valid() && n.kind == CostSpecNode && Grown(n, a, e, s)
      requires if carriesCurrency then s == if isTotalBraces then 12 else 2 else !isTotalBraces ==> s == 3
      modifies this, scanner
      ensures Valid() && old(at) <= at && |old(errors)| <= |errors|
      ensures node.kind == CostSpecNode && Grown(node, a, e, if isTotalBraces then 12 else 2)
    {
      node := n;
      if tok.kind == HASH {
        node := ParseHash(node, isTotalBraces, carriesCurrency, a, e, s);
      } else if !carriesCurrency {
        Report(NoCurrencyAfterAmount(tok.kind));
      }
    }

    /** The `#` after a per-unit amount without currency, and the total after it. */
    method ParseHash(n: Node, isTotalBraces: bool, carriesCurrency: bool, ghost a: nat, ghost e: nat, ghost s: nat) returns (node: Node)
      requires Valid() && n.kind == CostSpecNode && Grown(n, a, e, s) && tok.kind == HASH
      requires !isTotalBraces && !carriesCurrency ==> s == 3
      modifies this, scanner
      ensures Valid() && old(at) < at && |old(errors)| <= |errors|
      ensures node.kind == CostSpecNode && Grown(node, a, e, if isTotalBraces then 12 else 2)
    {
      if carriesCurrency {
        Report(CurrencyBeforeHash);
      }
      if isTotalBraces {
        Report(HashInTotal);
      }
      node := Shift(n, a, e, s, 4);
      node := ParseTotalAfterHash(node, a, e);
    }

    method ParseTotalAfterHash(n: Node, ghost a: nat, ghost e: nat) returns (node: Node)
      requires Valid() && n.kind == CostSpecNode && Grown(n, a, e, 4)
      modifies this, scanner
      ensures Valid() && old(at) <= at && |old(errors)| <= |errors|
      ensures node.kind == CostSpecNode && Grown(node, a, e, 2)
    {
      node := n;
      if tok.kind !in {NUMBER, MINUS, PLUS, LPAREN} {
        Report(NoTotalAfterHash(tok.kind));
        if tok.kind != RBRACE && tok.kind != RBRACE2 && tok.kind != EOF {
          node := Shift(node, a, e, 4, 2);
        }
      } else {
        AmountFollows(CostSpecNode, 4, 2);
        node := AddAmount(node, a, e, 4, 2);
      }
    }

    /** One more element of a cost: an amount, a date or a label. */
    method ParseCostElement(n: Node, ghost isTotalBraces: bool, ghost a: nat, ghost e: nat) returns (node: Node)
      requires Valid() && n.kind == CostSpecNode && Grown(n, a, e, if isTotalBraces then 15 else 5)
      modifies this, scanner
      ensures Valid() && old(at) <= at && |old(errors)| <= |errors|
      ensures node.kind == CostSpecNode && Grown(node, a, e, if isTotalBraces then 12 else 2)
    {
      ghost var s, t := if isTotalBraces then 15 else 5, if isTotalBraces then 12 else 2;
      node := n;
      if tok.kind in {NUMBER, MINUS, PLUS, LPAREN} {
        AmountFollows(CostSpecNode, s, t);
        node := AddAmount(node, a, e, s, t);
      } else if tok.kind in {DATE, STRING} {
        node := Shift(node, a, e, s, t);
      } else {
        Report(NotCostElement(tok.kind));
        node := Shift(node, a, e, s, t);
      }
    }

    method ParsePriceAnnotation() returns (node: Node)
      requires Valid() && (tok.kind == AT || tok.kind == ATAT)
      modifies this, scanner
      ensures Valid() && old(at) < at
      ensures node.kind == PriceAnnotNode && Done(node, old(at), |old(errors)|)
    {
      ghost var a, e := at, |errors|;
      node := Node(PriceAnnotNode, []);
      EmptyNode(PriceAnnotNode);
      node := Shift(node, a, e, 0, 1);
      AmountFollows(PriceAnnotNode, 1, 4);
      node := AddAmount(node, a, e, 1, 4);
      Finish(node, a, e, 4);
    }

    // ---------------------------------------------------------------- metadata

    /** A key, a colon and at most one value on the same line. */
    method TryParseMetadataLine() returns (node: Node)
      requires Valid() && tok.kind == IDENT
      modifies this, scanner
      ensures Valid() && old(at) < at
      ensures node.kind == MetadataLineNode && Done(node, old(at), |old(errors)|)
      ensures ReadsMeta(old(ahead), node.children, ahead, |errors| == |old(errors)|)
    {
      ghost var a, e := at, |errors|;
      AheadIsEnded();
      node := Node(MetadataLineNode, []);
      EmptyNode(MetadataLineNode);
      var key := tok.raw;
      node := Shift(node, a, e, 0, 1);
      if tok.kind != COLON {
        Report(MissingColon(key));
        MetaLineRead(old(ahead), node.children, ahead, false);
        return;
      }
      node := Shift(node, a, e, 1, 2);
      ghost var value := tok;
      if !tok.OnNextLine() && tok.kind != EOF {
        if tok.kind in METADATA_VALUES {
          node := Shift(node, a, e, 2, 3);
          MetaLineRead(old(ahead), node.children, ahead, true);
          Finish(node, a, e, 3);
          return;
        }
        Report(NotMetadataValue(tok.kind));
      }
      MetaLineRead(old(ahead), node.children, ahead, !ValueAhead(value));
      Finish(node, a, e, 2);
    }

    /** The indented metadata lines that follow a directive. */
    method ParseMetadata(parent: Node, ghost a: nat, ghost e: nat, ghost s: nat) returns (node: Node)
      requires Valid() && Grown(parent, a, e, s)
      requires |errors| == e ==> s in HeadEnds(parent.kind)
      modifies this, scanner
      ensures Valid() && old(at) <= at && node.kind == parent.kind && Done(node, a, e)
      ensures !KeyAhead(tok) && |old(errors)| <= |errors|
      ensures ReadsMetas(old(ahead), parent.children, node.children, ahead, |errors| == |old(errors)|)
    {
      node := parent;
      ghost var t := s;
      if |errors| == e {
        MetaFollows(parent.kind, s);
      }
      AheadIsEnded();
      NoMetaYet(ahead, node.children);
      while tok.OnNextLine() && tok.Indented()
        invariant Valid() && old(at) <= at && node.kind == parent.kind && |old(errors)| <= |errors|
        invariant Grown(node, a, e, t) && t in {s, 4}
        invariant MetasSoFar(old(ahead), parent.children, node.children, ahead, |errors| == |old(errors)|)
        decreases |scanner.src| - at
      {
        if tok.kind != IDENT { break; }
        ghost var b, c, before, here := at, |errors|, node.children, ahead;
        var meta := TryParseMetadataLine();
        assert IsMeta(NodeChild(meta));
        Attached(node, meta, a, b, e, c, t, 4);
        node := node.AddNode(meta);
        t := 4;
        AheadIsEnded();
        OneMoreMeta(old(ahead), parent.children, before, here, c == |old(errors)|, meta, ahead, |errors| == c);
      }
      NoMoreMeta(old(ahead), parent.children, node.children, ahead, |errors| == |old(errors)|);
      Finish(node, a, e, t);
    }

    /** Tags and links on the rest of the line. */
    method ParseTrailingTagsLinks(n: Node, ghost a: nat, ghost e: nat, ghost s: nat, ghost t: nat) returns (node: Node, ghost r: nat)
      requires Valid() && Grown(n, a, e, s)
      requires TagsMayFollow(n.kind, s, t)
      modifies this`tok, this`at, this`ahead, scanner
      ensures Valid() && old(at) <= at && node.kind == n.kind && Grown(node, a, e, r) && r in {s, t}
      ensures tok.OnNextLine() || tok.kind !in {TAG, LINK}
    {
      node, r := n, s;
      while !tok.OnNextLine() && tok.kind != EOF
        invariant Valid() && old(at) <= at && node.kind == n.kind && Grown(node, a, e, r) && r in {s, t}
        decreases |scanner.src| - at
      {
        if tok.kind != TAG && tok.kind != LINK { break; }
        assert IsAny(TokenChild(tok), {TAG, LINK});
        node := Shift(node, a, e, r, t);
        r := t;
      }
    }

    // ---------------------------------------------------------------- directives without a date

    method ParseOption() returns (node: Node)
      requires Valid() && Opens(tok, OptionDirective)
      modifies this, scanner
      ensures Valid() && old(at) < at && node.kind == OptionDirective && Done(node, old(at), |old(errors)|)
      ensures ReadsRemainder(OptionDirective, [IDENT] + Operands(OptionDirective), old(ahead), [], node.children, ahead, |errors| == |old(errors)|)
    {
      ghost var a, e := at, |errors|;
      node := Node(OptionDirective, []);
      EmptyNode(OptionDirective);
      UndatedStarts(OptionDirective, tok);
      AheadIsEnded();
      node := Shift(node, a, e, 0, 2);
      node := ParseOperands(node, STRING, STRING, a, e);
      ExpectedFirst(OptionDirective, IDENT, [STRING, STRING], old(ahead), [], Next(old(ahead)), [TokenChild(old(tok))],
                    node.children, ahead, |errors| == e, |errors| == e);
    }

    /** Two operands, then metadata lines. */
    method ParseOperands(n: Node, first: TokenKind, second: TokenKind, ghost a: nat, ghost e: nat) returns (node: Node)
      requires Valid() && Grown(n, a, e, 2)
      requires TakesMetadata(n.kind) && Operands(n.kind) == [first, second]
      modifies this, scanner
      ensures Valid() && old(at) <= at && node.kind == n.kind && Done(node, a, e) && |old(errors)| <= |errors|
      ensures ReadsRemainder(n.kind, [first, second], old(ahead), n.children, node.children, ahead, |errors| == |old(errors)|)
    {
      OperandsAreTaken(n.kind);
      AheadIsEnded();
      node := ShiftExpected(n, first, a, e, 2, 3);
      ghost var n1, t1, c1 := node.children, ahead, |errors|;
      node := ParseLastOperand(node, second, a, e, 3);
      assert [first] + [second] == [first, second];
      ExpectedFirst(n.kind, first, [second], old(ahead), n.children, t1, n1, node.children, ahead, |errors| == c1, |errors| == |old(errors)|);
    }

    /** The last operand, then metadata lines. */
    method ParseLastOperand(n: Node, operand: TokenKind, ghost a: nat, ghost e: nat, ghost s: nat) returns (node: Node)
      requires Valid() && Grown(n, a, e, s) && operand != EOF && 4 in HeadEnds(n.kind) && TakesMetadata(n.kind)
      requires forall c :: Is(c, operand) ==> Step(n.kind, s, c) == 4
      modifies this, scanner
      ensures Valid() && old(at) <= at && node.kind == n.kind && Done(node, a, e) && |old(errors)| <= |errors|
      ensures ReadsRemainder(n.kind, [operand], old(ahead), n.children, node.children, ahead, |errors| == |old(errors)|)
    {
      AheadIsEnded();
      assert tok.kind == operand ==> Is(TokenChild(tok), operand);
      node := ShiftExpected(n, operand, a, e, s, 4);
      ghost var n1, t1, c1 := node.children, ahead, |errors|;
      node := ParseMetadata(node, a, e, 4);
      MetasRemain(n.kind, t1, n1, node.children, ahead, |errors| == c1);
      ExpectedFirst(n.kind, operand, [], old(ahead), n.children, t1, n1, node.children, ahead, |errors| == c1, |errors| == |old(errors)|);
      assert [operand] + [] == [operand];
    }

    /** One operand, then metadata lines. */
    method ParseOperand(n: Node, operand: TokenKind, ghost a: nat, ghost e: nat) returns (node: Node)
      requires Valid() && Grown(n, a, e, 2)
      requires TakesMetadata(n.kind) && Operands(n.kind) == [operand]
      modifies this, scanner
      ensures Valid() && old(at) <= at && node.kind == n.kind && Done(node, a, e) && |old(errors)| <= |errors|
      ensures ReadsRemainder(n.kind, [operand], old(ahead), n.children, node.children, ahead, |errors| == |old(errors)|)
    {
      OperandsAreTaken(n.kind);
      node := ParseLastOperand(n, operand, a, e, 2);
    }

    method ParsePlugin() returns (node: Node)
      requires Valid() && Opens(tok, PluginDirective)
      modifies this, scanner
      ensures Valid() && old(at) < at && node.kind == PluginDirective && Done(node, old(at), |old(errors)|)
    {
      ghost var a, e := at, |errors|;
      node := Node(PluginDirective, []);
      EmptyNode(PluginDirective);
      UndatedStarts(PluginDirective, tok);
      node := Shift(node, a, e, 0, 2);
      node := ShiftExpected(node, STRING, a, e, 2, 3);
      ghost var s := 3;
      if tok.kind == STRING && !tok.OnNextLine() {
        node := Shift(node, a, e, 3, 4);
        s := 4;
      }
      node := ParseMetadata(node, a, e, s);
    }

    method ParseInclude() returns (node: Node)
      requires Valid() && Opens(tok, IncludeDirective)
      modifies this, scanner
      ensures Valid() && old(at) < at && node.kind == IncludeDirective && Done(node, old(at), |old(errors)|)
      ensures ReadsRemainder(IncludeDirective, [IDENT] + Operands(IncludeDirective), old(ahead), [], node.children, ahead, |errors| == |old(errors)|)
    {
      ghost var a, e := at, |errors|;
      node := Node(IncludeDirective, []);
      EmptyNode(IncludeDirective);
      UndatedStarts(IncludeDirective, tok);
      AheadIsEnded();
      node := Shift(node, a, e, 0, 2);
      node := ParseOperand(node, STRING, a, e);
      ExpectedFirst(IncludeDirective, IDENT, [STRING], old(ahead), [], Next(old(ahead)), [TokenChild(old(tok))],
                    node.children, ahead, |errors| == e, |errors| == e);
    }

    /** `pushtag` and `poptag`. */
    method ParseTagStack(kind: NodeKind) returns (node: Node)
      requires Valid() && (kind.PushtagDirective? || kind.PoptagDirective?) && Opens(tok, kind)
      modifies this, scanner
      ensures Valid() && old(at) < at && node.kind == kind && Done(node, old(at), |old(errors)|)
      ensures ReadsRemainder(kind, [IDENT] + Operands(kind), old(ahead), [], node.children, ahead, |errors| == |old(errors)|)
    {
      ghost var a, e := at, |errors|;
      node := Node(kind, []);
      EmptyNode(kind);
      UndatedStarts(kind, tok);
      AheadIsEnded();
      node := Shift(node, a, e, 0, 2);
      node := ParseTag(node, a, e);
      ExpectedFirst(kind, IDENT, [TAG], old(ahead), [], Next(old(ahead)), [TokenChild(old(tok))],
                    node.children, ahead, |errors| == e, |errors| == e);
    }

    method ParseTag(n: Node, ghost a: nat, ghost e: nat) returns (node: Node)
      requires Valid() && Grown(n, a, e, 2) && (n.kind.PushtagDirective? || n.kind.PoptagDirective?)
      modifies this, scanner
      ensures Valid() && old(at) <= at && node.kind == n.kind && Done(node, a, e) && |old(errors)| <= |errors|
      ensures ReadsRemainder(n.kind, [TAG], old(ahead), n.children, node.children, ahead, |errors| == |old(errors)|)
    {
      AheadIsEnded();
      node := ShiftExpected(n, TAG, a, e, 2, 4);
      Finish(node, a, e, 4);
      AheadIsEnded();
      NothingRemains(n.kind, ahead, node.children);
      ExpectedFirst(n.kind, TAG, [], old(ahead), n.children, ahead, node.children, node.children, ahead, true, |errors| == |old(errors)|);
      assert [TAG] + [] == [TAG];
    }

    /** Everything up to the next line start, and at least one token. */
    method ParseUnrecognizedLine() returns (node: Node)
      requires Valid() && tok.kind != EOF
      modifies this, scanner
      ensures Valid() && old(at) < at && node.kind == UnrecognizedLineNode && Done(node, old(at), |old(errors)|)
      ensures errors == old(errors) && (tok.kind == EOF || IsAtLineStart())
    {
      ghost var a, e := at, |errors|;
      node := Node(UnrecognizedLineNode, []);
      EmptyNode(UnrecognizedLineNode);
      ghost var s := 0;
      while tok.kind != EOF
        invariant Valid() && a <= at && node.kind == UnrecognizedLineNode && Grown(node, a, e, s) && errors == old(errors)
        invariant if node.children == [] then s == 0 && tok == old(tok) else s == 1 && a < at
        decreases |scanner.src| - at
      {
        if IsAtLineStart() && |node.children| > 0 { break; }
        node := Shift(node, a, e, s, 1);
        s := 1;
      }
      Finish(node, a, e, 1);
    }

    predicate IsAtLineStart()
      reads this
    {
      (tok.pos == 0 && |tok.leading| == 0) || tok.OnNextLine()
    }

    // ---------------------------------------------------------------- dated directives

    /** A dated line that starts no directive. */
    method ParseDatedUnrecognized(date: Token, ghost a: nat) returns (node: Node)
      requires Valid() && Took(date, a)
      modifies this, scanner
      ensures Valid() && old(at) <= at && node.kind == UnrecognizedLineNode && Done(node, a, |old(errors)|)
      ensures errors == old(errors) && (tok.kind == EOF || tok.OnNextLine())
    {
      ghost var e := |errors|;
      Begun(UnrecognizedLineNode, date, a);
      node := Node(UnrecognizedLineNode, []).AddToken(date);
      while tok.kind != EOF && !tok.OnNextLine()
        invariant Valid() && old(at) <= at && node.kind == UnrecognizedLineNode && Grown(node, a, e, 1) && errors == old(errors)
        decreases |scanner.src| - at
      {
        node := Shift(node, a, e, 1, 1);
      }
      Finish(node, a, e, 1);
    }

    /** The date and the keyword of a directive. */
    method BeginDated(kind: NodeKind, date: Token, ghost a: nat) returns (node: Node)
      requires Valid() && Took(date, a) && date.kind == DATE && Opens(tok, kind) && DatedByWord(kind)
      modifies this`tok, this`at, this`ahead, scanner
      ensures Valid() && old(at) < at && node.kind == kind && Grown(node, a, |old(errors)|, 2)
      ensures node.children == [TokenChild(date), TokenChild(old(tok))] && ahead == Next(old(ahead)) && old(tok).kind == IDENT
    {
      DatedStarts(kind, TokenChild(date), tok);
      Begun(kind, date, a);
      node := Node(kind, []).AddToken(date);
      node := Shift(node, a, |errors|, 1, 2);
    }

    method ParseOpen(date: Token, ghost a: nat) returns (node: Node)
      requires Valid() && Took(date, a) && date.kind == DATE && Opens(tok, OpenDirective)
      modifies this, scanner
      ensures Valid() && old(at) < at && node.kind == OpenDirective && Done(node, a, |old(errors)|)
    {
      ghost var e := |errors|;
      node := BeginDated(OpenDirective, date, a);
      node := ShiftExpected(node, ACCOUNT, a, e, 2, 3);
      ghost var s := 3;
      if tok.kind == CURRENCY && !tok.OnNextLine() {
        node := ParseCurrencies(node, a, e);
        s := 5;
      }
      node := ParseBookingMethod(node, a, e, s);
    }

    method ParseBookingMethod(n: Node, ghost a: nat, ghost e: nat, ghost s: nat) returns (node: Node)
      requires Valid() && n.kind == OpenDirective && Grown(n, a, e, s) && s in {3, 5}
      modifies this, scanner
      ensures Valid() && old(at) <= at && node.kind == OpenDirective && Done(node, a, e)
    {
      node := n;
      ghost var t := s;
      if tok.kind == STRING && !tok.OnNextLine() {
        node := Shift(node, a, e, s, 7);
        t := 7;
      }
      node := ParseMetadata(node, a, e, t);
    }

    /** The currencies an account is constrained to. */
    method ParseCurrencies(n: Node, ghost a: nat, ghost e: nat) returns (node: Node)
      requires Valid() && n.kind == OpenDirective && Grown(n, a, e, 3) && tok.kind == CURRENCY
      modifies this, scanner
      ensures Valid() && old(at) < at && |old(errors)| <= |errors| && node.kind == OpenDirective && Grown(node, a, e, 5)
    {
      node := Shift(n, a, e, 3, 5);
      while tok.kind == COMMA && !tok.OnNextLine()
        invariant Valid() && old(at) < at && |old(errors)| <= |errors| && node.kind == OpenDirective && Grown(node, a, e, 5)
        decreases |scanner.src| - at
      {
        node := Shift(node, a, e, 5, 6);
        node := ShiftExpected(node, CURRENCY, a, e, 6, 5);
      }
    }

    /** `close`, with an account, and `commodity`, with a currency. */
    method ParseOneOperand(kind: NodeKind, operand: TokenKind, date: Token, ghost a: nat) returns (node: Node)
      requires Valid() && Took(date, a) && date.kind == DATE && Opens(tok, kind)
      requires DatedByWord(kind) && TakesMetadata(kind) && Operands(kind) == [operand]
      modifies this, scanner
      ensures Valid() && old(at) < at && node.kind == kind && Done(node, a, |old(errors)|)
      ensures ReadsRemainder(kind, Operands(kind), Next(old(ahead)), [TokenChild(date), TokenChild(old(tok))], node.children, ahead,
                             |errors| == |old(errors)|)
    {
      ghost var e := |errors|;
      node := BeginDated(kind, date, a);
      node := ParseOperand(node, operand, a, e);
    }

    /** `pad`, with two accounts, and `event` and `query`, with two strings. */
    method ParseTwoOperands(kind: NodeKind, operand: TokenKind, date: Token, ghost a: nat) returns (node: Node)
      requires Valid() && Took(date, a) && date.kind == DATE && Opens(tok, kind)
      requires DatedByWord(kind) && TakesMetadata(kind) && Operands(kind) == [operand, operand]
      modifies this, scanner
      ensures Valid() && old(at) < at && node.kind == kind && Done(node, a, |old(errors)|)
      ensures ReadsRemainder(kind, Operands(kind), Next(old(ahead)), [TokenChild(date), TokenChild(old(tok))], node.children, ahead,
                             |errors| == |old(errors)|)
    {
      ghost var e := |errors|;
      node := BeginDated(kind, date, a);
      node := ParseOperands(node, operand, operand, a, e);
    }

    method ParseBalance(date: Token, ghost a: nat) returns (node: Node)
      requires Valid() && Took(date, a) && date.kind == DATE && Opens(tok, BalanceDirective)
      modifies this, scanner
      ensures Valid() && old(at) < at && node.kind == BalanceDirective && Done(node, a, |old(errors)|)
    {
      ghost var e := |errors|;
      node := BeginDated(BalanceDirective, date, a);
      node := ShiftExpected(node, ACCOUNT, a, e, 2, 3);
      ghost var b, c := at, |errors|;
      var amount := ParseBalanceAmount();
      Attached(node, amount, a, b, e, c, 3, 4);
      node := node.AddNode(amount);
      node := ParseMetadata(node, a, e, 4);
    }

    method ParsePrice(date: Token, ghost a: nat) returns (node: Node)
      requires Valid() && Took(date, a) && date.kind == DATE && Opens(tok, PriceDirective)
      modifies this, scanner
      ensures Valid() && old(at) < at && node.kind == PriceDirective && Done(node, a, |old(errors)|)
    {
      ghost var e := |errors|;
      node := BeginDated(PriceDirective, date, a);
      node := ShiftExpected(node, CURRENCY, a, e, 2, 3);
      AmountFollows(PriceDirective, 3, 4);
      node := AddAmount(node, a, e, 3, 4);
      node := ParseMetadata(node, a, e, 4);
    }

    /** `note` and `document`. */
    method ParseDescribed(kind: NodeKind, date: Token, ghost a: nat) returns (node: Node)
      requires Valid() && Took(date, a) && date.kind == DATE && Opens(tok, kind)
      requires kind in {NoteDirective, DocumentDirective}
      modifies this, scanner
      ensures Valid() && old(at) < at && node.kind == kind && Done(node, a, |old(errors)|)
    {
      ghost var e := |errors|;
      node := BeginDated(kind, date, a);
      node := ShiftExpected(node, ACCOUNT, a, e, 2, 3);
      node := ShiftExpected(node, STRING, a, e, 3, 5);
      node := ParseDescribedTail(node, a, e);
    }

    method ParseDescribedTail(n: Node, ghost a: nat, ghost e: nat) returns (node: Node)
      requires Valid() && n.kind in {NoteDirective, DocumentDirective} && Grown(n, a, e, 5)
      modifies this, scanner
      ensures Valid() && old(at) <= at && node.kind == n.kind && Done(node, a, e)
    {
      ghost var s;
      TagsFollow(n.kind, 5, 5);
      node, s := ParseTrailingTagsLinks(n, a, e, 5, 5);
      node := ParseMetadata(node, a, e, s);
    }

    method ParseCustomValue(n: Node, ghost a: nat, ghost e: nat) returns (node: Node)
      requires Valid() && n.kind == CustomDirective && Grown(n, a, e, 3)
      requires tok.kind in {STRING, DATE, ACCOUNT, CURRENCY, IDENT, NUMBER, MINUS, PLUS, LPAREN}
      modifies this, scanner
      ensures Valid() && old(at) < at && |old(errors)| <= |errors| && node.kind == CustomDirective && Grown(node, a, e, 3)
    {
      if tok.kind in {STRING, DATE, ACCOUNT, CURRENCY, IDENT} {
        node := Shift(n, a, e, 3, 3);
      } else {
        AmountFollows(CustomDirective, 3, 3);
        node := AddAmount(n, a, e, 3, 3);
      }
    }

    method ParseCustom(date: Token, ghost a: nat) returns (node: Node)
      requires Valid() && Took(date, a) && date.kind == DATE && Opens(tok, CustomDirective)
      modifies this, scanner
      ensures Valid() && old(at) < at && node.kind == CustomDirective && Done(node, a, |old(errors)|)
    {
      ghost var e := |errors|;
      node := BeginDated(CustomDirective, date, a);
      node := ShiftExpected(node, STRING, a, e, 2, 3);
      while !tok.OnNextLine() && tok.kind != EOF
        invariant Valid() && old(at) < at && node.kind == CustomDirective && Grown(node, a, e, 3)
        decreases |scanner.src| - at
      {
        if tok.kind !in {STRING, DATE, ACCOUNT, CURRENCY, IDENT, NUMBER, MINUS, PLUS, LPAREN} { break; }
        node := ParseCustomValue(node, a, e);
      }
      node := ParseMetadata(node, a, e, 3);
    }

    // ---------------------------------------------------------------- transactions

    /** An account, with a flag before it and an amount, a cost and a price after it. */
    method ParsePosting() returns (node: Node)
      requires Valid() && tok.kind in {ACCOUNT, STAR, BANG}
      modifies this, scanner
      ensures Valid() && old(at) < at && node.kind == PostingNode && Done(node, old(at), |old(errors)|)
      ensures tok.OnNextLine() || !GoesOn(node, tok.kind)
    {
      ghost var a, e := at, |errors|;
      node := Node(PostingNode, []);
      EmptyNode(PostingNode);
      ghost var s := 0;
      if tok.kind == STAR || tok.kind == BANG {
        node := Shift(node, a, e, 0, 1);
        s := 1;
      }
      node := ParsePostingAccount(node, a, e, s);
    }

    method ParsePostingAccount(n: Node, ghost a: nat, ghost e: nat, ghost s: nat) returns (node: Node)
      requires Valid() && n.kind == PostingNode && Grown(n, a, e, s) && s in {0, 1}
      requires s == 1 || tok.kind == ACCOUNT
      modifies this, scanner
      ensures Valid() && old(at) <= at && (old(tok).kind == ACCOUNT ==> old(at) < at)
      ensures node.kind == PostingNode && Done(node, a, e) && (tok.OnNextLine() || !GoesOn(node, tok.kind))
    {
      node := ShiftExpected(n, ACCOUNT, a, e, s, 2);
      if !tok.OnNextLine() && tok.kind in {NUMBER, MINUS, PLUS, LPAREN} {
        ghost var t;
        node, t := ParsePostingAmount(node, a, e);
        Finish(node, a, e, t);
      } else {
        Finish(node, a, e, 2);
      }
    }

    method ParsePostingAmount(n: Node, ghost a: nat, ghost e: nat) returns (node: Node, ghost s: nat)
      requires Valid() && n.kind == PostingNode && Grown(n, a, e, 2) && tok.kind != EOF
      modifies this, scanner
      ensures Valid() && old(at) < at && |old(errors)| <= |errors|
      ensures node.kind == PostingNode && Grown(node, a, e, s) && s in {3, 5, 6}
      ensures tok.OnNextLine() || !GoesOn(node, tok.kind)
    {
      AmountFollows(PostingNode, 2, 3);
      node := AddAmount(n, a, e, 2, 3);
      s := 3;
      if !tok.OnNextLine() && (tok.kind == LBRACE || tok.kind == LBRACE2) {
        node := ParsePostingCost(node, a, e);
        s := 5;
      }
      node, s := ParsePostingPrice(node, a, e, s);
    }

    method ParsePostingCost(n: Node, ghost a: nat, ghost e: nat) returns (node: Node)
      requires Valid() && n.kind == PostingNode && Grown(n, a, e, 3) && (tok.kind == LBRACE || tok.kind == LBRACE2)
      modifies this, scanner
      ensures Valid() && old(at) < at && |old(errors)| <= |errors|
      ensures node.kind == PostingNode && Grown(node, a, e, 5) && LastIs(node, CostSpecNode)
    {
      var cost := ParseCostSpec();
      Attached(n, cost, a, old(at), e, |old(errors)|, 3, 5);
      node := n.AddNode(cost);
    }

    static predicate LastIs(n: Node, k: NodeKind) {
      n.children != [] && n.children[|n.children| - 1].NodeChild? && n.children[|n.children| - 1].node.kind == k
    }

    method ParsePostingPrice(n: Node, ghost a: nat, ghost e: nat, ghost s: nat) returns (node: Node, ghost t: nat)
      requires Valid() && n.kind == PostingNode && Grown(n, a, e, s)
      requires if s == 3 then LastIs(n, AmountNode) && (tok.OnNextLine() || tok.kind !in {LBRACE, LBRACE2})
               else s == 5 && LastIs(n, CostSpecNode)
      modifies this, scanner
      ensures Valid() && old(at) <= at && |old(errors)| <= |errors|
      ensures node.kind == PostingNode && Grown(node, a, e, t) && t in {3, 5, 6}
      ensures tok.OnNextLine() || !GoesOn(node, tok.kind)
    {
      node, t := n, s;
      if !tok.OnNextLine() && (tok.kind == AT || tok.kind == ATAT) {
        var price := ParsePriceAnnotation();
        Attached(node, price, a, old(at), e, |old(errors)|, s, 6);
        node, t := node.AddNode(price), 6;
      }
    }

    /** A date, a flag or `txn`, payee and narration, tags and links, then indented lines. */
    method ParseTransaction(date: Token, ghost a: nat) returns (node: Node)
      requires Valid() && Took(date, a) && date.kind == DATE
      requires tok.kind in {STAR, BANG} || Opens(tok, TransactionDirective)
      modifies this, scanner
      ensures Valid() && old(at) < at && node.kind == TransactionDirective && Done(node, a, |old(errors)|)
    {
      ghost var e := |errors|;
      TransactionStarts(TokenChild(date), tok);
      Begun(TransactionDirective, date, a);
      node := Node(TransactionDirective, []).AddToken(date);
      node := Shift(node, a, e, 1, 2);
      ghost var s;
      node, s := ParsePayeeAndNarration(node, a, e);
      TagsFollow(TransactionDirective, s, 6);
      node, s := ParseTrailingTagsLinks(node, a, e, s, 6);
      node := ParsePostingsAndMetadata(node, a, e, s);
    }

    /** At most two strings on the line of the flag. */
    method ParsePayeeAndNarration(n: Node, ghost a: nat, ghost e: nat) returns (node: Node, ghost s: nat)
      requires Valid() && n.kind == TransactionDirective && Grown(n, a, e, 2)
      modifies this`tok, this`at, this`ahead, scanner
      ensures Valid() && old(at) <= at && node.kind == n.kind && Grown(node, a, e, s) && s in {2, 3, 5}
    {
      node, s := n, 2;
      if tok.kind == STRING && !tok.OnNextLine() {
        node := Shift(node, a, e, 2, 3);
        s := 3;
        if tok.kind == STRING && !tok.OnNextLine() {
          node := Shift(node, a, e, 3, 5);
          s := 5;
        }
      }
    }

    /**
     The indented lines of a transaction. Metadata before the first posting belongs to
     the transaction, after that to the posting last added.
     */
    method ParsePostingsAndMetadata(n: Node, ghost a: nat, ghost e: nat, ghost start: nat) returns (txn: Node)
      requires Valid() && n.kind == TransactionDirective && Grown(n, a, e, start) && start in {2, 3, 5, 6}
      modifies this, scanner
      ensures Valid() && old(at) <= at && txn.kind == TransactionDirective && Done(txn, a, e)
      ensures !(tok.OnNextLine() && tok.Indented() && tok.kind in {ACCOUNT, STAR, BANG, IDENT})
    {
      txn := n;
      var hasPosting := false;
      ghost var s := start;
      while tok.OnNextLine() && tok.Indented() && tok.kind != EOF
        invariant Valid() && old(at) <= at && txn.kind == TransactionDirective && |old(errors)| <= |errors|
        invariant Grown(txn, a, e, s) && if hasPosting then s == 7 else s in {2, 3, 4, 5, 6}
        invariant hasPosting ==> EndsWithPosting(txn)
        decreases |scanner.src| - at
      {
        if tok.kind == ACCOUNT || tok.kind == STAR || tok.kind == BANG {
          txn := AddPosting(txn, a, e, s);
          hasPosting, s := true, 7;
        } else if tok.kind == IDENT {
          txn := AddMetadata(txn, hasPosting, a, e, s);
          s := if hasPosting then 7 else 4;
        } else {
          break;
        }
      }
      Finish(txn, a, e, s);
    }

    method AddPosting(txn: Node, ghost a: nat, ghost e: nat, ghost s: nat) returns (node: Node)
      requires Valid() && txn.kind == TransactionDirective && Grown(txn, a, e, s) && s in {2, 3, 4, 5, 6, 7}
      requires tok.kind in {ACCOUNT, STAR, BANG}
      modifies this, scanner
      ensures Valid() && old(at) < at && |old(errors)| <= |errors|
      ensures node.kind == TransactionDirective && EndsWithPosting(node) && Grown(node, a, e, 7)
    {
      var posting := ParsePosting();
      Attached(txn, posting, a, old(at), e, |old(errors)|, s, 7);
      node := txn.AddNode(posting);
    }

    /** A metadata line of the transaction, or of its last posting. */
    method AddMetadata(txn: Node, toPosting: bool, ghost a: nat, ghost e: nat, ghost s: nat) returns (node: Node)
      requires Valid() && txn.kind == TransactionDirective && Grown(txn, a, e, s) && tok.kind == IDENT
      requires if toPosting then s == 7 && EndsWithPosting(txn) else s in {2, 3, 4, 5, 6}
      modifies this, scanner
      ensures Valid() && old(at) < at && |old(errors)| <= |errors|
      ensures node.kind == TransactionDirective && Grown(node, a, e, if toPosting then 7 else 4)
      ensures toPosting ==> EndsWithPosting(node)
    {
      var meta := TryParseMetadataLine();
      if toPosting {
        AttachedToLast(txn, meta, a, old(at), e, |old(errors)|);
        node := AddToLast(txn, meta);
      } else {
        Attached(txn, meta, a, old(at), e, |old(errors)|, s, 4);
        node := txn.AddNode(meta);
      }
    }

    static predicate EndsWithPosting(n: Node) {
      n.children != [] && IsNode(n.children[|n.children| - 1], PostingNode)
    }

    /** A metadata line goes to the posting last added, which keeps its place. */
    lemma {:induction false} AttachedToLast(txn: Node, meta: Node, a: nat, b: nat, e: nat, c: nat)
      requires txn.kind == TransactionDirective && EndsWithPosting(txn) && Spans(txn, a, b) && e <= c
      requires c == e ==> InState(txn, 7)
      requires Done(meta, b, c) && IsMeta(NodeChild(meta))
      ensures EndsWithPosting(AddToLast(txn, meta)) && Grown(AddToLast(txn, meta), a, e, 7)
    {
      assert Look(0);
      TokensOfLast(txn, meta);
      SegmentsJoin(scan, Tokens(txn), a, b, Tokens(meta), at);
      if |errors| == e {
        WholeIsSound(meta);
        PostingTakesMeta(txn, meta);
      }
    }

    // ---------------------------------------------------------------- the file

    method ParseDatedDirective() returns (node: Node)
      requires Valid() && tok.kind == DATE
      modifies this, scanner
      ensures Valid() && old(at) < at && IsDirective(NodeChild(node)) && Done(node, old(at), |old(errors)|)
      ensures ReadsDirective(old(ahead), node, ahead, |errors| == |old(errors)|)
    {
      ghost var a := at;
      AheadIsEnded();
      var date := Advance();
      if tok.kind == STAR || tok.kind == BANG {
        node := ParseTransaction(date, a);
      } else if tok.kind != IDENT {
        node := ParseDatedUnrecognized(date, a);
      } else {
        node := ParseKeyword(date, a);
      }
      DatedRead(old(ahead), node, ahead, |errors| == |old(errors)|);
    }

    method ParseKeyword(date: Token, ghost a: nat) returns (node: Node)
      requires Valid() && Took(date, a) && date.kind == DATE && tok.kind == IDENT
      modifies this, scanner
      ensures Valid() && old(at) <= at && IsDirective(NodeChild(node)) && Done(node, a, |old(errors)|)
      ensures ReadsDated(old(tok), date, old(ahead), node, ahead, |errors| == |old(errors)|)
    {
      AheadIsEnded();
      match tok.raw {
        case "pad" =>
          OpensByWord(tok, PadDirective);
          node := ParseTwoOperands(PadDirective, ACCOUNT, date, a);
          OneKeyword(PadDirective, old(tok), date, old(ahead), node, ahead, |errors| == |old(errors)|);
        case "close" =>
          OpensByWord(tok, CloseDirective);
          node := ParseOneOperand(CloseDirective, ACCOUNT, date, a);
          OneKeyword(CloseDirective, old(tok), date, old(ahead), node, ahead, |errors| == |old(errors)|);
        case "commodity" =>
          OpensByWord(tok, CommodityDirective);
          node := ParseOneOperand(CommodityDirective, CURRENCY, date, a);
          OneKeyword(CommodityDirective, old(tok), date, old(ahead), node, ahead, |errors| == |old(errors)|);
        case "event" =>
          OpensByWord(tok, EventDirective);
          node := ParseTwoOperands(EventDirective, STRING, date, a);
          OneKeyword(EventDirective, old(tok), date, old(ahead), node, ahead, |errors| == |old(errors)|);
        case "query" =>
          OpensByWord(tok, QueryDirective);
          node := ParseTwoOperands(QueryDirective, STRING, date, a);
          OneKeyword(QueryDirective, old(tok), date, old(ahead), node, ahead, |errors| == |old(errors)|);
        case _ =>
          node := ParseOtherKeyword(date, a);
          NoKeyword(old(tok), date, old(ahead), node, ahead, |errors| == |old(errors)|);
      }
    }

    /** The keywords of directives whose shape varies. */
    method ParseOtherKeyword(date: Token, ghost a: nat) returns (node: Node)
      requires Valid() && Took(date, a) && date.kind == DATE && tok.kind == IDENT
      modifies this, scanner
      ensures Valid() && old(at) <= at && IsDirective(NodeChild(node)) && Done(node, a, |old(errors)|)
    {
      match tok.raw {
        case "txn" =>
          OpensByWord(tok, TransactionDirective);
          node := ParseTransaction(date, a);
        case "open" =>
          OpensByWord(tok, OpenDirective);
          node := ParseOpen(date, a);
        case "balance" =>
          OpensByWord(tok, BalanceDirective);
          node := ParseBalance(date, a);
        case "note" =>
          OpensByWord(tok, NoteDirective);
          node := ParseDescribed(NoteDirective, date, a);
        case "document" =>
          OpensByWord(tok, DocumentDirective);
          node := ParseDescribed(DocumentDirective, date, a);
        case "price" =>
          OpensByWord(tok, PriceDirective);
          node := ParsePrice(date, a);
        case "custom" =>
          OpensByWord(tok, CustomDirective);
          node := ParseCustom(date, a);
        case _ => node := ParseDatedUnrecognized(date, a);
      }
    }

    method ParseTopLevel() returns (node: Node)
      requires Valid() && tok.kind != EOF
      modifies this, scanner
      ensures Valid() && old(at) < at && IsDirective(NodeChild(node)) && Done(node, old(at), |old(errors)|)
      ensures ReadsDirective(old(ahead), node, ahead, |errors| == |old(errors)|)
    {
      AheadIsEnded();
      if tok.kind == DATE {
        node := ParseDatedDirective();
      } else if tok.kind == IDENT {
        node := ParseUndated();
      } else {
        node := ParseUnrecognizedLine();
        OtherwiseRead(old(ahead), node, ahead, |errors| == |old(errors)|);
      }
    }

    /** A directive without a date, by its keyword. */
    method ParseUndated() returns (node: Node)
      requires Valid() && tok.kind == IDENT
      modifies this, scanner
      ensures Valid() && old(at) < at && IsDirective(NodeChild(node)) && Done(node, old(at), |old(errors)|)
      ensures ReadsDirective(old(ahead), node, ahead, |errors| == |old(errors)|)
    {
      AheadIsEnded();
      match tok.raw {
        case "option" =>
          OpensByWord(tok, OptionDirective);
          node := ParseOption();
          UndatedRead(OptionDirective, old(ahead), node, ahead, |errors| == |old(errors)|);
        case "include" =>
          OpensByWord(tok, IncludeDirective);
          node := ParseInclude();
          UndatedRead(IncludeDirective, old(ahead), node, ahead, |errors| == |old(errors)|);
        case "pushtag" =>
          OpensByWord(tok, PushtagDirective);
          node := ParseTagStack(PushtagDirective);
          UndatedRead(PushtagDirective, old(ahead), node, ahead, |errors| == |old(errors)|);
        case "poptag" =>
          OpensByWord(tok, PoptagDirective);
          node := ParseTagStack(PoptagDirective);
          UndatedRead(PoptagDirective, old(ahead), node, ahead, |errors| == |old(errors)|);
        case _ =>
          node := ParsePluginOrLine();
          OtherwiseRead(old(ahead), node, ahead, |errors| == |old(errors)|);
      }
    }

    method ParsePluginOrLine() returns (node: Node)
      requires Valid() && tok.kind == IDENT
      modifies this, scanner
      ensures Valid() && old(at) < at && IsDirective(NodeChild(node)) && Done(node, old(at), |old(errors)|)
    {
      if tok.raw == "plugin" {
        OpensByWord(tok, PluginDirective);
        node := ParsePlugin();
      } else {
        node := ParseUnrecognizedLine();
      }
    }

    /** All directives, then the end token, whose trivia is the rest of the file. */
    method ParseFile() returns (file: File)
      requires Valid() && at == 0 && errors == []
      modifies this, scanner
      ensures Faithful(scan, scanner.alphabet, scanner.src)
      ensures file.root.kind == FileNode && Segment(scan, Tokens(file.root), 0, |scanner.src|)
      ensures exists t :: t in Tokens(file.root) && t.kind == EOF
      ensures file.errors == [] ==> Sound(file.root)
      ensures ReadsFile(old(ahead), file.root, file.errors == [])
    {
      var root := Node(FileNode, []);
      EmptyNode(FileNode);
      AheadIsEnded();
      NoDirectiveYet(ahead);
      while tok.kind != EOF
        invariant Valid() && root.kind == FileNode && Grown(root, 0, 0, 0)
        invariant FileSoFar(old(ahead), root.children, ahead, |errors| == 0)
        decreases |scanner.src| - at
      {
        ghost var b, c, before, here := at, |errors|, root.children, ahead;
        var node := ParseTopLevel();
        Attached(root, node, 0, b, 0, c, 0, 0);
        root := root.AddNode(node);
        AheadIsEnded();
        OneMoreDirective(old(ahead), before, here, c == 0, node, ahead, |errors| == c);
      }
      AtTheEnd(old(ahead), root.children, ahead, |errors| == 0);
      ghost var eof, before := tok, root.children;
      root := Shift(root, 0, 0, 0, 1);
      Finish(root, 0, 0, 1);
      file := File(root, errors);
      WholeIsSound(root);
      EndReached(before, eof);
    }

    lemma {:induction false} EndReached(before: seq<Child>, eof: Token)
      requires Valid() && eof.kind == EOF && Spans(Node(FileNode, before).AddToken(eof), 0, at)
      requires at == |scanner.src|
      ensures Faithful(scan, scanner.alphabet, scanner.src)
      ensures Segment(scan, Tokens(Node(FileNode, before).AddToken(eof)), 0, at)
      ensures eof in Tokens(Node(FileNode, before).AddToken(eof))
    {
      assert Look(0);
      TokensOfAppended(before, TokenChild(eof));
    }
  }

  lemma {:induction false} TokensOfLast(txn: Node, meta: Node)
    requires txn.children != [] && txn.children[|txn.children| - 1].NodeChild?
    ensures Tokens(AddToLast(txn, meta)) == Tokens(txn) + Tokens(meta)
  {
    var last := |txn.children| - 1;
    var front, posting := txn.children[..last], txn.children[last].node;
    assert txn.children == front + [NodeChild(posting)];
    assert AddToLast(txn, meta).children == front + [NodeChild(posting.AddNode(meta))];
    TokensOfAppended(front, NodeChild(posting));
    TokensOfAppended(front, NodeChild(posting.AddNode(meta)));
    TokensOfAppended(posting.children, NodeChild(meta));
  }

  /** A complete posting stays complete with one more metadata line. */
  lemma {:induction false} PostingWithMeta(posting: Node, meta: Node)
    requires posting.kind == PostingNode && Sound(posting) && Sound(meta) && IsMeta(NodeChild(meta))
    ensures Sound(posting.AddNode(meta))
  {
    var cs := posting.AddNode(meta).children;
    assert cs[..|cs| - 1] == posting.children;
    assert State(PostingNode, cs) == Step(PostingNode, State(PostingNode, posting.children), NodeChild(meta)) == 4;
  }

  lemma {:induction false} SameStepForLast(k: NodeKind, cs: seq<Child>, ds: seq<Child>)
    requires cs != [] && |ds| == |cs| && ds[..|cs| - 1] == cs[..|cs| - 1]
    requires IsNode(cs[|cs| - 1], PostingNode) && IsNode(ds[|cs| - 1], PostingNode)
    ensures k == TransactionDirective ==> State(k, ds) == State(k, cs)
  {
  }

  /** The transaction keeps its state when its last posting gains a metadata line. */
  lemma {:induction false} PostingTakesMeta(txn: Node, meta: Node)
    requires txn.kind == TransactionDirective && Parser.EndsWithPosting(txn) && InState(txn, 7)
    requires Whole(meta) && IsMeta(NodeChild(meta))
    ensures InState(AddToLast(txn, meta), 7)
  {
    assert Look(0);
    var last := |txn.children| - 1;
    PostingWithMeta(txn.children[last].node, meta);
    SameStepForLast(TransactionDirective, txn.children, AddToLast(txn, meta).children);
  }
}
