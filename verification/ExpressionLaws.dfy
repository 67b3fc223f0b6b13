/** The grammar of expressions: every error-free tree evaluates, and every written expression is read back. */
module ExpressionLaws {
  import opened Prelude
  import opened Utf8
  import opened Syntax
  import opened Grammar
  import opened Expressions

  // ------------------------------------------------------------------ error-free trees

  lemma {:induction false} ArithDepth(cs: seq<Child>)
    ensures var s := State(ArithExprNode, cs);
            && (s == 0 ==> cs == [])
            && (s in {3, 5} ==> |cs| == 1)
            && (s == 4 ==> |cs| == 2)
            && (s == 2 ==> |cs| in {1, 2})
            && (s == 1 ==> |cs| in {1, 2, 3})
  {
    if cs != [] {
      ArithDepth(cs[..|cs| - 1]);
    }
  }

  /** One of the evaluator's four shapes, with an operator it knows. */
  ghost predicate FourShapes(n: Node) {
    || (exists t :: n == Leaf(t) && t.kind == NUMBER)
    || (exists op, e :: n == Unary(op, e) && IsSign(op.kind))
    || (exists lp, e, rp :: n == Grouped(lp, e, rp) && lp.kind == LPAREN && rp.kind == RPAREN)
    || (exists l, op, r :: n == Binary(l, op, r) && (IsSign(op.kind) || IsScale(op.kind)))
  }

  lemma {:induction false} SoundHasFourShapes(n: Node)
    requires Sound(n) && n.kind == ArithExprNode
    ensures FourShapes(n)
  {
    ArithDepth(n.children);
    StateOfThree(ArithExprNode, n.children);
    ShapeOfChildren(n.children);
  }

  lemma {:induction false} ShapeOfChildren(cs: seq<Child>)
    requires 1 <= |cs| <= 3
    requires var s1 := Arith(0, cs[0]);
             1 == if |cs| == 1 then s1 else if |cs| == 2 then Arith(s1, cs[1]) else Arith(Arith(s1, cs[1]), cs[2])
    ensures FourShapes(Node(ArithExprNode, cs))
  {
    var n := Node(ArithExprNode, cs);
    if |cs| == 1 {
      assert n == Leaf(cs[0].token);
    } else if |cs| == 2 {
      assert n == Unary(cs[0].token, cs[1].node);
    } else if cs[0].TokenChild? {
      assert n == Grouped(cs[0].token, cs[1].node, cs[2].token);
    } else {
      assert n == Binary(cs[0].node, cs[1].token, cs[2].node);
    }
  }

  predicate ArithmeticFailure(r: Result<real, EvalError>) {
    r.Err? ==> r.error in {InvalidNumber, DivisionByZero}
  }

  lemma {:induction false} ArithChildren(cs: seq<Child>)
    requires State(ArithExprNode, cs) != DEAD
    ensures forall i :: 0 <= i < |cs| && cs[i].NodeChild? ==> cs[i].node.kind == ArithExprNode
  {
    if cs != [] {
      ArithChildren(cs[..|cs| - 1]);
    }
  }

  /** An expression fails arithmetically only, if its operands do. */
  lemma {:induction false} OperationFails(op: TokenKind, x: Result<real, EvalError>, y: Result<real, EvalError>)
    requires ArithmeticFailure(x) && ArithmeticFailure(y)
    ensures ArithmeticFailure(OfSigned(op, x))
    ensures IsSign(op) || IsScale(op) ==> ArithmeticFailure(OfOperation(op, x, y))
  {
  }

  ghost predicate OperandsEvaluate(n: Node, reading: Reading) {
    forall i :: 0 <= i < |n.children| && n.children[i].NodeChild? ==> ArithmeticFailure(Eval(n.children[i].node, reading))
  }

  /** An expression fails arithmetically only, if its operands do. */
  lemma {:induction false} ShapeEvaluates(n: Node, reading: Reading)
    requires FourShapes(n) && OperandsEvaluate(n, reading)
    ensures ArithmeticFailure(Eval(n, reading))
  {
    if t :| n == Leaf(t) && t.kind == NUMBER {
      EvalLeaf(t, reading);
    } else if op, e :| n == Unary(op, e) && IsSign(op.kind) {
      UnaryEvaluates(op, e, reading);
    } else if lp, e, rp :| n == Grouped(lp, e, rp) && lp.kind == LPAREN && rp.kind == RPAREN {
      GroupedEvaluates(lp, e, rp, reading);
    } else if l, op, r :| n == Binary(l, op, r) && (IsSign(op.kind) || IsScale(op.kind)) {
      BinaryEvaluates(l, op, r, reading);
    }
  }

  lemma {:induction false} UnaryEvaluates(op: Token, e: Node, reading: Reading)
    requires IsSign(op.kind) && OperandsEvaluate(Unary(op, e), reading)
    ensures ArithmeticFailure(Eval(Unary(op, e), reading))
  {
    EvalUnary(op, e, reading);
    assert Unary(op, e).children[1] == NodeChild(e);
    OperationFails(op.kind, Eval(e, reading), Eval(e, reading));
  }

  lemma {:induction false} GroupedEvaluates(lp: Token, e: Node, rp: Token, reading: Reading)
    requires lp.kind == LPAREN && OperandsEvaluate(Grouped(lp, e, rp), reading)
    ensures ArithmeticFailure(Eval(Grouped(lp, e, rp), reading))
  {
    EvalGrouped(lp, e, rp, reading);
    assert Grouped(lp, e, rp).children[1] == NodeChild(e);
  }

  lemma {:induction false} BinaryEvaluates(l: Node, op: Token, r: Node, reading: Reading)
    requires (IsSign(op.kind) || IsScale(op.kind)) && OperandsEvaluate(Binary(l, op, r), reading)
    ensures ArithmeticFailure(Eval(Binary(l, op, r), reading))
  {
    EvalBinary(l, op, r, reading);
    assert Binary(l, op, r).children[0] == NodeChild(l) && Binary(l, op, r).children[2] == NodeChild(r);
    OperationFails(op.kind, Eval(l, reading), Eval(r, reading));
  }

  /**
   Evaluating an expression that parsed without errors can only fail on the text of
   a number or on a division by zero, never on its structure.
   */
  lemma {:induction false} ErrorFreeEvaluates(n: Node, reading: Reading)
    requires Sound(n) && n.kind == ArithExprNode
    ensures ArithmeticFailure(Eval(n, reading))
    decreases n
  {
    ArithChildren(n.children);
    forall i | 0 <= i < |n.children| && n.children[i].NodeChild?
      ensures ArithmeticFailure(Eval(n.children[i].node, reading))
    {
      ErrorFreeEvaluates(n.children[i].node, reading);
    }
    SoundHasFourShapes(n);
    ShapeEvaluates(n, reading);
  }

  // ------------------------------------------------------------------ written expressions

  /** An expression as written, down to its tokens. */
  datatype Written =
    | Number(t: Token)
    | Signed(op: Token, operand: Written)
    | Parenthesised(lp: Token, inner: Written, rp: Token)
    | Operation(left: Written, op: Token, right: Written)

  /** Whether `w` may stand where an expression (0), a term (1) or a factor (2) is read. */
  predicate Fits(w: Written, level: nat) {
    match w
    case Number(t) => t.kind == NUMBER
    case Signed(op, e) => IsSign(op.kind) && Fits(e, 2)
    case Parenthesised(lp, e, rp) => lp.kind == LPAREN && rp.kind == RPAREN && Fits(e, 0)
    case Operation(l, op, r) =>
      if IsSign(op.kind) then level == 0 && Fits(l, 0) && Fits(r, 1)
      else IsScale(op.kind) && level <= 1 && Fits(l, 1) && Fits(r, 2)
  }

  function Flat(w: Written): (r: seq<Token>)
    ensures r != []
  {
    match w
    case Number(t) => [t]
    case Signed(op, e) => [op] + Flat(e)
    case Parenthesised(lp, e, rp) => [lp] + Flat(e) + [rp]
    case Operation(l, op, r) => Flat(l) + [op] + Flat(r)
  }

  function Tree(w: Written): Node {
    match w
    case Number(t) => Leaf(t)
    case Signed(op, e) => Unary(op, Tree(e))
    case Parenthesised(lp, e, rp) => Grouped(lp, Tree(e), rp)
    case Operation(l, op, r) => Binary(Tree(l), op, Tree(r))
  }

  lemma {:induction false} Ahead(t: Token, ts: seq<Token>)
    requires t.kind != EOF && Ended(ts)
    ensures Ended([t] + ts) && Next([t] + ts) == ts && ([t] + ts)[0] == t
  {
    assert ([t] + ts)[1..] == ts;
  }

  lemma {:induction false} Regroup(a: seq<Token>, b: seq<Token>, c: seq<Token>, d: seq<Token>)
    ensures a + b + c + d == a + (b + (c + d))
    ensures a + b + d == a + (b + d)
  {
  }

  lemma {:induction false} SignedReads(op: Token, ts: seq<Token>)
    requires IsSign(op.kind) && Ended(ts)
    ensures Ended([op] + ts)
    ensures var p := Factor(ts); Factor([op] + ts) == Parsed(Unary(op, p.node), p.rest, p.errors)
  {
    Ahead(op, ts);
  }

  lemma {:induction false} GroupReads(lp: Token, ts: seq<Token>, inner: Node, rp: Token, rest: seq<Token>)
    requires lp.kind == LPAREN && rp.kind == RPAREN && Ended(ts) && Ended(rest)
    requires Expr(ts) == Parsed(inner, [rp] + rest, [])
    ensures Ended([lp] + ts) && Factor([lp] + ts) == Parsed(Grouped(lp, inner, rp), rest, [])
  {
    Ahead(lp, ts);
    Ahead(rp, rest);
  }

  lemma {:induction false} FactorFollows(left: Node, op: Token, ts: seq<Token>, right: Node, rest: seq<Token>)
    requires IsScale(op.kind) && Ended(ts) && Ended(rest) && Factor(ts) == Parsed(right, rest, [])
    ensures Ended([op] + ts)
    ensures MoreFactors(Parsed(left, [op] + ts, [])) == MoreFactors(Parsed(Binary(left, op, right), rest, []))
  {
    Ahead(op, ts);
    NoErrors();
  }

  lemma {:induction false} NoErrors()
    ensures var none: seq<Error> := []; none + none == none
  {
  }

  lemma {:induction false} TermFollows(left: Node, op: Token, ts: seq<Token>, right: Node, rest: seq<Token>)
    requires IsSign(op.kind) && Ended(ts) && Ended(rest) && Term(ts) == Parsed(right, rest, [])
    ensures Ended([op] + ts)
    ensures MoreTerms(Parsed(left, [op] + ts, [])) == MoreTerms(Parsed(Binary(left, op, right), rest, []))
  {
    Ahead(op, ts);
    NoErrors();
  }

  /** A factor is read back, whatever follows. */
  lemma {:induction false} FactorReads(w: Written, rest: seq<Token>)
    requires Fits(w, 2) && Ended(rest)
    ensures Ended(Flat(w) + rest) && Factor(Flat(w) + rest) == Parsed(Tree(w), rest, [])
    decreases w, 0
  {
    match w {
      case Number(t) =>
        Ahead(t, rest);
      case Signed(op, e) =>
        FactorReads(e, rest);
        SignedReads(op, Flat(e) + rest);
        Regroup([op], Flat(e), [], rest);
      case Parenthesised(lp, e, rp) =>
        Ahead(rp, rest);
        ExprReads(e, [rp] + rest);
        GroupReads(lp, Flat(e) + ([rp] + rest), Tree(e), rp, rest);
        Regroup([lp], Flat(e), [rp], rest);
      case Operation(_, _, _) =>
        assert false;
    }
  }

  /** A term is read as the left operand of whatever factors follow. */
  lemma {:induction false} TermReads(w: Written, rest: seq<Token>)
    requires Fits(w, 1) && Ended(rest)
    ensures Ended(Flat(w) + rest) && Term(Flat(w) + rest) == MoreFactors(Parsed(Tree(w), rest, []))
    decreases w, 1
  {
    if w.Operation? {
      var (l, op, r) := (w.left, w.op, w.right);
      FactorReads(r, rest);
      FactorFollows(Tree(l), op, Flat(r) + rest, Tree(r), rest);
      TermReads(l, [op] + (Flat(r) + rest));
      Regroup(Flat(l), [op], Flat(r), rest);
    } else {
      FactorReads(w, rest);
    }
  }

  /** An expression is read as the left operand of whatever terms follow. */
  lemma {:induction false} ExprStarts(w: Written, rest: seq<Token>)
    requires Fits(w, 0) && Ended(rest) && !IsScale(rest[0].kind)
    ensures Ended(Flat(w) + rest) && Expr(Flat(w) + rest) == MoreTerms(Parsed(Tree(w), rest, []))
    decreases w, 2
  {
    if w.Operation? && IsSign(w.op.kind) {
      var (l, op, r) := (w.left, w.op, w.right);
      SumFollows(w, rest);
      ExprStarts(l, [op] + (Flat(r) + rest));
      SumStarts(w, l, op, r, rest);
    } else {
      TermReads(w, rest);
    }
  }

  /** After the left operand of a sum, the right one is read into it. */
  lemma {:induction false} SumFollows(w: Written, rest: seq<Token>)
    requires w.Operation? && IsSign(w.op.kind) && Fits(w.right, 1) && Ended(rest) && !IsScale(rest[0].kind)
    ensures var more := [w.op] + (Flat(w.right) + rest);
            Ended(more) && MoreTerms(Parsed(Tree(w.left), more, [])) == MoreTerms(Parsed(Tree(w), rest, []))
    decreases w, 1
  {
    TermReads(w.right, rest);
    TermFollows(Tree(w.left), w.op, Flat(w.right) + rest, Tree(w.right), rest);
  }

  lemma {:induction false} SumStarts(w: Written, l: Written, op: Token, r: Written, rest: seq<Token>)
    requires w == Operation(l, op, r) && Ended(rest)
    requires Ended(Flat(l) + ([op] + (Flat(r) + rest)))
    requires Expr(Flat(l) + ([op] + (Flat(r) + rest))) == MoreTerms(Parsed(Tree(w), rest, []))
    ensures Ended(Flat(w) + rest) && Expr(Flat(w) + rest) == MoreTerms(Parsed(Tree(w), rest, []))
  {
    Regroup(Flat(l), [op], Flat(r), rest);
  }

  /** A written expression is read back as its tree, without errors and to its end. */
  lemma {:induction false} ExprReads(w: Written, rest: seq<Token>)
    requires Fits(w, 0) && Ended(rest) && !IsScale(rest[0].kind) && !IsSign(rest[0].kind)
    ensures Ended(Flat(w) + rest) && Expr(Flat(w) + rest) == Parsed(Tree(w), rest, [])
    decreases w, 3
  {
    ExprStarts(w, rest);
  }

  // ------------------------------------------------------------------ arithmetic trees

  /** An arithmetic expression, without a choice of tokens. */
  datatype Formula =
    | Literal(raw: seq<byte>)
    | Sign1(op: TokenKind, operand: Formula)
    | Op(left: Formula, op: TokenKind, right: Formula)

  predicate Proper(f: Formula) {
    match f
    case Literal(_) => true
    case Sign1(op, e) => IsSign(op) && Proper(e)
    case Op(l, op, r) => (IsSign(op) || IsScale(op)) && Proper(l) && Proper(r)
  }

  function Value(f: Formula, reading: Reading): Result<real, EvalError> {
    match f
    case Literal(raw) => OfLiteral(reading(raw))
    case Sign1(op, e) => OfSigned(op, Value(e, reading))
    case Op(l, op, r) => OfOperation(op, Value(l, reading), Value(r, reading))
  }

  function Symbol(kind: TokenKind, raw: seq<byte>): Token {
    Token(kind, 0, raw, [], [])
  }

  function Spelling(k: TokenKind): seq<byte> {
    match k
    case PLUS => "+"
    case MINUS => "-"
    case STAR => "*"
    case _ => "/"
  }

  /** Writes a formula where `level` is read, with the parentheses it needs and no others. */
  function Write(f: Formula, level: nat): Written {
    match f
    case Literal(raw) => Number(Symbol(NUMBER, raw))
    case Sign1(op, e) => Signed(Symbol(op, Spelling(op)), Write(e, 2))
    case Op(l, op, r) =>
      var own := if IsSign(op) then 0 else 1;
      var w := Operation(Write(l, own), Symbol(op, Spelling(op)), Write(r, own + 1));
      if level <= own then w else Parenthesised(Symbol(LPAREN, "("), w, Symbol(RPAREN, ")"))
  }

  lemma {:induction false} WriteFits(f: Formula, level: nat)
    requires Proper(f) && level <= 2
    ensures Fits(Write(f, level), level)
  {
    match f {
      case Literal(_) =>
      case Sign1(_, e) => WriteFits(e, 2);
      case Op(l, op, r) =>
        var own := if IsSign(op) then 0 else 1;
        WriteFits(l, own);
        WriteFits(r, own + 1);
        OperationFits(Write(l, own), op, Write(r, own + 1), level);
    }
  }

  lemma {:induction false} OperationFits(l: Written, op: TokenKind, r: Written, level: nat)
    requires IsSign(op) || IsScale(op)
    requires var own := if IsSign(op) then 0 else 1; Fits(l, own) && Fits(r, own + 1)
    ensures var w := Operation(l, Symbol(op, Spelling(op)), r);
            && (level <= (if IsSign(op) then 0 else 1) ==> Fits(w, level))
            && Fits(Parenthesised(Symbol(LPAREN, "("), w, Symbol(RPAREN, ")")), level)
  {
    var w := Operation(l, Symbol(op, Spelling(op)), r);
    assert Fits(w, 0);
  }

  lemma {:induction false} WriteKeepsValue(f: Formula, level: nat, reading: Reading)
    requires Proper(f)
    ensures Eval(Tree(Write(f, level)), reading) == Value(f, reading)
  {
    match f {
      case Literal(raw) =>
        EvalLeaf(Symbol(NUMBER, raw), reading);
      case Sign1(op, e) =>
        WriteKeepsValue(e, 2, reading);
        EvalUnary(Symbol(op, Spelling(op)), Tree(Write(e, 2)), reading);
      case Op(l, op, r) =>
        var own := if IsSign(op) then 0 else 1;
        WriteKeepsValue(l, own, reading);
        WriteKeepsValue(r, own + 1, reading);
        OperationKeepsValue(Write(l, own), op, Write(r, own + 1), reading);
    }
  }

  /** An operation has the value of its operator on its operands, with or without parentheses. */
  lemma {:induction false} OperationKeepsValue(l: Written, op: TokenKind, r: Written, reading: Reading)
    ensures var w := Operation(l, Symbol(op, Spelling(op)), r);
            var v := OfOperation(op, Eval(Tree(l), reading), Eval(Tree(r), reading));
            && Eval(Tree(w), reading) == v
            && Eval(Tree(Parenthesised(Symbol(LPAREN, "("), w, Symbol(RPAREN, ")"))), reading) == v
  {
    var bare := Binary(Tree(l), Symbol(op, Spelling(op)), Tree(r));
    EvalBinary(Tree(l), Symbol(op, Spelling(op)), Tree(r), reading);
    EvalGrouped(Symbol(LPAREN, "("), bare, Symbol(RPAREN, ")"), reading);
  }

  /**
   Writing any formula with the parentheses it needs and reading it back gives no
   error, leaves what follows, and yields a tree with the formula's value.
   */
  lemma {:induction false} WrittenFormulaReadsBack(f: Formula, rest: seq<Token>, reading: Reading)
    requires Proper(f) && Ended(rest) && !IsScale(rest[0].kind) && !IsSign(rest[0].kind)
    ensures var ts := Flat(Write(f, 0)) + rest;
            && Ended(ts)
            && Expr(ts).errors == [] && Expr(ts).rest == rest
            && Eval(Expr(ts).node, reading) == Value(f, reading)
  {
    WriteFits(f, 0);
    ExprReads(Write(f, 0), rest);
    WriteKeepsValue(f, 0, reading);
  }
}
