/**
 Arithmetic expressions over a list of tokens that ends in the end token: the
 recursive-descent parse as functions, the evaluator, and the theorem that reading
 a written expression gives back its tree and its value.
 */
module Expressions {
  import opened Prelude
  import opened Utf8
  import opened Syntax
  import opened Grammar
  import opened Segments

  datatype Problem =
    | Expected(want: TokenKind, got: TokenKind)
    | MissingColon(key: seq<byte>)
    | NotMetadataValue(got: TokenKind)
    | CurrencyBeforeHash
    | HashInTotal
    | NoTotalAfterHash(got: TokenKind)
    | NoCurrencyAfterAmount(got: TokenKind)
    | NotCostElement(got: TokenKind)
    | StrayAfterBalance(got: TokenKind)
    | NotExpression(got: TokenKind)
    | TrailingInput

  datatype Error = Error(pos: nat, problem: Problem)

  /** A token list that ends with its only end token. */
  ghost predicate Ended(ts: seq<Token>) {
    && |ts| > 0 && ts[|ts| - 1].kind == EOF
    && forall i :: 0 <= i < |ts| - 1 ==> ts[i].kind != EOF
  }

  lemma {:induction false} StreamsEnd(scan: Source, a: nat, ts: seq<Token>)
    requires Streams(scan, a, ts)
    ensures Ended(ts)
    decreases |ts|
  {
    if |ts| > 1 {
      StreamsEnd(scan, scan(a).1, ts[1..]);
      assert forall i :: 0 < i < |ts| ==> ts[i] == ts[1..][i - 1];
    }
  }

  /** What is ahead after one token; past the end there are only empty end tokens. */
  function Next(ts: seq<Token>): (r: seq<Token>)
    requires ts != []
    ensures Ended(ts) ==> Ended(r) && |r| <= |ts| && (ts[0].kind != EOF ==> |r| < |ts|)
  {
    if |ts| > 1 then ts[1..] else [Token(EOF, ts[0].pos, [], [], [])]
  }

  datatype Parsed = Parsed(node: Node, rest: seq<Token>, errors: seq<Error>)

  function Leaf(t: Token): Node {
    Node(ArithExprNode, [TokenChild(t)])
  }

  function Unary(op: Token, operand: Node): Node {
    Node(ArithExprNode, [TokenChild(op), NodeChild(operand)])
  }

  function Grouped(lp: Token, inner: Node, rp: Token): Node {
    Node(ArithExprNode, [TokenChild(lp), NodeChild(inner), TokenChild(rp)])
  }

  function Binary(left: Node, op: Token, right: Node): Node {
    Node(ArithExprNode, [NodeChild(left), TokenChild(op), NodeChild(right)])
  }

  /** How the four shapes come about, child by child. */
  lemma {:induction false} Assembled(x: Token, n: Node, y: Token, m: Node)
    ensures var empty := Node(ArithExprNode, []);
            && empty.AddToken(x) == Leaf(x)
            && empty.AddToken(x).AddNode(n) == Unary(x, n)
            && empty.AddToken(x).AddNode(n).AddToken(y) == Grouped(x, n, y)
            && empty.AddNode(n).AddToken(x).AddNode(m) == Binary(n, x, m)
  {
  }

  predicate IsSign(k: TokenKind) { k == PLUS || k == MINUS }

  predicate IsScale(k: TokenKind) { k == STAR || k == SLASH }

  // ------------------------------------------------------------------ the parse

  /** NUMBER, a signed factor, or a parenthesised expression. */
  ghost function Factor(ts: seq<Token>): (r: Parsed)
    requires Ended(ts)
    ensures Ended(r.rest) && |r.rest| <= |ts|
    decreases |ts|, 0
  {
    var t := ts[0];
    if t.kind == NUMBER then Parsed(Leaf(t), Next(ts), [])
    else if IsSign(t.kind) then
      var p := Factor(Next(ts));
      Parsed(Unary(t, p.node), p.rest, p.errors)
    else if t.kind == LPAREN then
      var p := Expr(Next(ts));
      var rp := p.rest[0];
      if rp.kind == RPAREN then Parsed(Grouped(t, p.node, rp), Next(p.rest), p.errors)
      else Parsed(Grouped(t, p.node, MadeUp(rp.pos)), p.rest, p.errors + [Error(rp.pos, Expected(RPAREN, rp.kind))])
    else Parsed(Leaf(t), Next(ts), [Error(t.pos, NotExpression(t.kind))])
  }

  /** Factors joined by `*` and `/`, to the left. */
  ghost function Term(ts: seq<Token>): (r: Parsed)
    requires Ended(ts)
    ensures Ended(r.rest) && |r.rest| <= |ts|
    decreases |ts|, 2
  {
    MoreFactors(Factor(ts))
  }

  ghost function MoreFactors(left: Parsed): (r: Parsed)
    requires Ended(left.rest)
    ensures Ended(r.rest) && |r.rest| <= |left.rest|
    decreases |left.rest|, 1
  {
    var op := left.rest[0];
    if IsScale(op.kind) then
      var right := Factor(Next(left.rest));
      MoreFactors(Parsed(Binary(left.node, op, right.node), right.rest, left.errors + right.errors))
    else left
  }

  /** Terms joined by `+` and `-`, to the left. */
  ghost function Expr(ts: seq<Token>): (r: Parsed)
    requires Ended(ts)
    ensures Ended(r.rest) && |r.rest| <= |ts|
    decreases |ts|, 4
  {
    MoreTerms(Term(ts))
  }

  ghost function MoreTerms(left: Parsed): (r: Parsed)
    requires Ended(left.rest)
    ensures Ended(r.rest) && |r.rest| <= |left.rest|
    decreases |left.rest|, 3
  {
    var op := left.rest[0];
    if IsSign(op.kind) then
      var right := Term(Next(left.rest));
      MoreTerms(Parsed(Binary(left.node, op, right.node), right.rest, left.errors + right.errors))
    else left
  }

  /** What reading at a level makes of `ts`: 0 an expression, 1 a term, 2 a factor. */
  ghost function ReadAt(level: nat, ts: seq<Token>): Parsed
    requires Ended(ts)
  {
    if level == 0 then Expr(ts) else if level == 1 then Term(ts) else Factor(ts)
  }

  /** Reading at a level yields `node`, leaves `rest` and reports `errors`. */
  ghost predicate Reads(level: nat, ts: seq<Token>, node: Node, rest: seq<Token>, errors: seq<Error>) {
    forall i: nat {:trigger Look(i)} :: Look(i) ==> Ended(ts) && ReadAt(level, ts) == Parsed(node, rest, errors)
  }

  /** Reading at a level comes down to reading on from the left operand `left`. */
  ghost predicate Continues(level: nat, ts: seq<Token>, left: Node, rest: seq<Token>, errors: seq<Error>) {
    forall i: nat {:trigger Look(i)} :: Look(i) ==>
      Ended(ts) && Ended(rest) && level < 2
      && ReadAt(level, ts) == if level == 0 then MoreTerms(Parsed(left, rest, errors)) else MoreFactors(Parsed(left, rest, errors))
  }

  predicate Joins(level: nat, k: TokenKind) {
    if level == 0 then IsSign(k) else IsScale(k)
  }

  lemma {:induction false} LeftOperandRead(level: nat, ts: seq<Token>, left: Node, rest: seq<Token>, errors: seq<Error>)
    requires level < 2 && Reads(level + 1, ts, left, rest, errors)
    ensures Continues(level, ts, left, rest, errors)
  {
    assert Look(0);
  }

  lemma {:induction false} RightOperandRead(level: nat, ts: seq<Token>, left: Node, rest: seq<Token>, errors: seq<Error>,
                                            op: Token, right: Node, after: seq<Token>, more: seq<Error>)
    requires Continues(level, ts, left, rest, errors) && rest != [] && op == rest[0] && Joins(level, op.kind)
    requires Reads(level + 1, Next(rest), right, after, more)
    ensures Continues(level, ts, Binary(left, op, right), after, errors + more)
  {
    assert Look(0);
  }

  lemma {:induction false} NothingMoreRead(level: nat, ts: seq<Token>, left: Node, rest: seq<Token>, errors: seq<Error>)
    requires Continues(level, ts, left, rest, errors) && rest != [] && !Joins(level, rest[0].kind)
    ensures Reads(level, ts, left, rest, errors)
  {
    assert Look(0);
  }

  lemma {:induction false} LeafRead(ts: seq<Token>, pos: nat)
    requires Ended(ts) && !IsSign(ts[0].kind) && ts[0].kind != LPAREN && pos == ts[0].pos
    ensures Reads(2, ts, Leaf(ts[0]), Next(ts),
                  if ts[0].kind == NUMBER then [] else [Error(pos, NotExpression(ts[0].kind))])
  {
    assert Look(0);
  }

  lemma {:induction false} SignedRead(ts: seq<Token>, operand: Node, rest: seq<Token>, errors: seq<Error>)
    requires Ended(ts) && IsSign(ts[0].kind) && Reads(2, Next(ts), operand, rest, errors)
    ensures Reads(2, ts, Unary(ts[0], operand), rest, errors)
  {
    assert Look(0);
  }

  lemma {:induction false} GroupRead(ts: seq<Token>, inner: Node, rest: seq<Token>, errors: seq<Error>)
    requires Ended(ts) && ts[0].kind == LPAREN && Reads(0, Next(ts), inner, rest, errors) && rest != []
    ensures var rp := rest[0];
            if rp.kind == RPAREN then Reads(2, ts, Grouped(ts[0], inner, rp), Next(rest), errors)
            else Reads(2, ts, Grouped(ts[0], inner, MadeUp(rp.pos)), rest, errors + [Error(rp.pos, Expected(RPAREN, rp.kind))])
  {
    assert Look(0);
  }

  /** The same, for the node and the errors as they were put together. */
  lemma {:induction false} GroupIsRead(ts: seq<Token>, inner: Node, rest: seq<Token>, errors: seq<Error>, node: Node, after: seq<Token>, more: seq<Error>)
    requires Ended(ts) && ts[0].kind == LPAREN && Reads(0, Next(ts), inner, rest, errors) && rest != []
    requires var rp, closed := rest[0], rest[0].kind == RPAREN;
             && node == Node(ArithExprNode, []).AddToken(ts[0]).AddNode(inner).AddToken(if closed then rp else MadeUp(rp.pos))
             && after == (if closed then Next(rest) else rest)
             && more == errors + (if closed then [] else [Error(rp.pos, Expected(RPAREN, rp.kind))])
    ensures Reads(2, ts, node, after, more)
  {
    var rp := rest[0];
    GroupRead(ts, inner, rest, errors);
    Assembled(ts[0], inner, if rp.kind == RPAREN then rp else MadeUp(rp.pos), inner);
    assert errors + [] == errors;
  }

  // ------------------------------------------------------------------ the evaluator

  datatype EvalError = InvalidNumber | DivisionByZero | UnexpectedOperator(op: TokenKind) | Malformed

  /** What the text of a number token stands for, if it is a number. */
  type Reading = seq<byte> -> Option<real>

  function NodesOf(cs: seq<Child>): seq<Node> {
    if cs == [] then [] else (if cs[0].NodeChild? then [cs[0].node] else []) + NodesOf(cs[1..])
  }

  lemma {:induction false} NodesAreChildren(cs: seq<Child>)
    ensures forall i :: 0 <= i < |NodesOf(cs)| ==> NodeChild(NodesOf(cs)[i]) in cs
  {
    if cs != [] {
      NodesAreChildren(cs[1..]);
      var first := if cs[0].NodeChild? then [cs[0].node] else [];
      forall i | 0 <= i < |NodesOf(cs)| ensures NodeChild(NodesOf(cs)[i]) in cs {
        if i >= |first| {
          assert NodesOf(cs)[i] == NodesOf(cs[1..])[i - |first|];
        }
      }
    }
  }

  function TokensIn(cs: seq<Child>): seq<Token> {
    if cs == [] then [] else (if cs[0].TokenChild? then [cs[0].token] else []) + TokensIn(cs[1..])
  }

  function Apply(op: TokenKind, left: real, right: real): Result<real, EvalError> {
    match op
    case PLUS => Ok(left + right)
    case MINUS => Ok(left - right)
    case STAR => Ok(left * right)
    case SLASH => if right == 0.0 then Err(DivisionByZero) else Ok(left / right)
    case _ => Err(UnexpectedOperator(op))
  }

  function Sign(op: TokenKind, x: real): real {
    if op == MINUS then -x else x
  }

  /** Evaluates an expression node by the number and kind of its children. */
  function Eval(n: Node, reading: Reading): Result<real, EvalError>
    decreases n
  {
    NodesAreChildren(n.children);
    var nodes, tokens := NodesOf(n.children), TokensIn(n.children);
    if |nodes| == 0 && |tokens| == 1 && tokens[0].kind == NUMBER then
      match reading(tokens[0].raw)
      case None => Err(InvalidNumber)
      case Some(x) => Ok(x)
    else if |nodes| == 1 && |tokens| == 2 && tokens[0].kind == LPAREN then
      assert NodeChild(nodes[0]) in n.children;
      Eval(nodes[0], reading)
    else if |nodes| == 1 && |tokens| == 1 && IsSign(tokens[0].kind) then
      assert NodeChild(nodes[0]) in n.children;
      match Eval(nodes[0], reading)
      case Err(e) => Err(e)
      case Ok(x) => Ok(Sign(tokens[0].kind, x))
    else if |nodes| == 2 && |tokens| == 1 then
      assert NodeChild(nodes[0]) in n.children && NodeChild(nodes[1]) in n.children;
      match Eval(nodes[0], reading)
      case Err(e) => Err(e)
      case Ok(left) =>
        match Eval(nodes[1], reading)
        case Err(e) => Err(e)
        case Ok(right) => Apply(tokens[0].kind, left, right)
    else Err(Malformed)
  }

  // ------------------------------------------------------------------ four shapes

  lemma {:induction false} UnfoldChildren(cs: seq<Child>)
    ensures |cs| == 1 ==> NodesOf(cs) == NodesOf([cs[0]]) && TokensIn(cs) == TokensIn([cs[0]])
    ensures |cs| == 2 ==> NodesOf(cs) == NodesOf([cs[0]]) + NodesOf([cs[1]]) && TokensIn(cs) == TokensIn([cs[0]]) + TokensIn([cs[1]])
    ensures |cs| == 3 ==> NodesOf(cs) == NodesOf([cs[0]]) + NodesOf([cs[1]]) + NodesOf([cs[2]])
                          && TokensIn(cs) == TokensIn([cs[0]]) + TokensIn([cs[1]]) + TokensIn([cs[2]])
  {
    if |cs| == 1 {
      assert cs == [cs[0]];
    } else if |cs| == 2 {
      assert cs == [cs[0], cs[1]] && cs[1..] == [cs[1]];
    } else if |cs| == 3 {
      assert cs == [cs[0], cs[1], cs[2]] && cs[1..] == [cs[1], cs[2]] && cs[1..][1..] == [cs[2]];
    }
  }

  function OfLiteral(x: Option<real>): Result<real, EvalError> {
    match x
    case None => Err(InvalidNumber)
    case Some(x) => Ok(x)
  }

  function OfSigned(op: TokenKind, x: Result<real, EvalError>): Result<real, EvalError> {
    match x
    case Err(e) => Err(e)
    case Ok(x) => Ok(Sign(op, x))
  }

  function OfOperation(op: TokenKind, x: Result<real, EvalError>, y: Result<real, EvalError>): Result<real, EvalError> {
    match (x, y)
    case (Err(e), _) => Err(e)
    case (Ok(_), Err(e)) => Err(e)
    case (Ok(x), Ok(y)) => Apply(op, x, y)
  }

  // The value of each of the four shapes.

  lemma {:induction false} EvalLeaf(t: Token, reading: Reading)
    requires t.kind == NUMBER
    ensures Eval(Leaf(t), reading) == OfLiteral(reading(t.raw))
  {
    UnfoldChildren(Leaf(t).children);
  }

  lemma {:induction false} EvalUnary(op: Token, e: Node, reading: Reading)
    requires IsSign(op.kind)
    ensures Eval(Unary(op, e), reading) == OfSigned(op.kind, Eval(e, reading))
  {
    UnfoldChildren(Unary(op, e).children);
  }

  lemma {:induction false} EvalGrouped(lp: Token, e: Node, rp: Token, reading: Reading)
    requires lp.kind == LPAREN
    ensures Eval(Grouped(lp, e, rp), reading) == Eval(e, reading)
  {
    UnfoldChildren(Grouped(lp, e, rp).children);
  }

  lemma {:induction false} EvalBinary(l: Node, op: Token, r: Node, reading: Reading)
    ensures Eval(Binary(l, op, r), reading) == OfOperation(op.kind, Eval(l, reading), Eval(r, reading))
  {
    UnfoldChildren(Binary(l, op, r).children);
  }
}
