/**
 The shape every node has in a tree parsed without errors: for each kind of node,
 an automaton over its children. `DEAD` is left by no child.
 */
module Grammar {
  import opened Utf8
  import opened Syntax

  const DEAD := 99

  predicate Is(c: Child, kind: TokenKind) {
    c.TokenChild? && c.token.kind == kind
  }

  predicate IsAny(c: Child, kinds: set<TokenKind>) {
    c.TokenChild? && c.token.kind in kinds
  }

  predicate IsWord(c: Child, word: seq<byte>) {
    c.TokenChild? && c.token.kind == IDENT && c.token.raw == word
  }

  predicate HasCurrency(n: Node) {
    exists i :: 0 <= i < |n.children| && Is(n.children[i], CURRENCY)
  }

  /** A child node of that kind; an amount must carry its currency. */
  predicate IsNode(c: Child, kind: NodeKind) {
    c.NodeChild? && c.node.kind == kind && (kind == AmountNode ==> HasCurrency(c.node))
  }

  predicate IsBareAmount(c: Child) {
    c.NodeChild? && c.node.kind == AmountNode && !HasCurrency(c.node)
  }

  predicate IsMeta(c: Child) {
    IsNode(c, MetadataLineNode)
  }

  predicate IsDirective(c: Child) {
    c.NodeChild? && c.node.kind !in {FileNode, PostingNode, AmountNode, BalanceAmountNode, CostSpecNode, PriceAnnotNode,
                                     MetadataLineNode, ArithExprNode}
  }

  const METADATA_VALUES := {STRING, NUMBER, DATE, ACCOUNT, CURRENCY, TAG, LINK, IDENT}

  /** Keyword of a directive without a date, "" for the others. */
  function Keyword(k: NodeKind): seq<byte> {
    match k
    case OptionDirective => "option"
    case PluginDirective => "plugin"
    case IncludeDirective => "include"
    case PushtagDirective => "pushtag"
    case PoptagDirective => "poptag"
    case OpenDirective => "open"
    case CloseDirective => "close"
    case CommodityDirective => "commodity"
    case BalanceDirective => "balance"
    case PadDirective => "pad"
    case NoteDirective => "note"
    case DocumentDirective => "document"
    case PriceDirective => "price"
    case EventDirective => "event"
    case QueryDirective => "query"
    case CustomDirective => "custom"
    case TransactionDirective => "txn"
    case _ => ""
  }

  /** After a keyword: two operands, then metadata lines. */
  function TwoOperands(s: nat, c: Child, first: bool, second: bool): nat {
    if s == 2 && first then 3 else if s == 3 && second then 4 else if s == 4 && IsMeta(c) then 4 else DEAD
  }

  /** After a keyword: one operand, then metadata lines. */
  function OneOperand(s: nat, c: Child, operand: bool): nat {
    if s == 2 && operand then 4 else if s == 4 && IsMeta(c) then 4 else DEAD
  }

  /** The part of a dated directive after its date and keyword; it starts in state 2. */
  function Body(k: NodeKind, s: nat, c: Child): nat {
    match k
    case OpenDirective =>
      if s == 2 && Is(c, ACCOUNT) then 3
      else if s in {3, 6} && Is(c, CURRENCY) then 5
      else if s == 5 && Is(c, COMMA) then 6
      else if s in {3, 5} && Is(c, STRING) then 7
      else if s in {3, 5, 7, 4} && IsMeta(c) then 4
      else DEAD
    case CloseDirective => OneOperand(s, c, Is(c, ACCOUNT))
    case CommodityDirective => OneOperand(s, c, Is(c, CURRENCY))
    case BalanceDirective => TwoOperands(s, c, Is(c, ACCOUNT), IsNode(c, BalanceAmountNode))
    case PadDirective => TwoOperands(s, c, Is(c, ACCOUNT), Is(c, ACCOUNT))
    case PriceDirective => TwoOperands(s, c, Is(c, CURRENCY), IsNode(c, AmountNode))
    case EventDirective => TwoOperands(s, c, Is(c, STRING), Is(c, STRING))
    case QueryDirective => TwoOperands(s, c, Is(c, STRING), Is(c, STRING))
    case NoteDirective => Described(s, c)
    case DocumentDirective => Described(s, c)
    case CustomDirective =>
      if s == 2 && Is(c, STRING) then 3
      else if s == 3 && (IsAny(c, {STRING, DATE, ACCOUNT, CURRENCY, IDENT}) || IsNode(c, AmountNode)) then 3
      else if s in {3, 4} && IsMeta(c) then 4
      else DEAD
    case TransactionDirective =>
      if s == 2 && Is(c, STRING) then 3
      else if s == 3 && Is(c, STRING) then 5
      else if s in {2, 3, 5, 6} && IsAny(c, {TAG, LINK}) then 6
      else if s in {2, 3, 5, 6, 4} && IsMeta(c) then 4
      else if s in {2, 3, 5, 6, 4, 7} && IsNode(c, PostingNode) then 7
      else DEAD
    case _ => DEAD
  }

  /** An account, a string, tags and links, then metadata lines. */
  function Described(s: nat, c: Child): nat {
    if s == 2 && Is(c, ACCOUNT) then 3
    else if s == 3 && Is(c, STRING) then 5
    else if s == 5 && IsAny(c, {TAG, LINK}) then 5
    else if s in {5, 4} && IsMeta(c) then 4
    else DEAD
  }

  /** Braces around an amount, a currency, a date or a label, then more of them after commas. */
  function Cost(s: nat, c: Child): nat {
    if s == 0 && Is(c, LBRACE) then 1
    else if s == 0 && Is(c, LBRACE2) then 11
    else if (s == 1 || s == 2) && Is(c, RBRACE) then 9
    else if (s == 11 || s == 12) && Is(c, RBRACE2) then 9
    else if s == 1 && IsBareAmount(c) then 3
    else if s == 3 && Is(c, HASH) then 4
    else if s == 4 && IsNode(c, AmountNode) then 2
    else if s == 1 && (IsNode(c, AmountNode) || IsAny(c, {CURRENCY, DATE, STRING})) then 2
    else if s == 11 && (IsNode(c, AmountNode) || IsAny(c, {CURRENCY, DATE, STRING})) then 12
    else if s == 2 && Is(c, COMMA) then 5
    else if s == 12 && Is(c, COMMA) then 15
    else if s == 5 && (IsNode(c, AmountNode) || IsAny(c, {DATE, STRING})) then 2
    else if s == 15 && (IsNode(c, AmountNode) || IsAny(c, {DATE, STRING})) then 12
    else DEAD
  }

  /** A number, a signed operand, a parenthesised expression, or two operands around an operator. */
  function Arith(s: nat, c: Child): nat {
    if s == 0 && Is(c, NUMBER) then 1
    else if s == 0 && IsAny(c, {PLUS, MINUS}) then 2
    else if s == 2 && IsNode(c, ArithExprNode) then 1
    else if s == 0 && Is(c, LPAREN) then 3
    else if s == 3 && IsNode(c, ArithExprNode) then 4
    else if s == 4 && Is(c, RPAREN) then 1
    else if s == 0 && IsNode(c, ArithExprNode) then 5
    else if s == 5 && IsAny(c, {PLUS, MINUS, STAR, SLASH}) then 2
    else DEAD
  }

  function FileBody(s: nat, c: Child): nat {
    if s == 0 && IsDirective(c) then 0 else if s == 0 && Is(c, EOF) then 1 else DEAD
  }

  /** A directive without a date: its keyword first. */
  function Undated(k: NodeKind, s: nat, c: Child): nat {
    if s == 0 then (if IsWord(c, Keyword(k)) then 2 else DEAD)
    else
      match k
      case OptionDirective => TwoOperands(s, c, Is(c, STRING), Is(c, STRING))
      case PluginDirective =>
        if s == 2 && Is(c, STRING) then 3 else if s == 3 && Is(c, STRING) then 4 else if s in {3, 4} && IsMeta(c) then 4 else DEAD
      case IncludeDirective => OneOperand(s, c, Is(c, STRING))
      case _ => if s == 2 && Is(c, TAG) then 4 else DEAD
  }

  /** A dated directive: its date, then its keyword or flag. */
  function Dated(k: NodeKind, s: nat, c: Child): nat {
    if s == 0 then (if Is(c, DATE) then 1 else DEAD)
    else if s == 1 then (if IsWord(c, Keyword(k)) || (k == TransactionDirective && IsAny(c, {STAR, BANG})) then 2 else DEAD)
    else Body(k, s, c)
  }

  function PostingLine(s: nat, c: Child): nat {
    if s == 0 && IsAny(c, {STAR, BANG}) then 1
    else if s in {0, 1} && Is(c, ACCOUNT) then 2
    else if s == 2 && IsNode(c, AmountNode) then 3
    else if s == 3 && IsNode(c, CostSpecNode) then 5
    else if s in {3, 5} && IsNode(c, PriceAnnotNode) then 6
    else if s in {2, 3, 5, 6, 4} && IsMeta(c) then 4
    else DEAD
  }

  function BalanceAmount(s: nat, c: Child): nat {
    if s == 0 && IsNode(c, ArithExprNode) then 1
    else if s == 1 && Is(c, TILDE) then 2
    else if s == 2 && IsNode(c, ArithExprNode) then 3
    else if s in {1, 3} && Is(c, CURRENCY) then 4
    else DEAD
  }

  function MetadataLine(s: nat, c: Child): nat {
    if s == 0 && Is(c, IDENT) then 1
    else if s == 1 && Is(c, COLON) then 2
    else if s == 2 && IsAny(c, METADATA_VALUES) then 3
    else DEAD
  }

  function Amount(s: nat, c: Child): nat {
    if s == 0 && IsNode(c, ArithExprNode) then 1 else if s == 1 && Is(c, CURRENCY) then 2 else DEAD
  }

  function PriceAnnotation(s: nat, c: Child): nat {
    if s == 0 && IsAny(c, {AT, ATAT}) then 1 else if s == 1 && IsNode(c, AmountNode) then 4 else DEAD
  }

  /** The state after one more child. */
  function Step(k: NodeKind, s: nat, c: Child): nat {
    match k
    case FileNode => FileBody(s, c)
    case OptionDirective => Undated(k, s, c)
    case PluginDirective => Undated(k, s, c)
    case IncludeDirective => Undated(k, s, c)
    case PushtagDirective => Undated(k, s, c)
    case PoptagDirective => Undated(k, s, c)
    case PostingNode => PostingLine(s, c)
    case AmountNode => Amount(s, c)
    case BalanceAmountNode => BalanceAmount(s, c)
    case CostSpecNode => Cost(s, c)
    case PriceAnnotNode => PriceAnnotation(s, c)
    case MetadataLineNode => MetadataLine(s, c)
    case ArithExprNode => Arith(s, c)
    case UnrecognizedLineNode => if s in {0, 1} && c.TokenChild? then 1 else DEAD
    case _ => Dated(k, s, c)
  }

  /** The states in which a node of that kind is complete. */
  function Final(k: NodeKind): set<nat> {
    match k
    case FileNode => {1}
    case PluginDirective => {3, 4}
    case OpenDirective => {3, 4, 5, 7}
    case NoteDirective => {4, 5}
    case DocumentDirective => {4, 5}
    case CustomDirective => {3, 4}
    case TransactionDirective => {2, 3, 4, 5, 6, 7}
    case PostingNode => {2, 3, 4, 5, 6}
    case AmountNode => {1, 2}
    case CostSpecNode => {9}
    case MetadataLineNode => {2, 3}
    case ArithExprNode => {1}
    case UnrecognizedLineNode => {1}
    case _ => {4}
  }

  function State(k: NodeKind, cs: seq<Child>): nat {
    if cs == [] then 0 else Step(k, State(k, cs[..|cs| - 1]), cs[|cs| - 1])
  }

  /** The node and all nodes below it have the shape of their kind. */
  ghost predicate Sound(n: Node)
    decreases n
  {
    && State(n.kind, n.children) in Final(n.kind)
    && forall i :: 0 <= i < |n.children| && n.children[i].NodeChild? ==> Sound(n.children[i].node)
  }

  /** A reminder to look into a node under construction. */
  predicate Look(i: nat) { true }

  ghost predicate Reached(n: Node, s: nat) {
    && State(n.kind, n.children) == s
    && forall i :: 0 <= i < |n.children| && n.children[i].NodeChild? ==> Sound(n.children[i].node)
  }

  /** A node under construction: the state it is in, with complete nodes below it. */
  ghost predicate InState(n: Node, s: nat) {
    forall i: nat {:trigger Look(i)} :: Look(i) ==> Reached(n, s)
  }

  /** The token is the keyword of directives of kind `k`. */
  ghost predicate Opens(t: Token, k: NodeKind) {
    forall i: nat {:trigger Look(i)} :: Look(i) ==> IsWord(TokenChild(t), Keyword(k))
  }

  lemma {:induction false} OpensByWord(t: Token, k: NodeKind)
    requires t.kind == IDENT && t.raw == Keyword(k)
    ensures Opens(t, k)
  {
  }

  predicate IsUndated(k: NodeKind) {
    k.OptionDirective? || k.PluginDirective? || k.IncludeDirective? || k.PushtagDirective? || k.PoptagDirective?
  }

  lemma {:induction false} UndatedStarts(k: NodeKind, word: Token)
    requires Opens(word, k) && IsUndated(k)
    ensures Step(k, 0, TokenChild(word)) == 2 && word.kind == IDENT
  {
    assert Look(0);
  }

  lemma {:induction false} TransactionStarts(date: Child, word: Token)
    requires word.kind in {STAR, BANG} || Opens(word, TransactionDirective)
    ensures Is(date, DATE) ==> Step(TransactionDirective, 0, date) == 1
    ensures Step(TransactionDirective, 1, TokenChild(word)) == 2 && word.kind != EOF
  {
    assert Look(0);
  }

  lemma {:induction false} DatedStarts(k: NodeKind, date: Child, word: Token)
    requires DatedByWord(k)
    ensures Is(date, DATE) ==> Step(k, 0, date) == 1
    ensures Opens(word, k) ==> Step(k, 1, TokenChild(word)) == 2 && word.kind == IDENT
  {
    assert Look(0);
  }

  lemma {:induction false} NoChildYet(k: NodeKind)
    ensures InState(Node(k, []), 0)
  {
  }

  /** A complete node. */
  ghost predicate Whole(n: Node) {
    forall i: nat {:trigger Look(i)} :: Look(i) ==> Sound(n)
  }

  lemma {:induction false} WholeIsSound(n: Node)
    ensures Whole(n) <==> Sound(n)
  {
    assert Look(0);
  }

  lemma {:induction false} OneMoreChild(n: Node, s: nat, c: Child)
    requires InState(n, s) && (c.NodeChild? ==> Whole(c.node))
    ensures InState(n.(children := n.children + [c]), Step(n.kind, s, c))
  {
    assert Look(0);
    var cs := n.children + [c];
    assert cs[..|cs| - 1] == n.children;
  }

  lemma {:induction false} Complete(n: Node, s: nat)
    requires InState(n, s) && s in Final(n.kind)
    ensures Whole(n)
  {
    assert Look(0);
  }

  /** A directive that has a keyword after its date. */
  predicate DatedByWord(k: NodeKind) {
    match k
    case OpenDirective => true
    case CloseDirective => true
    case CommodityDirective => true
    case BalanceDirective => true
    case PadDirective => true
    case NoteDirective => true
    case DocumentDirective => true
    case PriceDirective => true
    case EventDirective => true
    case QueryDirective => true
    case CustomDirective => true
    case _ => false
  }

  /** Metadata lines may follow in state `s`, which may also be the last, and lead to state 4. */
  ghost predicate MetaMayFollow(k: NodeKind, s: nat) {
    s in Final(k) && 4 in Final(k) && forall c :: IsMeta(c) ==> Step(k, s, c) == 4 && Step(k, 4, c) == 4
  }

  /** The states in which the head of a directive may end. */
  function HeadEnds(k: NodeKind): set<nat> {
    match k
    case PluginDirective => {3, 4}
    case OpenDirective => {3, 5, 7}
    case NoteDirective => {5}
    case DocumentDirective => {5}
    case CustomDirective => {3}
    case OptionDirective => {4}
    case IncludeDirective => {4}
    case CloseDirective => {4}
    case CommodityDirective => {4}
    case BalanceDirective => {4}
    case PadDirective => {4}
    case PriceDirective => {4}
    case EventDirective => {4}
    case QueryDirective => {4}
    case _ => {}
  }

  lemma {:induction false} MetaFollows(k: NodeKind, s: nat)
    requires s in HeadEnds(k)
    ensures MetaMayFollow(k, s)
  {
    match k
    case PluginDirective =>
    case OpenDirective =>
    case NoteDirective =>
    case DocumentDirective =>
    case CustomDirective =>
    case _ => SimpleMetaFollows(k);
  }

  lemma {:induction false} SimpleMetaFollows(k: NodeKind)
    requires HeadEnds(k) == {4}
    ensures MetaMayFollow(k, 4)
  {
  }

  /** Tags and links may follow in state `s` and lead to state `t`. */
  ghost predicate TagsMayFollow(k: NodeKind, s: nat, t: nat) {
    forall c :: IsAny(c, {TAG, LINK}) ==> Step(k, s, c) == t && Step(k, t, c) == t
  }

  lemma {:induction false} TagsFollow(k: NodeKind, s: nat, t: nat)
    requires (k == TransactionDirective && s in {2, 3, 5} && t == 6) || (k in {NoteDirective, DocumentDirective} && s == t == 5)
    ensures TagsMayFollow(k, s, t)
  {
  }

  /** A token of that kind may follow in state `s` and leads to state `t`. */
  ghost predicate TokenMayFollow(k: NodeKind, s: nat, t: nat, token: TokenKind) {
    forall c :: Is(c, token) ==> Step(k, s, c) == t
  }

  lemma {:induction false} ParenthesesFollow()
    ensures TokenMayFollow(ArithExprNode, 0, 3, LPAREN) && TokenMayFollow(ArithExprNode, 4, 1, RPAREN)
  {
  }

  lemma {:induction false} CommaFollows()
    ensures TokenMayFollow(CostSpecNode, 2, 5, COMMA) && TokenMayFollow(CostSpecNode, 12, 15, COMMA)
  {
  }

  /** A node of kind `child` may follow in state `s` and leads to state `t`. */
  ghost predicate NodeMayFollow(k: NodeKind, s: nat, t: nat, child: NodeKind) {
    forall c :: IsNode(c, child) ==> Step(k, s, c) == t
  }

  lemma {:induction false} AmountFollows(k: NodeKind, s: nat, t: nat)
    requires (k, s, t) in {(CostSpecNode, 4, 2), (CostSpecNode, 5, 2), (CostSpecNode, 15, 12), (PostingNode, 2, 3),
                           (CustomDirective, 3, 3), (PriceDirective, 3, 4), (PriceAnnotNode, 1, 4)}
    ensures NodeMayFollow(k, s, t, AmountNode)
  {
  }

  lemma {:induction false} ExprFollows(k: NodeKind, s: nat, t: nat)
    requires (k, s, t) in {(AmountNode, 0, 1), (BalanceAmountNode, 0, 1), (BalanceAmountNode, 2, 3), (ArithExprNode, 0, 5),
                           (ArithExprNode, 2, 1), (ArithExprNode, 3, 4)}
    ensures NodeMayFollow(k, s, t, ArithExprNode)
  {
  }

  lemma {:induction false} StateOfThree(k: NodeKind, cs: seq<Child>)
    requires 1 <= |cs| <= 3
    ensures var s1 := Step(k, 0, cs[0]);
            State(k, cs) == if |cs| == 1 then s1
                            else if |cs| == 2 then Step(k, s1, cs[1])
                            else Step(k, Step(k, s1, cs[1]), cs[2])
  {
    StateOfOne(k, cs[..1]);
    if |cs| >= 2 {
      assert cs[..2][..1] == cs[..1] && cs[..2][1] == cs[1];
    }
    assert cs[..|cs|] == cs;
  }

  lemma {:induction false} StateOfOne(k: NodeKind, cs: seq<Child>)
    requires |cs| == 1
    ensures State(k, cs) == Step(k, 0, cs[0])
  {
    assert cs[..0] == [];
  }
}
