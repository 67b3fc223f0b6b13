/**
 Directives of a fixed shape: a keyword, with a date before it where it takes one, its
 operands, and metadata lines below it. Read off the tokens, and written as tokens.
 */
module FixedLines {
  import opened Prelude
  import opened Utf8
  import opened Syntax
  import opened Grammar
  import opened Expressions

  /** What a reading made of the front of a token list. */
  datatype Taken = Taken(children: seq<Child>, rest: seq<Token>)

  const UNDATED := {OptionDirective, IncludeDirective, PushtagDirective, PoptagDirective}

  const DATED := {CloseDirective, CommodityDirective, PadDirective, EventDirective, QueryDirective}

  predicate TakesMetadata(k: NodeKind) {
    !k.PushtagDirective? && !k.PoptagDirective?
  }

  function Operands(k: NodeKind): seq<TokenKind> {
    match k
    case OptionDirective => [STRING, STRING]
    case IncludeDirective => [STRING]
    case PushtagDirective => [TAG]
    case PoptagDirective => [TAG]
    case CloseDirective => [ACCOUNT]
    case CommodityDirective => [CURRENCY]
    case PadDirective => [ACCOUNT, ACCOUNT]
    case EventDirective => [STRING, STRING]
    case QueryDirective => [STRING, STRING]
    case _ => []
  }

  /** After its keyword the directive takes two operands, or one. */
  ghost predicate TakesTwo(k: NodeKind, first: TokenKind, second: TokenKind) {
    Operands(k) == [first, second] && forall s, c :: s >= 2 ==> Step(k, s, c) == TwoOperands(s, c, Is(c, first), Is(c, second))
  }

  ghost predicate TakesOne(k: NodeKind, operand: TokenKind) {
    Operands(k) == [operand] && forall s, c :: s >= 2 ==> Step(k, s, c) == OneOperand(s, c, Is(c, operand))
  }

  lemma {:induction false} OperandsAreTaken(k: NodeKind)
    requires Operands(k) != [] && TakesMetadata(k)
    ensures |Operands(k)| == 2 ==> TakesTwo(k, Operands(k)[0], Operands(k)[1])
    ensures |Operands(k)| == 1 ==> TakesOne(k, Operands(k)[0])
    ensures 4 in HeadEnds(k) && Final(k) == {4} && EOF !in Operands(k)
  {
  }

  function Leaves(ts: seq<Token>): (r: seq<Child>)
    ensures |r| == |ts| && forall i :: 0 <= i < |ts| ==> r[i] == TokenChild(ts[i])
  {
    if ts == [] then [] else [TokenChild(ts[0])] + Leaves(ts[1..])
  }

  // ------------------------------------------------------------------ metadata lines

  /** A key on an indented line of its own. */
  predicate KeyAhead(t: Token) {
    t.OnNextLine() && t.Indented() && t.kind == IDENT
  }

  predicate ValueAhead(t: Token) {
    !t.OnNextLine() && t.kind != EOF
  }

  /** A metadata line at the front: key, colon, and a value if the line goes on. */
  function MetaLine(ts: seq<Token>): Option<Taken>
    requires Ended(ts) && ts[0].kind == IDENT
    ensures MetaLine(ts).Some? ==> Ended(MetaLine(ts).value.rest) && |MetaLine(ts).value.rest| < |ts|
  {
    var colon := Next(ts);
    if colon[0].kind != COLON then None
    else
      var value := Next(colon);
      if !ValueAhead(value[0]) then Some(Taken(Leaves([ts[0], colon[0]]), value))
      else if value[0].kind in METADATA_VALUES then Some(Taken(Leaves([ts[0], colon[0], value[0]]), Next(value)))
      else None
  }

  /** All metadata lines at the front. */
  function MetaLines(ts: seq<Token>): Option<Taken>
    requires Ended(ts)
    ensures MetaLines(ts).Some? ==> Ended(MetaLines(ts).value.rest) && |MetaLines(ts).value.rest| <= |ts|
    decreases |ts|
  {
    if !KeyAhead(ts[0]) then Some(Taken([], ts))
    else
      match MetaLine(ts)
      case None => None
      case Some(line) =>
        match MetaLines(line.rest)
        case None => None
        case Some(more) => Some(Taken([NodeChild(Node(MetadataLineNode, line.children))] + more.children, more.rest))
  }

  // ------------------------------------------------------------------ directives

  /** The rest of a directive of kind `k`: tokens of `kinds`, then its metadata lines. */
  function Remainder(k: NodeKind, kinds: seq<TokenKind>, ts: seq<Token>): Option<Taken>
    requires Ended(ts)
    ensures Remainder(k, kinds, ts).Some? ==> Ended(Remainder(k, kinds, ts).value.rest) && |Remainder(k, kinds, ts).value.rest| <= |ts|
    decreases |kinds|
  {
    if kinds == [] then (if TakesMetadata(k) then MetaLines(ts) else Some(Taken([], ts)))
    else if ts[0].kind != kinds[0] then None
    else
      match Remainder(k, kinds[1..], Next(ts))
      case None => None
      case Some(more) => Some(Taken([TokenChild(ts[0])] + more.children, more.rest))
  }

  /** The directive of fixed shape whose first tokens these are, if they are. */
  function KindAhead(ts: seq<Token>): Option<NodeKind>
    requires ts != []
  {
    if ts[0].kind == IDENT then
      if ts[0].raw == Keyword(OptionDirective) then Some(OptionDirective)
      else if ts[0].raw == Keyword(IncludeDirective) then Some(IncludeDirective)
      else if ts[0].raw == Keyword(PushtagDirective) then Some(PushtagDirective)
      else if ts[0].raw == Keyword(PoptagDirective) then Some(PoptagDirective)
      else None
    else if ts[0].kind == DATE && Next(ts)[0].kind == IDENT then
      var word := Next(ts)[0].raw;
      if word == Keyword(CloseDirective) then Some(CloseDirective)
      else if word == Keyword(CommodityDirective) then Some(CommodityDirective)
      else if word == Keyword(PadDirective) then Some(PadDirective)
      else if word == Keyword(EventDirective) then Some(EventDirective)
      else if word == Keyword(QueryDirective) then Some(QueryDirective)
      else None
    else None
  }

  /** The kinds of the tokens of a directive, without its metadata. */
  function HeadKinds(k: NodeKind): seq<TokenKind> {
    (if k in DATED then [DATE] else []) + [IDENT] + Operands(k)
  }

  /** A directive at the front, read to its end; nothing if there is none or it has an error. */
  function Directive(ts: seq<Token>): Option<(Node, seq<Token>)>
    requires Ended(ts)
    ensures Directive(ts).Some? ==> Ended(Directive(ts).value.1) && |Directive(ts).value.1| < |ts|
  {
    match KindAhead(ts)
    case None => None
    case Some(k) =>
      RemainderIsShorter(k, HeadKinds(k), ts);
      match Remainder(k, HeadKinds(k), ts)
      case None => None
      case Some(taken) => Some((Node(k, taken.children), taken.rest))
  }

  lemma {:induction false} RemainderIsShorter(k: NodeKind, kinds: seq<TokenKind>, ts: seq<Token>)
    requires Ended(ts) && kinds != [] && kinds[0] != EOF
    ensures Remainder(k, kinds, ts).Some? ==> |Remainder(k, kinds, ts).value.rest| < |ts|
  {
  }

  /** Directives of fixed shape up to the end token. */
  function Directives(ts: seq<Token>): Option<Taken>
    requires Ended(ts)
    decreases |ts|
  {
    if ts[0].kind == EOF then Some(Taken([], ts))
    else
      match Directive(ts)
      case None => None
      case Some((n, rest)) =>
        match Directives(rest)
        case None => None
        case Some(more) => Some(Taken([NodeChild(n)] + more.children, more.rest))
  }

  // ------------------------------------------------------------------ what a production did

  /** A production that had `before` made `after` of it, with `rest` left, and was clean exactly when `t` could be read. */
  predicate Agrees(t: Option<Taken>, before: seq<Child>, after: seq<Child>, rest: seq<Token>, clean: bool) {
    && (t.Some? <==> clean)
    && (clean ==> after == before + t.value.children && rest == t.value.rest)
  }

  ghost predicate ReadsMeta(ts: seq<Token>, after: seq<Child>, rest: seq<Token>, clean: bool) {
    forall i: nat {:trigger Look(i)} :: Look(i) ==>
      Ended(ts) && (ts[0].kind == IDENT ==> Agrees(MetaLine(ts), [], after, rest, clean))
  }

  ghost predicate ReadsMetas(ts: seq<Token>, before: seq<Child>, after: seq<Child>, rest: seq<Token>, clean: bool) {
    forall i: nat {:trigger Look(i)} :: Look(i) ==> Ended(ts) && Agrees(MetaLines(ts), before, after, rest, clean)
  }

  ghost predicate ReadsRemainder(k: NodeKind, kinds: seq<TokenKind>, ts: seq<Token>, before: seq<Child>, after: seq<Child>,
                                 rest: seq<Token>, clean: bool)
  {
    forall i: nat {:trigger Look(i)} :: Look(i) ==> Ended(ts) && Agrees(Remainder(k, kinds, ts), before, after, rest, clean)
  }

  /** Prepending `cs` to what was read. */
  function Prepended(cs: seq<Child>, t: Option<Taken>): Option<Taken> {
    match t
    case None => None
    case Some(more) => Some(Taken(cs + more.children, more.rest))
  }

  lemma {:induction false} MetaLineRead(ts: seq<Token>, after: seq<Child>, rest: seq<Token>, clean: bool)
    requires Ended(ts) && ts[0].kind == IDENT
    requires var colon := Next(ts);
             var value := Next(colon);
             if colon[0].kind != COLON then !clean
             else if !ValueAhead(value[0]) then clean && rest == value && after == [TokenChild(ts[0]), TokenChild(colon[0])]
             else if value[0].kind in METADATA_VALUES then
               clean && rest == Next(value) && after == [TokenChild(ts[0]), TokenChild(colon[0]), TokenChild(value[0])]
             else !clean
    ensures ReadsMeta(ts, after, rest, clean)
  {
    var colon := Next(ts);
    var value := Next(colon);
    if colon[0].kind == COLON {
      assert Leaves([ts[0], colon[0]]) == [TokenChild(ts[0]), TokenChild(colon[0])];
      assert Leaves([ts[0], colon[0], value[0]]) == [TokenChild(ts[0]), TokenChild(colon[0]), TokenChild(value[0])];
    }
  }

  /** What is left of the reading `all` once `mid` was made of `before`: the reading `on`, unless there was an error. */
  predicate SoFar(all: Option<Taken>, before: seq<Child>, mid: seq<Child>, on: Option<Taken>, clean: bool) {
    if clean then before <= mid && all == Prepended(mid[|before|..], on) else all.None?
  }

  /** Reading the metadata lines of `ts` comes down to reading on from `rest`, with `mid` made so far. */
  ghost predicate MetasSoFar(ts: seq<Token>, before: seq<Child>, mid: seq<Child>, rest: seq<Token>, clean: bool) {
    forall i: nat {:trigger Look(i)} :: Look(i) ==>
      Ended(ts) && Ended(rest) && SoFar(MetaLines(ts), before, mid, MetaLines(rest), clean)
  }

  lemma {:induction false} NoMetaYet(ts: seq<Token>, before: seq<Child>)
    requires Ended(ts)
    ensures MetasSoFar(ts, before, before, ts, true)
  {
    assert before[|before|..] == [];
    assert MetaLines(ts).Some? ==> [] + MetaLines(ts).value.children == MetaLines(ts).value.children;
  }

  lemma {:induction false} FirstMeta(ts: seq<Token>, line: Node, after: seq<Token>)
    requires Ended(ts) && KeyAhead(ts[0]) && MetaLine(ts) == Some(Taken(line.children, after)) && line.kind == MetadataLineNode
    ensures MetaLines(ts) == Prepended([NodeChild(line)], MetaLines(after))
  {
    assert line == Node(MetadataLineNode, line.children);
  }

  lemma {:induction false} PrependedTwice(xs: seq<Child>, ys: seq<Child>, t: Option<Taken>)
    ensures Prepended(xs, Prepended(ys, t)) == Prepended(xs + ys, t)
  {
    if t.Some? {
      assert xs + (ys + t.value.children) == (xs + ys) + t.value.children;
    }
  }

  lemma {:induction false} OneMoreSoFar(all: Option<Taken>, before: seq<Child>, mid: seq<Child>, here: Option<Taken>, clean: bool,
                                        line: Node, on: Option<Taken>, whole: bool)
    requires SoFar(all, before, mid, here, clean)
    requires here == if whole then Prepended([NodeChild(line)], on) else None
    ensures SoFar(all, before, mid + [NodeChild(line)], on, clean && whole)
  {
    if clean && whole {
      PrependedTwice(mid[|before|..], [NodeChild(line)], on);
      assert (mid + [NodeChild(line)])[|before|..] == mid[|before|..] + [NodeChild(line)];
    }
  }

  /** A metadata line that was read, or not, at the front of `ts`. */
  lemma {:induction false} FirstOfMetas(ts: seq<Token>, line: Node, after: seq<Token>, whole: bool)
    requires ts != [] && KeyAhead(ts[0]) && line.kind == MetadataLineNode && ReadsMeta(ts, line.children, after, whole) && Ended(after)
    ensures Ended(ts) && MetaLines(ts) == if whole then Prepended([NodeChild(line)], MetaLines(after)) else None
  {
    assert Look(0);
    if whole {
      assert [] + line.children == line.children;
      assert [] + MetaLine(ts).value.children == MetaLine(ts).value.children;
      FirstMeta(ts, line, after);
    }
  }

  lemma {:induction false} OneMoreMeta(ts: seq<Token>, before: seq<Child>, mid: seq<Child>, rest: seq<Token>, clean: bool,
                                       line: Node, after: seq<Token>, whole: bool)
    requires MetasSoFar(ts, before, mid, rest, clean) && rest != [] && KeyAhead(rest[0])
    requires line.kind == MetadataLineNode && ReadsMeta(rest, line.children, after, whole) && Ended(after)
    ensures MetasSoFar(ts, before, mid + [NodeChild(line)], after, clean && whole)
  {
    assert Look(0);
    FirstOfMetas(rest, line, after, whole);
    OneMoreSoFar(MetaLines(ts), before, mid, MetaLines(rest), clean, line, MetaLines(after), whole);
  }

  lemma {:induction false} NoMoreMeta(ts: seq<Token>, before: seq<Child>, mid: seq<Child>, rest: seq<Token>, clean: bool)
    requires MetasSoFar(ts, before, mid, rest, clean) && rest != [] && !KeyAhead(rest[0])
    ensures ReadsMetas(ts, before, mid, rest, clean)
  {
    assert Look(0);
    if clean {
      assert mid[|before|..] + [] == mid[|before|..];
      assert before + mid[|before|..] == mid;
    }
  }

  /** After the operands the metadata lines are the remainder. */
  lemma {:induction false} MetasRemain(k: NodeKind, ts: seq<Token>, before: seq<Child>, after: seq<Child>, rest: seq<Token>, clean: bool)
    requires TakesMetadata(k) && ReadsMetas(ts, before, after, rest, clean)
    ensures ReadsRemainder(k, [], ts, before, after, rest, clean)
  {
    assert Look(0);
  }

  lemma {:induction false} NothingRemains(k: NodeKind, ts: seq<Token>, before: seq<Child>)
    requires !TakesMetadata(k) && Ended(ts)
    ensures ReadsRemainder(k, [], ts, before, before, ts, true)
  {
    assert before + [] == before;
  }

  /** One token of the expected kind before the remainder, or none and an error. */
  lemma {:induction false} ExpectedFirst(k: NodeKind, kind: TokenKind, kinds: seq<TokenKind>, ts: seq<Token>, before: seq<Child>,
                                         next: seq<Token>, mid: seq<Child>, after: seq<Child>, rest: seq<Token>, whole: bool, clean: bool)
    requires Ended(ts)
    requires ts[0].kind == kind ==>
               && next == Next(ts) && mid == before + [TokenChild(ts[0])] && clean == whole
               && ReadsRemainder(k, kinds, next, mid, after, rest, whole)
    requires ts[0].kind != kind ==> !clean
    ensures ReadsRemainder(k, [kind] + kinds, ts, before, after, rest, clean)
  {
    assert Look(0);
    assert ([kind] + kinds)[1..] == kinds;
    if ts[0].kind == kind && clean {
      var more := Remainder(k, kinds, next).value.children;
      assert (before + [TokenChild(ts[0])]) + more == before + ([TokenChild(ts[0])] + more);
    }
  }

  /** The keyword before the operands, after a date. */
  lemma {:induction false} KeywordFirst(k: NodeKind, date: Token, ts: seq<Token>, operands: seq<TokenKind>, after: seq<Child>, rest: seq<Token>, clean: bool)
    requires Ended(ts) && ts[0].kind == IDENT && Operands(k) == operands
    requires ReadsRemainder(k, operands, Next(ts), [TokenChild(date), TokenChild(ts[0])], after, rest, clean)
    ensures ReadsRemainder(k, [IDENT] + Operands(k), ts, [TokenChild(date)], after, rest, clean)
  {
    var both := [TokenChild(date), TokenChild(ts[0])];
    assert both == [TokenChild(date)] + [TokenChild(ts[0])];
    ExpectedFirst(k, IDENT, operands, ts, [TokenChild(date)], Next(ts), both, after, rest, clean, clean);
  }

  /** A directive of fixed shape was read to the node it spells, exactly when it has no error. */
  ghost predicate ReadsDirective(ts: seq<Token>, node: Node, rest: seq<Token>, clean: bool) {
    forall i: nat {:trigger Look(i)} :: Look(i) ==>
      && Ended(ts)
      && (KindAhead(ts).Some? ==>
           && node.kind == KindAhead(ts).value
           && Agrees(Remainder(node.kind, HeadKinds(node.kind), ts), [], node.children, rest, clean))
  }

  lemma {:induction false} UndatedRead(k: NodeKind, ts: seq<Token>, node: Node, rest: seq<Token>, clean: bool)
    requires Ended(ts) && ts[0].kind == IDENT && k in UNDATED && ts[0].raw == Keyword(k)
    requires node.kind == k && ReadsRemainder(k, [IDENT] + Operands(k), ts, [], node.children, rest, clean)
    ensures ReadsDirective(ts, node, rest, clean)
  {
    assert Look(0);
    assert HeadKinds(k) == [IDENT] + Operands(k);
    UndatedKinds(ts, k);
  }

  /** The keywords of the undated directives differ. */
  lemma {:induction false} UndatedKinds(ts: seq<Token>, k: NodeKind)
    requires ts != [] && ts[0].kind == IDENT && k in UNDATED && ts[0].raw == Keyword(k)
    ensures KindAhead(ts) == Some(k)
  {
    assert "option"[0] == 'o' && "include"[0] == 'i' && "pushtag"[1] == 'u' && "poptag"[1] == 'o';
  }

  lemma {:induction false} OtherwiseRead(ts: seq<Token>, node: Node, rest: seq<Token>, clean: bool)
    requires Ended(ts) && ts[0].kind != DATE && (ts[0].kind == IDENT ==> forall k :: k in UNDATED ==> ts[0].raw != Keyword(k))
    ensures ReadsDirective(ts, node, rest, clean)
  {
    assert KindAhead(ts).None?;
  }

  /** The kind of a dated directive of fixed shape, by its keyword. */
  predicate IsKeywordOf(k: NodeKind, word: seq<byte>) {
    k in DATED && word == Keyword(k)
  }

  ghost predicate ReadsDated(word: Token, date: Token, ts: seq<Token>, node: Node, rest: seq<Token>, clean: bool) {
    forall k :: IsKeywordOf(k, word.raw) ==>
      node.kind == k && ReadsRemainder(k, [IDENT] + Operands(k), ts, [TokenChild(date)], node.children, rest, clean)
  }

  /** The keywords differ, so a word belongs to one kind at most. */
  lemma {:induction false} OneKeyword(k: NodeKind, word: Token, date: Token, ts: seq<Token>, node: Node, rest: seq<Token>, clean: bool)
    requires Ended(ts) && ts[0] == word && word.kind == IDENT && IsKeywordOf(k, word.raw) && node.kind == k
    requires ReadsRemainder(k, Operands(k), Next(ts), [TokenChild(date), TokenChild(word)], node.children, rest, clean)
    ensures ReadsDated(word, date, ts, node, rest, clean)
  {
    KeywordFirst(k, date, ts, Operands(k), node.children, rest, clean);
    forall j | IsKeywordOf(j, word.raw) ensures j == k {
      KeywordsDiffer(j, k);
    }
  }

  lemma {:induction false} KeywordsDiffer(j: NodeKind, k: NodeKind)
    requires j in DATED && k in DATED && Keyword(j) == Keyword(k)
    ensures j == k
  {
    assert Keyword(j)[0] == Keyword(k)[0] && Keyword(j)[1] == Keyword(k)[1];
  }

  lemma {:induction false} NoKeyword(word: Token, date: Token, ts: seq<Token>, node: Node, rest: seq<Token>, clean: bool)
    requires forall k :: !IsKeywordOf(k, word.raw)
    ensures ReadsDated(word, date, ts, node, rest, clean)
  {
  }

  lemma {:induction false} DatedRead(ts: seq<Token>, node: Node, rest: seq<Token>, clean: bool)
    requires Ended(ts) && ts[0].kind == DATE
    requires Next(ts)[0].kind == IDENT ==> ReadsDated(Next(ts)[0], ts[0], Next(ts), node, rest, clean)
    ensures ReadsDirective(ts, node, rest, clean)
  {
    if KindAhead(ts).Some? {
      var k := KindAhead(ts).value;
      assert IsKeywordOf(k, Next(ts)[0].raw);
      var none: seq<Child> := [];
      assert none + [TokenChild(ts[0])] == [TokenChild(ts[0])];
      ExpectedFirst(k, DATE, [IDENT] + Operands(k), ts, none, Next(ts), [TokenChild(ts[0])], node.children, rest, clean, clean);
      assert HeadKinds(k) == [DATE] + ([IDENT] + Operands(k));
      assert Look(0);
    }
  }

  /** A file that begins with directives of fixed shape only was read to what it spells so far. */
  ghost predicate FileSoFar(ts: seq<Token>, children: seq<Child>, rest: seq<Token>, clean: bool) {
    forall i: nat {:trigger Look(i)} :: Look(i) ==>
      Ended(ts) && Ended(rest) && (Directives(ts).Some? ==> clean && Directives(ts) == Prepended(children, Directives(rest)))
  }

  lemma {:induction false} NoDirectiveYet(ts: seq<Token>)
    requires Ended(ts)
    ensures FileSoFar(ts, [], ts, true)
  {
    assert Directives(ts).Some? ==> [] + Directives(ts).value.children == Directives(ts).value.children;
  }

  lemma {:induction false} FirstDirective(ts: seq<Token>, node: Node, rest: seq<Token>, clean: bool)
    requires ts != [] && ts[0].kind != EOF && ReadsDirective(ts, node, rest, clean)
    ensures Ended(ts) && (Directives(ts).Some? ==>
              clean && Ended(rest) && Directives(ts) == Prepended([NodeChild(node)], Directives(rest)))
  {
    assert Look(0);
    if Directives(ts).Some? {
      var k := KindAhead(ts).value;
      var t := Remainder(k, HeadKinds(k), ts).value;
      assert [] + t.children == t.children;
      assert node == Node(k, t.children);
    }
  }

  lemma {:induction false} OneMoreDirective(ts: seq<Token>, children: seq<Child>, here: seq<Token>, clean: bool,
                                            node: Node, rest: seq<Token>, whole: bool)
    requires FileSoFar(ts, children, here, clean) && here != [] && here[0].kind != EOF
    requires ReadsDirective(here, node, rest, whole) && Ended(rest)
    ensures FileSoFar(ts, children + [NodeChild(node)], rest, clean && whole)
  {
    assert Look(0);
    FirstDirective(here, node, rest, whole);
    if Directives(ts).Some? {
      PrependedTwice(children, [NodeChild(node)], Directives(rest));
    }
  }

  /** What a file of directives of fixed shape is read to. */
  ghost predicate ReadsFile(ts: seq<Token>, root: Node, clean: bool) {
    forall i: nat {:trigger Look(i)} :: Look(i) ==>
      && Ended(ts)
      && (Directives(ts).Some? ==>
           clean && Directives(ts).value.rest != [] && root == Node(FileNode, Directives(ts).value.children + [TokenChild(Directives(ts).value.rest[0])]))
  }

  lemma {:induction false} AtTheEnd(ts: seq<Token>, children: seq<Child>, rest: seq<Token>, clean: bool)
    requires FileSoFar(ts, children, rest, clean) && rest != [] && rest[0].kind == EOF
    ensures ReadsFile(ts, Node(FileNode, children + [TokenChild(rest[0])]), clean)
  {
    assert Look(0);
    assert Directives(rest) == Some(Taken([], rest));
    assert children + [] == children;
  }

  // ------------------------------------------------------------------ written directives

  /** A directive as it is written: its head and the metadata lines below it, as tokens. */
  datatype Statement = Statement(kind: NodeKind, head: seq<Token>, metas: seq<seq<Token>>)

  /** Key, colon and at most one value, on an indented line. */
  predicate IsMetaLine(ts: seq<Token>) {
    && 2 <= |ts| <= 3 && KeyAhead(ts[0]) && ts[1].kind == COLON
    && (|ts| == 3 ==> ts[2].kind in METADATA_VALUES && !ts[2].OnNextLine())
  }

  /** A metadata line that ends with its colon must not be followed by anything on its line. */
  predicate MayComeAfter(metas: seq<seq<Token>>, t: Token) {
    !KeyAhead(t) && (metas != [] && |metas[|metas| - 1]| == 2 ==> !ValueAhead(t))
  }

  predicate HasKinds(ts: seq<Token>, kinds: seq<TokenKind>) {
    |ts| == |kinds| && forall i :: 0 <= i < |ts| ==> ts[i].kind == kinds[i]
  }

  /** Keyword, operands and metadata lines are what the kind asks for. */
  predicate Spelled(d: Statement) {
    && d.kind in UNDATED + DATED
    && HasKinds(d.head, HeadKinds(d.kind))
    && d.head[if d.kind in DATED then 1 else 0].raw == Keyword(d.kind)
    && (forall m :: m in d.metas ==> IsMetaLine(m))
    && (!TakesMetadata(d.kind) ==> d.metas == [])
  }

  /** The token may follow the directive: it begins no further metadata line and is no value. */
  predicate MayFollow(d: Statement, t: Token) {
    TakesMetadata(d.kind) ==> MayComeAfter(d.metas, t)
  }

  /** Directives one after the other, on lines of their own or not. */
  predicate WellWritten(ds: seq<Statement>) {
    && (forall d :: d in ds ==> Spelled(d))
    && (forall i :: 0 < i < |ds| ==> ds[i].head != [] && MayFollow(ds[i - 1], ds[i].head[0]))
  }

  function Joined(lines: seq<seq<Token>>): seq<Token> {
    if lines == [] then [] else lines[0] + Joined(lines[1..])
  }

  function LineNodes(lines: seq<seq<Token>>): seq<Child> {
    if lines == [] then [] else [NodeChild(Node(MetadataLineNode, Leaves(lines[0])))] + LineNodes(lines[1..])
  }

  function AllTokens(ds: seq<Statement>): seq<Token> {
    if ds == [] then [] else ds[0].head + Joined(ds[0].metas) + AllTokens(ds[1..])
  }

  function NodeOf(d: Statement): Node {
    Node(d.kind, Leaves(d.head) + LineNodes(d.metas))
  }

  function Nodes(ds: seq<Statement>): seq<Child> {
    if ds == [] then [] else [NodeChild(NodeOf(ds[0]))] + Nodes(ds[1..])
  }

  lemma {:induction false} OneAhead(t: Token, ts: seq<Token>)
    requires t.kind != EOF && Ended(ts)
    ensures Ended([t] + ts) && Next([t] + ts) == ts
  {
    assert ([t] + ts)[1..] == ts;
  }

  lemma {:induction false} TwoAhead(a: Token, b: Token, ts: seq<Token>)
    requires EOF !in {a.kind, b.kind} && Ended(ts)
    ensures var all := [a] + ([b] + ts); Ended(all) && all[0] == a && Next(all)[0] == b && Next(Next(all)) == ts
  {
    OneAhead(b, ts);
    OneAhead(a, [b] + ts);
  }

  lemma {:induction false} KeyReadsBack(key: Token, colon: Token, rest: seq<Token>)
    requires key.kind == IDENT && colon.kind == COLON && Ended(rest) && !ValueAhead(rest[0])
    ensures var ts := [key] + ([colon] + rest);
            Ended(ts) && MetaLine(ts) == Some(Taken(Leaves([key, colon]), rest))
  {
    TwoAhead(key, colon, rest);
  }

  lemma {:induction false} KeyAndValueReadBack(key: Token, colon: Token, value: Token, rest: seq<Token>)
    requires key.kind == IDENT && colon.kind == COLON && Ended(rest) && value.kind in METADATA_VALUES && !value.OnNextLine()
    ensures var ts := [key] + ([colon] + ([value] + rest));
            Ended(ts) && MetaLine(ts) == Some(Taken(Leaves([key, colon, value]), rest))
  {
    OneAhead(value, rest);
    TwoAhead(key, colon, [value] + rest);
  }

  lemma {:induction false} InParts(m: seq<Token>, rest: seq<Token>)
    requires 2 <= |m| <= 3
    ensures |m| == 2 ==> m == [m[0], m[1]] && m + rest == [m[0]] + ([m[1]] + rest)
    ensures |m| == 3 ==> m == [m[0], m[1], m[2]] && m + rest == [m[0]] + ([m[1]] + ([m[2]] + rest))
    ensures (m + rest)[0] == m[0]
  {
  }

  lemma {:induction false} MetaLineReadsBack(m: seq<Token>, rest: seq<Token>)
    requires IsMetaLine(m) && Ended(rest) && (|m| == 2 ==> !ValueAhead(rest[0]))
    ensures Ended(m + rest) && MetaLine(m + rest) == Some(Taken(Leaves(m), rest)) && (m + rest)[0] == m[0]
  {
    InParts(m, rest);
    if |m| == 2 {
      KeyReadsBack(m[0], m[1], rest);
    } else {
      KeyAndValueReadBack(m[0], m[1], m[2], rest);
    }
  }

  lemma {:induction false} FirstLineReadsBack(m: seq<Token>, more: seq<Token>)
    requires IsMetaLine(m) && Ended(more) && (|m| == 2 ==> !ValueAhead(more[0]))
    ensures Ended(m + more) && !ValueAhead((m + more)[0])
    ensures MetaLines(m + more) == Prepended([NodeChild(Node(MetadataLineNode, Leaves(m)))], MetaLines(more))
  {
    MetaLineReadsBack(m, more);
    FirstMeta(m + more, Node(MetadataLineNode, Leaves(m)), more);
  }

  lemma {:induction false} JoinedSplits(ms: seq<seq<Token>>, rest: seq<Token>)
    requires ms != []
    ensures Joined(ms) + rest == ms[0] + (Joined(ms[1..]) + rest)
  {
  }

  lemma {:induction false} NoMetaLine(rest: seq<Token>)
    requires Ended(rest) && !KeyAhead(rest[0])
    ensures MetaLines(rest) == Some(Taken([], rest))
  {
  }

  lemma {:induction false} MetaLinesReadBack(ms: seq<seq<Token>>, rest: seq<Token>)
    requires (forall m :: m in ms ==> IsMetaLine(m)) && Ended(rest) && MayComeAfter(ms, rest[0])
    ensures Ended(Joined(ms) + rest) && (ms != [] ==> !ValueAhead((Joined(ms) + rest)[0]))
    ensures MetaLines(Joined(ms) + rest) == Some(Taken(LineNodes(ms), rest))
  {
    if ms == [] {
      assert [] + rest == rest;
      NoMetaLine(rest);
    } else {
      assert |ms| > 1 ==> ms[1..][|ms| - 2] == ms[|ms| - 1];
      MetaLinesReadBack(ms[1..], rest);
      assert |ms| == 1 ==> Joined(ms[1..]) + rest == rest;
      FirstLineReadsBack(ms[0], Joined(ms[1..]) + rest);
      JoinedSplits(ms, rest);
    }
  }

  lemma {:induction false} OneOfRemainder(k: NodeKind, kinds: seq<TokenKind>, t: Token, ts: seq<Token>)
    requires kinds != [] && t.kind == kinds[0] != EOF && Ended(ts)
    ensures Ended([t] + ts) && Remainder(k, kinds, [t] + ts) == Prepended([TokenChild(t)], Remainder(k, kinds[1..], ts))
  {
    OneAhead(t, ts);
  }

  lemma {:induction false} RemainderReadsBack(k: NodeKind, kinds: seq<TokenKind>, head: seq<Token>, tail: seq<Token>)
    requires HasKinds(head, kinds) && EOF !in kinds && Ended(tail)
    ensures Ended(head + tail)
    ensures Remainder(k, kinds, head + tail) == Prepended(Leaves(head), Remainder(k, [], tail))
    decreases |kinds|
  {
    if kinds == [] {
      assert head + tail == tail;
      PrependedNothing(Remainder(k, [], tail));
    } else {
      HeadSplits(kinds, head, tail);
      RemainderReadsBack(k, kinds[1..], head[1..], tail);
      OneOfRemainder(k, kinds, head[0], head[1..] + tail);
      PrependedTwice([TokenChild(head[0])], Leaves(head[1..]), Remainder(k, [], tail));
    }
  }

  lemma {:induction false} HeadSplits(kinds: seq<TokenKind>, head: seq<Token>, tail: seq<Token>)
    requires HasKinds(head, kinds) && kinds != [] && EOF !in kinds
    ensures head + tail == [head[0]] + (head[1..] + tail)
    ensures HasKinds(head[1..], kinds[1..]) && EOF !in kinds[1..] && head[0].kind == kinds[0] != EOF
    ensures Leaves(head) == [TokenChild(head[0])] + Leaves(head[1..])
  {
  }

  lemma {:induction false} PrependedNothing(t: Option<Taken>)
    ensures Prepended([], t) == t
  {
    if t.Some? {
      assert [] + t.value.children == t.value.children;
    }
  }

  lemma {:induction false} KindIsAhead(d: Statement, tail: seq<Token>)
    requires Spelled(d)
    ensures d.head + tail != [] && KindAhead(d.head + tail) == Some(d.kind)
  {
    var ts := d.head + tail;
    assert |d.head| >= 2 && Next(ts)[0] == d.head[1];
    if d.kind in DATED {
      assert HeadKinds(d.kind)[0] == DATE && HeadKinds(d.kind)[1] == IDENT;
      var found := KindAhead(ts);
      assert found.Some?;
      KeywordsDiffer(found.value, d.kind);
    } else {
      assert HeadKinds(d.kind)[0] == IDENT;
      assert "option"[0] == 'o' && "include"[0] == 'i' && "pushtag"[1] == 'u' && "poptag"[1] == 'o';
    }
  }

  lemma {:induction false} NoOperandsLeft(d: Statement, rest: seq<Token>)
    requires Spelled(d) && Ended(rest) && MayFollow(d, rest[0])
    ensures Ended(Joined(d.metas) + rest)
    ensures Remainder(d.kind, [], Joined(d.metas) + rest) == Some(Taken(LineNodes(d.metas), rest))
  {
    if TakesMetadata(d.kind) {
      MetaLinesReadBack(d.metas, rest);
    } else {
      assert [] + rest == rest;
    }
  }

  lemma {:induction false} DirectiveIs(k: NodeKind, ts: seq<Token>, t: Taken)
    requires Ended(ts) && KindAhead(ts) == Some(k) && Remainder(k, HeadKinds(k), ts) == Some(t)
    ensures Directive(ts) == Some((Node(k, t.children), t.rest))
  {
  }

  lemma {:induction false} HeadHasNoEnd(d: Statement)
    requires Spelled(d)
    ensures EOF !in HeadKinds(d.kind) && d.head != [] && d.head[0].kind != EOF
  {
    assert HeadKinds(d.kind) != [] && HeadKinds(d.kind)[0] != EOF;
  }

  /** A written directive, with what may follow it, is read back as its node. */
  lemma {:induction false} DirectiveReadsBack(d: Statement, rest: seq<Token>)
    requires Spelled(d) && Ended(rest) && MayFollow(d, rest[0])
    ensures d.head != [] && d.head[0].kind != EOF
    ensures var ts := d.head + (Joined(d.metas) + rest);
            Ended(ts) && Directive(ts) == Some((NodeOf(d), rest))
  {
    var kinds, tail := HeadKinds(d.kind), Joined(d.metas) + rest;
    HeadHasNoEnd(d);
    NoOperandsLeft(d, rest);
    RemainderReadsBack(d.kind, kinds, d.head, tail);
    KindIsAhead(d, tail);
    DirectiveIs(d.kind, d.head + tail, Taken(Leaves(d.head) + LineNodes(d.metas), rest));
  }

  /**
   Directives of fixed shape, written one after the other, are read back: each as the
   node it spells, in order, without an error.
   */
  lemma {:induction false} DirectivesReadBack(ds: seq<Statement>, eof: Token)
    requires WellWritten(ds) && eof.kind == EOF
    ensures Ended(AllTokens(ds) + [eof])
    ensures Directives(AllTokens(ds) + [eof]) == Some(Taken(Nodes(ds), [eof]))
    ensures ds != [] ==> ds[0].head != [] && (AllTokens(ds) + [eof])[0] == ds[0].head[0]
    decreases |ds|
  {
    if ds == [] {
      assert [] + [eof] == [eof];
    } else {
      var d, rest := ds[0], ds[1..];
      RestWellWritten(ds);
      DirectivesReadBack(rest, eof);
      var later := AllTokens(rest) + [eof];
      DirectiveReadsBack(d, later);
      FlatSplits(ds, later, eof);
      OneDirective(d.head + (Joined(d.metas) + later), NodeOf(d), later, Taken(Nodes(rest), [eof]));
    }
  }

  lemma {:induction false} FlatSplits(ds: seq<Statement>, later: seq<Token>, eof: Token)
    requires ds != [] && later == AllTokens(ds[1..]) + [eof] && ds[0].head != []
    ensures AllTokens(ds) + [eof] == ds[0].head + (Joined(ds[0].metas) + later)
    ensures (AllTokens(ds) + [eof])[0] == ds[0].head[0]
  {
  }

  lemma {:induction false} RestWellWritten(ds: seq<Statement>)
    requires WellWritten(ds) && ds != []
    ensures Spelled(ds[0]) && WellWritten(ds[1..]) && (|ds| > 1 ==> ds[1].head != [] && MayFollow(ds[0], ds[1].head[0]))
  {
    assert forall i :: 0 <= i < |ds[1..]| ==> ds[1..][i] == ds[i + 1];
    assert forall d :: d in ds[1..] ==> d in ds;
  }

  lemma {:induction false} OneDirective(ts: seq<Token>, node: Node, rest: seq<Token>, more: Taken)
    requires Ended(ts) && ts[0].kind != EOF && Directive(ts) == Some((node, rest)) && Directives(rest) == Some(more)
    ensures Directives(ts) == Some(Taken([NodeChild(node)] + more.children, more.rest))
  {
  }
}
