/**
 Merging into an existing file: index its dated directives, sort and group the
 inserts by target offset, and splice their text in.
 */
module Merge {
  import opened Prelude
  import opened Utf8
  import opened Syntax
  import opened Scanning
  import opened Segments
  import opened Parsers
  import opened Parse
  import opened Merging
  import opened Patches

  // ------------------------------------------------------------------ indexing the file

  predicate IsDated(k: NodeKind) {
    k in {OpenDirective, CloseDirective, CommodityDirective, BalanceDirective, PadDirective, NoteDirective,
          DocumentDirective, PriceDirective, EventDirective, QueryDirective, CustomDirective, TransactionDirective}
  }

  function TriviaSize(ts: seq<Trivia>): nat {
    if ts == [] then 0 else |ts[0].raw| + TriviaSize(ts[1..])
  }

  /** The offset past the trailing trivia of a token. */
  function FullEnd(t: Token): nat {
    t.pos + |t.raw| + TriviaSize(t.trailing)
  }

  function FindToken(cs: seq<Child>, kind: TokenKind): (r: Option<Token>)
    ensures r.Some? ==> TokenChild(r.value) in cs && r.value.kind == kind
  {
    if cs == [] then None
    else if cs[0].TokenChild? && cs[0].token.kind == kind then Some(cs[0].token)
    else FindToken(cs[1..], kind)
  }

  /** The offset past the line that `off` is on. */
  function LineEnd(data: seq<byte>, off: nat): (r: nat)
    ensures r <= |data| && (off <= |data| ==> off <= r)
    decreases |data| - off
  {
    if off >= |data| then |data| else if data[off] == '\n' then off + 1 else LineEnd(data, off + 1)
  }

  lemma {:induction false} LineEndMonotone(data: seq<byte>, a: nat, b: nat)
    requires a <= b
    ensures LineEnd(data, a) <= LineEnd(data, b)
    decreases b - a
  {
    if a < b && a < |data| && data[a] != '\n' {
      LineEndMonotone(data, a + 1, b);
    }
  }

  /** A date as the day it stands for, when its text is one. */
  type DateReading = seq<byte> -> Option<int>

  /** The index entry of a top-level child; an error is an unreadable date. */
  function Entry(c: Child, data: seq<byte>, reading: DateReading): Result<Option<Existing>, ()> {
    if c.TokenChild? || !IsDated(c.node.kind) then Ok(None)
    else match FindToken(c.node.children, DATE)
      case None => Ok(None)
      case Some(t) =>
        match reading(t.raw)
        case None => Err(())
        case Some(date) =>
          var ts := Tokens(c.node);
          if ts == [] then Ok(None)
          else Ok(Some(Existing(date, t.pos, LineEnd(data, FullEnd(ts[|ts| - 1])))))
  }

  function IndexOf(cs: seq<Child>, data: seq<byte>, reading: DateReading): Result<seq<Existing>, ()> {
    if cs == [] then Ok([])
    else
      var last := |cs| - 1;
      match IndexOf(cs[..last], data, reading)
      case Err(e) => Err(e)
      case Ok(front) =>
        match Entry(cs[last], data, reading)
        case Err(e) => Err(e)
        case Ok(None) => Ok(front)
        case Ok(Some(x)) => Ok(front + [x])
  }

  method AdvancePastTerminator(data: seq<byte>, off: nat) returns (r: nat)
    ensures r == LineEnd(data, off)
  {
    var i := off;
    while i < |data|
      invariant off <= i && LineEnd(data, off) == LineEnd(data, i)
      decreases |data| - i
    {
      if data[i] == '\n' { return i + 1; }
      i := i + 1;
    }
    return |data|;
  }

  /** Date and byte span of every dated directive at the top level. */
  method IndexDirectives(root: Node, data: seq<byte>, reading: DateReading) returns (r: Result<seq<Existing>, ()>)
    ensures r.Ok? <==> IndexOf(root.children, data, reading).Ok?
    ensures r.Ok? ==> r == IndexOf(root.children, data, reading)
  {
    var out: seq<Existing> := [];
    for i := 0 to |root.children|
      invariant IndexOf(root.children[..i], data, reading) == Ok(out)
    {
      var c := root.children[i];
      assert root.children[..i + 1][..i] == root.children[..i] && root.children[..i + 1][i] == c;
      FailurePersists(root.children, i + 1, data, reading);
      if c.TokenChild? || !IsDated(c.node.kind) { continue; }
      var dateTok := FindToken(c.node.children, DATE);
      if dateTok.None? { continue; }
      var date := reading(dateTok.value.raw);
      if date.None? { return Err(()); }
      var ts := Tokens(c.node);
      if |ts| == 0 { continue; }
      var end := AdvancePastTerminator(data, FullEnd(ts[|ts| - 1]));
      out := out + [Existing(date.value, dateTok.value.pos, end)];
    }
    assert root.children[..|root.children|] == root.children;
    return Ok(out);
  }

  lemma {:induction false} FailurePersists(cs: seq<Child>, n: nat, data: seq<byte>, reading: DateReading)
    requires n <= |cs|
    ensures IndexOf(cs[..n], data, reading).Err? ==> IndexOf(cs, data, reading).Err?
    decreases |cs| - n
  {
    if n < |cs| {
      assert cs[..n + 1][..n] == cs[..n];
      FailurePersists(cs, n + 1, data, reading);
    } else {
      assert cs[..n] == cs;
    }
  }

  // ------------------------------------------------------------------ the index is well placed

  /** Tokens in text order from `low` on: none starts before an earlier one's text ends, nor ends before it or past the file. */
  ghost predicate EndsAscend(ts: seq<Token>, low: nat, fileLen: nat) {
    && (forall i :: 0 <= i < |ts| ==> low <= ts[i].pos && InFile(ts[i], fileLen))
    && (forall i, j :: 0 <= i <= j < |ts| ==> FullEnd(ts[i]) <= FullEnd(ts[j]))
    && (forall i, j :: 0 <= i < j < |ts| ==> ts[i].pos + |ts[i].raw| <= ts[j].pos)
  }

  predicate InFile(t: Token, fileLen: nat) {
    t.pos + |t.raw| <= FullEnd(t) <= fileLen && (t.kind == DATE ==> |t.raw| > 0)
  }

  lemma {:induction false} TriviaSizeIsLength(ts: seq<Trivia>)
    ensures TriviaSize(ts) == |TriviaText(ts)|
  {
    if ts != [] {
      TriviaSizeIsLength(ts[1..]);
    }
  }

  lemma {:induction false} ScannedEnd(u: Alphabet, src: seq<byte>, a: nat)
    requires a <= |src|
    ensures var (t, end) := ScanAt(u, src, a); a <= t.pos && FullEnd(t) == end && InFile(t, |src|)
  {
    var (leading, start) := LeadingTrivia(src, a, a == 0);
    if start < |src| {
      var end := Lexeme(u, src, start).1;
      TrailingTriviaIsSource(src, end);
      TriviaSizeIsLength(TrailingTrivia(src, end).0);
    }
  }

  lemma {:induction false} SegmentEndsAscend(u: Alphabet, src: seq<byte>, scan: Source, ts: seq<Token>, a: nat, b: nat)
    requires Faithful(scan, u, src) && Segment(scan, ts, a, b) && a <= |src|
    ensures EndsAscend(ts, a, |src|)
    decreases |ts|
  {
    if ts != [] {
      assert Recall(a);
      ScannedEnd(u, src, a);
      var rest, mid := ts[1..], EndOf(scan, ts[0], a);
      SegmentEndsAscend(u, src, scan, rest, mid, b);
      FirstEnd(u, src, scan, ts, a, b);
      assert forall i :: 0 < i < |ts| ==> ts[i] == rest[i - 1];
    }
  }

  /** What follows a token starts after its text and ends no earlier than it. */
  lemma {:induction false} FirstEnd(u: Alphabet, src: seq<byte>, scan: Source, ts: seq<Token>, a: nat, b: nat)
    requires Faithful(scan, u, src) && Segment(scan, ts, a, b) && a <= |src| && ts != []
    ensures forall j :: 0 <= j < |ts| ==> FullEnd(ts[0]) <= FullEnd(ts[j])
    ensures forall j :: 0 < j < |ts| ==> ts[0].pos + |ts[0].raw| <= ts[j].pos
    decreases |ts|
  {
    assert Recall(a);
    ScannedEnd(u, src, a);
    if |ts| > 1 {
      var rest, mid := ts[1..], EndOf(scan, ts[0], a);
      assert Recall(mid);
      ScannedEnd(u, src, mid);
      FirstEnd(u, src, scan, rest, mid, b);
      assert FullEnd(ts[0]) <= FullEnd(rest[0]) && ts[0].pos + |ts[0].raw| <= rest[0].pos;
      assert forall j :: 0 < j < |ts| ==> ts[j] == rest[j - 1];
    }
  }

  /** The entry ends at the end of some token's line. */
  ghost predicate EndsLineOf(x: Existing, ts: seq<Token>, data: seq<byte>) {
    exists j :: 0 <= j < |ts| && x.endOff == LineEnd(data, FullEnd(ts[j]))
  }

  /** The entry starts at some token that is not empty. */
  ghost predicate StartsAt(x: Existing, ts: seq<Token>) {
    exists j :: 0 <= j < |ts| && x.startOff == ts[j].pos && |ts[j].raw| > 0
  }

  ghost predicate FromTokens(xs: seq<Existing>, ts: seq<Token>, data: seq<byte>) {
    forall i :: 0 <= i < |xs| ==> EndsLineOf(xs[i], ts, data) && StartsAt(xs[i], ts)
  }

  /** The entries come in text order and end within the file. */
  lemma {:induction false} IndexIsWellPlaced(cs: seq<Child>, data: seq<byte>, reading: DateReading)
    requires EndsAscend(TokensOf(cs), 0, |data|) && IndexOf(cs, data, reading).Ok?
    ensures WellPlaced(IndexOf(cs, data, reading).value, |data|)
    ensures FromTokens(IndexOf(cs, data, reading).value, TokensOf(cs), data)
  {
    if cs != [] {
      var last := |cs| - 1;
      var front, c := cs[..last], cs[last];
      assert cs == front + [c];
      TokensOfAppended(front, c);
      var before, own := TokensOf(front), ChildTokens(c);
      assert TokensOf(cs) == before + own;
      assert forall i :: 0 <= i < |before| ==> TokensOf(cs)[i] == before[i];
      assert forall i :: 0 <= i < |own| ==> TokensOf(cs)[|before| + i] == own[i];
      IndexIsWellPlaced(front, data, reading);
      EntryIsLast(TokensOf(cs), before, own, c, data, reading, IndexOf(front, data, reading).value);
    }
  }

  lemma {:induction false} EntryIsLast(ts: seq<Token>, before: seq<Token>, own: seq<Token>, c: Child, data: seq<byte>,
                                       reading: DateReading, front: seq<Existing>)
    requires ts == before + own && own == ChildTokens(c) && EndsAscend(ts, 0, |data|)
    requires WellPlaced(front, |data|) && FromTokens(front, before, data)
    requires Entry(c, data, reading).Ok?
    ensures var r := Entry(c, data, reading).value;
            r.Some? ==> WellPlaced(front + [r.value], |data|) && FromTokens(front + [r.value], ts, data)
    ensures FromTokens(front, ts, data)
  {
    FrontFromTokens(front, before, own, data);
    var r := Entry(c, data, reading).value;
    if r.Some? {
      var d := EntryTokens(ts, before, own, c, data, reading);
      LastFits(front, r.value, before, own, data, |own| - 1, d);
      LastFromTokens(front, r.value, ts, data);
    }
  }

  lemma {:induction false} FrontFromTokens(front: seq<Existing>, before: seq<Token>, own: seq<Token>, data: seq<byte>)
    requires FromTokens(front, before, data)
    ensures FromTokens(front, before + own, data)
  {
    forall i | 0 <= i < |front| ensures EndsLineOf(front[i], before + own, data) && StartsAt(front[i], before + own) {
      StillFromTokens(front[i], before, own, data);
    }
  }

  lemma {:induction false} LastFromTokens(front: seq<Existing>, x: Existing, ts: seq<Token>, data: seq<byte>)
    requires FromTokens(front, ts, data) && EndsLineOf(x, ts, data) && StartsAt(x, ts)
    ensures FromTokens(front + [x], ts, data)
  {
  }

  lemma {:induction false} LastFits(front: seq<Existing>, x: Existing, before: seq<Token>, own: seq<Token>, data: seq<byte>, n: nat, d: nat)
    requires EndsAscend(before + own, 0, |data|) && WellPlaced(front, |data|) && FromTokens(front, before, data)
    requires n < |own| && d < |own| && x.startOff == own[d].pos && x.endOff == LineEnd(data, FullEnd(own[n]))
    requires x.startOff < x.endOff <= |data|
    ensures WellPlaced(front + [x], |data|)
  {
    forall i | 0 <= i < |front| ensures front[i].endOff <= x.endOff && front[i].startOff < x.startOff {
      EarlierEntry(front[i], before, own, data, n, d);
    }
  }

  /** The tokens an entry starts at and ends with. */
  lemma {:induction false} EntryTokens(ts: seq<Token>, before: seq<Token>, own: seq<Token>, c: Child, data: seq<byte>, reading: DateReading)
    returns (d: nat)
    requires ts == before + own && own == ChildTokens(c) && EndsAscend(ts, 0, |data|)
    requires Entry(c, data, reading).Ok? && Entry(c, data, reading).value.Some?
    ensures var x := Entry(c, data, reading).value.value;
            && d < |own| && x.startOff == own[d].pos && x.endOff == LineEnd(data, FullEnd(own[|own| - 1]))
            && x.startOff < x.endOff <= |data|
            && EndsLineOf(x, ts, data) && StartsAt(x, ts)
  {
    var n := |own| - 1;
    assert ts[|before| + n] == own[n];
    DateTokenIsWithin(c.node, data);
    var t := FindToken(c.node.children, DATE).value;
    d :| 0 <= d < |own| && own[d] == t;
    assert ts[|before| + d] == t && InFile(t, |data|) && FullEnd(t) <= FullEnd(own[n]);
  }

  lemma {:induction false} StillFromTokens(x: Existing, before: seq<Token>, own: seq<Token>, data: seq<byte>)
    requires EndsLineOf(x, before, data) && StartsAt(x, before)
    ensures EndsLineOf(x, before + own, data) && StartsAt(x, before + own)
  {
    var j :| 0 <= j < |before| && x.endOff == LineEnd(data, FullEnd(before[j]));
    assert (before + own)[j] == before[j];
    var k :| 0 <= k < |before| && x.startOff == before[k].pos && |before[k].raw| > 0;
    assert (before + own)[k] == before[k];
  }

  /** An entry of earlier tokens starts before a later token and ends no later than a later token's line. */
  lemma {:induction false} EarlierEntry(x: Existing, before: seq<Token>, own: seq<Token>, data: seq<byte>, n: nat, d: nat)
    requires EndsAscend(before + own, 0, |data|) && EndsLineOf(x, before, data) && StartsAt(x, before)
    requires n < |own| && d < |own|
    ensures x.endOff <= LineEnd(data, FullEnd(own[n])) && x.startOff < own[d].pos
  {
    var ts := before + own;
    assert ts[|before| + n] == own[n] && ts[|before| + d] == own[d];
    var j :| 0 <= j < |before| && x.endOff == LineEnd(data, FullEnd(before[j]));
    assert ts[j] == before[j];
    LineEndMonotone(data, FullEnd(before[j]), FullEnd(own[n]));
    var k :| 0 <= k < |before| && x.startOff == before[k].pos && |before[k].raw| > 0;
    assert ts[k] == before[k];
  }

  lemma {:induction false} DateTokenIsWithin(n: Node, data: seq<byte>)
    requires FindToken(n.children, DATE).Some?
    ensures FindToken(n.children, DATE).value in Tokens(n)
  {
    ChildTokenIsWithin(n.children, FindToken(n.children, DATE).value);
  }

  lemma {:induction false} ChildTokenIsWithin(cs: seq<Child>, t: Token)
    requires TokenChild(t) in cs
    ensures t in TokensOf(cs)
  {
    if cs[0] != TokenChild(t) {
      ChildTokenIsWithin(cs[1..], t);
    }
  }

  // ------------------------------------------------------------------ groups and patches

  /** What to insert into one file, in which order, and with how many blank lines around it. */
  datatype Plan = Plan(order: OrderKind, blankLines: int, insertBlankLines: bool, inserts: seq<Insert>)

  /** The inserts that share one offset. */
  datatype Group = Group(offset: nat, inserts: seq<Insert>)

  function Flat(groups: seq<Group>): seq<Insert> {
    if groups == [] then [] else Flat(groups[..|groups| - 1]) + groups[|groups| - 1].inserts
  }

  /** One group per offset, offsets rising, and every insert in the group of its target offset. */
  ghost predicate GroupedRight(groups: seq<Group>, existing: seq<Existing>, order: OrderKind, fileLen: nat) {
    && (forall i :: 0 <= i < |groups| ==> groups[i].inserts != [] && groups[i].offset <= fileLen)
    && (forall i, j :: 0 <= i < j < |groups| ==> groups[i].offset < groups[j].offset)
    && (forall i, k :: 0 <= i < |groups| && 0 <= k < |groups[i].inserts| ==>
          TargetOffset(existing, groups[i].inserts[k].date, order, fileLen) == groups[i].offset)
  }

  function Padding(plan: Plan, x: nat): seq<byte> {
    PaddingFor(plan.insertBlankLines, plan.blankLines, x)
  }

  /** The texts of a group, separated by the padding between directives. */
  function BodyOf(plan: Plan, inserts: seq<Insert>): seq<byte> {
    if inserts == [] then []
    else if |inserts| == 1 then inserts[0].text
    else BodyOf(plan, inserts[..|inserts| - 1]) + Padding(plan, 0) + inserts[|inserts| - 1].text
  }

  /** A missing terminator at the end of the file, then the padding; nothing at the start of the file. */
  function LeadingText(plan: Plan, data: seq<byte>, offset: nat): seq<byte>
    requires offset <= |data|
  {
    if offset == 0 then []
    else (if offset == |data| && data[|data| - 1] != '\n' then ['\n'] else []) + Padding(plan, TrailingBlanks(data[..offset]))
  }

  function TrailingText(plan: Plan, data: seq<byte>, offset: nat): seq<byte> {
    if offset >= |data| then [] else Padding(plan, LeadingBlanks(data[offset..], 0))
  }

  /** The blank lines a plan wants where there are `x`. */
  function Wanted(plan: Plan, x: nat): nat {
    if plan.insertBlankLines && plan.blankLines > x then plan.blankLines else x
  }

  /**
   When what precedes an insert ends with just the wanted blank lines: at the start of
   the file if none is missing; within the file if none is missing or the text ends a
   line; at its end always. A bare carriage return before the insert is the exception,
   as the newline put after it makes it part of a CR LF.
   */
  predicate LeadingFits(plan: Plan, data: seq<byte>, offset: nat)
    requires offset <= |data|
  {
    var before := data[..offset];
    var x := TrailingBlanks(before);
    if offset == 0 then Wanted(plan, x) == x
    else if before[offset - 1] != '\r' then offset == |data| || Wanted(plan, x) == x || before[offset - 1] == '\n'
    else
      var c := before[..offset - 1];
      if offset == |data| then !EndsLine(c) else Wanted(plan, x) == x || (EndsLine(c) && TrailingBlanks(c) == 0)
  }

  lemma {:induction false} LeadingTextIsNewlines(plan: Plan, data: seq<byte>, offset: nat)
    requires 0 < offset <= |data|
    ensures var x := TrailingBlanks(data[..offset]);
            LeadingText(plan, data, offset)
            == Newlines(Wanted(plan, x) - x + if offset == |data| && data[|data| - 1] != '\n' then 1 else 0)
  {
    var x := TrailingBlanks(data[..offset]);
    assert Padding(plan, x) == Newlines(Wanted(plan, x) - x);
  }

  /** The same for a text that does not end in a carriage return, `k` newlines being put after it. */
  lemma {:induction false} LeadingAfterText(before: seq<byte>, k: nat, wanted: nat)
    requires before != [] && before[|before| - 1] != '\r' && k + TrailingBlanks(before) >= wanted >= TrailingBlanks(before)
    ensures TrailingBlanks(before + Newlines(k)) == wanted <==>
              if before[|before| - 1] == '\n' then k + TrailingBlanks(before) == wanted
              else k == wanted + 1 || (k == 0 && wanted == 0)
  {
    EndsOf(before);
    TerminatorsAfter(before, k);
  }

  lemma {:induction false} LeadingAfterReturn(before: seq<byte>, c: seq<byte>, k: nat, wanted: nat)
    requires before == c + ['\r'] && (k == wanted > 0 || k == wanted + 1)
    ensures TrailingBlanks(before) == 0
    ensures TrailingBlanks(before + Newlines(k)) == wanted <==>
              if k == wanted then EndsLine(c) && TrailingBlanks(c) == 0 else !EndsLine(c)
  {
    EndsOf(before);
    EndsOf(c);
    TerminatorsAfterReturn(before, c, k);
  }

  /** The text put before an insert leaves just the wanted blank lines there exactly in those cases. */
  lemma {:induction false} LeadingPaddingIsExact(plan: Plan, data: seq<byte>, offset: nat)
    requires offset <= |data|
    ensures var before := data[..offset];
            TrailingBlanks(before + LeadingText(plan, data, offset)) == Wanted(plan, TrailingBlanks(before))
            <==> LeadingFits(plan, data, offset)
  {
    var before := data[..offset];
    var x := TrailingBlanks(before);
    if offset == 0 {
      assert before + [] == before;
    } else {
      LeadingTextIsNewlines(plan, data, offset);
      EndsOf(before);
      var k := Wanted(plan, x) - x + if offset == |data| && data[|data| - 1] != '\n' then 1 else 0;
      if before[offset - 1] != '\r' {
        LeadingAfterText(before, k, Wanted(plan, x));
      } else if k > 0 {
        assert before == before[..offset - 1] + ['\r'];
        LeadingAfterReturn(before, before[..offset - 1], k, Wanted(plan, x));
      } else {
        assert before + [] == before;
      }
    }
  }

  /**
   The merge does choose such an offset: before an indented first directive, where the
   newline that should leave a blank line only ends the line of the indentation.
   */
  lemma {:induction false} IndentationComesShort(plan: Plan, data: seq<byte>, first: Existing, date: int)
    requires plan.order == Ascending && plan.insertBlankLines && plan.blankLines == 1
    requires |data| > 1 && data[0] == ' ' && first.startOff == 1 && date < first.date
    ensures TargetOffset([first], date, plan.order, |data|) == 1 && !LeadingFits(plan, data, 1)
    ensures Wanted(plan, TrailingBlanks(data[..1])) == 1 && LeadingText(plan, data, 1) == ['\n']
    ensures TrailingBlanks(data[..1] + LeadingText(plan, data, 1)) == 0
  {
    var before := data[..1];
    assert Later([first], date, plan.order)(0);
    EndsOf(before);
    assert Newlines(1) == ['\n'] + Newlines(0) == ['\n'];
    TerminatorsAfter(before, 1);
  }

  /** The text put after an insert leaves just the wanted blank lines there, unless some are missing at the end of the file. */
  lemma {:induction false} TrailingPaddingIsExact(plan: Plan, data: seq<byte>, offset: nat)
    requires offset <= |data|
    ensures var after := data[offset..];
            var x := LeadingBlanks(after, 0);
            LeadingBlanks(TrailingText(plan, data, offset) + after, 0) == Wanted(plan, x)
            <==> offset < |data| || Wanted(plan, x) == x
  {
    var after := data[offset..];
    var x := LeadingBlanks(after, 0);
    if offset < |data| {
      assert Padding(plan, x) == Newlines(Wanted(plan, x) - x);
      LeadingNewlines(Wanted(plan, x) - x, after);
    } else {
      assert [] + after == after;
    }
  }

  function PatchOf(plan: Plan, data: seq<byte>, g: Group): Patch
    requires g.offset <= |data|
  {
    Patch(g.offset, LeadingText(plan, data, g.offset), BodyOf(plan, g.inserts), TrailingText(plan, data, g.offset))
  }

  function PatchesOf(plan: Plan, data: seq<byte>, groups: seq<Group>): (r: seq<Patch>)
    requires forall i :: 0 <= i < |groups| ==> groups[i].offset <= |data|
    ensures |r| == |groups| && forall i :: 0 <= i < |r| ==> r[i] == PatchOf(plan, data, groups[i])
  {
    if groups == [] then [] else PatchesOf(plan, data, groups[..|groups| - 1]) + [PatchOf(plan, data, groups[|groups| - 1])]
  }

  lemma {:induction false} PatchesInBounds(plan: Plan, data: seq<byte>, groups: seq<Group>, existing: seq<Existing>)
    requires GroupedRight(groups, existing, plan.order, |data|)
    ensures InBounds(PatchesOf(plan, data, groups), 0, |data|)
  {
    var patches := PatchesOf(plan, data, groups);
    OffsetsInBounds(patches, groups, |data|);
  }

  lemma {:induction false} OffsetsInBounds(patches: seq<Patch>, groups: seq<Group>, fileLen: nat)
    requires |patches| == |groups| && forall i :: 0 <= i < |groups| ==> patches[i].offset == groups[i].offset <= fileLen
    requires forall i, j :: 0 <= i < j < |groups| ==> groups[i].offset < groups[j].offset
    ensures InBounds(patches, 0, fileLen)
  {
  }

  /** Groups the sorted inserts by target offset, as they come. */
  method GroupInserts(existing: seq<Existing>, sorted: seq<Insert>, order: OrderKind, fileLen: nat) returns (groups: seq<Group>)
    requires WellPlaced(existing, fileLen) && Ordered(order, sorted)
    ensures GroupedRight(groups, existing, order, fileLen) && Flat(groups) == sorted
  {
    groups := [];
    for i := 0 to |sorted|
      invariant GroupedRight(groups, existing, order, fileLen) && Flat(groups) == sorted[..i]
      invariant groups != [] ==> i > 0 && groups[|groups| - 1].offset == TargetOffset(existing, sorted[i - 1].date, order, fileLen)
    {
      FrontGrows(sorted, i);
      groups := AddToGroups(groups, sorted[i], if i > 0 then Some(sorted[i - 1].date) else None, existing, order, fileLen);
    }
    assert sorted[..|sorted|] == sorted;
  }

  lemma {:induction false} FrontGrows(xs: seq<Insert>, i: nat)
    requires i < |xs|
    ensures xs[..i + 1] == xs[..i] + [xs[i]]
  {
  }

  /** Adds one insert to the last group, or as a new one. */
  method AddToGroups(before: seq<Group>, ins: Insert, ghost previous: Option<int>, existing: seq<Existing>, order: OrderKind, fileLen: nat)
    returns (groups: seq<Group>)
    requires WellPlaced(existing, fileLen) && GroupedRight(before, existing, order, fileLen)
    requires before != [] ==>
               && previous.Some? && !LessByOrder(order, ins.date, previous.value)
               && before[|before| - 1].offset == TargetOffset(existing, previous.value, order, fileLen)
    ensures GroupedRight(groups, existing, order, fileLen) && Flat(groups) == Flat(before) + [ins]
    ensures groups != [] && groups[|groups| - 1].offset == TargetOffset(existing, ins.date, order, fileLen)
  {
    var off := TargetOffset(existing, ins.date, order, fileLen);
    OffsetInBounds(existing, ins.date, order, fileLen);
    var n := |before|;
    if n > 0 {
      OffsetsFollowDates(existing, previous.value, ins.date, order, fileLen);
    }
    if n > 0 && before[n - 1].offset == off {
      JoinGroup(before, ins, existing, order, fileLen);
      groups := before[n - 1 := Group(off, before[n - 1].inserts + [ins])];
    } else {
      NewGroup(before, Group(off, [ins]), existing, order, fileLen);
      groups := before + [Group(off, [ins])];
    }
  }

  lemma {:induction false} JoinGroup(groups: seq<Group>, ins: Insert, existing: seq<Existing>, order: OrderKind, fileLen: nat)
    requires GroupedRight(groups, existing, order, fileLen) && groups != []
    requires groups[|groups| - 1].offset == TargetOffset(existing, ins.date, order, fileLen)
    ensures var last := |groups| - 1;
            var r := groups[last := Group(groups[last].offset, groups[last].inserts + [ins])];
            GroupedRight(r, existing, order, fileLen) && Flat(r) == Flat(groups) + [ins]
  {
    var last := |groups| - 1;
    var r := groups[last := Group(groups[last].offset, groups[last].inserts + [ins])];
    assert r[..last] == groups[..last];
  }

  lemma {:induction false} NewGroup(groups: seq<Group>, g: Group, existing: seq<Existing>, order: OrderKind, fileLen: nat)
    requires GroupedRight(groups, existing, order, fileLen) && g.offset <= fileLen && |g.inserts| == 1
    requires groups != [] ==> groups[|groups| - 1].offset < g.offset
    requires g.offset == TargetOffset(existing, g.inserts[0].date, order, fileLen)
    ensures GroupedRight(groups + [g], existing, order, fileLen) && Flat(groups + [g]) == Flat(groups) + g.inserts
  {
    assert (groups + [g])[..|groups|] == groups;
  }

  method RenderBody(plan: Plan, inserts: seq<Insert>) returns (body: seq<byte>)
    ensures body == BodyOf(plan, inserts)
  {
    body := [];
    for i := 0 to |inserts|
      invariant body == BodyOf(plan, inserts[..i])
    {
      assert inserts[..i + 1][..i] == inserts[..i];
      if i > 0 {
        body := body + Padding(plan, 0);
      }
      body := body + inserts[i].text;
    }
    assert inserts[..|inserts|] == inserts;
  }

  /**
   Inserts the directives of the plan. Every insert is rendered once, in stable date
   order, at its target offset; cutting the texts out again gives back the original.
   */
  method MergeInto(data: seq<byte>, existing: seq<Existing>, plan: Plan) returns (out: seq<byte>, groups: seq<Group>)
    requires WellPlaced(existing, |data|)
    ensures GroupedRight(groups, existing, plan.order, |data|) && Flat(groups) == StableSorted(plan.order, plan.inserts)
    ensures var patches := PatchesOf(plan, data, groups);
            && InBounds(patches, 0, |data|)
            && out == Spliced(data, 0, patches)
            && Erased(out, 0, patches) == Some(data)
  {
    var sorted := StableSorted(plan.order, plan.inserts);
    StableSortLaws(plan.order, plan.inserts);
    var found := GroupInserts(existing, sorted, plan.order, |data|);
    groups := found;
    var patches: seq<Patch> := [];
    for i := 0 to |found|
      invariant patches == PatchesOf(plan, data, found[..i])
    {
      var g := found[i];
      assert found[..i + 1][..i] == found[..i];
      var body := RenderBody(plan, g.inserts);
      patches := patches + [Patch(g.offset, LeadingText(plan, data, g.offset), body, TrailingText(plan, data, g.offset))];
    }
    assert found[..|found|] == found;
    PatchesInBounds(plan, data, found, existing);
    out := ApplyPatches(data, patches);
    ErasingRestores(data, 0, patches);
    assert data[0..] == data;
  }

  /**
   Merging into the text of a file. It is refused exactly when the file does not parse
   without errors or has a date that cannot be read; else the inserts are spliced in at
   the target offsets that the index of the parsed file gives. The parsed file, its index
   and the groups are handed out beside the result, to say what it was made from.
   */
  method MergeExistingFile(alphabet: Alphabet, data: seq<byte>, plan: Plan, reading: DateReading)
    returns (r: Result<seq<byte>, ()>, file: File, existing: seq<Existing>, groups: seq<Group>)
    ensures FullText(file.root) == data && Segment(SourceOf(alphabet, data), Tokens(file.root), 0, |data|)
    ensures ReadsWritten(alphabet, data, file)
    ensures r.Ok? <==> file.errors == [] && IndexOf(file.root.children, data, reading).Ok?
    ensures r.Ok? ==>
              && IndexOf(file.root.children, data, reading) == Ok(existing) && WellPlaced(existing, |data|)
              && GroupedRight(groups, existing, plan.order, |data|) && Flat(groups) == StableSorted(plan.order, plan.inserts)
              && InBounds(PatchesOf(plan, data, groups), 0, |data|)
              && r.value == Spliced(data, 0, PatchesOf(plan, data, groups))
              && Erased(r.value, 0, PatchesOf(plan, data, groups)) == Some(data)
  {
    var parsed := ParseSource(alphabet, data);
    file, existing, groups := parsed, [], [];
    if |parsed.errors| > 0 { return Err(()), file, existing, groups; }
    var index := IndexDirectives(parsed.root, data, reading);
    if index.Err? { return Err(()), file, existing, groups; }
    existing := index.value;
    SourceIsFaithful(alphabet, data);
    SegmentEndsAscend(alphabet, data, SourceOf(alphabet, data), Tokens(parsed.root), 0, |data|);
    IndexIsWellPlaced(parsed.root.children, data, reading);
    var out;
    out, groups := MergeInto(data, index.value, plan);
    return Ok(out), file, existing, groups;
  }
}
