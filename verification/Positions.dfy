/**
 Byte offsets and the positions of the language server protocol, which count lines and
 UTF-16 code units (RFC 2781, section 2.1). A line ends with LF, CR LF or a bare CR.
 */
module Positions {
  import opened Utf8

  datatype Position = Position(line: nat, character: nat)

  /** A malformed byte counts one, a surrogate pair two. */
  function Units(r: Rune): (n: nat)
    ensures 1 <= n <= 2
  {
    if r.code == REPLACEMENT && r.size == 1 then 1 else if r.code >= 0x10000 then 2 else 1
  }

  // ------------------------------------------------------------------ lines

  /** Whether a line starts at `o`. */
  predicate IsStart(src: seq<byte>, o: nat) {
    || o == 0
    || (o <= |src| && src[o - 1] == '\n')
    || (o <= |src| && src[o - 1] == '\r' && !(o < |src| && src[o] == '\n'))
  }

  ghost predicate Increasing(lo: seq<nat>) {
    forall i, j :: 0 <= i < j < |lo| ==> lo[i] < lo[j]
  }

  /** The starts of all lines in order. */
  ghost predicate Table(src: seq<byte>, lo: seq<nat>) {
    && |lo| > 0 && lo[0] == 0 && Increasing(lo)
    && forall o: nat :: o in lo <==> IsStart(src, o)
  }

  predicate EndsLine(src: seq<byte>, i: nat) {
    i < |src| && (src[i] == '\n' || src[i] == '\r')
  }

  /** CR LF is read as one. */
  function Past(src: seq<byte>, i: nat): nat
    requires i < |src|
  {
    if src[i] == '\r' && i + 1 < |src| && src[i + 1] == '\n' then i + 2 else i + 1
  }

  /** The line starts after `i`. */
  function StartsAfter(src: seq<byte>, i: nat): seq<nat>
    decreases |src| - i
  {
    if i >= |src| then []
    else (if EndsLine(src, i) then [Past(src, i)] else []) + StartsAfter(src, Past(src, i))
  }

  function Lines(src: seq<byte>): seq<nat> {
    [0] + StartsAfter(src, 0)
  }

  /** Not between the two halves of CR LF. */
  predicate Whole(src: seq<byte>, i: nat) {
    i <= |src| && !(0 < i < |src| && src[i - 1] == '\r' && src[i] == '\n')
  }

  lemma {:induction false} NextStart(src: seq<byte>, i: nat, o: nat)
    requires i < |src| && Whole(src, i) && i < o <= Past(src, i)
    ensures Whole(src, Past(src, i))
    ensures IsStart(src, o) <==> o == Past(src, i) && EndsLine(src, i)
  {
  }

  lemma {:induction false} StartsAfterAre(src: seq<byte>, i: nat)
    requires Whole(src, i)
    ensures Increasing(StartsAfter(src, i))
    ensures forall o: nat :: o in StartsAfter(src, i) <==> o > i && IsStart(src, o)
    decreases |src| - i
  {
    if i < |src| {
      var next := Past(src, i);
      NextStart(src, i, next);
      StartsAfterAre(src, next);
      Prepended(next, StartsAfter(src, next));
      forall o: nat ensures o in StartsAfter(src, i) <==> o > i && IsStart(src, o) {
        if i < o <= next {
          NextStart(src, i, o);
        }
      }
    }
  }

  lemma {:induction false} Prepended(x: nat, xs: seq<nat>)
    requires Increasing(xs) && forall y :: y in xs ==> x < y
    ensures Increasing([x] + xs)
  {
    forall i, j | 0 <= i < j < |xs| + 1 ensures ([x] + xs)[i] < ([x] + xs)[j] {
      assert ([x] + xs)[j] == xs[j - 1];
      if i == 0 {
        assert xs[j - 1] in xs;
      }
    }
  }

  lemma {:induction false} LinesAreTable(src: seq<byte>)
    ensures Table(src, Lines(src))
  {
    StartsAfterAre(src, 0);
    Prepended(0, StartsAfter(src, 0));
  }

  method ComputeLineOffsets(src: seq<byte>) returns (lo: seq<nat>)
    ensures lo == Lines(src) && Table(src, lo)
  {
    lo := [0];
    var i := 0;
    while i < |src|
      invariant i <= |src| && lo + StartsAfter(src, i) == Lines(src)
    {
      if src[i] == '\n' {
        lo := lo + [i + 1];
      } else if src[i] == '\r' {
        if i + 1 < |src| && src[i + 1] == '\n' {
          lo := lo + [i + 2];
          i := i + 1;
        } else {
          lo := lo + [i + 1];
        }
      }
      i := i + 1;
    }
    LinesAreTable(src);
  }

  function LineEnd(src: seq<byte>, lo: seq<nat>, line: nat): nat
    requires line < |lo|
  {
    if line + 1 < |lo| then lo[line + 1] else |src|
  }

  // ------------------------------------------------------------------ walking along a line

  /** The units from `i` to `o`, counting a rune that straddles `o` in full. */
  function Count(src: seq<byte>, i: nat, o: nat): nat
    requires o <= |src|
    decreases |src| - i
  {
    if i >= o then 0
    else
      var r := DecodeRune(src, i);
      Units(r) + Count(src, i + r.size, o)
  }

  /** The first place at or after `o` where a rune that is read from `i` on starts or the text ends. */
  function RoundUp(src: seq<byte>, i: nat, o: nat): (r: nat)
    requires i <= |src| && o <= |src|
    ensures o <= r <= |src| && i <= r
    decreases |src| - i
  {
    if i >= o then i else RoundUp(src, i + DecodeRune(src, i).size, o)
  }

  /** Reading from `i` gets to `o`. */
  predicate Boundary(src: seq<byte>, i: nat, o: nat)
    requires i <= |src|
    decreases |src| - i
  {
    i == o || (i < o && i < |src| && Boundary(src, i + DecodeRune(src, i).size, o))
  }

  /** How far `units` reach, without cutting a surrogate pair or passing `end`. */
  function Reach(src: seq<byte>, i: nat, end: nat, units: nat): (r: nat)
    requires end <= |src|
    ensures i <= r
    decreases |src| - i
  {
    if i >= end || units == 0 then i
    else
      var r := DecodeRune(src, i);
      if Units(r) > units then i else Reach(src, i + r.size, end, units - Units(r))
  }

  /** The bytes of a sequence after its first are no line ends. */
  lemma {:induction false} TailsAreHigh(src: seq<byte>, i: nat, k: nat)
    requires i < k < |src| && k < i + DecodeRune(src, i).size
    ensures src[k] as int >= 0x80
  {
  }

  /** No sequence runs past the start of a line. */
  lemma {:induction false} StopsAtLineStart(src: seq<byte>, i: nat, o: nat)
    requires i < o <= |src| && IsStart(src, o)
    ensures i + DecodeRune(src, i).size <= o
  {
    if i + DecodeRune(src, i).size > o && i < o - 1 {
      TailsAreHigh(src, i, o - 1);
    }
  }

  /** Every line start is a boundary from any earlier place. */
  lemma {:induction false} LineStartIsBoundary(src: seq<byte>, i: nat, o: nat)
    requires i <= o <= |src| && (IsStart(src, o) || o == |src|)
    ensures Boundary(src, i, o)
    decreases |src| - i
  {
    if i < o {
      if o < |src| {
        StopsAtLineStart(src, i, o);
      }
      LineStartIsBoundary(src, i + DecodeRune(src, i).size, o);
    }
  }

  lemma {:induction false} RoundUpIsBoundary(src: seq<byte>, i: nat, o: nat)
    requires i <= |src| && o <= |src|
    ensures Boundary(src, i, RoundUp(src, i, o))
    ensures i <= o ==> (RoundUp(src, i, o) == o <==> Boundary(src, i, o))
    decreases |src| - i
  {
    if i < o {
      RoundUpIsBoundary(src, i + DecodeRune(src, i).size, o);
    }
  }

  /** The units up to an offset reach to the boundary at or after it. */
  lemma {:induction false} CountReaches(src: seq<byte>, i: nat, o: nat, end: nat)
    requires i <= o <= end <= |src| && Boundary(src, i, end)
    ensures Reach(src, i, end, Count(src, i, o)) == RoundUp(src, i, o)
    decreases |src| - i
  {
    if i < o {
      var next := i + DecodeRune(src, i).size;
      if next <= o {
        CountReaches(src, next, o, end);
      } else {
        assert Count(src, next, o) == 0;
      }
    }
  }

  /** Reach gives the last boundary of the line that the units suffice for. */
  lemma {:induction false} ReachIsLast(src: seq<byte>, i: nat, end: nat, units: nat)
    requires i <= end <= |src| && Boundary(src, i, end)
    ensures var r := Reach(src, i, end, units);
            && r <= end && Boundary(src, i, r) && Count(src, i, r) <= units
            && (r < end ==> Count(src, i, r) + Units(DecodeRune(src, r)) > units)
    decreases |src| - i
  {
    if i < end && units > 0 && Units(DecodeRune(src, i)) <= units {
      ReachIsLast(src, i + DecodeRune(src, i).size, end, units - Units(DecodeRune(src, i)));
    }
  }

  lemma {:induction false} ReachOnce(src: seq<byte>, i: nat, end: nat, units: nat, r: Rune, u: nat)
    requires i < end <= |src| && r == DecodeRune(src, i) && u == Units(r) <= units
    ensures Reach(src, i, end, units) == Reach(src, i + r.size, end, units - u)
  {
  }

  lemma {:induction false} ReachGrows(src: seq<byte>, i: nat, end: nat, units: nat, more: nat)
    requires i <= end <= |src| && units <= more
    ensures Reach(src, i, end, units) <= Reach(src, i, end, more)
    decreases |src| - i
  {
    if i < end && units > 0 && Units(DecodeRune(src, i)) <= units {
      var next := i + DecodeRune(src, i).size;
      if next <= end {
        ReachGrows(src, next, end, units - Units(DecodeRune(src, i)), more - Units(DecodeRune(src, i)));
      }
    }
  }

  lemma {:induction false} CountIsSmall(src: seq<byte>, i: nat, o: nat)
    requires i <= o <= |src|
    ensures Count(src, i, o) <= |src| - i
    decreases |src| - i
  {
    if i < o {
      var next := i + DecodeRune(src, i).size;
      if next <= o {
        CountIsSmall(src, next, o);
      }
    }
  }

  // ------------------------------------------------------------------ the two conversions

  function Clamp(offset: int, src: seq<byte>): nat {
    if offset < 0 then 0 else if offset > |src| then |src| else offset
  }

  /** The last line that starts at or before the offset. */
  predicate OnLine(lo: seq<nat>, line: nat, o: nat) {
    line < |lo| && lo[line] <= o && (line + 1 < |lo| ==> o < lo[line + 1])
  }

  predicate IsPositionOf(src: seq<byte>, lo: seq<nat>, offset: int, p: Position) {
    var o := Clamp(offset, src);
    OnLine(lo, p.line, o) && p.character == Count(src, lo[p.line], o)
  }

  function ToByte(src: seq<byte>, lo: seq<nat>, p: Position): nat
    requires forall l :: 0 <= l < |lo| ==> LineEnd(src, lo, l) <= |src|
  {
    if p.line >= |lo| then |src| else Reach(src, lo[p.line], LineEnd(src, lo, p.line), p.character)
  }

  lemma {:induction false} TableInBounds(src: seq<byte>, lo: seq<nat>)
    requires Table(src, lo)
    ensures forall l :: 0 <= l < |lo| ==> lo[l] <= LineEnd(src, lo, l) <= |src|
    ensures forall l :: 0 <= l < |lo| ==> LineEnd(src, lo, l) == |src| || IsStart(src, LineEnd(src, lo, l))
  {
    forall l | 0 <= l < |lo| ensures lo[l] <= LineEnd(src, lo, l) <= |src| && (LineEnd(src, lo, l) == |src| || IsStart(src, LineEnd(src, lo, l))) {
      assert lo[l] in lo;
      if l + 1 < |lo| {
        assert lo[l + 1] in lo;
      }
    }
  }

  method ByteOffsetToLsp(offset: int, src: seq<byte>, lo: seq<nat>) returns (p: Position)
    requires Table(src, lo)
    ensures IsPositionOf(src, lo, offset, p)
    ensures p.character <= |src|
  {
    var o: nat := if offset < 0 then 0 else if offset > |src| then |src| else offset;
    var line := |lo| - 1;
    var l := 0;
    while l < |lo| - 1
      invariant l <= |lo| - 1 && line == |lo| - 1 && lo[l] <= o
    {
      if lo[l + 1] > o {
        line := l;
        break;
      }
      l := l + 1;
    }
    TableInBounds(src, lo);
    var ch := CountUnits(src, lo[line], o);
    return Position(line, ch);
  }

  method CountUnits(src: seq<byte>, start: nat, o: nat) returns (ch: nat)
    requires start <= o <= |src|
    ensures ch == Count(src, start, o) <= |src|
  {
    var i := start;
    ch := 0;
    while i < o
      invariant start <= i <= |src| && ch + Count(src, i, o) == Count(src, start, o)
      decreases |src| - i
    {
      var r := DecodeRune(src, i);
      ch := ch + Units(r);
      i := i + r.size;
    }
    CountIsSmall(src, start, o);
  }

  method LspPositionToByte(p: Position, src: seq<byte>, lo: seq<nat>) returns (o: nat)
    requires Table(src, lo)
    ensures forall l :: 0 <= l < |lo| ==> LineEnd(src, lo, l) <= |src|
    ensures o == ToByte(src, lo, p) && o <= |src|
  {
    TableInBounds(src, lo);
    if p.line >= |lo| {
      return |src|;
    }
    var lineStart := lo[p.line];
    var lineEnd := if p.line + 1 < |lo| then lo[p.line + 1] else |src|;
    LineStartIsBoundary(src, lineStart, lineEnd);
    ReachIsLast(src, lineStart, lineEnd, p.character);
    o := WalkLine(src, lineStart, lineEnd, p.character);
  }

  method WalkLine(src: seq<byte>, lineStart: nat, lineEnd: nat, character: nat) returns (i: nat)
    requires lineStart <= lineEnd <= |src|
    ensures i == Reach(src, lineStart, lineEnd, character)
  {
    var units: nat := 0;
    ghost var left := character;
    i := lineStart;
    while i < lineEnd && units < character
      invariant i <= |src| && units + left == character && Reach(src, i, lineEnd, left) == Reach(src, lineStart, lineEnd, character)
      decreases |src| - i
    {
      var r := DecodeRune(src, i);
      var u := Units(r);
      if units + u > character {
        break;
      }
      ReachOnce(src, i, lineEnd, left, r, u);
      units := units + u;
      left := left - u;
      i := i + r.size;
    }
  }

  // ------------------------------------------------------------------ laws

  /**
   To a position and back: from an offset one gets to the first boundary at or after it,
   so the way there and back is the identity exactly on boundaries.
   */
  lemma {:induction false} OffsetsComeBack(src: seq<byte>, lo: seq<nat>, o: nat, p: Position)
    requires Table(src, lo) && o <= |src| && IsPositionOf(src, lo, o, p)
    ensures lo[p.line] <= o && forall l :: 0 <= l < |lo| ==> LineEnd(src, lo, l) <= |src|
    ensures ToByte(src, lo, p) == RoundUp(src, lo[p.line], o)
    ensures ToByte(src, lo, p) == o <==> Boundary(src, lo[p.line], o)
  {
    TableInBounds(src, lo);
    var start, end := lo[p.line], LineEnd(src, lo, p.line);
    LineStartIsBoundary(src, start, end);
    CountReaches(src, start, o, end);
    RoundUpIsBoundary(src, start, o);
  }

  /**
   Every position lands on a boundary of its line: the last one its characters suffice
   for. A position past the last line lands at the end.
   */
  lemma {:induction false} PositionsLandOnBoundaries(src: seq<byte>, lo: seq<nat>, p: Position)
    requires Table(src, lo)
    ensures forall l :: 0 <= l < |lo| ==> lo[l] <= LineEnd(src, lo, l) <= |src|
    ensures var o := ToByte(src, lo, p);
            if p.line >= |lo| then o == |src|
            else
              var start, end := lo[p.line], LineEnd(src, lo, p.line);
              && start <= o <= end && Boundary(src, start, o) && Count(src, start, o) <= p.character
              && (o < end ==> Count(src, start, o) + Units(DecodeRune(src, o)) > p.character)
  {
    TableInBounds(src, lo);
    if p.line < |lo| {
      LineStartIsBoundary(src, lo[p.line], LineEnd(src, lo, p.line));
      ReachIsLast(src, lo[p.line], LineEnd(src, lo, p.line), p.character);
    }
  }

  predicate NotAfter(p: Position, q: Position) {
    p.line < q.line || (p.line == q.line && p.character <= q.character)
  }

  /** Later positions are not mapped to earlier offsets. */
  lemma {:induction false} ToByteIsMonotone(src: seq<byte>, lo: seq<nat>, p: Position, q: Position)
    requires Table(src, lo) && NotAfter(p, q)
    ensures forall l :: 0 <= l < |lo| ==> LineEnd(src, lo, l) <= |src|
    ensures ToByte(src, lo, p) <= ToByte(src, lo, q)
  {
    TableInBounds(src, lo);
    PositionsLandOnBoundaries(src, lo, p);
    PositionsLandOnBoundaries(src, lo, q);
    if p.line == q.line < |lo| {
      ReachGrows(src, lo[p.line], LineEnd(src, lo, p.line), p.character, q.character);
    }
  }

  /** A position that an offset has is the position of the offset it maps to. */
  lemma {:induction false} PositionsComeBack(src: seq<byte>, lo: seq<nat>, o: nat, p: Position)
    requires Table(src, lo) && o <= |src| && IsPositionOf(src, lo, o, p) && Boundary(src, lo[p.line], o)
    ensures forall l :: 0 <= l < |lo| ==> LineEnd(src, lo, l) <= |src|
    ensures IsPositionOf(src, lo, ToByte(src, lo, p), p)
  {
    OffsetsComeBack(src, lo, o, p);
  }

  // ------------------------------------------------------------------ document changes

  datatype Change = Full(text: seq<byte>) | Splice(start: Position, end: Position, text: seq<byte>)

  function ByteOf(src: seq<byte>, p: Position): (o: nat)
    ensures o <= |src|
  {
    LinesAreTable(src);
    TableInBounds(src, Lines(src));
    PositionsLandOnBoundaries(src, Lines(src), p);
    ToByte(src, Lines(src), p)
  }

  /** The text outside the range stays, in place of the range comes the new text. */
  function Changed(buf: seq<byte>, ch: Change): seq<byte> {
    match ch
    case Full(text) => text
    case Splice(start, end, text) =>
      Spliced(buf, ByteOf(buf, start), ByteOf(buf, end), text)
  }

  function Spliced(buf: seq<byte>, s: nat, e: nat, text: seq<byte>): seq<byte>
    requires s <= |buf| && e <= |buf|
  {
    if s <= e then buf[..s] + text + buf[e..] else buf[..e] + text + buf[s..]
  }

  function AllChanged(buf: seq<byte>, changes: seq<Change>): seq<byte>
    decreases |changes|
  {
    if changes == [] then buf else AllChanged(Changed(buf, changes[0]), changes[1..])
  }

  method ApplyChange(buf: seq<byte>, ch: Change) returns (out: seq<byte>)
    ensures out == Changed(buf, ch)
  {
    if ch.Full? {
      return ch.text;
    }
    var lo := ComputeLineOffsets(buf);
    var start := LspPositionToByte(ch.start, buf, lo);
    var end := LspPositionToByte(ch.end, buf, lo);
    if start > end {
      start, end := end, start;
    }
    out := [];
    out := out + buf[..start];
    out := out + ch.text;
    out := out + buf[end..];
  }

  method ApplyChanges(buf: seq<byte>, changes: seq<Change>) returns (current: seq<byte>)
    ensures current == AllChanged(buf, changes)
  {
    current := buf;
    for i := 0 to |changes|
      invariant AllChanged(current, changes[i..]) == AllChanged(buf, changes)
    {
      assert changes[i..][1..] == changes[i + 1..];
      current := ApplyChange(current, changes[i]);
    }
  }

  /** An edit between the positions of two boundaries replaces exactly the bytes between them. */
  lemma {:induction false} EditReplacesExactly(buf: seq<byte>, s: nat, e: nat, p: Position, q: Position, text: seq<byte>)
    requires s <= e <= |buf|
    requires IsPositionOf(buf, Lines(buf), s, p) && Boundary(buf, Lines(buf)[p.line], s)
    requires IsPositionOf(buf, Lines(buf), e, q) && Boundary(buf, Lines(buf)[q.line], e)
    ensures Changed(buf, Splice(p, q, text)) == buf[..s] + text + buf[e..]
  {
    LinesAreTable(buf);
    OffsetsComeBack(buf, Lines(buf), s, p);
    OffsetsComeBack(buf, Lines(buf), e, q);
  }

  lemma {:induction false} ByteOfIsMonotone(buf: seq<byte>, p: Position, q: Position)
    requires NotAfter(p, q)
    ensures ByteOf(buf, p) <= ByteOf(buf, q)
  {
    LinesAreTable(buf);
    ToByteIsMonotone(buf, Lines(buf), p, q);
  }

  /** A range given backwards means the same, and one given forwards is taken as it is. */
  lemma {:induction false} RangesMayBeReversed(buf: seq<byte>, p: Position, q: Position, text: seq<byte>)
    ensures Changed(buf, Splice(p, q, text)) == Changed(buf, Splice(q, p, text))
    ensures NotAfter(p, q) ==> Changed(buf, Splice(p, q, text)) == buf[..ByteOf(buf, p)] + text + buf[ByteOf(buf, q)..]
  {
    if NotAfter(p, q) {
      ByteOfIsMonotone(buf, p, q);
    }
  }
}
