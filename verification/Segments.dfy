/**
 Token sequences that tile the source: every token is the one the scanner finds
 where the previous one ended, apart from empty tokens that error recovery made up.

 The scanner enters as a function from an offset to the token there and the offset
 after it, so that a proof about token sequences need not look into the scanning.
 */
module Segments {
  import opened Utf8
  import opened Syntax
  import opened Scanning

  type Source = nat -> (Token, nat)

  /** A reminder to look at what the source yields at `o`. */
  predicate Recall(o: nat) { true }

  /** `scan` yields the tokens of `src`. */
  ghost predicate Faithful(scan: Source, u: Alphabet, src: seq<byte>) {
    forall o: nat {:trigger Recall(o)} :: Recall(o) && o <= |src| ==> scan(o) == ScanAt(u, src, o)
  }

  function SourceOf(u: Alphabet, src: seq<byte>): Source {
    (o: nat) => if o <= |src| then ScanAt(u, src, o) else (MadeUp(o), o)
  }

  lemma {:induction false} SourceIsFaithful(u: Alphabet, src: seq<byte>)
    ensures Faithful(SourceOf(u, src), u, src)
  {
  }

  /** A token made up in place of a missing one. */
  function MadeUp(pos: nat): Token {
    Token(ILLEGAL, pos, [], [], [])
  }

  predicate IsMadeUp(t: Token) {
    t == MadeUp(t.pos)
  }

  predicate Fits(scan: Source, t: Token, a: nat) {
    if IsMadeUp(t) then t.pos == scan(a).0.pos else t == scan(a).0
  }

  /** Where the token after `t` starts. */
  function EndOf(scan: Source, t: Token, a: nat): nat {
    if IsMadeUp(t) then a else scan(a).1
  }

  /**
   `ts` are the tokens from offset `a` to offset `b` of the source. A made-up token
   stands where the next token does and takes no text; scanning at the end of the
   source goes on yielding empty end tokens.
   */
  predicate Segment(scan: Source, ts: seq<Token>, a: nat, b: nat)
    decreases |ts|
  {
    if ts == [] then a == b else Fits(scan, ts[0], a) && Segment(scan, ts[1..], EndOf(scan, ts[0], a), b)
  }

  lemma {:induction false} SegmentCons(scan: Source, t: Token, rest: seq<Token>, a: nat, c: nat)
    requires Fits(scan, t, a) && Segment(scan, rest, EndOf(scan, t, a), c)
    ensures Segment(scan, [t] + rest, a, c)
  {
    var ts := [t] + rest;
    assert ts[0] == t && ts[1..] == rest;
  }

  lemma {:induction false} HeadFirst(xs: seq<Token>, ys: seq<Token>)
    requires xs != []
    ensures xs + ys == [xs[0]] + (xs[1..] + ys)
  {
  }

  lemma {:induction false} SegmentsJoin(scan: Source, xs: seq<Token>, a: nat, b: nat, ys: seq<Token>, c: nat)
    requires Segment(scan, xs, a, b) && Segment(scan, ys, b, c)
    ensures Segment(scan, xs + ys, a, c)
    decreases |xs|
  {
    if xs == [] {
      assert xs + ys == ys;
    } else {
      SegmentsJoin(scan, xs[1..], EndOf(scan, xs[0], a), b, ys, c);
      SegmentCons(scan, xs[0], xs[1..] + ys, a, c);
      HeadFirst(xs, ys);
    }
  }

  // ------------------------------------------------------------------ segments of a source text

  /** The text of a segment is the source between its ends. */
  lemma {:induction false} SegmentText(u: Alphabet, src: seq<byte>, scan: Source, ts: seq<Token>, a: nat, b: nat)
    requires Faithful(scan, u, src) && Segment(scan, ts, a, b) && a <= |src|
    ensures a <= b <= |src| && TextOf(ts) == src[a..b]
    decreases |ts|
  {
    if ts != [] {
      assert Recall(a);
      SegmentText(u, src, scan, ts[1..], EndOf(scan, ts[0], a), b);
      if IsMadeUp(ts[0]) {
        assert ts[0].Text() == [];
      } else {
        ScannedTextIsSource(u, src, a);
        Adjacent(src, a, scan(a).1, b);
      }
    }
  }

  /** Every token of a segment, made up or not, has its text at its position. */
  lemma {:induction false} SegmentPositions(u: Alphabet, src: seq<byte>, scan: Source, ts: seq<Token>, a: nat, b: nat, t: Token)
    requires Faithful(scan, u, src) && Segment(scan, ts, a, b) && a <= |src| && t in ts
    ensures t.pos + |t.raw| <= |src| && t.raw == src[t.pos..t.pos + |t.raw|]
    decreases |ts|
  {
    assert Recall(a);
    ScannedTextIsSource(u, src, a);
    if ts[0] != t {
      SegmentPositions(u, src, scan, ts[1..], EndOf(scan, ts[0], a), b, t);
    }
  }

  // ------------------------------------------------------------------ the stream of tokens

  /** `ts` are the tokens from `a` up to the end token. */
  predicate Streams(scan: Source, a: nat, ts: seq<Token>)
    decreases |ts|
  {
    && |ts| > 0 && ts[0] == scan(a).0
    && if |ts| == 1 then ts[0].kind == EOF else ts[0].kind != EOF && Streams(scan, scan(a).1, ts[1..])
  }

  /** The scanner's own sequence of tokens from `a`, up to the end token. */
  function Stream(u: Alphabet, src: seq<byte>, a: nat): seq<Token>
    requires a <= |src|
    decreases |src| - a
  {
    var (t, end) := ScanAt(u, src, a);
    if t.kind == EOF then [t] else [t] + Stream(u, src, end)
  }

  lemma {:induction false} StreamStreams(u: Alphabet, src: seq<byte>, scan: Source, a: nat)
    requires Faithful(scan, u, src) && a <= |src|
    ensures Streams(scan, a, Stream(u, src, a))
    decreases |src| - a
  {
    assert Recall(a);
    var (t, end) := ScanAt(u, src, a);
    if t.kind != EOF {
      StreamStreams(u, src, scan, end);
      var ts := [t] + Stream(u, src, end);
      assert ts[1..] == Stream(u, src, end);
    }
  }

  function Scanned(ts: seq<Token>): seq<Token> {
    if ts == [] then []
    else (if IsMadeUp(ts[0]) then [] else [ts[0]]) + Scanned(ts[1..])
  }

  /** The token that scanning past the end yields. */
  function EndToken(src: seq<byte>): Token {
    Token(EOF, |src|, [], [], [])
  }

  predicate OnlyEnds(src: seq<byte>, ts: seq<Token>) {
    forall i :: 0 <= i < |ts| ==> ts[i] == EndToken(src)
  }

  lemma {:induction false} OnlyEndTokens(u: Alphabet, src: seq<byte>, scan: Source, ts: seq<Token>, b: nat)
    requires Faithful(scan, u, src) && Segment(scan, ts, |src|, b)
    ensures OnlyEnds(src, Scanned(ts))
    decreases |ts|
  {
    if ts != [] {
      assert Recall(|src|);
      assert ScanAt(u, src, |src|) == (EndToken(src), |src|);
      OnlyEndTokens(u, src, scan, ts[1..], b);
    }
  }

  /**
   A segment that reaches past the end token holds every token of the scanner's
   sequence exactly once and in order, then nothing but empty end tokens.
   */
  lemma {:induction false} SegmentIsStream(u: Alphabet, src: seq<byte>, scan: Source, ts: seq<Token>, a: nat, b: nat)
    requires Faithful(scan, u, src) && Segment(scan, ts, a, b) && a <= |src|
    requires exists t :: t in ts && t.kind == EOF
    ensures var found, stream := Scanned(ts), Stream(u, src, a);
            stream <= found && OnlyEnds(src, found[|stream|..])
    decreases |ts|
  {
    assert Recall(a);
    var t :| t in ts && t.kind == EOF;
    var rest := Scanned(ts[1..]);
    if IsMadeUp(ts[0]) {
      SegmentIsStream(u, src, scan, ts[1..], a, b);
      assert Scanned(ts) == rest;
    } else {
      var (head, end) := ScanAt(u, src, a);
      if head.kind == EOF {
        OnlyEndTokens(u, src, scan, ts[1..], b);
        assert Scanned(ts)[1..] == rest;
      } else {
        assert t in ts[1..];
        SegmentIsStream(u, src, scan, ts[1..], end, b);
        OneMoreScanned(head, rest, Stream(u, src, end));
      }
    }
  }

  lemma {:induction false} OneMoreScanned(head: Token, rest: seq<Token>, stream: seq<Token>)
    requires stream <= rest
    ensures [head] + stream <= [head] + rest && ([head] + rest)[|[head] + stream|..] == rest[|stream|..]
  {
  }
}
