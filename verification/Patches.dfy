/**
 Composing the merged file: the original bytes, untouched and in order, with the text
 of each patch spliced in, and the blank lines that separate it from its neighbours.
 */
module Patches {
  import opened Prelude
  import opened Utf8

  /** The text inserted at one offset, with what separates it from the text on either side. */
  datatype Patch = Patch(offset: nat, leading: seq<byte>, body: seq<byte>, trailing: seq<byte>)
  {
    function Text(): seq<byte> {
      leading + body + trailing
    }
  }

  /** Patches in text order, within bounds, none before `from`. */
  ghost predicate InBounds(patches: seq<Patch>, from: nat, fileLen: nat) {
    && (forall i :: 0 <= i < |patches| ==> from <= patches[i].offset <= fileLen)
    && (forall i, j :: 0 <= i <= j < |patches| ==> patches[i].offset <= patches[j].offset)
  }

  lemma {:induction false} RestInBounds(patches: seq<Patch>, from: nat, fileLen: nat)
    requires InBounds(patches, from, fileLen) && patches != []
    ensures InBounds(patches[1..], patches[0].offset, fileLen)
  {
    assert forall i :: 0 <= i < |patches[1..]| ==> patches[1..][i] == patches[i + 1];
  }

  /** The data from `cursor` on with every patch put in at its offset. */
  ghost function Spliced(data: seq<byte>, cursor: nat, patches: seq<Patch>): seq<byte>
    requires cursor <= |data| && InBounds(patches, cursor, |data|)
    decreases |patches|
  {
    if patches == [] then data[cursor..]
    else
      RestInBounds(patches, cursor, |data|);
      data[cursor..patches[0].offset] + patches[0].Text() + Spliced(data, patches[0].offset, patches[1..])
  }

  /** `out` with the text of the patches cut out again, going by offsets and lengths alone. */
  function Erased(out: seq<byte>, cursor: nat, patches: seq<Patch>): Option<seq<byte>>
    decreases |patches|
  {
    if patches == [] then Some(out)
    else
      var p := patches[0];
      var size := |p.Text()|;
      if p.offset < cursor || p.offset - cursor + size > |out| then None
      else
        match Erased(out[p.offset - cursor + size..], p.offset, patches[1..])
        case None => None
        case Some(rest) => Some(out[..p.offset - cursor] + rest)
  }

  /** Where patch `k` starts in the merged file. */
  function StartOf(patches: seq<Patch>, k: nat): nat
    requires k < |patches|
  {
    patches[k].offset + SizeBefore(patches, k)
  }

  function SizeBefore(patches: seq<Patch>, k: nat): nat
    requires k <= |patches|
  {
    if k == 0 then 0 else SizeBefore(patches, k - 1) + |patches[k - 1].Text()|
  }

  /** Cutting the inserted texts out of the merged file gives back every original byte. */
  lemma {:induction false} ErasingRestores(data: seq<byte>, cursor: nat, patches: seq<Patch>)
    requires cursor <= |data| && InBounds(patches, cursor, |data|)
    ensures Erased(Spliced(data, cursor, patches), cursor, patches) == Some(data[cursor..])
    decreases |patches|
  {
    if patches != [] {
      RestInBounds(patches, cursor, |data|);
      var p := patches[0];
      var rest := Spliced(data, p.offset, patches[1..]);
      CutOnce(data[cursor..p.offset], p.Text(), rest);
      ErasingRestores(data, p.offset, patches[1..]);
      assert data[cursor..p.offset] + data[p.offset..] == data[cursor..];
    }
  }

  lemma {:induction false} CutOnce(front: seq<byte>, text: seq<byte>, rest: seq<byte>)
    ensures (front + text + rest)[|front| + |text|..] == rest
    ensures (front + text + rest)[..|front|] == front
    ensures (front + text + rest)[|front|..|front| + |text|] == text
  {
  }

  lemma {:induction false} SizeOfRest(patches: seq<Patch>, k: nat)
    requires patches != [] && k < |patches|
    ensures SizeBefore(patches, k + 1) == |patches[0].Text()| + SizeBefore(patches[1..], k)
  {
    if k > 0 {
      SizeOfRest(patches, k - 1);
    }
  }

  /** Each patch's text stands whole in the merged file, moved only by the texts before it. */
  lemma {:induction false} PatchStands(data: seq<byte>, cursor: nat, patches: seq<Patch>, k: nat)
    requires cursor <= |data| && InBounds(patches, cursor, |data|) && k < |patches|
    ensures TextStandsAt(patches[k].Text(), Spliced(data, cursor, patches), StartOf(patches, k) - cursor)
    decreases |patches|
  {
    SplicedInThree(data, cursor, patches);
    if k == 0 {
      StandsInMiddle(data[cursor..patches[0].offset], patches[0].Text(), Spliced(data, patches[0].offset, patches[1..]));
    } else {
      PatchStands(data, patches[0].offset, patches[1..], k - 1);
      LaterStands(data, cursor, patches, k);
    }
  }

  lemma {:induction false} LaterStands(data: seq<byte>, cursor: nat, patches: seq<Patch>, k: nat)
    requires 0 < k < |patches| && cursor <= patches[0].offset <= |data| && InBounds(patches[1..], patches[0].offset, |data|)
    requires TextStandsAt(patches[1..][k - 1].Text(), Spliced(data, patches[0].offset, patches[1..]), StartOf(patches[1..], k - 1) - patches[0].offset)
    ensures TextStandsAt(patches[k].Text(),
                         data[cursor..patches[0].offset] + patches[0].Text() + Spliced(data, patches[0].offset, patches[1..]),
                         StartOf(patches, k) - cursor)
  {
    var at := patches[0].offset;
    var front, text, rest := data[cursor..at], patches[0].Text(), Spliced(data, at, patches[1..]);
    StartOfRest(patches, k);
    StandsBehind(patches[k].Text(), rest, StartOf(patches[1..], k - 1) - at, front + text);
    assert |front + text| == at - cursor + |text|;
  }

  lemma {:induction false} StartOfRest(patches: seq<Patch>, k: nat)
    requires 0 < k < |patches|
    ensures StartOf(patches, k) == |patches[0].Text()| + StartOf(patches[1..], k - 1) && patches[k] == patches[1..][k - 1]
  {
    SizeOfRest(patches, k - 1);
  }

  /** The text is found at `start` of `out`. */
  predicate TextStandsAt(text: seq<byte>, out: seq<byte>, start: int) {
    0 <= start && start + |text| <= |out| && out[start..start + |text|] == text
  }

  lemma {:induction false} StandsInMiddle(front: seq<byte>, text: seq<byte>, rest: seq<byte>)
    ensures TextStandsAt(text, front + text + rest, |front|)
  {
  }

  lemma {:induction false} StandsBehind(text: seq<byte>, rest: seq<byte>, start: int, front: seq<byte>)
    requires TextStandsAt(text, rest, start)
    ensures TextStandsAt(text, front + rest, |front| + start)
  {
  }

  /** How far the texts put in at or before an offset move what stood there. */
  function Shift(patches: seq<Patch>, offset: nat): nat {
    if patches == [] || offset < patches[0].offset then 0 else |patches[0].Text()| + Shift(patches[1..], offset)
  }

  /** A byte of the data before a text put in at `at`, or of what comes after it. */
  lemma {:induction false} OneByteStands(front: seq<byte>, text: seq<byte>, rest: seq<byte>, data: seq<byte>,
                                         cursor: nat, at: nat, shift: nat, o: nat)
    requires cursor <= at <= |data| && cursor <= o < |data| && front == data[cursor..at]
    requires at <= o ==> StandsAt(data, o, rest, o - at + shift)
    ensures StandsAt(data, o, front + text + rest, if at <= o then o - cursor + (|text| + shift) else o - cursor)
  {
  }

  lemma {:induction false} SplicedInThree(data: seq<byte>, cursor: nat, patches: seq<Patch>)
    requires cursor <= |data| && InBounds(patches, cursor, |data|) && patches != []
    ensures cursor <= patches[0].offset <= |data| && InBounds(patches[1..], patches[0].offset, |data|)
    ensures Spliced(data, cursor, patches)
            == data[cursor..patches[0].offset] + patches[0].Text() + Spliced(data, patches[0].offset, patches[1..])
  {
    RestInBounds(patches, cursor, |data|);
  }

  /** Byte `o` of the data is byte `i` of `out`. */
  predicate StandsAt(data: seq<byte>, o: nat, out: seq<byte>, i: int)
    requires o < |data|
  {
    0 <= i < |out| && out[i] == data[o]
  }

  /** Every byte of the file stands where the texts before it have moved it. */
  lemma {:induction false} BytesStand(data: seq<byte>, cursor: nat, patches: seq<Patch>, o: nat)
    requires cursor <= o < |data| && InBounds(patches, cursor, |data|)
    ensures StandsAt(data, o, Spliced(data, cursor, patches), o - cursor + Shift(patches, o))
    decreases |patches|
  {
    if patches != [] {
      SplicedInThree(data, cursor, patches);
      var at, later := patches[0].offset, patches[1..];
      if at <= o {
        BytesStand(data, at, later, o);
      }
      OneByteStands(data[cursor..at], patches[0].Text(), Spliced(data, at, later), data, cursor, at, Shift(later, o), o);
    }
  }

  /** A text stands before a byte of the file exactly when it goes to that byte's offset or an earlier one. */
  lemma {:induction false} TextsStandBetween(patches: seq<Patch>, cursor: nat, fileLen: nat, k: nat, o: nat)
    requires InBounds(patches, cursor, fileLen) && k < |patches|
    ensures if patches[k].offset <= o then StartOf(patches, k) + |patches[k].Text()| <= o + Shift(patches, o)
            else o + Shift(patches, o) < StartOf(patches, k)
    decreases |patches|
  {
    RestInBounds(patches, cursor, fileLen);
    if o < patches[0].offset {
      assert patches[0].offset <= patches[k].offset;
    } else if k > 0 {
      TextsStandBetween(patches[1..], patches[0].offset, fileLen, k - 1, o);
      SizeOfRest(patches, k - 1);
    }
  }

  method ApplyPatches(data: seq<byte>, patches: seq<Patch>) returns (out: seq<byte>)
    requires InBounds(patches, 0, |data|)
    ensures out == Spliced(data, 0, patches)
  {
    if |patches| == 0 { return data; }
    out := [];
    var cursor: nat := 0;
    for i := 0 to |patches|
      invariant cursor <= |data| && InBounds(patches[i..], cursor, |data|)
      invariant out + Spliced(data, cursor, patches[i..]) == Spliced(data, 0, patches)
    {
      var p := patches[i];
      ghost var before := out;
      RestInBounds(patches[i..], cursor, |data|);
      assert patches[i..][1..] == patches[i + 1..];
      out := out + data[cursor..p.offset];
      out := out + p.leading;
      out := out + p.body;
      out := out + p.trailing;
      Regroup(before, data[cursor..p.offset], p, Spliced(data, p.offset, patches[i + 1..]));
      cursor := p.offset;
    }
    out := out + data[cursor..];
  }

  lemma {:induction false} Regroup(out: seq<byte>, front: seq<byte>, p: Patch, rest: seq<byte>)
    ensures out + front + p.leading + p.body + p.trailing + rest == out + (front + p.Text() + rest)
  {
  }

  // ------------------------------------------------------------------ blank lines

  function Newlines(n: nat): (r: seq<byte>)
    ensures |r| == n && forall i :: 0 <= i < n ==> r[i] == '\n'
  {
    if n == 0 then [] else ['\n'] + Newlines(n - 1)
  }

  /** The newlines contributed on one side: as many as are missing to `n`, if any are wanted. */
  function PaddingFor(b: bool, n: int, x: nat): seq<byte> {
    if !b || n - x <= 0 then [] else Newlines(n - x)
  }

  /** The line terminators at the end of `b`, and where they start. */
  function TerminatorsAtEnd(b: seq<byte>, i: nat): (r: (nat, nat))
    requires i <= |b|
    ensures r.1 <= i
  {
    if i >= 2 && b[i - 2] == '\r' && b[i - 1] == '\n' then
      var (n, start) := TerminatorsAtEnd(b, i - 2);
      (n + 1, start)
    else if i >= 1 && b[i - 1] == '\n' then
      var (n, start) := TerminatorsAtEnd(b, i - 1);
      (n + 1, start)
    else (0, i)
  }

  /** Blank lines at the end: the first terminator belongs to the last line with content, if there is one. */
  function TrailingBlanks(b: seq<byte>): nat {
    var (n, start) := TerminatorsAtEnd(b, |b|);
    if n == 0 then 0 else if start == 0 then n else n - 1
  }

  function LeadingBlanks(b: seq<byte>, i: nat): nat
    requires i <= |b|
    decreases |b| - i
  {
    if i + 1 < |b| && b[i] == '\r' && b[i + 1] == '\n' then 1 + LeadingBlanks(b, i + 2)
    else if i < |b| && b[i] == '\n' then 1 + LeadingBlanks(b, i + 1)
    else 0
  }

  method CountTrailingBlanks(b: seq<byte>) returns (blanks: nat)
    ensures blanks == TrailingBlanks(b)
  {
    if |b| == 0 { return 0; }
    var terms: nat, i: nat := 0, |b|;
    while i > 0
      invariant i <= |b|
      invariant TerminatorsAtEnd(b, |b|) == (terms + TerminatorsAtEnd(b, i).0, TerminatorsAtEnd(b, i).1)
      decreases i
    {
      if i >= 2 && b[i - 2] == '\r' && b[i - 1] == '\n' {
        terms, i := terms + 1, i - 2;
      } else if b[i - 1] == '\n' {
        terms, i := terms + 1, i - 1;
      } else {
        break;
      }
    }
    if terms == 0 { return 0; }
    if i == 0 { return terms; }
    return terms - 1;
  }

  method CountLeadingBlanks(b: seq<byte>) returns (blanks: nat)
    ensures blanks == LeadingBlanks(b, 0)
  {
    blanks := 0;
    var i := 0;
    while i < |b|
      invariant i <= |b| && LeadingBlanks(b, 0) == blanks + LeadingBlanks(b, i)
      decreases |b| - i
    {
      if i + 1 < |b| && b[i] == '\r' && b[i + 1] == '\n' {
        blanks, i := blanks + 1, i + 2;
      } else if b[i] == '\n' {
        blanks, i := blanks + 1, i + 1;
      } else {
        break;
      }
    }
  }

  predicate EndsLine(b: seq<byte>) {
    b == [] || b[|b| - 1] == '\n'
  }

  lemma {:induction false} SameTerminators(a: seq<byte>, b: seq<byte>, i: nat)
    requires i <= |a| && a <= b
    ensures TerminatorsAtEnd(b, i) == TerminatorsAtEnd(a, i)
  {
    if i >= 2 && a[i - 2] == '\r' && a[i - 1] == '\n' {
      SameTerminators(a, b, i - 2);
    } else if i >= 1 && a[i - 1] == '\n' {
      SameTerminators(a, b, i - 1);
    }
  }

  /** More newlines at the end are more terminators, unless the first joins a carriage return. */
  lemma {:induction false} NewlinesTerminate(b: seq<byte>, n: nat)
    requires b == [] || b[|b| - 1] != '\r'
    ensures var (t, start) := TerminatorsAtEnd(b, |b|); TerminatorsAtEnd(b + Newlines(n), |b| + n) == (t + n, start)
    decreases n
  {
    var all := b + Newlines(n);
    if n == 0 {
      assert all == b;
    } else {
      NewlinesTerminate(b, n - 1);
      OneMoreNewline(b, n);
      SameTerminators(b + Newlines(n - 1), all, |b| + n - 1);
    }
  }

  lemma {:induction false} OneMoreNewline(b: seq<byte>, n: nat)
    requires n > 0 && (b == [] || b[|b| - 1] != '\r')
    ensures var all := b + Newlines(n);
            && b + Newlines(n - 1) <= all && all[|b| + n - 1] == '\n'
            && (|b| + n >= 2 ==> all[|b| + n - 2] != '\r')
  {
    assert Newlines(n - 1) <= Newlines(n);
  }

  lemma {:induction false} EndsOf(b: seq<byte>)
    ensures var (t, start) := TerminatorsAtEnd(b, |b|);
            && (b == [] ==> t == 0 == start)
            && (b != [] && b[|b| - 1] == '\n' ==> t > 0)
            && (b != [] && b[|b| - 1] != '\n' ==> t == 0 && start == |b|)
  {
  }

  /** The terminators at the end once newlines follow. */
  lemma {:induction false} TerminatorsAfter(before: seq<byte>, k: nat)
    requires before == [] || before[|before| - 1] != '\r'
    ensures var (t, start) := TerminatorsAtEnd(before, |before|);
            TerminatorsAtEnd(before + Newlines(k), |before + Newlines(k)|) == (t + k, start)
  {
    NewlinesTerminate(before, k);
  }

  /** After a carriage return the first newline only completes it. */
  lemma {:induction false} TerminatorsAfterReturn(before: seq<byte>, c: seq<byte>, k: nat)
    requires before == c + ['\r'] && k > 0
    ensures var (t, start) := TerminatorsAtEnd(c, |c|);
            TerminatorsAtEnd(before + Newlines(k), |before + Newlines(k)|) == (t + k, start)
  {
    var joined := before + ['\n'];
    assert before + Newlines(k) == joined + Newlines(k - 1);
    SameTerminators(c, joined, |c|);
    TerminatorsAfter(joined, k - 1);
  }

  lemma {:induction false} LeadingNewlines(n: nat, rest: seq<byte>)
    ensures LeadingBlanks(Newlines(n) + rest, 0) == n + LeadingBlanks(rest, 0)
  {
    LeadingFrom(n, rest, 0);
    LeadingShift(Newlines(n), rest, 0);
  }

  lemma {:induction false} LeadingFrom(n: nat, rest: seq<byte>, i: nat)
    requires i <= n
    ensures LeadingBlanks(Newlines(n) + rest, i) == n - i + LeadingBlanks(Newlines(n) + rest, n)
    decreases n - i
  {
    if i < n {
      LeadingFrom(n, rest, i + 1);
      assert (Newlines(n) + rest)[i] == '\n';
    }
  }

  lemma {:induction false} LeadingShift(front: seq<byte>, rest: seq<byte>, i: nat)
    requires i <= |rest|
    ensures LeadingBlanks(front + rest, |front| + i) == LeadingBlanks(rest, i)
    decreases |rest| - i
  {
    if i + 1 < |rest| && rest[i] == '\r' && rest[i + 1] == '\n' {
      LeadingShift(front, rest, i + 2);
    } else if i < |rest| && rest[i] == '\n' {
      LeadingShift(front, rest, i + 1);
    }
  }
}
