/**
 Where a directive is inserted into an existing file, and what the file becomes.
 The destination may be in any order; the binary search runs over it all the same.
 */
module Merging {
  import opened Utf8

  datatype OrderKind = Ascending | Descending | Append

  /** A dated directive of the file: its date token's offset and the end of its last line. */
  datatype Existing = Existing(date: int, startOff: nat, endOff: nat)

  /** A directive to insert, with its rendered text. */
  datatype Insert = Insert(date: int, text: seq<byte>)

  /** Whether a date sorts before another; appending never reorders. */
  predicate LessByOrder(order: OrderKind, a: int, b: int) {
    match order
    case Descending => b < a
    case Append => false
    case Ascending => a < b
  }

  // ------------------------------------------------------------------ binary search

  /** The halving search between `lo` and `hi`; on an unordered predicate it still stops somewhere. */
  function Search(f: nat -> bool, lo: nat, hi: nat): (r: nat)
    requires lo <= hi
    ensures lo <= r <= hi
    decreases hi - lo
  {
    if lo == hi then lo
    else
      var mid := (lo + hi) / 2;
      if f(mid) then Search(f, lo, mid) else Search(f, mid + 1, hi)
  }

  /** If one predicate implies another, the weaker one is found no later, ordered or not. */
  lemma {:induction false} WeakerIsFoundEarlier(f: nat -> bool, g: nat -> bool, lo: nat, hi: nat)
    requires lo <= hi
    requires forall i :: lo <= i < hi && f(i) ==> g(i)
    ensures Search(g, lo, hi) <= Search(f, lo, hi)
    decreases hi - lo
  {
    if lo < hi {
      var mid := (lo + hi) / 2;
      if f(mid) {
        WeakerIsFoundEarlier(f, g, lo, mid);
      } else if !g(mid) {
        WeakerIsFoundEarlier(f, g, mid + 1, hi);
      }
    }
  }

  /** On an ordered predicate the search finds the first index where it holds. */
  lemma {:induction false} SearchFindsTheFirst(f: nat -> bool, lo: nat, hi: nat)
    requires lo <= hi
    requires forall i, j :: lo <= i <= j < hi && f(i) ==> f(j)
    ensures var r := Search(f, lo, hi);
            && (forall i :: lo <= i < r ==> !f(i))
            && (forall i :: r <= i < hi ==> f(i))
    decreases hi - lo
  {
    if lo < hi {
      var mid := (lo + hi) / 2;
      if f(mid) {
        SearchFindsTheFirst(f, lo, mid);
      } else {
        SearchFindsTheFirst(f, mid + 1, hi);
      }
    }
  }

  // ------------------------------------------------------------------ target offsets

  /** Whether existing directive `i` belongs after an insert of that date. */
  function Later(existing: seq<Existing>, date: int, order: OrderKind): nat -> bool {
    (i: nat) => i < |existing| && LessByOrder(order, date, existing[i].date)
  }

  /** How many existing directives stay before the insert. */
  function Rank(existing: seq<Existing>, date: int, order: OrderKind): (r: nat)
    ensures r <= |existing|
  {
    Search(Later(existing, date, order), 0, |existing|)
  }

  function OffsetAt(existing: seq<Existing>, idx: nat): nat
    requires idx <= |existing| && existing != []
  {
    if idx == 0 then existing[0].startOff else existing[idx - 1].endOff
  }

  function TargetOffset(existing: seq<Existing>, date: int, order: OrderKind, fileLen: nat): nat {
    if order == Append || existing == [] then fileLen
    else OffsetAt(existing, Rank(existing, date, order))
  }

  /** What indexing a file guarantees: directives in text order, none empty, each ending where its line does. */
  ghost predicate WellPlaced(existing: seq<Existing>, fileLen: nat) {
    && (forall i :: 0 <= i < |existing| ==> existing[i].startOff < existing[i].endOff <= fileLen)
    && (forall i, j :: 0 <= i < j < |existing| ==>
          existing[i].startOff < existing[j].startOff && existing[i].endOff <= existing[j].endOff)
  }

  lemma {:induction false} OffsetInBounds(existing: seq<Existing>, date: int, order: OrderKind, fileLen: nat)
    requires WellPlaced(existing, fileLen)
    ensures TargetOffset(existing, date, order, fileLen) <= fileLen
  {
  }

  /** Offsets follow the order of dates, even when the file itself is not in that order. */
  lemma {:induction false} OffsetsFollowDates(existing: seq<Existing>, d1: int, d2: int, order: OrderKind, fileLen: nat)
    requires WellPlaced(existing, fileLen) && !LessByOrder(order, d2, d1)
    ensures TargetOffset(existing, d1, order, fileLen) <= TargetOffset(existing, d2, order, fileLen)
  {
    if order != Append && existing != [] {
      var f, g := Later(existing, d2, order), Later(existing, d1, order);
      assert forall i: nat :: f(i) ==> g(i);
      WeakerIsFoundEarlier(f, g, 0, |existing|);
      OffsetsFollowRanks(existing, Rank(existing, d1, order), Rank(existing, d2, order), fileLen);
    }
  }

  lemma {:induction false} OffsetsFollowRanks(existing: seq<Existing>, a: nat, b: nat, fileLen: nat)
    requires WellPlaced(existing, fileLen) && existing != [] && a <= b <= |existing|
    ensures OffsetAt(existing, a) <= OffsetAt(existing, b)
  {
    if a == 0 < b {
      assert existing[0].startOff < existing[0].endOff <= existing[b - 1].endOff;
    }
  }

  // ------------------------------------------------------------------ stable sort of the inserts

  function InsertSorted(order: OrderKind, sorted: seq<Insert>, x: Insert): seq<Insert> {
    if sorted == [] then [x]
    else if LessByOrder(order, x.date, sorted[0].date) then [x] + sorted
    else [sorted[0]] + InsertSorted(order, sorted[1..], x)
  }

  /** The inserts by date, first come first served among equal dates. */
  function StableSorted(order: OrderKind, inserts: seq<Insert>): seq<Insert> {
    if inserts == [] then []
    else
      var last := |inserts| - 1;
      InsertSorted(order, StableSorted(order, inserts[..last]), inserts[last])
  }

  /** The inserts of one date, in order. */
  function OfDate(inserts: seq<Insert>, date: int): seq<Insert> {
    if inserts == [] then []
    else (if inserts[0].date == date then [inserts[0]] else []) + OfDate(inserts[1..], date)
  }

  lemma {:induction false} OfDateSplit(a: seq<Insert>, b: seq<Insert>, date: int)
    ensures OfDate(a + b, date) == OfDate(a, date) + OfDate(b, date)
  {
    if a == [] {
      assert a + b == b;
    } else {
      OfDateSplit(a[1..], b, date);
      HeadAndTail(a, b);
      Associate(if a[0].date == date then [a[0]] else [], OfDate(a[1..], date), OfDate(b, date));
    }
  }

  lemma {:induction false} HeadAndTail(a: seq<Insert>, b: seq<Insert>)
    requires a != []
    ensures (a + b)[0] == a[0] && (a + b)[1..] == a[1..] + b
  {
  }

  lemma {:induction false} Associate(a: seq<Insert>, b: seq<Insert>, c: seq<Insert>)
    ensures a + (b + c) == (a + b) + c
  {
  }

  ghost predicate Ordered(order: OrderKind, inserts: seq<Insert>) {
    forall i, j :: 0 <= i < j < |inserts| ==> !LessByOrder(order, inserts[j].date, inserts[i].date)
  }

  lemma {:induction false} InsertSortedLaws(order: OrderKind, sorted: seq<Insert>, x: Insert)
    requires Ordered(order, sorted)
    ensures Ordered(order, InsertSorted(order, sorted, x))
    ensures multiset(InsertSorted(order, sorted, x)) == multiset(sorted) + multiset{x}
    ensures forall i :: i in InsertSorted(order, sorted, x) ==> i == x || i in sorted
  {
    if sorted != [] {
      var h, t := sorted[0], sorted[1..];
      assert sorted == [h] + t;
      if !LessByOrder(order, x.date, h.date) {
        assert forall k :: 0 <= k < |t| ==> t[k] == sorted[k + 1];
        InsertSortedLaws(order, t, x);
        var r := InsertSorted(order, t, x);
        PrependOrdered(order, h, r, t, x);
      }
    }
  }

  lemma {:induction false} PrependOrdered(order: OrderKind, h: Insert, r: seq<Insert>, t: seq<Insert>, x: Insert)
    requires Ordered(order, r) && Ordered(order, [h] + t) && !LessByOrder(order, x.date, h.date)
    requires forall i :: i in r ==> i == x || i in t
    ensures Ordered(order, [h] + r)
  {
    forall k | 0 <= k < |r| ensures !LessByOrder(order, r[k].date, h.date) {
      assert r[k] in r;
      if r[k] != x {
        var j :| 0 <= j < |t| && t[j] == r[k];
        assert ([h] + t)[j + 1] == r[k] && ([h] + t)[0] == h;
      }
    }
  }

  lemma {:induction false} InsertSortedIsStable(order: OrderKind, sorted: seq<Insert>, x: Insert, date: int)
    requires order != Append && Ordered(order, sorted)
    ensures OfDate(InsertSorted(order, sorted, x), date) == OfDate(sorted + [x], date)
  {
    if sorted == [] {
      assert sorted + [x] == [x];
    } else {
      var h, t := sorted[0], sorted[1..];
      assert sorted == [h] + t && (sorted + [x])[1..] == t + [x];
      if LessByOrder(order, x.date, h.date) {
        NoneOfDate(order, sorted, x.date);
        OfDateSplit(sorted, [x], date);
        OfDateSplit([x], sorted, date);
      } else {
        assert forall k :: 0 <= k < |t| ==> t[k] == sorted[k + 1];
        InsertSortedIsStable(order, t, x, date);
        assert ([h] + InsertSorted(order, t, x))[1..] == InsertSorted(order, t, x);
      }
    }
  }

  /** Past the place of a date, no insert has it. */
  lemma {:induction false} NoneOfDate(order: OrderKind, sorted: seq<Insert>, date: int)
    requires order != Append && Ordered(order, sorted) && sorted != [] && LessByOrder(order, date, sorted[0].date)
    ensures OfDate(sorted, date) == []
  {
    var t := sorted[1..];
    if t != [] {
      assert forall k :: 0 <= k < |t| ==> t[k] == sorted[k + 1];
      NoneOfDate(order, t, date);
    }
  }

  /** The sort permutes the inserts, orders their dates, and keeps those of one date as they came. */
  lemma {:induction false} StableSortLaws(order: OrderKind, inserts: seq<Insert>)
    ensures Ordered(order, StableSorted(order, inserts))
    ensures multiset(StableSorted(order, inserts)) == multiset(inserts)
    ensures forall date :: order != Append ==> OfDate(StableSorted(order, inserts), date) == OfDate(inserts, date)
    ensures order == Append ==> StableSorted(order, inserts) == inserts
  {
    if inserts != [] {
      var last := |inserts| - 1;
      var front, x := inserts[..last], inserts[last];
      assert inserts == front + [x];
      StableSortLaws(order, front);
      InsertSortedLaws(order, StableSorted(order, front), x);
      if order == Append {
        AppendKeepsOrder(front, x);
      } else {
        forall date ensures OfDate(StableSorted(order, inserts), date) == OfDate(inserts, date) {
          InsertSortedIsStable(order, StableSorted(order, front), x, date);
          OfDateSplit(StableSorted(order, front), [x], date);
          OfDateSplit(front, [x], date);
        }
      }
    }
  }

  lemma {:induction false} AppendKeepsOrder(sorted: seq<Insert>, x: Insert)
    ensures InsertSorted(Append, sorted, x) == sorted + [x]
  {
    if sorted != [] {
      AppendKeepsOrder(sorted[1..], x);
    }
  }
}
