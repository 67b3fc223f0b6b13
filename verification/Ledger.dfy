/**
 The ledger: directives in a total order in which a running number breaks all ties.
 */
module Ledgers {
  /** `rest` stands for all that does not bear on the order; a date of 0 means no date. */
  datatype Directive = Directive(date: int, kind: int, filename: string, offset: int, rest: int)

  datatype Key = Key(date: int, kind: int, filename: string, offset: int, number: nat)

  datatype Entry = Entry(dir: Directive, key: Key)

  function KeyOf(d: Directive, number: nat): Key {
    Key(d.date, d.kind, d.filename, d.offset, number)
  }

  function CompareInts(a: int, b: int): int {
    if a < b then -1 else if a > b then 1 else 0
  }

  function CompareStrings(a: string, b: string): int {
    if a == [] || b == [] then CompareInts(|a|, |b|)
    else if a[0] != b[0] then CompareInts(a[0] as int, b[0] as int)
    else CompareStrings(a[1..], b[1..])
  }

  /** Negative, zero or positive as `a` is before, equal to or after `b`. */
  function Compare(a: Key, b: Key): int {
    if a.date != b.date then CompareInts(a.date, b.date)
    else if a.kind != b.kind then CompareInts(a.kind, b.kind)
    else if CompareStrings(a.filename, b.filename) != 0 then CompareStrings(a.filename, b.filename)
    else if a.offset != b.offset then CompareInts(a.offset, b.offset)
    else CompareInts(a.number, b.number)
  }

  lemma {:induction false} StringsAreOrdered(a: string, b: string)
    ensures CompareStrings(a, b) == -CompareStrings(b, a)
    ensures CompareStrings(a, b) == 0 <==> a == b
  {
    if a != [] && b != [] && a[0] == b[0] {
      StringsAreOrdered(a[1..], b[1..]);
      assert a == [a[0]] + a[1..] && b == [b[0]] + b[1..];
    }
  }

  lemma {:induction false} StringsAreTransitive(a: string, b: string, c: string)
    requires CompareStrings(a, b) <= 0 && CompareStrings(b, c) <= 0
    ensures CompareStrings(a, c) <= 0
    ensures CompareStrings(a, b) < 0 || CompareStrings(b, c) < 0 ==> CompareStrings(a, c) < 0
  {
    if a != [] && b != [] && c != [] && a[0] == b[0] == c[0] {
      StringsAreTransitive(a[1..], b[1..], c[1..]);
    }
  }

  /** The keys are totally ordered and equal only when all their parts are. */
  lemma {:induction false} KeysAreTotallyOrdered(a: Key, b: Key, c: Key)
    ensures Compare(a, b) == -Compare(b, a)
    ensures Compare(a, b) == 0 <==> a == b
    ensures Compare(a, b) < 0 && Compare(b, c) < 0 ==> Compare(a, c) < 0
  {
    StringsAreOrdered(a.filename, b.filename);
    if CompareStrings(a.filename, b.filename) <= 0 && CompareStrings(b.filename, c.filename) <= 0 {
      StringsAreTransitive(a.filename, b.filename, c.filename);
    }
  }

  predicate Before(a: Entry, b: Entry) {
    Compare(a.key, b.key) < 0
  }

  ghost predicate Sorted(es: seq<Entry>) {
    forall i, j :: 0 <= i < j < |es| ==> Before(es[i], es[j])
  }

  /** The entries in strict order, each under the key of its directive and a number given out before. */
  ghost predicate InOrder(es: seq<Entry>, next: nat) {
    Sorted(es) && forall e :: e in es ==> e.key.number < next && e.key == KeyOf(e.dir, e.key.number)
  }

  // ------------------------------------------------------------------ one insertion

  /** The first place whose entry is not before `e`. */
  function Place(es: seq<Entry>, e: Entry): (i: nat)
    ensures i <= |es| && (forall k :: 0 <= k < i ==> Before(es[k], e)) && (i < |es| ==> !Before(es[i], e))
  {
    if es == [] || !Before(es[0], e) then 0 else 1 + Place(es[1..], e)
  }

  function Put(es: seq<Entry>, e: Entry): seq<Entry> {
    es[..Place(es, e)] + [e] + es[Place(es, e)..]
  }

  lemma {:induction false} PutAdds(es: seq<Entry>, e: Entry)
    ensures multiset(Put(es, e)) == multiset(es) + multiset{e}
  {
    assert es == es[..Place(es, e)] + es[Place(es, e)..];
  }

  lemma {:induction false} PutMembers(es: seq<Entry>, e: Entry)
    ensures forall x :: x in Put(es, e) <==> x in es || x == e
  {
    assert es == es[..Place(es, e)] + es[Place(es, e)..];
  }

  lemma {:induction false} PutSorts(es: seq<Entry>, e: Entry)
    requires Sorted(es) && forall x :: x in es ==> x.key != e.key
    ensures Sorted(Put(es, e))
  {
    var i := Place(es, e);
    forall k | i <= k < |es| ensures Before(e, es[k]) {
      PlacedBefore(es, e, i, k);
    }
    InsertedSorted(es, e, i);
  }

  lemma {:induction false} InsertedSorted(es: seq<Entry>, e: Entry, i: nat)
    requires Sorted(es) && i <= |es|
    requires forall k :: 0 <= k < i ==> Before(es[k], e)
    requires forall k :: i <= k < |es| ==> Before(e, es[k])
    ensures Sorted(es[..i] + [e] + es[i..])
  {
  }

  lemma {:induction false} PutLaws(es: seq<Entry>, d: Directive, next: nat)
    requires InOrder(es, next)
    ensures var r := Put(es, Entry(d, KeyOf(d, next)));
            InOrder(r, next + 1) && multiset(r) == multiset(es) + multiset{Entry(d, KeyOf(d, next))}
  {
    PutAdds(es, Entry(d, KeyOf(d, next)));
    PutMembers(es, Entry(d, KeyOf(d, next)));
    PutSorts(es, Entry(d, KeyOf(d, next)));
  }

  lemma {:induction false} PlacedBefore(es: seq<Entry>, e: Entry, i: nat, k: nat)
    requires Sorted(es) && i <= k < |es| && !Before(es[i], e) && (forall x :: x in es ==> x.key != e.key)
    ensures Before(e, es[k])
  {
    assert es[i] in es;
    KeysAreTotallyOrdered(e.key, es[i].key, es[k].key);
  }

  // ------------------------------------------------------------------ many insertions

  /** Inserting the directives one after another. */
  function PutAll(es: seq<Entry>, ds: seq<Directive>, next: nat): seq<Entry>
    decreases |ds|
  {
    if ds == [] then es else PutAll(Put(es, Entry(ds[0], KeyOf(ds[0], next))), ds[1..], next + 1)
  }

  /** The new entries, numbered in the order they come. */
  function Numbered(ds: seq<Directive>, next: nat): (r: seq<Entry>)
    ensures |r| == |ds|
  {
    seq(|ds|, i requires 0 <= i < |ds| => Entry(ds[i], KeyOf(ds[i], next + i)))
  }

  lemma {:induction false} PutAllKeepsOrder(es: seq<Entry>, ds: seq<Directive>, next: nat)
    requires InOrder(es, next)
    ensures InOrder(PutAll(es, ds, next), next + |ds|)
    decreases |ds|
  {
    if ds != [] {
      PutLaws(es, ds[0], next);
      PutAllKeepsOrder(Put(es, Entry(ds[0], KeyOf(ds[0], next))), ds[1..], next + 1);
    }
  }

  lemma {:induction false} NumberedOneByOne(ds: seq<Directive>, next: nat)
    requires ds != []
    ensures multiset(Numbered(ds, next)) == multiset{Entry(ds[0], KeyOf(ds[0], next))} + multiset(Numbered(ds[1..], next + 1))
  {
    assert Numbered(ds, next) == [Entry(ds[0], KeyOf(ds[0], next))] + Numbered(ds[1..], next + 1);
  }

  lemma {:induction false} PutAllAdds(es: seq<Entry>, ds: seq<Directive>, next: nat)
    ensures multiset(PutAll(es, ds, next)) == multiset(es) + multiset(Numbered(ds, next))
    decreases |ds|
  {
    if ds == [] {
      assert Numbered(ds, next) == [];
    } else {
      var e := Entry(ds[0], KeyOf(ds[0], next));
      PutAdds(es, e);
      NumberedOneByOne(ds, next);
      PutAllAdds(Put(es, e), ds[1..], next + 1);
    }
  }

  lemma {:induction false} NumbersDiffer(es: seq<Entry>, ds: seq<Directive>, next: nat)
    requires InOrder(es, next)
    ensures KeysDiffer(es + Numbered(ds, next))
  {
    var all := es + Numbered(ds, next);
    forall i, j | 0 <= i < j < |all| ensures all[i].key != all[j].key {
      if j < |es| {
        assert Before(es[i], es[j]);
        KeysAreTotallyOrdered(es[i].key, es[j].key, es[j].key);
      } else if i < |es| {
        assert es[i] in es;
      }
    }
  }

  /** Two sorted lists of the same entries are the same list. */
  lemma {:induction false} SortedIsUnique(xs: seq<Entry>, ys: seq<Entry>)
    requires Sorted(xs) && Sorted(ys) && multiset(xs) == multiset(ys)
    ensures xs == ys
  {
    if xs == [] {
      assert |multiset(ys)| == |ys|;
    } else {
      FirstIsLeast(xs, ys);
      FirstIsLeast(ys, xs);
      KeysAreTotallyOrdered(xs[0].key, ys[0].key, xs[0].key);
      assert xs == [xs[0]] + xs[1..] && ys == [ys[0]] + ys[1..];
      assert multiset(xs[1..]) == multiset(xs) - multiset{xs[0]};
      assert multiset(ys[1..]) == multiset(ys) - multiset{ys[0]};
      SortedIsUnique(xs[1..], ys[1..]);
    }
  }

  lemma {:induction false} FirstIsLeast(xs: seq<Entry>, ys: seq<Entry>)
    requires Sorted(xs) && |xs| > 0 && multiset(xs) == multiset(ys)
    ensures |ys| > 0 && (ys[0] == xs[0] || Before(xs[0], ys[0]))
  {
    assert xs[0] in multiset(ys);
    assert ys[0] in multiset(xs);
    var i :| 0 <= i < |xs| && xs[i] == ys[0];
  }

  /**
   Adding directives in bulk, by whatever sorting, gives what inserting them one by one
   gives.
   */
  lemma {:induction false} BulkIsOneByOne(es: seq<Entry>, ds: seq<Directive>, next: nat, sorted: seq<Entry>)
    requires InOrder(es, next) && Sorted(sorted) && multiset(sorted) == multiset(es + Numbered(ds, next))
    ensures sorted == PutAll(es, ds, next)
  {
    PutAllKeepsOrder(es, ds, next);
    PutAllAdds(es, ds, next);
    SortedIsUnique(sorted, PutAll(es, ds, next));
  }

  /** Directives that agree on date, kind, file and offset stand in the order they came. */
  lemma {:induction false} TiesKeepTheirOrder(es: seq<Entry>, next: nat, i: nat, j: nat)
    requires InOrder(es, next) && i < |es| && j < |es|
    requires var x, y := es[i].dir, es[j].dir;
             x.date == y.date && x.kind == y.kind && x.filename == y.filename && x.offset == y.offset
    ensures i < j <==> es[i].key.number < es[j].key.number
  {
    assert es[i] in es && es[j] in es;
    StringsAreOrdered(es[i].dir.filename, es[i].dir.filename);
    if i < j {
      assert Before(es[i], es[j]);
    } else if j < i {
      assert Before(es[j], es[i]);
    }
  }

  // ------------------------------------------------------------------ the ledger

  class Ledger {
    var entries: seq<Entry>
    var nextSeq: nat

    ghost predicate Valid()
      reads this
    {
      InOrder(entries, nextSeq)
    }

    constructor ()
      ensures Valid() && entries == [] && nextSeq == 0
    {
      entries, nextSeq := [], 0;
    }

    method Insert(d: Directive)
      requires Valid()
      modifies this
      ensures Valid() && nextSeq == old(nextSeq) + 1
      ensures entries == PutAll(old(entries), [d], old(nextSeq))
    {
      var e := Entry(d, KeyOf(d, nextSeq));
      nextSeq := nextSeq + 1;
      ghost var was := entries;
      var lo, hi := 0, |entries|;
      while lo < hi
        invariant entries == was && nextSeq == old(nextSeq) + 1 && 0 <= lo <= hi <= |entries|
        invariant forall k :: 0 <= k < lo ==> Before(entries[k], e)
        invariant hi < |entries| ==> !Before(entries[hi], e)
      {
        var mid := (lo + hi) / 2;
        if Before(entries[mid], e) {
          AllBefore(entries, e, mid);
          lo := mid + 1;
        } else {
          hi := mid;
        }
      }
      PutLaws(was, d, old(nextSeq));
      assert lo == Place(entries, e);
      entries := entries[..lo] + [e] + entries[lo..];
    }

    method InsertAll(ds: seq<Directive>)
      requires Valid()
      modifies this
      ensures Valid() && nextSeq == old(nextSeq) + |ds|
      ensures entries == PutAll(old(entries), ds, old(nextSeq))
    {
      if |ds| == 0 {
        return;
      }
      ghost var was, next := entries, nextSeq;
      var grown := entries;
      for i := 0 to |ds|
        invariant entries == was && nextSeq == next + i
        invariant grown == was + Numbered(ds, next)[..i]
      {
        grown := grown + [Entry(ds[i], KeyOf(ds[i], nextSeq))];
        nextSeq := nextSeq + 1;
      }
      assert Numbered(ds, next)[..|ds|] == Numbered(ds, next);
      NumbersDiffer(was, ds, next);
      PutAllKeepsOrder(was, ds, next);
      entries := SortEntries(grown);
      BulkIsOneByOne(was, ds, next, entries);
    }

    method ReplaceAll(ds: seq<Directive>)
      requires Valid()
      modifies this
      ensures Valid() && nextSeq == old(nextSeq) + |ds|
      ensures entries == PutAll([], ds, old(nextSeq))
    {
      entries := [];
      InsertAll(ds);
    }
  }

  lemma {:induction false} AllBefore(es: seq<Entry>, e: Entry, i: nat)
    requires Sorted(es) && i < |es| && Before(es[i], e)
    ensures forall k :: 0 <= k <= i ==> Before(es[k], e)
  {
    forall k | 0 <= k <= i ensures Before(es[k], e) {
      KeysAreTotallyOrdered(es[k].key, es[i].key, e.key);
    }
  }

  ghost predicate KeysDiffer(es: seq<Entry>) {
    forall i, j :: 0 <= i < j < |es| ==> es[i].key != es[j].key
  }

  lemma {:induction false} NextDiffers(es: seq<Entry>, i: nat, r: seq<Entry>)
    requires KeysDiffer(es) && i < |es| && multiset(r) == multiset(es[..i])
    ensures forall x :: x in r ==> x.key != es[i].key
    ensures multiset(es[..i + 1]) == multiset(es[..i]) + multiset{es[i]}
  {
    assert es[..i + 1] == es[..i] + [es[i]];
    forall x | x in r ensures x.key != es[i].key {
      assert x in multiset(r);
      assert x in es[..i];
    }
  }

  /** Sorting entries of which no two have the same key. */
  method SortEntries(es: seq<Entry>) returns (r: seq<Entry>)
    requires KeysDiffer(es)
    ensures Sorted(r) && multiset(r) == multiset(es)
  {
    r := [];
    for i := 0 to |es|
      invariant Sorted(r) && multiset(r) == multiset(es[..i])
    {
      NextDiffers(es, i, r);
      PutAdds(r, es[i]);
      PutSorts(r, es[i]);
      r := Put(r, es[i]);
    }
    assert es[..|es|] == es;
  }
}
