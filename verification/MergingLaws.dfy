/** The merged file reads as the stable merge of what it held and what was inserted. */
module MergingLaws {
  import opened Merging

  /** A directive of the merged file: one it had, or one inserted. */
  datatype Item = Old(index: nat) | New(insert: Insert)

  /** An insert with the offset it goes to. */
  datatype Placed = Placed(insert: Insert, offset: nat)

  /** The inserts with their offsets, in the order given. */
  function Place(existing: seq<Existing>, inserts: seq<Insert>, order: OrderKind, fileLen: nat): (r: seq<Placed>)
    ensures |r| == |inserts|
  {
    if inserts == [] then []
    else [Placed(inserts[0], TargetOffset(existing, inserts[0].date, order, fileLen))]
         + Place(existing, inserts[1..], order, fileLen)
  }

  /** The directives as they follow one another in the text: an insert stands before what starts at or after its offset. */
  function Layout(existing: seq<Existing>, k: nat, placed: seq<Placed>): seq<Item>
    requires k <= |existing|
    decreases |existing| - k, |placed|
  {
    if k == |existing| then (if placed == [] then [] else [New(placed[0].insert)] + Layout(existing, k, placed[1..]))
    else if placed != [] && placed[0].offset <= existing[k].startOff then
      [New(placed[0].insert)] + Layout(existing, k, placed[1..])
    else [Old(k)] + Layout(existing, k + 1, placed)
  }

  /** The stable merge by date: what the file held goes first on equal dates. */
  function StableMerge(existing: seq<Existing>, k: nat, inserts: seq<Insert>, order: OrderKind): seq<Item>
    requires k <= |existing|
    decreases |existing| - k, |inserts|
  {
    if k == |existing| then (if inserts == [] then [] else [New(inserts[0])] + StableMerge(existing, k, inserts[1..], order))
    else if inserts != [] && LessByOrder(order, inserts[0].date, existing[k].date) then
      [New(inserts[0])] + StableMerge(existing, k, inserts[1..], order)
    else [Old(k)] + StableMerge(existing, k + 1, inserts, order)
  }

  /** The file is in the order of the plan. */
  ghost predicate FileInOrder(existing: seq<Existing>, order: OrderKind) {
    forall i, j :: 0 <= i <= j < |existing| ==> !LessByOrder(order, existing[j].date, existing[i].date)
  }

  /** Only directives of one date share a line. */
  ghost predicate DatesApart(existing: seq<Existing>) {
    forall i, j :: 0 <= i < j < |existing| && existing[i].date != existing[j].date ==> existing[i].endOff <= existing[j].startOff
  }

  /** Where an insert may go without standing wrong. */
  ghost predicate Separable(existing: seq<Existing>, order: OrderKind) {
    order == Append || DatesApart(existing)
  }

  /** The search of an ordered file finds the first directive that belongs after the insert. */
  lemma {:induction false} RankIsFirst(existing: seq<Existing>, date: int, order: OrderKind)
    requires FileInOrder(existing, order)
    ensures var r := Rank(existing, date, order);
            && (forall i :: 0 <= i < r ==> !LessByOrder(order, date, existing[i].date))
            && (forall i :: r <= i < |existing| ==> LessByOrder(order, date, existing[i].date))
  {
    var f := Later(existing, date, order);
    forall i, j | 0 <= i <= j < |existing| && f(i) ensures f(j) {
      assert !LessByOrder(order, existing[j].date, existing[i].date);
    }
    SearchFindsTheFirst(f, 0, |existing|);
    assert forall i: nat :: i < |existing| ==> (f(i) <==> LessByOrder(order, date, existing[i].date));
  }

  /** In an ordered file an insert goes before a directive exactly when its date sorts before the directive's. */
  lemma {:induction false} OffsetDecides(existing: seq<Existing>, date: int, order: OrderKind, fileLen: nat, k: nat)
    requires WellPlaced(existing, fileLen) && Separable(existing, order) && FileInOrder(existing, order) && k < |existing|
    ensures TargetOffset(existing, date, order, fileLen) <= existing[k].startOff <==> LessByOrder(order, date, existing[k].date)
  {
    if order != Append {
      RankIsFirst(existing, date, order);
    }
  }

  lemma {:induction false} LayoutIsStableMerge(existing: seq<Existing>, k: nat, inserts: seq<Insert>, order: OrderKind, fileLen: nat)
    requires WellPlaced(existing, fileLen) && Separable(existing, order) && FileInOrder(existing, order) && k <= |existing|
    ensures Layout(existing, k, Place(existing, inserts, order, fileLen)) == StableMerge(existing, k, inserts, order)
    decreases |existing| - k, |inserts|
  {
    var placed := Place(existing, inserts, order, fileLen);
    if k == |existing| {
      if inserts != [] {
        assert placed[1..] == Place(existing, inserts[1..], order, fileLen);
        LayoutIsStableMerge(existing, k, inserts[1..], order, fileLen);
      }
    } else {
      if inserts != [] {
        OffsetDecides(existing, inserts[0].date, order, fileLen, k);
      }
      if inserts != [] && LessByOrder(order, inserts[0].date, existing[k].date) {
        assert placed[1..] == Place(existing, inserts[1..], order, fileLen);
        LayoutIsStableMerge(existing, k, inserts[1..], order, fileLen);
      } else {
        LayoutIsStableMerge(existing, k + 1, inserts, order, fileLen);
      }
    }
  }

  function DateOf(existing: seq<Existing>, x: Item): int {
    match x
    case Old(i) => if i < |existing| then existing[i].date else 0
    case New(ins) => ins.date
  }

  ghost predicate ItemsInOrder(existing: seq<Existing>, order: OrderKind, xs: seq<Item>) {
    forall i, j :: 0 <= i <= j < |xs| ==> !LessByOrder(order, DateOf(existing, xs[j]), DateOf(existing, xs[i]))
  }

  /** Everything in the merge from `k` on has a date that does not sort before `date`. */
  ghost predicate NotBefore(existing: seq<Existing>, order: OrderKind, xs: seq<Item>, date: int) {
    forall i :: 0 <= i < |xs| ==> !LessByOrder(order, DateOf(existing, xs[i]), date)
  }

  lemma {:induction false} MergeNotBefore(existing: seq<Existing>, k: nat, inserts: seq<Insert>, order: OrderKind, date: int)
    requires k <= |existing|
    requires forall i :: k <= i < |existing| ==> !LessByOrder(order, existing[i].date, date)
    requires forall i :: 0 <= i < |inserts| ==> !LessByOrder(order, inserts[i].date, date)
    ensures NotBefore(existing, order, StableMerge(existing, k, inserts, order), date)
    decreases |existing| - k, |inserts|
  {
    if inserts != [] {
      assert forall i :: 0 <= i < |inserts[1..]| ==> inserts[1..][i] == inserts[i + 1];
    }
    if k == |existing| {
      if inserts != [] {
        MergeNotBefore(existing, k, inserts[1..], order, date);
      }
    } else if inserts != [] && LessByOrder(order, inserts[0].date, existing[k].date) {
      MergeNotBefore(existing, k, inserts[1..], order, date);
    } else {
      MergeNotBefore(existing, k + 1, inserts, order, date);
    }
  }

  lemma {:induction false} HeadInOrder(existing: seq<Existing>, order: OrderKind, x: Item, xs: seq<Item>)
    requires ItemsInOrder(existing, order, xs) && NotBefore(existing, order, xs, DateOf(existing, x))
    ensures ItemsInOrder(existing, order, [x] + xs)
  {
    var ys := [x] + xs;
    forall i, j | 0 <= i <= j < |ys| ensures !LessByOrder(order, DateOf(existing, ys[j]), DateOf(existing, ys[i])) {
      if i > 0 {
        assert ys[i] == xs[i - 1] && ys[j] == xs[j - 1];
      } else if j > 0 {
        assert ys[j] == xs[j - 1];
      }
    }
  }

  /** Merging an ordered file with ordered inserts is ordered. */
  lemma {:induction false} StableMergeInOrder(existing: seq<Existing>, k: nat, inserts: seq<Insert>, order: OrderKind)
    requires k <= |existing| && FileInOrder(existing, order) && Ordered(order, inserts)
    ensures ItemsInOrder(existing, order, StableMerge(existing, k, inserts, order))
    decreases |existing| - k, |inserts|
  {
    if inserts != [] {
      assert forall i :: 0 <= i < |inserts[1..]| ==> inserts[1..][i] == inserts[i + 1];
    }
    if k == |existing| {
      if inserts != [] {
        StableMergeInOrder(existing, k, inserts[1..], order);
        MergeNotBefore(existing, k, inserts[1..], order, inserts[0].date);
        HeadInOrder(existing, order, New(inserts[0]), StableMerge(existing, k, inserts[1..], order));
      }
    } else if inserts != [] && LessByOrder(order, inserts[0].date, existing[k].date) {
      StableMergeInOrder(existing, k, inserts[1..], order);
      MergeNotBefore(existing, k, inserts[1..], order, inserts[0].date);
      HeadInOrder(existing, order, New(inserts[0]), StableMerge(existing, k, inserts[1..], order));
    } else {
      StableMergeInOrder(existing, k + 1, inserts, order);
      MergeNotBefore(existing, k + 1, inserts, order, existing[k].date);
      HeadInOrder(existing, order, Old(k), StableMerge(existing, k + 1, inserts, order));
    }
  }

  /** The directives of the merged file, as they follow one another. */
  function Merged(existing: seq<Existing>, inserts: seq<Insert>, order: OrderKind, fileLen: nat): seq<Item> {
    Layout(existing, 0, Place(existing, StableSorted(order, inserts), order, fileLen))
  }

  /**
   Merging keeps an ordered file ordered: when only directives of one date share a line,
   the text reads as the stable merge, which is in order, with the inserts of one date
   as they came.
   */
  lemma {:induction false} MergeKeepsOrder(existing: seq<Existing>, inserts: seq<Insert>, order: OrderKind, fileLen: nat)
    requires WellPlaced(existing, fileLen) && Separable(existing, order) && FileInOrder(existing, order)
    ensures var sorted, text := StableSorted(order, inserts), Merged(existing, inserts, order, fileLen);
            && text == StableMerge(existing, 0, sorted, order)
            && ItemsInOrder(existing, order, text)
            && (order != Append ==> forall date :: OfDate(sorted, date) == OfDate(inserts, date))
  {
    var sorted := StableSorted(order, inserts);
    StableSortLaws(order, inserts);
    LayoutIsStableMerge(existing, 0, sorted, order, fileLen);
    StableMergeInOrder(existing, 0, sorted, order);
  }

  /** An insert past the start of directive `j` comes after it. */
  lemma {:induction false} StandsAfter(existing: seq<Existing>, k: nat, p: Placed, j: nat) returns (t: nat)
    requires k <= |existing| && (k <= j ==> j < |existing|) && forall m :: k <= m <= j ==> existing[m].startOff < p.offset
    ensures var text := Layout(existing, k, [p]);
            && t < |text| && text[t] == New(p.insert)
            && (k <= j ==> j - k < t && text[j - k] == Old(j))
    decreases |existing| - k
  {
    if k == |existing| || p.offset <= existing[k].startOff {
      t := 0;
    } else {
      t := StandsAfter(existing, k + 1, p, j);
      t := 1 + t;
      assert Layout(existing, k, [p]) == [Old(k)] + Layout(existing, k + 1, [p]);
    }
  }

  /** Where two dates share a line, an insert of the earlier date ends up behind the later one. */
  lemma {:induction false} SharedLineMisplaces(existing: seq<Existing>, order: OrderKind, fileLen: nat, i: nat, j: nat)
    requires WellPlaced(existing, fileLen) && FileInOrder(existing, order) && order != Append
    requires i < j < |existing| && existing[i].date != existing[j].date && existing[j].startOff < existing[i].endOff
    ensures !ItemsInOrder(existing, order, Merged(existing, [Insert(existing[i].date, [])], order, fileLen))
  {
    var x := Insert(existing[i].date, []);
    var none: seq<Insert> := [];
    assert [x][1..] == none && [x][..0] == none && StableSorted(order, none) == none;
    assert StableSorted(order, [x]) == [x];
    RankIsFirst(existing, x.date, order);
    assert !LessByOrder(order, existing[j].date, existing[i].date);
    var p := Placed(x, TargetOffset(existing, x.date, order, fileLen));
    assert Place(existing, [x], order, fileLen) == [p];
    var t := StandsAfter(existing, 0, p, j);
    var text := Layout(existing, 0, [p]);
    assert LessByOrder(order, DateOf(existing, text[t]), DateOf(existing, text[j]));
  }

  /**
   Exactly when merging keeps an ordered file ordered, and reads as the stable merge,
   whatever is inserted: when only directives of one date share a line, or the plan
   appends.
   */
  lemma {:induction false} MergeKeepsOrderIff(existing: seq<Existing>, order: OrderKind, fileLen: nat)
    requires WellPlaced(existing, fileLen) && FileInOrder(existing, order)
    ensures (forall inserts :: ItemsInOrder(existing, order, Merged(existing, inserts, order, fileLen)))
            <==> Separable(existing, order)
    ensures (forall inserts :: Merged(existing, inserts, order, fileLen) == StableMerge(existing, 0, StableSorted(order, inserts), order))
            <==> Separable(existing, order)
  {
    if Separable(existing, order) {
      forall inserts
        ensures ItemsInOrder(existing, order, Merged(existing, inserts, order, fileLen))
        ensures Merged(existing, inserts, order, fileLen) == StableMerge(existing, 0, StableSorted(order, inserts), order)
      {
        MergeKeepsOrder(existing, inserts, order, fileLen);
      }
    } else {
      var i, j :| 0 <= i < j < |existing| && existing[i].date != existing[j].date && existing[j].startOff < existing[i].endOff;
      var bad := [Insert(existing[i].date, [])];
      SharedLineMisplaces(existing, order, fileLen, i, j);
      assert !ItemsInOrder(existing, order, Merged(existing, bad, order, fileLen));
      StableSortLaws(order, bad);
      StableMergeInOrder(existing, 0, StableSorted(order, bad), order);
    }
  }

  /** An insert that belongs between two directives on one line goes to the end of the line, after both. */
  lemma {:induction false} SharedLineBreaksOrder()
    ensures var existing, ins := [Existing(1, 0, 40), Existing(3, 20, 40)], [Insert(2, [])];
            && WellPlaced(existing, 40) && FileInOrder(existing, Ascending) && !DatesApart(existing)
            && Layout(existing, 0, Place(existing, ins, Ascending, 40)) == [Old(0), Old(1), New(ins[0])]
            && !ItemsInOrder(existing, Ascending, [Old(0), Old(1), New(ins[0])])
  {
    var existing, ins := [Existing(1, 0, 40), Existing(3, 20, 40)], [Insert(2, [])];
    OneForTwo(existing[0], existing[1], ins[0]);
    var xs := [Old(0), Old(1), New(ins[0])];
    assert LessByOrder(Ascending, DateOf(existing, xs[2]), DateOf(existing, xs[1]));
  }

  lemma {:induction false} OneForTwo(a: Existing, b: Existing, x: Insert)
    requires a.date < x.date < b.date && a.startOff < b.startOff < a.endOff
    ensures Layout([a, b], 0, Place([a, b], [x], Ascending, a.endOff)) == [Old(0), Old(1), New(x)]
  {
    var existing, none: seq<Insert> := [a, b], [];
    RankIsFirst(existing, x.date, Ascending);
    var p := Placed(x, a.endOff);
    assert [x][1..] == none && Place(existing, [x], Ascending, a.endOff) == [p] && [p][1..] == [];
    assert Layout(existing, 2, [p]) == [New(x)] + Layout(existing, 2, [p][1..]);
    assert Layout(existing, 1, [p]) == [Old(1)] + Layout(existing, 2, [p]);
  }
}
