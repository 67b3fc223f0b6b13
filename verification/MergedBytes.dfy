/**
 The merged file byte by byte: where the directives that it had and those inserted
 stand, and exactly when they stand in the order of their dates.
 */
module MergedBytes {
  import opened Utf8
  import opened Merging
  import opened MergingLaws
  import opened Patches
  import opened Merge

  /** Where the text of insert `m` stands in the body of its group. */
  function InBody(plan: Plan, inserts: seq<Insert>, m: nat): nat
    requires m < |inserts|
  {
    if m == 0 then 0 else |BodyOf(plan, inserts[..m])| + |Padding(plan, 0)|
  }

  lemma {:induction false} BodyHoldsText(plan: Plan, inserts: seq<Insert>, m: nat)
    requires m < |inserts|
    ensures TextStandsAt(inserts[m].text, BodyOf(plan, inserts), InBody(plan, inserts, m))
    decreases |inserts|
  {
    var last := |inserts| - 1;
    if m < last {
      var front := inserts[..last];
      assert front[..m] == inserts[..m];
      BodyHoldsText(plan, front, m);
      StandsBefore(front[m].text, BodyOf(plan, front), InBody(plan, front, m), Padding(plan, 0) + inserts[last].text);
      BodyGrows(plan, inserts);
    } else if m > 0 {
      assert inserts[..m] == inserts[..last];
    }
  }

  lemma {:induction false} BodyGrows(plan: Plan, inserts: seq<Insert>)
    requires |inserts| > 1
    ensures var last := |inserts| - 1;
            BodyOf(plan, inserts) == BodyOf(plan, inserts[..last]) + (Padding(plan, 0) + inserts[last].text)
  {
  }

  lemma {:induction false} StandsBefore(text: seq<byte>, front: seq<byte>, start: int, rest: seq<byte>)
    requires TextStandsAt(text, front, start)
    ensures TextStandsAt(text, front + rest, start)
  {
  }

  lemma {:induction false} StandsWithin(text: seq<byte>, whole: seq<byte>, start: int, out: seq<byte>, at: int)
    requires TextStandsAt(text, whole, start) && TextStandsAt(whole, out, at)
    ensures TextStandsAt(text, out, at + start)
  {
    SliceOfSlice(out, at, |whole|, start, |text|);
  }

  lemma {:induction false} SliceOfSlice(xs: seq<byte>, a: nat, n: nat, b: nat, k: nat)
    requires a + n <= |xs| && b + k <= n
    ensures xs[a..a + n][b..b + k] == xs[a + b..a + b + k]
  {
    assert xs[a..a + n] == xs[a..][..n] && xs[a + b..a + b + k] == xs[a + b..][..k];
    assert xs[a..][b..] == xs[a + b..];
  }

  /** A later text of a body stands behind an earlier one. */
  lemma {:induction false} BodyInOrder(plan: Plan, inserts: seq<Insert>, m: nat, n: nat)
    requires m < n < |inserts|
    ensures InBody(plan, inserts, m) + |inserts[m].text| <= InBody(plan, inserts, n)
  {
    assert inserts[..n][..m] == inserts[..m];
    BodyHoldsText(plan, inserts[..n], m);
  }

  // ------------------------------------------------------------------ spots in the merged file

  /** A directive of the file by its index, or an insert by its group and its index there. */
  datatype Spot = Held(k: nat) | Put(g: nat, m: nat)

  predicate IsSpot(p: Spot, existing: seq<Existing>, groups: seq<Group>) {
    match p
    case Held(k) => k < |existing|
    case Put(g, m) => g < |groups| && m < |groups[g].inserts|
  }

  function DateOfSpot(p: Spot, existing: seq<Existing>, groups: seq<Group>): int
    requires IsSpot(p, existing, groups)
  {
    match p
    case Held(k) => existing[k].date
    case Put(g, m) => groups[g].inserts[m].date
  }

  /** One patch for each group, at its offset and with its body. */
  predicate PatchEach(plan: Plan, groups: seq<Group>, patches: seq<Patch>) {
    && |patches| == |groups|
    && forall i :: 0 <= i < |groups| ==> patches[i].offset == groups[i].offset && patches[i].body == BodyOf(plan, groups[i].inserts)
  }

  /** The offset in the merged file at which it stands. */
  function Offset(p: Spot, plan: Plan, existing: seq<Existing>, groups: seq<Group>, patches: seq<Patch>): nat
    requires IsSpot(p, existing, groups) && |patches| == |groups|
  {
    match p
    case Held(k) => existing[k].startOff + Shift(patches, existing[k].startOff)
    case Put(g, m) => StartOf(patches, g) + |patches[g].leading| + InBody(plan, groups[g].inserts, m)
  }

  /** The text of an insert, or the first byte of a directive that the file had, stands at its offset. */
  predicate Stands(p: Spot, plan: Plan, data: seq<byte>, existing: seq<Existing>, groups: seq<Group>, patches: seq<Patch>, out: seq<byte>)
    requires IsSpot(p, existing, groups) && |patches| == |groups|
  {
    match p
    case Held(k) =>
      existing[k].startOff < |data| && StandsAt(data, existing[k].startOff, out, Offset(p, plan, existing, groups, patches))
    case Put(g, m) => TextStandsAt(groups[g].inserts[m].text, out, Offset(p, plan, existing, groups, patches))
  }

  /** Every insert and every directive that the file had stands at its offset. */
  lemma {:induction false} EverythingStands(plan: Plan, data: seq<byte>, existing: seq<Existing>, groups: seq<Group>, patches: seq<Patch>, p: Spot)
    requires PatchEach(plan, groups, patches) && InBounds(patches, 0, |data|)
    requires IsSpot(p, existing, groups) && (p.Held? ==> existing[p.k].startOff < |data|)
    ensures Stands(p, plan, data, existing, groups, patches, Spliced(data, 0, patches))
  {
    match p
    case Held(k) => BytesStand(data, 0, patches, existing[k].startOff);
    case Put(g, m) =>
      BodyHoldsText(plan, groups[g].inserts, m);
      PutStands(data, patches, g, groups[g].inserts[m].text, InBody(plan, groups[g].inserts, m));
  }

  lemma {:induction false} PutStands(data: seq<byte>, patches: seq<Patch>, g: nat, text: seq<byte>, start: nat)
    requires InBounds(patches, 0, |data|) && g < |patches| && TextStandsAt(text, patches[g].body, start)
    ensures TextStandsAt(text, Spliced(data, 0, patches), StartOf(patches, g) + |patches[g].leading| + start)
  {
    PatchStands(data, 0, patches, g);
    StandsInPatch(text, patches[g], start, Spliced(data, 0, patches), StartOf(patches, g));
  }

  lemma {:induction false} StandsInPatch(text: seq<byte>, patch: Patch, start: nat, out: seq<byte>, at: int)
    requires TextStandsAt(text, patch.body, start) && TextStandsAt(patch.Text(), out, at)
    ensures TextStandsAt(text, out, at + |patch.leading| + start)
  {
    StandsBehind(text, patch.body, start, patch.leading);
    StandsBefore(text, patch.leading + patch.body, |patch.leading| + start, patch.trailing);
    StandsWithin(text, patch.Text(), |patch.leading| + start, out, at);
  }

  /** A text inserted stands within the text of its patch. */
  lemma {:induction false} WithinPatch(plan: Plan, existing: seq<Existing>, groups: seq<Group>, patches: seq<Patch>, g: nat, m: nat)
    requires PatchEach(plan, groups, patches) && IsSpot(Put(g, m), existing, groups)
    ensures StartOf(patches, g) <= Offset(Put(g, m), plan, existing, groups, patches) <= StartOf(patches, g) + |patches[g].Text()|
  {
    BodyHoldsText(plan, groups[g].inserts, m);
  }

  /** An insert stands before a directive of the file exactly when its offset in the file is not past the directive's. */
  lemma {:induction false} StandsBeforeIff(plan: Plan, existing: seq<Existing>, groups: seq<Group>, patches: seq<Patch>, fileLen: nat,
                                           k: nat, g: nat, m: nat)
    requires PatchEach(plan, groups, patches) && InBounds(patches, 0, fileLen)
    requires IsSpot(Held(k), existing, groups) && IsSpot(Put(g, m), existing, groups)
    ensures var held, put := Offset(Held(k), plan, existing, groups, patches), Offset(Put(g, m), plan, existing, groups, patches);
            if groups[g].offset <= existing[k].startOff then put <= held else held < put
  {
    WithinPatch(plan, existing, groups, patches, g, m);
    TextsStandBetween(patches, 0, fileLen, g, existing[k].startOff);
  }

  lemma {:induction false} PatchesApart(patches: seq<Patch>, g: nat, h: nat)
    requires g < h < |patches| && patches[g].offset <= patches[h].offset
    requires forall i, j :: 0 <= i <= j < |patches| ==> patches[i].offset <= patches[j].offset
    ensures StartOf(patches, g) + |patches[g].Text()| <= StartOf(patches, h)
  {
    if g + 1 < h {
      PatchesApart(patches, g, h - 1);
    }
  }

  /** Inserts stand as they do in the groups. */
  lemma {:induction false} PutsInOrder(plan: Plan, existing: seq<Existing>, groups: seq<Group>, patches: seq<Patch>, fileLen: nat,
                                       g: nat, m: nat, h: nat, n: nat)
    requires PatchEach(plan, groups, patches) && InBounds(patches, 0, fileLen)
    requires IsSpot(Put(g, m), existing, groups) && IsSpot(Put(h, n), existing, groups)
    requires g < h || (g == h && m <= n)
    ensures Offset(Put(g, m), plan, existing, groups, patches) <= Offset(Put(h, n), plan, existing, groups, patches)
  {
    if g < h {
      WithinPatch(plan, existing, groups, patches, g, m);
      WithinPatch(plan, existing, groups, patches, h, n);
      PatchesApart(patches, g, h);
    } else if m < n {
      BodyInOrder(plan, groups[g].inserts, m, n);
    }
  }

  lemma {:induction false} ShiftGrows(patches: seq<Patch>, from: nat, fileLen: nat, a: nat, b: nat)
    requires InBounds(patches, from, fileLen) && a <= b
    ensures Shift(patches, a) <= Shift(patches, b)
    decreases |patches|
  {
    if patches != [] && patches[0].offset <= a {
      RestInBounds(patches, from, fileLen);
      ShiftGrows(patches[1..], patches[0].offset, fileLen, a, b);
    }
  }

  // ------------------------------------------------------------------ dates along the groups

  lemma {:induction false} GroupsAreOrdered(order: OrderKind, groups: seq<Group>, g: nat)
    requires Ordered(order, Flat(groups)) && g < |groups|
    ensures Ordered(order, groups[g].inserts)
  {
    var last := |groups| - 1;
    var front, xs := Flat(groups[..last]), groups[last].inserts;
    assert Flat(groups) == front + xs;
    if g < last {
      assert forall i :: 0 <= i < |front| ==> Flat(groups)[i] == front[i];
      GroupsAreOrdered(order, groups[..last], g);
    } else {
      assert forall i :: 0 <= i < |xs| ==> Flat(groups)[|front| + i] == xs[i];
    }
  }

  /** The groups hold their inserts in date order, and follow one another in date order. */
  lemma {:induction false} PutDatesInOrder(order: OrderKind, existing: seq<Existing>, groups: seq<Group>, fileLen: nat, g: nat, m: nat, h: nat, n: nat)
    requires WellPlaced(existing, fileLen) && GroupedRight(groups, existing, order, fileLen) && Ordered(order, Flat(groups))
    requires g < |groups| && m < |groups[g].inserts| && h < |groups| && n < |groups[h].inserts|
    requires g < h || (g == h && m <= n)
    ensures !LessByOrder(order, groups[h].inserts[n].date, groups[g].inserts[m].date)
  {
    var a, b := groups[g].inserts[m].date, groups[h].inserts[n].date;
    if g == h {
      GroupsAreOrdered(order, groups, g);
    } else if LessByOrder(order, b, a) {
      OffsetsFollowDates(existing, b, a, order, fileLen);
    }
  }

  // ------------------------------------------------------------------ the order of the bytes

  /** What stands at an earlier offset of the merged file has no later date. */
  ghost predicate DatesInOrder(plan: Plan, existing: seq<Existing>, groups: seq<Group>, patches: seq<Patch>)
    requires |patches| == |groups|
  {
    forall p, q :: IsSpot(p, existing, groups) && IsSpot(q, existing, groups)
      && Offset(p, plan, existing, groups, patches) < Offset(q, plan, existing, groups, patches)
      ==> !LessByOrder(plan.order, DateOfSpot(q, existing, groups), DateOfSpot(p, existing, groups))
  }

  lemma {:induction false} TwoInOrder(plan: Plan, existing: seq<Existing>, groups: seq<Group>, patches: seq<Patch>, fileLen: nat, p: Spot, q: Spot)
    requires WellPlaced(existing, fileLen) && FileInOrder(existing, plan.order) && Separable(existing, plan.order)
    requires GroupedRight(groups, existing, plan.order, fileLen) && Ordered(plan.order, Flat(groups))
    requires PatchEach(plan, groups, patches) && InBounds(patches, 0, fileLen)
    requires IsSpot(p, existing, groups) && IsSpot(q, existing, groups)
    requires Offset(p, plan, existing, groups, patches) < Offset(q, plan, existing, groups, patches)
    ensures !LessByOrder(plan.order, DateOfSpot(q, existing, groups), DateOfSpot(p, existing, groups))
  {
    match (p, q)
    case (Held(k), Held(l)) =>
      if l < k {
        ShiftGrows(patches, 0, fileLen, existing[l].startOff, existing[k].startOff);
      }
    case (Held(k), Put(g, m)) =>
      StandsBeforeIff(plan, existing, groups, patches, fileLen, k, g, m);
      OffsetDecides(existing, groups[g].inserts[m].date, plan.order, fileLen, k);
    case (Put(g, m), Held(k)) =>
      StandsBeforeIff(plan, existing, groups, patches, fileLen, k, g, m);
      OffsetDecides(existing, groups[g].inserts[m].date, plan.order, fileLen, k);
    case (Put(g, m), Put(h, n)) =>
      if h < g || (h == g && n <= m) {
        PutsInOrder(plan, existing, groups, patches, fileLen, h, n, g, m);
      }
      PutDatesInOrder(plan.order, existing, groups, fileLen, g, m, h, n);
  }

  /** The groups that a plan's inserts come in. */
  ghost predicate GroupsOf(plan: Plan, existing: seq<Existing>, groups: seq<Group>, fileLen: nat) {
    GroupedRight(groups, existing, plan.order, fileLen) && Flat(groups) == StableSorted(plan.order, plan.inserts)
  }

  /** In the merged bytes everything stands at its offset, in the order of the dates. */
  ghost predicate BytesInOrder(plan: Plan, data: seq<byte>, existing: seq<Existing>, groups: seq<Group>)
    requires forall i :: 0 <= i < |groups| ==> groups[i].offset <= |data|
  {
    var patches := PatchesOf(plan, data, groups);
    && InBounds(patches, 0, |data|)
    && (forall p :: IsSpot(p, existing, groups) ==> Stands(p, plan, data, existing, groups, patches, Spliced(data, 0, patches)))
    && DatesInOrder(plan, existing, groups, patches)
  }

  /**
   Exactly when the merged bytes of an ordered file are in order, whatever is inserted:
   when only directives of one date share a line, or the plan appends.
   */
  lemma {:induction false} BytesKeepOrderIff(data: seq<byte>, existing: seq<Existing>, order: OrderKind)
    requires WellPlaced(existing, |data|) && FileInOrder(existing, order)
    ensures (forall plan: Plan, groups :: plan.order == order && GroupsOf(plan, existing, groups, |data|) ==> BytesInOrder(plan, data, existing, groups))
            <==> Separable(existing, order)
  {
    if Separable(existing, order) {
      forall plan: Plan, groups | plan.order == order && GroupsOf(plan, existing, groups, |data|)
        ensures BytesInOrder(plan, data, existing, groups)
      {
        PatchesInBounds(plan, data, groups, existing);
        AllInOrder(plan, data, existing, groups, PatchesOf(plan, data, groups));
      }
    } else {
      var i, j :| 0 <= i < j < |existing| && existing[i].date != existing[j].date && existing[j].startOff < existing[i].endOff;
      var plan, groups := SomeOutOfOrder(data, existing, order, i, j);
    }
  }

  lemma {:induction false} AllInOrder(plan: Plan, data: seq<byte>, existing: seq<Existing>, groups: seq<Group>, patches: seq<Patch>)
    requires WellPlaced(existing, |data|) && FileInOrder(existing, plan.order) && Separable(existing, plan.order)
    requires GroupsOf(plan, existing, groups, |data|) && PatchEach(plan, groups, patches) && InBounds(patches, 0, |data|)
    ensures forall p :: IsSpot(p, existing, groups) ==> Stands(p, plan, data, existing, groups, patches, Spliced(data, 0, patches))
    ensures DatesInOrder(plan, existing, groups, patches)
  {
    forall p | IsSpot(p, existing, groups) ensures Stands(p, plan, data, existing, groups, patches, Spliced(data, 0, patches)) {
      EverythingStands(plan, data, existing, groups, patches, p);
    }
    StableSortLaws(plan.order, plan.inserts);
    forall p, q | IsSpot(p, existing, groups) && IsSpot(q, existing, groups)
      && Offset(p, plan, existing, groups, patches) < Offset(q, plan, existing, groups, patches)
      ensures !LessByOrder(plan.order, DateOfSpot(q, existing, groups), DateOfSpot(p, existing, groups))
    {
      TwoInOrder(plan, existing, groups, patches, |data|, p, q);
    }
  }

  /** One insert with the earlier of two dates that share a line stands behind both. */
  lemma {:induction false} SomeOutOfOrder(data: seq<byte>, existing: seq<Existing>, order: OrderKind, i: nat, j: nat)
    returns (plan: Plan, groups: seq<Group>)
    requires WellPlaced(existing, |data|) && FileInOrder(existing, order) && order != Append
    requires i < j < |existing| && existing[i].date != existing[j].date && existing[j].startOff < existing[i].endOff
    ensures plan.order == order && GroupsOf(plan, existing, groups, |data|) && !BytesInOrder(plan, data, existing, groups)
  {
    var x := Insert(existing[i].date, ['\n']);
    plan := Plan(order, 0, false, [x]);
    groups := [Group(TargetOffset(existing, x.date, order, |data|), [x])];
    OneGroup(plan, existing, groups, x, |data|);
    RankIsFirst(existing, x.date, order);
    assert !LessByOrder(order, existing[j].date, x.date);
    assert existing[j].startOff < groups[0].offset;
    var patches := PatchesOf(plan, data, groups);
    PatchesInBounds(plan, data, groups, existing);
    StandsBeforeIff(plan, existing, groups, patches, |data|, j, 0, 0);
    var p, q := Held(j), Put(0, 0);
    assert IsSpot(p, existing, groups) && IsSpot(q, existing, groups);
    assert LessByOrder(order, DateOfSpot(q, existing, groups), DateOfSpot(p, existing, groups));
  }

  lemma {:induction false} OneGroup(plan: Plan, existing: seq<Existing>, groups: seq<Group>, x: Insert, fileLen: nat)
    requires WellPlaced(existing, fileLen) && plan.inserts == [x]
    requires groups == [Group(TargetOffset(existing, x.date, plan.order, fileLen), [x])]
    ensures GroupsOf(plan, existing, groups, fileLen)
  {
    OffsetInBounds(existing, x.date, plan.order, fileLen);
    var none: seq<Insert> := [];
    assert [x][..0] == none && [x][1..] == none && StableSorted(plan.order, none) == none;
    var empty: seq<Group> := [];
    assert groups[..0] == empty && Flat(empty) == none;
  }
}
