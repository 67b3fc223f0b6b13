/**
 What `Add` and `Reduce` mean. The list of positions refines a map from
 (commodity, lot) to units, and a successful reduction is greedy selection in
 booking order.
 */
module InventoryLaws {
  import opened Prelude
  import opened Amounts
  import opened Inventories

  // ------------------------------------------------------------------ the map view

  /** Units held under one key; the meaning of a position list. */
  function UnitsAt(ps: seq<Position>, commodity: string, cost: Option<Lot>): real {
    if ps == [] then 0.0
    else (if ps[0].units.currency == commodity && ps[0].cost == cost then ps[0].units.number else 0.0)
         + UnitsAt(ps[1..], commodity, cost)
  }

  ghost predicate UniqueSlots(ps: seq<Position>) {
    forall i, j :: 0 <= i < j < |ps| ==> !SameSlot(ps[i], ps[j])
  }

  ghost predicate NoEmptySlot(ps: seq<Position>) {
    forall i :: 0 <= i < |ps| ==> ps[i].units.number != 0.0
  }

  /** The representation invariant: one nonzero position per key. */
  ghost predicate Tidy(ps: seq<Position>) {
    UniqueSlots(ps) && NoEmptySlot(ps)
  }

  ghost predicate HasSlot(ps: seq<Position>, p: Position) {
    exists i :: 0 <= i < |ps| && SameSlot(ps[i], p)
  }

  lemma {:induction false} UnitsAtSplit(xs: seq<Position>, ys: seq<Position>, c: string, cost: Option<Lot>)
    ensures UnitsAt(xs + ys, c, cost) == UnitsAt(xs, c, cost) + UnitsAt(ys, c, cost)
  {
    if xs == [] {
      assert xs + ys == ys;
    } else {
      assert (xs + ys)[1..] == xs[1..] + ys;
      UnitsAtSplit(xs[1..], ys, c, cost);
    }
  }

  lemma {:induction false} AbsentKeyHoldsNothing(ps: seq<Position>, c: string, cost: Option<Lot>)
    requires forall i :: 0 <= i < |ps| ==> !(ps[i].units.currency == c && ps[i].cost == cost)
    ensures UnitsAt(ps, c, cost) == 0.0
  {
    if ps != [] {
      AbsentKeyHoldsNothing(ps[1..], c, cost);
    }
  }

  /** In a tidy list every key's units are read off its only position. */
  lemma {:induction false} TidyListIsAMap(ps: seq<Position>, i: nat)
    requires Tidy(ps) && i < |ps|
    ensures UnitsAt(ps, ps[i].units.currency, ps[i].cost) == ps[i].units.number != 0.0
  {
    var c, cost := ps[i].units.currency, ps[i].cost;
    assert ps == ps[..i] + ([ps[i]] + ps[i + 1..]);
    UnitsAtSplit(ps[..i], [ps[i]] + ps[i + 1..], c, cost);
    assert ([ps[i]] + ps[i + 1..])[1..] == ps[i + 1..];
    forall k | 0 <= k < i
      ensures !(ps[..i][k].units.currency == c && ps[..i][k].cost == cost)
    {
      assert !SameSlot(ps[k], ps[i]);
    }
    AbsentKeyHoldsNothing(ps[..i], c, cost);
    var after := ps[i + 1..];
    forall k | 0 <= k < |after|
      ensures !(after[k].units.currency == c && after[k].cost == cost)
    {
      assert !SameSlot(ps[i], ps[i + 1 + k]);
    }
    AbsentKeyHoldsNothing(after, c, cost);
  }

  // ------------------------------------------------------------------ Add

  /** `Add` changes exactly one key, by exactly the units added. */
  lemma {:induction false} AddChangesOneKey(ps: seq<Position>, p: Position, c: string, cost: Option<Lot>)
    ensures UnitsAt(Added(ps, p), c, cost)
            == UnitsAt(ps, c, cost)
               + if p.units.currency == c && p.cost == cost then p.units.number else 0.0
  {
    if ps == [] {
      assert [p][1..] == [];
    } else if SameSlot(ps[0], p) {
      var sum := ps[0].units.number + p.units.number;
      var merged := ps[0].(units := ps[0].units.(number := sum));
      assert ([merged] + ps[1..])[1..] == ps[1..];
    } else {
      AddChangesOneKey(ps[1..], p, c, cost);
      assert ([ps[0]] + Added(ps[1..], p))[1..] == Added(ps[1..], p);
    }
  }

  /** Every position of the result is an old one, `p` itself, or `p` merged into its slot. */
  lemma {:induction false} AddedSlots(ps: seq<Position>, p: Position)
    ensures forall q :: q in Added(ps, p) ==>
              || q in ps
              || q == p
              || (SameSlot(q, p) &&
                  exists e :: e in ps && SameSlot(e, p) && q.units.number == e.units.number + p.units.number)
    ensures !HasSlot(ps, p) ==> Added(ps, p) == ps + [p]
  {
    if ps != [] {
      AddedSlots(ps[1..], p);
      if !SameSlot(ps[0], p) {
        assert HasSlot(ps[1..], p) ==> HasSlot(ps, p) by {
          if HasSlot(ps[1..], p) {
            var i :| 0 <= i < |ps[1..]| && SameSlot(ps[1..][i], p);
            assert SameSlot(ps[i + 1], p);
          }
        }
      }
    }
  }

  lemma {:induction false} HeadSlotStaysUnique(head: Position, rest: seq<Position>, p: Position)
    requires forall k :: 0 <= k < |rest| ==> !SameSlot(head, rest[k])
    requires !SameSlot(head, p)
    ensures forall j :: 0 <= j < |Added(rest, p)| ==> !SameSlot(head, Added(rest, p)[j])
  {
    AddedSlots(rest, p);
    var r := Added(rest, p);
    forall j | 0 <= j < |r| ensures !SameSlot(head, r[j]) {
      assert r[j] in r;
    }
  }

  lemma {:induction false} AddKeepsSlotsUnique(ps: seq<Position>, p: Position)
    requires UniqueSlots(ps)
    ensures UniqueSlots(Added(ps, p))
  {
    if ps != [] {
      var rest := ps[1..];
      forall i, j | 0 <= i < j < |rest| ensures !SameSlot(rest[i], rest[j]) {
        assert !SameSlot(ps[i + 1], ps[j + 1]);
      }
      AddKeepsSlotsUnique(rest, p);
      if !SameSlot(ps[0], p) {
        assert forall k :: 0 <= k < |rest| ==> rest[k] == ps[k + 1];
        HeadSlotStaysUnique(ps[0], rest, p);
      }
    }
  }

  lemma {:induction false} AddKeepsSlotsFilled(ps: seq<Position>, p: Position)
    requires NoEmptySlot(ps)
    ensures NoEmptySlot(Added(ps, p)) <==> p.units.number != 0.0 || HasSlot(ps, p)
  {
    if ps == [] {
      assert Added(ps, p)[0] == p;
    } else if SameSlot(ps[0], p) {
      assert HasSlot(ps, p);
    } else {
      var rest, r := ps[1..], Added(ps, p);
      AddKeepsSlotsFilled(rest, p);
      assert r[1..] == Added(rest, p);
      assert HasSlot(rest, p) <==> HasSlot(ps, p) by {
        if HasSlot(rest, p) {
          var i :| 0 <= i < |rest| && SameSlot(rest[i], p);
          assert SameSlot(ps[i + 1], p);
        }
        if HasSlot(ps, p) {
          var i :| 0 <= i < |ps| && SameSlot(ps[i], p);
          assert SameSlot(rest[i - 1], p);
        }
      }
      assert NoEmptySlot(r) <==> NoEmptySlot(r[1..]) by {
        if NoEmptySlot(r) { assert forall i :: 0 <= i < |r[1..]| ==> r[1..][i] == r[i + 1]; }
      }
    }
  }

  /**
   A tidy list stays tidy exactly when a nonzero position is added or the key is
   already there; a zero-unit position with a new key leaves a placeholder.
   */
  lemma {:induction false} AddKeepsTidy(ps: seq<Position>, p: Position)
    requires Tidy(ps)
    ensures Tidy(Added(ps, p)) <==> p.units.number != 0.0 || HasSlot(ps, p)
  {
    AddKeepsSlotsUnique(ps, p);
    AddKeepsSlotsFilled(ps, p);
  }

  // ------------------------------------------------------------------ consumption order

  ghost predicate StrictlyOrdered(ps: seq<Position>, lifo: bool, order: seq<nat>) {
    && InRange(ps, order)
    && forall j, k :: 0 <= j < k < |order| ==> Precedes(ps, lifo, order[j], order[k])
  }

  lemma {:induction false} InsertedMembers(ps: seq<Position>, lifo: bool, order: seq<nat>, i: nat)
    requires InRange(ps, order) && i < |ps|
    ensures forall x :: x in InsertOrdered(ps, lifo, order, i) ==> x == i || x in order
  {
    var r := InsertOrdered(ps, lifo, order, i);
    assert forall x :: x in r ==> x in multiset(r);
  }

  lemma {:induction false} PrependKeepsOrder(ps: seq<Position>, lifo: bool, h: nat, order: seq<nat>)
    requires StrictlyOrdered(ps, lifo, order) && h < |ps|
    requires forall x :: x in order ==> Precedes(ps, lifo, h, x)
    ensures StrictlyOrdered(ps, lifo, [h] + order)
  {
  }

  lemma {:induction false} HeadPrecedes(ps: seq<Position>, lifo: bool, order: seq<nat>)
    requires StrictlyOrdered(ps, lifo, order) && order != []
    ensures StrictlyOrdered(ps, lifo, order[1..])
    ensures forall x :: x in order[1..] ==> x < |ps| && Precedes(ps, lifo, order[0], x)
  {
    assert forall k :: 0 <= k < |order[1..]| ==> order[1..][k] == order[k + 1];
  }

  lemma {:induction false} InsertKeepsOrder(ps: seq<Position>, lifo: bool, order: seq<nat>, i: nat)
    requires StrictlyOrdered(ps, lifo, order) && i < |ps| && i !in order
    ensures StrictlyOrdered(ps, lifo, InsertOrdered(ps, lifo, order, i))
  {
    if order == [] {
    } else {
      var h, t := order[0], order[1..];
      HeadPrecedes(ps, lifo, order);
      assert order == [h] + t && h in order;
      if Precedes(ps, lifo, h, i) {
        InsertKeepsOrder(ps, lifo, t, i);
        InsertedMembers(ps, lifo, t, i);
        PrependKeepsOrder(ps, lifo, h, InsertOrdered(ps, lifo, t, i));
      } else {
        assert Precedes(ps, lifo, i, h);
        PrependKeepsOrder(ps, lifo, i, order);
      }
    }
  }

  lemma {:induction false} OrderedIsSorted(ps: seq<Position>, lifo: bool, cs: seq<nat>)
    requires InRange(ps, cs) && Distinct(cs)
    ensures StrictlyOrdered(ps, lifo, Ordered(ps, lifo, cs))
  {
    if cs != [] {
      var last := |cs| - 1;
      OrderedIsSorted(ps, lifo, cs[..last]);
      var r := Ordered(ps, lifo, cs[..last]);
      forall x | x in r ensures x in cs[..last] {
        assert x in multiset(r);
      }
      InsertKeepsOrder(ps, lifo, r, cs[last]);
    }
  }

  lemma {:induction false} SortedHeadsAgree(ps: seq<Position>, lifo: bool, a: seq<nat>, b: seq<nat>)
    requires StrictlyOrdered(ps, lifo, a) && StrictlyOrdered(ps, lifo, b)
    requires multiset(a) == multiset(b) && a != []
    ensures b != [] && a[0] == b[0]
  {
    assert a[0] in multiset(a);
    var k :| 0 <= k < |b| && b[k] == a[0];
    assert b[0] in multiset(b);
    var j :| 0 <= j < |a| && a[j] == b[0];
  }

  lemma {:induction false} WithoutTheHead(a: seq<nat>, b: seq<nat>)
    requires a != [] && b != [] && a[0] == b[0] && multiset(a) == multiset(b)
    ensures multiset(a[1..]) == multiset(b[1..])
    ensures a == [a[0]] + a[1..] && b == [b[0]] + b[1..]
  {
    assert a == [a[0]] + a[1..] && b == [b[0]] + b[1..];
    assert multiset(a[1..]) == multiset(a) - multiset{a[0]};
    assert multiset(b[1..]) == multiset(b) - multiset{b[0]};
  }

  /** The booking order is the only strictly ordered arrangement. */
  lemma {:induction false} OrderIsUnique(ps: seq<Position>, lifo: bool, a: seq<nat>, b: seq<nat>)
    requires StrictlyOrdered(ps, lifo, a) && StrictlyOrdered(ps, lifo, b)
    requires multiset(a) == multiset(b)
    ensures a == b
  {
    if a == [] {
      assert |b| == |multiset(b)| == 0;
    } else {
      SortedHeadsAgree(ps, lifo, a, b);
      WithoutTheHead(a, b);
      assert forall k :: 0 <= k < |a[1..]| ==> a[1..][k] == a[k + 1];
      assert forall k :: 0 <= k < |b[1..]| ==> b[1..][k] == b[k + 1];
      OrderIsUnique(ps, lifo, a[1..], b[1..]);
    }
  }

  function Reversed(s: seq<nat>): (r: seq<nat>)
    ensures |r| == |s| && multiset(r) == multiset(s)
    ensures forall k :: 0 <= k < |s| ==> r[k] == s[|s| - 1 - k]
  {
    if s == [] then []
    else
      assert s == [s[0]] + s[1..];
      Reversed(s[1..]) + [s[0]]
  }

  /** LIFO consumes in exactly the reverse of FIFO order. */
  lemma {:induction false} LifoReversesFifo(ps: seq<Position>, cs: seq<nat>)
    requires InRange(ps, cs) && Distinct(cs)
    ensures Ordered(ps, true, cs) == Reversed(Ordered(ps, false, cs))
  {
    var fifo := Ordered(ps, false, cs);
    OrderedIsSorted(ps, false, cs);
    OrderedIsSorted(ps, true, cs);
    var r := Reversed(fifo);
    forall j, k | 0 <= j < k < |r| ensures Precedes(ps, true, r[j], r[k]) {
      assert Precedes(ps, false, fifo[|fifo| - 1 - k], fifo[|fifo| - 1 - j]);
    }
    OrderIsUnique(ps, true, Ordered(ps, true, cs), r);
  }

  lemma {:induction false} AvailableFromHead(ps: seq<Position>, order: seq<nat>)
    requires InRange(ps, order) && order != []
    ensures Available(ps, order) == Abs(ps[order[0]].units.number) + Available(ps, order[1..])
  {
    var last := |order| - 1;
    if last == 0 {
      assert order[..0] == [] && order[1..] == [];
    } else {
      AvailableFromHead(ps, order[..last]);
      assert order[..last][1..] == order[1..][..last - 1];
      assert order[1..][last - 1] == order[last];
    }
  }

  lemma {:induction false} AvailableAfterInsert(ps: seq<Position>, lifo: bool, order: seq<nat>, i: nat)
    requires InRange(ps, order) && i < |ps|
    ensures Available(ps, InsertOrdered(ps, lifo, order, i)) == Available(ps, order) + Abs(ps[i].units.number)
  {
    var r := InsertOrdered(ps, lifo, order, i);
    AvailableFromHead(ps, r);
    if order == [] {
      assert r[1..] == [];
    } else if Precedes(ps, lifo, order[0], i) {
      AvailableAfterInsert(ps, lifo, order[1..], i);
      AvailableFromHead(ps, order);
      assert r[1..] == InsertOrdered(ps, lifo, order[1..], i);
    } else {
      assert r[1..] == order;
    }
  }

  lemma {:induction false} AvailableOfOrdered(ps: seq<Position>, lifo: bool, cs: seq<nat>)
    requires InRange(ps, cs)
    ensures Available(ps, Ordered(ps, lifo, cs)) == Available(ps, cs)
  {
    if cs != [] {
      var last := |cs| - 1;
      AvailableOfOrdered(ps, lifo, cs[..last]);
      AvailableAfterInsert(ps, lifo, Ordered(ps, lifo, cs[..last]), cs[last]);
    }
  }

  lemma {:induction false} AllCashMeans(ps: seq<Position>, order: seq<nat>)
    requires InRange(ps, order)
    ensures AllCash(ps, order) <==> forall i :: i in order ==> ps[i].cost.None?
  {
    if order != [] {
      var last := |order| - 1;
      AllCashMeans(ps, order[..last]);
      assert order == order[..last] + [order[last]];
    }
  }

  // ------------------------------------------------------------------ greedy selection

  function Taken(steps: seq<Step>): real {
    if steps == [] then 0.0 else steps[0].units + Taken(steps[1..])
  }

  /** Steps go along `order`, and every step but the last empties its position. */
  ghost predicate Greedy(ps: seq<Position>, order: seq<nat>, steps: seq<Step>)
    requires InRange(ps, order)
  {
    && |steps| <= |order|
    && (forall k :: 0 <= k < |steps| ==>
         && steps[k].lot == LotOf(ps[order[k]])
         && 0.0 <= steps[k].units <= Abs(ps[order[k]].units.number))
    && (forall k :: 0 <= k < |steps| - 1 ==> steps[k].units == Abs(ps[order[k]].units.number))
  }

  /** Every position of `order` was emptied. */
  ghost predicate Emptied(ps: seq<Position>, order: seq<nat>, steps: seq<Step>)
    requires InRange(ps, order)
  {
    forall k :: 0 <= k < |order| ==>
      if k < |steps| then steps[k].units == Abs(ps[order[k]].units.number) else ps[order[k]].units.number == 0.0
  }

  lemma {:induction false} AvailableIsNonnegative(ps: seq<Position>, order: seq<nat>)
    requires InRange(ps, order)
    ensures Available(ps, order) >= 0.0
  {
    if order != [] {
      AvailableIsNonnegative(ps, order[..|order| - 1]);
    }
  }

  lemma {:induction false} StepsAreGreedy(ps: seq<Position>, order: seq<nat>, remaining: real)
    requires InRange(ps, order) && remaining >= 0.0
    ensures Greedy(ps, order, Steps(ps, order, remaining))
  {
    if order != [] && remaining != 0.0 {
      var take := Min(remaining, Abs(ps[order[0]].units.number));
      var rest := Steps(ps, order[1..], remaining - take);
      StepsAreGreedy(ps, order[1..], remaining - take);
      var steps := Steps(ps, order, remaining);
      assert steps == [PlainStep(LotOf(ps[order[0]]), take)] + rest;
      if rest != [] {
        assert remaining - take != 0.0;
      }
      assert forall k :: 0 < k < |steps| ==> steps[k] == rest[k - 1] && order[k] == order[1..][k - 1];
    }
  }

  lemma {:induction false} StepsAddUp(ps: seq<Position>, order: seq<nat>, remaining: real)
    requires InRange(ps, order) && remaining >= 0.0
    ensures Taken(Steps(ps, order, remaining)) == Min(remaining, Available(ps, order))
  {
    AvailableIsNonnegative(ps, order);
    if order != [] && remaining != 0.0 {
      var take := Min(remaining, Abs(ps[order[0]].units.number));
      var rest := Steps(ps, order[1..], remaining - take);
      StepsAddUp(ps, order[1..], remaining - take);
      AvailableFromHead(ps, order);
      AvailableIsNonnegative(ps, order[1..]);
      assert Steps(ps, order, remaining)[1..] == rest;
    }
  }

  lemma {:induction false} AskingForAllEmptiesAll(ps: seq<Position>, order: seq<nat>, remaining: real)
    requires InRange(ps, order) && remaining >= Available(ps, order)
    ensures Emptied(ps, order, Steps(ps, order, remaining))
  {
    AvailableIsNonnegative(ps, order);
    if order != [] {
      AvailableFromHead(ps, order);
      AvailableIsNonnegative(ps, order[1..]);
      if remaining == 0.0 {
        AskingForAllEmptiesAll(ps, order[1..], remaining);
        assert forall k :: 0 < k < |order| ==> order[k] == order[1..][k - 1];
        assert Steps(ps, order[1..], remaining) == [];
      } else {
        var take := Min(remaining, Abs(ps[order[0]].units.number));
        var rest := Steps(ps, order[1..], remaining - take);
        AskingForAllEmptiesAll(ps, order[1..], remaining - take);
        var steps := Steps(ps, order, remaining);
        assert steps == [PlainStep(LotOf(ps[order[0]]), take)] + rest;
        assert forall k :: 0 < k < |order| ==> order[k] == order[1..][k - 1];
        assert forall k :: 0 < k < |steps| ==> steps[k] == rest[k - 1];
      }
    }
  }

  lemma {:induction false} ConsumptionIsTheSelectedInOrder(ps: seq<Position>, commodity: string, m: Matcher, rule: BookingMethod)
    ensures var order := Consumption(ps, commodity, m, rule);
            && StrictlyOrdered(ps, rule == Lifo, order)
            && Distinct(order)
            && (forall i: nat :: i in order <==> i < |ps| && Selected(ps[i], commodity, m))
            && |order| == |Candidates(ps, commodity, m, |ps|)|
            && Available(ps, order) == Available(ps, Candidates(ps, commodity, m, |ps|))
  {
    var cs := Candidates(ps, commodity, m, |ps|);
    var order := Consumption(ps, commodity, m, rule);
    CandidatesAreTheSelected(ps, commodity, m, |ps|);
    OrderedIsSorted(ps, rule == Lifo, cs);
    OrderedDistinct(ps, rule == Lifo, cs);
    AvailableOfOrdered(ps, rule == Lifo, cs);
    assert |order| == |multiset(order)| == |cs|;
    forall i: nat ensures i in order <==> i in cs {
      assert i in order <==> i in multiset(order);
      assert i in cs <==> i in multiset(cs);
    }
  }

  /** Some selected position carries a cost. */
  ghost predicate SelectsCost(ps: seq<Position>, commodity: string, m: Matcher) {
    exists i: nat :: i < |ps| && Selected(ps[i], commodity, m) && ps[i].cost.Some?
  }

  lemma {:induction false} SelectsCostMeansNotAllCash(ps: seq<Position>, commodity: string, m: Matcher)
    ensures SelectsCost(ps, commodity, m) <==> !AllCash(ps, Candidates(ps, commodity, m, |ps|))
  {
    var cs := Candidates(ps, commodity, m, |ps|);
    CandidatesAreTheSelected(ps, commodity, m, |ps|);
    AllCashMeans(ps, cs);
    if SelectsCost(ps, commodity, m) {
      var i: nat :| i < |ps| && Selected(ps[i], commodity, m) && ps[i].cost.Some?;
      assert i in cs;
    }
    if !AllCash(ps, cs) {
      var i :| i in cs && !ps[i].cost.None?;
      assert Selected(ps[i], commodity, m);
    }
  }

  lemma {:induction false} AcceptedReduction(ps: seq<Position>, units: Amount, m: Matcher, rule: BookingMethod)
    requires ReduceResultOf(ps, units, m, rule).Reduced? && units.number != 0.0
    ensures var cs := Candidates(ps, units.currency, m, |ps|);
            var total := Available(ps, cs);
            && cs != []
            && (AllCash(ps, cs) || Abs(units.number) <= total)
            && (rule in {Strict, Default} && |cs| > 1 ==> Abs(units.number) >= total)
    ensures ReduceResultOf(ps, units, m, rule).steps
            == Steps(ps, Consumption(ps, units.currency, m, rule), Abs(units.number))
  {
  }

  /**
   `Reduce` is greedy lot selection. On success it consumes the selected
   positions in booking order, emptying every one but possibly the last; the
   magnitudes add up to what was asked for, or to what is there when only cash
   was selected; STRICT with several candidates empties them all.
   */
  lemma {:induction false} ReduceIsGreedy(ps: seq<Position>, units: Amount, m: Matcher, rule: BookingMethod)
    requires ReduceResultOf(ps, units, m, rule).Reduced? && units.number != 0.0
    ensures var order := Consumption(ps, units.currency, m, rule);
            var steps := ReduceResultOf(ps, units, m, rule).steps;
            && StrictlyOrdered(ps, rule == Lifo, order)
            && (forall i: nat :: i in order <==> i < |ps| && Selected(ps[i], units.currency, m))
            && |steps| > 0
            && Greedy(ps, order, steps)
            && Taken(steps) == Min(Abs(units.number), Available(ps, order))
            && (SelectsCost(ps, units.currency, m) ==> Taken(steps) == Abs(units.number))
            && (rule in {Strict, Default} && |order| > 1 ==> Emptied(ps, order, steps))
  {
    var order := Consumption(ps, units.currency, m, rule);
    AcceptedReduction(ps, units, m, rule);
    ConsumptionIsTheSelectedInOrder(ps, units.currency, m, rule);
    StepsAreGreedy(ps, order, Abs(units.number));
    StepsAddUp(ps, order, Abs(units.number));
    SelectsCostMeansNotAllCash(ps, units.currency, m);
    if rule in {Strict, Default} && |order| > 1 {
      AskingForAllEmptiesAll(ps, order, Abs(units.number));
    }
  }

  /** The matcher that constrains nothing, as it is built for a posting without cost and price. */
  const ANYTHING := Matcher(None, "", None, None)

  /** A list with one position, seen by a reduction. */
  lemma {:induction false} OnlyCandidate(p: Position, commodity: string, m: Matcher, lifo: bool)
    ensures Candidates([p], commodity, m, 1) == if Selected(p, commodity, m) then [0] else []
    ensures Ordered([p], lifo, []) == [] && Ordered([p], lifo, [0]) == [0]
    ensures Available([p], [0]) == Abs(p.units.number) && AllCash([p], [0]) == p.cost.None?
  {
    assert Candidates([p], commodity, m, 0) == [];
    assert [0 as nat][..0] == [];
    assert Ordered([p], lifo, [0]) == InsertOrdered([p], lifo, [], 0);
    assert Available([p], []) == 0.0 && AllCash([p], []);
  }

  /** What a reduction takes from the only candidate of such a list. */
  lemma {:induction false} OnlyConsumed(p: Position, remaining: real)
    requires remaining > 0.0
    ensures var take := Min(remaining, Abs(p.units.number));
            && Steps([p], [0], remaining) == [PlainStep(LotOf(p), take)]
            && StepChanges([p], [0], remaining) == [Change(p.units.currency, p.cost, if p.units.number >= 0.0 then -take else take)]
            && Drained([p], [0], remaining) == [Shrunk(p, take)]
  {
    var take := Min(remaining, Abs(p.units.number));
    assert [0 as nat][1..] == [] && [p][0 := Shrunk(p, take)] == [Shrunk(p, take)];
    assert Steps([p], [], remaining - take) == [] && StepChanges([p], [], remaining - take) == [];
    assert Drained([Shrunk(p, take)], [], remaining - take) == [Shrunk(p, take)];
  }

  /**
   Spending more cash than is held is no error: the position vanishes, one step
   reports what was there, and the rest of the amount is spent from nowhere.
   */
  lemma {:induction false} CashOverdraftIsClamped(held: real, asked: real, c: string, rule: BookingMethod)
    requires 0.0 < held < asked && rule !in {Average, NoBooking}
    ensures var ps, units := [Position(Amount(held, c), None)], Amount(-asked, c);
            && ReduceResultOf(ps, units, ANYTHING, rule) == Reduced([PlainStep(CASH_LOT, held)])
            && ReducedPositions(ps, units, ANYTHING, rule) == []
  {
    var p := Position(Amount(held, c), None);
    assert Selected(p, c, ANYTHING);
    OnlyCandidate(p, c, ANYTHING, rule == Lifo);
    OnlyConsumed(p, asked);
    OnlyRefusal(p, Amount(-asked, c), ANYTHING, rule);
    var left := Shrunk(p, held);
    assert [left][1..] == [] && Compacted([left]) == Compacted([]);
  }

  lemma {:induction false} OnlyRefusal(p: Position, units: Amount, m: Matcher, rule: BookingMethod)
    requires Selected(p, units.currency, m) && p.cost.None?
    ensures RefusalOf([p], units, m, rule) == None
  {
    OnlyCandidate(p, units.currency, m, false);
  }

  /** Exactly when `Reduce` refuses, and with which finding. */
  lemma {:induction false} ReduceRefusesExactly(ps: seq<Position>, units: Amount, m: Matcher, rule: BookingMethod)
    requires rule !in {Average, NoBooking} && units.number != 0.0
    ensures var order := Consumption(ps, units.currency, m, rule);
            var total := Available(ps, order);
            var r := ReduceResultOf(ps, units, m, rule);
            && (r == Refused(NoMatchingLot) <==>
                 forall i: nat :: i < |ps| ==> !Selected(ps[i], units.currency, m))
            && (r == Refused(ReductionExceedsInventory) <==>
                 SelectsCost(ps, units.currency, m) && Abs(units.number) > total)
            && (r == Refused(AmbiguousLotMatch) <==>
                 rule in {Strict, Default} && |order| > 1 && Abs(units.number) < total)
            && (r.Refused? ==> r.code in {NoMatchingLot, ReductionExceedsInventory, AmbiguousLotMatch})
  {
    ConsumptionIsTheSelectedInOrder(ps, units.currency, m, rule);
    SelectsCostMeansNotAllCash(ps, units.currency, m);
    NothingSelected(ps, units.currency, m);
  }

  lemma {:induction false} NothingSelected(ps: seq<Position>, commodity: string, m: Matcher)
    ensures (forall i: nat :: i < |ps| ==> !Selected(ps[i], commodity, m)) <==> Candidates(ps, commodity, m, |ps|) == []
  {
    var cs := Candidates(ps, commodity, m, |ps|);
    CandidatesAreTheSelected(ps, commodity, m, |ps|);
    if cs != [] {
      assert cs[0] in cs;
    }
  }

  // ------------------------------------------------------------------ what a reduction changes

  /** A signed change to the units under one key. */
  datatype Change = Change(commodity: string, cost: Option<Lot>, delta: real)

  function ChangeAt(changes: seq<Change>, commodity: string, cost: Option<Lot>): real {
    if changes == [] then 0.0
    else (if changes[0].commodity == commodity && changes[0].cost == cost then changes[0].delta else 0.0)
         + ChangeAt(changes[1..], commodity, cost)
  }

  /** The change each greedy step makes: towards zero, on whichever side the lot is. */
  function StepChanges(ps: seq<Position>, order: seq<nat>, remaining: real): seq<Change>
    requires InRange(ps, order)
  {
    if order == [] || remaining == 0.0 then []
    else
      var p := ps[order[0]];
      var take := Min(remaining, Abs(p.units.number));
      [Change(p.units.currency, p.cost, if p.units.number >= 0.0 then -take else take)]
      + StepChanges(ps, order[1..], remaining - take)
  }

  lemma {:induction false} UnitsAtUpdate(ps: seq<Position>, i: nat, p: Position, c: string, cost: Option<Lot>)
    requires i < |ps| && SameSlot(ps[i], p)
    ensures UnitsAt(ps[i := p], c, cost)
            == UnitsAt(ps, c, cost)
               + if p.units.currency == c && p.cost == cost then p.units.number - ps[i].units.number else 0.0
  {
    if i > 0 {
      UnitsAtUpdate(ps[1..], i - 1, p, c, cost);
      assert ps[i := p][1..] == ps[1..][i - 1 := p];
    } else {
      assert ps[0 := p][1..] == ps[1..];
    }
  }

  lemma {:induction false} StepsReadOnlyTheirOwnSlots(ps: seq<Position>, qs: seq<Position>, order: seq<nat>, remaining: real)
    requires InRange(ps, order) && InRange(qs, order)
    requires forall k :: 0 <= k < |order| ==> ps[order[k]] == qs[order[k]]
    ensures Steps(ps, order, remaining) == Steps(qs, order, remaining)
    ensures StepChanges(ps, order, remaining) == StepChanges(qs, order, remaining)
  {
    if order != [] && remaining != 0.0 {
      var take := Min(remaining, Abs(ps[order[0]].units.number));
      StepsReadOnlyTheirOwnSlots(ps, qs, order[1..], remaining - take);
    }
  }

  lemma {:induction false} DrainingChangesUnits(ps: seq<Position>, order: seq<nat>, remaining: real, c: string, cost: Option<Lot>)
    requires InRange(ps, order) && Distinct(order)
    ensures UnitsAt(Drained(ps, order, remaining), c, cost)
            == UnitsAt(ps, c, cost) + ChangeAt(StepChanges(ps, order, remaining), c, cost)
    decreases |order|
  {
    if order != [] && remaining != 0.0 {
      var p := ps[order[0]];
      var take := Min(remaining, Abs(p.units.number));
      var next := ps[order[0] := Shrunk(p, take)];
      UnitsAtUpdate(ps, order[0], Shrunk(p, take), c, cost);
      DrainingChangesUnits(next, order[1..], remaining - take, c, cost);
      StepsReadOnlyTheirOwnSlots(ps, next, order[1..], remaining - take);
      assert StepChanges(ps, order, remaining)[1..] == StepChanges(ps, order[1..], remaining - take);
    }
  }

  lemma {:induction false} CompactingKeepsUnits(ps: seq<Position>, c: string, cost: Option<Lot>)
    ensures UnitsAt(Compacted(ps), c, cost) == UnitsAt(ps, c, cost)
  {
    if ps != [] {
      CompactingKeepsUnits(ps[1..], c, cost);
      if ps[0].units.number != 0.0 {
        assert Compacted(ps)[1..] == Compacted(ps[1..]);
      }
    }
  }

  /** What `Reduce` does to the map: each step moves its own key towards zero. */
  function ReduceChanges(ps: seq<Position>, units: Amount, m: Matcher, rule: BookingMethod): seq<Change> {
    if ReduceResultOf(ps, units, m, rule).Reduced? then
      StepChanges(ps, Consumption(ps, units.currency, m, rule), Abs(units.number))
    else []
  }

  lemma {:induction false} ReduceChangesUnits(ps: seq<Position>, units: Amount, m: Matcher, rule: BookingMethod, c: string, cost: Option<Lot>)
    ensures UnitsAt(ReducedPositions(ps, units, m, rule), c, cost)
            == UnitsAt(ps, c, cost) + ChangeAt(ReduceChanges(ps, units, m, rule), c, cost)
  {
    if ReduceResultOf(ps, units, m, rule).Reduced? && units.number != 0.0 {
      var order := Consumption(ps, units.currency, m, rule);
      ConsumptionIsTheSelectedInOrder(ps, units.currency, m, rule);
      DrainingChangesUnits(ps, order, Abs(units.number), c, cost);
      CompactingKeepsUnits(Drained(ps, order, Abs(units.number)), c, cost);
    }
  }

  /** The positions a reduction does not select, in order. */
  function Unselected(ps: seq<Position>, commodity: string, m: Matcher): seq<Position> {
    if ps == [] then []
    else (if Selected(ps[0], commodity, m) then [] else [ps[0]]) + Unselected(ps[1..], commodity, m)
  }

  lemma {:induction false} UnselectedUpdate(ps: seq<Position>, i: nat, p: Position, c: string, m: Matcher)
    requires i < |ps| && SameSlot(ps[i], p) && Selected(ps[i], c, m)
    ensures Unselected(ps[i := p], c, m) == Unselected(ps, c, m)
  {
    if i > 0 {
      UnselectedUpdate(ps[1..], i - 1, p, c, m);
      assert ps[i := p][1..] == ps[1..][i - 1 := p];
    } else {
      assert ps[0 := p][1..] == ps[1..];
    }
  }

  lemma {:induction false} UnselectedDrained(ps: seq<Position>, order: seq<nat>, remaining: real, c: string, m: Matcher)
    requires InRange(ps, order)
    requires forall k :: 0 <= k < |order| ==> Selected(ps[order[k]], c, m)
    ensures Unselected(Drained(ps, order, remaining), c, m) == Unselected(ps, c, m)
    decreases |order|
  {
    if order != [] && remaining != 0.0 {
      var take := Min(remaining, Abs(ps[order[0]].units.number));
      var p := Shrunk(ps[order[0]], take);
      UnselectedUpdate(ps, order[0], p, c, m);
      var next := ps[order[0] := p];
      forall k | 0 <= k < |order[1..]| ensures Selected(next[order[1..][k]], c, m) {
        assert Selected(ps[order[k + 1]], c, m);
      }
      UnselectedDrained(next, order[1..], remaining - take, c, m);
    }
  }

  lemma {:induction false} UnselectedCompacted(ps: seq<Position>, c: string, m: Matcher)
    ensures Unselected(Compacted(ps), c, m) == Compacted(Unselected(ps, c, m))
  {
    if ps != [] {
      UnselectedCompacted(ps[1..], c, m);
      if ps[0].units.number != 0.0 {
        assert Compacted(ps)[1..] == Compacted(ps[1..]);
      }
      var rest := Unselected(ps[1..], c, m);
      assert ([ps[0]] + rest)[1..] == rest && [] + rest == rest;
    }
  }

  /** Nonzero positions that were not selected survive unchanged and in order. */
  lemma {:induction false} ReduceKeepsTheUnselected(ps: seq<Position>, units: Amount, m: Matcher, rule: BookingMethod)
    requires ReduceResultOf(ps, units, m, rule).Reduced? && units.number != 0.0
    ensures Unselected(ReducedPositions(ps, units, m, rule), units.currency, m)
            == Compacted(Unselected(ps, units.currency, m))
  {
    var order := Consumption(ps, units.currency, m, rule);
    ConsumptionIsTheSelectedInOrder(ps, units.currency, m, rule);
    forall k | 0 <= k < |order| ensures Selected(ps[order[k]], units.currency, m) {
      assert order[k] in order;
    }
    UnselectedDrained(ps, order, Abs(units.number), units.currency, m);
    UnselectedCompacted(Drained(ps, order, Abs(units.number)), units.currency, m);
  }

  // ------------------------------------------------------------------ the invariant across Reduce

  lemma {:induction false} DrainingKeepsSlots(ps: seq<Position>, order: seq<nat>, remaining: real)
    requires InRange(ps, order) && remaining >= 0.0
    ensures var r := Drained(ps, order, remaining);
            forall i :: 0 <= i < |ps| ==>
              SameSlot(ps[i], r[i]) && (r[i].units.number == 0.0 || Sign(r[i].units.number) == Sign(ps[i].units.number))
    decreases |order|
  {
    if order != [] && remaining != 0.0 {
      var take := Min(remaining, Abs(ps[order[0]].units.number));
      DrainingKeepsSlots(ps[order[0] := Shrunk(ps[order[0]], take)], order[1..], remaining - take);
    }
  }

  lemma {:induction false} CompactedIsTheNonzeroPart(ps: seq<Position>)
    ensures NoEmptySlot(Compacted(ps))
    ensures forall p :: p in Compacted(ps) ==> p in ps && p.units.number != 0.0
  {
    if ps != [] {
      CompactedIsTheNonzeroPart(ps[1..]);
    }
  }

  lemma {:induction false} CompactedKeepsSlotsUnique(ps: seq<Position>)
    requires UniqueSlots(ps)
    ensures UniqueSlots(Compacted(ps))
  {
    if ps != [] {
      var rest := ps[1..];
      forall i, j | 0 <= i < j < |rest| ensures !SameSlot(rest[i], rest[j]) {
        assert !SameSlot(ps[i + 1], ps[j + 1]);
      }
      CompactedKeepsSlotsUnique(rest);
      CompactedIsTheNonzeroPart(rest);
      var c := Compacted(rest);
      forall j | 0 <= j < |c| ensures !SameSlot(ps[0], c[j]) {
        assert c[j] in c;
        var k :| 0 <= k < |rest| && rest[k] == c[j];
        assert !SameSlot(ps[0], ps[k + 1]);
      }
    }
  }

  /** `Reduce` creates no key and never turns a position round. */
  lemma {:induction false} ReducedSlots(ps: seq<Position>, units: Amount, m: Matcher, rule: BookingMethod)
    ensures forall q :: q in ReducedPositions(ps, units, m, rule) ==>
              exists p :: p in ps && SameSlot(p, q) && Sign(p.units.number) == Sign(q.units.number)
  {
    var r := ReducedPositions(ps, units, m, rule);
    forall q | q in r
      ensures exists p :: p in ps && SameSlot(p, q) && Sign(p.units.number) == Sign(q.units.number)
    {
      if ReduceResultOf(ps, units, m, rule).Reduced? && units.number != 0.0 {
        var order := Consumption(ps, units.currency, m, rule);
        var d := Drained(ps, order, Abs(units.number));
        DrainingKeepsSlots(ps, order, Abs(units.number));
        CompactedIsTheNonzeroPart(d);
        var i :| 0 <= i < |d| && d[i] == q;
        assert ps[i] in ps;
      } else {
        assert q in ps;
      }
    }
  }

  /** `Reduce` keeps the invariant, creates no key and never turns a position round. */
  lemma {:induction false} ReduceKeepsTidy(ps: seq<Position>, units: Amount, m: Matcher, rule: BookingMethod)
    requires Tidy(ps)
    ensures Tidy(ReducedPositions(ps, units, m, rule))
    ensures forall q :: q in ReducedPositions(ps, units, m, rule) ==>
              exists p :: p in ps && SameSlot(p, q) && Sign(p.units.number) == Sign(q.units.number)
  {
    ReducedSlots(ps, units, m, rule);
    if ReduceResultOf(ps, units, m, rule).Reduced? && units.number != 0.0 {
      var order := Consumption(ps, units.currency, m, rule);
      var d := Drained(ps, order, Abs(units.number));
      DrainingKeepsSlots(ps, order, Abs(units.number));
      forall i, j | 0 <= i < j < |d| ensures !SameSlot(d[i], d[j]) {
        assert !SameSlot(ps[i], ps[j]);
      }
      CompactedIsTheNonzeroPart(d);
      CompactedKeepsSlotsUnique(d);
    }
  }
}
