/**
 The lot inventory: a list of positions in insertion order, changed in place by
 `Add` and `Reduce`.

 The functions over `seq<Position>` say what the two operations do to the list;
 the lemmas say what that means: the list refines a map from (commodity, lot)
 to units, and a reduction is exactly greedy selection in date order.
 */
module Inventories {
  import opened Prelude
  import opened Amounts

  datatype BookingMethod = Default | Strict | Fifo | Lifo | Average | NoBooking

  datatype Code =
    | NoMatchingLot
    | AmbiguousLotMatch
    | ReductionExceedsInventory
    | InvalidBookingMethod
    | AugmentationRequiresCost
    | ZeroUnitsCostTotal
    | UnresolvableInterpolation
    | InvalidAutoPosting
    | MultipleAutoPostings

  /** Filters lots; an absent constraint matches anything. */
  datatype Matcher = Matcher(perUnit: Option<real>, currency: string, date: Option<nat>, tag: Option<string>)
  {
    predicate Matches(lot: Lot) {
      && (perUnit.Some? ==> lot.number == perUnit.value)
      && (currency != "" ==> lot.currency == currency)
      && (date.Some? ==> lot.date == date.value)
      && (tag.Some? ==> lot.tag == tag.value)
    }
  }

  // ------------------------------------------------------------------ Add

  predicate SameSlot(a: Position, b: Position) {
    a.units.currency == b.units.currency && a.cost == b.cost
  }

  /** `ps` after `p` is merged into its slot, or appended when it has none. */
  function Added(ps: seq<Position>, p: Position): seq<Position> {
    if ps == [] then [p]
    else if SameSlot(ps[0], p) then
      var sum := ps[0].units.number + p.units.number;
      if sum == 0.0 then ps[1..] else [ps[0].(units := ps[0].units.(number := sum))] + ps[1..]
    else [ps[0]] + Added(ps[1..], p)
  }

  lemma {:induction false} AddedMerges(ps: seq<Position>, p: Position, i: nat)
    requires i < |ps| && SameSlot(ps[i], p) && forall k :: 0 <= k < i ==> !SameSlot(ps[k], p)
    ensures var sum := ps[i].units.number + p.units.number;
            Added(ps, p) == if sum == 0.0 then ps[..i] + ps[i + 1..] else ps[i := ps[i].(units := ps[i].units.(number := sum))]
  {
    if i > 0 {
      AddedMerges(ps[1..], p, i - 1);
    }
  }

  lemma {:induction false} AddedAppends(ps: seq<Position>, p: Position)
    requires forall k :: 0 <= k < |ps| ==> !SameSlot(ps[k], p)
    ensures Added(ps, p) == ps + [p]
  {
    if ps != [] {
      AddedAppends(ps[1..], p);
    }
  }

  // ------------------------------------------------------------------ Reduce

  /** A lot consumption; the last three fields are filled by the booking layer. */
  datatype Step = Step(lot: Lot, units: real, salePrice: Option<real>, gain: Option<real>, gainCurrency: string)

  function PlainStep(lot: Lot, units: real): Step {
    Step(lot, units, None, None, "")
  }

  datatype ReduceResult =
    | Reduced(steps: seq<Step>)
    | Refused(code: Code)
    | Fault

  predicate Selected(p: Position, commodity: string, m: Matcher) {
    p.units.currency == commodity && m.Matches(LotOf(p))
  }

  predicate InRange(ps: seq<Position>, order: seq<nat>) {
    forall k :: 0 <= k < |order| ==> order[k] < |ps|
  }

  predicate Distinct(order: seq<nat>) {
    forall j, k :: 0 <= j < k < |order| ==> order[j] != order[k]
  }

  /** Indices of the selected positions among the first `n`, ascending. */
  function Candidates(ps: seq<Position>, commodity: string, m: Matcher, n: nat): (cs: seq<nat>)
    requires n <= |ps|
    ensures InRange(ps, cs)
  {
    if n == 0 then []
    else
      var cs := Candidates(ps, commodity, m, n - 1);
      if Selected(ps[n - 1], commodity, m) then cs + [n - 1] else cs
  }

  lemma {:induction false} CandidatesAreTheSelected(ps: seq<Position>, commodity: string, m: Matcher, n: nat)
    requires n <= |ps|
    ensures var cs := Candidates(ps, commodity, m, n);
            && (forall j, k :: 0 <= j < k < |cs| ==> cs[j] < cs[k])
            && (forall i: nat :: i in cs <==> i < n && Selected(ps[i], commodity, m))
  {
    if n > 0 {
      CandidatesAreTheSelected(ps, commodity, m, n - 1);
      var prev := Candidates(ps, commodity, m, n - 1);
      assert forall k :: 0 <= k < |prev| ==> prev[k] in prev;
    }
  }

  /** Total magnitude held by the positions at `order`. */
  function Available(ps: seq<Position>, order: seq<nat>): real
    requires InRange(ps, order)
  {
    if order == [] then 0.0 else Available(ps, order[..|order| - 1]) + Abs(ps[order[|order| - 1]].units.number)
  }

  predicate AllCash(ps: seq<Position>, order: seq<nat>)
    requires InRange(ps, order)
  {
    order == [] || (ps[order[|order| - 1]].cost.None? && AllCash(ps, order[..|order| - 1]))
  }

  function LotDate(p: Position): nat {
    LotOf(p).date
  }

  /** FIFO goes by date, then by insertion; LIFO is the mirror image of both. */
  predicate Precedes(ps: seq<Position>, lifo: bool, i: nat, j: nat)
    requires i < |ps| && j < |ps|
  {
    var di, dj := LotDate(ps[i]), LotDate(ps[j]);
    if lifo then di > dj || (di == dj && i > j) else di < dj || (di == dj && i < j)
  }

  /** `order` with `i` put before the first element that does not precede it. */
  function InsertOrdered(ps: seq<Position>, lifo: bool, order: seq<nat>, i: nat): (r: seq<nat>)
    requires InRange(ps, order) && i < |ps|
    ensures InRange(ps, r) && multiset(r) == multiset(order) + multiset{i}
  {
    if order == [] then [i]
    else if Precedes(ps, lifo, order[0], i) then
      var head, rest := order[0], InsertOrdered(ps, lifo, order[1..], i);
      HeadAndRest(order, rest, i);
      [head] + rest
    else [i] + order
  }

  lemma {:induction false} HeadAndRest(order: seq<nat>, rest: seq<nat>, i: nat)
    requires order != [] && multiset(rest) == multiset(order[1..]) + multiset{i}
    ensures multiset([order[0]] + rest) == multiset(order) + multiset{i}
  {
    assert order == [order[0]] + order[1..];
  }

  function Ordered(ps: seq<Position>, lifo: bool, cs: seq<nat>): (r: seq<nat>)
    requires InRange(ps, cs)
    ensures InRange(ps, r) && multiset(r) == multiset(cs)
  {
    if cs == [] then []
    else
      var last := |cs| - 1;
      assert cs == cs[..last] + [cs[last]];
      InsertOrdered(ps, lifo, Ordered(ps, lifo, cs[..last]), cs[last])
  }

  /** The order in which `rule` consumes the selected positions. */
  function Consumption(ps: seq<Position>, commodity: string, m: Matcher, rule: BookingMethod): (r: seq<nat>)
    ensures InRange(ps, r)
  {
    Ordered(ps, rule == Lifo, Candidates(ps, commodity, m, |ps|))
  }

  function Shrunk(p: Position, take: real): Position {
    if p.units.number >= 0.0 then p.(units := p.units.(number := p.units.number - take))
    else p.(units := p.units.(number := p.units.number + take))
  }

  /** Greedy consumption of `remaining` units along `order`. */
  function Steps(ps: seq<Position>, order: seq<nat>, remaining: real): seq<Step>
    requires InRange(ps, order)
  {
    if order == [] || remaining == 0.0 then []
    else
      var take := Min(remaining, Abs(ps[order[0]].units.number));
      [PlainStep(LotOf(ps[order[0]]), take)] + Steps(ps, order[1..], remaining - take)
  }

  /** The positions after that consumption, before emptied slots are deleted. */
  function Drained(ps: seq<Position>, order: seq<nat>, remaining: real): (r: seq<Position>)
    requires InRange(ps, order)
    ensures |r| == |ps|
    decreases |order|
  {
    if order == [] || remaining == 0.0 then ps
    else
      var take := Min(remaining, Abs(ps[order[0]].units.number));
      Drained(ps[order[0] := Shrunk(ps[order[0]], take)], order[1..], remaining - take)
  }

  function Compacted(ps: seq<Position>): seq<Position> {
    if ps == [] then []
    else if ps[0].units.number == 0.0 then Compacted(ps[1..])
    else [ps[0]] + Compacted(ps[1..])
  }

  /** Why a reduction of `size` units is refused, in the order in which the checks are made. */
  function Refusal(found: nat, allCash: bool, total: real, size: real, rule: BookingMethod): Option<Code> {
    if found == 0 then Some(NoMatchingLot)
    else if !allCash && size > total then Some(ReductionExceedsInventory)
    else if rule in {Strict, Default} && found > 1 && size < total then Some(AmbiguousLotMatch)
    else None
  }

  function RefusalOf(ps: seq<Position>, units: Amount, m: Matcher, rule: BookingMethod): Option<Code> {
    var cs := Candidates(ps, units.currency, m, |ps|);
    Refusal(|cs|, AllCash(ps, cs), Available(ps, cs), Abs(units.number), rule)
  }

  function ReduceResultOf(ps: seq<Position>, units: Amount, m: Matcher, rule: BookingMethod): ReduceResult {
    if rule == Average then Refused(InvalidBookingMethod)
    else if rule == NoBooking then Fault
    else if units.number == 0.0 then Reduced([])
    else match RefusalOf(ps, units, m, rule)
      case Some(code) => Refused(code)
      case None => Reduced(Steps(ps, Consumption(ps, units.currency, m, rule), Abs(units.number)))
  }

  /** The list after `Reduce`; anything but a nonempty success leaves it alone. */
  function ReducedPositions(ps: seq<Position>, units: Amount, m: Matcher, rule: BookingMethod): seq<Position> {
    if ReduceResultOf(ps, units, m, rule).Reduced? && units.number != 0.0 then
      Compacted(Drained(ps, Consumption(ps, units.currency, m, rule), Abs(units.number)))
    else ps
  }

  lemma {:induction false} InsertedIsDistinct(ps: seq<Position>, lifo: bool, order: seq<nat>, i: nat)
    requires InRange(ps, order) && i < |ps| && Distinct(order) && i !in order
    ensures Distinct(InsertOrdered(ps, lifo, order, i))
  {
    if order != [] && Precedes(ps, lifo, order[0], i) {
      var rest := InsertOrdered(ps, lifo, order[1..], i);
      InsertedIsDistinct(ps, lifo, order[1..], i);
      assert forall x :: x in rest <==> x in multiset(rest);
      assert order[0] !in rest;
    }
  }

  lemma {:induction false} OrderedDistinct(ps: seq<Position>, lifo: bool, cs: seq<nat>)
    requires InRange(ps, cs)
    requires Distinct(cs)
    ensures Distinct(Ordered(ps, lifo, cs))
  {
    if cs != [] {
      var last := |cs| - 1;
      var front := Ordered(ps, lifo, cs[..last]);
      OrderedDistinct(ps, lifo, cs[..last]);
      assert forall x :: x in front <==> x in multiset(front);
      InsertedIsDistinct(ps, lifo, front, cs[last]);
    }
  }

  lemma {:induction false} CandidatesAreDistinct(ps: seq<Position>, commodity: string, m: Matcher)
    ensures Distinct(Candidates(ps, commodity, m, |ps|))
  {
    CandidatesAreTheSelected(ps, commodity, m, |ps|);
  }

  /** What an accepted reduction does, in terms of its candidates. */
  lemma {:induction false} Accepted(ps: seq<Position>, units: Amount, m: Matcher, rule: BookingMethod, cs: seq<nat>)
    requires cs == Candidates(ps, units.currency, m, |ps|) && rule !in {Average, NoBooking} && units.number != 0.0
    requires Refusal(|cs|, AllCash(ps, cs), Available(ps, cs), Abs(units.number), rule) == None
    ensures ReduceResultOf(ps, units, m, rule) == Reduced(Steps(ps, Ordered(ps, rule == Lifo, cs), Abs(units.number)))
    ensures ReducedPositions(ps, units, m, rule)
            == Compacted(Drained(ps, Ordered(ps, rule == Lifo, cs), Abs(units.number)))
  {
  }

  // ------------------------------------------------------------------ the class

  class Inventory {
    var positions: seq<Position>

    constructor ()
      ensures positions == []
    {
      positions := [];
    }

    method Add(p: Position)
      modifies this
      ensures positions == Added(old(positions), p)
    {
      var idx := 0;
      while idx < |positions|
        invariant idx <= |positions| && positions == old(positions)
        invariant forall k :: 0 <= k < idx ==> !SameSlot(positions[k], p)
      {
        var existing := positions[idx];
        if SameSlot(existing, p) {
          AddedMerges(positions, p, idx);
          var sum := existing.units.number + p.units.number;
          positions := positions[idx := existing.(units := existing.units.(number := sum))];
          if sum == 0.0 {
            positions := positions[..idx] + positions[idx + 1..];
          }
          return;
        }
        idx := idx + 1;
      }
      AddedAppends(positions, p);
      positions := positions + [p];
    }

    method Reduce(units: Amount, matcher: Matcher, rule: BookingMethod) returns (r: ReduceResult)
      modifies this
      ensures r == ReduceResultOf(old(positions), units, matcher, rule)
      ensures positions == ReducedPositions(old(positions), units, matcher, rule)
      ensures !r.Reduced? ==> positions == old(positions)
    {
      if rule == Average { return Refused(InvalidBookingMethod); }
      if rule == NoBooking { return Fault; }
      var remaining := Abs(units.number);
      if remaining == 0.0 { return Reduced([]); }

      var candidates, totalAvailable, allCash := Collect(units.currency, matcher);
      var refusal := Refuse(|candidates|, allCash, totalAvailable, remaining, rule);
      if refusal.Some? { return Refused(refusal.value); }
      Accepted(positions, units, matcher, rule, candidates);
      CandidatesAreDistinct(positions, units.currency, matcher);
      var steps := ConsumeCandidates(candidates, rule == Lifo, remaining);
      return Reduced(steps);
    }

    /** Why a reduction is refused, if it is. */
    static method Refuse(found: nat, allCash: bool, totalAvailable: real, remaining: real, rule: BookingMethod) returns (code: Option<Code>)
      ensures code == Refusal(found, allCash, totalAvailable, remaining, rule)
    {
      if found == 0 { return Some(NoMatchingLot); }
      if !allCash && remaining > totalAvailable { return Some(ReductionExceedsInventory); }
      if (rule == Strict || rule == Default) && found > 1 {
        if remaining < totalAvailable { return Some(AmbiguousLotMatch); }
      }
      return None;
    }

    /** Consumes the candidates in booking order, then deletes the emptied slots. */
    method ConsumeCandidates(candidates: seq<nat>, lifo: bool, units: real) returns (steps: seq<Step>)
      requires InRange(positions, candidates) && Distinct(candidates)
      modifies this
      ensures positions == Compacted(Drained(old(positions), Ordered(old(positions), lifo, candidates), units))
      ensures steps == Steps(old(positions), Ordered(old(positions), lifo, candidates), units)
    {
      OrderedDistinct(positions, lifo, candidates);
      var order := SortCandidates(candidates, lifo);
      steps := Consume(order, units);
      DeleteEmptied();
    }

    /** The positions of `commodity` that `matcher` selects, and what they hold. */
    method Collect(commodity: string, matcher: Matcher)
      returns (candidates: seq<nat>, totalAvailable: real, allCash: bool)
      ensures candidates == Candidates(positions, commodity, matcher, |positions|)
      ensures totalAvailable == Available(positions, candidates)
      ensures allCash == AllCash(positions, candidates)
    {
      candidates, totalAvailable, allCash := [], 0.0, true;
      for idx := 0 to |positions|
        invariant candidates == Candidates(positions, commodity, matcher, idx)
        invariant InRange(positions, candidates)
        invariant totalAvailable == Available(positions, candidates)
        invariant allCash == AllCash(positions, candidates)
      {
        var p := positions[idx];
        if p.units.currency == commodity && matcher.Matches(LotOf(p)) {
          assert (candidates + [idx])[..|candidates|] == candidates;
          candidates := candidates + [idx];
          allCash := allCash && p.cost.None?;
          totalAvailable := totalAvailable + Abs(p.units.number);
        }
      }
    }

    /** The sort of the candidates by lot date and insertion order. */
    method SortCandidates(candidates: seq<nat>, lifo: bool) returns (order: seq<nat>)
      requires InRange(positions, candidates)
      ensures order == Ordered(positions, lifo, candidates)
    {
      order := [];
      for k := 0 to |candidates|
        invariant order == Ordered(positions, lifo, candidates[..k])
      {
        assert candidates[..k + 1][..k] == candidates[..k];
        order := InsertOrdered(positions, lifo, order, candidates[k]);
      }
      assert candidates[..|candidates|] == candidates;
    }

    method Consume(order: seq<nat>, units: real) returns (steps: seq<Step>)
      requires InRange(positions, order)
      requires Distinct(order)
      modifies this
      ensures positions == Drained(old(positions), order, units)
      ensures steps == Steps(old(positions), order, units)
    {
      steps := [];
      var remaining := units;
      var c := 0;
      while c < |order|
        invariant c <= |order| && |positions| == |old(positions)|
        invariant forall k :: c <= k < |order| ==> positions[order[k]] == old(positions)[order[k]]
        invariant Drained(old(positions), order, units) == Drained(positions, order[c..], remaining)
        invariant Steps(old(positions), order, units) == steps + Steps(old(positions), order[c..], remaining)
      {
        if remaining == 0.0 { break; }
        var p := positions[order[c]];
        var available := Abs(p.units.number);
        var take := if remaining >= available then available else remaining;
        assert take == Min(remaining, available);
        assert order[c..][1..] == order[c + 1..];
        positions := positions[order[c] := Shrunk(p, take)];
        remaining := remaining - take;
        steps := steps + [PlainStep(LotOf(p), take)];
        c := c + 1;
      }
    }

    /** Deletes emptied slots back to front, so earlier indices do not shift. */
    method DeleteEmptied()
      modifies this
      ensures positions == Compacted(old(positions))
    {
      var idx := |positions| - 1;
      while idx >= 0
        invariant -1 <= idx < |positions|
        invariant idx < |old(positions)| && positions[..idx + 1] == old(positions)[..idx + 1]
        invariant positions[idx + 1..] == Compacted(old(positions)[idx + 1..])
      {
        assert old(positions)[idx..][1..] == old(positions)[idx + 1..];
        assert positions[idx] == positions[..idx + 1][idx] == old(positions)[idx];
        if positions[idx].units.number == 0.0 {
          positions := positions[..idx] + positions[idx + 1..];
        }
        idx := idx - 1;
      }
    }
  }
}
