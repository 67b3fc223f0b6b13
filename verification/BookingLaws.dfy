/** What booking one posting keeps, changes and conserves. */
module BookingLaws {
  import opened Prelude
  import opened Amounts
  import opened Inventories
  import opened InventoryLaws
  import opened Costs
  import opened Bookings

  // ------------------------------------------------------------------ invariants

  /** All lots of one commodity and cost currency lie on the same side of zero. */
  ghost predicate OneSign(ps: seq<Position>) {
    forall p, q :: p in ps && q in ps && p.units.currency == q.units.currency
                   && p.cost.Some? && q.cost.Some? && p.cost.value.currency == q.cost.value.currency
                   ==> Sign(p.units.number) == Sign(q.units.number)
  }

  /** The matcher looks exactly where the direction was decided. */
  lemma {:induction false} MatcherFollowsHint(p: Posting, units: Amount)
    requires CostHasCurrency(p.cost)
    ensures MatcherOf(p, units).currency == Hint(p)
  {
  }

  /** A price names the currency of the group while the cost, numbered or booked but without a currency, names none. */
  predicate HintBeyondCost(p: Posting) {
    && p.cost.Some? && p.cost.value.GetCurrency() == "" && SpecIsEmpty(p.cost)
    && (p.cost.value.Spec? ==> p.cost.value.unitCost.Some? || p.cost.value.totalCost.Some?)
    && p.price.Some? && p.price.value.amount.currency != ""
  }

  /** Exactly when direction and matcher look at the same group, for any posting. */
  lemma {:induction false} MatcherFollowsHintIff(p: Posting, units: Amount)
    ensures MatcherOf(p, units).currency == Hint(p) <==> !HintBeyondCost(p)
  {
  }

  /**
   When a booked cost counts as empty, and what that does: the direction is decided
   in the currency of the price while the matcher names none exactly when the lot
   has no currency either.
   */
  lemma {:induction false} BookedCostIsEmptyIff(p: Posting, lot: Lot, perUnit: Option<Amount>, total: Option<Amount>, price: Price, units: Amount)
    requires p.cost == Some(Booked(lot, perUnit, total)) && p.price == Some(price)
    ensures SpecIsEmpty(p.cost) <==> perUnit.None? && total.None? && lot.date == 0 && lot.tag == ""
    ensures Hint(p) != MatcherOf(p, units).currency <==> SpecIsEmpty(p.cost) && lot.currency == "" != price.amount.currency
  {
    MatcherFollowsHintIff(p, units);
  }

  /** An augmentation with a cost lands in the cost currency its hint named. */
  lemma {:induction false} AugmentedLotFollowsHint(ps: seq<Position>, p: Posting, rule: BookingMethod, txnDate: nat)
    requires CostHasCurrency(p.cost)
    ensures var r := OutcomeOf(ps, p, rule, txnDate);
            r.Augmented? && r.lot.Some? ==> r.lot.value.currency == Hint(p) != ""
  {
  }

  lemma {:induction false} AddKeepsOneSign(ps: seq<Position>, p: Position)
    requires OneSign(ps) && p.units.number != 0.0
    requires p.cost.Some? ==>
               forall q :: q in ps && InGroup(q, p.units.currency, p.cost.value.currency) && q.cost.Some?
                           && q.cost.value.currency == p.cost.value.currency
                           ==> Sign(q.units.number) == Sign(p.units.number)
    ensures OneSign(Added(ps, p))
  {
    AddedSlots(ps, p);
    var r := Added(ps, p);
    if p.cost.Some? {
      forall q | q in r && q.units.currency == p.units.currency && q.cost.Some?
                 && q.cost.value.currency == p.cost.value.currency
        ensures Sign(q.units.number) == Sign(p.units.number)
      {
      }
    }
  }

  /**
   Booking a nonzero posting under a reducing method keeps the inventory tidy and
   one-signed; so do findings, which change nothing.
   */
  lemma {:induction false} BookingKeepsTheInvariants(ps: seq<Position>, p: Posting, rule: BookingMethod, txnDate: nat)
    requires Tidy(ps) && OneSign(ps) && rule != NoBooking
    requires p.amount.Some? && p.amount.value.number != 0.0 && CostHasCurrency(p.cost)
    ensures Tidy(BookedPositions(ps, p, rule, txnDate))
    ensures OneSign(BookedPositions(ps, p, rule, txnDate))
  {
    BookingKeepsTidy(ps, p, rule, txnDate);
    var r := OutcomeOf(ps, p, rule, txnDate);
    match r {
      case Augmented(lot) =>
        var units := p.amount.value;
        AugmentedLotFollowsHint(ps, p, rule, txnDate);
        AddKeepsOneSign(ps, Position(units, lot));
      case Consumed(_) =>
        ReduceKeepsTidy(ps, p.amount.value, MatcherOf(p, p.amount.value), rule);
      case _ =>
    }
  }

  /** A posting with the method and the date it is booked by. */
  datatype Entry = Entry(posting: Posting, rule: BookingMethod, date: nat)

  /** What an inventory holds once `entries` are booked in turn. */
  function HeldAfter(ps: seq<Position>, entries: seq<Entry>): seq<Position>
    decreases |entries|
  {
    if entries == [] then ps
    else
      var e := entries[0];
      HeldAfter(BookedPositions(ps, e.posting, e.rule, e.date), entries[1..])
  }

  ghost predicate Reducing(entries: seq<Entry>) {
    forall e :: e in entries ==>
      && e.rule != NoBooking && CostHasCurrency(e.posting.cost)
      && (e.posting.amount.Some? ==> e.posting.amount.value.number != 0.0)
  }

  /** Whatever is booked in whatever order from the empty inventory, it stays tidy and one-signed. */
  lemma {:induction false} InventoriesStaySound(entries: seq<Entry>)
    requires Reducing(entries)
    ensures Tidy(HeldAfter([], entries)) && OneSign(HeldAfter([], entries))
  {
    SoundAfter([], entries);
  }

  lemma {:induction false} SoundAfter(ps: seq<Position>, entries: seq<Entry>)
    requires Tidy(ps) && OneSign(ps) && Reducing(entries)
    ensures Tidy(HeldAfter(ps, entries)) && OneSign(HeldAfter(ps, entries))
    decreases |entries|
  {
    if entries != [] {
      var e := entries[0];
      if e.posting.amount.Some? {
        BookingKeepsTheInvariants(ps, e.posting, e.rule, e.date);
      }
      SoundAfter(BookedPositions(ps, e.posting, e.rule, e.date), entries[1..]);
    }
  }

  /** Tidiness needs no condition on the method or on the cost. */
  lemma {:induction false} BookingKeepsTidy(ps: seq<Position>, p: Posting, rule: BookingMethod, txnDate: nat)
    requires Tidy(ps) && (p.amount.Some? ==> p.amount.value.number != 0.0)
    ensures Tidy(BookedPositions(ps, p, rule, txnDate))
  {
    match OutcomeOf(ps, p, rule, txnDate) {
      case Augmented(lot) => AddKeepsTidy(ps, Position(p.amount.value, lot));
      case Consumed(_) => ReduceKeepsTidy(ps, p.amount.value, MatcherOf(p, p.amount.value), rule);
      case _ =>
    }
  }

  /** Every position the posting's matcher selects lies on the other side of zero. */
  ghost predicate Opposed(ps: seq<Position>, p: Posting)
    requires p.amount.Some?
  {
    var units := p.amount.value;
    forall q :: q in ps && Selected(q, units.currency, MatcherOf(p, units)) ==> Sign(q.units.number) == -Sign(units.number)
  }

  /** With a hint, a reduction in a one-signed inventory only meets opposed cost lots. */
  lemma {:induction false} HintedReductionIsOpposed(ps: seq<Position>, p: Posting, rule: BookingMethod)
    requires Tidy(ps) && OneSign(ps) && CostHasCurrency(p.cost)
    requires p.amount.Some? && Hint(p) != "" && Reduces(ps, p.amount.value, Hint(p), rule)
    ensures Opposed(ps, p)
    ensures forall q :: q in ps && Selected(q, p.amount.value.currency, MatcherOf(p, p.amount.value)) ==> q.cost.Some?
  {
    var units := p.amount.value;
    MatcherFollowsHint(p, units);
    var first := FirstInGroup(ps, units.currency, Hint(p)).value;
    assert first.units.number != 0.0;
    forall q | q in ps && Selected(q, units.currency, MatcherOf(p, units))
      ensures q.cost.Some? && Sign(q.units.number) == -Sign(units.number)
    {
      assert q.units.number != 0.0;
      assert InGroup(q, units.currency, Hint(p));
    }
  }

  // ------------------------------------------------------------------ the effect on the map

  /** The changes booking a posting makes to the map. */
  function BookChanges(ps: seq<Position>, p: Posting, rule: BookingMethod, txnDate: nat): seq<Change> {
    match OutcomeOf(ps, p, rule, txnDate)
    case Augmented(lot) => [Change(p.amount.value.currency, lot, p.amount.value.number)]
    case Consumed(_) => ReduceChanges(ps, p.amount.value, MatcherOf(p, p.amount.value), rule)
    case _ => []
  }

  lemma {:induction false} BookingChangesUnits(ps: seq<Position>, p: Posting, rule: BookingMethod, txnDate: nat, c: string, cost: Option<Lot>)
    ensures UnitsAt(BookedPositions(ps, p, rule, txnDate), c, cost)
            == UnitsAt(ps, c, cost) + ChangeAt(BookChanges(ps, p, rule, txnDate), c, cost)
  {
    match OutcomeOf(ps, p, rule, txnDate) {
      case Augmented(lot) =>
        AddChangesOneKey(ps, Position(p.amount.value, lot), c, cost);
        assert BookChanges(ps, p, rule, txnDate)[1..] == [];
      case Consumed(_) => ReduceChangesUnits(ps, p.amount.value, MatcherOf(p, p.amount.value), rule, c, cost);
      case _ =>
    }
  }

  // ------------------------------------------------------------------ realized gains

  function TotalGain(steps: seq<Step>): real {
    if steps == [] then 0.0 else (if steps[0].gain.Some? then steps[0].gain.value else 0.0) + TotalGain(steps[1..])
  }

  function CostBasis(steps: seq<Step>): real {
    if steps == [] then 0.0 else steps[0].lot.number * steps[0].units + CostBasis(steps[1..])
  }

  /** What the sale brings in: the number itself for `@@`, units times the number for `@`. */
  function Proceeds(price: Price, units: Amount): real {
    if price.isTotal then price.amount.number else price.amount.number * Abs(units.number)
  }

  /** Each step of `filled` carries the gain of selling it at `sale`. */
  ghost predicate GainsAt(steps: seq<Step>, filled: seq<Step>, sale: real) {
    |steps| == |filled| && forall k :: 0 <= k < |steps| ==>
      && filled[k].lot == steps[k].lot && filled[k].units == steps[k].units
      && filled[k].gain.Some? && filled[k].gain.value == GainOf(steps[k], sale)
  }

  function GainOf(step: Step, sale: real): real {
    (sale - step.lot.number) * step.units
  }

  lemma {:induction false} RestGainsAt(steps: seq<Step>, filled: seq<Step>, sale: real)
    requires GainsAt(steps, filled, sale) && steps != []
    ensures GainsAt(steps[1..], filled[1..], sale)
  {
  }

  lemma {:induction false} GainPerUnit(steps: seq<Step>, filled: seq<Step>, sale: real)
    requires GainsAt(steps, filled, sale)
    ensures TotalGain(filled) == sale * Taken(steps) - CostBasis(filled) && Taken(filled) == Taken(steps)
  {
    if steps != [] {
      RestGainsAt(steps, filled, sale);
      GainPerUnit(steps[1..], filled[1..], sale);
      HeadGain(steps, filled, sale);
    }
  }

  lemma {:induction false} HeadGain(steps: seq<Step>, filled: seq<Step>, sale: real)
    requires GainsAt(steps, filled, sale) && steps != []
    ensures TotalGain(filled) - TotalGain(filled[1..]) + sale * Taken(steps[1..])
            == sale * Taken(steps) - (CostBasis(filled) - CostBasis(filled[1..]))
  {
    var number, units := steps[0].lot.number, steps[0].units;
    OneMoreGain((sale - number) * units, number * units, sale, number, units, Taken(steps[1..]), Taken(steps));
  }

  lemma {:induction false} RealizedGainsAt(steps: seq<Step>, price: Price, units: Amount, sale: real)
    requires price.amount.currency != "" && SalePrice(price, units) == Some(sale)
    ensures GainsAt(steps, Realized(steps, Some(price), units), sale)
  {
    if steps != [] {
      var r, rest := Realized(steps, Some(price), units), Realized(steps[1..], Some(price), units);
      RealizedGainsAt(steps[1..], price, units, sale);
      FilledGainsAt(steps, r, rest, sale, price.amount.currency);
    }
  }

  lemma {:induction false} FilledGainsAt(steps: seq<Step>, filled: seq<Step>, rest: seq<Step>, sale: real, currency: string)
    requires steps != [] && filled == [WithGain(steps[0], sale, currency)] + rest && GainsAt(steps[1..], rest, sale)
    ensures GainsAt(steps, filled, sale)
  {
    assert forall k :: 0 < k < |steps| ==> filled[k] == rest[k - 1] && steps[k] == steps[1..][k - 1];
  }

  lemma {:induction false} OneMoreGain(gain: real, basis: real, sale: real, number: real, units: real, taken: real, all: real)
    requires gain == (sale - number) * units && basis == number * units && all == units + taken
    ensures gain + sale * taken == sale * all - basis
  {
  }

  /**
   The realized gains of a sale add up to its proceeds minus the cost basis it consumed,
   for `@` and for `@@` prices alike, exactly when what is sold is held or sells for
   nothing. What is selected with a cost is always held.
   */
  lemma {:induction false} GainsAreProceedsMinusBasis(ps: seq<Position>, p: Posting, rule: BookingMethod, txnDate: nat)
    requires p.amount.Some? && p.amount.value.number != 0.0
    requires p.price.Some? && p.price.value.amount.currency != ""
    requires OutcomeOf(ps, p, rule, txnDate).Consumed?
    ensures var steps, units, m := OutcomeOf(ps, p, rule, txnDate).steps, p.amount.value, MatcherOf(p, p.amount.value);
            var held := Abs(units.number) <= Available(ps, Consumption(ps, units.currency, m, rule));
            && (TotalGain(steps) == Proceeds(p.price.value, units) - CostBasis(steps) <==> held || p.price.value.amount.number == 0.0)
            && (SelectsCost(ps, units.currency, m) ==> held)
  {
    var units, m := p.amount.value, MatcherOf(p, p.amount.value);
    var plain := ReduceResultOf(ps, units, m, rule).steps;
    ReduceIsGreedy(ps, units, m, rule);
    GainsOfPlainSteps(plain, p.price.value, units);
  }

  lemma {:induction false} GainsOfPlainSteps(plain: seq<Step>, price: Price, units: Amount)
    requires price.amount.currency != "" && units.number != 0.0
    ensures var steps := Realized(plain, Some(price), units);
            TotalGain(steps) == Proceeds(price, units) - CostBasis(steps)
            <==> Taken(plain) == Abs(units.number) || price.amount.number == 0.0
  {
    var sale := SalePrice(price, units).value;
    RealizedGainsAt(plain, price, units, sale);
    FilledStepsGain(plain, Realized(plain, Some(price), units), price, units, sale);
  }

  lemma {:induction false} FilledStepsGain(plain: seq<Step>, filled: seq<Step>, price: Price, units: Amount, sale: real)
    requires GainsAt(plain, filled, sale) && units.number != 0.0 && SalePrice(price, units) == Some(sale)
    ensures TotalGain(filled) == Proceeds(price, units) - CostBasis(filled)
            <==> Taken(plain) == Abs(units.number) || price.amount.number == 0.0
  {
    GainPerUnit(plain, filled, sale);
    ProceedsPerUnit(price, units, sale);
    SameTotals(TotalGain(filled), CostBasis(filled), sale, Taken(plain), Abs(units.number), Proceeds(price, units));
  }

  lemma {:induction false} SameTotals(gain: real, basis: real, sale: real, taken: real, sold: real, proceeds: real)
    requires gain == sale * taken - basis && sale * sold == proceeds
    ensures gain == proceeds - basis <==> taken == sold || sale == 0.0
  {
    SameProducts(sale, taken, sold);
  }

  lemma {:induction false} SameProducts(x: real, y: real, z: real)
    ensures x * y == x * z <==> y == z || x == 0.0
  {
    if x * y == x * z {
      assert x * (y - z) == 0.0;
    }
  }

  lemma {:induction false} ProceedsPerUnit(price: Price, units: Amount, sale: real)
    requires units.number != 0.0 && SalePrice(price, units) == Some(sale)
    ensures sale * Abs(units.number) == Proceeds(price, units)
    ensures sale == 0.0 <==> price.amount.number == 0.0
  {
  }
}
