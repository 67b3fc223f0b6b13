/**
 Booking one posting against one inventory: decide whether it augments or
 reduces, then do it, and report the lot it created or the lots it consumed.
 */
module Bookings {
  import opened Prelude
  import opened Amounts
  import opened Inventories
  import opened Costs

  /** The currency that filters the candidate lots, "" when there is none. */
  function Hint(p: Posting): string {
    var own := if p.cost.Some? then p.cost.value.GetCurrency() else "";
    if own == "" && SpecIsEmpty(p.cost) && p.price.Some? then p.price.value.amount.currency else own
  }

  predicate InGroup(p: Position, commodity: string, hint: string) {
    p.units.currency == commodity && (hint != "" ==> p.cost.Some? && p.cost.value.currency == hint)
  }

  /** The first position of the group, which decides the direction of a posting. */
  function FirstInGroup(ps: seq<Position>, commodity: string, hint: string): (r: Option<Position>)
    ensures r.Some? ==> r.value in ps && InGroup(r.value, commodity, hint)
    ensures r.None? ==> forall p :: p in ps ==> !InGroup(p, commodity, hint)
  {
    if ps == [] then None
    else if InGroup(ps[0], commodity, hint) then Some(ps[0])
    else FirstInGroup(ps[1..], commodity, hint)
  }

  /** Whether a posting of `units` reduces: its sign opposes the first of its group. */
  predicate Reduces(ps: seq<Position>, units: Amount, hint: string, rule: BookingMethod) {
    var first := FirstInGroup(ps, units.currency, hint);
    && rule != NoBooking
    && first.Some?
    && units.number != 0.0
    && Sign(first.value.units.number) != Sign(units.number)
  }

  function MatcherOf(p: Posting, units: Amount): Matcher {
    NewMatcher(p.cost, if SpecIsEmpty(p.cost) && p.price.Some? then p.price.value.amount.currency else "", units)
  }

  function SalePrice(price: Price, units: Amount): Option<real> {
    if !price.isTotal then Some(price.amount.number)
    else if units.number == 0.0 then None
    else Some(price.amount.number / Abs(units.number))
  }

  function WithGain(step: Step, salePrice: real, currency: string): Step {
    step.(salePrice := Some(salePrice), gain := Some((salePrice - step.lot.number) * step.units), gainCurrency := currency)
  }

  /** `steps` with sale price and realized gain, when the posting has a price. */
  function Realized(steps: seq<Step>, price: Option<Price>, units: Amount): (r: seq<Step>)
    ensures |r| == |steps|
  {
    if price.None? || price.value.amount.currency == "" || SalePrice(price.value, units).None? then steps
    else if steps == [] then []
    else [WithGain(steps[0], SalePrice(price.value, units).value, price.value.amount.currency)]
         + Realized(steps[1..], price, units)
  }

  datatype Outcome =
    | Augmented(lot: Option<Lot>)
    | Consumed(steps: seq<Step>)
    | Finding(code: Code)
    | Failed

  function OutcomeOf(ps: seq<Position>, p: Posting, rule: BookingMethod, txnDate: nat): Outcome {
    if p.amount.None? then Failed
    else
      var units := p.amount.value;
      if Reduces(ps, units, Hint(p), rule) then
        match ReduceResultOf(ps, units, MatcherOf(p, units), rule)
        case Fault => Failed
        case Refused(code) => Finding(code)
        case Reduced(steps) => Consumed(Realized(steps, p.price, units))
      else
        match ResolveLot(p.cost, units, txnDate)
        case NoLotBecause(code) => Finding(code)
        case NoLot => Augmented(None)
        case TheLot(lot) => Augmented(Some(lot))
  }

  /** The inventory after booking; a finding or a failure leaves it alone. */
  function BookedPositions(ps: seq<Position>, p: Posting, rule: BookingMethod, txnDate: nat): seq<Position> {
    match OutcomeOf(ps, p, rule, txnDate)
    case Augmented(lot) => Added(ps, Position(p.amount.value, lot))
    case Consumed(_) => ReducedPositions(ps, p.amount.value, MatcherOf(p, p.amount.value), rule)
    case _ => ps
  }

  /** Routes one posting through `inv`. */
  method BookOne(inv: Inventory, p: Posting, rule: BookingMethod, txnDate: nat) returns (r: Outcome)
    modifies inv
    ensures r == OutcomeOf(old(inv.positions), p, rule, txnDate)
    ensures inv.positions == BookedPositions(old(inv.positions), p, rule, txnDate)
  {
    if p.amount.None? { return Failed; }
    if Reduces(inv.positions, p.amount.value, Hint(p), rule) {
      r := BookReduce(inv, p, rule);
    } else {
      r := BookAugment(inv, p, txnDate);
    }
  }

  method BookAugment(inv: Inventory, p: Posting, txnDate: nat) returns (r: Outcome)
    requires p.amount.Some?
    modifies inv
    ensures match ResolveLot(p.cost, p.amount.value, txnDate)
            case NoLotBecause(code) => r == Finding(code) && inv.positions == old(inv.positions)
            case NoLot => r == Augmented(None) && inv.positions == Added(old(inv.positions), Position(p.amount.value, None))
            case TheLot(lot) =>
              r == Augmented(Some(lot)) && inv.positions == Added(old(inv.positions), Position(p.amount.value, Some(lot)))
  {
    match ResolveLot(p.cost, p.amount.value, txnDate) {
      case NoLotBecause(code) => return Finding(code);
      case NoLot =>
        inv.Add(Position(p.amount.value, None));
        return Augmented(None);
      case TheLot(lot) =>
        inv.Add(Position(p.amount.value, Some(lot)));
        return Augmented(Some(lot));
    }
  }

  method BookReduce(inv: Inventory, p: Posting, rule: BookingMethod) returns (r: Outcome)
    requires p.amount.Some?
    modifies inv
    ensures inv.positions == ReducedPositions(old(inv.positions), p.amount.value, MatcherOf(p, p.amount.value), rule)
    ensures match ReduceResultOf(old(inv.positions), p.amount.value, MatcherOf(p, p.amount.value), rule)
            case Fault => r == Failed
            case Refused(code) => r == Finding(code)
            case Reduced(steps) => r == Consumed(Realized(steps, p.price, p.amount.value))
  {
    var result := inv.Reduce(p.amount.value, MatcherOf(p, p.amount.value), rule);
    match result {
      case Fault => return Failed;
      case Refused(code) => return Finding(code);
      case Reduced(steps) =>
        if p.price.Some? && p.price.value.amount.currency != "" {
          var filled := FillRealizedGain(steps, p.price.value, p.amount.value);
          return Consumed(filled);
        }
        return Consumed(steps);
    }
  }

  method FillRealizedGain(steps: seq<Step>, price: Price, units: Amount) returns (filled: seq<Step>)
    requires price.amount.currency != ""
    ensures filled == Realized(steps, Some(price), units)
  {
    var sale := SalePrice(price, units);
    if sale.None? { return steps; }
    filled := [];
    for i := 0 to |steps|
      invariant Realized(steps, Some(price), units) == filled + Realized(steps[i..], Some(price), units)
    {
      assert steps[i..][1..] == steps[i + 1..];
      filled := filled + [WithGain(steps[i], sale.value, price.amount.currency)];
    }
  }
}
