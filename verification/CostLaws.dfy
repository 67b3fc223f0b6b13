/** How the readings of a cost agree: the lot it opens, the lots it selects and the weight it gives. */
module CostLaws {
  import opened Prelude
  import opened Amounts
  import opened Costs

  /** The lot that a cost opens is selected by the same cost on a posting of as many units, whatever its sign or price. */
  lemma {:induction false} OpenedLotIsFound(c: Option<CostHolder>, units: Amount, txnDate: nat, closing: Amount, priceCurrency: string)
    requires ResolveLot(c, units, txnDate).TheLot? && Abs(closing.number) == Abs(units.number)
    ensures NewMatcher(c, priceCurrency, closing).Matches(ResolveLot(c, units, txnDate).lot)
  {
    if c.value.Spec? && c.value.totalCost.Some? {
      assert PerUnitCost(c.value, closing) == PerUnitCost(c.value, units);
    }
  }

  /** A booked cost selects exactly the lots with its number and, as far as it has them, its currency, date and label. */
  lemma {:induction false} BookedCostSelects(lot: Lot, perUnit: Option<Amount>, total: Option<Amount>, units: Amount, priceCurrency: string, other: Lot)
    ensures NewMatcher(Some(Booked(lot, perUnit, total)), priceCurrency, units).Matches(other)
            <==> && other.number == lot.number && (lot.currency != "" ==> other.currency == lot.currency)
                 && (lot.date != 0 ==> other.date == lot.date) && (lot.tag != "" ==> other.tag == lot.tag)
  {
    assert NewMatcher(Some(Booked(lot, perUnit, total)), priceCurrency, units).perUnit == Some(lot.number);
  }

  /** Spreading a total over the units and multiplying back. */
  lemma {:induction false} SpreadTotal(units: real, total: real)
    requires units != 0.0
    ensures units * (total / Abs(units)) == if units < 0.0 then -total else total
  {
    var quo := total / Abs(units);
    assert quo * Abs(units) == total;
  }

  /**
   What an augmentation weighs against what its lot is worth: they agree exactly when
   the total its cost writes, if there is one, is not negative.
   */
  lemma {:induction false} WeightIsLotValueIff(p: Posting, txnDate: nat)
    requires p.amount.Some? && p.cost.Some? && p.cost.value.Spec? && p.cost.value.currency != ""
    requires ResolveLot(p.cost, p.amount.value, txnDate).TheLot?
    ensures var units, lot := p.amount.value.number, ResolveLot(p.cost, p.amount.value, txnDate).lot;
            && PostingWeight(p).Ok? && PostingWeight(p).value.Some?
            && PostingWeight(p).value.value.currency == lot.currency
            && (PostingWeight(p).value.value.number == units * lot.number
                <==> (p.cost.value.totalCost.Some? ==> p.cost.value.totalCost.value >= 0.0))
  {
    var units, c := p.amount.value.number, p.cost.value;
    if c.totalCost.Some? {
      SpreadTotal(units, c.totalCost.value);
      if c.unitCost.Some? {
        var quo := c.totalCost.value / Abs(units);
        assert units * (c.unitCost.value + quo) == units * c.unitCost.value + units * quo;
      }
    }
  }

  /** Ten units at a total of -50: they weigh 50, and their lot is worth -50. */
  lemma {:induction false} NegativeTotalSplits(account: string, commodity: string, c: string, txnDate: nat, rest: int)
    requires c != ""
    ensures var p := Posting(account, Some(Amount(10.0, commodity)), Some(Spec(None, Some(-50.0), c, None, "")), None, rest);
            && PostingWeight(p) == Ok(Some(Amount(50.0, c)))
            && ResolveLot(p.cost, p.amount.value, txnDate) == TheLot(Lot(-5.0, c, txnDate, ""))
  {
  }

  function Negated(p: Posting): Posting
    requires p.amount.Some?
  {
    p.(amount := Some(Amount(-p.amount.value.number, p.amount.value.currency)))
  }

  /** The same failure, no weight either, or opposite weights in one currency. */
  predicate Opposite(a: Result<Option<Amount>, ()>, b: Result<Option<Amount>, ()>) {
    match (a, b)
    case (Ok(Some(v)), Ok(Some(w))) => w.number == -v.number && w.currency == v.currency
    case (Ok(None), Ok(None)) => true
    case (Err(_), Err(_)) => true
    case _ => false
  }

  /** Turning the units round turns the weight round, in the same currency. */
  lemma {:induction false} WeightFollowsUnits(p: Posting)
    requires p.amount.Some? && p.amount.value.number != 0.0
    ensures Opposite(PostingWeight(p), PostingWeight(Negated(p)))
  {
    var x := p.amount.value.number;
    if p.cost.Some? {
      var u := p.cost.value.GetPerUnit();
      if u.Some? {
        NegatedProduct(x, u.value.number);
      }
      if p.cost.value.Booked? {
        NegatedProduct(x, p.cost.value.lot.number);
      }
    }
    if p.price.Some? {
      NegatedProduct(x, p.price.value.amount.number);
    }
  }

  lemma {:induction false} NegatedProduct(x: real, y: real)
    ensures (-x) * y == -(x * y)
  {
  }
}
