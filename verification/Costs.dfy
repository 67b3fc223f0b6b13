/** Costs, prices and the weight a posting contributes to its transaction. */
module Costs {
  import opened Prelude
  import opened Amounts
  import opened Inventories

  /** What a posting writes between braces, or the booked form of it. */
  datatype CostHolder =
    | Spec(unitCost: Option<real>, totalCost: Option<real>, currency: string, date: Option<nat>, tag: string)
    | Booked(lot: Lot, perUnit: Option<Amount>, total: Option<Amount>)
  {
    function GetPerUnit(): Option<Amount> {
      match this
      case Spec(u, _, c, _, _) => if u.None? || c == "" then None else Some(Amount(u.value, c))
      case Booked(_, u, _) => u
    }

    function GetTotal(): Option<Amount> {
      match this
      case Spec(_, t, c, _, _) => if t.None? || c == "" then None else Some(Amount(t.value, c))
      case Booked(_, _, t) => t
    }

    function GetCurrency(): string {
      match this
      case Spec(_, _, c, _, _) => c
      case Booked(l, _, _) => l.currency
    }

    predicate HasDate() {
      match this
      case Spec(_, _, _, d, _) => d.Some?
      case Booked(l, _, _) => l.date != 0
    }

    function GetTag(): string {
      match this
      case Spec(_, _, _, _, t) => t
      case Booked(l, _, _) => l.tag
    }
  }

  datatype Price = Price(amount: Amount, isTotal: bool)

  /** `rest` stands for the flag, span and metadata, which booking copies verbatim. */
  datatype Posting = Posting(account: string, amount: Option<Amount>, cost: Option<CostHolder>, price: Option<Price>, rest: int)

  predicate SpecIsEmpty(c: Option<CostHolder>) {
    c.None? || (c.value.GetPerUnit().None? && c.value.GetTotal().None? && !c.value.HasDate() && c.value.GetTag() == "")
  }

  /** A cost whose number booking must still find. */
  predicate CostNumberMissing(c: Option<CostHolder>) {
    c.Some? && c.value.Spec? && c.value.GetPerUnit().None? && c.value.GetTotal().None?
  }

  /** A written or booked cost number always comes with a currency. */
  ghost predicate CostHasCurrency(c: Option<CostHolder>) {
    match c
    case None => true
    case Some(Spec(u, t, currency, _, _)) => u.Some? || t.Some? ==> currency != ""
    case Some(Booked(lot, _, _)) => lot.currency != ""
  }

  /** The per-unit cost; the error is a total cost over zero units. */
  function PerUnitCost(c: CostHolder, units: Amount): Result<Option<Amount>, ()> {
    match c
    case Booked(lot, _, _) =>
      if lot.currency == "" then Ok(None) else Ok(Some(Amount(lot.number, lot.currency)))
    case Spec(u, t, currency, _, _) =>
      if u.None? && t.None? then Ok(None)
      else if t.None? then Ok(Some(Amount(u.value, currency)))
      else if units.number == 0.0 then Err(())
      else
        var quo := t.value / Abs(units.number);
        Ok(Some(Amount(if u.None? then quo else u.value + quo, currency)))
  }

  datatype LotResult = NoLot | TheLot(lot: Lot) | NoLotBecause(code: Code)

  /** The lot an augmentation creates. */
  function ResolveLot(c: Option<CostHolder>, units: Amount, txnDate: nat): LotResult {
    match c
    case None => NoLot
    case Some(Booked(lot, _, _)) => TheLot(lot)
    case Some(Spec(u, t, currency, date, tag)) =>
      if u.None? && t.None? then NoLotBecause(AugmentationRequiresCost)
      else if t.Some? && units.number == 0.0 then NoLotBecause(ZeroUnitsCostTotal)
      else
        var when := if date.Some? && date.value != 0 then date.value else txnDate;
        TheLot(Lot(PerUnitCost(c.value, units).value.value.number, currency, when, tag))
  }

  /** The matcher a reduction uses. */
  function NewMatcher(c: Option<CostHolder>, priceCurrency: string, units: Amount): Matcher {
    match c
    case None => Matcher(None, priceCurrency, None, None)
    case Some(Booked(lot, _, _)) =>
      Matcher(Some(lot.number), lot.currency,
              if lot.date != 0 then Some(lot.date) else None,
              if lot.tag != "" then Some(lot.tag) else None)
    case Some(Spec(u, t, currency, date, tag)) =>
      var numbered := u.Some? || t.Some?;
      var perUnit := PerUnitCost(c.value, units);
      Matcher(if numbered && perUnit.Ok? && perUnit.value.Some? then Some(perUnit.value.value.number) else None,
              if numbered || currency != "" then currency else priceCurrency,
              if date.Some? && date.value != 0 then date else None,
              if tag != "" then Some(tag) else None)
  }

  /** The cost-side contribution of a posting; the error is two currencies in one combined cost. */
  function TotalCost(p: Posting): Result<Option<Amount>, ()> {
    if p.amount.None? || p.cost.None? then Ok(None)
    else
      var units := p.amount.value.number;
      match (p.cost.value.GetPerUnit(), p.cost.value.GetTotal())
      case (Some(u), Some(t)) =>
        if u.currency != t.currency then Err(())
        else Ok(Some(Amount(units * u.number + WithSign(units, t.number), u.currency)))
      case (Some(u), None) => Ok(Some(Amount(units * u.number, u.currency)))
      case (None, Some(t)) => Ok(Some(Amount(WithSign(units, t.number), t.currency)))
      case (None, None) => Ok(None)
  }

  function PriceWeight(units: Amount, price: Option<Price>): Amount {
    match price
    case Some(Price(amount, true)) => Amount(WithSign(units.number, amount.number), amount.currency)
    case Some(Price(amount, false)) => Amount(units.number * amount.number, amount.currency)
    case None => units
  }

  /** The signed amount a posting adds to the sum of its weight currency. */
  function PostingWeight(p: Posting): Result<Option<Amount>, ()> {
    if p.amount.None? then Ok(None)
    else
      var units := p.amount.value;
      match TotalCost(p)
      case Err(e) => Err(e)
      case Ok(Some(w)) => Ok(Some(w))
      case Ok(None) =>
        match p.cost
        case Some(Booked(lot, _, _)) => Ok(Some(Amount(units.number * lot.number, lot.currency)))
        case Some(Spec(_, _, currency, _, _)) =>
          if currency != "" then Err(()) else Ok(Some(PriceWeight(units, p.price)))
        case None => Ok(Some(PriceWeight(units, p.price)))
  }

  // ------------------------------------------------------------------ weight sums

  function WeightIn(p: Posting, currency: string): real {
    match PostingWeight(p)
    case Ok(Some(w)) => if w.currency == currency then w.number else 0.0
    case _ => 0.0
  }

  /** The sum of the weights of all postings in one currency. */
  function WeightSum(postings: seq<Posting>, currency: string): real {
    if postings == [] then 0.0
    else WeightSum(postings[..|postings| - 1], currency) + WeightIn(postings[|postings| - 1], currency)
  }
}
