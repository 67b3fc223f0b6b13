/**
 The working state of booking one transaction: the rebuilt postings, the booked
 records beside them, and the currency groups that failed.

 `Resolution` is the value; `PostingResolution` is the object the two booking
 passes update, and every one of its methods is stated as a step on the value.
 */
module Resolutions {
  import opened Prelude
  import opened Amounts
  import opened Inventories
  import opened Costs

  /** A posting index with the weight currency of its group. */
  datatype Ref = Ref(currency: string, at: nat)

  datatype BookedPosting = BookedPosting(
    source: Option<nat>, account: string, units: Amount, lot: Option<Lot>, reduction: Option<Step>, inferredAuto: bool)

  /** The booked form of the cost an augmenting posting wrote. */
  function AugmentCostFor(cost: Option<CostHolder>, lot: Lot): Option<CostHolder> {
    match cost
    case Some(Booked(_, _, _)) => cost
    case Some(Spec(_, _, _, _, _)) => Some(Booked(lot, cost.value.GetPerUnit(), cost.value.GetTotal()))
    case None => None
  }

  /** The currency an unknown posting will absorb, "" when none is pinned. */
  function UnknownCurrency(p: Posting): string {
    if p.cost.Some? && p.cost.value.GetCurrency() != "" then p.cost.value.GetCurrency()
    else if p.price.Some? then p.price.value.amount.currency
    else ""
  }

  function WeightCurrencyFallback(p: Posting): string
    requires p.amount.Some?
  {
    match PostingWeight(p)
    case Ok(Some(w)) => w.currency
    case _ => p.amount.value.currency
  }

  function CashGroupKey(p: Posting): string
    requires p.amount.Some?
  {
    if p.price.Some? then p.price.value.amount.currency else p.amount.value.currency
  }

  function ReductionGroupKey(p: Posting, step: Step): string
    requires p.amount.Some?
  {
    if IsRealLot(step.lot) then step.lot.currency else CashGroupKey(p)
  }

  /** The posting a single-lot reduction leaves behind. */
  function WithLot(p: Posting, step: Step): Posting {
    if IsRealLot(step.lot) then p.(cost := Some(Booked(step.lot, None, None))) else p
  }

  /** One child of a multi-lot reduction: its own units, its lot, and a per-unit price. */
  function Child(p: Posting, step: Step): Posting
    requires p.amount.Some?
  {
    var price :=
      if p.price.Some? && p.price.value.isTotal && p.price.value.amount.currency != "" && step.salePrice.Some? then
        Some(Price(Amount(step.salePrice.value, p.price.value.amount.currency), false))
      else p.price;
    p.(amount := Some(Amount(if p.amount.value.number < 0.0 then -step.units else step.units, p.amount.value.currency)),
       cost := Some(Booked(step.lot, None, None)),
       price := price)
  }

  function Record(p: Posting, lot: Option<Lot>, step: Option<Step>, inferredAuto: bool): BookedPosting
    requires p.amount.Some?
  {
    BookedPosting(None, p.account, p.amount.value, lot, step, inferredAuto)
  }

  datatype Resolution = Resolution(
    postings: seq<Posting>,
    booked: seq<BookedPosting>,
    bookedDesc: seq<Ref>,
    unknownDesc: seq<Ref>,
    dropped: set<string>)
  {
    function AddUnknown(p: Posting): Resolution {
      this.(postings := postings + [p], unknownDesc := unknownDesc + [Ref(UnknownCurrency(p), |postings|)])
    }

    function MarkForDrop(currency: string): Resolution {
      this.(dropped := dropped + {currency})
    }

    function AddBooked(p: Posting, b: BookedPosting, currency: string): Resolution {
      this.(postings := postings + [p], booked := booked + [b], bookedDesc := bookedDesc + [Ref(currency, |postings|)])
    }

    function AddChildren(p: Posting, steps: seq<Step>): Resolution
      requires p.amount.Some?
      decreases |steps|
    {
      if steps == [] then this
      else
        var child := Child(p, steps[0]);
        AddBooked(child, Record(child, None, Some(steps[0]), false), steps[0].lot.currency).AddChildren(p, steps[1..])
    }

    /** The position of posting `at` among the unknowns, or their number. */
    function UnknownIndex(at: nat): (r: nat)
      ensures r <= |unknownDesc|
      ensures r < |unknownDesc| ==> unknownDesc[r].at == at
    {
      FindRef(unknownDesc, at)
    }

    function Restamp(at: nat, currency: string): Resolution {
      var i := UnknownIndex(at);
      if i < |unknownDesc| then this.(unknownDesc := unknownDesc[i := Ref(currency, at)]) else this
    }

    function Promote(at: nat, p: Posting, b: BookedPosting, currency: string): Resolution
      requires at < |postings|
    {
      this.(postings := postings[at := p], booked := booked + [b], bookedDesc := bookedDesc + [Ref(currency, at)])
          .Restamp(at, currency)
    }

    function RecordUnknownFailed(at: nat, currency: string): Resolution {
      MarkForDrop(currency).Restamp(at, currency)
    }
  }

  const EMPTY := Resolution([], [], [], [], {})

  function FindRef(refs: seq<Ref>, at: nat): (r: nat)
    ensures r <= |refs|
    ensures r < |refs| ==> refs[r].at == at
    ensures forall k :: 0 <= k < r ==> refs[k].at != at
  {
    if refs == [] then 0 else if refs[0].at == at then 0 else 1 + FindRef(refs[1..], at)
  }

  class PostingResolution {
    var postings: seq<Posting>
    var booked: seq<BookedPosting>
    var bookedDesc: seq<Ref>
    var unknownDesc: seq<Ref>
    var dropped: set<string>

    function View(): Resolution
      reads this
    {
      Resolution(postings, booked, bookedDesc, unknownDesc, dropped)
    }

    constructor ()
      ensures View() == EMPTY
    {
      postings, booked, bookedDesc, unknownDesc, dropped := [], [], [], [], {};
    }

    method AddUnknown(p: Posting)
      modifies this
      ensures View() == old(View()).AddUnknown(p)
    {
      postings := postings + [p];
      unknownDesc := unknownDesc + [Ref(UnknownCurrency(p), |postings| - 1)];
    }

    method MarkForDrop(currency: string)
      modifies this
      ensures View() == old(View()).MarkForDrop(currency)
    {
      dropped := dropped + {currency};
    }

    method AddAlreadyBooked(p: Posting, lot: Option<Lot>, step: Option<Step>, currency: string)
      requires p.amount.Some?
      modifies this
      ensures View() == old(View()).AddBooked(p, Record(p, lot, step, false), currency)
    {
      postings := postings + [p];
      booked := booked + [Record(p, lot, step, false)];
      bookedDesc := bookedDesc + [Ref(currency, |postings| - 1)];
    }

    method AddLotAugmentation(p: Posting, lot: Lot, currency: string)
      requires p.amount.Some?
      modifies this
      ensures View() == old(View()).AddBooked(p.(cost := AugmentCostFor(p.cost, lot)), Record(p, Some(lot), None, false), currency)
    {
      postings := postings + [p];
      var i := |postings| - 1;
      postings := postings[i := postings[i].(cost := AugmentCostFor(p.cost, lot))];
      booked := booked + [Record(p, Some(lot), None, false)];
      bookedDesc := bookedDesc + [Ref(currency, i)];
    }

    method AddCashAugmentation(p: Posting, currency: string)
      requires p.amount.Some?
      modifies this
      ensures View() == old(View()).AddBooked(p, Record(p, None, None, false), currency)
    {
      postings := postings + [p];
      booked := booked + [Record(p, None, None, false)];
      bookedDesc := bookedDesc + [Ref(currency, |postings| - 1)];
    }

    method AddSingleLotReduction(p: Posting, step: Step, currency: string)
      requires p.amount.Some?
      modifies this
      ensures View() == old(View()).AddBooked(WithLot(p, step), Record(p, None, Some(step), false), currency)
    {
      postings := postings + [p];
      var i := |postings| - 1;
      if IsRealLot(step.lot) {
        postings := postings[i := postings[i].(cost := Some(Booked(step.lot, None, None)))];
      }
      booked := booked + [Record(p, None, Some(step), false)];
      bookedDesc := bookedDesc + [Ref(currency, i)];
    }

    method AddMultiLotReduction(p: Posting, steps: seq<Step>)
      requires p.amount.Some?
      modifies this
      ensures View() == old(View()).AddChildren(p, steps)
    {
      for k := 0 to |steps|
        invariant old(View()).AddChildren(p, steps) == View().AddChildren(p, steps[k..])
      {
        var step := steps[k];
        var child := Child(p, step);
        assert steps[k..][1..] == steps[k + 1..];
        postings := postings + [child];
        booked := booked + [Record(child, None, Some(step), false)];
        bookedDesc := bookedDesc + [Ref(step.lot.currency, |postings| - 1)];
      }
    }

    /** Replaces unknown posting `at` by its resolved form and records the booking. */
    method Promote(at: nat, p: Posting, b: BookedPosting, currency: string)
      requires at < |postings|
      modifies this
      ensures View() == old(View()).Promote(at, p, b, currency)
    {
      postings := postings[at := p];
      var descIdx := UnknownDescIndex(at);
      booked := booked + [b];
      bookedDesc := bookedDesc + [Ref(currency, at)];
      if descIdx < |unknownDesc| {
        unknownDesc := unknownDesc[descIdx := Ref(currency, at)];
      }
    }

    method RecordUnknownFailed(at: nat, currency: string)
      modifies this
      ensures View() == old(View()).RecordUnknownFailed(at, currency)
    {
      MarkForDrop(currency);
      var descIdx := UnknownDescIndex(at);
      if descIdx < |unknownDesc| {
        unknownDesc := unknownDesc[descIdx := Ref(currency, at)];
      }
    }

    method UnknownDescIndex(at: nat) returns (r: nat)
      ensures r == View().UnknownIndex(at)
    {
      r := 0;
      while r < |unknownDesc|
        invariant r <= |unknownDesc|
        invariant FindRef(unknownDesc, at) == r + FindRef(unknownDesc[r..], at)
      {
        if unknownDesc[r].at == at { return; }
        r := r + 1;
      }
    }
  }
}
