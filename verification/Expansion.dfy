/**
 What expanding a reduction into one child per lot conserves: the units of the
 parent, and the weight it brings to its transaction.
 */
module Expansion {
  import opened Prelude
  import opened Amounts
  import opened Inventories
  import opened InventoryLaws
  import opened Costs
  import opened Bookings
  import opened Resolutions
  import opened Conservation

  /** The units of commodity `c` that `postings` move. */
  function UnitsIn(postings: seq<Posting>, c: string): real {
    if postings == [] then 0.0
    else UnitsIn(postings[..|postings| - 1], c)
         + (var a := postings[|postings| - 1].amount; if a.Some? && a.value.currency == c then a.value.number else 0.0)
  }

  lemma {:induction false} ChildrenSnoc(p: Posting, steps: seq<Step>)
    requires p.amount.Some? && steps != []
    ensures var last := |steps| - 1;
            Children(p, steps) == Children(p, steps[..last]) + [Child(p, steps[last])]
  {
    var last := |steps| - 1;
    var all, front := Children(p, steps), Children(p, steps[..last]);
    forall k | 0 <= k < |steps| ensures all[k] == (front + [Child(p, steps[last])])[k] {
      ChildrenAt(p, steps, 0, k);
      if k < last {
        ChildrenAt(p, steps[..last], 0, k);
      }
    }
  }

  function Side(p: Posting): real
    requires p.amount.Some?
  {
    if p.amount.value.number < 0.0 then -1.0 else 1.0
  }

  lemma {:induction false} TakenSnoc(steps: seq<Step>)
    requires steps != []
    ensures Taken(steps) == Taken(steps[..|steps| - 1]) + steps[|steps| - 1].units
  {
    if |steps| > 1 {
      TakenSnoc(steps[1..]);
      assert steps[1..][..|steps| - 2] == steps[..|steps| - 1][1..];
    }
  }

  /** Children move the units their steps took, on the side of their parent. */
  lemma {:induction false} ChildrenMove(p: Posting, steps: seq<Step>, c: string)
    requires p.amount.Some?
    ensures UnitsIn(Children(p, steps), c) == if c == p.amount.value.currency then Side(p) * Taken(steps) else 0.0
  {
    if steps != [] {
      var last := |steps| - 1;
      ChildrenSnoc(p, steps);
      ChildrenMove(p, steps[..last], c);
      assert Children(p, steps)[..last] == Children(p, steps[..last]);
      TakenSnoc(steps);
    }
  }

  /**
   The children of an expanded reduction move the units of their parent in its
   commodity, and no others, exactly when the selected positions hold that many;
   they always do when one of them carries a cost.
   */
  lemma {:induction false} ExpansionConservesUnits(ps: seq<Position>, p: Posting, rule: BookingMethod, txnDate: nat)
    requires p.amount.Some? && OutcomeOf(ps, p, rule, txnDate).Consumed?
    ensures var units, m := p.amount.value, MatcherOf(p, p.amount.value);
            var order := Consumption(ps, units.currency, m, rule);
            var children := Children(p, OutcomeOf(ps, p, rule, txnDate).steps);
            && (forall c :: UnitsIn(children, c) == UnitsIn([p], c) <==> c != units.currency || Abs(units.number) <= Available(ps, order))
            && (SelectsCost(ps, units.currency, m) ==> Abs(units.number) <= Available(ps, order))
  {
    var units, m := p.amount.value, MatcherOf(p, p.amount.value);
    var plain, steps := ReduceResultOf(ps, units, m, rule).steps, OutcomeOf(ps, p, rule, txnDate).steps;
    ReduceIsGreedy(ps, units, m, rule);
    RealizedKeepsLotsAndUnits(plain, p.price, units);
    TakenByUnits(plain, steps);
    forall c ensures UnitsIn(Children(p, steps), c)
                     == if c == units.currency then Side(p) * Taken(plain) else 0.0 {
      ChildrenMove(p, steps, c);
    }
    assert [p][..0] == [];
    assert Side(p) * Abs(units.number) == units.number;
  }

  lemma {:induction false} TakenByUnits(a: seq<Step>, b: seq<Step>)
    requires |a| == |b| && forall k :: 0 <= k < |a| ==> a[k].units == b[k].units
    ensures Taken(a) == Taken(b)
  {
    if a != [] {
      TakenByUnits(a[1..], b[1..]);
    }
  }

  // ------------------------------------------------------------------ weights

  /** Every step takes from a lot that costs `n` in currency `currency`. */
  ghost predicate Priced(steps: seq<Step>, n: real, currency: string) {
    forall k :: 0 <= k < |steps| ==> steps[k].lot.number == n && steps[k].lot.currency == currency
  }

  /** A posting with a booked cost and no written numbers weighs what its lot costs. */
  lemma {:induction false} BookedWeight(q: Posting, lot: Lot, c: string)
    requires q.amount.Some? && q.cost == Some(Booked(lot, None, None))
    ensures PostingWeight(q).Ok? && PostingWeight(q).value.Some? && PostingWeight(q).value.value.currency == lot.currency
    ensures WeightIn(q, c) == if c == lot.currency then q.amount.value.number * lot.number else 0.0
  {
    assert TotalCost(q) == Ok(None);
    var w := PostingWeight(q).value.value;
    assert w.number == q.amount.value.number * lot.number;
  }

  /** What `units` on one side cost at `n` each. */
  function Worth(side: real, n: real, units: real): real {
    side * n * units
  }

  lemma {:induction false} ChildWeighs(p: Posting, step: Step, n: real, currency: string, c: string)
    requires p.amount.Some? && step.lot.number == n && step.lot.currency == currency
    ensures WeightIn(Child(p, step), c) == if c == currency then Worth(Side(p), n, step.units) else 0.0
  {
    BookedWeight(Child(p, step), step.lot, c);
    WorthOfOne(Child(p, step), Side(p), n, step.units);
  }

  lemma {:induction false} WeightOfMore(front: seq<Posting>, q: Posting, c: string)
    ensures WeightSum(front + [q], c) == WeightSum(front, c) + WeightIn(q, c)
  {
    assert (front + [q])[..|front|] == front;
  }

  lemma {:induction false} ChildrenWeigh(p: Posting, steps: seq<Step>, n: real, currency: string, c: string)
    requires p.amount.Some? && Priced(steps, n, currency)
    ensures WeightSum(Children(p, steps), c) == if c == currency then Worth(Side(p), n, Taken(steps)) else 0.0
  {
    if steps == [] {
      NothingIsWorthless(Side(p), n);
    } else {
      var last := |steps| - 1;
      var front := steps[..last];
      ChildrenSnoc(p, steps);
      ChildrenWeigh(p, front, n, currency, c);
      ChildWeighs(p, steps[last], n, currency, c);
      WeightOfMore(Children(p, front), Child(p, steps[last]), c);
      TakenSnoc(steps);
      Spread(Side(p), n, Taken(front), steps[last].units);
    }
  }

  lemma {:induction false} NothingIsWorthless(side: real, n: real)
    ensures Worth(side, n, 0.0) == 0.0
  {
  }

  lemma {:induction false} Spread(side: real, n: real, a: real, b: real)
    ensures Worth(side, n, a + b) == Worth(side, n, a) + Worth(side, n, b)
  {
  }

  lemma {:induction false} WorthOfOne(q: Posting, side: real, n: real, units: real)
    requires q.amount.Some? && q.amount.value.number == side * units
    ensures q.amount.value.number * n == Worth(side, n, units)
  {
  }

  /** A cost that writes a number only selects lots of that number. */
  lemma {:induction false} NumberedCostPrices(ps: seq<Position>, p: Posting, rule: BookingMethod, txnDate: nat, n: real)
    requires p.amount.Some? && OutcomeOf(ps, p, rule, txnDate).Consumed?
    requires p.cost.Some? && p.cost.value.Spec? && p.cost.value.currency != ""
    requires PerUnitCost(p.cost.value, p.amount.value) == Ok(Some(Amount(n, p.cost.value.currency)))
    ensures var steps := OutcomeOf(ps, p, rule, txnDate).steps;
            Priced(steps, n, p.cost.value.currency) && Taken(steps) == Abs(p.amount.value.number)
  {
    var units, m := p.amount.value, MatcherOf(p, p.amount.value);
    var order := Consumption(ps, units.currency, m, rule);
    var plain, steps := ReduceResultOf(ps, units, m, rule).steps, OutcomeOf(ps, p, rule, txnDate).steps;
    assert m.perUnit == Some(n) && m.currency == p.cost.value.currency;
    ReduceIsGreedy(ps, units, m, rule);
    RealizedKeepsLotsAndUnits(plain, p.price, units);
    TakenByUnits(plain, steps);
    forall k | 0 <= k < |steps| ensures steps[k].lot.number == n && steps[k].lot.currency == p.cost.value.currency {
      assert order[k] in order && steps[k].lot == LotOf(ps[order[k]]);
    }
    assert order[0] in order && SelectsCost(ps, units.currency, m);
  }

  /**
   The children of an expanded reduction weigh what their parent weighs, in every
   currency, when its cost wrote a per-unit number; with a total the weights agree
   exactly when that total is not negative.
   */
  lemma {:induction false} ExpansionConservesWeight(ps: seq<Position>, p: Posting, rule: BookingMethod, txnDate: nat)
    requires p.amount.Some? && OutcomeOf(ps, p, rule, txnDate).Consumed?
    requires p.cost.Some? && p.cost.value.Spec? && p.cost.value.currency != ""
    requires p.cost.value.unitCost.Some? || p.cost.value.totalCost.Some?
    ensures var children := Children(p, OutcomeOf(ps, p, rule, txnDate).steps);
            (forall c :: WeightSum(children, c) == WeightSum([p], c))
            <==> (p.cost.value.totalCost.Some? ==> p.cost.value.totalCost.value >= 0.0)
  {
    var n := WrittenNumber(p);
    NumberedCostPrices(ps, p, rule, txnDate, n);
    ChildrenWeighTheParent(p, OutcomeOf(ps, p, rule, txnDate).steps, n);
  }

  lemma {:induction false} WrittenNumber(p: Posting) returns (n: real)
    requires p.amount.Some? && p.amount.value.number != 0.0 && p.cost.Some? && p.cost.value.Spec? && p.cost.value.currency != ""
    requires p.cost.value.unitCost.Some? || p.cost.value.totalCost.Some?
    ensures PerUnitCost(p.cost.value, p.amount.value) == Ok(Some(Amount(n, p.cost.value.currency)))
  {
    n := PerUnitCost(p.cost.value, p.amount.value).value.value.number;
  }

  lemma {:induction false} ChildrenWeighTheParent(p: Posting, steps: seq<Step>, n: real)
    requires p.amount.Some? && p.amount.value.number != 0.0 && p.cost.Some? && p.cost.value.Spec? && p.cost.value.currency != ""
    requires p.cost.value.unitCost.Some? || p.cost.value.totalCost.Some?
    requires PerUnitCost(p.cost.value, p.amount.value) == Ok(Some(Amount(n, p.cost.value.currency)))
    requires Priced(steps, n, p.cost.value.currency) && Taken(steps) == Abs(p.amount.value.number)
    ensures (forall c :: WeightSum(Children(p, steps), c) == WeightSum([p], c))
            <==> (p.cost.value.totalCost.Some? ==> p.cost.value.totalCost.value >= 0.0)
  {
    var x := ChildrenTotal(p, steps, n, p.cost.value.currency);
    var w := ParentTotal(p, n, x);
    OneCurrencyAgrees(Children(p, steps), [p], p.cost.value.currency, x, w);
  }

  lemma {:induction false} ChildrenTotal(p: Posting, steps: seq<Step>, n: real, currency: string) returns (x: real)
    requires p.amount.Some? && Priced(steps, n, currency) && Taken(steps) == Abs(p.amount.value.number)
    ensures forall c :: WeightSum(Children(p, steps), c) == if c == currency then x else 0.0
    ensures x == Worth(Side(p), n, Abs(p.amount.value.number))
  {
    x := Worth(Side(p), n, Taken(steps));
    forall c ensures WeightSum(Children(p, steps), c) == if c == currency then x else 0.0 {
      ChildrenWeigh(p, steps, n, currency, c);
    }
  }

  lemma {:induction false} ParentTotal(p: Posting, n: real, x: real) returns (w: real)
    requires p.amount.Some? && p.amount.value.number != 0.0 && p.cost.Some? && p.cost.value.Spec? && p.cost.value.currency != ""
    requires p.cost.value.unitCost.Some? || p.cost.value.totalCost.Some?
    requires PerUnitCost(p.cost.value, p.amount.value) == Ok(Some(Amount(n, p.cost.value.currency)))
    requires x == Worth(Side(p), n, Abs(p.amount.value.number))
    ensures forall c :: WeightSum([p], c) == if c == p.cost.value.currency then w else 0.0
    ensures x == w <==> p.cost.value.totalCost.None? || p.cost.value.totalCost.value >= 0.0
  {
    w := WeightOfSpec(p, n);
    assert [p][..0] == [];
  }

  lemma {:induction false} OneCurrencyAgrees(a: seq<Posting>, b: seq<Posting>, currency: string, x: real, y: real)
    requires forall c :: WeightSum(a, c) == if c == currency then x else 0.0
    requires forall c :: WeightSum(b, c) == if c == currency then y else 0.0
    ensures (forall c :: WeightSum(a, c) == WeightSum(b, c)) <==> x == y
  {
    assert WeightSum(a, currency) == x && WeightSum(b, currency) == y;
  }

  lemma {:induction false} WeightOfSpec(p: Posting, n: real) returns (w: real)
    requires p.amount.Some? && p.amount.value.number != 0.0 && p.cost.Some? && p.cost.value.Spec? && p.cost.value.currency != ""
    requires p.cost.value.unitCost.Some? || p.cost.value.totalCost.Some?
    requires PerUnitCost(p.cost.value, p.amount.value) == Ok(Some(Amount(n, p.cost.value.currency)))
    ensures PostingWeight(p) == Ok(Some(Amount(w, p.cost.value.currency)))
    ensures Worth(Side(p), n, Abs(p.amount.value.number)) == w <==> p.cost.value.totalCost.None? || p.cost.value.totalCost.value >= 0.0
  {
    var x, spec := p.amount.value.number, p.cost.value;
    w := PostingWeight(p).value.value.number;
    var u := if spec.unitCost.Some? then spec.unitCost.value else 0.0;
    if spec.totalCost.Some? {
      var t := spec.totalCost.value;
      assert n == u + t / Abs(x);
      assert n * Abs(x) == u * Abs(x) + t by { Quotient(u, t, Abs(x)); }
      assert w == x * u + WithSign(x, t);
    } else {
      assert n == u && w == x * u;
    }
  }

  lemma {:induction false} Quotient(u: real, t: real, y: real)
    requires y > 0.0
    ensures (u + t / y) * y == u * y + t
  {
  }
}
