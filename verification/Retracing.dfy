/**
 When lots can be told apart: the conditions on an inventory under which booking is
 a fixed point, exactly when one booked cost finds its lot again, and the input
 on which rebooking fails.
 */
module Retracing {
  import opened Prelude
  import opened Amounts
  import opened Inventories
  import opened InventoryLaws
  import opened Costs
  import opened Bookings
  import opened BookingLaws
  import opened Resolutions
  import opened Reductions
  import opened FixedPoint
  import opened Rebooking

  // ------------------------------------------------------------------ conditions on the inventory

  /** Two lots that agree in everything but their label. */
  predicate TwinLots(a: Lot, b: Lot) {
    a.number == b.number && a.currency == b.currency && a.date == b.date
  }

  /** Lots carry a date and a currency, no two differ only in their label, and cash does not mix with them. */
  ghost predicate Distinguishable(ps: seq<Position>) {
    && (forall p :: p in ps && p.cost.Some? ==> p.cost.value.date != 0 && p.cost.value.currency != "")
    && (forall p, q :: p in ps && q in ps && p.units.currency == q.units.currency && p.cost.Some? && q.cost.Some? ==>
          TwinLots(p.cost.value, q.cost.value) ==> p.cost == q.cost)
    && (forall p, q :: p in ps && q in ps && p.units.currency == q.units.currency ==> p.cost.Some? == q.cost.Some?)
  }

  /** A lot of such an inventory is the only one its booked cost selects. */
  lemma {:induction false} DistinguishableIsSole(ps: seq<Position>, i: nat)
    requires Tidy(ps) && Distinguishable(ps) && i < |ps| && ps[i].cost.Some?
    ensures Sole(ps, ps[i].units.currency, i)
  {
    var lot := ps[i].cost.value;
    assert ps[i] in ps;
    forall j | 0 <= j < |ps| && Selected(ps[j], ps[i].units.currency, Tight(lot)) ensures j == i {
      assert ps[j] in ps;
      assert ps[j].cost.Some? && TwinLots(ps[j].cost.value, lot);
      assert SameSlot(ps[j], ps[i]) && SameSlot(ps[i], ps[j]);
    }
  }

  /**
   In a tidy, one-signed inventory whose lots can be told apart, a posting that
   opposes the lots it selects can be retraced.
   */
  lemma {:induction false} DistinguishableRetraces(ps: seq<Position>, p: Posting, rule: BookingMethod)
    requires Tidy(ps) && OneSign(ps) && Distinguishable(ps)
    requires p.amount.Some?
    requires Reduces(ps, p.amount.value, Hint(p), rule) ==> Opposed(ps, p)
    ensures Retraceable(ps, p, rule)
  {
    var units := p.amount.value;
    if Reduces(ps, units, Hint(p), rule) && !SelectsOnlyCash(ps, p) {
      var q :| q in ps && Selected(q, units.currency, MatcherOf(p, units)) && q.cost.Some?;
      OpposedLotsAreTraceable(ps, units, MatcherOf(p, units), rule, q);
    }
  }

  lemma {:induction false} OpposedLotsAreTraceable(ps: seq<Position>, units: Amount, m: Matcher, rule: BookingMethod, q: Position)
    requires Tidy(ps) && OneSign(ps) && Distinguishable(ps)
    requires q in ps && Selected(q, units.currency, m) && q.cost.Some?
    requires forall r :: r in ps && Selected(r, units.currency, m) ==> Sign(r.units.number) == -Sign(units.number)
    ensures Traceable(ps, Consumption(ps, units.currency, m, rule), units.currency, units.number)
  {
    var order := Consumption(ps, units.currency, m, rule);
    ConsumptionIsTheSelectedInOrder(ps, units.currency, m, rule);
    forall k | 0 <= k < |order|
      ensures Sole(ps, units.currency, order[k]) && GroupOpposed(ps, units.currency, ps[order[k]].cost.value.currency, units.number)
    {
      assert order[k] in order;
      var r := ps[order[k]];
      assert r in ps && Selected(r, units.currency, m) && r.cost.Some? == q.cost.Some?;
      DistinguishableIsSole(ps, order[k]);
    }
  }

  /** Hinted reductions of such an inventory need no further condition: their lots always oppose them. */
  lemma {:induction false} HintedPostingsRetrace(ps: seq<Position>, p: Posting, rule: BookingMethod)
    requires Tidy(ps) && OneSign(ps) && Distinguishable(ps)
    requires p.amount.Some? && CostHasCurrency(p.cost) && Hint(p) != ""
    ensures Retraceable(ps, p, rule)
  {
    if Reduces(ps, p.amount.value, Hint(p), rule) {
      HintedReductionIsOpposed(ps, p, rule);
    }
    DistinguishableRetraces(ps, p, rule);
  }

  // ------------------------------------------------------------------ conditions on the transaction

  ghost predicate Orderly(state: State) {
    forall a :: a in state ==> Tidy(state[a]) && OneSign(state[a])
  }

  /** Each posting meets an inventory whose lots can be told apart, and opposes the lots it reduces. */
  ghost predicate Clear(run: Run, postings: seq<Posting>, methods: Methods, txnDate: nat)
    decreases |postings|
  {
    postings == [] ||
    (var p := postings[0];
     var ps, rule := Holdings(run.state, p.account), MethodOf(methods, p.account);
     && Distinguishable(ps) && rule != NoBooking && CostHasCurrency(p.cost)
     && (p.amount.Some? ==> p.amount.value.number != 0.0 && (Reduces(ps, p.amount.value, Hint(p), rule) ==> Opposed(ps, p)))
     && match BookNext(run, p, methods, txnDate)
        case Err(_) => true
        case Ok(next) => Clear(next, postings[1..], methods, txnDate))
  }

  lemma {:induction false} OrderlyUpdate(state: State, account: string, ps: seq<Position>)
    requires Orderly(state) && Tidy(ps) && OneSign(ps)
    ensures Orderly(state[account := ps])
  {
  }

  /** Booking an explicit posting changes the state of its account only. */
  lemma {:induction false} BookNextState(run: Run, p: Posting, next: Run, methods: Methods, txnDate: nat)
    requires p.amount.Some? && BookNext(run, p, methods, txnDate) == Ok(next)
    ensures next.state
            == run.state[p.account := BookedPositions(Holdings(run.state, p.account), p, MethodOf(methods, p.account), txnDate)]
  {
    var (done, r) := Booking(run, p, methods, txnDate);
    BookingState(run, p, methods, txnDate);
    FilingKeepsState(done, p, r, next);
  }

  lemma {:induction false} BookingState(run: Run, p: Posting, methods: Methods, txnDate: nat)
    ensures var done := Booking(run, p, methods, txnDate).0;
            && p.account in done.before
            && done.state
               == run.state[p.account := BookedPositions(Holdings(run.state, p.account), p, MethodOf(methods, p.account), txnDate)]
  {
  }

  lemma {:induction false} FilingKeepsState(done: Run, p: Posting, r: Outcome, next: Run)
    requires p.amount.Some? && p.account in done.before && File(done, p, r) == Ok(next)
    ensures next.state == done.state
  {
  }

  lemma {:induction false} BookingKeepsOrderly(run: Run, p: Posting, next: Run, methods: Methods, txnDate: nat)
    requires Orderly(run.state) && BookNext(run, p, methods, txnDate) == Ok(next)
    requires MethodOf(methods, p.account) != NoBooking && CostHasCurrency(p.cost)
    requires p.amount.Some? ==> p.amount.value.number != 0.0
    ensures Orderly(next.state)
  {
    if p.amount.Some? {
      var ps, rule := Holdings(run.state, p.account), MethodOf(methods, p.account);
      assert Tidy(ps) && OneSign(ps);
      BookingKeepsTheInvariants(ps, p, rule, txnDate);
      BookNextState(run, p, next, methods, txnDate);
      OrderlyUpdate(run.state, p.account, BookedPositions(ps, p, rule, txnDate));
    }
  }

  /** From an orderly state, a clear transaction can be retraced posting by posting. */
  lemma {:induction false} ClearRetraces(run: Run, postings: seq<Posting>, methods: Methods, txnDate: nat)
    requires Orderly(run.state) && Clear(run, postings, methods, txnDate)
    ensures RetracesAll(run, postings, methods, txnDate)
    decreases |postings|
  {
    if postings != [] {
      var p := postings[0];
      var ps := Holdings(run.state, p.account);
      assert Tidy(ps) && OneSign(ps);
      if p.amount.Some? {
        DistinguishableRetraces(ps, p, MethodOf(methods, p.account));
      }
      var next := BookNext(run, p, methods, txnDate);
      if next.Ok? {
        BookingKeepsOrderly(run, p, next.value, methods, txnDate);
        ClearRetraces(next.value, postings[1..], methods, txnDate);
      }
    }
  }

  // ------------------------------------------------------------------ conditions known before booking

  /**
   Every commodity in `quote` is only held at cost, in the currency `quote` names, in
   dated lots without a label; every other commodity is only held as cash.
   */
  ghost predicate PlainLots(quote: map<string, string>, ps: seq<Position>) {
    forall p :: p in ps ==> PlainPosition(quote, p)
  }

  predicate PlainPosition(quote: map<string, string>, p: Position) {
    if p.cost.Some? then
      && p.units.currency in quote && p.cost.value.currency == quote[p.units.currency] != ""
      && p.cost.value.date != 0 && p.cost.value.tag == ""
    else p.units.currency !in quote
  }

  ghost predicate PlainState(quote: map<string, string>, state: State) {
    Orderly(state) && forall a :: a in state ==> PlainLots(quote, state[a])
  }

  /** The posting, if it has an amount, names a cost exactly for the commodities held at cost: no label, no other currency. */
  predicate PlainPosting(quote: map<string, string>, p: Posting, txnDate: nat) {
    p.amount.Some? ==>
      && p.amount.value.number != 0.0
      && if p.amount.value.currency in quote then
           && p.cost.Some? && p.cost.value.GetCurrency() in {"", quote[p.amount.value.currency]} && p.cost.value.GetTag() == ""
           && txnDate != 0 && (p.cost.value.Booked? ==> p.cost.value.HasDate())
         else p.cost.None?
  }

  ghost predicate PlainPostings(quote: map<string, string>, postings: seq<Posting>, methods: Methods, txnDate: nat) {
    forall p :: p in postings ==>
      CostHasCurrency(p.cost) && PlainPosting(quote, p, txnDate) && MethodOf(methods, p.account) != NoBooking
  }

  lemma {:induction false} PlainLotsAreDistinguishable(quote: map<string, string>, ps: seq<Position>)
    requires Tidy(ps) && PlainLots(quote, ps)
    ensures Distinguishable(ps)
  {
    forall p | p in ps && p.cost.Some? ensures p.cost.value.date != 0 && p.cost.value.currency != "" {
      assert PlainPosition(quote, p);
    }
    forall p, q | p in ps && q in ps && p.units.currency == q.units.currency
      ensures p.cost.Some? == q.cost.Some?
      ensures p.cost.Some? && TwinLots(p.cost.value, q.cost.value) ==> p.cost == q.cost
    {
      assert PlainPosition(quote, p) && PlainPosition(quote, q);
    }
  }

  /** Without a hint the direction was decided by a lot that all the others agree with. */
  lemma {:induction false} PlainReductionIsOpposed(quote: map<string, string>, ps: seq<Position>, p: Posting, rule: BookingMethod, txnDate: nat)
    requires Tidy(ps) && OneSign(ps) && PlainLots(quote, ps)
    requires p.amount.Some? && PlainPosting(quote, p, txnDate) && CostHasCurrency(p.cost)
    requires Reduces(ps, p.amount.value, Hint(p), rule)
    ensures Opposed(ps, p)
  {
    if Hint(p) != "" {
      HintedReductionIsOpposed(ps, p, rule);
    } else {
      var units := p.amount.value;
      var first := FirstInGroup(ps, units.currency, "").value;
      assert first.units.number != 0.0;
      forall q | q in ps && q.units.currency == units.currency ensures Sign(q.units.number) == -Sign(units.number) {
        assert q.units.number != 0.0;
        assert PlainPosition(quote, first) && PlainPosition(quote, q);
        if q.cost.None? {
          assert SameSlot(first, q) && SameSlot(q, first);
        }
      }
    }
  }

  lemma {:induction false} BookingKeepsPlain(quote: map<string, string>, ps: seq<Position>, p: Posting, rule: BookingMethod, txnDate: nat)
    requires PlainLots(quote, ps) && p.amount.Some? && PlainPosting(quote, p, txnDate) && CostHasCurrency(p.cost)
    ensures PlainLots(quote, BookedPositions(ps, p, rule, txnDate))
  {
    var units := p.amount.value;
    forall q | q in BookedPositions(ps, p, rule, txnDate) ensures PlainPosition(quote, q) {
      match OutcomeOf(ps, p, rule, txnDate) {
        case Augmented(lot) =>
          AddedSlots(ps, Position(units, lot));
          assert PlainPosition(quote, Position(units, lot));
        case Consumed(_) =>
          ReducedSlots(ps, units, MatcherOf(p, units), rule);
          var e :| e in ps && SameSlot(e, q);
          assert PlainPosition(quote, e);
        case _ =>
      }
    }
  }

  /** Plain postings booked into plain inventories meet the conditions at every step. */
  lemma {:induction false} PlainIsClear(quote: map<string, string>, run: Run, postings: seq<Posting>, methods: Methods, txnDate: nat)
    requires PlainState(quote, run.state) && PlainPostings(quote, postings, methods, txnDate)
    ensures Clear(run, postings, methods, txnDate)
    decreases |postings|
  {
    if postings != [] {
      var p := postings[0];
      var ps, rule := Holdings(run.state, p.account), MethodOf(methods, p.account);
      assert p in postings;
      assert Tidy(ps) && OneSign(ps) && PlainLots(quote, ps);
      PlainLotsAreDistinguishable(quote, ps);
      if p.amount.Some? && Reduces(ps, p.amount.value, Hint(p), rule) {
        PlainReductionIsOpposed(quote, ps, p, rule, txnDate);
      }
      var next := BookNext(run, p, methods, txnDate);
      if next.Ok? {
        PlainAfter(quote, run, p, next.value, methods, txnDate);
        PlainIsClear(quote, next.value, postings[1..], methods, txnDate);
      }
    }
  }

  lemma {:induction false} PlainAfter(quote: map<string, string>, run: Run, p: Posting, next: Run, methods: Methods, txnDate: nat)
    requires PlainState(quote, run.state) && BookNext(run, p, methods, txnDate) == Ok(next)
    requires CostHasCurrency(p.cost) && PlainPosting(quote, p, txnDate) && MethodOf(methods, p.account) != NoBooking
    ensures PlainState(quote, next.state)
  {
    BookingKeepsOrderly(run, p, next, methods, txnDate);
    if p.amount.Some? {
      var ps := Holdings(run.state, p.account);
      assert PlainLots(quote, ps);
      BookingKeepsPlain(quote, ps, p, MethodOf(methods, p.account), txnDate);
      BookNextState(run, p, next, methods, txnDate);
    }
  }

  /**
   Rebooking is a fixed point on plain books. When the inventories and the postings
   are plain before booking, a transaction that books without a finding and without
   an unknown books its own output to the same postings, records, inventories and diff.
   */
  lemma {:induction false} PlainBooksAreFixedPoints(quote: map<string, string>, state: State, diags: seq<Diag>, postings: seq<Posting>, methods: Methods, txnDate: nat, end: Run)
    requires PlainState(quote, state) && PlainPostings(quote, postings, methods, txnDate)
    requires Pass1(Start(state, diags), postings, methods, txnDate) == Ok(end)
    requires end.diags == diags && end.pr.unknownDesc == []
    ensures VisitOf(state, diags, postings, methods, txnDate).Ok?
    ensures var v := VisitOf(state, diags, postings, methods, txnDate).value;
            && VisitOf(state, diags, v.postings, methods, txnDate) == Ok(v)
            && PlainState(quote, v.state)
  {
    var start := Start(state, diags);
    PlainIsClear(quote, start, postings, methods, txnDate);
    ClearRetraces(start, postings, methods, txnDate);
    RebookingIsAFixedPoint(state, diags, postings, methods, txnDate, end);
    PlainThroughout(quote, start, postings, methods, txnDate, end);
  }

  lemma {:induction false} PlainThroughout(quote: map<string, string>, run: Run, postings: seq<Posting>, methods: Methods, txnDate: nat, end: Run)
    requires PlainState(quote, run.state) && PlainPostings(quote, postings, methods, txnDate)
    requires Pass1(run, postings, methods, txnDate) == Ok(end)
    ensures PlainState(quote, end.state)
    decreases |postings|
  {
    if postings != [] {
      assert postings[0] in postings;
      var next := BookNext(run, postings[0], methods, txnDate).value;
      PlainAfter(quote, run, postings[0], next, methods, txnDate);
      PlainThroughout(quote, next, postings[1..], methods, txnDate, end);
    }
  }

  // ------------------------------------------------------------------ one booked cost, exactly

  lemma {:induction false} AvailableHolds(ps: seq<Position>, order: seq<nat>, k: nat)
    requires InRange(ps, order) && k < |order|
    ensures Abs(ps[order[k]].units.number) <= Available(ps, order)
    ensures NoEmptySlot(ps) && |order| > 1 ==> Abs(ps[order[k]].units.number) < Available(ps, order)
  {
    var last := |order| - 1;
    AvailableIsNonnegative(ps, order[..last]);
    if k < last {
      AvailableHolds(ps, order[..last], k);
    } else if |order| > 1 {
      AvailableHolds(ps, order[..last], 0);
    }
  }

  /** The step that takes `size` units of the lot and nothing else. */
  function WholeStep(lot: Lot, size: real, q: Posting): Outcome
    requires q.amount.Some?
  {
    Consumed(Realized([PlainStep(lot, size)], q.price, q.amount.value))
  }

  /**
   Exactly when a posting with the booked cost of slot `i` takes its units from
   that slot: its sign opposes the first lot of the group, slot `i` comes first among
   the lots the booked cost selects, and under STRICT it is the only one.
   */
  lemma {:induction false} BookedCostFindsItsLot(ps: seq<Position>, q: Posting, rule: BookingMethod, txnDate: nat, i: nat)
    requires Tidy(ps) && i < |ps| && ps[i].cost.Some? && ps[i].cost.value.currency != ""
    requires q.amount.Some? && q.amount.value.currency == ps[i].units.currency
    requires q.cost == Some(Booked(ps[i].cost.value, None, None))
    requires 0.0 < Abs(q.amount.value.number) <= Abs(ps[i].units.number)
    ensures var lot, units := ps[i].cost.value, q.amount.value;
            var order := Consumption(ps, units.currency, Tight(lot), rule);
            OutcomeOf(ps, q, rule, txnDate) == WholeStep(lot, Abs(units.number), q)
            <==> && Reduces(ps, units, lot.currency, rule) && rule != Average
                 && First(order, i)
                 && (rule in {Strict, Default} ==> |order| == 1)
  {
    var lot, units := ps[i].cost.value, q.amount.value;
    var order := Consumption(ps, units.currency, Tight(lot), rule);
    assert MatcherOf(q, units) == Tight(lot) && Hint(q) == lot.currency;
    if OutcomeOf(ps, q, rule, txnDate) == WholeStep(lot, Abs(units.number), q) {
      WholeStepIsFirst(ps, q, rule, txnDate, i, order);
      AcceptedIsUnambiguous(ps, units, Tight(lot), rule, i);
    } else if Reduces(ps, units, lot.currency, rule) && rule != Average && First(order, i)
              && (rule in {Strict, Default} ==> |order| == 1) {
      FirstIsTaken(ps, units, Tight(lot), rule, i);
    }
  }

  predicate First(order: seq<nat>, i: nat) {
    order != [] && order[0] == i
  }

  lemma {:induction false} AcceptedIsUnambiguous(ps: seq<Position>, units: Amount, m: Matcher, rule: BookingMethod, i: nat)
    requires NoEmptySlot(ps) && ReduceResultOf(ps, units, m, rule).Reduced?
    requires First(Consumption(ps, units.currency, m, rule), i) && 0.0 < Abs(units.number) <= Abs(ps[i].units.number)
    ensures rule in {Strict, Default} ==> |Consumption(ps, units.currency, m, rule)| == 1
  {
    AcceptedReduction(ps, units, m, rule);
    ConsumptionIsTheSelectedInOrder(ps, units.currency, m, rule);
    AvailableHolds(ps, Consumption(ps, units.currency, m, rule), 0);
  }

  lemma {:induction false} FirstIsTaken(ps: seq<Position>, units: Amount, m: Matcher, rule: BookingMethod, i: nat)
    requires rule !in {Average, NoBooking} && First(Consumption(ps, units.currency, m, rule), i)
    requires rule in {Strict, Default} ==> |Consumption(ps, units.currency, m, rule)| == 1
    requires 0.0 < Abs(units.number) <= Abs(ps[i].units.number)
    ensures ReduceResultOf(ps, units, m, rule) == Reduced([PlainStep(LotOf(ps[i]), Abs(units.number))])
  {
    var order := Consumption(ps, units.currency, m, rule);
    ConsumptionIsTheSelectedInOrder(ps, units.currency, m, rule);
    AvailableHolds(ps, order, 0);
    SoleTakesItAll(ps, order, Abs(units.number));
  }

  lemma {:induction false} WholeStepIsFirst(ps: seq<Position>, q: Posting, rule: BookingMethod, txnDate: nat, i: nat, order: seq<nat>)
    requires Tidy(ps) && i < |ps| && ps[i].cost.Some? && ps[i].cost.value.currency != ""
    requires q.amount.Some? && q.amount.value.currency == ps[i].units.currency && q.amount.value.number != 0.0
    requires OutcomeOf(ps, q, rule, txnDate) == WholeStep(ps[i].cost.value, Abs(q.amount.value.number), q)
    requires order == Consumption(ps, q.amount.value.currency, MatcherOf(q, q.amount.value), rule)
    ensures First(order, i)
  {
    var o, size := ReductionDrains(ps, q, rule, txnDate);
    var steps, plain := Steps(ps, order, size), [PlainStep(ps[i].cost.value, size)];
    Conservation.RealizedKeepsLotsAndUnits(steps, q.price, q.amount.value);
    Conservation.RealizedKeepsLotsAndUnits(plain, q.price, q.amount.value);
    assert |steps| == 1 && steps == [steps[0]] && steps[0].lot == plain[0].lot;
    FirstLotOf(ps, order, size, steps[0]);
    ConsumptionIsTheSelectedInOrder(ps, q.amount.value.currency, MatcherOf(q, q.amount.value), rule);
    assert order[0] in order;
    assert SameSlot(ps[order[0]], ps[i]) && SameSlot(ps[i], ps[order[0]]);
  }

  // ------------------------------------------------------------------ where it fails

  const PLAIN := Position(Amount(10.0, "X"), Some(Lot(1.0, "USD", 1, "")))
  const TWIN := Position(Amount(5.0, "X"), Some(Lot(1.0, "USD", 1, "a")))
  const SELL_BOTH := Posting("Assets", Some(Amount(-15.0, "X")), Some(Spec(None, None, "", None, "")), None, 0)

  /**
   Two lots that differ only in their label break the fixed point: selling both of them
   under STRICT books, but its first child, whose lot has no label, then matches both.
   */
  lemma {:induction false} LabelTwinsDoNotRetrace()
    ensures Tidy([PLAIN, TWIN]) && OneSign([PLAIN, TWIN]) && Opposed([PLAIN, TWIN], SELL_BOTH)
    ensures OutcomeOf([PLAIN, TWIN], SELL_BOTH, Strict, 2)
            == Consumed([PlainStep(PLAIN.cost.value, 10.0), PlainStep(TWIN.cost.value, 5.0)])
    ensures OutcomeOf([PLAIN, TWIN], Child(SELL_BOTH, PlainStep(PLAIN.cost.value, 10.0)), Strict, 2) == Finding(AmbiguousLotMatch)
  {
    var ps := [PLAIN, TWIN];
    SellingBoth(ps);
    SellingOne(ps, Child(SELL_BOTH, PlainStep(PLAIN.cost.value, 10.0)));
  }

  lemma {:induction false} SellingBoth(ps: seq<Position>)
    requires ps == [PLAIN, TWIN]
    ensures OutcomeOf(ps, SELL_BOTH, Strict, 2) == Consumed([PlainStep(PLAIN.cost.value, 10.0), PlainStep(TWIN.cost.value, 5.0)])
  {
    var units := Amount(-15.0, "X");
    var m := MatcherOf(SELL_BOTH, units);
    assert Selected(PLAIN, "X", m) && Selected(TWIN, "X", m);
    TwoLots(ps, "X", m, 10.0, 5.0);
    assert FirstInGroup(ps, "X", "") == Some(PLAIN);
    assert Reduces(ps, units, Hint(SELL_BOTH), Strict);
  }

  lemma {:induction false} SellingOne(ps: seq<Position>, q: Posting)
    requires ps == [PLAIN, TWIN] && q.amount == Some(Amount(-10.0, "X")) && q.cost == Some(Booked(PLAIN.cost.value, None, None))
    ensures OutcomeOf(ps, q, Strict, 2) == Finding(AmbiguousLotMatch)
  {
    assert FirstInGroup(ps, "X", "USD") == Some(PLAIN);
    TwoAreAmbiguous(ps, q.amount.value, Tight(PLAIN.cost.value));
    assert MatcherOf(q, q.amount.value) == Tight(PLAIN.cost.value);
  }

  lemma {:induction false} TwoAreAmbiguous(ps: seq<Position>, units: Amount, m: Matcher)
    requires |ps| == 2 && Selected(ps[0], units.currency, m) && Selected(ps[1], units.currency, m) && units.number != 0.0
    requires Abs(units.number) < Abs(ps[0].units.number) + Abs(ps[1].units.number)
    ensures ReduceResultOf(ps, units, m, Strict) == Refused(AmbiguousLotMatch)
  {
    BothAreCandidates(ps, units.currency, m);
  }

  lemma {:induction false} TwoLots(ps: seq<Position>, c: string, m: Matcher, x: real, y: real)
    requires |ps| == 2 && Selected(ps[0], c, m) && Selected(ps[1], c, m) && LotDate(ps[0]) == LotDate(ps[1])
    requires ps[0].units.number == x > 0.0 && ps[1].units.number == y > 0.0
    ensures ReduceResultOf(ps, Amount(-(x + y), c), m, Strict)
            == Reduced([PlainStep(LotOf(ps[0]), x), PlainStep(LotOf(ps[1]), y)])
  {
    BothAreCandidates(ps, c, m);
    TwoInOrder(ps);
    StepsOfTwo(ps, x, y);
  }

  lemma {:induction false} StepsOfTwo(ps: seq<Position>, x: real, y: real)
    requires |ps| == 2 && ps[0].units.number == x > 0.0 && ps[1].units.number == y > 0.0
    ensures Steps(ps, [0, 1], x + y) == [PlainStep(LotOf(ps[0]), x), PlainStep(LotOf(ps[1]), y)]
  {
    var cs, rest: seq<nat> := [0, 1], [1];
    assert cs[1..] == rest && rest[1..] == [];
    assert Steps(ps, rest, y) == [PlainStep(LotOf(ps[1]), y)] + Steps(ps, rest[1..], 0.0);
    assert Steps(ps, cs, x + y) == [PlainStep(LotOf(ps[0]), x)] + Steps(ps, rest, y);
  }

  lemma {:induction false} TwoInOrder(ps: seq<Position>)
    requires |ps| == 2 && LotDate(ps[0]) == LotDate(ps[1])
    ensures Ordered(ps, false, [0, 1]) == [0, 1]
  {
    var cs, one, none: seq<nat> := [0, 1], [0], [];
    assert cs[..1] == one && one[..0] == none && one[1..] == none;
    assert InsertOrdered(ps, false, none, 0) == one && InsertOrdered(ps, false, none, 1) == [1];
    assert Ordered(ps, false, one) == one;
    assert InsertOrdered(ps, false, one, 1) == [0] + [1];
  }

  lemma {:induction false} BothAreCandidates(ps: seq<Position>, c: string, m: Matcher)
    requires |ps| == 2 && Selected(ps[0], c, m) && Selected(ps[1], c, m)
    ensures Candidates(ps, c, m, 2) == [0, 1]
    ensures Available(ps, [0, 1]) == Abs(ps[0].units.number) + Abs(ps[1].units.number)
    ensures AllCash(ps, [0, 1]) == (ps[0].cost.None? && ps[1].cost.None?)
  {
    assert Candidates(ps, c, m, 1) == [0];
    var cs, one: seq<nat> := [0, 1], [0];
    assert cs[..1] == one && one[..0] == [];
    assert Available(ps, one) == Abs(ps[0].units.number);
    assert AllCash(ps, one) == ps[0].cost.None?;
  }
}
