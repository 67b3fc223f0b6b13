/**
 The theorem of the fixed point: a transaction booked without findings and without
 unknowns, whose reduced lots can all be told apart by their booked costs, books
 again to itself.
 */
module Rebooking {
  import opened Prelude
  import opened Amounts
  import opened Inventories
  import opened InventoryLaws
  import opened Costs
  import opened Bookings
  import opened BookingLaws
  import opened Resolutions
  import opened Reductions
  import opened Conservation
  import opened FixedPoint

  // ------------------------------------------------------------------ one inventory

  /** Whether everything posting `p` selects is cash. */
  ghost predicate SelectsOnlyCash(ps: seq<Position>, p: Posting)
    requires p.amount.Some?
  {
    forall q :: q in ps && Selected(q, p.amount.value.currency, MatcherOf(p, p.amount.value)) ==> q.cost.None?
  }

  /** Where posting `p` reduces, it takes cash only, or lots that can all be found again and oppose it. */
  ghost predicate Retraceable(ps: seq<Position>, p: Posting, rule: BookingMethod)
    requires p.amount.Some?
  {
    var units := p.amount.value;
    Reduces(ps, units, Hint(p), rule) ==>
      SelectsOnlyCash(ps, p) || Traceable(ps, Consumption(ps, units.currency, MatcherOf(p, units), rule), units.currency, units.number)
  }

  /** Two postings that book alike: same outcome, same inventory after, same changes. */
  ghost predicate BookAlike(ps: seq<Position>, p: Posting, q: Posting, rule: BookingMethod, txnDate: nat) {
    && p.account == q.account
    && OutcomeOf(ps, p, rule, txnDate) == OutcomeOf(ps, q, rule, txnDate)
    && BookedPositions(ps, p, rule, txnDate) == BookedPositions(ps, q, rule, txnDate)
    && BookChanges(ps, p, rule, txnDate) == BookChanges(ps, q, rule, txnDate)
  }

  /** The booked form of an augmentation augments the same lot. */
  lemma {:induction false} AugmentationBooksAlike(ps: seq<Position>, p: Posting, rule: BookingMethod, txnDate: nat)
    requires p.amount.Some? && CostHasCurrency(p.cost)
    requires OutcomeOf(ps, p, rule, txnDate).Augmented? && OutcomeOf(ps, p, rule, txnDate).lot.Some?
    ensures var q := p.(cost := AugmentCostFor(p.cost, OutcomeOf(ps, p, rule, txnDate).lot.value));
            BookAlike(ps, p, q, rule, txnDate)
  {
    var lot := OutcomeOf(ps, p, rule, txnDate).lot.value;
    var q := p.(cost := AugmentCostFor(p.cost, lot));
    assert Hint(q) == Hint(p);
    assert ResolveLot(q.cost, q.amount.value, txnDate) == TheLot(lot);
  }

  /** What a reduction by `p` did, in terms of the lots it drained. */
  lemma {:induction false} ReductionDrains(ps: seq<Position>, p: Posting, rule: BookingMethod, txnDate: nat) returns (order: seq<nat>, size: real)
    requires p.amount.Some? && OutcomeOf(ps, p, rule, txnDate).Consumed?
    ensures order == Consumption(ps, p.amount.value.currency, MatcherOf(p, p.amount.value), rule)
    ensures size == Abs(p.amount.value.number) != 0.0 && rule !in {Average, NoBooking} && order != [] && Distinct(order)
    ensures Reduces(ps, p.amount.value, Hint(p), rule)
    ensures OutcomeOf(ps, p, rule, txnDate).steps == Realized(Steps(ps, order, size), p.price, p.amount.value)
    ensures BookedPositions(ps, p, rule, txnDate) == Compacted(Drained(ps, order, size))
    ensures BookChanges(ps, p, rule, txnDate) == StepChanges(ps, order, size)
  {
    var units := p.amount.value;
    var m := MatcherOf(p, units);
    order, size := Consumption(ps, units.currency, m, rule), Abs(units.number);
    AcceptedReduction(ps, units, m, rule);
    ConsumptionIsTheSelectedInOrder(ps, units.currency, m, rule);
  }

  /** A single step that takes it all takes it from the first slot. */
  lemma {:induction false} OneStep(ps: seq<Position>, order: seq<nat>, size: real, plain: Step)
    requires InRange(ps, order) && size != 0.0 && Steps(ps, order, size) == [plain] && Taken([plain]) == size
    ensures order != [] && plain.units == size <= Abs(ps[order[0]].units.number) && LotOf(ps[order[0]]) == plain.lot
  {
    var first := PlainStep(LotOf(ps[order[0]]), Min(size, Abs(ps[order[0]].units.number)));
    assert [first] + Steps(ps, order[1..], size - first.units) == [plain];
    assert ([first] + Steps(ps, order[1..], size - first.units))[0] == first;
    assert [plain][1..] == [];
  }

  /** A reduction that took one real lot took all of its units there. */
  lemma {:induction false} OneRealLot(ps: seq<Position>, p: Posting, rule: BookingMethod, txnDate: nat, order: seq<nat>, step: Step)
    requires p.amount.Some? && OutcomeOf(ps, p, rule, txnDate) == Consumed([step]) && IsRealLot(step.lot)
    requires order == Consumption(ps, p.amount.value.currency, MatcherOf(p, p.amount.value), rule) && order != []
    requires p.amount.value.number != 0.0
    ensures step.units == Abs(p.amount.value.number) <= Abs(ps[order[0]].units.number) && LotOf(ps[order[0]]) == step.lot
    ensures ps[order[0]].cost.Some?
  {
    var units := p.amount.value;
    var m := MatcherOf(p, units);
    var plain := ReduceResultOf(ps, units, m, rule).steps;
    RealizedKeepsLotsAndUnits(plain, p.price, units);
    assert |plain| == 1 && plain == [plain[0]];
    ConsumptionIsTheSelectedInOrder(ps, units.currency, m, rule);
    assert order[0] in order;
    AcceptedReduction(ps, units, m, rule);
    FirstLotOf(ps, order, Abs(units.number), plain[0]);
    assert SelectsCost(ps, units.currency, m);
    ReduceIsGreedy(ps, units, m, rule);
    OneStep(ps, order, Abs(units.number), plain[0]);
  }

  lemma {:induction false} FirstLotOf(ps: seq<Position>, order: seq<nat>, size: real, plain: Step)
    requires InRange(ps, order) && order != [] && size != 0.0 && Steps(ps, order, size) == [plain]
    ensures plain.lot == LotOf(ps[order[0]])
  {
    var take := Min(size, Abs(ps[order[0]].units.number));
    assert ([PlainStep(LotOf(ps[order[0]]), take)] + Steps(ps, order[1..], size - take))[0] == plain;
  }

  /** The single-lot form of a reduction takes the same lot. */
  lemma {:induction false} SingleBooksAlike(ps: seq<Position>, p: Posting, rule: BookingMethod, txnDate: nat, step: Step)
    requires p.amount.Some? && NoEmptySlot(ps) && Retraceable(ps, p, rule)
    requires OutcomeOf(ps, p, rule, txnDate) == Consumed([step]) && IsRealLot(step.lot)
    ensures BookAlike(ps, p, WithLot(p, step), rule, txnDate)
  {
    var units := p.amount.value;
    var order, size := ReductionDrains(ps, p, rule, txnDate);
    OneRealLot(ps, p, rule, txnDate, order, step);
    var o := order[0];
    ConsumptionIsTheSelectedInOrder(ps, units.currency, MatcherOf(p, units), rule);
    assert o in order && ps[o] in ps;
    assert Sole(ps, units.currency, order[0]);
    SoleTakesItAll(ps, order, size);
    OpposedGroupReduces(ps, units, step.lot.currency, rule, o);
    ChildBooks(ps, WithLot(p, step), rule, txnDate, o, units, size);
  }

  lemma {:induction false} SoleTakesItAll(ps: seq<Position>, order: seq<nat>, size: real)
    requires InRange(ps, order) && order != [] && 0.0 < size <= Abs(ps[order[0]].units.number)
    ensures Steps(ps, order, size) == [PlainStep(LotOf(ps[order[0]]), size)]
    ensures Drained(ps, order, size) == ps[order[0] := Shrunk(ps[order[0]], size)]
    ensures StepChanges(ps, order, size) == [TakeChange(ps[order[0]], size)]
  {
    assert Min(size, Abs(ps[order[0]].units.number)) == size;
  }

  // ------------------------------------------------------------------ one posting

  lemma {:induction false} AlikeBookings(run: Run, p: Posting, q: Posting, methods: Methods, txnDate: nat)
    requires BookAlike(Holdings(run.state, p.account), p, q, MethodOf(methods, p.account), txnDate)
    ensures Booking(run, p, methods, txnDate) == Booking(run, q, methods, txnDate)
  {
  }

  /** What a run must offer for posting `p` to book again to itself. */
  ghost predicate Retraces(run: Run, p: Posting, methods: Methods) {
    var ps := Holdings(run.state, p.account);
    && Tidy(ps) && CostHasCurrency(p.cost)
    && (p.amount.Some? ==> Retraceable(ps, p, MethodOf(methods, p.account)))
  }

  /** The filed form of a posting that booked to `next`, unless it was expanded, books to `next` as well. */
  lemma {:induction false} FiledBooksAgain(run: Run, p: Posting, next: Run, methods: Methods, txnDate: nat) returns (q: Posting)
    requires p.amount.Some? && Retraces(run, p, methods) && BookNext(run, p, methods, txnDate) == Ok(next)
    requires var r := Booking(run, p, methods, txnDate).1; r.Augmented? || (r.Consumed? && |r.steps| < 2)
    ensures BookNext(run, q, methods, txnDate) == Ok(next) && next.pr.postings == run.pr.postings + [q]
  {
    var ps, rule := Holdings(run.state, p.account), MethodOf(methods, p.account);
    var (done, r) := Booking(run, p, methods, txnDate);
    q := p;
    if p.cost.Some? && p.cost.value.Booked? {
    } else if r.Augmented? {
      if r.lot.Some? {
        q := p.(cost := AugmentCostFor(p.cost, r.lot.value));
        AugmentationBooksAlike(ps, p, rule, txnDate);
        AlikeBookings(run, p, q, methods, txnDate);
        AugmentationFilesAlike(done.pr, p, q, r.lot.value, ps, rule, txnDate);
      }
    } else if |r.steps| == 1 && IsRealLot(r.steps[0].lot) {
      q := WithLot(p, r.steps[0]);
      assert r.steps == [r.steps[0]];
      SingleBooksAlike(ps, p, rule, txnDate, r.steps[0]);
      AlikeBookings(run, p, q, methods, txnDate);
      SingleFilesAlike(done.pr, p, q, r.steps[0], ps, rule, txnDate);
    }
  }

  lemma {:induction false} AugmentationFilesAlike(pr: Resolution, p: Posting, q: Posting, lot: Lot, ps: seq<Position>, rule: BookingMethod, txnDate: nat)
    requires p.amount.Some? && CostHasCurrency(p.cost) && p.cost.Some? && p.cost.value.Spec?
    requires OutcomeOf(ps, p, rule, txnDate) == Augmented(Some(lot)) && q == p.(cost := AugmentCostFor(p.cost, lot))
    ensures Filed(pr, p, Some(lot), []) == Filed(pr, q, Some(lot), [])
  {
    assert WeightCurrencyFallback(q) == lot.currency;
  }

  lemma {:induction false} SingleFilesAlike(pr: Resolution, p: Posting, q: Posting, step: Step, ps: seq<Position>, rule: BookingMethod, txnDate: nat)
    requires p.amount.Some? && !(p.cost.Some? && p.cost.value.Booked?) && IsRealLot(step.lot) && q == WithLot(p, step)
    ensures Filed(pr, p, None, [step]) == Filed(pr, q, None, [step])
  {
    assert WeightCurrencyFallback(q) == step.lot.currency;
  }

  /** The children of an expanded reduction book to where the reduction led. */
  lemma {:induction false} ExpandedBooksAgain(run: Run, p: Posting, next: Run, methods: Methods, txnDate: nat, steps: seq<Step>)
    returns (runs: seq<Run>)
    requires p.amount.Some? && Retraces(run, p, methods) && BookNext(run, p, methods, txnDate) == Ok(next)
    requires Booking(run, p, methods, txnDate).1 == Consumed(steps) && |steps| >= 2
    ensures Chain(runs, Children(p, steps), methods, txnDate) && runs[0] == run && runs[|runs| - 1] == next
    ensures next.pr.postings == run.pr.postings + Children(p, steps)
  {
    var ps, rule, e := Holdings(run.state, p.account), MethodOf(methods, p.account), run.Edit(p.account);
    var order, size := ReductionDrains(ps, p, rule, txnDate);
    ManyStepsSelectLots(ps, p, rule, txnDate, order, steps);
    CompactingNothing(ps);
    ExpansionRun(run, p, next, methods, txnDate, order, size, steps);
    var tail := ChildrenRebook(e, p, ps, order, size, steps, next, methods, txnDate);
    runs := FromBeforeEdit(run, p, steps, tail, methods, txnDate);
  }

  /** The run an expanded reduction leads to, in terms of the lots it drained. */
  lemma {:induction false} ExpansionRun(run: Run, p: Posting, next: Run, methods: Methods, txnDate: nat,
                                        order: seq<nat>, size: real, steps: seq<Step>)
    requires p.amount.Some? && BookNext(run, p, methods, txnDate) == Ok(next)
    requires Booking(run, p, methods, txnDate).1 == Consumed(steps) && |steps| >= 2
    requires InRange(Holdings(run.state, p.account), order)
    requires var ps, rule := Holdings(run.state, p.account), MethodOf(methods, p.account);
             && BookedPositions(ps, p, rule, txnDate) == Compacted(Drained(ps, order, size))
             && BookChanges(ps, p, rule, txnDate) == StepChanges(ps, order, size)
    ensures next == RunAfter(run.Edit(p.account), p, Holdings(run.state, p.account), order, size, steps)
    ensures next.pr.postings == run.pr.postings + Children(p, steps)
  {
    ChildrenAppended(run.pr, p, steps);
  }

  /** Two steps cannot both be cash in a tidy inventory, so they are lots. */
  lemma {:induction false} ManyStepsSelectLots(ps: seq<Position>, p: Posting, rule: BookingMethod, txnDate: nat, order: seq<nat>, steps: seq<Step>)
    requires Tidy(ps) && p.amount.Some? && OutcomeOf(ps, p, rule, txnDate) == Consumed(steps) && |steps| >= 2
    requires order == Consumption(ps, p.amount.value.currency, MatcherOf(p, p.amount.value), rule)
    requires steps == Realized(Steps(ps, order, Abs(p.amount.value.number)), p.price, p.amount.value)
    ensures !SelectsOnlyCash(ps, p)
  {
    var units := p.amount.value;
    ConsumptionIsTheSelectedInOrder(ps, units.currency, MatcherOf(p, units), rule);
    StepsAreNoMoreThanSlots(ps, order, Abs(units.number));
    assert order[0] in order && order[1] in order && order[0] != order[1];
    assert ps[order[0]] in ps && ps[order[1]] in ps;
    if ps[order[0]].cost.None? && ps[order[1]].cost.None? {
      assert SameSlot(ps[order[0]], ps[order[1]]) && SameSlot(ps[order[1]], ps[order[0]]);
    }
  }

  lemma {:induction false} StepsAreNoMoreThanSlots(ps: seq<Position>, order: seq<nat>, remaining: real)
    requires InRange(ps, order)
    ensures |Steps(ps, order, remaining)| <= |order|
  {
    if order != [] && remaining != 0.0 {
      StepsAreNoMoreThanSlots(ps, order[1..], remaining - Min(remaining, Abs(ps[order[0]].units.number)));
    }
  }

  /** Touching the account first makes no difference to the first child. */
  lemma {:induction false} FromBeforeEdit(run: Run, p: Posting, steps: seq<Step>, tail: seq<Run>, methods: Methods, txnDate: nat)
    returns (runs: seq<Run>)
    requires p.amount.Some? && |steps| > 0
    requires Chain(tail, Children(p, steps), methods, txnDate) && tail[0] == run.Edit(p.account)
    ensures Chain(runs, Children(p, steps), methods, txnDate) && runs[0] == run && runs[|runs| - 1] == tail[|tail| - 1]
  {
    var children := Children(p, steps);
    runs := tail[0 := run];
    assert children[0] == Child(p, steps[0]);
    forall k | 0 <= k < |children| ensures Link(runs, children, methods, txnDate, k) {
      assert Link(tail, children, methods, txnDate, k);
      if k == 0 {
        EditingTwice(run, children[0], methods, txnDate);
      }
    }
  }

  lemma {:induction false} EditingTwice(run: Run, q: Posting, methods: Methods, txnDate: nat)
    requires q.amount.Some?
    ensures BookNext(run.Edit(q.account), q, methods, txnDate) == BookNext(run, q, methods, txnDate)
  {
    assert run.Edit(q.account).Edit(q.account) == run.Edit(q.account);
    assert Booking(run.Edit(q.account), q, methods, txnDate) == Booking(run, q, methods, txnDate);
  }

  // ------------------------------------------------------------------ one transaction

  /** Booking reports at the end and holds unknowns at the end; it takes neither back. */
  ghost predicate Grows(run: Run, next: Run) {
    && |run.diags| <= |next.diags| && next.diags[..|run.diags|] == run.diags
    && |run.pr.unknownDesc| <= |next.pr.unknownDesc| && next.pr.unknownDesc[..|run.pr.unknownDesc|] == run.pr.unknownDesc
  }

  lemma {:induction false} BookNextGrows(run: Run, p: Posting, next: Run, methods: Methods, txnDate: nat)
    requires BookNext(run, p, methods, txnDate) == Ok(next)
    ensures Grows(run, next)
    ensures |next.diags| == |run.diags| && |next.pr.unknownDesc| == |run.pr.unknownDesc| ==>
              p.amount.Some? && (var r := Booking(run, p, methods, txnDate).1; r.Augmented? || r.Consumed?)
  {
    if p.amount.Some? {
      var (done, r) := Booking(run, p, methods, txnDate);
      assert done.diags == run.diags && done.pr == run.pr;
      FilingGrows(done, p, r);
    }
  }

  lemma {:induction false} FilingGrows(done: Run, p: Posting, r: Outcome)
    requires p.amount.Some? && File(done, p, r).Ok?
    ensures Grows(done, File(done, p, r).value)
    ensures var next := File(done, p, r).value;
            |next.diags| == |done.diags| && |next.pr.unknownDesc| == |done.pr.unknownDesc| ==> r.Augmented? || r.Consumed?
  {
    match r {
      case Augmented(lot) => FiledAppends(done.pr, p, lot, []);
      case Consumed(steps) => FiledAppends(done.pr, p, None, steps);
      case _ =>
    }
  }

  lemma {:induction false} Pass1Grows(run: Run, postings: seq<Posting>, end: Run, methods: Methods, txnDate: nat)
    requires Pass1(run, postings, methods, txnDate) == Ok(end)
    ensures Grows(run, end)
    decreases |postings|
  {
    if postings != [] {
      var next := BookNext(run, postings[0], methods, txnDate).value;
      BookNextGrows(run, postings[0], next, methods, txnDate);
      Pass1Grows(next, postings[1..], end, methods, txnDate);
    }
  }

  /** Every posting of the transaction can be retraced from the run it is booked in. */
  ghost predicate RetracesAll(run: Run, postings: seq<Posting>, methods: Methods, txnDate: nat)
    decreases |postings|
  {
    postings == [] ||
    (&& Retraces(run, postings[0], methods)
     && match BookNext(run, postings[0], methods, txnDate)
        case Err(_) => true
        case Ok(next) => RetracesAll(next, postings[1..], methods, txnDate))
  }

  /** Booking `filed` leads from `run` to `end` over `runs` and gives back `filed`. */
  ghost predicate Again(run: Run, end: Run, runs: seq<Run>, filed: seq<Posting>, methods: Methods, txnDate: nat) {
    Chain(runs, filed, methods, txnDate) && runs[0] == run && runs[|filed|] == end && end.pr.postings == run.pr.postings + filed
  }

  lemma {:induction false} PostingBooksAgain(run: Run, p: Posting, next: Run, methods: Methods, txnDate: nat)
    returns (runs: seq<Run>, filed: seq<Posting>)
    requires p.amount.Some? && Retraces(run, p, methods) && BookNext(run, p, methods, txnDate) == Ok(next)
    requires var r := Booking(run, p, methods, txnDate).1; r.Augmented? || r.Consumed?
    ensures Again(run, next, runs, filed, methods, txnDate)
  {
    var r := Booking(run, p, methods, txnDate).1;
    if r.Consumed? && |r.steps| >= 2 {
      runs := ExpandedBooksAgain(run, p, next, methods, txnDate, r.steps);
      filed := Children(p, r.steps);
    } else {
      var q := FiledBooksAgain(run, p, next, methods, txnDate);
      OneLink(run, q, next, methods, txnDate);
      runs, filed := [run, next], [q];
    }
  }

  /** The first posting books again, and leaves the rest of the transaction to be retraced. */
  lemma {:induction false} FirstBooksAgain(run: Run, postings: seq<Posting>, end: Run, methods: Methods, txnDate: nat)
    returns (next: Run, runs: seq<Run>, filed: seq<Posting>)
    requires postings != [] && Pass1(run, postings, methods, txnDate) == Ok(end) && RetracesAll(run, postings, methods, txnDate)
    requires end.diags == run.diags && end.pr.unknownDesc == run.pr.unknownDesc
    ensures Pass1(next, postings[1..], methods, txnDate) == Ok(end) && RetracesAll(next, postings[1..], methods, txnDate)
    ensures next.diags == run.diags && next.pr.unknownDesc == run.pr.unknownDesc
    ensures Again(run, next, runs, filed, methods, txnDate)
  {
    var p := postings[0];
    next := BookNext(run, p, methods, txnDate).value;
    BookNextGrows(run, p, next, methods, txnDate);
    Pass1Grows(next, postings[1..], end, methods, txnDate);
    SameGrowth(run, next, end);
    runs, filed := PostingBooksAgain(run, p, next, methods, txnDate);
  }

  lemma {:induction false} NothingAgain(run: Run, methods: Methods, txnDate: nat)
    ensures Again(run, run, [run], [], methods, txnDate)
  {
    assert run.pr.postings + [] == run.pr.postings;
  }

  lemma {:induction false} JoinedChains(run: Run, next: Run, end: Run, r1: seq<Run>, f1: seq<Posting>, r2: seq<Run>, f2: seq<Posting>,
                                        methods: Methods, txnDate: nat) returns (runs: seq<Run>)
    requires Again(run, next, r1, f1, methods, txnDate) && Again(next, end, r2, f2, methods, txnDate)
    ensures Again(run, end, runs, f1 + f2, methods, txnDate)
  {
    ChainsJoin(r1, f1, r2, f2, methods, txnDate);
    runs := r1[..|f1|] + r2;
  }

  lemma {:induction false} PassBooksAgain(run: Run, postings: seq<Posting>, end: Run, methods: Methods, txnDate: nat)
    returns (runs: seq<Run>, filed: seq<Posting>)
    requires Pass1(run, postings, methods, txnDate) == Ok(end) && RetracesAll(run, postings, methods, txnDate)
    requires end.diags == run.diags && end.pr.unknownDesc == run.pr.unknownDesc
    ensures Again(run, end, runs, filed, methods, txnDate)
    decreases |postings|
  {
    if postings == [] {
      NothingAgain(run, methods, txnDate);
      runs, filed := [run], [];
    } else {
      var next, r1, f1 := FirstBooksAgain(run, postings, end, methods, txnDate);
      var r2, f2 := PassBooksAgain(next, postings[1..], end, methods, txnDate);
      runs := JoinedChains(run, next, end, r1, f1, r2, f2, methods, txnDate);
      filed := f1 + f2;
    }
  }

  lemma {:induction false} SameGrowth(run: Run, next: Run, end: Run)
    requires Grows(run, next) && Grows(next, end)
    requires end.diags == run.diags && end.pr.unknownDesc == run.pr.unknownDesc
    ensures next.diags == run.diags && next.pr.unknownDesc == run.pr.unknownDesc
  {
  }

  /**
   Rebooking is a fixed point. A transaction that booked without a finding and
   without an unknown, and whose postings can all be retraced, books its own
   expanded output from the same state to the very same result: the same postings
   and records, the same inventories, the same diff.
   */
  lemma {:induction false} RebookingIsAFixedPoint(state: State, diags: seq<Diag>, postings: seq<Posting>, methods: Methods, txnDate: nat, end: Run)
    requires Pass1(Start(state, diags), postings, methods, txnDate) == Ok(end)
    requires end.diags == diags && end.pr.unknownDesc == []
    requires RetracesAll(Start(state, diags), postings, methods, txnDate)
    ensures Pass1(Start(state, diags), end.pr.postings, methods, txnDate) == Ok(end)
    ensures VisitOf(state, diags, postings, methods, txnDate).Ok?
    ensures var v := VisitOf(state, diags, postings, methods, txnDate).value;
            && v.postings == end.pr.postings && v.state == end.state
            && VisitOf(state, diags, v.postings, methods, txnDate) == Ok(v)
  {
    var start := Start(state, diags);
    var runs, filed := PassBooksAgain(start, postings, end, methods, txnDate);
    assert end.pr.postings == filed;
    ChainIsPass1(runs, filed, methods, txnDate);
    AmountsAreExplicit(start, postings, end, methods, txnDate);
    AmountsAreExplicit(start, filed, end, methods, txnDate);
    ExplicitVisit(state, diags, postings, methods, txnDate, end);
    ExplicitVisit(state, diags, filed, methods, txnDate, end);
  }

  lemma {:induction false} AmountsAreExplicit(run: Run, postings: seq<Posting>, end: Run, methods: Methods, txnDate: nat)
    requires Pass1(run, postings, methods, txnDate) == Ok(end)
    requires end.diags == run.diags && end.pr.unknownDesc == run.pr.unknownDesc
    ensures StructureError(postings, false) == None && end.pr.dropped == run.pr.dropped
    decreases |postings|
  {
    if postings != [] {
      var next := BookNext(run, postings[0], methods, txnDate).value;
      SuccessDropsNothing(run, postings[0], next, methods, txnDate);
      BookNextGrows(run, postings[0], next, methods, txnDate);
      Pass1Grows(next, postings[1..], end, methods, txnDate);
      SameGrowth(run, next, end);
      AmountsAreExplicit(next, postings[1..], end, methods, txnDate);
    }
  }

  lemma {:induction false} SuccessDropsNothing(run: Run, p: Posting, next: Run, methods: Methods, txnDate: nat)
    requires BookNext(run, p, methods, txnDate) == Ok(next)
    ensures var r := Booking(run, p, methods, txnDate).1;
            p.amount.Some? && (r.Augmented? || r.Consumed?) ==> next.pr.dropped == run.pr.dropped
  {
    if p.amount.Some? {
      var (done, r) := Booking(run, p, methods, txnDate);
      match r {
        case Augmented(lot) => FiledAppends(done.pr, p, lot, []);
        case Consumed(steps) => FiledAppends(done.pr, p, None, steps);
        case _ =>
      }
    }
  }

  /** A visit with nothing to interpolate and nothing to drop is its first pass. */
  lemma {:induction false} ExplicitVisit(state: State, diags: seq<Diag>, postings: seq<Posting>, methods: Methods, txnDate: nat, end: Run)
    requires Pass1(Start(state, diags), postings, methods, txnDate) == Ok(end) && StructureError(postings, false) == None
    requires end.pr.unknownDesc == [] && end.pr.dropped == {}
    ensures WellFormed(end.pr)
    ensures VisitOf(state, diags, postings, methods, txnDate) == Ok(Finish(end, end.pr.postings, Bound(end.pr, 0)))
  {
    Pass1KeepsWellFormed(Start(state, diags), postings, methods, txnDate);
    var none: seq<Group> := [];
    assert ResolveGroups(Resolved(end, [], []), none, methods, txnDate) == Ok(Resolved(end, [], []));
    assert ApplyFailures(end, []) == end;
    assert Pass2(end, methods, txnDate) == Ok(end);
  }
}
