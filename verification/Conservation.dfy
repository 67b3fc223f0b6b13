/**
 What booking a transaction keeps: the invariants of every touched inventory,
 the link between booked records and postings, and the conservation law that the
 units held are the units held before plus the effects of the booked records.
 */
module Conservation {
  import opened Prelude
  import opened Amounts
  import opened Inventories
  import opened InventoryLaws
  import opened Costs
  import opened Bookings
  import opened BookingLaws
  import opened Resolutions
  import opened Reductions

  // ------------------------------------------------------------------ what a posting may be

  /**
   How much is asked of the inventories and postings of a run: nothing; real lots
   and costs with currencies; or also unique slots and nonzero units.
   */
  datatype Care = Any | Priced | Neat

  ghost predicate Proper(care: Care, p: Posting) {
    && (care != Any ==> CostHasCurrency(p.cost))
    && (care == Neat && p.amount.Some? ==> p.amount.value.number != 0.0)
  }

  ghost predicate AllProper(care: Care, postings: seq<Posting>) {
    forall p :: p in postings ==> Proper(care, p)
  }

  // ------------------------------------------------------------------ invariants of a run

  ghost predicate RealLots(ps: seq<Position>) {
    forall p :: p in ps && p.cost.Some? ==> IsRealLot(p.cost.value)
  }

  ghost predicate Fine(care: Care, ps: seq<Position>) {
    (care != Any ==> RealLots(ps)) && (care == Neat ==> Tidy(ps))
  }

  ghost predicate AllFine(care: Care, state: State) {
    forall a :: a in state ==> Fine(care, state[a])
  }

  /** The lot a reduction step stands for. */
  function CostOf(lot: Lot): Option<Lot> {
    if IsRealLot(lot) then Some(lot) else None
  }

  /** The lot a step taken from a slot reports. */
  function LotAt(cost: Option<Lot>): Lot {
    if cost.Some? then cost.value else CASH_LOT
  }

  /** `change` took `step` from a slot, on either side. */
  ghost predicate Takes(care: Care, step: Step, change: Change) {
    && step.lot == LotAt(change.cost)
    && (care != Any ==> change.cost == CostOf(step.lot))
    && step.units >= 0.0
    && (care == Neat ==> step.units > 0.0)
    && (change.delta == -step.units || change.delta == step.units)
  }

  /** `change` is what booking `b` did: add its units to its slot, or take its step. */
  ghost predicate LogMatches(care: Care, b: BookedPosting, change: Change) {
    && change.commodity == b.units.currency
    && match b.reduction
       case None =>
         && change.cost == b.lot && change.delta == b.units.number
         && (care == Neat ==> change.delta != 0.0)
         && (care != Any && b.lot.Some? ==> IsRealLot(b.lot.value))
       case Some(step) => Takes(care, step, change)
  }

  /** The posting at `ref` is the one `b` was booked from. */
  ghost predicate SourceMatches(postings: seq<Posting>, ref: Ref, b: BookedPosting) {
    ref.at < |postings| && postings[ref.at].account == b.account && postings[ref.at].amount == Some(b.units)
  }

  ghost predicate Kept(care: Care, run: Run) {
    && WellFormed(run.pr)
    && |run.log| == |run.pr.booked|
    && AllFine(care, run.state)
    && (forall j :: 0 <= j < |run.log| ==> LogMatches(care, run.pr.booked[j], run.log[j]))
    && (forall j :: 0 <= j < |run.log| ==> SourceMatches(run.pr.postings, run.pr.bookedDesc[j], run.pr.booked[j]))
  }

  // ------------------------------------------------------------------ the steps of one reduction

  /** Step and change of taking from position `q`. */
  ghost predicate TakesFrom(care: Care, q: Position, step: Step, change: Change) {
    && change.commodity == q.units.currency
    && change.cost == q.cost
    && Takes(care, step, change)
  }

  lemma {:induction false} StepsAndChanges(care: Care, ps: seq<Position>, order: seq<nat>, remaining: real)
    requires InRange(ps, order) && remaining >= 0.0 && Fine(care, ps)
    ensures var steps, changes := Steps(ps, order, remaining), StepChanges(ps, order, remaining);
            && |steps| == |changes| <= |order|
            && forall k :: 0 <= k < |steps| ==> TakesFrom(care, ps[order[k]], steps[k], changes[k])
  {
    if order != [] && remaining != 0.0 {
      var p := ps[order[0]];
      var take := Min(remaining, Abs(p.units.number));
      StepsAndChanges(care, ps, order[1..], remaining - take);
      assert p in ps;
      var steps, rest := Steps(ps, order, remaining), Steps(ps, order[1..], remaining - take);
      var changes, restc := StepChanges(ps, order, remaining), StepChanges(ps, order[1..], remaining - take);
      assert TakesFrom(care, p, steps[0], changes[0]);
      forall k | 0 < k < |steps| ensures TakesFrom(care, ps[order[k]], steps[k], changes[k]) {
        assert TakesFrom(care, ps[order[1..][k - 1]], rest[k - 1], restc[k - 1]);
      }
    }
  }

  lemma {:induction false} RealizedKeepsLotsAndUnits(steps: seq<Step>, price: Option<Price>, units: Amount)
    ensures var r := Realized(steps, price, units);
            forall k :: 0 <= k < |steps| ==> r[k].lot == steps[k].lot && r[k].units == steps[k].units
  {
    if steps != [] {
      RealizedKeepsLotsAndUnits(steps[1..], price, units);
      var r := Realized(steps, price, units);
      if r != steps {
        assert forall k :: 0 < k < |steps| ==> r[k] == Realized(steps[1..], price, units)[k - 1] && steps[k] == steps[1..][k - 1];
      }
    }
  }

  ghost predicate StepMatches(care: Care, commodity: string, step: Step, change: Change) {
    change.commodity == commodity && Takes(care, step, change)
  }

  lemma {:induction false} ReducedStepsMatchChanges(care: Care, ps: seq<Position>, units: Amount, m: Matcher, rule: BookingMethod)
    requires Fine(care, ps) && units.number != 0.0 && ReduceResultOf(ps, units, m, rule).Reduced?
    ensures var steps, changes := ReduceResultOf(ps, units, m, rule).steps, ReduceChanges(ps, units, m, rule);
            && |steps| == |changes| > 0
            && forall k :: 0 <= k < |steps| ==> StepMatches(care, units.currency, steps[k], changes[k])
  {
    var order := Consumption(ps, units.currency, m, rule);
    AcceptedReduction(ps, units, m, rule);
    ConsumptionIsTheSelectedInOrder(ps, units.currency, m, rule);
    assert order != [];
    StepsAndChanges(care, ps, order, Abs(units.number));
    var steps, changes := ReduceResultOf(ps, units, m, rule).steps, ReduceChanges(ps, units, m, rule);
    forall k | 0 <= k < |steps| ensures StepMatches(care, units.currency, steps[k], changes[k]) {
      assert order[k] in order && TakesFrom(care, ps[order[k]], steps[k], changes[k]);
    }
  }

  /** The steps a booking reports and the changes it makes go hand in hand. */
  lemma {:induction false} ConsumedStepsMatchChanges(care: Care, ps: seq<Position>, p: Posting, rule: BookingMethod, txnDate: nat)
    requires Fine(care, ps) && OutcomeOf(ps, p, rule, txnDate).Consumed?
    ensures var steps, changes := OutcomeOf(ps, p, rule, txnDate).steps, BookChanges(ps, p, rule, txnDate);
            && |steps| == |changes| > 0
            && forall k :: 0 <= k < |steps| ==> StepMatches(care, p.amount.value.currency, steps[k], changes[k])
  {
    var units := p.amount.value;
    var m := MatcherOf(p, units);
    var plain := ReduceResultOf(ps, units, m, rule).steps;
    ReducedStepsMatchChanges(care, ps, units, m, rule);
    RealizedKeepsLotsAndUnits(plain, p.price, units);
    assert OutcomeOf(ps, p, rule, txnDate).steps == Realized(plain, p.price, units);
  }

  lemma {:induction false} BookingKeepsFine(care: Care, ps: seq<Position>, p: Posting, rule: BookingMethod, txnDate: nat)
    requires Fine(care, ps) && p.amount.Some? && (care == Neat ==> p.amount.value.number != 0.0)
    requires var r := OutcomeOf(ps, p, rule, txnDate);
             care != Any && r.Augmented? && r.lot.Some? ==> IsRealLot(r.lot.value)
    ensures Fine(care, BookedPositions(ps, p, rule, txnDate))
  {
    if care == Neat {
      BookingKeepsTidy(ps, p, rule, txnDate);
    }
    match OutcomeOf(ps, p, rule, txnDate) {
      case Augmented(lot) => AddedSlots(ps, Position(p.amount.value, lot));
      case Consumed(_) => ReducedSlots(ps, p.amount.value, MatcherOf(p, p.amount.value), rule);
      case _ =>
    }
  }

  // ------------------------------------------------------------------ conservation

  /** The effect of the booked records on one key of one account. */
  function EffectOf(booked: seq<BookedPosting>, log: seq<Change>, account: string, c: string, cost: Option<Lot>): real
    requires |booked| == |log|
  {
    if booked == [] then 0.0
    else (if booked[0].account == account && log[0].commodity == c && log[0].cost == cost then log[0].delta else 0.0)
         + EffectOf(booked[1..], log[1..], account, c, cost)
  }

  /** Units held beyond what the booked records account for. */
  function Base(run: Run, account: string, c: string, cost: Option<Lot>): real
    requires |run.pr.booked| == |run.log|
  {
    UnitsAt(Holdings(run.state, account), c, cost) - EffectOf(run.pr.booked, run.log, account, c, cost)
  }

  lemma {:induction false} EffectSplit(b1: seq<BookedPosting>, b2: seq<BookedPosting>, l1: seq<Change>, l2: seq<Change>,
                                       account: string, c: string, cost: Option<Lot>)
    requires |b1| == |l1| && |b2| == |l2|
    ensures EffectOf(b1 + b2, l1 + l2, account, c, cost)
            == EffectOf(b1, l1, account, c, cost) + EffectOf(b2, l2, account, c, cost)
  {
    if b1 == [] {
      assert b1 + b2 == b2 && l1 + l2 == l2;
    } else {
      assert (b1 + b2)[1..] == b1[1..] + b2 && (l1 + l2)[1..] == l1[1..] + l2;
      EffectSplit(b1[1..], b2, l1[1..], l2, account, c, cost);
    }
  }

  lemma {:induction false} EffectOfOneAccount(booked: seq<BookedPosting>, log: seq<Change>, home: string,
                                              account: string, c: string, cost: Option<Lot>)
    requires |booked| == |log| && forall b :: b in booked ==> b.account == home
    ensures EffectOf(booked, log, account, c, cost) == if account == home then ChangeAt(log, c, cost) else 0.0
  {
    if booked != [] {
      EffectOfOneAccount(booked[1..], log[1..], home, account, c, cost);
    }
  }

  /** Booking `p` conserves `Base`, once its records `added` are filed under its account. */
  lemma {:induction false} BookingConserves(run: Run, p: Posting, methods: Methods, txnDate: nat, added: seq<BookedPosting>,
                         account: string, c: string, cost: Option<Lot>)
    requires |run.pr.booked| == |run.log|
    requires forall b :: b in added ==> b.account == p.account
    requires |Booking(run, p, methods, txnDate).0.log| == |run.log| + |added|
    ensures var done := Booking(run, p, methods, txnDate).0;
            Base(done.(pr := done.pr.(booked := run.pr.booked + added)), account, c, cost) == Base(run, account, c, cost)
  {
    var e := run.Edit(p.account);
    var ps, rule := Holdings(e.state, p.account), MethodOf(methods, p.account);
    var changes := BookChanges(ps, p, rule, txnDate);
    assert ps == Holdings(run.state, p.account);
    BookingChangesUnits(ps, p, rule, txnDate, c, cost);
    EffectSplit(run.pr.booked, added, run.log, changes, account, c, cost);
    EffectOfOneAccount(added, changes, p.account, account, c, cost);
  }

  // ------------------------------------------------------------------ filing explicit postings

  function Children(p: Posting, steps: seq<Step>): (r: seq<Posting>)
    requires p.amount.Some?
    ensures |r| == |steps|
  {
    if steps == [] then [] else [Child(p, steps[0])] + Children(p, steps[1..])
  }

  function ChildRecords(p: Posting, steps: seq<Step>): (r: seq<BookedPosting>)
    requires p.amount.Some?
    ensures |r| == |steps|
  {
    if steps == [] then []
    else [Record(Child(p, steps[0]), None, Some(steps[0]), false)] + ChildRecords(p, steps[1..])
  }

  function ChildRefs(n: nat, steps: seq<Step>): (r: seq<Ref>)
    ensures |r| == |steps|
    decreases |steps|
  {
    if steps == [] then [] else [Ref(steps[0].lot.currency, n)] + ChildRefs(n + 1, steps[1..])
  }

  /** `pr` with postings, records and descriptors appended. */
  function Extended(pr: Resolution, postings: seq<Posting>, booked: seq<BookedPosting>, refs: seq<Ref>): Resolution {
    pr.(postings := pr.postings + postings, booked := pr.booked + booked, bookedDesc := pr.bookedDesc + refs)
  }

  lemma {:induction false} ExtendingTwice(pr: Resolution, p1: seq<Posting>, b1: seq<BookedPosting>, r1: seq<Ref>,
                                          p2: seq<Posting>, b2: seq<BookedPosting>, r2: seq<Ref>)
    ensures Extended(Extended(pr, p1, b1, r1), p2, b2, r2) == Extended(pr, p1 + p2, b1 + b2, r1 + r2)
  {
    assert (pr.postings + p1) + p2 == pr.postings + (p1 + p2);
    assert (pr.booked + b1) + b2 == pr.booked + (b1 + b2);
    assert (pr.bookedDesc + r1) + r2 == pr.bookedDesc + (r1 + r2);
  }

  lemma {:induction false} ChildrenAppended(pr: Resolution, p: Posting, steps: seq<Step>)
    requires p.amount.Some?
    ensures pr.AddChildren(p, steps) == Extended(pr, Children(p, steps), ChildRecords(p, steps), ChildRefs(|pr.postings|, steps))
    decreases |steps|
  {
    if steps == [] {
      assert pr.postings + [] == pr.postings && pr.booked + [] == pr.booked && pr.bookedDesc + [] == pr.bookedDesc;
    } else {
      var child := Child(p, steps[0]);
      var r, ref := Record(child, None, Some(steps[0]), false), Ref(steps[0].lot.currency, |pr.postings|);
      var next, rest := Extended(pr, [child], [r], [ref]), steps[1..];
      assert next == pr.AddBooked(child, r, steps[0].lot.currency);
      ChildrenAppended(next, p, rest);
      ExtendingTwice(pr, [child], [r], [ref], Children(p, rest), ChildRecords(p, rest), ChildRefs(|pr.postings| + 1, rest));
    }
  }

  lemma {:induction false} ChildrenAt(p: Posting, steps: seq<Step>, n: nat, k: nat)
    requires p.amount.Some? && k < |steps|
    ensures Children(p, steps)[k] == Child(p, steps[k])
    ensures ChildRecords(p, steps)[k] == Record(Child(p, steps[k]), None, Some(steps[k]), false)
    ensures ChildRefs(n, steps)[k] == Ref(steps[k].lot.currency, n + k)
    decreases |steps|
  {
    if k > 0 {
      ChildrenAt(p, steps[1..], n + 1, k - 1);
    }
  }

  /** The postings, records and descriptors that filing `p` adds. */
  datatype Filing = Filing(postings: seq<Posting>, booked: seq<BookedPosting>, refs: seq<Ref>)

  function FilingOf(pr: Resolution, p: Posting, lot: Option<Lot>, steps: seq<Step>): Filing
    requires p.amount.Some?
  {
    var n := |pr.postings|;
    if p.cost.Some? && p.cost.value.Booked? then
      Filing([p], [Record(p, lot, if |steps| == 1 then Some(steps[0]) else None, false)], [Ref(WeightCurrencyFallback(p), n)])
    else if lot.Some? then
      Filing([p.(cost := AugmentCostFor(p.cost, lot.value))], [Record(p, lot, None, false)], [Ref(lot.value.currency, n)])
    else if |steps| == 0 then Filing([p], [Record(p, None, None, false)], [Ref(CashGroupKey(p), n)])
    else if |steps| == 1 then
      Filing([WithLot(p, steps[0])], [Record(p, None, Some(steps[0]), false)], [Ref(ReductionGroupKey(p, steps[0]), n)])
    else Filing(Children(p, steps), ChildRecords(p, steps), ChildRefs(n, steps))
  }

  function Append(pr: Resolution, f: Filing): Resolution {
    Extended(pr, f.postings, f.booked, f.refs)
  }

  /** Filing a success only appends, and appends matching postings, records and descriptors. */
  lemma {:induction false} FiledAppends(pr: Resolution, p: Posting, lot: Option<Lot>, steps: seq<Step>)
    requires p.amount.Some? && Filed(pr, p, lot, steps).Ok?
    ensures Filed(pr, p, lot, steps).value == Append(pr, FilingOf(pr, p, lot, steps))
  {
    if |steps| > 1 {
      ChildrenAppended(pr, p, steps);
    }
  }

  /** The three parts of a filing agree with one another. */
  lemma {:induction false} FilingIsCoherent(pr: Resolution, p: Posting, lot: Option<Lot>, steps: seq<Step>)
    requires p.amount.Some?
    ensures var f := FilingOf(pr, p, lot, steps);
            && |f.postings| == |f.booked| == |f.refs|
            && forall k :: 0 <= k < |f.refs| ==>
                 && f.refs[k].at == |pr.postings| + k
                 && f.booked[k].account == f.postings[k].account == p.account
                 && f.postings[k].amount == Some(f.booked[k].units)
                 && f.booked[k].source == None
  {
    var f := FilingOf(pr, p, lot, steps);
    forall k | 0 <= k < |f.refs|
      ensures && f.refs[k].at == |pr.postings| + k
              && f.booked[k].account == f.postings[k].account == p.account
              && f.postings[k].amount == Some(f.booked[k].units)
              && f.booked[k].source == None
    {
      if |f.refs| > 1 {
        ChildrenAt(p, steps, |pr.postings|, k);
      }
    }
  }

  // ------------------------------------------------------------------ pass 1 keeps and conserves

  ghost predicate LogsMatch(care: Care, booked: seq<BookedPosting>, log: seq<Change>) {
    |booked| == |log| && forall j :: 0 <= j < |log| ==> LogMatches(care, booked[j], log[j])
  }

  lemma {:induction false} AugmentationLog(care: Care, pr: Resolution, ps: seq<Position>, p: Posting, rule: BookingMethod, txnDate: nat)
    requires p.amount.Some? && (care == Neat ==> p.amount.value.number != 0.0) && OutcomeOf(ps, p, rule, txnDate).Augmented?
    requires var lot := OutcomeOf(ps, p, rule, txnDate).lot; care != Any && lot.Some? ==> IsRealLot(lot.value)
    ensures LogsMatch(care, FilingOf(pr, p, OutcomeOf(ps, p, rule, txnDate).lot, []).booked, BookChanges(ps, p, rule, txnDate))
  {
  }

  lemma {:induction false} ReductionLog(care: Care, pr: Resolution, ps: seq<Position>, p: Posting, rule: BookingMethod, txnDate: nat)
    requires Fine(care, ps) && p.amount.Some? && OutcomeOf(ps, p, rule, txnDate).Consumed?
    requires Filed(pr, p, None, OutcomeOf(ps, p, rule, txnDate).steps).Ok?
    ensures LogsMatch(care, FilingOf(pr, p, None, OutcomeOf(ps, p, rule, txnDate).steps).booked, BookChanges(ps, p, rule, txnDate))
  {
    var steps, changes := OutcomeOf(ps, p, rule, txnDate).steps, BookChanges(ps, p, rule, txnDate);
    var booked := FilingOf(pr, p, None, steps).booked;
    ConsumedStepsMatchChanges(care, ps, p, rule, txnDate);
    forall k | 0 <= k < |changes| && k < |booked|
      ensures LogMatches(care, booked[k], changes[k])
    {
      assert StepMatches(care, p.amount.value.currency, steps[k], changes[k]);
      if |steps| > 1 {
        ChildrenAt(p, steps, |pr.postings|, k);
      }
    }
  }

  /** The run once a success is filed: what was booked and logged is appended. */
  lemma {:induction false} AppendKeeps(care: Care, run: Run, done: Run, f: Filing, changes: seq<Change>)
    requires Kept(care, run) && AllFine(care, done.state)
    requires done.pr == run.pr && done.log == run.log + changes
    requires |f.postings| == |f.booked| == |f.refs| && LogsMatch(care, f.booked, changes)
    requires forall k :: 0 <= k < |f.refs| ==>
               f.refs[k].at == |run.pr.postings| + k && f.booked[k].account == f.postings[k].account
               && f.postings[k].amount == Some(f.booked[k].units)
    ensures Kept(care, done.(pr := Append(run.pr, f)))
  {
    var pr, n := Append(run.pr, f), |run.pr.booked|;
    forall j | 0 <= j < |done.log|
      ensures LogMatches(care, pr.booked[j], done.log[j])
      ensures SourceMatches(pr.postings, pr.bookedDesc[j], pr.booked[j])
    {
      if j < n {
        assert LogMatches(care, run.pr.booked[j], run.log[j]);
        assert SourceMatches(run.pr.postings, run.pr.bookedDesc[j], run.pr.booked[j]);
      } else {
        assert pr.bookedDesc[j] == f.refs[j - n] && pr.booked[j] == f.booked[j - n];
        assert pr.postings[|run.pr.postings| + (j - n)] == f.postings[j - n];
      }
    }
  }

  lemma {:induction false} EditKeepsFine(care: Care, run: Run, account: string)
    requires AllFine(care, run.state)
    ensures AllFine(care, run.Edit(account).state)
  {
  }

  lemma {:induction false} BookingKeepsAllFine(care: Care, run: Run, p: Posting, methods: Methods, txnDate: nat)
    requires AllFine(care, run.state) && p.amount.Some? && (care == Neat ==> p.amount.value.number != 0.0)
    requires var r := Booking(run, p, methods, txnDate).1;
             care != Any && r.Augmented? && r.lot.Some? ==> IsRealLot(r.lot.value)
    ensures AllFine(care, Booking(run, p, methods, txnDate).0.state)
    ensures Fine(care, Holdings(run.Edit(p.account).state, p.account))
  {
    EditKeepsFine(care, run, p.account);
    var ps := Holdings(run.Edit(p.account).state, p.account);
    BookingKeepsFine(care, ps, p, MethodOf(methods, p.account), txnDate);
  }

  /** What filing a success means for the run. */
  lemma {:induction false} SuccessKeepsAndConserves(care: Care, run: Run, p: Posting, methods: Methods, txnDate: nat, lot: Option<Lot>, steps: seq<Step>)
    requires Kept(care, run) && Proper(care, p) && p.amount.Some?
    requires var r := Booking(run, p, methods, txnDate).1;
             (r == Augmented(lot) && steps == []) || (r == Consumed(steps) && lot.None?)
    requires Filed(run.pr, p, lot, steps).Ok?
    ensures var done, f := Booking(run, p, methods, txnDate).0, FilingOf(run.pr, p, lot, steps);
            && Filed(run.pr, p, lot, steps).value == Append(run.pr, f)
            && Kept(care, done.(pr := Append(run.pr, f)))
            && |done.log| == |run.log| + |f.booked|
            && forall b :: b in f.booked ==> b.account == p.account
  {
    var e := run.Edit(p.account);
    var ps, rule := Holdings(e.state, p.account), MethodOf(methods, p.account);
    var done, f := Booking(run, p, methods, txnDate).0, FilingOf(run.pr, p, lot, steps);
    if care != Any {
      AugmentedLotFollowsHint(ps, p, rule, txnDate);
    }
    BookingKeepsAllFine(care, run, p, methods, txnDate);
    FiledAppends(run.pr, p, lot, steps);
    FilingIsCoherent(run.pr, p, lot, steps);
    if OutcomeOf(ps, p, rule, txnDate).Augmented? {
      AugmentationLog(care, run.pr, ps, p, rule, txnDate);
    } else {
      ReductionLog(care, run.pr, ps, p, rule, txnDate);
    }
    AppendKeeps(care, run, done, f, BookChanges(ps, p, rule, txnDate));
  }

  /** A step keeps the invariants and conserves every key of every account. */
  ghost predicate Conserves(care: Care, run: Run, next: Run) {
    && Kept(care, next)
    && |run.pr.booked| == |run.log|
    && forall a, c, cost :: Base(next, a, c, cost) == Base(run, a, c, cost)
  }

  lemma {:induction false} BookNextConserves(care: Care, run: Run, p: Posting, methods: Methods, txnDate: nat)
    requires Kept(care, run) && Proper(care, p) && BookNext(run, p, methods, txnDate).Ok?
    ensures Conserves(care, run, BookNext(run, p, methods, txnDate).value)
  {
    var next := BookNext(run, p, methods, txnDate).value;
    if p.amount.None? {
      UnknownKeeps(care, run, p);
    } else {
      var (done, r) := Booking(run, p, methods, txnDate);
      match r {
        case Finding(code) => FindingConserves(care, run, p, methods, txnDate, code);
        case Augmented(lot) =>
          SuccessKeepsAndConserves(care, run, p, methods, txnDate, lot, []);
          SuccessBase(run, p, methods, txnDate, lot, []);
        case Consumed(steps) =>
          SuccessKeepsAndConserves(care, run, p, methods, txnDate, None, steps);
          SuccessBase(run, p, methods, txnDate, None, steps);
        case Failed =>
      }
    }
  }

  lemma {:induction false} SuccessBase(run: Run, p: Posting, methods: Methods, txnDate: nat, lot: Option<Lot>, steps: seq<Step>)
    requires |run.pr.booked| == |run.log| && p.amount.Some?
    requires var done, f := Booking(run, p, methods, txnDate).0, FilingOf(run.pr, p, lot, steps);
             |done.log| == |run.log| + |f.booked| && forall b :: b in f.booked ==> b.account == p.account
    ensures var done, f := Booking(run, p, methods, txnDate).0, FilingOf(run.pr, p, lot, steps);
            forall a, c, cost :: Base(done.(pr := Append(run.pr, f)), a, c, cost) == Base(run, a, c, cost)
  {
    var done, f := Booking(run, p, methods, txnDate).0, FilingOf(run.pr, p, lot, steps);
    forall a, c, cost
      ensures Base(done.(pr := Append(run.pr, f)), a, c, cost) == Base(run, a, c, cost)
    {
      BookingConserves(run, p, methods, txnDate, f.booked, a, c, cost);
    }
  }

  lemma {:induction false} UnknownKeeps(care: Care, run: Run, p: Posting)
    requires Kept(care, run)
    ensures Conserves(care, run, run.(pr := run.pr.AddUnknown(p)))
  {
    var pr := run.pr.AddUnknown(p);
    forall j | 0 <= j < |run.log|
      ensures SourceMatches(pr.postings, pr.bookedDesc[j], pr.booked[j])
    {
      assert SourceMatches(run.pr.postings, run.pr.bookedDesc[j], run.pr.booked[j]);
    }
  }

  /** Until it is filed, a finding has only touched the account. */
  lemma {:induction false} FindingTouchesOnly(care: Care, run: Run, p: Posting, methods: Methods, txnDate: nat, code: Code)
    requires Kept(care, run) && Booking(run, p, methods, txnDate).1 == Finding(code)
    ensures Conserves(care, run, Booking(run, p, methods, txnDate).0)
    ensures Booking(run, p, methods, txnDate).0.Rollback(p.account).state == Booking(run, p, methods, txnDate).0.state
  {
    var e, done := run.Edit(p.account), Booking(run, p, methods, txnDate).0;
    EditKeepsFine(care, run, p.account);
    assert done.state == e.state[p.account := Holdings(e.state, p.account)] && done.log == run.log;
    forall a, c, cost ensures Base(done, a, c, cost) == Base(run, a, c, cost) {
      assert Holdings(done.state, a) == Holdings(run.state, a);
    }
  }

  lemma {:induction false} FindingConserves(care: Care, run: Run, p: Posting, methods: Methods, txnDate: nat, code: Code)
    requires Kept(care, run) && p.amount.Some? && Booking(run, p, methods, txnDate).1 == Finding(code)
    ensures Conserves(care, run, File(Booking(run, p, methods, txnDate).0, p, Finding(code)).value)
  {
    FindingTouchesOnly(care, run, p, methods, txnDate, code);
    FiledFindingConserves(care, run, Booking(run, p, methods, txnDate).0, p, code);
  }

  lemma {:induction false} FiledFindingConserves(care: Care, run: Run, done: Run, p: Posting, code: Code)
    requires Conserves(care, run, done) && p.amount.Some? && done.Rollback(p.account).state == done.state
    ensures Conserves(care, run, File(done, p, Finding(code)).value)
  {
    UnknownKeeps(care, done, p);
  }

  lemma {:induction false} Pass1Conserves(care: Care, run: Run, postings: seq<Posting>, methods: Methods, txnDate: nat)
    requires Kept(care, run) && AllProper(care, postings) && Pass1(run, postings, methods, txnDate).Ok?
    ensures Conserves(care, run, Pass1(run, postings, methods, txnDate).value)
    decreases |postings|
  {
    if postings != [] {
      var next := BookNext(run, postings[0], methods, txnDate).value;
      BookNextConserves(care, run, postings[0], methods, txnDate);
      Pass1Conserves(care, next, postings[1..], methods, txnDate);
    }
  }
}
