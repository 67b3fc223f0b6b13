/**
 Dropping failed currency groups. The state a visit leaves is the state before
 it, plus the effects of the surviving records, plus twice what dropped
 reductions took from short lots; so the rollback is exact exactly when no
 dropped reduction took from a short lot.
 */
module Rollbacks {
  import opened Prelude
  import opened Amounts
  import opened Inventories
  import opened InventoryLaws
  import opened Costs
  import opened Bookings
  import opened BookingLaws
  import opened Resolutions
  import opened Reductions
  import opened Conservation
  import opened Interpolation

  predicate Dropped(pr: Resolution, j: nat)
    requires WellFormed(pr) && j < |pr.booked|
  {
    pr.bookedDesc[j].currency in pr.dropped
  }

  predicate Hits(pr: Resolution, log: seq<Change>, j: nat, account: string, c: string, cost: Option<Lot>)
    requires |log| == |pr.booked| && j < |log|
  {
    pr.booked[j].account == account && log[j].commodity == c && log[j].cost == cost
  }

  /** The effect on one key of the records, from `j` on, whose group survives. */
  function SurvivingEffect(pr: Resolution, log: seq<Change>, j: nat, account: string, c: string, cost: Option<Lot>): real
    requires WellFormed(pr) && |log| == |pr.booked| && j <= |log|
    decreases |log| - j
  {
    if j == |log| then 0.0
    else (if !Dropped(pr, j) && Hits(pr, log, j, account, c, cost) then log[j].delta else 0.0)
         + SurvivingEffect(pr, log, j + 1, account, c, cost)
  }

  /** A dropped record whose reduction took from a short lot. */
  predicate DroppedShort(pr: Resolution, log: seq<Change>, j: nat)
    requires WellFormed(pr) && |log| == |pr.booked| && j < |log|
  {
    Dropped(pr, j) && pr.booked[j].reduction.Some? && log[j].delta > 0.0
  }

  /** What rolling back short reductions with a positive magnitude leaves behind. */
  function Residue(pr: Resolution, log: seq<Change>, j: nat, account: string, c: string, cost: Option<Lot>): real
    requires WellFormed(pr) && |log| == |pr.booked| && j <= |log|
    decreases |log| - j
  {
    if j == |log| then 0.0
    else (if DroppedShort(pr, log, j) && Hits(pr, log, j, account, c, cost) then 2.0 * pr.booked[j].reduction.value.units else 0.0)
         + Residue(pr, log, j + 1, account, c, cost)
  }

  function EffectFrom(pr: Resolution, log: seq<Change>, j: nat, account: string, c: string, cost: Option<Lot>): real
    requires |log| == |pr.booked| && j <= |log|
  {
    EffectOf(pr.booked[j..], log[j..], account, c, cost)
  }

  ghost predicate Logged(care: Care, pr: Resolution, log: seq<Change>) {
    WellFormed(pr) && |log| == |pr.booked| && forall j :: 0 <= j < |log| ==> LogMatches(care, pr.booked[j], log[j])
  }

  lemma {:induction false} UndoChangesOneKey(run: Run, b: BookedPosting, change: Change, account: string, c: string, cost: Option<Lot>)
    requires LogMatches(Priced, b, change)
    ensures UnitsAt(Holdings(Undo(run, b).state, account), c, cost)
            == UnitsAt(Holdings(run.state, account), c, cost)
               + if b.account == account && change.commodity == c && change.cost == cost then Inverse(b).units.number else 0.0
    ensures Undo(run, b).pr == run.pr && Undo(run, b).log == run.log
  {
    var e := run.Rollback(b.account);
    AddChangesOneKey(Holdings(e.state, b.account), Inverse(b), c, cost);
    assert Holdings(e.state, account) == Holdings(run.state, account);
  }

  lemma {:induction false} EffectFromHead(pr: Resolution, log: seq<Change>, j: nat, account: string, c: string, cost: Option<Lot>)
    requires Logged(Priced, pr, log) && j < |log|
    ensures EffectFrom(pr, log, j, account, c, cost)
            == (if Hits(pr, log, j, account, c, cost) then log[j].delta else 0.0) + EffectFrom(pr, log, j + 1, account, c, cost)
  {
    assert pr.booked[j..][1..] == pr.booked[j + 1..] && log[j..][1..] == log[j + 1..];
  }

  lemma {:induction false} RollingBack(run: Run, j: nat, account: string, c: string, cost: Option<Lot>)
    requires Logged(Priced, run.pr, run.log) && j <= |run.log|
    ensures UnitsAt(Holdings(RolledBack(run, j).state, account), c, cost)
            == UnitsAt(Holdings(run.state, account), c, cost)
               - EffectFrom(run.pr, run.log, j, account, c, cost)
               + SurvivingEffect(run.pr, run.log, j, account, c, cost)
               + Residue(run.pr, run.log, j, account, c, cost)
    decreases |run.log| - j
  {
    if j < |run.log| {
      var b, change := run.pr.booked[j], run.log[j];
      assert LogMatches(Priced, b, change);
      EffectFromHead(run.pr, run.log, j, account, c, cost);
      if Dropped(run.pr, j) {
        UndoChangesOneKey(run, b, change, account, c, cost);
        RollingBack(Undo(run, b), j + 1, account, c, cost);
        assert RolledBack(run, j) == RolledBack(Undo(run, b), j + 1);
      } else {
        RollingBack(run, j + 1, account, c, cost);
        assert RolledBack(run, j) == RolledBack(run, j + 1);
      }
    }
  }

  lemma {:induction false} ResidueVanishes(pr: Resolution, log: seq<Change>, j: nat, account: string, c: string, cost: Option<Lot>)
    requires Logged(Priced, pr, log) && j <= |log|
    requires forall k :: j <= k < |log| ==> !DroppedShort(pr, log, k)
    ensures Residue(pr, log, j, account, c, cost) == 0.0
    decreases |log| - j
  {
    if j < |log| {
      ResidueVanishes(pr, log, j + 1, account, c, cost);
    }
  }

  lemma {:induction false} ResidueAccumulates(pr: Resolution, log: seq<Change>, j: nat, k: nat, account: string, c: string, cost: Option<Lot>)
    requires Logged(Priced, pr, log) && j <= k < |log|
    ensures Residue(pr, log, j, account, c, cost) >= Residue(pr, log, k, account, c, cost) >= 0.0
    ensures DroppedShort(pr, log, k) && Hits(pr, log, k, account, c, cost) ==> Residue(pr, log, j, account, c, cost) > 0.0
    decreases |log| - j
  {
    assert LogMatches(Priced, pr.booked[j], log[j]);
    if j < k {
      ResidueAccumulates(pr, log, j + 1, k, account, c, cost);
    } else if j + 1 < |log| {
      ResidueAccumulates(pr, log, j + 1, j + 1, account, c, cost);
    }
  }

  ghost predicate Exact(run: Run, before: State, after: State)
    requires WellFormed(run.pr) && |run.log| == |run.pr.booked|
  {
    forall a, c, cost ::
      UnitsAt(Holdings(after, a), c, cost)
      == UnitsAt(Holdings(before, a), c, cost) + SurvivingEffect(run.pr, run.log, 0, a, c, cost)
  }

  lemma {:induction false} VisitedUnits(state: State, diags: seq<Diag>, postings: seq<Posting>, methods: Methods, txnDate: nat, a: string, c: string, cost: Option<Lot>)
    requires AllFine(Priced, state) && AllProper(Priced, postings)
    requires StructureError(postings, false).None? && Passes(state, diags, postings, methods, txnDate).Ok?
    ensures var run := Passes(state, diags, postings, methods, txnDate).value;
            var v := VisitOf(state, diags, postings, methods, txnDate).value;
            && Logged(Priced, run.pr, run.log)
            && UnitsAt(Holdings(v.state, a), c, cost)
               == UnitsAt(Holdings(state, a), c, cost)
                  + SurvivingEffect(run.pr, run.log, 0, a, c, cost)
                  + Residue(run.pr, run.log, 0, a, c, cost)
  {
    PassesKeep(Priced, state, diags, postings, methods, txnDate);
    var run := Passes(state, diags, postings, methods, txnDate).value;
    RollingBack(run, 0, a, c, cost);
    assert run.pr.booked[0..] == run.pr.booked && run.log[0..] == run.log;
    if run.pr.dropped == {} {
      NothingDropped(run, 0);
    }
  }

  lemma {:induction false} NothingDropped(run: Run, j: nat)
    requires Logged(Priced, run.pr, run.log) && run.pr.dropped == {} && j <= |run.log|
    ensures RolledBack(run, j) == run
    decreases |run.log| - j
  {
    if j < |run.log| {
      NothingDropped(run, j + 1);
    }
  }

  /**
   The units a visit leaves under every key are those before it plus the effects
   of the surviving records, exactly when no dropped reduction took from a short
   lot. (A dropped short reduction of `n` units leaves `2n` units too many.)
   */
  lemma {:induction false} DroppingIsExact(state: State, diags: seq<Diag>, postings: seq<Posting>, methods: Methods, txnDate: nat)
    requires AllFine(Priced, state) && AllProper(Priced, postings)
    requires StructureError(postings, false).None? && Passes(state, diags, postings, methods, txnDate).Ok?
    ensures var run := Passes(state, diags, postings, methods, txnDate).value;
            var v := VisitOf(state, diags, postings, methods, txnDate).value;
            && Logged(Priced, run.pr, run.log)
            && (Exact(run, state, v.state) <==> forall j :: 0 <= j < |run.log| ==> !DroppedShort(run.pr, run.log, j))
  {
    PassesKeep(Priced, state, diags, postings, methods, txnDate);
    var run := Passes(state, diags, postings, methods, txnDate).value;
    var v := VisitOf(state, diags, postings, methods, txnDate).value;
    if forall j :: 0 <= j < |run.log| ==> !DroppedShort(run.pr, run.log, j) {
      forall a, c, cost
        ensures UnitsAt(Holdings(v.state, a), c, cost)
                == UnitsAt(Holdings(state, a), c, cost) + SurvivingEffect(run.pr, run.log, 0, a, c, cost)
      {
        VisitedUnits(state, diags, postings, methods, txnDate, a, c, cost);
        ResidueVanishes(run.pr, run.log, 0, a, c, cost);
      }
    } else {
      var j :| 0 <= j < |run.log| && DroppedShort(run.pr, run.log, j);
      var a, c, cost := run.pr.booked[j].account, run.log[j].commodity, run.log[j].cost;
      VisitedUnits(state, diags, postings, methods, txnDate, a, c, cost);
      ResidueAccumulates(run.pr, run.log, 0, j, a, c, cost);
    }
  }

  // ------------------------------------------------------------------ a dropped short reduction

  /** Five owed in cash, and ten shares bought at 4. */
  const OWED: State := map[
    "Card" := [Position(Amount(-5.0, "USD"), None)],
    "Stock" := [Position(Amount(10.0, "HOOL"), Some(Lot(4.0, "USD", 1, "")))]]

  /** Pays back three of what is owed. */
  const PAYMENT := Posting("Card", Some(Amount(3.0, "USD")), None, None, 0)

  /** Sells two shares of a lot nobody holds. */
  const NO_SUCH_LOT := Posting("Stock", Some(Amount(-2.0, "HOOL")), Some(Spec(Some(5.0), None, "USD", None, "")), None, 0)

  /** Paying back part of a cash debt takes from the debt. */
  lemma {:induction false} PaymentReduces()
    ensures var ps := OWED["Card"];
            && OutcomeOf(ps, PAYMENT, Default, 0) == Consumed([PlainStep(CASH_LOT, 3.0)])
            && BookChanges(ps, PAYMENT, Default, 0) == [Change("USD", None, 3.0)]
            && BookedPositions(ps, PAYMENT, Default, 0) == [Position(Amount(-2.0, "USD"), None)]
  {
    var p := Position(Amount(-5.0, "USD"), None);
    var ps := [p];
    assert OWED["Card"] == ps;
    OnlyCandidate(p, "USD", MatcherOf(PAYMENT, Amount(3.0, "USD")), false);
    OnlyConsumed(p, 3.0);
    var left := Shrunk(p, 3.0);
    assert [left][1..] == [];
    assert Compacted([left]) == [left] + Compacted([]);
  }

  lemma {:induction false} NoSuchLotIsFound()
    ensures OutcomeOf(OWED["Stock"], NO_SUCH_LOT, Default, 0) == Finding(NoMatchingLot)
    ensures BookChanges(OWED["Stock"], NO_SUCH_LOT, Default, 0) == []
  {
    var p := Position(Amount(10.0, "HOOL"), Some(Lot(4.0, "USD", 1, "")));
    assert OWED["Stock"] == [p];
    OnlyCandidate(p, "HOOL", MatcherOf(NO_SUCH_LOT, Amount(-2.0, "HOOL")), false);
  }

  const PAID := BookedPosting(None, "Card", Amount(3.0, "USD"), None, Some(Step(CASH_LOT, 3.0, None, None, "")), false)

  /** The first booking of a transaction, in an account that exists. */
  lemma {:induction false} FirstBooking(state: State, p: Posting, txnDate: nat)
    requires p.account in state
    ensures var (done, r) := Booking(Start(state, []), p, map[], txnDate);
            var ps := state[p.account];
            && r == OutcomeOf(ps, p, Default, txnDate)
            && done.pr == EMPTY && done.log == BookChanges(ps, p, Default, txnDate) && done.before.Keys == {p.account}
            && done.state == state[p.account := BookedPositions(ps, p, Default, txnDate)]
  {
    assert Start(state, []).Edit(p.account).state == state;
    assert [] + BookChanges(state[p.account], p, Default, txnDate) == BookChanges(state[p.account], p, Default, txnDate);
  }

  lemma {:induction false} PaymentFiled(done: Run)
    requires done.pr == EMPTY
    ensures File(done, PAYMENT, Consumed([PlainStep(CASH_LOT, 3.0)]))
            == Ok(done.(pr := Resolution([PAYMENT], [PAID], [Ref("USD", 0)], [], {})))
  {
    var step := PlainStep(CASH_LOT, 3.0);
    assert !IsRealLot(step.lot) && ReductionGroupKey(PAYMENT, step) == "USD";
    assert Record(PAYMENT, None, Some(step), false) == PAID;
    assert EMPTY.AddBooked(PAYMENT, PAID, "USD") == Resolution([PAYMENT], [PAID], [Ref("USD", 0)], [], {});
    assert Filed(EMPTY, PAYMENT, None, [step]) == Ok(EMPTY.AddBooked(PAYMENT, PAID, "USD"));
  }

  lemma {:induction false} PaymentBooked()
    ensures var next := BookNext(Start(OWED, []), PAYMENT, map[], 0);
            && next.Ok?
            && next.value.pr == Resolution([PAYMENT], [PAID], [Ref("USD", 0)], [], {})
            && next.value.log == [Change("USD", None, 3.0)]
            && next.value.before.Keys == {"Card"}
            && next.value.state == OWED["Card" := [Position(Amount(-2.0, "USD"), None)]]
  {
    var done := Booking(Start(OWED, []), PAYMENT, map[], 0).0;
    PaymentReduces();
    FirstBooking(OWED, PAYMENT, 0);
    PaymentFiled(done);
  }

  lemma {:induction false} SaleDropsTheGroup(run: Run)
    requires run.pr == Resolution([PAYMENT], [PAID], [Ref("USD", 0)], [], {}) && run.before.Keys == {"Card"}
    requires run.state == OWED["Card" := [Position(Amount(-2.0, "USD"), None)]]
    ensures var next := BookNext(run, NO_SUCH_LOT, map[], 0);
            && next.Ok?
            && next.value.pr == run.pr.(dropped := {"USD"}) && next.value.log == run.log && next.value.state == run.state
  {
    NoSuchLotIsFound();
    assert run.Edit("Stock").state == run.state;
    assert PostingWeight(NO_SUCH_LOT) == Ok(Some(Amount(-10.0, "USD")));
    assert run.log + [] == run.log;
  }

  /** Nothing unknown: pass 2 has nothing to do. */
  lemma {:induction false} NothingToInterpolate(run: Run, methods: Methods, txnDate: nat)
    requires RefsInRange(run.pr) && run.pr.unknownDesc == []
    ensures Pass2(run, methods, txnDate) == Ok(run)
  {
  }

  /** Two postings booked one after the other, and nothing to interpolate. */
  lemma {:induction false} FirstPassOfTwo(start: Run, p: Posting, q: Posting, methods: Methods, txnDate: nat, mid: Run, run: Run)
    requires BookNext(start, p, methods, txnDate) == Ok(mid) && BookNext(mid, q, methods, txnDate) == Ok(run)
    ensures Pass1(start, [p, q], methods, txnDate) == Ok(run)
  {
    assert [p, q][1..] == [q] && [q][1..] == [];
    assert Pass1(run, [], methods, txnDate) == Ok(run);
    assert Pass1(mid, [q], methods, txnDate) == Ok(run);
  }

  lemma {:induction false} PassesOfTwo(state: State, p: Posting, q: Posting, methods: Methods, txnDate: nat, mid: Run, run: Run)
    requires BookNext(Start(state, []), p, methods, txnDate) == Ok(mid)
    requires BookNext(mid, q, methods, txnDate) == Ok(run) && run.pr.unknownDesc == []
    ensures Passes(state, [], [p, q], methods, txnDate) == Ok(run)
  {
    var start := Start(state, []);
    FirstPassOfTwo(start, p, q, methods, txnDate, mid, run);
    Pass1KeepsWellFormed(start, [p, q], methods, txnDate);
    NothingToInterpolate(run, methods, txnDate);
  }

  lemma {:induction false} VisitOfBoth(state: State, p: Posting, q: Posting, methods: Methods, txnDate: nat, run: Run)
    requires p.amount.Some? && q.amount.Some? && WellFormed(run.pr)
    requires Passes(state, [], [p, q], methods, txnDate) == Ok(run)
    ensures VisitOf(state, [], [p, q], methods, txnDate) == Ok(Finalize(run))
  {
    assert [p, q][1..] == [q] && [q][1..] == [];
    assert StructureError([q], false) == StructureError([], false);
    assert StructureError([p, q], false) == None;
  }

  /**
   A transaction that leaves a wrong balance behind: it reports the missing lot and
   books nothing, yet the five that were owed have become one held.
   */
  lemma {:induction false} DebtTurnsIntoCredit() returns (run: Run, v: Visit)
    ensures Passes(OWED, [], [PAYMENT, NO_SUCH_LOT], map[], 0) == Ok(run)
    ensures VisitOf(OWED, [], [PAYMENT, NO_SUCH_LOT], map[], 0) == Ok(v)
    ensures WellFormed(run.pr) && |run.log| == |run.pr.booked| == 1 && DroppedShort(run.pr, run.log, 0)
    ensures v.booked == [] && "Card" in v.state && v.state["Card"] == [Position(Amount(1.0, "USD"), None)]
  {
    run := OwedRun();
    v := Finalize(run);
    DebtGivenBackTwice(run);
    VisitOfBoth(OWED, PAYMENT, NO_SUCH_LOT, map[], 0, run);
  }

  lemma {:induction false} OwedRun() returns (run: Run)
    ensures Passes(OWED, [], [PAYMENT, NO_SUCH_LOT], map[], 0) == Ok(run)
    ensures run.pr == Resolution([PAYMENT], [PAID], [Ref("USD", 0)], [], {"USD"}) && run.log == [Change("USD", None, 3.0)]
    ensures run.state == OWED["Card" := [Position(Amount(-2.0, "USD"), None)]]
  {
    PaymentBooked();
    var paid := BookNext(Start(OWED, []), PAYMENT, map[], 0).value;
    SaleDropsTheGroup(paid);
    run := BookNext(paid, NO_SUCH_LOT, map[], 0).value;
    PassesOfTwo(OWED, PAYMENT, NO_SUCH_LOT, map[], 0, paid, run);
  }

  lemma {:induction false} DebtGivenBackTwice(run: Run)
    requires run.pr == Resolution([PAYMENT], [PAID], [Ref("USD", 0)], [], {"USD"})
    requires run.state == OWED["Card" := [Position(Amount(-2.0, "USD"), None)]]
    ensures WellFormed(run.pr) && Finalize(run).booked == []
    ensures "Card" in Finalize(run).state && Finalize(run).state["Card"] == [Position(Amount(1.0, "USD"), None)]
  {
    assert Inverse(PAID) == Position(Amount(3.0, "USD"), None);
    assert Added(run.state["Card"], Inverse(PAID)) == [Position(Amount(1.0, "USD"), None)];
    assert RolledBack(run, 0) == RolledBack(Undo(run, PAID), 1) == Undo(run, PAID);
    assert Sourced(run.pr, 0) == Sourced(run.pr, 1) == [];
  }

  // ------------------------------------------------------------------ sources

  lemma {:induction false} SurvivorAt(pr: Resolution, i: nat, n: nat)
    requires i < n <= |pr.postings| && Survives(pr, i)
    ensures |Survivors(pr, i)| < |Survivors(pr, n)| && Survivors(pr, n)[|Survivors(pr, i)|] == pr.postings[i]
    decreases n
  {
    if i < n - 1 {
      SurvivorAt(pr, i, n - 1);
    }
  }

  ghost predicate SourceIsRight(postings: seq<Posting>, b: BookedPosting) {
    b.source.Some? && b.source.value < |postings|
    && postings[b.source.value].account == b.account && postings[b.source.value].amount == Some(b.units)
  }

  lemma {:induction false} SourcedAreRight(pr: Resolution, j: nat)
    requires WellFormed(pr) && j <= |pr.booked|
    requires forall k :: 0 <= k < |pr.booked| ==> SourceMatches(pr.postings, pr.bookedDesc[k], pr.booked[k])
    ensures forall b :: b in Sourced(pr, j) ==> SourceIsRight(Survivors(pr, |pr.postings|), b)
    decreases |pr.booked| - j
  {
    if j < |pr.booked| {
      SourcedAreRight(pr, j + 1);
      var at := pr.bookedDesc[j].at;
      assert SourceMatches(pr.postings, pr.bookedDesc[j], pr.booked[j]);
      if pr.bookedDesc[j].currency !in pr.dropped {
        assert Survives(pr, at);
        SurvivorAt(pr, at, |pr.postings|);
      }
    }
  }

  lemma {:induction false} BoundAreRight(pr: Resolution, j: nat)
    requires WellFormed(pr) && j <= |pr.booked|
    requires forall k :: 0 <= k < |pr.booked| ==> SourceMatches(pr.postings, pr.bookedDesc[k], pr.booked[k])
    ensures forall b :: b in Bound(pr, j) ==> SourceIsRight(pr.postings, b)
    decreases |pr.booked| - j
  {
    if j < |pr.booked| {
      BoundAreRight(pr, j + 1);
      assert SourceMatches(pr.postings, pr.bookedDesc[j], pr.booked[j]);
    }
  }

  /** Every booked record of a visit points at the rebuilt posting it was booked from. */
  lemma {:induction false} SourcesAreRight(state: State, diags: seq<Diag>, postings: seq<Posting>, methods: Methods, txnDate: nat)
    requires VisitOf(state, diags, postings, methods, txnDate).Ok?
    ensures var v := VisitOf(state, diags, postings, methods, txnDate).value;
            forall b :: b in v.booked ==> SourceIsRight(v.postings, b)
  {
    if StructureError(postings, false).None? {
      PassesConserve(state, diags, postings, methods, txnDate);
      var run := Passes(state, diags, postings, methods, txnDate).value;
      SourcedAreRight(run.pr, 0);
      BoundAreRight(run.pr, 0);
    }
  }

  // ------------------------------------------------------------------ the invariant over whole ledgers

  lemma {:induction false} UndoKeepsTidy(run: Run, b: BookedPosting, change: Change)
    requires AllFine(Neat, run.state) && LogMatches(Neat, b, change)
    ensures AllFine(Neat, Undo(run, b).state)
  {
    var e := run.Rollback(b.account);
    AddKeepsTidy(Holdings(e.state, b.account), Inverse(b));
    AddedSlots(Holdings(e.state, b.account), Inverse(b));
  }

  lemma {:induction false} RollbackKeepsTidy(run: Run, j: nat)
    requires AllFine(Neat, run.state) && Logged(Neat, run.pr, run.log) && j <= |run.log|
    ensures AllFine(Neat, RolledBack(run, j).state)
    decreases |run.log| - j
  {
    if j < |run.log| {
      var b := run.pr.booked[j];
      assert LogMatches(Neat, b, run.log[j]);
      if Dropped(run.pr, j) {
        UndoKeepsTidy(run, b, run.log[j]);
        RollbackKeepsTidy(Undo(run, b), j + 1);
      } else {
        RollbackKeepsTidy(run, j + 1);
      }
    }
  }

  /** A visit leaves every inventory tidy, whether it books, interpolates, drops or refuses. */
  lemma {:induction false} VisitKeepsTidy(state: State, diags: seq<Diag>, postings: seq<Posting>, methods: Methods, txnDate: nat)
    requires AllFine(Neat, state) && AllProper(Neat, postings) && VisitOf(state, diags, postings, methods, txnDate).Ok?
    ensures AllFine(Neat, VisitOf(state, diags, postings, methods, txnDate).value.state)
  {
    if StructureError(postings, false).None? {
      PassesKeep(Neat, state, diags, postings, methods, txnDate);
      RollbackKeepsTidy(Passes(state, diags, postings, methods, txnDate).value, 0);
    }
  }

  ghost predicate OrdinaryLedger(ds: seq<Directive>) {
    forall d :: d in ds && d.Transaction? ==> AllProper(Neat, d.postings)
  }

  /** Over any ledger of ordinary transactions the position lists stay maps throughout. */
  lemma {:induction false} WalkKeepsTidy(w: Walk, ds: seq<Directive>, visitor: Visitor)
    requires AllFine(Neat, w.state) && OrdinaryLedger(ds) && Walked(w, ds, visitor).Ok?
    ensures AllFine(Neat, Walked(w, ds, visitor).value.state)
    decreases |ds|
  {
    if ds != [] && !w.stopped {
      if ds[0].Transaction? {
        assert ds[0] in ds;
        VisitKeepsTidy(w.state, w.diags, ds[0].postings, w.booking, ds[0].date);
      }
      WalkKeepsTidy(Step1(w, ds[0], visitor).value, ds[1..], visitor);
    }
  }

  // ------------------------------------------------------------------ the visitor's diff

  /** Untouched accounts are as they were; touched ones have their snapshot taken. */
  ghost predicate Traced(run: Run, initial: State) {
    forall a ::
      if a in run.before then
        a in run.state && run.before[a] == (if a in initial then Some(initial[a]) else None)
      else
        (a in run.state <==> a in initial) && Holdings(run.state, a) == Holdings(initial, a)
  }

  lemma {:induction false} EditTraced(run: Run, initial: State, account: string, ps: seq<Position>)
    requires Traced(run, initial)
    ensures Traced(run.Edit(account), initial) && Traced(run.Edit(account).Put(account, ps), initial)
    ensures account in run.Edit(account).before
  {
  }

  lemma {:induction false} BookNextTraced(run: Run, initial: State, p: Posting, methods: Methods, txnDate: nat)
    requires Traced(run, initial) && BookNext(run, p, methods, txnDate).Ok?
    ensures Traced(BookNext(run, p, methods, txnDate).value, initial)
  {
    if p.amount.Some? {
      EditTraced(run, initial, p.account, Holdings(Booking(run, p, methods, txnDate).0.state, p.account));
      FileTraced(Booking(run, p, methods, txnDate).0, initial, p, Booking(run, p, methods, txnDate).1);
    }
  }

  lemma {:induction false} FileTraced(done: Run, initial: State, p: Posting, r: Outcome)
    requires Traced(done, initial) && p.amount.Some? && File(done, p, r).Ok?
    ensures Traced(File(done, p, r).value, initial)
  {
    if r.Finding? {
      EditTraced(done.(rolledBack := done.rolledBack + {p.account}), initial, p.account, []);
    }
  }

  lemma {:induction false} Pass1Traced(run: Run, initial: State, postings: seq<Posting>, methods: Methods, txnDate: nat)
    requires Traced(run, initial) && Pass1(run, postings, methods, txnDate).Ok?
    ensures Traced(Pass1(run, postings, methods, txnDate).value, initial)
    decreases |postings|
  {
    if postings != [] {
      BookNextTraced(run, initial, postings[0], methods, txnDate);
      Pass1Traced(BookNext(run, postings[0], methods, txnDate).value, initial, postings[1..], methods, txnDate);
    }
  }

  lemma {:induction false} BookUnknownTraced(run: Run, initial: State, at: nat, candidate: Posting, currency: string, methods: Methods, txnDate: nat)
    requires Traced(run, initial) && at < |run.pr.postings| && candidate.amount.Some?
    requires BookUnknown(run, at, candidate, currency, methods, txnDate).Ok?
    ensures Traced(BookUnknown(run, at, candidate, currency, methods, txnDate).value.0, initial)
  {
    var (done, r) := Booking(run, candidate, methods, txnDate);
    EditTraced(run, initial, candidate.account, Holdings(done.state, candidate.account));
    assert Traced(done, initial);
    FileUnknownTraced(done, initial, at, candidate, currency, r);
  }

  lemma {:induction false} FileUnknownTraced(done: Run, initial: State, at: nat, candidate: Posting, currency: string, r: Outcome)
    requires Traced(done, initial) && at < |done.pr.postings| && candidate.amount.Some?
    requires FileUnknown(done, at, candidate, currency, r).Ok?
    ensures Traced(FileUnknown(done, at, candidate, currency, r).value.0, initial)
  {
    if r.Finding? {
      var orig := done.pr.postings[at];
      EditTraced(done.(rolledBack := done.rolledBack + {orig.account}), initial, orig.account, []);
    }
  }

  lemma {:induction false} ResolveGroupTraced(acc: Resolved, initial: State, g: Group, methods: Methods, txnDate: nat)
    requires Traced(acc.run, initial) && UnknownInRange(|acc.run.pr.postings|, g.unknown)
    requires ResolveGroup(acc, g, methods, txnDate).Ok?
    ensures Traced(ResolveGroup(acc, g, methods, txnDate).value.run, initial)
  {
    if |g.unknown| == 1 {
      var at := g.unknown[0];
      var p := acc.run.pr.postings[at];
      if p.amount.value.number != 0.0 {
        var candidate := p.(cost := Some(SynthesizeCost(p.cost, Amount(g.residual, g.currency), txnDate)));
        BookUnknownTraced(acc.run, initial, at, candidate, g.currency, methods, txnDate);
      }
    }
  }

  lemma {:induction false} ResolveGroupsTraced(acc: Resolved, initial: State, groups: seq<Group>, methods: Methods, txnDate: nat)
    requires Traced(acc.run, initial) && GroupsInRange(|acc.run.pr.postings|, groups)
    requires ResolveGroups(acc, groups, methods, txnDate).Ok?
    ensures Traced(ResolveGroups(acc, groups, methods, txnDate).value.run, initial)
    decreases |groups|
  {
    if groups != [] {
      ResolveGroupTraced(acc, initial, groups[0], methods, txnDate);
      ResolveGroupsTraced(ResolveGroup(acc, groups[0], methods, txnDate).value, initial, groups[1..], methods, txnDate);
    }
  }

  lemma {:induction false} ApplyFailuresTraced(run: Run, initial: State, failures: seq<Failure>)
    requires Traced(run, initial)
    ensures Traced(ApplyFailures(run, failures), initial)
    decreases |failures|
  {
    if failures != [] {
      var f := failures[0];
      ApplyFailuresTraced(run.Report(f.diag).(pr := run.pr.RecordUnknownFailed(f.at, f.currency)), initial, failures[1..]);
    }
  }

  lemma {:induction false} Pass2Traced(run: Run, initial: State, methods: Methods, txnDate: nat)
    requires Traced(run, initial) && RefsInRange(run.pr) && Pass2(run, methods, txnDate).Ok?
    ensures Traced(Pass2(run, methods, txnDate).value, initial)
  {
    var (groups, free) := Residuals(run.pr).value;
    ResidualsInRange(run.pr);
    ResolveGroupsTraced(Resolved(run, [], []), initial, groups, methods, txnDate);
    var resolved := ResolveGroups(Resolved(run, [], []), groups, methods, txnDate).value;
    ApplyFailuresTraced(resolved.run, initial, resolved.failures);
    var applied := ApplyFailures(resolved.run, resolved.failures);
    if |free| == 1 && |resolved.free| == 1 {
      var p := applied.pr.postings[free[0]];
      if p.amount.None? || p.amount.value.number != 0.0 {
        BookUnknownTraced(applied, initial, free[0], FreeCandidate(p, resolved.free[0], txnDate), resolved.free[0].currency, methods, txnDate);
      }
    }
  }

  lemma {:induction false} RolledBackTraced(run: Run, initial: State, j: nat)
    requires Traced(run, initial) && j <= |run.pr.booked| == |run.pr.bookedDesc|
    ensures Traced(RolledBack(run, j), initial)
    decreases |run.pr.booked| - j
  {
    if j < |run.pr.booked| {
      var b := run.pr.booked[j];
      EditTraced(run.(rolledBack := run.rolledBack + {b.account}), initial, b.account, Holdings(Undo(run, b).state, b.account));
      RolledBackTraced(if run.pr.bookedDesc[j].currency in run.pr.dropped then Undo(run, b) else run, initial, j + 1);
    }
  }

  lemma {:induction false} PassesTraced(state: State, diags: seq<Diag>, postings: seq<Posting>, methods: Methods, txnDate: nat)
    requires Passes(state, diags, postings, methods, txnDate).Ok?
    ensures Traced(Passes(state, diags, postings, methods, txnDate).value, state)
  {
    var start := Start(state, diags);
    Pass1Traced(start, state, postings, methods, txnDate);
    Pass1KeepsWellFormed(start, postings, methods, txnDate);
    Pass2Traced(Pass1(start, postings, methods, txnDate).value, state, methods, txnDate);
  }

  /** What a visit shows of account `a`, given what was held before. */
  ghost predicate Shows(v: Visit, state: State, a: string) {
    && v.before.Keys == v.after.Keys
    && if a in v.before then
         && a in v.state && v.after[a] == v.state[a]
         && v.before[a] == (if a in state then Some(state[a]) else None)
       else Holdings(v.state, a) == Holdings(state, a)
  }

  lemma {:induction false} FinalizeShows(run: Run, state: State, a: string)
    requires Traced(run, state) && WellFormed(run.pr)
    ensures Shows(Finalize(run), state, a)
  {
    RolledBackTraced(run, state, 0);
    var end := if run.pr.dropped == {} then run else RolledBack(run, 0);
    assert Finalize(run).before.Keys == set x | x in end.before && !Untouched(end, x);
  }

  /**
   The diff handed to the visitor is complete: an account outside it holds what it
   held, and an account inside it shows exactly what it held and what it holds.
   */
  lemma {:induction false} DiffIsComplete(state: State, diags: seq<Diag>, postings: seq<Posting>, methods: Methods, txnDate: nat, a: string)
    requires VisitOf(state, diags, postings, methods, txnDate).Ok?
    ensures Shows(VisitOf(state, diags, postings, methods, txnDate).value, state, a)
  {
    if StructureError(postings, false).None? {
      PassesTraced(state, diags, postings, methods, txnDate);
      FinalizeShows(Passes(state, diags, postings, methods, txnDate).value, state, a);
    }
  }
}
