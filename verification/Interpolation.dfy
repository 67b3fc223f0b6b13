/**
 Pass 2 and the rollback. Interpolating the unknown postings keeps the
 invariants and conserves units, and dropping failed groups leaves behind exactly
 the effects of the surviving records when every lot it gives back was long.
 */
module Interpolation {
  import opened Prelude
  import opened Amounts
  import opened Inventories
  import opened InventoryLaws
  import opened Costs
  import opened Bookings
  import opened BookingLaws
  import opened Resolutions
  import opened Reductions
  import opened Conservation

  // ------------------------------------------------------------------ which unknowns are still open

  ghost function BookedAts(pr: Resolution): set<nat> {
    set k | 0 <= k < |pr.bookedDesc| :: pr.bookedDesc[k].at
  }

  ghost predicate UnknownsApart(pr: Resolution) {
    && (forall i, j :: 0 <= i < j < |pr.unknownDesc| ==> pr.unknownDesc[i].at != pr.unknownDesc[j].at)
    && (forall i :: 0 <= i < |pr.unknownDesc| ==> pr.unknownDesc[i].at !in BookedAts(pr))
  }

  /** No unknown is claimed twice, and none of them is booked yet. */
  ghost predicate StillOpen(pr: Resolution, groups: seq<Group>, free: seq<nat>) {
    && (forall i, j, x :: 0 <= i < j < |groups| && x in groups[i].unknown ==> x !in groups[j].unknown)
    && (forall g, x {:trigger x in g.unknown} :: g in groups && x in g.unknown ==> x !in free && x !in BookedAts(pr))
    && (forall x :: x in free ==> x !in BookedAts(pr))
  }

  lemma {:induction false} AddBidUnknowns(bids: seq<Bid>, currency: string, at: nat)
    requires forall i, j :: 0 <= i < j < |bids| ==> bids[i].currency != bids[j].currency
    ensures var r := AddBid(bids, currency, at);
            && (forall i, j :: 0 <= i < j < |r| ==> r[i].currency != r[j].currency)
            && (forall b :: b in r ==> b.currency == currency || b in bids)
            && (forall b, x :: b in r && b.currency == currency && x in b.unknown ==>
                 x == at || exists o :: o in bids && o.currency == currency && x in o.unknown)
  {
    if bids != [] && bids[0].currency != currency {
      var rest := bids[1..];
      AddBidUnknowns(rest, currency, at);
      var r := AddBid(rest, currency, at);
      forall j | 0 <= j < |r| ensures r[j].currency != bids[0].currency {
        assert r[j] in r;
        if r[j].currency != currency {
          var k :| 0 <= k < |rest| && rest[k] == r[j];
          assert bids[k + 1] == r[j];
        }
      }
    }
  }

  /** Every unknown of a bid bid for that currency; no currency has two bids. */
  ghost predicate BidsComeFrom(bids: seq<Bid>, refs: seq<Ref>) {
    && (forall i, j :: 0 <= i < j < |bids| ==> bids[i].currency != bids[j].currency)
    && (forall b, x {:trigger x in b.unknown} :: b in bids && x in b.unknown ==> b.currency != "" && Ref(b.currency, x) in refs)
  }

  lemma {:induction false} AddBidTracesBack(bids: seq<Bid>, ref: Ref, all: seq<Ref>)
    requires BidsComeFrom(bids, all) && ref in all && ref.currency != ""
    ensures BidsComeFrom(AddBid(bids, ref.currency, ref.at), all)
  {
    AddBidUnknowns(bids, ref.currency, ref.at);
    var r := AddBid(bids, ref.currency, ref.at);
    forall b, x {:trigger x in b.unknown} | b in r && x in b.unknown
      ensures b.currency != "" && Ref(b.currency, x) in all
    {
      if b.currency == ref.currency {
        if x == ref.at {
          assert Ref(b.currency, x) == ref;
        } else {
          var o :| o in bids && o.currency == ref.currency && x in o.unknown;
        }
      }
    }
  }

  lemma {:induction false} BidsTraceBack(refs: seq<Ref>, dropped: set<string>, bids: seq<Bid>, all: seq<Ref>)
    requires BidsComeFrom(bids, all) && forall r :: r in refs ==> r in all
    ensures BidsComeFrom(Bids(refs, dropped, bids), all)
    decreases |refs|
  {
    if refs != [] {
      var ref := refs[0];
      assert ref in all;
      if ref.currency == "" || ref.currency in dropped {
        BidsTraceBack(refs[1..], dropped, bids, all);
      } else {
        AddBidTracesBack(bids, ref, all);
        BidsTraceBack(refs[1..], dropped, AddBid(bids, ref.currency, ref.at), all);
      }
    }
  }

  lemma {:induction false} BidGroupsAreBids(bids: seq<Bid>, sums: Sums)
    ensures var gs := BidGroups(bids, sums);
            && |gs| == |bids|
            && forall k :: 0 <= k < |bids| ==>
                 gs[k].currency == bids[k].currency && gs[k].unknown == bids[k].unknown
                 && gs[k].residual == -SumFor(sums, bids[k].currency)
  {
    if bids != [] {
      BidGroupsAreBids(bids[1..], sums);
      var gs, rest := BidGroups(bids, sums), BidGroups(bids[1..], sums);
      assert forall k :: 0 < k < |gs| ==> gs[k] == rest[k - 1] && bids[k] == bids[1..][k - 1];
    }
  }

  lemma {:induction false} FreeAreUnpinned(refs: seq<Ref>)
    ensures forall x :: x in FreeUnknowns(refs) <==> Ref("", x) in refs
  {
    if refs != [] {
      FreeAreUnpinned(refs[1..]);
    }
  }

  lemma {:induction false} RefsAreUnique(pr: Resolution, a: Ref, b: Ref)
    requires UnknownsApart(pr) && a in pr.unknownDesc && b in pr.unknownDesc && a.at == b.at
    ensures a == b
  {
    var i :| 0 <= i < |pr.unknownDesc| && pr.unknownDesc[i] == a;
    var j :| 0 <= j < |pr.unknownDesc| && pr.unknownDesc[j] == b;
  }

  /** The residual groups and the free bucket split the unknowns without overlap. */
  lemma {:induction false} ResidualsAreOpen(pr: Resolution)
    requires RefsInRange(pr) && UnknownsApart(pr) && Residuals(pr).Ok?
    ensures StillOpen(pr, Residuals(pr).value.0, Residuals(pr).value.1)
    ensures forall g :: g in Residuals(pr).value.0 && g.unknown != [] ==> g.currency != ""
  {
    if pr.unknownDesc != [] {
      var (groups, free) := Residuals(pr).value;
      var sums := WeightSums(pr.postings, pr.bookedDesc, []).value;
      var bids := Bids(pr.unknownDesc, pr.dropped, []);
      BidsTraceBack(pr.unknownDesc, pr.dropped, [], pr.unknownDesc);
      BidGroupsAreBids(bids, sums);
      OpenGroupsAreUnclaimed(sums, bids);
      FreeAreUnpinned(pr.unknownDesc);
      var gs, os := BidGroups(bids, sums), OpenGroups(sums, bids);
      forall i, x | 0 <= i < |groups| && x in groups[i].unknown
        ensures i < |gs| && groups[i].currency == bids[i].currency != "" && Ref(bids[i].currency, x) in pr.unknownDesc
        ensures x !in free && x !in BookedAts(pr)
      {
        assert forall k :: 0 <= k < |os| ==> os[k] in os;
        assert bids[i] in bids;
        var ref := Ref(bids[i].currency, x);
        if x in free {
          RefsAreUnique(pr, ref, Ref("", x));
        }
        var k :| 0 <= k < |pr.unknownDesc| && pr.unknownDesc[k] == ref;
      }
      forall i, j, x | 0 <= i < j < |groups| && x in groups[i].unknown
        ensures x !in groups[j].unknown
      {
        if x in groups[j].unknown {
          RefsAreUnique(pr, Ref(bids[i].currency, x), Ref(bids[j].currency, x));
        }
      }
      forall g | g in groups && g.unknown != [] ensures g.currency != "" {
        var i :| 0 <= i < |groups| && groups[i] == g;
        assert g.unknown[0] in groups[i].unknown;
      }
      forall x | x in free ensures x !in BookedAts(pr) {
        var k :| 0 <= k < |pr.unknownDesc| && pr.unknownDesc[k] == Ref("", x);
      }
    }
  }

  // ------------------------------------------------------------------ booking an unknown

  /** `candidate` is unknown `at` with what it lacked filled in. */
  ghost predicate Fills(care: Care, run: Run, at: nat, candidate: Posting, methods: Methods, txnDate: nat) {
    && at < |run.pr.postings|
    && at !in BookedAts(run.pr)
    && candidate.account == run.pr.postings[at].account
    && candidate.amount.Some? && candidate.amount.value.number != 0.0
    && (run.pr.postings[at].amount.Some? ==> candidate.amount == run.pr.postings[at].amount)
    && (var r := Booking(run, candidate, methods, txnDate).1; care != Any && r.Augmented? && r.lot.Some? ==> IsRealLot(r.lot.value))
  }

  /** Only `at` is newly booked, and only posting `at` changed. */
  ghost predicate BooksOnly(run: Run, next: Run, at: nat) {
    && |next.pr.postings| == |run.pr.postings|
    && BookedAts(next.pr) <= BookedAts(run.pr) + {at}
    && (forall i :: 0 <= i < |run.pr.postings| && i != at ==> next.pr.postings[i] == run.pr.postings[i])
  }

  lemma {:induction false} PromotionKeeps(care: Care, run: Run, done: Run, at: nat, q: Posting, b: BookedPosting, currency: string, change: Change)
    requires Kept(care, run) && AllFine(care, done.state) && at < |run.pr.postings| && at !in BookedAts(run.pr)
    requires done.pr == run.pr && done.log == run.log + [change]
    requires LogMatches(care, b, change) && q.account == b.account && q.amount == Some(b.units)
    ensures Kept(care, done.(pr := run.pr.Promote(at, q, b, currency)))
    ensures BooksOnly(run, done.(pr := run.pr.Promote(at, q, b, currency)), at)
  {
    var pr := run.pr.Promote(at, q, b, currency);
    assert pr.bookedDesc == run.pr.bookedDesc + [Ref(currency, at)];
    forall j | 0 <= j < |done.log|
      ensures LogMatches(care, pr.booked[j], done.log[j])
      ensures SourceMatches(pr.postings, pr.bookedDesc[j], pr.booked[j])
    {
      if j < |run.log| {
        assert LogMatches(care, run.pr.booked[j], run.log[j]);
        assert SourceMatches(run.pr.postings, run.pr.bookedDesc[j], run.pr.booked[j]);
        assert run.pr.bookedDesc[j].at in BookedAts(run.pr);
      }
    }
  }

  lemma {:induction false} PromotionConserves(care: Care, run: Run, candidate: Posting, methods: Methods, txnDate: nat,
                           at: nat, q: Posting, b: BookedPosting, currency: string)
    requires Kept(care, run) && at < |run.pr.postings| && b.account == candidate.account
    requires |Booking(run, candidate, methods, txnDate).0.log| == |run.log| + 1
    ensures var done := Booking(run, candidate, methods, txnDate).0;
            forall a, c, cost ::
              Base(done.(pr := run.pr.Promote(at, q, b, currency)), a, c, cost) == Base(run, a, c, cost)
  {
    var done := Booking(run, candidate, methods, txnDate).0;
    forall a, c, cost
      ensures Base(done.(pr := run.pr.Promote(at, q, b, currency)), a, c, cost) == Base(run, a, c, cost)
    {
      BookingConserves(run, candidate, methods, txnDate, [b], a, c, cost);
    }
  }

  /** Promoting the unknown to what booking `candidate` made of it. */
  lemma {:induction false} PromotionIsRight(care: Care, run: Run, candidate: Posting, methods: Methods, txnDate: nat,
                                            at: nat, q: Posting, b: BookedPosting, currency: string, change: Change)
    requires Kept(care, run) && at < |run.pr.postings| && at !in BookedAts(run.pr)
    requires var done := Booking(run, candidate, methods, txnDate).0;
             AllFine(care, done.state) && done.pr == run.pr && done.log == run.log + [change]
    requires LogMatches(care, b, change) && q.account == b.account == candidate.account && q.amount == Some(b.units)
    ensures var next := Booking(run, candidate, methods, txnDate).0.(pr := run.pr.Promote(at, q, b, currency));
            Conserves(care, run, next) && BooksOnly(run, next, at)
  {
    PromotionKeeps(care, run, Booking(run, candidate, methods, txnDate).0, at, q, b, currency, change);
    PromotionConserves(care, run, candidate, methods, txnDate, at, q, b, currency);
  }

  lemma {:induction false} BookUnknownConserves(care: Care, run: Run, at: nat, candidate: Posting, currency: string, methods: Methods, txnDate: nat)
    requires Kept(care, run) && Fills(care, run, at, candidate, methods, txnDate)
    requires BookUnknown(run, at, candidate, currency, methods, txnDate).Ok?
    ensures var next := BookUnknown(run, at, candidate, currency, methods, txnDate).value.0;
            Conserves(care, run, next) && BooksOnly(run, next, at)
  {
    BookingKeepsAllFine(care, run, candidate, methods, txnDate);
    match Booking(run, candidate, methods, txnDate).1 {
      case Finding(code) => UnknownFindingConserves(care, run, at, candidate, currency, methods, txnDate, code);
      case Augmented(lot) => UnknownAugmentedConserves(care, run, at, candidate, currency, methods, txnDate, lot);
      case Consumed(steps) => UnknownConsumedConserves(care, run, at, candidate, currency, methods, txnDate, steps);
    }
  }

  lemma {:induction false} UnknownAugmentedConserves(care: Care, run: Run, at: nat, candidate: Posting, currency: string, methods: Methods, txnDate: nat,
                                                     lot: Option<Lot>)
    requires Kept(care, run) && Fills(care, run, at, candidate, methods, txnDate)
    requires BookUnknown(run, at, candidate, currency, methods, txnDate).Ok?
    requires Booking(run, candidate, methods, txnDate).1 == Augmented(lot) && AllFine(care, Booking(run, candidate, methods, txnDate).0.state)
    ensures var next := BookUnknown(run, at, candidate, currency, methods, txnDate).value.0;
            Conserves(care, run, next) && BooksOnly(run, next, at)
  {
    var orig, units := run.pr.postings[at], candidate.amount.value;
    var change := Change(units.currency, lot, units.number);
    if lot.Some? {
      var q := orig.(cost := AugmentCostFor(candidate.cost, lot.value));
      PromotionIsRight(care, run, candidate, methods, txnDate, at, q, Record(q, lot, None, false), currency, change);
    } else {
      var q := orig.(amount := candidate.amount);
      PromotionIsRight(care, run, candidate, methods, txnDate, at, q, Record(q, None, None, true), currency, change);
    }
  }

  lemma {:induction false} UnknownConsumedConserves(care: Care, run: Run, at: nat, candidate: Posting, currency: string, methods: Methods, txnDate: nat,
                                                    steps: seq<Step>)
    requires Kept(care, run) && Fills(care, run, at, candidate, methods, txnDate)
    requires BookUnknown(run, at, candidate, currency, methods, txnDate).Ok?
    requires Booking(run, candidate, methods, txnDate).1 == Consumed(steps) && AllFine(care, Booking(run, candidate, methods, txnDate).0.state)
    ensures var next := BookUnknown(run, at, candidate, currency, methods, txnDate).value.0;
            Conserves(care, run, next) && BooksOnly(run, next, at)
  {
    EditKeepsFine(care, run, candidate.account);
    var ps, rule := Holdings(run.Edit(candidate.account).state, candidate.account), MethodOf(methods, candidate.account);
    ConsumedStepsMatchChanges(care, ps, candidate, rule, txnDate);
    var change := BookChanges(ps, candidate, rule, txnDate)[0];
    assert StepMatches(care, candidate.amount.value.currency, steps[0], change);
    var q := run.pr.postings[at].(amount := candidate.amount);
    PromotionIsRight(care, run, candidate, methods, txnDate, at, WithLot(q, steps[0]), Record(q, None, Some(steps[0]), true), currency, change);
  }

  lemma {:induction false} FailureKeeps(care: Care, run: Run, at: nat, currency: string)
    requires Kept(care, run)
    ensures Conserves(care, run, run.(pr := run.pr.RecordUnknownFailed(at, currency)))
    ensures BookedAts(run.pr.RecordUnknownFailed(at, currency)) == BookedAts(run.pr)
  {
    var pr := run.pr.RecordUnknownFailed(at, currency);
    assert pr.bookedDesc == run.pr.bookedDesc;
    forall j | 0 <= j < |run.log|
      ensures SourceMatches(pr.postings, pr.bookedDesc[j], pr.booked[j])
    {
      assert SourceMatches(run.pr.postings, run.pr.bookedDesc[j], run.pr.booked[j]);
    }
  }

  lemma {:induction false} UnknownFindingConserves(care: Care, run: Run, at: nat, candidate: Posting, currency: string, methods: Methods, txnDate: nat, code: Code)
    requires Kept(care, run) && at < |run.pr.postings| && candidate.amount.Some?
    requires candidate.account == run.pr.postings[at].account
    requires Booking(run, candidate, methods, txnDate).1 == Finding(code)
    ensures var next := BookUnknown(run, at, candidate, currency, methods, txnDate).value.0;
            Conserves(care, run, next) && BooksOnly(run, next, at)
  {
    FindingTouchesOnly(care, run, candidate, methods, txnDate, code);
    FailureKeeps(care, Booking(run, candidate, methods, txnDate).0, at, currency);
  }

  // ------------------------------------------------------------------ pass 2 conserves

  lemma {:induction false} ConservesTransitive(care: Care, a: Run, b: Run, c: Run)
    requires Conserves(care, a, b) && Conserves(care, b, c)
    ensures Conserves(care, a, c)
  {
  }

  lemma {:induction false} GroupCandidateFills(care: Care, run: Run, at: nat, residual: Amount, methods: Methods, txnDate: nat)
    requires at < |run.pr.postings| && at !in BookedAts(run.pr)
    requires run.pr.postings[at].amount.Some? && run.pr.postings[at].amount.value.number != 0.0
    requires residual.currency != "" || residual.number != 0.0
    ensures var p := run.pr.postings[at];
            Fills(care, run, at, p.(cost := Some(SynthesizeCost(p.cost, residual, txnDate))), methods, txnDate)
  {
    var p := run.pr.postings[at];
    var spec := SynthesizeCost(p.cost, residual, txnDate);
    var candidate := p.(cost := Some(spec));
    var units := p.amount.value;
    assert ResolveLot(candidate.cost, units, txnDate).TheLot?;
    var lot := ResolveLot(candidate.cost, units, txnDate).lot;
    assert lot.currency == residual.currency && lot.number == residual.number / Abs(units.number);
    assert residual.number != 0.0 ==> lot.number != 0.0;
  }

  lemma {:induction false} ResolveGroupConserves(care: Care, acc: Resolved, g: Group, methods: Methods, txnDate: nat)
    requires Kept(care, acc.run) && UnknownInRange(|acc.run.pr.postings|, g.unknown)
    requires forall x :: x in g.unknown ==> x !in BookedAts(acc.run.pr)
    requires g.unknown != [] ==> g.currency != ""
    requires ResolveGroup(acc, g, methods, txnDate).Ok?
    ensures var next := ResolveGroup(acc, g, methods, txnDate).value;
            && Conserves(care, acc.run, next.run)
            && BookedAts(next.run.pr) <= BookedAts(acc.run.pr) + set x | x in g.unknown
            && |next.run.pr.postings| == |acc.run.pr.postings|
            && (forall r :: r in next.free ==> r in acc.free || r.number != 0.0)
  {
    if |g.unknown| == 1 {
      var at := g.unknown[0];
      var p := acc.run.pr.postings[at];
      if p.amount.value.number != 0.0 {
        var residual := Amount(g.residual, g.currency);
        GroupCandidateFills(care, acc.run, at, residual, methods, txnDate);
        BookUnknownConserves(care, acc.run, at, p.(cost := Some(SynthesizeCost(p.cost, residual, txnDate))), g.currency, methods, txnDate);
      }
    }
  }

  /** Once the first group's unknowns may be booked, the rest are still open. */
  lemma {:induction false} OpenAfterFirst(pr: Resolution, next: Resolution, groups: seq<Group>, free: seq<nat>)
    requires groups != [] && StillOpen(pr, groups, free)
    requires BookedAts(next) <= BookedAts(pr) + set x | x in groups[0].unknown
    ensures StillOpen(next, groups[1..], free)
  {
    var g, rest := groups[0], groups[1..];
    assert g in groups;
    forall h, x | h in rest && x in h.unknown
      ensures x !in free && x !in BookedAts(next)
    {
      var j :| 0 <= j < |rest| && rest[j] == h;
      assert h == groups[j + 1] && h in groups;
    }
    forall i, j, x | 0 <= i < j < |rest| && x in rest[i].unknown ensures x !in rest[j].unknown {
      assert x in groups[i + 1].unknown;
    }
  }

  lemma {:induction false} ResolveGroupsConserves(care: Care, acc: Resolved, groups: seq<Group>, free: seq<nat>, methods: Methods, txnDate: nat)
    requires Kept(care, acc.run) && GroupsInRange(|acc.run.pr.postings|, groups) && StillOpen(acc.run.pr, groups, free)
    requires forall g :: g in groups && g.unknown != [] ==> g.currency != ""
    requires forall r :: r in acc.free ==> r.number != 0.0
    requires ResolveGroups(acc, groups, methods, txnDate).Ok?
    ensures var next := ResolveGroups(acc, groups, methods, txnDate).value;
            && Conserves(care, acc.run, next.run)
            && (forall x :: x in free ==> x !in BookedAts(next.run.pr))
            && (forall r :: r in next.free ==> r.number != 0.0)
    decreases |groups|
  {
    if groups != [] {
      var g := groups[0];
      ResolveGroupConserves(care, acc, g, methods, txnDate);
      var next := ResolveGroup(acc, g, methods, txnDate).value;
      var rest := groups[1..];
      OpenAfterFirst(acc.run.pr, next.run.pr, groups, free);
      ResolveGroupsConserves(care, next, rest, free, methods, txnDate);
      ConservesTransitive(care, acc.run, next.run, ResolveGroups(next, rest, methods, txnDate).value.run);
    }
  }

  lemma {:induction false} ApplyFailuresConserves(care: Care, run: Run, failures: seq<Failure>)
    requires Kept(care, run)
    ensures Conserves(care, run, ApplyFailures(run, failures))
    ensures BookedAts(ApplyFailures(run, failures).pr) == BookedAts(run.pr)
    decreases |failures|
  {
    if failures != [] {
      var f := failures[0];
      var reported := run.Report(f.diag);
      FailureKeeps(care, reported, f.at, f.currency);
      var next := reported.(pr := run.pr.RecordUnknownFailed(f.at, f.currency));
      assert Conserves(care, run, next);
      ApplyFailuresConserves(care, next, failures[1..]);
    }
  }

  lemma {:induction false} FailFreeConserves(care: Care, run: Run, free: seq<nat>)
    requires Kept(care, run)
    ensures Conserves(care, run, run.(pr := FailFree(run.pr, free)))
    decreases |free|
  {
    if free != [] {
      FailureKeeps(care, run, free[0], "");
      FailFreeConserves(care, run.(pr := run.pr.RecordUnknownFailed(free[0], "")), free[1..]);
    }
  }

  lemma {:induction false} FreeCandidateFills(care: Care, run: Run, at: nat, residual: Amount, methods: Methods, txnDate: nat)
    requires at < |run.pr.postings| && at !in BookedAts(run.pr) && residual.number != 0.0
    requires run.pr.postings[at].amount.Some? ==> run.pr.postings[at].amount.value.number != 0.0
    requires care != Any ==> CostHasCurrency(run.pr.postings[at].cost)
    ensures Fills(care, run, at, FreeCandidate(run.pr.postings[at], residual, txnDate), methods, txnDate)
  {
    var p := run.pr.postings[at];
    if p.amount.Some? {
      GroupCandidateFills(care, run, at, residual, methods, txnDate);
    } else {
      var candidate := FreeCandidate(p, residual, txnDate);
      var ps := Holdings(run.Edit(p.account).state, p.account);
      if care != Any {
        AugmentedLotFollowsHint(ps, candidate, MethodOf(methods, p.account), txnDate);
      }
    }
  }

  lemma {:induction false} AbsorbFreeConserves(care: Care, run: Run, free: seq<nat>, residuals: seq<Amount>, methods: Methods, txnDate: nat)
    requires Kept(care, run) && UnknownInRange(|run.pr.postings|, free)
    requires forall x :: x in free ==> x !in BookedAts(run.pr) && (care != Any ==> CostHasCurrency(run.pr.postings[x].cost))
    requires forall r :: r in residuals ==> r.number != 0.0
    requires AbsorbFree(run, free, residuals, methods, txnDate).Ok?
    ensures Conserves(care, run, AbsorbFree(run, free, residuals, methods, txnDate).value)
  {
    var (next, found) := ResolveFree(run, free, residuals, methods, txnDate).value;
    assert Conserves(care, run, next) by {
      if |free| == 1 && |residuals| == 1 {
        var p := run.pr.postings[free[0]];
        if p.amount.None? || p.amount.value.number != 0.0 {
          FreeCandidateFills(care, run, free[0], residuals[0], methods, txnDate);
          BookUnknownConserves(care, run, free[0], FreeCandidate(p, residuals[0], txnDate), residuals[0].currency, methods, txnDate);
        }
      }
    }
    if found != [] {
      var reported := next.(diags := next.diags + found);
      FailFreeConserves(care, reported, free);
    }
  }

  // ------------------------------------------------------------------ from pass 1 to the end of pass 2

  /** What pass 2 needs to know about the postings pass 1 left unbooked. */
  ghost predicate UnknownsReady(care: Care, pr: Resolution) {
    && RefsInRange(pr)
    && UnknownsApart(pr)
    && (care != Any ==> forall i :: 0 <= i < |pr.postings| && i !in BookedAts(pr) ==> CostHasCurrency(pr.postings[i].cost))
  }

  lemma {:induction false} AppendedAts(pr: Resolution, f: Filing, x: nat)
    requires forall k :: 0 <= k < |f.refs| ==> f.refs[k].at == |pr.postings| + k
    ensures x in BookedAts(Append(pr, f)) <==> x in BookedAts(pr) || |pr.postings| <= x < |pr.postings| + |f.refs|
  {
    var r, n := Append(pr, f), |pr.bookedDesc|;
    assert forall k :: 0 <= k < n ==> r.bookedDesc[k] == pr.bookedDesc[k];
    assert forall k :: n <= k < |r.bookedDesc| ==> r.bookedDesc[k] == f.refs[k - n];
    if |pr.postings| <= x < |pr.postings| + |f.refs| {
      assert r.bookedDesc[n + (x - |pr.postings|)].at == x;
    }
    if x in BookedAts(pr) {
      var k :| 0 <= k < n && pr.bookedDesc[k].at == x;
      assert r.bookedDesc[k].at == x;
    }
  }

  lemma {:induction false} AppendKeepsUnknowns(care: Care, pr: Resolution, f: Filing)
    requires UnknownsReady(care, pr) && |f.postings| == |f.refs|
    requires forall k :: 0 <= k < |f.refs| ==> f.refs[k].at == |pr.postings| + k
    ensures UnknownsReady(care, Append(pr, f))
  {
    var r := Append(pr, f);
    forall i | 0 <= i < |r.unknownDesc| ensures r.unknownDesc[i].at !in BookedAts(r) {
      AppendedAts(pr, f, r.unknownDesc[i].at);
    }
    forall i | care != Any && 0 <= i < |r.postings| && i !in BookedAts(r)
      ensures CostHasCurrency(r.postings[i].cost)
    {
      AppendedAts(pr, f, i);
    }
  }

  lemma {:induction false} FiledKeepsUnknowns(care: Care, pr: Resolution, p: Posting, lot: Option<Lot>, steps: seq<Step>)
    requires UnknownsReady(care, pr) && p.amount.Some? && Filed(pr, p, lot, steps).Ok?
    ensures UnknownsReady(care, Filed(pr, p, lot, steps).value)
  {
    FiledAppends(pr, p, lot, steps);
    FilingIsCoherent(pr, p, lot, steps);
    AppendKeepsUnknowns(care, pr, FilingOf(pr, p, lot, steps));
  }

  lemma {:induction false} UnknownAddedKeepsUnknowns(care: Care, pr: Resolution, p: Posting)
    requires UnknownsReady(care, pr) && (care != Any ==> CostHasCurrency(p.cost))
    ensures UnknownsReady(care, pr.AddUnknown(p))
  {
    var r := pr.AddUnknown(p);
    assert r.bookedDesc == pr.bookedDesc && BookedAts(r) == BookedAts(pr);
  }

  lemma {:induction false} BookNextKeepsUnknowns(care: Care, run: Run, p: Posting, methods: Methods, txnDate: nat)
    requires UnknownsReady(care, run.pr) && Proper(care, p) && BookNext(run, p, methods, txnDate).Ok?
    ensures UnknownsReady(care, BookNext(run, p, methods, txnDate).value.pr)
  {
    if p.amount.None? {
      UnknownAddedKeepsUnknowns(care, run.pr, p);
    } else {
      var (done, r) := Booking(run, p, methods, txnDate);
      FileKeepsUnknowns(care, done, p, r);
    }
  }

  lemma {:induction false} FileKeepsUnknowns(care: Care, done: Run, p: Posting, r: Outcome)
    requires UnknownsReady(care, done.pr) && p.amount.Some? && (care != Any ==> CostHasCurrency(p.cost)) && File(done, p, r).Ok?
    ensures UnknownsReady(care, File(done, p, r).value.pr)
  {
    match r {
      case Augmented(lot) => FiledKeepsUnknowns(care, done.pr, p, lot, []);
      case Consumed(steps) => FiledKeepsUnknowns(care, done.pr, p, None, steps);
      case Finding(code) =>
        if Deferred(code, p) {
          UnknownAddedKeepsUnknowns(care, done.pr, p);
        } else {
          var dropped := done.pr.MarkForDrop(WeightCurrencyFallback(p));
          assert BookedAts(dropped) == BookedAts(done.pr);
        }
      case Failed =>
    }
  }

  lemma {:induction false} Pass1KeepsUnknowns(care: Care, run: Run, postings: seq<Posting>, methods: Methods, txnDate: nat)
    requires UnknownsReady(care, run.pr) && AllProper(care, postings) && Pass1(run, postings, methods, txnDate).Ok?
    ensures UnknownsReady(care, Pass1(run, postings, methods, txnDate).value.pr)
    decreases |postings|
  {
    if postings != [] {
      BookNextKeepsUnknowns(care, run, postings[0], methods, txnDate);
      Pass1KeepsUnknowns(care, BookNext(run, postings[0], methods, txnDate).value, postings[1..], methods, txnDate);
    }
  }

  lemma {:induction false} ApplyFailuresKeepsPostings(run: Run, failures: seq<Failure>)
    ensures ApplyFailures(run, failures).pr.postings == run.pr.postings
    decreases |failures|
  {
    if failures != [] {
      var f := failures[0];
      ApplyFailuresKeepsPostings(run.Report(f.diag).(pr := run.pr.RecordUnknownFailed(f.at, f.currency)), failures[1..]);
    }
  }

  lemma {:induction false} BookUnknownLeavesOthers(run: Run, at: nat, candidate: Posting, currency: string, methods: Methods, txnDate: nat, x: nat)
    requires at < |run.pr.postings| && candidate.amount.Some? && x < |run.pr.postings| && x != at
    requires BookUnknown(run, at, candidate, currency, methods, txnDate).Ok?
    ensures BookUnknown(run, at, candidate, currency, methods, txnDate).value.0.pr.postings[x] == run.pr.postings[x]
  {
  }

  lemma {:induction false} ResolveGroupLeavesOthers(acc: Resolved, g: Group, methods: Methods, txnDate: nat, x: nat)
    requires UnknownInRange(|acc.run.pr.postings|, g.unknown) && x < |acc.run.pr.postings| && x !in g.unknown
    requires ResolveGroup(acc, g, methods, txnDate).Ok?
    ensures var next := ResolveGroup(acc, g, methods, txnDate).value.run.pr.postings;
            |next| == |acc.run.pr.postings| && next[x] == acc.run.pr.postings[x]
  {
    if |g.unknown| == 1 {
      var at := g.unknown[0];
      var p := acc.run.pr.postings[at];
      if p.amount.Some? {
        var candidate := p.(cost := Some(SynthesizeCost(p.cost, Amount(g.residual, g.currency), txnDate)));
        if p.amount.value.number != 0.0 {
          BookUnknownLeavesOthers(acc.run, at, candidate, g.currency, methods, txnDate, x);
        }
      }
    }
  }

  /** A posting no group claims is not touched while the groups are resolved. */
  lemma {:induction false} ResolveGroupsLeavesFree(acc: Resolved, groups: seq<Group>, methods: Methods, txnDate: nat, x: nat)
    requires GroupsInRange(|acc.run.pr.postings|, groups) && x < |acc.run.pr.postings|
    requires forall g :: g in groups ==> x !in g.unknown
    requires ResolveGroups(acc, groups, methods, txnDate).Ok?
    ensures ResolveGroups(acc, groups, methods, txnDate).value.run.pr.postings[x] == acc.run.pr.postings[x]
    decreases |groups|
  {
    if groups != [] {
      assert groups[0] in groups;
      ResolveGroupLeavesOthers(acc, groups[0], methods, txnDate, x);
      ResolveGroupsLeavesFree(ResolveGroup(acc, groups[0], methods, txnDate).value, groups[1..], methods, txnDate, x);
    }
  }

  lemma {:induction false} Pass2Conserves(care: Care, run: Run, methods: Methods, txnDate: nat)
    requires Kept(care, run) && UnknownsReady(care, run.pr) && Pass2(run, methods, txnDate).Ok?
    ensures Conserves(care, run, Pass2(run, methods, txnDate).value)
  {
    var (groups, free) := Residuals(run.pr).value;
    var start := Resolved(run, [], []);
    ResidualsInRange(run.pr);
    ResidualsAreOpen(run.pr);
    ResolveGroupsConserves(care, start, groups, free, methods, txnDate);
    var resolved := ResolveGroups(start, groups, methods, txnDate).value;
    ApplyFailuresConserves(care, resolved.run, resolved.failures);
    ApplyFailuresKeepsPostings(resolved.run, resolved.failures);
    var applied := ApplyFailures(resolved.run, resolved.failures);
    forall x | care != Any && x in free ensures CostHasCurrency(applied.pr.postings[x].cost) {
      ResolveGroupsLeavesFree(start, groups, methods, txnDate, x);
    }
    AbsorbFreeConserves(care, applied, free, resolved.free, methods, txnDate);
  }

  /** Both passes together: invariants hold, and every unit is accounted for. */
  lemma {:induction false} PassesKeep(care: Care, state: State, diags: seq<Diag>, postings: seq<Posting>, methods: Methods, txnDate: nat)
    requires AllFine(care, state) && AllProper(care, postings) && Passes(state, diags, postings, methods, txnDate).Ok?
    ensures var run := Passes(state, diags, postings, methods, txnDate).value;
            && Kept(care, run)
            && forall a, c, cost ::
                 UnitsAt(Holdings(run.state, a), c, cost)
                 == UnitsAt(Holdings(state, a), c, cost) + EffectOf(run.pr.booked, run.log, a, c, cost)
  {
    var start := Start(state, diags);
    var mid := Pass1(start, postings, methods, txnDate).value;
    Pass1Conserves(care, start, postings, methods, txnDate);
    Pass1KeepsUnknowns(care, start, postings, methods, txnDate);
    Pass2Conserves(care, mid, methods, txnDate);
    var run := Pass2(mid, methods, txnDate).value;
    forall a, c, cost
      ensures UnitsAt(Holdings(run.state, a), c, cost)
              == UnitsAt(Holdings(state, a), c, cost) + EffectOf(run.pr.booked, run.log, a, c, cost)
    {
      assert Base(run, a, c, cost) == Base(mid, a, c, cost) == Base(start, a, c, cost);
    }
  }

  /**
   Over any inventories and any postings, what both passes leave under every key is
   what was held plus the effects of the booked records, and every record stands
   beside the posting it was booked from and the change it made.
   */
  lemma {:induction false} PassesConserve(state: State, diags: seq<Diag>, postings: seq<Posting>, methods: Methods, txnDate: nat)
    requires Passes(state, diags, postings, methods, txnDate).Ok?
    ensures var run := Passes(state, diags, postings, methods, txnDate).value;
            && Kept(Any, run)
            && forall a, c, cost ::
                 UnitsAt(Holdings(run.state, a), c, cost)
                 == UnitsAt(Holdings(state, a), c, cost) + EffectOf(run.pr.booked, run.log, a, c, cost)
  {
    PassesKeep(Any, state, diags, postings, methods, txnDate);
  }
}
