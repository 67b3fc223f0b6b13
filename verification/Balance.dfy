/**
 Interpolation balances the transaction. When a transaction with an automatic
 posting books without findings, the weights of its output postings sum to zero
 in every currency, except where a deferred cost absorbed a residual whose sign
 its units do not have; that is exactly when a currency stays unbalanced.
 */
module Balance {
  import opened Prelude
  import opened Amounts
  import opened Inventories
  import opened Costs
  import opened Bookings
  import opened Resolutions
  import opened Reductions
  import opened Conservation
  import opened Interpolation

  // ------------------------------------------------------------------ weight sums

  /** The part of the sum of weights that comes from the postings whose index is in `ats`, among the first `n`. */
  ghost function PartSum(postings: seq<Posting>, ats: set<nat>, n: nat, currency: string): real
    requires n <= |postings|
  {
    if n == 0 then 0.0
    else PartSum(postings, ats, n - 1, currency) + if n - 1 in ats then WeightIn(postings[n - 1], currency) else 0.0
  }

  lemma {:induction false} PartSumOfAll(postings: seq<Posting>, ats: set<nat>, n: nat, currency: string)
    requires n <= |postings| && forall i: nat :: i < n ==> i in ats
    ensures PartSum(postings, ats, n, currency) == WeightSum(postings[..n], currency)
  {
    if n > 0 {
      PartSumOfAll(postings, ats, n - 1, currency);
      assert postings[..n][..n - 1] == postings[..n - 1];
    }
  }

  /** Booking posting `at`, and changing nothing but it, adds its weight. */
  lemma {:induction false} PartSumGrows(ps: seq<Posting>, qs: seq<Posting>, ats: set<nat>, at: nat, n: nat, currency: string)
    requires n <= |ps| == |qs| && at !in ats && at < |ps|
    requires forall i: nat :: i < |ps| && i != at ==> qs[i] == ps[i]
    ensures PartSum(qs, ats + {at}, n, currency)
            == PartSum(ps, ats, n, currency) + if at < n then WeightIn(qs[at], currency) else 0.0
  {
    if n > 0 {
      PartSumGrows(ps, qs, ats, at, n - 1, currency);
    }
  }

  ghost function Booked(pr: Resolution, currency: string): real {
    PartSum(pr.postings, BookedAts(pr), |pr.postings|, currency)
  }

  ghost function AtsOf(refs: seq<Ref>): set<nat> {
    set k | 0 <= k < |refs| :: refs[k].at
  }

  ghost predicate DistinctAts(refs: seq<Ref>) {
    forall i, j :: 0 <= i < j < |refs| ==> refs[i].at != refs[j].at
  }

  // ------------------------------------------------------------------ the sums pass 2 computes

  lemma {:induction false} AddWeightAddsOne(sums: Sums, w: Amount, currency: string)
    ensures SumFor(AddWeight(sums, w), currency)
            == SumFor(sums, currency) + if w.currency == currency then w.number else 0.0
  {
    if sums != [] && sums[0].currency != w.currency {
      AddWeightAddsOne(sums[1..], w, currency);
    }
  }

  ghost predicate DistinctCurrencies(sums: Sums) {
    forall i, j :: 0 <= i < j < |sums| ==> sums[i].currency != sums[j].currency
  }

  lemma {:induction false} AddWeightKeepsDistinct(sums: Sums, w: Amount)
    requires DistinctCurrencies(sums)
    ensures DistinctCurrencies(AddWeight(sums, w))
    ensures forall s :: s in AddWeight(sums, w) ==> s.currency == w.currency || s in sums
  {
    if sums != [] && sums[0].currency != w.currency {
      var rest := AddWeight(sums[1..], w);
      AddWeightKeepsDistinct(sums[1..], w);
      forall j | 0 <= j < |rest| ensures rest[j].currency != sums[0].currency {
        assert rest[j] in rest;
        if rest[j] in sums[1..] {
          var k :| 0 <= k < |sums[1..]| && sums[1..][k] == rest[j];
          assert sums[k + 1] == rest[j];
        }
      }
    }
  }

  lemma {:induction false} WeightSumsAreRight(postings: seq<Posting>, refs: seq<Ref>, sums: Sums, ats: set<nat>, currency: string)
    requires forall k :: 0 <= k < |refs| ==> refs[k].at < |postings| && refs[k].at !in ats
    requires DistinctAts(refs) && DistinctCurrencies(sums)
    requires SumFor(sums, currency) == PartSum(postings, ats, |postings|, currency)
    requires WeightSums(postings, refs, sums).Ok?
    ensures var r := WeightSums(postings, refs, sums).value;
            && SumFor(r, currency) == PartSum(postings, ats + AtsOf(refs), |postings|, currency)
            && DistinctCurrencies(r)
    decreases |refs|
  {
    if refs == [] {
      assert ats + AtsOf(refs) == ats;
    } else {
      var at := refs[0].at;
      PartSumGrows(postings, postings, ats, at, |postings|, currency);
      assert ats + AtsOf(refs) == (ats + {at}) + AtsOf(refs[1..]) by {
        forall x | x in AtsOf(refs) ensures x in {at} + AtsOf(refs[1..]) {
          var k :| 0 <= k < |refs| && refs[k].at == x;
          if k > 0 {
            assert refs[1..][k - 1].at == x;
          }
        }
        forall x | x in AtsOf(refs[1..]) ensures x in AtsOf(refs) {
          var k :| 0 <= k < |refs[1..]| && refs[1..][k].at == x;
          assert refs[k + 1].at == x;
        }
      }
      match PostingWeight(postings[at]) {
        case Ok(None) => WeightSumsAreRight(postings, refs[1..], sums, ats + {at}, currency);
        case Ok(Some(w)) =>
          AddWeightAddsOne(sums, w, currency);
          AddWeightKeepsDistinct(sums, w);
          WeightSumsAreRight(postings, refs[1..], AddWeight(sums, w), ats + {at}, currency);
        case Err(_) =>
      }
    }
  }

  // ------------------------------------------------------------------ the shape pass 1 leaves

  ghost function UnknownAts(pr: Resolution): set<nat> {
    AtsOf(pr.unknownDesc)
  }

  /** Every posting is either booked once or an unknown once. */
  ghost predicate Sorted(pr: Resolution) {
    && RefsInRange(pr)
    && UnknownsApart(pr)
    && DistinctAts(pr.bookedDesc)
    && forall i: nat :: i < |pr.postings| ==> i in BookedAts(pr) || i in UnknownAts(pr)
  }

  lemma {:induction false} AppendKeepsSorted(pr: Resolution, f: Filing)
    requires Sorted(pr) && |f.postings| == |f.refs|
    requires forall k :: 0 <= k < |f.refs| ==> f.refs[k].at == |pr.postings| + k
    ensures Sorted(Append(pr, f))
  {
    var r := Append(pr, f);
    forall i | 0 <= i < |r.unknownDesc| ensures r.unknownDesc[i].at !in BookedAts(r) {
      AppendedAts(pr, f, r.unknownDesc[i].at);
    }
    forall i: nat | i < |r.postings| ensures i in BookedAts(r) || i in UnknownAts(r) {
      AppendedAts(pr, f, i);
    }
  }

  lemma {:induction false} FiledKeepsSorted(pr: Resolution, p: Posting, lot: Option<Lot>, steps: seq<Step>)
    requires Sorted(pr) && p.amount.Some? && Filed(pr, p, lot, steps).Ok?
    ensures Sorted(Filed(pr, p, lot, steps).value)
    ensures Filed(pr, p, lot, steps).value.dropped == pr.dropped
    ensures Filed(pr, p, lot, steps).value.unknownDesc == pr.unknownDesc
  {
    FiledAppends(pr, p, lot, steps);
    FilingIsCoherent(pr, p, lot, steps);
    AppendKeepsSorted(pr, FilingOf(pr, p, lot, steps));
  }

  lemma {:induction false} AddUnknownKeepsSorted(pr: Resolution, p: Posting)
    requires Sorted(pr)
    ensures Sorted(pr.AddUnknown(p))
  {
    var r := pr.AddUnknown(p);
    assert r.bookedDesc == pr.bookedDesc && BookedAts(r) == BookedAts(pr);
    assert r.unknownDesc[|pr.unknownDesc|].at == |pr.postings|;
    forall i: nat | i < |pr.postings| && i in UnknownAts(pr) ensures i in UnknownAts(r) {
      var k :| 0 <= k < |pr.unknownDesc| && pr.unknownDesc[k].at == i;
      assert r.unknownDesc[k].at == i;
    }
  }

  /** A quiet step: sorted before and after, and nothing reported or dropped. */
  ghost predicate Quiet(run: Run, next: Run) {
    next.diags == run.diags ==> next.pr.dropped == run.pr.dropped
  }

  lemma {:induction false} BookNextKeepsSorted(run: Run, p: Posting, methods: Methods, txnDate: nat)
    requires Sorted(run.pr) && BookNext(run, p, methods, txnDate).Ok?
    ensures var next := BookNext(run, p, methods, txnDate).value;
            Sorted(next.pr) && Quiet(run, next) && run.diags <= next.diags
  {
    if p.amount.None? {
      AddUnknownKeepsSorted(run.pr, p);
    } else {
      var (done, r) := Booking(run, p, methods, txnDate);
      FileKeepsSorted(done, p, r);
    }
  }

  lemma {:induction false} FileKeepsSorted(done: Run, p: Posting, r: Outcome)
    requires Sorted(done.pr) && p.amount.Some? && File(done, p, r).Ok?
    ensures var next := File(done, p, r).value;
            Sorted(next.pr) && Quiet(done, next) && done.diags <= next.diags
  {
    match r {
      case Augmented(lot) => FiledKeepsSorted(done.pr, p, lot, []);
      case Consumed(steps) => FiledKeepsSorted(done.pr, p, None, steps);
      case Failed =>
      case Finding(_) =>
        AddUnknownKeepsSorted(done.pr, p);
        DropKeepsSorted(done.pr, WeightCurrencyFallback(p));
    }
  }

  lemma {:induction false} DropKeepsSorted(pr: Resolution, currency: string)
    requires Sorted(pr)
    ensures Sorted(pr.MarkForDrop(currency))
  {
    var r := pr.MarkForDrop(currency);
    assert BookedAts(r) == BookedAts(pr) && UnknownAts(r) == UnknownAts(pr);
  }

  lemma {:induction false} Pass1KeepsSorted(run: Run, postings: seq<Posting>, methods: Methods, txnDate: nat)
    requires Sorted(run.pr) && Pass1(run, postings, methods, txnDate).Ok?
    ensures var next := Pass1(run, postings, methods, txnDate).value;
            Sorted(next.pr) && Quiet(run, next) && run.diags <= next.diags
    decreases |postings|
  {
    if postings != [] {
      var next := BookNext(run, postings[0], methods, txnDate).value;
      BookNextKeepsSorted(run, postings[0], methods, txnDate);
      Pass1KeepsSorted(next, postings[1..], methods, txnDate);
      var end := Pass1(next, postings[1..], methods, txnDate).value;
      if end.diags == run.diags {
        assert next.diags == run.diags;
      }
    }
  }

  // ------------------------------------------------------------------ what pass 1 says about the unknowns

  /** Unknowns carry the currency they bid for, and automatic ones are bare. */
  ghost predicate Stamped(pr: Resolution) {
    && RefsInRange(pr)
    && (forall r :: r in pr.unknownDesc ==> r.currency == UnknownCurrency(pr.postings[r.at]))
    && (forall r :: r in pr.unknownDesc ==>
          pr.postings[r.at].amount.None? || (pr.postings[r.at].cost.Some? && pr.postings[r.at].cost.value.Spec?))
    && (forall p :: p in pr.postings && p.amount.None? ==> p.cost.None? && p.price.None?)
  }

  lemma {:induction false} AppendKeepsStamped(pr: Resolution, f: Filing)
    requires Stamped(pr) && |f.postings| == |f.booked| == |f.refs|
    requires forall k :: 0 <= k < |f.refs| ==> f.refs[k].at == |pr.postings| + k && f.postings[k].amount.Some?
    ensures Stamped(Append(pr, f))
  {
    var r := Append(pr, f);
    forall ref | ref in r.unknownDesc
      ensures ref.currency == UnknownCurrency(r.postings[ref.at])
      ensures var p := r.postings[ref.at]; p.amount.None? || (p.cost.Some? && p.cost.value.Spec?)
    {
      assert r.postings[ref.at] == pr.postings[ref.at];
    }
  }

  lemma {:induction false} FileKeepsStamped(done: Run, p: Posting, r: Outcome)
    requires Stamped(done.pr) && p.amount.Some? && File(done, p, r).Ok?
    ensures Stamped(File(done, p, r).value.pr)
  {
    match r {
      case Augmented(lot) =>
        FiledAppends(done.pr, p, lot, []);
        FilingIsCoherent(done.pr, p, lot, []);
        AppendKeepsStamped(done.pr, FilingOf(done.pr, p, lot, []));
      case Consumed(steps) =>
        FiledAppends(done.pr, p, None, steps);
        FilingIsCoherent(done.pr, p, None, steps);
        AppendKeepsStamped(done.pr, FilingOf(done.pr, p, None, steps));
      case Failed =>
      case Finding(code) =>
        if Deferred(code, p) {
          AddUnknownKeepsStamped(done.pr, p);
        }
    }
  }

  lemma {:induction false} AddUnknownKeepsStamped(pr: Resolution, p: Posting)
    requires Stamped(pr)
    requires if p.amount.None? then p.cost.None? && p.price.None? else p.cost.Some? && p.cost.value.Spec?
    ensures Stamped(pr.AddUnknown(p))
  {
    var r := pr.AddUnknown(p);
    forall ref | ref in r.unknownDesc
      ensures ref.at < |r.postings| && ref.currency == UnknownCurrency(r.postings[ref.at])
      ensures var p := r.postings[ref.at]; p.amount.None? || (p.cost.Some? && p.cost.value.Spec?)
    {
      if ref in pr.unknownDesc {
        var k :| 0 <= k < |pr.unknownDesc| && pr.unknownDesc[k] == ref;
        assert r.postings[ref.at] == pr.postings[ref.at];
      }
    }
  }

  ghost predicate HasAuto(postings: seq<Posting>) {
    exists p :: p in postings && p.amount.None?
  }

  ghost predicate AutosBare(postings: seq<Posting>) {
    forall p :: p in postings && p.amount.None? ==> p.cost.None? && p.price.None?
  }

  lemma {:induction false} StructureMeansBare(postings: seq<Posting>, seenAuto: bool)
    requires StructureError(postings, seenAuto).None?
    ensures AutosBare(postings)
  {
    if postings != [] {
      StructureMeansBare(postings[1..], seenAuto || postings[0].amount.None?);
    }
  }

  lemma {:induction false} Pass1KeepsStamped(run: Run, postings: seq<Posting>, methods: Methods, txnDate: nat)
    requires Stamped(run.pr) && AutosBare(postings) && Pass1(run, postings, methods, txnDate).Ok?
    ensures Stamped(Pass1(run, postings, methods, txnDate).value.pr)
    ensures var end := Pass1(run, postings, methods, txnDate).value.pr;
            && run.pr.postings <= end.postings
            && (forall r :: r in run.pr.unknownDesc ==> r in end.unknownDesc)
            && (HasAuto(postings) ==> exists r :: r in end.unknownDesc && end.postings[r.at].amount.None?)
    decreases |postings|
  {
    if postings != [] {
      var p := postings[0];
      var next := BookNext(run, p, methods, txnDate).value;
      if p.amount.None? {
        AddUnknownKeepsStamped(run.pr, p);
        assert Ref("", |run.pr.postings|) in next.pr.unknownDesc;
        assert next.pr.postings[|run.pr.postings|] == p;
      } else {
        var (done, r) := Booking(run, p, methods, txnDate);
        FileKeepsStamped(done, p, r);
        FileKeepsUnknownRefs(done, p, r);
      }
      Pass1KeepsStamped(next, postings[1..], methods, txnDate);
    }
  }

  lemma {:induction false} FileKeepsUnknownRefs(done: Run, p: Posting, r: Outcome)
    requires p.amount.Some? && File(done, p, r).Ok?
    ensures forall ref :: ref in done.pr.unknownDesc ==> ref in File(done, p, r).value.pr.unknownDesc
    ensures done.pr.postings <= File(done, p, r).value.pr.postings
  {
    match r {
      case Augmented(lot) => FiledAppends(done.pr, p, lot, []);
      case Consumed(steps) => FiledAppends(done.pr, p, None, steps);
      case Failed =>
      case Finding(_) =>
    }
  }

  // ------------------------------------------------------------------ every unknown is claimed

  lemma {:induction false} AddBidCovers(bids: seq<Bid>, currency: string, at: nat)
    ensures exists b :: b in AddBid(bids, currency, at) && b.currency == currency && at in b.unknown
    ensures forall b, x {:trigger x in b.unknown} :: b in bids && x in b.unknown ==>
              exists c :: c in AddBid(bids, currency, at) && c.currency == b.currency && x in c.unknown
  {
    if bids == [] {
      assert Bid(currency, [at]) in AddBid(bids, currency, at);
    } else if bids[0].currency == currency {
      var merged := Bid(currency, bids[0].unknown + [at]);
      assert AddBid(bids, currency, at)[0] == merged;
      forall b, x | b in bids && x in b.unknown
        ensures exists c :: c in AddBid(bids, currency, at) && c.currency == b.currency && x in c.unknown
      {
        if b == bids[0] {
          assert merged in AddBid(bids, currency, at) && x in merged.unknown;
        } else {
          assert b in AddBid(bids, currency, at);
        }
      }
    } else {
      AddBidCovers(bids[1..], currency, at);
      var rest, r := AddBid(bids[1..], currency, at), AddBid(bids, currency, at);
      assert r == [bids[0]] + rest;
      var b :| b in rest && b.currency == currency && at in b.unknown;
      assert b in r;
      forall b, x | b in bids && x in b.unknown
        ensures exists c :: c in r && c.currency == b.currency && x in c.unknown
      {
        if b == bids[0] {
          assert b in r;
        } else {
          var c :| c in rest && c.currency == b.currency && x in c.unknown;
          assert c in r;
        }
      }
    }
  }

  ghost predicate BidFor(bids: seq<Bid>, currency: string, at: nat) {
    exists b :: b in bids && b.currency == currency && at in b.unknown
  }

  lemma {:induction false} BidsCover(refs: seq<Ref>, bids: seq<Bid>, currency: string, at: nat)
    requires currency != "" && (BidFor(bids, currency, at) || Ref(currency, at) in refs)
    ensures BidFor(Bids(refs, {}, bids), currency, at)
    decreases |refs|
  {
    if refs != [] {
      var ref := refs[0];
      if ref.currency == "" {
        BidsCover(refs[1..], bids, currency, at);
      } else {
        AddBidCovers(bids, ref.currency, ref.at);
        var next := AddBid(bids, ref.currency, ref.at);
        if BidFor(bids, currency, at) {
          var b :| b in bids && b.currency == currency && at in b.unknown;
          var c :| c in next && c.currency == b.currency && at in c.unknown;
          assert BidFor(next, currency, at);
        } else if ref == Ref(currency, at) {
          assert BidFor(next, currency, at);
        }
        BidsCover(refs[1..], next, currency, at);
      }
    }
  }

  // ------------------------------------------------------------------ booking an unknown adds its weight

  /** A deferred posting once its cost was interpolated by an augmentation. */
  ghost predicate Interpolated(p: Posting) {
    p.amount.Some? && p.cost.Some? && p.cost.value.Booked? && p.cost.value.total.Some?
  }

  /** Unknown `at` was booked without a finding: it is now `q`, booked, and nothing else changed. */
  ghost predicate BookedAs(pr: Resolution, next: Resolution, at: nat, q: Posting) {
    && at < |pr.postings|
    && next.postings == pr.postings[at := q]
    && BookedAts(next) == BookedAts(pr) + {at}
    && next.dropped == pr.dropped
  }

  lemma {:induction false} PromotedIsBooked(pr: Resolution, at: nat, q: Posting, b: BookedPosting, currency: string)
    requires at < |pr.postings|
    ensures BookedAs(pr, pr.Promote(at, q, b, currency), at, q)
  {
    var next := pr.Promote(at, q, b, currency);
    assert next.bookedDesc == pr.bookedDesc + [Ref(currency, at)];
    assert next.bookedDesc[|pr.bookedDesc|].at == at;
    forall x | x in BookedAts(pr) ensures x in BookedAts(next) {
      var k :| 0 <= k < |pr.bookedDesc| && pr.bookedDesc[k].at == x;
      assert next.bookedDesc[k].at == x;
    }
  }

  lemma {:induction false} UnknownFiledIsBooked(done: Run, at: nat, candidate: Posting, currency: string, r: Outcome)
    requires at < |done.pr.postings| && candidate.amount.Some?
    requires FileUnknown(done, at, candidate, currency, r).Ok? && FileUnknown(done, at, candidate, currency, r).value.1.None?
    ensures var next := FileUnknown(done, at, candidate, currency, r).value.0;
            BookedAs(done.pr, next.pr, at, next.pr.postings[at]) && next.diags == done.diags
  {
    var orig := done.pr.postings[at];
    var q := FileUnknown(done, at, candidate, currency, r).value.0.pr.postings[at];
    match r {
      case Augmented(Some(lot)) => PromotedIsBooked(done.pr, at, q, Record(q, Some(lot), None, false), currency);
      case Augmented(None) => PromotedIsBooked(done.pr, at, q, Record(q, None, None, true), currency);
      case Consumed(steps) =>
        var p := orig.(amount := candidate.amount);
        PromotedIsBooked(done.pr, at, q, Record(p, None, if |steps| == 0 then None else Some(steps[0]), true), currency);
      case Failed =>
      case Finding(_) =>
    }
  }

  /** A deferred posting that was interpolated carries the residual as its total cost. */
  lemma {:induction false} InterpolatedCost(done: Run, at: nat, candidate: Posting, currency: string, r: Outcome)
    requires at < |done.pr.postings| && candidate.amount.Some?
    requires FileUnknown(done, at, candidate, currency, r).Ok? && FileUnknown(done, at, candidate, currency, r).value.1.None?
    requires var orig := done.pr.postings[at];
             && orig.amount.Some? && orig.cost.Some? && orig.cost.value.Spec?
             && candidate.cost.Some? && candidate.cost.value.Spec?
    requires Interpolated(FileUnknown(done, at, candidate, currency, r).value.0.pr.postings[at])
    ensures var q := FileUnknown(done, at, candidate, currency, r).value.0.pr.postings[at];
            && q.amount == done.pr.postings[at].amount
            && q.cost.value.perUnit == candidate.cost.value.GetPerUnit()
            && q.cost.value.total == candidate.cost.value.GetTotal()
  {
  }

  /** A bare automatic posting that booked as cash is just its residual. */
  lemma {:induction false} AutoBecomesAmount(done: Run, at: nat, candidate: Posting, currency: string, r: Outcome)
    requires at < |done.pr.postings| && candidate.amount.Some?
    requires FileUnknown(done, at, candidate, currency, r).Ok? && FileUnknown(done, at, candidate, currency, r).value.1.None?
    requires done.pr.postings[at].amount.None? && done.pr.postings[at].price.None?
    requires FileUnknown(done, at, candidate, currency, r).value.0.pr.postings[at].cost.None?
    ensures PostingWeight(FileUnknown(done, at, candidate, currency, r).value.0.pr.postings[at]) == Ok(candidate.amount)
  {
  }

  lemma {:induction false} BookedAddsWeight(pr: Resolution, next: Resolution, at: nat, q: Posting, currency: string)
    requires BookedAs(pr, next, at, q) && at !in BookedAts(pr)
    ensures Booked(next, currency) == Booked(pr, currency) + WeightIn(q, currency)
  {
    PartSumGrows(pr.postings, next.postings, BookedAts(pr), at, |pr.postings|, currency);
  }

  // ------------------------------------------------------------------ the currency groups

  ghost predicate DeferredAt(pr: Resolution, x: nat) {
    x < |pr.postings| && pr.postings[x].amount.Some? && pr.postings[x].cost.Some? && pr.postings[x].cost.value.Spec?
  }

  /** The deferred posting `p` carries the whole residual of `currency` as its total cost. */
  ghost predicate Absorbs(p: Posting, residual: real, currency: string) {
    Interpolated(p) && p.amount.value.number != 0.0
    && p.cost.value.perUnit.None? && p.cost.value.total == Some(Amount(residual, currency))
  }

  lemma {:induction false} AbsorberWeight(p: Posting, residual: real, currency: string, c: string)
    requires Absorbs(p, residual, currency)
    ensures WeightIn(p, c) == if c == currency then WithSign(p.amount.value.number, residual) else 0.0
  {
  }

  lemma {:induction false} AmbiguityFails(postings: seq<Posting>, unknown: seq<nat>, currency: string)
    requires UnknownInRange(|postings|, unknown)
    ensures |Ambiguous(postings, unknown, currency)| == |unknown|
  {
    if unknown != [] {
      AmbiguityFails(postings, unknown[1..], currency);
    }
  }

  /** A group resolved without a failure: nobody bid, or its bidder was booked. */
  lemma {:induction false} OneGroup(acc: Resolved, g: Group, methods: Methods, txnDate: nat)
    requires UnknownInRange(|acc.run.pr.postings|, g.unknown)
    requires forall x :: x in g.unknown ==> DeferredAt(acc.run.pr, x) && x !in BookedAts(acc.run.pr)
    requires g.unknown != [] ==> g.currency != ""
    requires ResolveGroup(acc, g, methods, txnDate).Ok?
    requires |ResolveGroup(acc, g, methods, txnDate).value.failures| == |acc.failures|
    ensures var next := ResolveGroup(acc, g, methods, txnDate).value;
            && next.run.diags == acc.run.diags
            && |g.unknown| <= 1
            && if g.unknown == [] then
                 next.run == acc.run && next.free == acc.free + if g.residual != 0.0 then [Amount(g.residual, g.currency)] else []
               else
                 && next.free == acc.free
                 && BookedAs(acc.run.pr, next.run.pr, g.unknown[0], next.run.pr.postings[g.unknown[0]])
                 && (Interpolated(next.run.pr.postings[g.unknown[0]]) ==>
                      Absorbs(next.run.pr.postings[g.unknown[0]], g.residual, g.currency))
  {
    AmbiguityFails(acc.run.pr.postings, g.unknown, g.currency);
    if |g.unknown| == 1 {
      var at := g.unknown[0];
      assert at in g.unknown;
      var p := acc.run.pr.postings[at];
      var candidate := p.(cost := Some(SynthesizeCost(p.cost, Amount(g.residual, g.currency), txnDate)));
      var (done, r) := Booking(acc.run, candidate, methods, txnDate);
      UnknownFiledIsBooked(done, at, candidate, g.currency, r);
      var q := FileUnknown(done, at, candidate, g.currency, r).value.0.pr.postings[at];
      if Interpolated(q) {
        InterpolatedCost(done, at, candidate, g.currency, r);
      }
    }
  }

  lemma {:induction false} ResolveGroupFailuresGrow(acc: Resolved, g: Group, methods: Methods, txnDate: nat)
    requires UnknownInRange(|acc.run.pr.postings|, g.unknown) && ResolveGroup(acc, g, methods, txnDate).Ok?
    ensures |acc.failures| <= |ResolveGroup(acc, g, methods, txnDate).value.failures|
  {
  }

  lemma {:induction false} FailuresGrow(acc: Resolved, groups: seq<Group>, methods: Methods, txnDate: nat)
    requires GroupsInRange(|acc.run.pr.postings|, groups) && ResolveGroups(acc, groups, methods, txnDate).Ok?
    ensures |acc.failures| <= |ResolveGroups(acc, groups, methods, txnDate).value.failures|
    decreases |groups|
  {
    if groups != [] {
      assert groups[0] in groups;
      ResolveGroupFailuresGrow(acc, groups[0], methods, txnDate);
      FailuresGrow(ResolveGroup(acc, groups[0], methods, txnDate).value, groups[1..], methods, txnDate);
    }
  }

  ghost function AllUnknowns(groups: seq<Group>): set<nat> {
    set g, x | g in groups && x in g.unknown :: x
  }

  function OpenResiduals(groups: seq<Group>): seq<Amount> {
    if groups == [] then []
    else (if groups[0].unknown == [] && groups[0].residual != 0.0 then [Amount(groups[0].residual, groups[0].currency)] else [])
         + OpenResiduals(groups[1..])
  }

  /** The weight the bidders of `currency` ended up with. */
  function BidderWeight(groups: seq<Group>, postings: seq<Posting>, currency: string): real {
    if groups == [] then 0.0
    else
      var g := groups[0];
      (if g.unknown != [] && g.currency == currency && g.unknown[0] < |postings| && postings[g.unknown[0]].amount.Some?
       then WithSign(postings[g.unknown[0]].amount.value.number, g.residual) else 0.0)
      + BidderWeight(groups[1..], postings, currency)
  }

  /** Groups that resolve without a failure, over unknowns that are still open. */
  ghost predicate Smooth(acc: Resolved, groups: seq<Group>, free: seq<nat>, methods: Methods, txnDate: nat) {
    && GroupsInRange(|acc.run.pr.postings|, groups)
    && StillOpen(acc.run.pr, groups, free)
    && (forall g, x {:trigger x in g.unknown} :: g in groups && x in g.unknown ==> DeferredAt(acc.run.pr, x))
    && (forall g :: g in groups && g.unknown != [] ==> g.currency != "")
    && ResolveGroups(acc, groups, methods, txnDate).Ok?
    && |ResolveGroups(acc, groups, methods, txnDate).value.failures| == |acc.failures|
  }

  lemma {:induction false} UnknownsOfRest(groups: seq<Group>, pr: Resolution, free: seq<nat>, at: nat)
    requires groups != [] && StillOpen(pr, groups, free) && at in groups[0].unknown
    ensures at !in AllUnknowns(groups[1..])
  {
    assert forall j :: 0 <= j < |groups[1..]| ==> groups[1..][j] == groups[j + 1];
  }

  lemma {:induction false} FirstIsSmooth(acc: Resolved, groups: seq<Group>, free: seq<nat>, methods: Methods, txnDate: nat)
    requires groups != [] && Smooth(acc, groups, free, methods, txnDate)
    ensures UnknownInRange(|acc.run.pr.postings|, groups[0].unknown)
    ensures forall x :: x in groups[0].unknown ==> DeferredAt(acc.run.pr, x) && x !in BookedAts(acc.run.pr)
    ensures groups[0].unknown != [] ==> groups[0].currency != ""
    ensures ResolveGroup(acc, groups[0], methods, txnDate).Ok?
    ensures |ResolveGroup(acc, groups[0], methods, txnDate).value.failures| == |acc.failures|
  {
    var g := groups[0];
    assert g in groups;
    var next := ResolveGroup(acc, g, methods, txnDate).value;
    ResolveGroupFailuresGrow(acc, g, methods, txnDate);
    FailuresGrow(next, groups[1..], methods, txnDate);
  }

  lemma {:induction false} DeferredRemain(pr: Resolution, next: Resolution, groups: seq<Group>, free: seq<nat>)
    requires groups != [] && StillOpen(pr, groups, free)
    requires forall g, x {:trigger x in g.unknown} :: g in groups && x in g.unknown ==> DeferredAt(pr, x)
    requires next == pr || (groups[0].unknown != [] && groups[0].unknown[0] < |next.postings| && BookedAs(pr, next, groups[0].unknown[0], next.postings[groups[0].unknown[0]]))
    ensures forall g, x {:trigger x in g.unknown} :: g in groups[1..] && x in g.unknown ==> DeferredAt(next, x)
  {
    var rest := groups[1..];
    assert forall h :: h in rest ==> h in groups;
    forall h, x | h in rest && x in h.unknown ensures DeferredAt(next, x) {
      assert DeferredAt(pr, x);
      if next != pr {
        var at := groups[0].unknown[0];
        UnknownsOfRest(groups, pr, free, at);
        assert x in AllUnknowns(rest);
        assert next.postings[x] == pr.postings[x];
      }
    }
  }

  lemma {:induction false} RestIsSmooth(acc: Resolved, groups: seq<Group>, free: seq<nat>, methods: Methods, txnDate: nat)
    requires groups != [] && Smooth(acc, groups, free, methods, txnDate)
    ensures ResolveGroup(acc, groups[0], methods, txnDate).Ok?
    ensures Smooth(ResolveGroup(acc, groups[0], methods, txnDate).value, groups[1..], free, methods, txnDate)
  {
    FirstIsSmooth(acc, groups, free, methods, txnDate);
    OneGroup(acc, groups[0], methods, txnDate);
    var g, next := groups[0], ResolveGroup(acc, groups[0], methods, txnDate).value;
    assert g.unknown != [] ==> g.unknown[0] in g.unknown;
    OpenAfterFirst(acc.run.pr, next.run.pr, groups, free);
    DeferredRemain(acc.run.pr, next.run.pr, groups, free);
  }

  lemma {:induction false} UnknownsSplit(groups: seq<Group>)
    requires groups != []
    ensures AllUnknowns(groups) == AllUnknowns(groups[1..]) + set x | x in groups[0].unknown
  {
    assert groups == [groups[0]] + groups[1..];
  }

  /** Resolving the groups books exactly their unknowns and reports nothing. */
  lemma {:induction false} GroupsBook(acc: Resolved, groups: seq<Group>, free: seq<nat>, methods: Methods, txnDate: nat)
    requires Smooth(acc, groups, free, methods, txnDate)
    ensures var end := ResolveGroups(acc, groups, methods, txnDate).value.run;
            && end.diags == acc.run.diags && end.pr.dropped == acc.run.pr.dropped
            && BookedAts(end.pr) == BookedAts(acc.run.pr) + AllUnknowns(groups)
            && (forall x: nat :: x < |acc.run.pr.postings| && x !in AllUnknowns(groups) ==>
                 end.pr.postings[x] == acc.run.pr.postings[x])
    decreases |groups|
  {
    if groups != [] {
      FirstIsSmooth(acc, groups, free, methods, txnDate);
      RestIsSmooth(acc, groups, free, methods, txnDate);
      OneGroup(acc, groups[0], methods, txnDate);
      UnknownsSplit(groups);
      GroupsBook(ResolveGroup(acc, groups[0], methods, txnDate).value, groups[1..], free, methods, txnDate);
      if groups[0].unknown != [] {
        assert groups[0].unknown == [groups[0].unknown[0]];
      }
    }
  }

  /** What is forwarded is what nobody bid for. */
  lemma {:induction false} GroupsForward(acc: Resolved, groups: seq<Group>, free: seq<nat>, methods: Methods, txnDate: nat)
    requires Smooth(acc, groups, free, methods, txnDate)
    ensures ResolveGroups(acc, groups, methods, txnDate).value.free == acc.free + OpenResiduals(groups)
    decreases |groups|
  {
    if groups != [] {
      RestIsSmooth(acc, groups, free, methods, txnDate);
      var next := ResolveGroup(acc, groups[0], methods, txnDate).value;
      GroupsForward(next, groups[1..], free, methods, txnDate);
      FirstForwards(acc, groups, free, methods, txnDate);
    }
  }

  lemma {:induction false} FirstForwards(acc: Resolved, groups: seq<Group>, free: seq<nat>, methods: Methods, txnDate: nat)
    requires groups != [] && Smooth(acc, groups, free, methods, txnDate)
    ensures |groups[0].unknown| <= 1 && ResolveGroup(acc, groups[0], methods, txnDate).Ok?
    ensures ResolveGroup(acc, groups[0], methods, txnDate).value.free + OpenResiduals(groups[1..])
            == acc.free + OpenResiduals(groups)
  {
    FirstIsSmooth(acc, groups, free, methods, txnDate);
    OneGroup(acc, groups[0], methods, txnDate);
    ForwardingOne(acc.free, ResolveGroup(acc, groups[0], methods, txnDate).value.free, groups);
  }

  lemma {:induction false} ForwardingOne(before: seq<Amount>, after: seq<Amount>, groups: seq<Group>)
    requires groups != []
    requires after == before + if groups[0].unknown == [] && groups[0].residual != 0.0 then [Amount(groups[0].residual, groups[0].currency)] else []
    ensures after + OpenResiduals(groups[1..]) == before + OpenResiduals(groups)
  {
  }

  /** No currency has two bidders. */
  lemma {:induction false} GroupsHaveOneBidder(acc: Resolved, groups: seq<Group>, free: seq<nat>, methods: Methods, txnDate: nat)
    requires Smooth(acc, groups, free, methods, txnDate)
    ensures forall g :: g in groups ==> |g.unknown| <= 1
    decreases |groups|
  {
    if groups != [] {
      RestIsSmooth(acc, groups, free, methods, txnDate);
      FirstForwards(acc, groups, free, methods, txnDate);
      GroupsHaveOneBidder(ResolveGroup(acc, groups[0], methods, txnDate).value, groups[1..], free, methods, txnDate);
      assert groups == [groups[0]] + groups[1..];
    }
  }

  /** When every bidder was interpolated, the booked weight grows by theirs. */
  lemma {:induction false} GroupsWeigh(acc: Resolved, groups: seq<Group>, free: seq<nat>, methods: Methods, txnDate: nat, c: string)
    requires Smooth(acc, groups, free, methods, txnDate)
    requires forall g, x {:trigger x in g.unknown} :: g in groups && x in g.unknown ==>
               Interpolated(ResolveGroups(acc, groups, methods, txnDate).value.run.pr.postings[x])
    ensures var end := ResolveGroups(acc, groups, methods, txnDate).value.run.pr;
            && Booked(end, c) == Booked(acc.run.pr, c) + BidderWeight(groups, end.postings, c)
            && forall g, x {:trigger x in g.unknown} :: g in groups && x in g.unknown ==> Absorbs(end.postings[x], g.residual, g.currency)
    decreases |groups|
  {
    if groups != [] {
      var g, next, rest := groups[0], ResolveGroup(acc, groups[0], methods, txnDate).value, groups[1..];
      FirstIsSmooth(acc, groups, free, methods, txnDate);
      RestIsSmooth(acc, groups, free, methods, txnDate);
      OneGroup(acc, g, methods, txnDate);
      assert g in groups && forall h :: h in rest ==> h in groups;
      GroupsWeigh(next, rest, free, methods, txnDate, c);
      if g.unknown != [] {
        var at := g.unknown[0];
        assert at in g.unknown && g.unknown == [at];
        UnknownsOfRest(groups, acc.run.pr, free, at);
        GroupsBook(next, rest, free, methods, txnDate);
        BookedAddsWeight(acc.run.pr, next.run.pr, at, next.run.pr.postings[at], c);
        AbsorberWeight(next.run.pr.postings[at], g.residual, g.currency, c);
      }
    }
  }

  // ------------------------------------------------------------------ the free unknown

  /** The only free unknown, an automatic posting booked as cash, is its residual. */
  lemma {:induction false} FreeWeighs(run: Run, x: nat, residuals: seq<Amount>, methods: Methods, txnDate: nat, c: string)
    requires x < |run.pr.postings| && x !in BookedAts(run.pr)
    requires run.pr.postings[x].amount.None? && run.pr.postings[x].price.None?
    requires AbsorbFree(run, [x], residuals, methods, txnDate).Ok?
    requires AbsorbFree(run, [x], residuals, methods, txnDate).value.diags == run.diags
    requires AbsorbFree(run, [x], residuals, methods, txnDate).value.pr.postings[x].cost.None?
    ensures var end := AbsorbFree(run, [x], residuals, methods, txnDate).value;
            && |residuals| == 1
            && BookedAs(run.pr, end.pr, x, end.pr.postings[x])
            && Booked(end.pr, c) == Booked(run.pr, c) + if c == residuals[0].currency then residuals[0].number else 0.0
  {
    var (next, found) := ResolveFree(run, [x], residuals, methods, txnDate).value;
    FreeFindingsAreReported(run, x, residuals, methods, txnDate);
    assert found == [];
    var candidate := FreeCandidate(run.pr.postings[x], residuals[0], txnDate);
    var (done, r) := Booking(run, candidate, methods, txnDate);
    UnknownFiledIsBooked(done, x, candidate, residuals[0].currency, r);
    AutoBecomesAmount(done, x, candidate, residuals[0].currency, r);
    BookedAddsWeight(run.pr, next.pr, x, next.pr.postings[x], c);
  }

  lemma {:induction false} FreeFindingsAreReported(run: Run, x: nat, residuals: seq<Amount>, methods: Methods, txnDate: nat)
    requires x < |run.pr.postings| && AbsorbFree(run, [x], residuals, methods, txnDate).Ok?
    ensures var (next, found) := ResolveFree(run, [x], residuals, methods, txnDate).value;
            found != [] ==> |AbsorbFree(run, [x], residuals, methods, txnDate).value.diags| > |run.diags|
  {
    ResolveFreeReportsNothing(run, [x], residuals, methods, txnDate);
  }

  lemma {:induction false} BookUnknownReportsNothing(run: Run, at: nat, candidate: Posting, currency: string, methods: Methods, txnDate: nat)
    requires at < |run.pr.postings| && candidate.amount.Some?
    requires BookUnknown(run, at, candidate, currency, methods, txnDate).Ok?
    ensures BookUnknown(run, at, candidate, currency, methods, txnDate).value.0.diags == run.diags
  {
  }

  // ------------------------------------------------------------------ sums over the groups

  lemma {:induction false} OpenResidualsOfBids(bids: seq<Bid>, sums: Sums, more: seq<Group>)
    requires forall b :: b in bids ==> b.unknown != []
    ensures OpenResiduals(BidGroups(bids, sums) + more) == OpenResiduals(more)
  {
    var gs := BidGroups(bids, sums);
    if bids == [] {
      assert gs + more == more;
    } else {
      OpenResidualsOfBids(bids[1..], sums, more);
      assert (gs + more)[1..] == BidGroups(bids[1..], sums) + more;
      assert (gs + more)[0] == gs[0];
    }
  }

  /** The residual of an unclaimed currency that has a sum. */
  ghost predicate FromSums(r: Amount, sums: Sums, bids: seq<Bid>) {
    r.number == -SumFor(sums, r.currency) && !Claimed(bids, r.currency) && exists s :: s in sums && s.currency == r.currency
  }

  lemma {:induction false} FromRest(r: Amount, sums: Sums, bids: seq<Bid>)
    requires sums != [] && DistinctCurrencies(sums) && FromSums(r, sums[1..], bids)
    ensures FromSums(r, sums, bids)
  {
    var s :| s in sums[1..] && s.currency == r.currency;
    var k :| 0 <= k < |sums[1..]| && sums[1..][k] == s;
    assert sums[k + 1] == s && s in sums;
  }

  lemma {:induction false} OpenResidualsStep(sums: Sums, bids: seq<Bid>)
    requires sums != []
    ensures OpenResiduals(OpenGroups(sums, bids))
            == (if Claimed(bids, sums[0].currency) || sums[0].number == 0.0 then [] else [Amount(-sums[0].number, sums[0].currency)])
               + OpenResiduals(OpenGroups(sums[1..], bids))
  {
    var gs, rest := OpenGroups(sums, bids), OpenGroups(sums[1..], bids);
    if !Claimed(bids, sums[0].currency) && sums[0].number != 0.0 {
      assert gs == [Group(sums[0].currency, [], -sums[0].number)] + rest && gs[1..] == rest;
    }
  }

  /** What is forwarded to the free bucket, seen from the sums. */
  lemma {:induction false} OpenResidualsFromSums(sums: Sums, bids: seq<Bid>)
    requires DistinctCurrencies(sums)
    ensures forall r :: r in OpenResiduals(OpenGroups(sums, bids)) ==> FromSums(r, sums, bids)
  {
    if sums != [] {
      OpenResidualsFromSums(sums[1..], bids);
      OpenResidualsStep(sums, bids);
      forall r | r in OpenResiduals(OpenGroups(sums, bids)) ensures FromSums(r, sums, bids) {
        if r in OpenResiduals(OpenGroups(sums[1..], bids)) {
          FromRest(r, sums, bids);
        } else {
          assert sums[0] in sums;
        }
      }
    }
  }

  lemma {:induction false} SumsAreForwarded(sums: Sums, bids: seq<Bid>, c: string)
    requires SumFor(sums, c) != 0.0 && !Claimed(bids, c)
    ensures Amount(-SumFor(sums, c), c) in OpenResiduals(OpenGroups(sums, bids))
  {
    OpenResidualsStep(sums, bids);
    if sums[0].currency != c {
      SumsAreForwarded(sums[1..], bids, c);
    }
  }

  lemma {:induction false} BidderWeightOfOpen(groups: seq<Group>, postings: seq<Posting>, c: string)
    requires forall g :: g in groups ==> g.unknown == []
    ensures BidderWeight(groups, postings, c) == 0.0
  {
    if groups != [] {
      BidderWeightOfOpen(groups[1..], postings, c);
    }
  }

  lemma {:induction false} BidderWeightSplit(xs: seq<Group>, ys: seq<Group>, postings: seq<Posting>, c: string)
    ensures BidderWeight(xs + ys, postings, c) == BidderWeight(xs, postings, c) + BidderWeight(ys, postings, c)
  {
    if xs == [] {
      assert xs + ys == ys;
    } else {
      assert (xs + ys)[1..] == xs[1..] + ys;
      BidderWeightSplit(xs[1..], ys, postings, c);
    }
  }

  lemma {:induction false} UnclaimedWeighsNothing(bids: seq<Bid>, sums: Sums, postings: seq<Posting>, c: string)
    requires forall b :: b in bids ==> b.currency != c
    ensures BidderWeight(BidGroups(bids, sums), postings, c) == 0.0
  {
    if bids != [] {
      UnclaimedWeighsNothing(bids[1..], sums, postings, c);
      assert BidGroups(bids, sums)[1..] == BidGroups(bids[1..], sums);
      assert bids[0] in bids;
    }
  }

  /** At most one bidder takes part in any currency. */
  lemma {:induction false} BidderWeighs(bids: seq<Bid>, sums: Sums, postings: seq<Posting>, k: nat)
    requires forall i, j :: 0 <= i < j < |bids| ==> bids[i].currency != bids[j].currency
    requires k < |bids| && bids[k].unknown != [] && bids[k].unknown[0] < |postings| && postings[bids[k].unknown[0]].amount.Some?
    ensures BidderWeight(BidGroups(bids, sums), postings, bids[k].currency)
            == WithSign(postings[bids[k].unknown[0]].amount.value.number, -SumFor(sums, bids[k].currency))
  {
    var rest := bids[1..];
    assert BidGroups(bids, sums)[1..] == BidGroups(rest, sums);
    if k == 0 {
      forall b | b in rest ensures b.currency != bids[0].currency {
        var j :| 0 <= j < |rest| && rest[j] == b;
        assert bids[j + 1] == b;
      }
      UnclaimedWeighsNothing(rest, sums, postings, bids[0].currency);
    } else {
      BidderWeighs(rest, sums, postings, k - 1);
    }
  }

  // ------------------------------------------------------------------ the theorem

  /** The weight of `units` makes up for `booked` exactly when they lie on opposite sides. */
  lemma {:induction false} WithSignOfOpposed(units: real, booked: real)
    requires units != 0.0
    ensures WithSign(units, -booked) == -booked <==> units * booked <= 0.0
  {
    if units < 0.0 && booked < 0.0 {
      assert units * booked > 0.0;
    } else if units < 0.0 && booked > 0.0 {
      assert units * booked < 0.0;
    } else if units > 0.0 && booked > 0.0 {
      assert units * booked > 0.0;
    } else if units > 0.0 && booked < 0.0 {
      assert units * booked < 0.0;
    }
  }

  /** What was written stays: a posting with an amount keeps it. */
  ghost predicate AmountsStand(pr: Resolution, next: Resolution) {
    && |next.postings| == |pr.postings|
    && forall i: nat :: i < |pr.postings| && pr.postings[i].amount.Some? ==> next.postings[i].amount == pr.postings[i].amount
  }

  lemma {:induction false} BookUnknownKeepsAmounts(run: Run, at: nat, candidate: Posting, currency: string, methods: Methods, txnDate: nat)
    requires at < |run.pr.postings| && candidate.amount.Some?
    requires run.pr.postings[at].amount.Some? ==> candidate.amount == run.pr.postings[at].amount
    requires BookUnknown(run, at, candidate, currency, methods, txnDate).Ok?
    ensures AmountsStand(run.pr, BookUnknown(run, at, candidate, currency, methods, txnDate).value.0.pr)
  {
    var (done, r) := Booking(run, candidate, methods, txnDate);
    FilingKeepsAmounts(done, at, candidate, currency, r);
  }

  lemma {:induction false} FilingKeepsAmounts(done: Run, at: nat, candidate: Posting, currency: string, r: Outcome)
    requires at < |done.pr.postings| && candidate.amount.Some?
    requires done.pr.postings[at].amount.Some? ==> candidate.amount == done.pr.postings[at].amount
    requires FileUnknown(done, at, candidate, currency, r).Ok?
    ensures AmountsStand(done.pr, FileUnknown(done, at, candidate, currency, r).value.0.pr)
  {
  }

  lemma {:induction false} ResolveGroupsKeepAmounts(acc: Resolved, groups: seq<Group>, methods: Methods, txnDate: nat)
    requires GroupsInRange(|acc.run.pr.postings|, groups) && ResolveGroups(acc, groups, methods, txnDate).Ok?
    ensures AmountsStand(acc.run.pr, ResolveGroups(acc, groups, methods, txnDate).value.run.pr)
    decreases |groups|
  {
    if groups != [] {
      assert groups[0] in groups;
      ResolveGroupKeepsAmounts(acc, groups[0], methods, txnDate);
      ResolveGroupsKeepAmounts(ResolveGroup(acc, groups[0], methods, txnDate).value, groups[1..], methods, txnDate);
    }
  }

  lemma {:induction false} ResolveGroupKeepsAmounts(acc: Resolved, g: Group, methods: Methods, txnDate: nat)
    requires UnknownInRange(|acc.run.pr.postings|, g.unknown) && ResolveGroup(acc, g, methods, txnDate).Ok?
    ensures AmountsStand(acc.run.pr, ResolveGroup(acc, g, methods, txnDate).value.run.pr)
  {
    if |g.unknown| == 1 {
      var p := acc.run.pr.postings[g.unknown[0]];
      if p.amount.value.number != 0.0 {
        BookUnknownKeepsAmounts(acc.run, g.unknown[0],
                                p.(cost := Some(SynthesizeCost(p.cost, Amount(g.residual, g.currency), txnDate))), g.currency, methods, txnDate);
      }
    }
  }

  lemma {:induction false} ResolveFreeKeepsAmounts(run: Run, free: seq<nat>, residuals: seq<Amount>, methods: Methods, txnDate: nat)
    requires UnknownInRange(|run.pr.postings|, free) && ResolveFree(run, free, residuals, methods, txnDate).Ok?
    ensures AmountsStand(run.pr, ResolveFree(run, free, residuals, methods, txnDate).value.0.pr)
  {
    if |free| == 1 && |residuals| == 1 {
      var candidate := FreeCandidate(run.pr.postings[free[0]], residuals[0], txnDate);
      BookUnknownKeepsAmounts(run, free[0], candidate, residuals[0].currency, methods, txnDate);
    }
  }

  lemma {:induction false} FailFreeKeepsAmounts(pr: Resolution, free: seq<nat>)
    ensures FailFree(pr, free).postings == pr.postings
    decreases |free|
  {
    if free != [] {
      FailFreeKeepsAmounts(pr.RecordUnknownFailed(free[0], ""), free[1..]);
    }
  }

  lemma {:induction false} AbsorbFreeKeepsAmounts(run: Run, free: seq<nat>, residuals: seq<Amount>, methods: Methods, txnDate: nat)
    requires UnknownInRange(|run.pr.postings|, free) && AbsorbFree(run, free, residuals, methods, txnDate).Ok?
    ensures AmountsStand(run.pr, AbsorbFree(run, free, residuals, methods, txnDate).value.pr)
  {
    ResolveFreeKeepsAmounts(run, free, residuals, methods, txnDate);
    FailFreeKeepsAmounts(ResolveFree(run, free, residuals, methods, txnDate).value.0.pr, free);
  }

  lemma {:induction false} HalvesKeepAmounts(mid: Run, groups: seq<Group>, end: Resolved, run: Run, x: nat, methods: Methods, txnDate: nat)
    requires Halves(mid, groups, end, run, x, methods, txnDate)
    ensures AmountsStand(mid.pr, run.pr)
  {
    ResolveGroupsKeepAmounts(Resolved(mid, [], []), groups, methods, txnDate);
    AbsorbFreeKeepsAmounts(end.run, [x], end.free, methods, txnDate);
  }

  lemma {:induction false} ResolveGroupsReportNothing(acc: Resolved, groups: seq<Group>, methods: Methods, txnDate: nat)
    requires GroupsInRange(|acc.run.pr.postings|, groups) && ResolveGroups(acc, groups, methods, txnDate).Ok?
    ensures ResolveGroups(acc, groups, methods, txnDate).value.run.diags == acc.run.diags
    decreases |groups|
  {
    if groups != [] {
      assert groups[0] in groups;
      ResolveGroupReportsNothing(acc, groups[0], methods, txnDate);
      ResolveGroupsReportNothing(ResolveGroup(acc, groups[0], methods, txnDate).value, groups[1..], methods, txnDate);
    }
  }

  lemma {:induction false} ResolveGroupReportsNothing(acc: Resolved, g: Group, methods: Methods, txnDate: nat)
    requires UnknownInRange(|acc.run.pr.postings|, g.unknown) && ResolveGroup(acc, g, methods, txnDate).Ok?
    ensures ResolveGroup(acc, g, methods, txnDate).value.run.diags == acc.run.diags
  {
    if |g.unknown| == 1 {
      var p := acc.run.pr.postings[g.unknown[0]];
      if p.amount.value.number != 0.0 {
        BookUnknownReportsNothing(acc.run, g.unknown[0],
                                  p.(cost := Some(SynthesizeCost(p.cost, Amount(g.residual, g.currency), txnDate))), g.currency, methods, txnDate);
      }
    }
  }

  lemma {:induction false} FailuresAreReported(run: Run, failures: seq<Failure>)
    ensures |ApplyFailures(run, failures).diags| == |run.diags| + |failures|
    decreases |failures|
  {
    if failures != [] {
      var f := failures[0];
      FailuresAreReported(run.Report(f.diag).(pr := run.pr.RecordUnknownFailed(f.at, f.currency)), failures[1..]);
    }
  }

  lemma {:induction false} ResolveFreeReportsNothing(run: Run, free: seq<nat>, residuals: seq<Amount>, methods: Methods, txnDate: nat)
    requires UnknownInRange(|run.pr.postings|, free) && ResolveFree(run, free, residuals, methods, txnDate).Ok?
    ensures var (next, found) := ResolveFree(run, free, residuals, methods, txnDate).value;
            next.diags == run.diags && (|free| > 1 ==> found != [])
  {
    if |free| == 1 && |residuals| == 1 {
      var candidate := FreeCandidate(run.pr.postings[free[0]], residuals[0], txnDate);
      BookUnknownReportsNothing(run, free[0], candidate, residuals[0].currency, methods, txnDate);
    }
  }

  lemma {:induction false} FreeReports(run: Run, free: seq<nat>, residuals: seq<Amount>, methods: Methods, txnDate: nat)
    requires UnknownInRange(|run.pr.postings|, free) && AbsorbFree(run, free, residuals, methods, txnDate).Ok?
    ensures run.diags <= AbsorbFree(run, free, residuals, methods, txnDate).value.diags
    ensures |free| > 1 ==> |AbsorbFree(run, free, residuals, methods, txnDate).value.diags| > |run.diags|
  {
    ResolveFreeReportsNothing(run, free, residuals, methods, txnDate);
  }

  /** Without findings, pass 2 had no failure and at most one free unknown. */
  lemma {:induction false} QuietPass2(mid: Run, methods: Methods, txnDate: nat)
    requires RefsInRange(mid.pr) && Pass2(mid, methods, txnDate).Ok?
    requires |Pass2(mid, methods, txnDate).value.diags| <= |mid.diags|
    ensures var (groups, free) := Residuals(mid.pr).value;
            && GroupsInRange(|mid.pr.postings|, groups) && UnknownInRange(|mid.pr.postings|, free)
            && |free| <= 1
            && ResolveGroups(Resolved(mid, [], []), groups, methods, txnDate).Ok?
            && (var resolved := ResolveGroups(Resolved(mid, [], []), groups, methods, txnDate).value;
                && resolved.failures == [] && resolved.run.diags == mid.diags
                && AbsorbFree(resolved.run, free, resolved.free, methods, txnDate) == Pass2(mid, methods, txnDate))
            && Pass2(mid, methods, txnDate).value.diags == mid.diags
  {
    var (groups, free) := Residuals(mid.pr).value;
    ResidualsInRange(mid.pr);
    ResolveGroupsReportNothing(Resolved(mid, [], []), groups, methods, txnDate);
    var resolved := ResolveGroups(Resolved(mid, [], []), groups, methods, txnDate).value;
    FailuresAreReported(resolved.run, resolved.failures);
    FreeReports(ApplyFailures(resolved.run, resolved.failures), free, resolved.free, methods, txnDate);
    FreeReports(resolved.run, free, resolved.free, methods, txnDate);
  }

  /** How every unknown was resolved: the free one as cash, the deferred ones by augmentation. */
  ghost predicate ResolvedPlainly(mid: Resolution, postings: seq<Posting>) {
    forall r :: r in mid.unknownDesc ==>
      r.at < |postings| && if r.currency == "" then postings[r.at].cost.None? else Interpolated(postings[r.at])
  }

  /**
   Before interpolation: the units of the currency's bidder, if it has one, do not
   lie on the side of what is already booked in that currency.
   */
  ghost predicate BidderFits(mid: Resolution, c: string)
    requires RefsInRange(mid)
  {
    forall r :: r in mid.unknownDesc && r.currency == c != "" ==>
      mid.postings[r.at].amount.Some? && mid.postings[r.at].amount.value.number * Booked(mid, c) <= 0.0
  }

  /** What pass 1 leaves when nothing was reported. */
  lemma {:induction false} QuietPass1(state: State, diags: seq<Diag>, postings: seq<Posting>, methods: Methods, txnDate: nat)
    requires StructureError(postings, false).None? && HasAuto(postings)
    requires Pass1(Start(state, diags), postings, methods, txnDate).Ok?
    requires Pass1(Start(state, diags), postings, methods, txnDate).value.diags == diags
    ensures var mid := Pass1(Start(state, diags), postings, methods, txnDate).value;
            && Sorted(mid.pr) && Stamped(mid.pr) && mid.pr.dropped == {}
            && exists r :: r in mid.pr.unknownDesc && mid.pr.postings[r.at].amount.None?
  {
    var start := Start(state, diags);
    StructureMeansBare(postings, false);
    Pass1KeepsSorted(start, postings, methods, txnDate);
    Pass1KeepsStamped(start, postings, methods, txnDate);
  }

  /** The only free unknown is the automatic posting. */
  lemma {:induction false} FreeIsAuto(mid: Resolution) returns (x: nat)
    requires Sorted(mid) && Stamped(mid) && |FreeUnknowns(mid.unknownDesc)| <= 1
    requires exists r :: r in mid.unknownDesc && mid.postings[r.at].amount.None?
    ensures FreeUnknowns(mid.unknownDesc) == [x] && x < |mid.postings| && mid.postings[x].amount.None?
    ensures Ref("", x) in mid.unknownDesc && mid.postings[x].price.None?
  {
    var r :| r in mid.unknownDesc && mid.postings[r.at].amount.None?;
    assert mid.postings[r.at] in mid.postings;
    assert r == Ref("", r.at);
    FreeAreUnpinned(mid.unknownDesc);
    x := r.at;
    assert x in FreeUnknowns(mid.unknownDesc);
  }

  /** The residual groups of a sorted, undropped resolution, seen through the bids. */
  lemma {:induction false} GroupsAreBids(pr: Resolution) returns (sums: Sums, bids: seq<Bid>)
    requires Sorted(pr) && pr.dropped == {} && pr.unknownDesc != [] && Residuals(pr).Ok?
    ensures WeightSums(pr.postings, pr.bookedDesc, []) == Ok(sums) && bids == Bids(pr.unknownDesc, {}, [])
    ensures Residuals(pr).value.0 == BidGroups(bids, sums) + OpenGroups(sums, bids)
    ensures DistinctCurrencies(sums) && forall c :: SumFor(sums, c) == Booked(pr, c)
    ensures BidsComeFrom(bids, pr.unknownDesc)
    ensures forall r :: r in pr.unknownDesc && r.currency != "" ==> BidFor(bids, r.currency, r.at)
    ensures forall b :: b in bids ==> b.unknown != []
  {
    sums, bids := WeightSums(pr.postings, pr.bookedDesc, []).value, Bids(pr.unknownDesc, {}, []);
    BidsTraceBack(pr.unknownDesc, {}, [], pr.unknownDesc);
    forall c ensures SumFor(sums, c) == Booked(pr, c) && DistinctCurrencies(sums) {
      PartSumOfNone(pr.postings, |pr.postings|, c);
      WeightSumsAreRight(pr.postings, pr.bookedDesc, [], {}, c);
      assert {} + AtsOf(pr.bookedDesc) == BookedAts(pr);
    }
    assert SumFor(sums, "") == Booked(pr, "");
    forall r | r in pr.unknownDesc && r.currency != "" ensures BidFor(bids, r.currency, r.at) {
      assert r == Ref(r.currency, r.at);
      BidsCover(pr.unknownDesc, [], r.currency, r.at);
    }
    BidsNonempty(pr.unknownDesc, []);
  }

  lemma {:induction false} PartSumOfNone(postings: seq<Posting>, n: nat, c: string)
    requires n <= |postings|
    ensures PartSum(postings, {}, n, c) == 0.0
  {
    if n > 0 {
      PartSumOfNone(postings, n - 1, c);
    }
  }

  lemma {:induction false} BidsNonempty(refs: seq<Ref>, bids: seq<Bid>)
    requires forall b :: b in bids ==> b.unknown != []
    ensures forall b :: b in Bids(refs, {}, bids) ==> b.unknown != []
    decreases |refs|
  {
    if refs != [] {
      if refs[0].currency == "" {
        BidsNonempty(refs[1..], bids);
      } else {
        AddBidNonempty(bids, refs[0].currency, refs[0].at);
        BidsNonempty(refs[1..], AddBid(bids, refs[0].currency, refs[0].at));
      }
    }
  }

  lemma {:induction false} AddBidNonempty(bids: seq<Bid>, currency: string, at: nat)
    requires forall b :: b in bids ==> b.unknown != []
    ensures forall b :: b in AddBid(bids, currency, at) ==> b.unknown != []
  {
    if bids != [] {
      assert forall b :: b in bids[1..] ==> b in bids;
      AddBidNonempty(bids[1..], currency, at);
    }
  }

  lemma {:induction false} BiddersAreDeferred(pr: Resolution, sums: Sums, bids: seq<Bid>)
    requires Sorted(pr) && Stamped(pr) && BidsComeFrom(bids, pr.unknownDesc)
    ensures forall g, y {:trigger y in g.unknown} :: g in BidGroups(bids, sums) + OpenGroups(sums, bids) && y in g.unknown ==> DeferredAt(pr, y)
  {
    BidGroupsAreBids(bids, sums);
    OpenGroupsAreUnclaimed(sums, bids);
    forall g, y | g in BidGroups(bids, sums) + OpenGroups(sums, bids) && y in g.unknown ensures DeferredAt(pr, y) {
      if g in BidGroups(bids, sums) {
        var k :| 0 <= k < |bids| && BidGroups(bids, sums)[k] == g;
        assert bids[k] in bids;
        assert Ref(g.currency, y) in pr.unknownDesc;
        assert pr.postings[y] in pr.postings;
      }
    }
  }

  /** The groups of a quiet pass 2 resolve smoothly, apart from the free unknown `x`. */
  lemma {:induction false} QuietGroupsAreSmooth(mid: Run, methods: Methods, txnDate: nat, x: nat, sums: Sums, bids: seq<Bid>)
    requires Sorted(mid.pr) && Stamped(mid.pr) && Pass2(mid, methods, txnDate).Ok?
    requires |Pass2(mid, methods, txnDate).value.diags| <= |mid.diags|
    requires Residuals(mid.pr).Ok? && Residuals(mid.pr).value.1 == [x]
    requires Residuals(mid.pr).value.0 == BidGroups(bids, sums) + OpenGroups(sums, bids)
    requires BidsComeFrom(bids, mid.pr.unknownDesc)
    ensures Smooth(Resolved(mid, [], []), Residuals(mid.pr).value.0, [x], methods, txnDate)
  {
    QuietPass2(mid, methods, txnDate);
    ResidualsAreOpen(mid.pr);
    BidGroupsAreBids(bids, sums);
    OpenGroupsAreUnclaimed(sums, bids);
    BiddersAreDeferred(mid.pr, sums, bids);
  }

  lemma {:induction false} BidIsGroup(bids: seq<Bid>, sums: Sums, more: seq<Group>, k: nat)
    requires k < |bids|
    ensures Group(bids[k].currency, bids[k].unknown, -SumFor(sums, bids[k].currency)) in BidGroups(bids, sums) + more
  {
    BidGroupsAreBids(bids, sums);
    var gs := BidGroups(bids, sums);
    assert (gs + more)[k] == Group(bids[k].currency, bids[k].unknown, -SumFor(sums, bids[k].currency));
  }

  /** Every unknown that bid is an unknown of some group. */
  lemma {:induction false} PinnedUnknown(bids: seq<Bid>, sums: Sums, more: seq<Group>, r: Ref)
    requires BidFor(bids, r.currency, r.at)
    ensures r.at in AllUnknowns(BidGroups(bids, sums) + more)
  {
    var b :| b in bids && b.currency == r.currency && r.at in b.unknown;
    var k :| 0 <= k < |bids| && bids[k] == b;
    BidIsGroup(bids, sums, more, k);
  }

  /** After a quiet pass 2 every posting is booked. */
  lemma {:induction false} EverythingIsBooked(pr: Resolution, groups: seq<Group>, x: nat, end: set<nat>)
    requires Sorted(pr) && Stamped(pr)
    requires forall r :: r in pr.unknownDesc && r.currency != "" ==> r.at in AllUnknowns(groups)
    requires FreeUnknowns(pr.unknownDesc) == [x]
    requires end == BookedAts(pr) + AllUnknowns(groups) + {x}
    ensures forall i: nat :: i < |pr.postings| ==> i in end
  {
    FreeAreUnpinned(pr.unknownDesc);
    forall i: nat | i < |pr.postings| ensures i in end {
      if i in UnknownAts(pr) {
        var k :| 0 <= k < |pr.unknownDesc| && pr.unknownDesc[k].at == i;
        var r := pr.unknownDesc[k];
        assert r in pr.unknownDesc && r == Ref(r.currency, i);
        if r.currency == "" {
          assert i in FreeUnknowns(pr.unknownDesc);
        }
      }
    }
  }

  /** The bidders are still what they became when their group was resolved. */
  lemma {:induction false} BiddersInterpolated(mid: Resolution, run: Resolution, end: Resolution, groups: seq<Group>, bids: seq<Bid>, sums: Sums, x: nat)
    requires StillOpen(mid, groups, [x]) && groups == BidGroups(bids, sums) + OpenGroups(sums, bids)
    requires BidsComeFrom(bids, mid.unknownDesc) && ResolvedPlainly(mid, run.postings)
    requires x < |run.postings| && BookedAs(end, run, x, run.postings[x])
    ensures forall g, y {:trigger y in g.unknown} :: g in groups && y in g.unknown ==>
              y < |end.postings| && Interpolated(end.postings[y]) && end.postings[y] == run.postings[y]
  {
    BidGroupsAreBids(bids, sums);
    OpenGroupsAreUnclaimed(sums, bids);
    forall g, y | g in groups && y in g.unknown
      ensures y < |end.postings| && Interpolated(end.postings[y]) && end.postings[y] == run.postings[y]
    {
      assert g in BidGroups(bids, sums);
      var k :| 0 <= k < |bids| && BidGroups(bids, sums)[k] == g;
      assert bids[k] in bids;
      assert Ref(g.currency, y) in mid.unknownDesc && g.currency != "";
      assert x in [x];
    }
  }

  /** Bids, sums and postings once every bidder absorbed its currency's residual. */
  ghost predicate Settled(mid: Resolution, postings: seq<Posting>, sums: Sums, bids: seq<Bid>) {
    && DistinctCurrencies(sums)
    && BidsComeFrom(bids, mid.unknownDesc)
    && RefsInRange(mid)
    && (forall c :: SumFor(sums, c) == Booked(mid, c))
    && (forall r :: r in mid.unknownDesc && r.currency != "" ==>
         && BidFor(bids, r.currency, r.at)
         && r.at < |postings| && postings[r.at].amount == mid.postings[r.at].amount)
    && (forall b :: b in bids ==> |b.unknown| == 1)
    && (forall b, y {:trigger y in b.unknown} :: b in bids && y in b.unknown ==>
         y < |postings| && Absorbs(postings[y], -SumFor(sums, b.currency), b.currency))
  }

  lemma {:induction false} ClaimedCurrency(mid: Resolution, postings: seq<Posting>, sums: Sums, bids: seq<Bid>, k: nat)
    requires Settled(mid, postings, sums, bids) && k < |bids|
    ensures SumFor(sums, bids[k].currency) + BidderWeight(BidGroups(bids, sums), postings, bids[k].currency) == 0.0
            <==> BidderFits(mid, bids[k].currency)
  {
    var c := bids[k].currency;
    assert bids[k] in bids;
    var y := bids[k].unknown[0];
    assert y in bids[k].unknown;
    BidderWeighs(bids, sums, postings, k);
    WithSignOfOpposed(postings[y].amount.value.number, SumFor(sums, c));
    assert Ref(c, y) in mid.unknownDesc;
    forall r | r in mid.unknownDesc && r.currency == c ensures r.at == y {
      var b :| b in bids && b.currency == c && r.at in b.unknown;
      var j :| 0 <= j < |bids| && bids[j] == b;
      assert j == k;
    }
  }

  lemma {:induction false} UnclaimedCurrency(mid: Resolution, postings: seq<Posting>, sums: Sums, bids: seq<Bid>, c: string)
    requires Settled(mid, postings, sums, bids) && !Claimed(bids, c)
    ensures BidderWeight(BidGroups(bids, sums), postings, c) == 0.0
    ensures BidderFits(mid, c)
  {
    forall b | b in bids ensures b.currency != c {
      var j :| 0 <= j < |bids| && bids[j] == b;
    }
    UnclaimedWeighsNothing(bids, sums, postings, c);
  }

  /** The arithmetic of one currency: booked sum, bidder and free residual. */
  lemma {:induction false} OneCurrency(mid: Resolution, postings: seq<Posting>, sums: Sums, bids: seq<Bid>, free: Amount, c: string)
    requires Settled(mid, postings, sums, bids)
    requires [free] == OpenResiduals(OpenGroups(sums, bids))
    ensures SumFor(sums, c) + BidderWeight(BidGroups(bids, sums), postings, c) + (if c == free.currency then free.number else 0.0) == 0.0
            <==> BidderFits(mid, c)
  {
    OpenResidualsFromSums(sums, bids);
    assert free in [free] && FromSums(free, sums, bids);
    if SumFor(sums, c) != 0.0 && !Claimed(bids, c) {
      SumsAreForwarded(sums, bids, c);
    }
    if Claimed(bids, c) {
      var k :| 0 <= k < |bids| && bids[k].currency == c;
      ClaimedCurrency(mid, postings, sums, bids, k);
    } else {
      UnclaimedCurrency(mid, postings, sums, bids, c);
    }
  }

  /** A pass 2 without findings whose only free unknown, `x`, is automatic and booked as cash. */
  ghost predicate QuietEnding(mid: Run, methods: Methods, txnDate: nat, x: nat) {
    && Sorted(mid.pr) && Stamped(mid.pr) && mid.pr.dropped == {}
    && Pass2(mid, methods, txnDate).Ok?
    && |Pass2(mid, methods, txnDate).value.diags| <= |mid.diags|
    && FreeUnknowns(mid.pr.unknownDesc) == [x] && x < |mid.pr.postings| && Ref("", x) in mid.pr.unknownDesc
    && mid.pr.postings[x].amount.None? && mid.pr.postings[x].price.None?
    && ResolvedPlainly(mid.pr, Pass2(mid, methods, txnDate).value.pr.postings)
  }

  /** The bids and sums of the unknowns, and the groups they form. */
  ghost predicate Bidding(pr: Resolution, groups: seq<Group>, sums: Sums, bids: seq<Bid>) {
    && groups == BidGroups(bids, sums) + OpenGroups(sums, bids)
    && DistinctCurrencies(sums)
    && (forall c :: SumFor(sums, c) == Booked(pr, c))
    && BidsComeFrom(bids, pr.unknownDesc)
    && (forall r :: r in pr.unknownDesc && r.currency != "" ==> BidFor(bids, r.currency, r.at))
    && (forall b :: b in bids ==> b.unknown != [])
  }

  /** The two halves of a quiet pass 2, `end` being the state between them. */
  ghost predicate Halves(mid: Run, groups: seq<Group>, end: Resolved, run: Run, x: nat, methods: Methods, txnDate: nat) {
    && Smooth(Resolved(mid, [], []), groups, [x], methods, txnDate)
    && ResolveGroups(Resolved(mid, [], []), groups, methods, txnDate) == Ok(end)
    && x < |end.run.pr.postings|
    && AbsorbFree(end.run, [x], end.free, methods, txnDate) == Ok(run)
    && run.diags == end.run.diags
  }

  lemma {:induction false} QuietHalves(mid: Run, methods: Methods, txnDate: nat, x: nat)
    returns (sums: Sums, bids: seq<Bid>, groups: seq<Group>, end: Resolved)
    requires QuietEnding(mid, methods, txnDate, x)
    ensures Bidding(mid.pr, groups, sums, bids)
    ensures Halves(mid, groups, end, Pass2(mid, methods, txnDate).value, x, methods, txnDate)
  {
    sums, bids := GroupsAreBids(mid.pr);
    groups := Residuals(mid.pr).value.0;
    QuietPass2(mid, methods, txnDate);
    QuietGroupsAreSmooth(mid, methods, txnDate, x, sums, bids);
    end := ResolveGroups(Resolved(mid, [], []), groups, methods, txnDate).value;
  }

  /** What the first half does. */
  lemma {:induction false} FirstHalf(mid: Run, groups: seq<Group>, end: Resolved, run: Run, x: nat, methods: Methods, txnDate: nat, sums: Sums, bids: seq<Bid>)
    requires Halves(mid, groups, end, run, x, methods, txnDate) && Bidding(mid.pr, groups, sums, bids) && x < |mid.pr.postings|
    ensures BookedAts(end.run.pr) == BookedAts(mid.pr) + AllUnknowns(groups)
    ensures end.run.pr.dropped == mid.pr.dropped && |end.run.pr.postings| == |mid.pr.postings|
    ensures end.free == OpenResiduals(OpenGroups(sums, bids))
    ensures forall g :: g in groups ==> |g.unknown| <= 1
    ensures x !in BookedAts(end.run.pr) && end.run.pr.postings[x] == mid.pr.postings[x]
  {
    var start := Resolved(mid, [], []);
    GroupsBook(start, groups, [x], methods, txnDate);
    GroupsForward(start, groups, [x], methods, txnDate);
    GroupsHaveOneBidder(start, groups, [x], methods, txnDate);
    OpenResidualsOfBids(bids, sums, OpenGroups(sums, bids));
    XStaysOpen(mid.pr, groups, x, end.run.pr);
  }

  /** What the second half does, for currency `c`. */
  lemma {:induction false} SecondHalf(mid: Run, groups: seq<Group>, end: Resolved, run: Run, x: nat, methods: Methods, txnDate: nat, c: string)
    requires Halves(mid, groups, end, run, x, methods, txnDate) && x !in BookedAts(end.run.pr)
    requires end.run.pr.postings[x].amount.None? && end.run.pr.postings[x].price.None?
    requires x < |run.pr.postings| && run.pr.postings[x].cost.None?
    ensures |end.free| == 1
    ensures BookedAs(end.run.pr, run.pr, x, run.pr.postings[x])
    ensures Booked(run.pr, c) == Booked(end.run.pr, c) + if c == end.free[0].currency then end.free[0].number else 0.0
  {
    FreeWeighs(end.run, x, end.free, methods, txnDate, c);
  }

  ghost predicate Agree(groups: seq<Group>, ps: seq<Posting>, qs: seq<Posting>) {
    |ps| == |qs| && forall g: Group, y: nat {:trigger y in g.unknown} :: g in groups && y in g.unknown ==> y < |ps| && ps[y] == qs[y]
  }

  lemma {:induction false} BidderWeightReads(groups: seq<Group>, ps: seq<Posting>, qs: seq<Posting>, c: string)
    requires Agree(groups, ps, qs)
    ensures BidderWeight(groups, ps, c) == BidderWeight(groups, qs, c)
  {
    if groups != [] {
      var rest := groups[1..];
      assert groups[0] in groups;
      forall g: Group, y: nat | g in rest && y in g.unknown ensures y < |ps| && ps[y] == qs[y] {
        assert g in groups && y in g.unknown;
        assert y < |ps|;
      }
      BidderWeightReads(rest, ps, qs, c);
      if groups[0].unknown != [] {
        assert groups[0].unknown[0] in groups[0].unknown;
      }
    }
  }

  lemma {:induction false} BiddersAbsorb(mid: Run, groups: seq<Group>, end: Resolved, run: Run, x: nat, methods: Methods, txnDate: nat,
                      sums: Sums, bids: seq<Bid>, c: string)
    requires Halves(mid, groups, end, run, x, methods, txnDate) && Bidding(mid.pr, groups, sums, bids)
    requires x < |run.pr.postings| && BookedAs(end.run.pr, run.pr, x, run.pr.postings[x])
    requires ResolvedPlainly(mid.pr, run.pr.postings)
    ensures Agree(groups, end.run.pr.postings, run.pr.postings)
    ensures forall g, y {:trigger y in g.unknown} :: g in groups && y in g.unknown ==>
              y < |run.pr.postings| && Absorbs(run.pr.postings[y], g.residual, g.currency)
    ensures Booked(end.run.pr, c) == SumFor(sums, c) + BidderWeight(groups, end.run.pr.postings, c)
  {
    BiddersInterpolated(mid.pr, run.pr, end.run.pr, groups, bids, sums, x);
    GroupsWeigh(Resolved(mid, [], []), groups, [x], methods, txnDate, c);
  }

  /** The bidders, as they end up. */
  lemma {:induction false} BiddersSettle(mid: Run, groups: seq<Group>, end: Resolved, run: Run, x: nat, methods: Methods, txnDate: nat, sums: Sums, bids: seq<Bid>)
    requires Halves(mid, groups, end, run, x, methods, txnDate) && Bidding(mid.pr, groups, sums, bids)
    requires x < |run.pr.postings| && BookedAs(end.run.pr, run.pr, x, run.pr.postings[x])
    requires ResolvedPlainly(mid.pr, run.pr.postings) && Stamped(mid.pr)
    requires forall g :: g in groups ==> |g.unknown| <= 1
    ensures Settled(mid.pr, run.pr.postings, sums, bids)
  {
    BiddersAbsorb(mid, groups, end, run, x, methods, txnDate, sums, bids, "");
    HalvesKeepAmounts(mid, groups, end, run, x, methods, txnDate);
    AbsorbersSettle(mid.pr, run.pr, groups, sums, bids);
  }

  lemma {:induction false} DeferredHasAmount(mid: Resolution, r: Ref)
    requires Stamped(mid) && r in mid.unknownDesc && r.currency != ""
    ensures r.at < |mid.postings| && mid.postings[r.at].amount.Some?
  {
    assert mid.postings[r.at] in mid.postings;
  }

  lemma {:induction false} AbsorbersSettle(mid: Resolution, run: Resolution, groups: seq<Group>, sums: Sums, bids: seq<Bid>)
    requires Bidding(mid, groups, sums, bids) && Stamped(mid) && AmountsStand(mid, run)
    requires forall g :: g in groups ==> |g.unknown| <= 1
    requires forall g, y {:trigger y in g.unknown} :: g in groups && y in g.unknown ==>
               y < |run.postings| && Absorbs(run.postings[y], g.residual, g.currency)
    ensures Settled(mid, run.postings, sums, bids)
  {
    var postings := run.postings;
    forall r | r in mid.unknownDesc && r.currency != ""
      ensures r.at < |postings| && postings[r.at].amount == mid.postings[r.at].amount
    {
      DeferredHasAmount(mid, r);
    }
    forall b | b in bids
      ensures |b.unknown| == 1
      ensures forall y :: y in b.unknown ==> y < |postings| && Absorbs(postings[y], -SumFor(sums, b.currency), b.currency)
    {
      var k :| 0 <= k < |bids| && bids[k] == b;
      BidIsGroup(bids, sums, OpenGroups(sums, bids), k);
      var g := Group(b.currency, b.unknown, -SumFor(sums, b.currency));
      assert g in groups;
      forall y | y in b.unknown ensures y < |postings| && Absorbs(postings[y], -SumFor(sums, b.currency), b.currency) {
        assert y in g.unknown;
      }
    }
  }

  /** The weight booked in the first half, seen in the final postings. */
  lemma {:induction false} BiddersWeigh(mid: Run, groups: seq<Group>, end: Resolved, run: Run, x: nat, methods: Methods, txnDate: nat,
                     sums: Sums, bids: seq<Bid>, c: string)
    requires Halves(mid, groups, end, run, x, methods, txnDate) && Bidding(mid.pr, groups, sums, bids)
    requires x < |run.pr.postings| && BookedAs(end.run.pr, run.pr, x, run.pr.postings[x])
    requires ResolvedPlainly(mid.pr, run.pr.postings)
    ensures Booked(end.run.pr, c) == SumFor(sums, c) + BidderWeight(BidGroups(bids, sums), run.pr.postings, c)
  {
    var more := OpenGroups(sums, bids);
    BiddersAbsorb(mid, groups, end, run, x, methods, txnDate, sums, bids, c);
    BidderWeightReads(groups, end.run.pr.postings, run.pr.postings, c);
    BidderWeightSplit(BidGroups(bids, sums), more, run.pr.postings, c);
    OpenGroupsAreUnclaimed(sums, bids);
    BidderWeightOfOpen(more, run.pr.postings, c);
  }

  lemma {:induction false} AllBooked(mid: Resolution, run: Resolution, groups: seq<Group>, x: nat, sums: Sums, bids: seq<Bid>)
    requires Sorted(mid) && Stamped(mid) && Bidding(mid, groups, sums, bids) && FreeUnknowns(mid.unknownDesc) == [x]
    requires BookedAts(run) == BookedAts(mid) + AllUnknowns(groups) + {x} && |run.postings| == |mid.postings|
    ensures forall c :: Booked(run, c) == WeightSum(run.postings, c)
  {
    forall r | r in mid.unknownDesc && r.currency != "" ensures r.at in AllUnknowns(groups) {
      PinnedUnknown(bids, sums, OpenGroups(sums, bids), r);
    }
    EverythingIsBooked(mid, groups, x, BookedAts(run));
    forall c ensures Booked(run, c) == WeightSum(run.postings, c) {
      PartSumOfAll(run.postings, BookedAts(run), |run.postings|, c);
      assert run.postings[..|run.postings|] == run.postings;
    }
  }

  /** Everything a quiet pass 2 did, for one currency. */
  lemma {:induction false} QuietPass2Balances(mid: Run, methods: Methods, txnDate: nat, x: nat, c: string)
    requires QuietEnding(mid, methods, txnDate, x)
    ensures var pr := Pass2(mid, methods, txnDate).value.pr;
            && pr.dropped == {}
            && (WeightSum(pr.postings, c) == 0.0 <==> BidderFits(mid.pr, c))
  {
    var run := Pass2(mid, methods, txnDate).value;
    var sums, bids, groups, end := QuietHalves(mid, methods, txnDate, x);
    HalvesBalance(mid, groups, end, run, x, methods, txnDate, sums, bids, c);
  }

  lemma {:induction false} HalvesBalance(mid: Run, groups: seq<Group>, end: Resolved, run: Run, x: nat, methods: Methods, txnDate: nat,
                      sums: Sums, bids: seq<Bid>, c: string)
    requires Halves(mid, groups, end, run, x, methods, txnDate) && Bidding(mid.pr, groups, sums, bids)
    requires Sorted(mid.pr) && Stamped(mid.pr) && FreeUnknowns(mid.pr.unknownDesc) == [x] && x < |mid.pr.postings|
    requires Ref("", x) in mid.pr.unknownDesc && mid.pr.postings[x].amount.None? && mid.pr.postings[x].price.None?
    requires ResolvedPlainly(mid.pr, run.pr.postings)
    ensures run.pr.dropped == mid.pr.dropped
    ensures WeightSum(run.pr.postings, c) == 0.0 <==> BidderFits(mid.pr, c)
  {
    FirstHalf(mid, groups, end, run, x, methods, txnDate, sums, bids);
    SecondHalf(mid, groups, end, run, x, methods, txnDate, c);
    AllBooked(mid.pr, run.pr, groups, x, sums, bids);
    BiddersWeigh(mid, groups, end, run, x, methods, txnDate, sums, bids, c);
    BiddersSettle(mid, groups, end, run, x, methods, txnDate, sums, bids);
    assert end.free == [end.free[0]];
    OneCurrency(mid.pr, run.pr.postings, sums, bids, end.free[0], c);
  }

  lemma {:induction false} XStaysOpen(pr: Resolution, groups: seq<Group>, x: nat, end: Resolution)
    requires StillOpen(pr, groups, [x]) && x < |pr.postings|
    requires BookedAts(end) == BookedAts(pr) + AllUnknowns(groups)
    requires forall y: nat :: y < |pr.postings| && y !in AllUnknowns(groups) ==> y < |end.postings| && end.postings[y] == pr.postings[y]
    ensures x !in BookedAts(end) && end.postings[x] == pr.postings[x]
  {
    assert x in [x];
    assert x !in AllUnknowns(groups);
  }

  /**
   Interpolation balances. Take a transaction with an automatic posting that books
   without findings, its automatic posting as cash and its deferred costs by
   augmentation. Then the weights of the output postings sum to zero in currency
   `c` exactly when the deferred posting that bid for `c`, if there is one, does
   not have its units on the side of the weight already booked in `c`.
   */
  lemma {:induction false} InterpolationBalances(state: State, diags: seq<Diag>, postings: seq<Posting>, methods: Methods, txnDate: nat)
    requires StructureError(postings, false).None? && HasAuto(postings)
    requires Passes(state, diags, postings, methods, txnDate).Ok?
    requires Passes(state, diags, postings, methods, txnDate).value.diags == diags
    requires ResolvedPlainly(Pass1(Start(state, diags), postings, methods, txnDate).value.pr,
                             Passes(state, diags, postings, methods, txnDate).value.pr.postings)
    ensures var v := VisitOf(state, diags, postings, methods, txnDate).value;
            var unknowns := Pass1(Start(state, diags), postings, methods, txnDate).value.pr;
            && RefsInRange(unknowns)
            && forall c :: WeightSum(v.postings, c) == 0.0 <==> BidderFits(unknowns, c)
  {
    var start := Start(state, diags);
    var mid := Pass1(start, postings, methods, txnDate).value;
    Pass1KeepsSorted(start, postings, methods, txnDate);
    Pass2DiagsExtend(mid, methods, txnDate);
    QuietPass1(state, diags, postings, methods, txnDate);
    QuietPass2(mid, methods, txnDate);
    var x := FreeIsAuto(mid.pr);
    var run := Passes(state, diags, postings, methods, txnDate).value;
    forall c ensures WeightSum(run.pr.postings, c) == 0.0 <==> BidderFits(mid.pr, c) {
      QuietPass2Balances(mid, methods, txnDate, x, c);
    }
    QuietPass2Balances(mid, methods, txnDate, x, "");
  }

  lemma {:induction false} Pass2DiagsExtend(mid: Run, methods: Methods, txnDate: nat)
    requires RefsInRange(mid.pr) && Pass2(mid, methods, txnDate).Ok?
    ensures |mid.diags| <= |Pass2(mid, methods, txnDate).value.diags|
  {
    var (groups, free) := Residuals(mid.pr).value;
    ResidualsInRange(mid.pr);
    ResolveGroupsReportNothing(Resolved(mid, [], []), groups, methods, txnDate);
    var resolved := ResolveGroups(Resolved(mid, [], []), groups, methods, txnDate).value;
    FailuresAreReported(resolved.run, resolved.failures);
    FreeReports(ApplyFailures(resolved.run, resolved.failures), free, resolved.free, methods, txnDate);
  }
}
