/**
 Two-pass booking of one transaction, as functions on values. Pass 1 books every
 explicit posting; pass 2 interpolates the unknown ones from the per-currency
 residuals; then the currency groups that failed are dropped and rolled back.
 */
module Reductions {
  import opened Prelude
  import opened Amounts
  import opened Inventories
  import opened InventoryLaws
  import opened Costs
  import opened Bookings
  import opened BookingLaws
  import opened Resolutions

  type State = map<string, seq<Position>>

  type Methods = map<string, BookingMethod>

  datatype Diag = Diag(code: Code, account: string)

  function MethodOf(methods: Methods, account: string): BookingMethod {
    if account in methods then methods[account] else Default
  }

  function Holdings(state: State, account: string): seq<Position> {
    if account in state then state[account] else []
  }

  /**
   Everything booking one transaction changes. `before` holds the snapshot of each
   account touched so far, `rolledBack` the accounts a failure involved, and `log`
   the change each booked record made to its account (for specification only).
   */
  datatype Run = Run(
    state: State,
    before: map<string, Option<seq<Position>>>,
    rolledBack: set<string>,
    pr: Resolution,
    diags: seq<Diag>,
    log: seq<Change>)
  {
    /** First touch of an account: snapshot it, and install an empty inventory if it has none. */
    function Edit(account: string): Run {
      if account in before then this
      else this.(before := before[account := if account in state then Some(state[account]) else None],
                 state := state[account := Holdings(state, account)])
    }

    function Rollback(account: string): Run {
      this.(rolledBack := rolledBack + {account}).Edit(account)
    }

    function Put(account: string, ps: seq<Position>): Run {
      this.(state := state[account := ps])
    }

    function Report(d: Diag): Run {
      this.(diags := diags + [d])
    }
  }

  function Start(state: State, diags: seq<Diag>): Run {
    Run(state, map[], {}, EMPTY, diags, [])
  }

  // ------------------------------------------------------------------ pass 1

  /** The resolution after a posting booked successfully; the error is a broken invariant. */
  function Filed(pr: Resolution, p: Posting, lot: Option<Lot>, steps: seq<Step>): Result<Resolution, ()>
    requires p.amount.Some?
  {
    if p.cost.Some? && p.cost.value.Booked? then
      if |steps| > 1 then Err(())
      else Ok(pr.AddBooked(p, Record(p, lot, if |steps| == 1 then Some(steps[0]) else None, false), WeightCurrencyFallback(p)))
    else if lot.Some? then
      Ok(pr.AddBooked(p.(cost := AugmentCostFor(p.cost, lot.value)), Record(p, lot, None, false), lot.value.currency))
    else if |steps| == 0 then Ok(pr.AddBooked(p, Record(p, None, None, false), CashGroupKey(p)))
    else if |steps| == 1 then
      Ok(pr.AddBooked(WithLot(p, steps[0]), Record(p, None, Some(steps[0]), false), ReductionGroupKey(p, steps[0])))
    else Ok(pr.AddChildren(p, steps))
  }

  predicate Deferred(code: Code, p: Posting) {
    code == AugmentationRequiresCost && CostNumberMissing(p.cost)
  }

  /** Books `p` in its account's inventory: what came of it, and the edited state. */
  function Booking(run: Run, p: Posting, methods: Methods, txnDate: nat): (Run, Outcome) {
    var e := run.Edit(p.account);
    var ps, rule := Holdings(e.state, p.account), MethodOf(methods, p.account);
    (e.Put(p.account, BookedPositions(ps, p, rule, txnDate)).(log := e.log + BookChanges(ps, p, rule, txnDate)),
     OutcomeOf(ps, p, rule, txnDate))
  }

  /** Files the outcome of booking explicit posting `p`. */
  function File(done: Run, p: Posting, r: Outcome): Result<Run, ()>
    requires p.amount.Some?
  {
    match r
    case Failed => Err(())
    case Finding(code) =>
      if Deferred(code, p) then Ok(done.(pr := done.pr.AddUnknown(p)))
      else Ok(done.Report(Diag(code, p.account)).(pr := done.pr.MarkForDrop(WeightCurrencyFallback(p))).Rollback(p.account))
    case Augmented(lot) => WithResolution(done, Filed(done.pr, p, lot, []))
    case Consumed(steps) => WithResolution(done, Filed(done.pr, p, None, steps))
  }

  function WithResolution(run: Run, pr: Result<Resolution, ()>): Result<Run, ()> {
    match pr
    case Ok(pr) => Ok(run.(pr := pr))
    case Err(e) => Err(e)
  }

  function BookExplicit(run: Run, p: Posting, methods: Methods, txnDate: nat): Result<Run, ()>
    requires p.amount.Some?
  {
    var (done, r) := Booking(run, p, methods, txnDate);
    File(done, p, r)
  }

  function BookNext(run: Run, p: Posting, methods: Methods, txnDate: nat): Result<Run, ()> {
    if p.amount.None? then Ok(run.(pr := run.pr.AddUnknown(p))) else BookExplicit(run, p, methods, txnDate)
  }

  function Pass1(run: Run, postings: seq<Posting>, methods: Methods, txnDate: nat): Result<Run, ()>
    decreases |postings|
  {
    if postings == [] then Ok(run)
    else match BookNext(run, postings[0], methods, txnDate)
      case Err(e) => Err(e)
      case Ok(next) => Pass1(next, postings[1..], methods, txnDate)
  }

  // ------------------------------------------------------------------ residuals

  /** Weight sums per currency, in order of first appearance. */
  type Sums = seq<Amount>

  function AddWeight(sums: Sums, w: Amount): Sums {
    if sums == [] then [w]
    else if sums[0].currency == w.currency then [Amount(sums[0].number + w.number, w.currency)] + sums[1..]
    else [sums[0]] + AddWeight(sums[1..], w)
  }

  function SumFor(sums: Sums, currency: string): real {
    if sums == [] then 0.0
    else if sums[0].currency == currency then sums[0].number
    else SumFor(sums[1..], currency)
  }

  function WeightSums(postings: seq<Posting>, refs: seq<Ref>, sums: Sums): Result<Sums, ()>
    requires forall k :: 0 <= k < |refs| ==> refs[k].at < |postings|
    decreases |refs|
  {
    if refs == [] then Ok(sums)
    else match PostingWeight(postings[refs[0].at])
      case Err(e) => Err(e)
      case Ok(None) => WeightSums(postings, refs[1..], sums)
      case Ok(Some(w)) => WeightSums(postings, refs[1..], AddWeight(sums, w))
  }

  /** The unknown postings that bid for one currency, in order of first bid. */
  datatype Bid = Bid(currency: string, unknown: seq<nat>)

  function AddBid(bids: seq<Bid>, currency: string, at: nat): seq<Bid> {
    if bids == [] then [Bid(currency, [at])]
    else if bids[0].currency == currency then [Bid(currency, bids[0].unknown + [at])] + bids[1..]
    else [bids[0]] + AddBid(bids[1..], currency, at)
  }

  function Bids(refs: seq<Ref>, dropped: set<string>, bids: seq<Bid>): seq<Bid>
    decreases |refs|
  {
    if refs == [] then bids
    else if refs[0].currency == "" || refs[0].currency in dropped then Bids(refs[1..], dropped, bids)
    else Bids(refs[1..], dropped, AddBid(bids, refs[0].currency, refs[0].at))
  }

  function FreeUnknowns(refs: seq<Ref>): seq<nat> {
    if refs == [] then []
    else if refs[0].currency == "" then [refs[0].at] + FreeUnknowns(refs[1..])
    else FreeUnknowns(refs[1..])
  }

  predicate Claimed(bids: seq<Bid>, currency: string) {
    exists k :: 0 <= k < |bids| && bids[k].currency == currency
  }

  /** A currency with the residual it lacks and the unknowns that bid for it. */
  datatype Group = Group(currency: string, unknown: seq<nat>, residual: real)

  function BidGroups(bids: seq<Bid>, sums: Sums): seq<Group> {
    if bids == [] then []
    else [Group(bids[0].currency, bids[0].unknown, -SumFor(sums, bids[0].currency))] + BidGroups(bids[1..], sums)
  }

  function OpenGroups(sums: Sums, bids: seq<Bid>): seq<Group> {
    if sums == [] then []
    else if Claimed(bids, sums[0].currency) || sums[0].number == 0.0 then OpenGroups(sums[1..], bids)
    else [Group(sums[0].currency, [], -sums[0].number)] + OpenGroups(sums[1..], bids)
  }

  predicate RefsInRange(pr: Resolution) {
    && (forall k :: 0 <= k < |pr.bookedDesc| ==> pr.bookedDesc[k].at < |pr.postings|)
    && (forall k :: 0 <= k < |pr.unknownDesc| ==> pr.unknownDesc[k].at < |pr.postings|)
  }

  /** The residual groups and the free unknowns; nothing to do without unknowns. */
  function Residuals(pr: Resolution): Result<(seq<Group>, seq<nat>), ()>
    requires RefsInRange(pr)
  {
    if pr.unknownDesc == [] then Ok(([], []))
    else match WeightSums(pr.postings, pr.bookedDesc, [])
      case Err(_) => Err(())
      case Ok(sums) =>
        var bids := Bids(pr.unknownDesc, pr.dropped, []);
        Ok((BidGroups(bids, sums) + OpenGroups(sums, bids), FreeUnknowns(pr.unknownDesc)))
  }

  // ------------------------------------------------------------------ pass 2

  /** The `{{T CUR}}` cost that stands for a residual. */
  function SynthesizeCost(existing: Option<CostHolder>, residual: Amount, txnDate: nat): CostHolder {
    match existing
    case Some(Spec(_, _, _, date, tag)) =>
      Spec(None, Some(residual.number), residual.currency, Some(if date.Some? then date.value else txnDate), tag)
    case _ => Spec(None, Some(residual.number), residual.currency, Some(txnDate), "")
  }

  /**
   Files the outcome of booking unknown `at` as `candidate` under `currency`. A
   finding drops the group; two or more lots break an invariant.
   */
  function FileUnknown(done: Run, at: nat, candidate: Posting, currency: string, r: Outcome)
    : (f: Result<(Run, Option<Diag>), ()>)
    requires at < |done.pr.postings| && candidate.amount.Some?
    ensures f.Ok? ==> |f.value.0.pr.postings| == |done.pr.postings|
  {
    var orig := done.pr.postings[at];
    match r
    case Failed => Err(())
    case Finding(code) =>
      Ok((done.Rollback(orig.account).(pr := done.pr.RecordUnknownFailed(at, currency)), Some(Diag(code, orig.account))))
    case Augmented(Some(lot)) =>
      if orig.amount.None? then Err(())
      else
        var q := orig.(cost := AugmentCostFor(candidate.cost, lot));
        Ok((done.(pr := done.pr.Promote(at, q, Record(q, Some(lot), None, false), currency)), None))
    case Augmented(None) =>
      var q := orig.(amount := candidate.amount);
      Ok((done.(pr := done.pr.Promote(at, q, Record(q, None, None, true), currency)), None))
    case Consumed(steps) =>
      var q := orig.(amount := candidate.amount);
      if |steps| == 0 then Ok((done.(pr := done.pr.Promote(at, q, Record(q, None, None, true), currency)), None))
      else if |steps| == 1 then
        Ok((done.(pr := done.pr.Promote(at, WithLot(q, steps[0]), Record(q, None, Some(steps[0]), true), currency)), None))
      else Err(())
  }

  function BookUnknown(run: Run, at: nat, candidate: Posting, currency: string, methods: Methods, txnDate: nat)
    : (r: Result<(Run, Option<Diag>), ()>)
    requires at < |run.pr.postings| && candidate.amount.Some?
    ensures r.Ok? ==> |r.value.0.pr.postings| == |run.pr.postings|
  {
    var (done, r) := Booking(run, candidate, methods, txnDate);
    FileUnknown(done, at, candidate, currency, r)
  }

  datatype Failure = Failure(at: nat, currency: string, diag: Diag)

  function Ambiguous(postings: seq<Posting>, unknown: seq<nat>, currency: string): seq<Failure>
    requires forall k :: 0 <= k < |unknown| ==> unknown[k] < |postings|
  {
    if unknown == [] then []
    else [Failure(unknown[0], currency, Diag(UnresolvableInterpolation, postings[unknown[0]].account))]
         + Ambiguous(postings, unknown[1..], currency)
  }

  predicate UnknownInRange(n: nat, unknown: seq<nat>) {
    forall k :: 0 <= k < |unknown| ==> unknown[k] < n
  }

  predicate BidsInRange(n: nat, bids: seq<Bid>) {
    forall k :: 0 <= k < |bids| ==> UnknownInRange(n, bids[k].unknown)
  }

  predicate GroupsInRange(n: nat, groups: seq<Group>) {
    forall g :: g in groups ==> UnknownInRange(n, g.unknown)
  }

  /** What resolving the currency groups hands on: free residuals and failures. */
  datatype Resolved = Resolved(run: Run, free: seq<Amount>, failures: seq<Failure>)

  /** One currency group: forward its residual, refuse it, or book its only bidder. */
  function ResolveGroup(acc: Resolved, g: Group, methods: Methods, txnDate: nat): Result<Resolved, ()>
    requires UnknownInRange(|acc.run.pr.postings|, g.unknown)
  {
    if |g.unknown| == 0 then
      Ok(if g.residual != 0.0 then acc.(free := acc.free + [Amount(g.residual, g.currency)]) else acc)
    else if |g.unknown| > 1 then
      Ok(acc.(failures := acc.failures + Ambiguous(acc.run.pr.postings, g.unknown, g.currency)))
    else
      var at := g.unknown[0];
      var p := acc.run.pr.postings[at];
      if p.amount.None? then Err(())
      else if p.amount.value.number == 0.0 then
        Ok(acc.(failures := acc.failures + [Failure(at, g.currency, Diag(UnresolvableInterpolation, p.account))]))
      else
        var candidate := p.(cost := Some(SynthesizeCost(p.cost, Amount(g.residual, g.currency), txnDate)));
        match BookUnknown(acc.run, at, candidate, g.currency, methods, txnDate)
        case Err(e) => Err(e)
        case Ok((run, None)) => Ok(acc.(run := run))
        case Ok((run, Some(d))) => Ok(acc.(run := run, failures := acc.failures + [Failure(at, g.currency, d)]))
  }

  function ResolveGroups(acc: Resolved, groups: seq<Group>, methods: Methods, txnDate: nat): (r: Result<Resolved, ()>)
    requires GroupsInRange(|acc.run.pr.postings|, groups)
    ensures r.Ok? ==> |r.value.run.pr.postings| == |acc.run.pr.postings|
    decreases |groups|
  {
    if groups == [] then Ok(acc)
    else match ResolveGroup(acc, groups[0], methods, txnDate)
      case Err(e) => Err(e)
      case Ok(next) => ResolveGroups(next, groups[1..], methods, txnDate)
  }

  function ApplyFailures(run: Run, failures: seq<Failure>): (r: Run)
    ensures |r.pr.postings| == |run.pr.postings|
    decreases |failures|
  {
    if failures == [] then run
    else
      var f := failures[0];
      ApplyFailures(run.Report(f.diag).(pr := run.pr.RecordUnknownFailed(f.at, f.currency)), failures[1..])
  }

  function AmbiguousDiags(postings: seq<Posting>, unknown: seq<nat>): seq<Diag>
    requires UnknownInRange(|postings|, unknown)
  {
    if unknown == [] then []
    else [Diag(UnresolvableInterpolation, postings[unknown[0]].account)] + AmbiguousDiags(postings, unknown[1..])
  }

  /** How a free unknown would absorb `residual`: as its amount, or as its cost. */
  function FreeCandidate(p: Posting, residual: Amount, txnDate: nat): (r: Posting)
    ensures r.amount.Some?
  {
    if p.amount.None? then p.(amount := Some(residual))
    else p.(cost := Some(SynthesizeCost(p.cost, residual, txnDate)))
  }

  /** The free bucket: a single free unknown absorbs the only residual left over. */
  function ResolveFree(run: Run, free: seq<nat>, residuals: seq<Amount>, methods: Methods, txnDate: nat)
    : Result<(Run, seq<Diag>), ()>
    requires UnknownInRange(|run.pr.postings|, free)
  {
    if |free| == 0 then Ok((run, []))
    else if |free| > 1 then Ok((run, AmbiguousDiags(run.pr.postings, free)))
    else
      var p := run.pr.postings[free[0]];
      var refused := Ok((run, [Diag(UnresolvableInterpolation, p.account)]));
      if |residuals| != 1 then refused
      else if p.amount.Some? && p.amount.value.number == 0.0 then refused
      else
        var candidate := FreeCandidate(p, residuals[0], txnDate);
        match BookUnknown(run, free[0], candidate, residuals[0].currency, methods, txnDate)
        case Err(e) => Err(e)
        case Ok((next, None)) => Ok((next, []))
        case Ok((next, Some(d))) => Ok((next, [d]))
  }

  function FailFree(pr: Resolution, free: seq<nat>): Resolution
    decreases |free|
  {
    if free == [] then pr else FailFree(pr.RecordUnknownFailed(free[0], ""), free[1..])
  }

  function AbsorbFree(run: Run, free: seq<nat>, residuals: seq<Amount>, methods: Methods, txnDate: nat): Result<Run, ()>
    requires UnknownInRange(|run.pr.postings|, free)
  {
    match ResolveFree(run, free, residuals, methods, txnDate)
    case Err(e) => Err(e)
    case Ok((next, diags)) =>
      if diags == [] then Ok(next) else Ok(next.(diags := next.diags + diags, pr := FailFree(next.pr, free)))
  }

  function Pass2(run: Run, methods: Methods, txnDate: nat): Result<Run, ()>
    requires RefsInRange(run.pr)
  {
    match Residuals(run.pr)
    case Err(e) => Err(e)
    case Ok((groups, free)) =>
      ResidualsInRange(run.pr);
      Interpolated(run, groups, free, methods, txnDate)
  }

  /** The residual groups and then the free bucket. */
  function Interpolated(run: Run, groups: seq<Group>, free: seq<nat>, methods: Methods, txnDate: nat): Result<Run, ()>
    requires GroupsInRange(|run.pr.postings|, groups) && UnknownInRange(|run.pr.postings|, free)
  {
    match ResolveGroups(Resolved(run, [], []), groups, methods, txnDate)
    case Err(e) => Err(e)
    case Ok(resolved) =>
      AbsorbFree(ApplyFailures(resolved.run, resolved.failures), free, resolved.free, methods, txnDate)
  }

  lemma {:induction false} BidsStayInRange(n: nat, refs: seq<Ref>, dropped: set<string>, bids: seq<Bid>)
    requires forall k :: 0 <= k < |refs| ==> refs[k].at < n
    requires BidsInRange(n, bids)
    ensures BidsInRange(n, Bids(refs, dropped, bids))
    decreases |refs|
  {
    if refs != [] {
      if refs[0].currency == "" || refs[0].currency in dropped {
        BidsStayInRange(n, refs[1..], dropped, bids);
      } else {
        AddBidInRange(n, bids, refs[0].currency, refs[0].at);
        BidsStayInRange(n, refs[1..], dropped, AddBid(bids, refs[0].currency, refs[0].at));
      }
    }
  }

  lemma {:induction false} AddBidInRange(n: nat, bids: seq<Bid>, currency: string, at: nat)
    requires at < n && BidsInRange(n, bids)
    ensures BidsInRange(n, AddBid(bids, currency, at))
  {
    if bids != [] && bids[0].currency != currency {
      AddBidInRange(n, bids[1..], currency, at);
    }
  }

  lemma {:induction false} BidGroupsInRange(n: nat, bids: seq<Bid>, sums: Sums)
    requires BidsInRange(n, bids)
    ensures GroupsInRange(n, BidGroups(bids, sums))
  {
    if bids != [] {
      BidGroupsInRange(n, bids[1..], sums);
    }
  }

  /** Groups nobody bid for: no unknowns, and a residual left. */
  ghost predicate Unclaimed(groups: seq<Group>, bids: seq<Bid>) {
    forall g :: g in groups ==> g.unknown == [] && g.residual != 0.0 && !Claimed(bids, g.currency)
  }

  lemma {:induction false} OpenGroupsAreUnclaimed(sums: Sums, bids: seq<Bid>)
    ensures Unclaimed(OpenGroups(sums, bids), bids)
  {
    if sums != [] {
      OpenGroupsAreUnclaimed(sums[1..], bids);
    }
  }

  lemma {:induction false} FreeInRange(n: nat, refs: seq<Ref>)
    requires forall k :: 0 <= k < |refs| ==> refs[k].at < n
    ensures UnknownInRange(n, FreeUnknowns(refs))
  {
    if refs != [] {
      FreeInRange(n, refs[1..]);
    }
  }

  lemma {:induction false} ResidualsInRange(pr: Resolution)
    requires RefsInRange(pr)
    ensures var r := Residuals(pr);
            r.Ok? ==> GroupsInRange(|pr.postings|, r.value.0) && UnknownInRange(|pr.postings|, r.value.1)
  {
    var sums := WeightSums(pr.postings, pr.bookedDesc, []);
    if sums.Ok? {
      var bids := Bids(pr.unknownDesc, pr.dropped, []);
      BidsStayInRange(|pr.postings|, pr.unknownDesc, pr.dropped, []);
      BidGroupsInRange(|pr.postings|, bids, sums.value);
      OpenGroupsAreUnclaimed(sums.value, bids);
      assert forall g :: g in OpenGroups(sums.value, bids) ==> UnknownInRange(|pr.postings|, g.unknown);
      FreeInRange(|pr.postings|, pr.unknownDesc);
    }
  }

  // ------------------------------------------------------------------ finalize

  predicate Survives(pr: Resolution, i: nat) {
    || (exists k :: 0 <= k < |pr.bookedDesc| && pr.bookedDesc[k].at == i && pr.bookedDesc[k].currency !in pr.dropped)
    || (exists k :: 0 <= k < |pr.unknownDesc| && pr.unknownDesc[k].at == i && pr.unknownDesc[k].currency !in pr.dropped)
  }

  /** The surviving postings among the first `n`, in order. */
  function Survivors(pr: Resolution, n: nat): (r: seq<Posting>)
    requires n <= |pr.postings|
    ensures |r| <= n
  {
    if n == 0 then [] else Survivors(pr, n - 1) + if Survives(pr, n - 1) then [pr.postings[n - 1]] else []
  }

  /** Undoes a booked record: negate an augmentation, give a reduction back. */
  function Inverse(b: BookedPosting): Position {
    match b.reduction
    case None => Position(Amount(-b.units.number, b.units.currency), b.lot)
    case Some(step) => Position(Amount(step.units, b.units.currency), if IsRealLot(step.lot) then Some(step.lot) else None)
  }

  /** The surviving booked records from `j` on, with the posting each came from. */
  function Sourced(pr: Resolution, j: nat): seq<BookedPosting>
    requires WellFormed(pr) && j <= |pr.booked|
    decreases |pr.booked| - j
  {
    if j == |pr.booked| then []
    else if pr.bookedDesc[j].currency in pr.dropped then Sourced(pr, j + 1)
    else [pr.booked[j].(source := Some(|Survivors(pr, pr.bookedDesc[j].at)|))] + Sourced(pr, j + 1)
  }

  /** Undoes the dropped booked records from `j` on, in booking order. */
  function RolledBack(run: Run, j: nat): Run
    requires j <= |run.pr.booked| == |run.pr.bookedDesc|
    decreases |run.pr.booked| - j
  {
    if j == |run.pr.booked| then run
    else if run.pr.bookedDesc[j].currency in run.pr.dropped then RolledBack(Undo(run, run.pr.booked[j]), j + 1)
    else RolledBack(run, j + 1)
  }

  function Undo(run: Run, b: BookedPosting): Run {
    var e := run.Rollback(b.account);
    e.Put(b.account, Added(Holdings(e.state, b.account), Inverse(b)))
  }

  /** What the visitor sees of one transaction, with the state and findings it leaves. */
  datatype Visit = Visit(
    state: State,
    diags: seq<Diag>,
    postings: seq<Posting>,
    booked: seq<BookedPosting>,
    before: map<string, Option<seq<Position>>>,
    after: State)

  /** An account a rollback left as it was does not appear in the diff. */
  predicate Untouched(run: Run, account: string)
    requires account in run.before
  {
    && account in run.rolledBack
    && Holdings(run.state, account) == (match run.before[account] case Some(ps) => ps case None => [])
  }

  function Finish(run: Run, postings: seq<Posting>, booked: seq<BookedPosting>): Visit {
    var shown := set a | a in run.before && !Untouched(run, a);
    Visit(run.state, run.diags, postings, booked,
          map a | a in shown :: run.before[a],
          map a | a in shown :: Holdings(run.state, a))
  }

  function StructureError(postings: seq<Posting>, seenAuto: bool): Option<Diag> {
    if postings == [] then None
    else
      var p := postings[0];
      if p.amount.Some? then StructureError(postings[1..], seenAuto)
      else if p.cost.Some? || p.price.Some? then Some(Diag(InvalidAutoPosting, p.account))
      else if seenAuto then Some(Diag(MultipleAutoPostings, p.account))
      else StructureError(postings[1..], true)
  }

  /** The booked records from `j` on when nothing was dropped. */
  function Bound(pr: Resolution, j: nat): seq<BookedPosting>
    requires j <= |pr.booked| == |pr.bookedDesc|
    decreases |pr.booked| - j
  {
    if j == |pr.booked| then []
    else [pr.booked[j].(source := Some(pr.bookedDesc[j].at))] + Bound(pr, j + 1)
  }

  /** Drops the failed groups, rolls them back and assembles what the visitor sees. */
  function Finalize(run: Run): Visit
    requires WellFormed(run.pr)
  {
    if run.pr.dropped == {} then Finish(run, run.pr.postings, Bound(run.pr, 0))
    else Finish(RolledBack(run, 0), Survivors(run.pr, |run.pr.postings|), Sourced(run.pr, 0))
  }

  /** Both passes over one transaction, before anything is dropped. */
  function Passes(state: State, diags: seq<Diag>, postings: seq<Posting>, methods: Methods, txnDate: nat): (r: Result<Run, ()>)
    ensures r.Ok? ==> WellFormed(r.value.pr)
  {
    Pass1KeepsWellFormed(Start(state, diags), postings, methods, txnDate);
    match Pass1(Start(state, diags), postings, methods, txnDate)
    case Err(e) => Err(e)
    case Ok(run) =>
      Pass2KeepsWellFormed(run, methods, txnDate);
      Pass2(run, methods, txnDate)
  }

  /** Booking one transaction; the error is a broken invariant that halts the ledger. */
  function VisitOf(state: State, diags: seq<Diag>, postings: seq<Posting>, methods: Methods, txnDate: nat): Result<Visit, ()> {
    match StructureError(postings, false)
    case Some(d) => Ok(Visit(state, diags + [d], postings, [], map[], map[]))
    case None =>
      match Passes(state, diags, postings, methods, txnDate)
      case Err(e) => Err(e)
      case Ok(run) => Ok(Finalize(run))
  }

  // ------------------------------------------------------------------ the whole ledger

  datatype Directive =
    | Open(account: string, rule: BookingMethod)
    | Transaction(date: nat, postings: seq<Posting>)
    | Other(id: int)

  /** Decides, from all it has been shown so far, whether to go on. */
  type Visitor = seq<Visit> -> bool

  /** The state of a walk: inventories, methods, findings, the directives put out and the visits shown so far. */
  datatype Walk = Walk(state: State, booking: Methods, diags: seq<Diag>, out: seq<Directive>, seen: seq<Visit>, stopped: bool)

  /** A visit that booked nothing and touched nothing is not shown. */
  predicate Showable(v: Visit) {
    v.booked != [] || v.before != map[]
  }

  function Shown(w: Walk, v: Visit, visitor: Visitor): Walk {
    if Showable(v) then w.(seen := w.seen + [v], stopped := !visitor(w.seen + [v])) else w
  }

  function Step1(w: Walk, d: Directive, visitor: Visitor): Result<Walk, ()> {
    match d
    case Open(account, rule) => Ok(w.(booking := w.booking[account := rule], out := w.out + [d]))
    case Other(_) => Ok(w.(out := w.out + [d]))
    case Transaction(date, postings) =>
      match VisitOf(w.state, w.diags, postings, w.booking, date)
      case Err(e) => Err(e)
      case Ok(v) =>
        Ok(Shown(w.(state := v.state, diags := v.diags, out := w.out + [Transaction(date, v.postings)]), v, visitor))
  }

  /** The walk over `ds`, up to the transaction after which the visitor stops it. */
  function Walked(w: Walk, ds: seq<Directive>, visitor: Visitor): Result<Walk, ()>
    decreases |ds|
  {
    if ds == [] || w.stopped then Ok(w)
    else match Step1(w, ds[0], visitor)
      case Err(e) => Err(e)
      case Ok(next) => Walked(next, ds[1..], visitor)
  }

  const FRESH_WALK := Walk(map[], map[], [], [], [], false)

  /** The visitor that never stops the walk. */
  function Onward(): Visitor {
    (seen: seq<Visit>) => true
  }

  /** From `w` to `r` the visitor let everything pass but, where it stopped the walk, the last visit. */
  ghost predicate Passed(w: Walk, r: Walk, visitor: Visitor) {
    && w.seen <= r.seen
    && (r.stopped ==> |w.seen| < |r.seen| && !visitor(r.seen))
    && forall k :: |w.seen| < k <= |r.seen| && (r.stopped ==> k < |r.seen|) ==> visitor(r.seen[..k])
  }

  lemma {:induction false} ShownPasses(w: Walk, v: Visit, visitor: Visitor)
    requires !w.stopped
    ensures Passed(w, Shown(w, v, visitor), visitor)
    ensures Shown(w, v, Onward()) == Shown(w, v, visitor).(stopped := false)
  {
    var r := Shown(w, v, visitor);
    assert r.seen[..|r.seen|] == r.seen;
  }

  /** A step under the visitor is the step under none, but for the stop. */
  lemma {:induction false} StepPasses(w: Walk, d: Directive, visitor: Visitor, next: Walk)
    requires !w.stopped && Step1(w, d, visitor) == Ok(next)
    ensures Passed(w, next, visitor)
    ensures Step1(w, d, Onward()) == Ok(next.(stopped := false))
  {
    if d.Transaction? {
      var v := VisitOf(w.state, w.diags, d.postings, w.booking, d.date).value;
      ShownPasses(w.(state := v.state, diags := v.diags, out := w.out + [Transaction(d.date, v.postings)]), v, visitor);
    }
  }

  lemma {:induction false} PassedOn(w: Walk, next: Walk, r: Walk, visitor: Visitor)
    requires Passed(w, next, visitor) && !next.stopped && Passed(next, r, visitor)
    ensures Passed(w, r, visitor)
  {
    forall k | |w.seen| < k <= |r.seen| && (r.stopped ==> k < |r.seen|) ensures visitor(r.seen[..k]) {
      if k <= |next.seen| {
        assert r.seen[..k] == next.seen[..k];
      }
    }
  }

  lemma {:induction false} WalkFrom(w: Walk, d: Directive, ds: seq<Directive>, visitor: Visitor, next: Walk)
    requires !w.stopped && Step1(w, d, visitor) == Ok(next)
    ensures Walked(w, [d] + ds, visitor) == Walked(next, ds, visitor)
  {
    assert ([d] + ds)[1..] == ds;
  }

  /**
   A walk that its visitor stops is the walk that nobody stops over a front part of
   the ledger: it ends with the first visit the visitor refuses, or with the ledger.
   */
  lemma {:induction false} StoppingCutsTheLedger(w: Walk, ds: seq<Directive>, visitor: Visitor, r: Walk) returns (n: nat)
    requires Walked(w, ds, visitor) == Ok(r) && !w.stopped
    ensures n <= |ds| && Walked(w, ds[..n], Onward()) == Ok(r.(stopped := false))
    ensures Passed(w, r, visitor)
    ensures !r.stopped ==> n == |ds|
    decreases |ds|
  {
    n := 0;
    if ds != [] {
      var d, rest := ds[0], ds[1..];
      assert ds == [d] + rest;
      var next := FirstStep(w, d, rest, visitor, r);
      StepPasses(w, d, visitor, next);
      var m := 0;
      if !next.stopped {
        m := StoppingCutsTheLedger(next, rest, visitor, r);
        PassedOn(w, next, r, visitor);
      }
      n := m + 1;
      assert ds[..n] == [d] + rest[..m];
      WalkFrom(w, d, rest[..m], Onward(), next.(stopped := false));
    }
  }

  lemma {:induction false} FirstStep(w: Walk, d: Directive, ds: seq<Directive>, visitor: Visitor, r: Walk) returns (next: Walk)
    requires Walked(w, [d] + ds, visitor) == Ok(r) && !w.stopped
    ensures Step1(w, d, visitor) == Ok(next) && Walked(next, ds, visitor) == Ok(r)
    ensures next.stopped ==> r == next
  {
    next := Step1(w, d, visitor).value;
    WalkFrom(w, d, ds, visitor, next);
  }

  predicate WellFormed(pr: Resolution) {
    RefsInRange(pr) && |pr.booked| == |pr.bookedDesc|
  }

  lemma {:induction false} ChildrenKeepWellFormed(pr: Resolution, p: Posting, steps: seq<Step>)
    requires WellFormed(pr) && p.amount.Some?
    ensures WellFormed(pr.AddChildren(p, steps))
    decreases |steps|
  {
    if steps != [] {
      var child := Child(p, steps[0]);
      ChildrenKeepWellFormed(
        pr.AddBooked(child, Record(child, None, Some(steps[0]), false), steps[0].lot.currency), p, steps[1..]);
    }
  }

  lemma {:induction false} FiledKeepsWellFormed(pr: Resolution, p: Posting, lot: Option<Lot>, steps: seq<Step>)
    requires WellFormed(pr) && p.amount.Some?
    ensures var f := Filed(pr, p, lot, steps); f.Ok? ==> WellFormed(f.value)
  {
    ChildrenKeepWellFormed(pr, p, steps);
  }

  lemma {:induction false} FilingKeepsWellFormed(done: Run, p: Posting, r: Outcome)
    requires WellFormed(done.pr) && p.amount.Some?
    ensures var f := File(done, p, r); f.Ok? ==> WellFormed(f.value.pr)
  {
    match r {
      case Augmented(lot) => FiledKeepsWellFormed(done.pr, p, lot, []);
      case Consumed(steps) => FiledKeepsWellFormed(done.pr, p, None, steps);
      case _ =>
    }
  }

  lemma {:induction false} BookNextKeepsWellFormed(run: Run, p: Posting, methods: Methods, txnDate: nat)
    requires WellFormed(run.pr)
    ensures var r := BookNext(run, p, methods, txnDate); r.Ok? ==> WellFormed(r.value.pr)
  {
    if p.amount.Some? {
      var (done, r) := Booking(run, p, methods, txnDate);
      FilingKeepsWellFormed(done, p, r);
    }
  }

  lemma {:induction false} Pass1KeepsWellFormed(run: Run, postings: seq<Posting>, methods: Methods, txnDate: nat)
    requires WellFormed(run.pr)
    ensures var r := Pass1(run, postings, methods, txnDate); r.Ok? ==> WellFormed(r.value.pr)
    decreases |postings|
  {
    if postings != [] {
      BookNextKeepsWellFormed(run, postings[0], methods, txnDate);
      var next := BookNext(run, postings[0], methods, txnDate);
      if next.Ok? {
        Pass1KeepsWellFormed(next.value, postings[1..], methods, txnDate);
      }
    }
  }

  // ------------------------------------------------------------------ pass 2 keeps the shape

  lemma {:induction false} BookUnknownKeepsWellFormed(run: Run, at: nat, candidate: Posting, currency: string, methods: Methods, txnDate: nat)
    requires WellFormed(run.pr) && at < |run.pr.postings| && candidate.amount.Some?
    ensures var r := BookUnknown(run, at, candidate, currency, methods, txnDate);
            r.Ok? ==> WellFormed(r.value.0.pr)
  {
    var (done, r) := Booking(run, candidate, methods, txnDate);
    FilingUnknownKeepsWellFormed(done, at, candidate, currency, r);
  }

  lemma {:induction false} FilingUnknownKeepsWellFormed(done: Run, at: nat, candidate: Posting, currency: string, r: Outcome)
    requires WellFormed(done.pr) && at < |done.pr.postings| && candidate.amount.Some?
    ensures var f := FileUnknown(done, at, candidate, currency, r);
            f.Ok? ==> WellFormed(f.value.0.pr)
  {
    match r {
      case Augmented(Some(lot)) =>
        var orig := done.pr.postings[at];
        if orig.amount.Some? {
          var q := orig.(cost := AugmentCostFor(candidate.cost, lot));
          PromotionKeepsWellFormed(done.pr, at, q, Record(q, Some(lot), None, false), currency);
        }
      case Augmented(None) =>
        var q := done.pr.postings[at].(amount := candidate.amount);
        PromotionKeepsWellFormed(done.pr, at, q, Record(q, None, None, true), currency);
      case Consumed(steps) =>
        var q := done.pr.postings[at].(amount := candidate.amount);
        if |steps| == 0 {
          PromotionKeepsWellFormed(done.pr, at, q, Record(q, None, None, true), currency);
        } else if |steps| == 1 {
          PromotionKeepsWellFormed(done.pr, at, WithLot(q, steps[0]), Record(q, None, Some(steps[0]), true), currency);
        }
      case _ =>
    }
  }

  lemma {:induction false} PromotionKeepsWellFormed(pr: Resolution, at: nat, q: Posting, b: BookedPosting, currency: string)
    requires WellFormed(pr) && at < |pr.postings|
    ensures WellFormed(pr.Promote(at, q, b, currency))
  {
  }

  lemma {:induction false} ResolveGroupKeepsWellFormed(acc: Resolved, g: Group, methods: Methods, txnDate: nat)
    requires WellFormed(acc.run.pr) && UnknownInRange(|acc.run.pr.postings|, g.unknown)
    ensures var r := ResolveGroup(acc, g, methods, txnDate);
            r.Ok? ==> WellFormed(r.value.run.pr)
  {
    if |g.unknown| == 1 {
      var p := acc.run.pr.postings[g.unknown[0]];
      if p.amount.Some? {
        var candidate := p.(cost := Some(SynthesizeCost(p.cost, Amount(g.residual, g.currency), txnDate)));
        BookUnknownKeepsWellFormed(acc.run, g.unknown[0], candidate, g.currency, methods, txnDate);
      }
    }
  }

  lemma {:induction false} ResolveGroupsKeepsWellFormed(acc: Resolved, groups: seq<Group>, methods: Methods, txnDate: nat)
    requires WellFormed(acc.run.pr) && GroupsInRange(|acc.run.pr.postings|, groups)
    ensures var r := ResolveGroups(acc, groups, methods, txnDate);
            r.Ok? ==> WellFormed(r.value.run.pr)
    decreases |groups|
  {
    if groups != [] {
      ResolveGroupKeepsWellFormed(acc, groups[0], methods, txnDate);
      var next := ResolveGroup(acc, groups[0], methods, txnDate);
      if next.Ok? {
        ResolveGroupsKeepsWellFormed(next.value, groups[1..], methods, txnDate);
      }
    }
  }

  lemma {:induction false} ApplyFailuresKeepsWellFormed(run: Run, failures: seq<Failure>)
    requires WellFormed(run.pr)
    ensures WellFormed(ApplyFailures(run, failures).pr)
    decreases |failures|
  {
    if failures != [] {
      var f := failures[0];
      ApplyFailuresKeepsWellFormed(run.Report(f.diag).(pr := run.pr.RecordUnknownFailed(f.at, f.currency)), failures[1..]);
    }
  }

  lemma {:induction false} FailFreeKeepsWellFormed(pr: Resolution, free: seq<nat>)
    requires WellFormed(pr)
    ensures WellFormed(FailFree(pr, free))
    decreases |free|
  {
    if free != [] {
      FailFreeKeepsWellFormed(pr.RecordUnknownFailed(free[0], ""), free[1..]);
    }
  }

  lemma {:induction false} AbsorbFreeKeepsWellFormed(run: Run, free: seq<nat>, residuals: seq<Amount>, methods: Methods, txnDate: nat)
    requires WellFormed(run.pr) && UnknownInRange(|run.pr.postings|, free)
    ensures var r := AbsorbFree(run, free, residuals, methods, txnDate);
            r.Ok? ==> WellFormed(r.value.pr)
  {
    if |free| == 1 && |residuals| == 1 {
      var candidate := FreeCandidate(run.pr.postings[free[0]], residuals[0], txnDate);
      BookUnknownKeepsWellFormed(run, free[0], candidate, residuals[0].currency, methods, txnDate);
    }
    var r := ResolveFree(run, free, residuals, methods, txnDate);
    if r.Ok? {
      FailFreeKeepsWellFormed(r.value.0.pr, free);
    }
  }

  lemma {:induction false} Pass2KeepsWellFormed(run: Run, methods: Methods, txnDate: nat)
    requires WellFormed(run.pr)
    ensures var r := Pass2(run, methods, txnDate);
            r.Ok? ==> WellFormed(r.value.pr)
  {
    var residuals := Residuals(run.pr);
    if residuals.Ok? {
      var (groups, free) := residuals.value;
      ResidualsInRange(run.pr);
      ResolveGroupsKeepsWellFormed(Resolved(run, [], []), groups, methods, txnDate);
      var r := ResolveGroups(Resolved(run, [], []), groups, methods, txnDate);
      if r.Ok? {
        ApplyFailuresKeepsWellFormed(r.value.run, r.value.failures);
        AbsorbFreeKeepsWellFormed(ApplyFailures(r.value.run, r.value.failures), free, r.value.free, methods, txnDate);
      }
    }
  }
}
