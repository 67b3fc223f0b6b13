/**
 The reducer object: per-account inventories, booking methods and collected
 findings, updated in place transaction by transaction. Every method is proved
 to take exactly the step the functions of `Reductions` describe.
 */
module Reducers {
  import opened Prelude
  import opened Amounts
  import opened Inventories
  import opened InventoryLaws
  import opened Costs
  import opened Bookings
  import opened BookingLaws
  import opened Resolutions
  import opened Reductions

  /** Snapshots taken and rollbacks made while one transaction is booked. */
  class StateTrace {
    var before: map<string, Option<seq<Position>>>
    var rolledBack: set<string>
    ghost var log: seq<Change>

    constructor ()
      ensures before == map[] && rolledBack == {} && log == []
    {
      before, rolledBack, log := map[], {}, [];
    }
  }

  class Reducer {
    var booking: Methods
    var state: map<string, Inventory>
    var diags: seq<Diag>

    constructor ()
      ensures Valid() && booking == map[] && Holds() == map[] && diags == []
    {
      booking, state, diags := map[], map[], [];
    }

    /** No two accounts share an inventory. */
    ghost predicate Valid()
      reads this
    {
      forall a, b :: a in state && b in state && a != b ==> state[a] != state[b]
    }

    /** The inventories as values. */
    function Holds(): State
      reads this, state.Values
    {
      map a | a in state :: state[a].positions
    }

    ghost function RunOf(trace: StateTrace, pr: PostingResolution): Run
      reads this, state.Values, trace, pr
    {
      Run(Holds(), trace.before, trace.rolledBack, pr.View(), diags, trace.log)
    }

    /** Every account touched so far has an inventory. */
    ghost predicate Tracks(trace: StateTrace)
      reads this, trace
    {
      Valid() && forall a :: a in trace.before ==> a in state
    }

    /** The inventory to edit for `account`, snapshotted on first touch. */
    method PrepareForEdit(trace: StateTrace, ghost pr: PostingResolution, account: string) returns (inv: Inventory)
      requires Tracks(trace)
      modifies this`state, trace
      ensures Tracks(trace) && fresh(state.Values - old(state.Values))
      ensures account in state && inv == state[account]
      ensures RunOf(trace, pr) == old(RunOf(trace, pr)).Edit(account)
    {
      if account !in trace.before {
        if account !in state {
          Install(account);
          trace.before := trace.before[account := None];
        } else {
          trace.before := trace.before[account := Some(state[account].positions)];
        }
      }
      inv := state[account];
    }

    /** An empty inventory for an account that has none. */
    method Install(account: string)
      requires Valid() && account !in state
      modifies this`state
      ensures Valid() && fresh(state.Values - old(state.Values))
      ensures state.Keys == old(state.Keys) + {account} && Holds() == old(Holds())[account := []]
    {
      var empty := new Inventory();
      state := state[account := empty];
    }

    method PrepareForRollback(trace: StateTrace, ghost pr: PostingResolution, account: string) returns (inv: Inventory)
      requires Tracks(trace)
      modifies this`state, trace
      ensures Tracks(trace) && fresh(state.Values - old(state.Values))
      ensures account in state && inv == state[account]
      ensures RunOf(trace, pr) == old(RunOf(trace, pr)).Rollback(account)
    {
      trace.rolledBack := trace.rolledBack + {account};
      inv := PrepareForEdit(trace, pr, account);
    }

    /** Books `p` in its account's inventory. */
    method BookInto(trace: StateTrace, ghost pr: PostingResolution, p: Posting, txnDate: nat) returns (r: Outcome)
      requires Tracks(trace)
      modifies this`state, trace, state.Values
      ensures Tracks(trace) && fresh(state.Values - old(state.Values))
      ensures (RunOf(trace, pr), r) == Booking(old(RunOf(trace, pr)), p, booking, txnDate)
    {
      var inv := PrepareForEdit(trace, pr, p.account);
      r := BookAt(trace, pr, inv, p, txnDate);
    }

    method BookAt(trace: StateTrace, ghost pr: PostingResolution, inv: Inventory, p: Posting, txnDate: nat) returns (r: Outcome)
      requires Tracks(trace) && p.account in state && inv == state[p.account]
      modifies trace`log, inv
      ensures Tracks(trace)
      ensures var ps, rule := old(inv.positions), MethodOf(booking, p.account);
              && r == OutcomeOf(ps, p, rule, txnDate)
              && RunOf(trace, pr) == old(RunOf(trace, pr)).Put(p.account, BookedPositions(ps, p, rule, txnDate))
                                                          .(log := old(trace.log) + BookChanges(ps, p, rule, txnDate))
    {
      ghost var held, ps := Holds(), inv.positions;
      r := BookOne(inv, p, MethodOf(booking, p.account), txnDate);
      trace.log := trace.log + BookChanges(ps, p, MethodOf(booking, p.account), txnDate);
      assert Holds() == held[p.account := inv.positions];
    }

    // ---------------------------------------------------------------- pass 1

    /** Files the outcome of one explicit posting; false reports a broken invariant. */
    method FileExplicit(trace: StateTrace, pr: PostingResolution, p: Posting, r: Outcome) returns (ok: bool)
      requires Tracks(trace) && p.amount.Some?
      modifies this`state, this`diags, trace, pr
      ensures Tracks(trace) && fresh(state.Values - old(state.Values))
      ensures var f := File(old(RunOf(trace, pr)), p, r);
              ok == f.Ok? && (ok ==> RunOf(trace, pr) == f.value)
    {
      match r {
        case Failed => return false;
        case Finding(code) =>
          FileFinding(trace, pr, p, code);
          return true;
        case Augmented(lot) =>
          ok := FileBooked(pr, p, lot, []);
          assert Holds() == old(Holds());
        case Consumed(steps) =>
          ok := FileBooked(pr, p, None, steps);
          assert Holds() == old(Holds());
      }
    }

    method FileFinding(trace: StateTrace, pr: PostingResolution, p: Posting, code: Code)
      requires Tracks(trace) && p.amount.Some?
      modifies this`state, this`diags, trace, pr
      ensures Tracks(trace) && fresh(state.Values - old(state.Values))
      ensures RunOf(trace, pr) == File(old(RunOf(trace, pr)), p, Finding(code)).value
    {
      if Deferred(code, p) {
        pr.AddUnknown(p);
        assert Holds() == old(Holds());
      } else {
        diags := diags + [Diag(code, p.account)];
        pr.MarkForDrop(WeightCurrencyFallback(p));
        assert Holds() == old(Holds());
        var _ := PrepareForRollback(trace, pr, p.account);
      }
    }

    method FileBooked(pr: PostingResolution, p: Posting, lot: Option<Lot>, steps: seq<Step>) returns (ok: bool)
      requires p.amount.Some?
      modifies pr
      ensures var f := Filed(old(pr.View()), p, lot, steps);
              ok == f.Ok? && (ok ==> pr.View() == f.value)
    {
      if p.cost.Some? && p.cost.value.Booked? {
        if |steps| > 1 { return false; }
        pr.AddAlreadyBooked(p, lot, if |steps| == 1 then Some(steps[0]) else None, WeightCurrencyFallback(p));
      } else if lot.Some? {
        pr.AddLotAugmentation(p, lot.value, lot.value.currency);
      } else if |steps| == 0 {
        pr.AddCashAugmentation(p, CashGroupKey(p));
      } else if |steps| == 1 {
        pr.AddSingleLotReduction(p, steps[0], ReductionGroupKey(p, steps[0]));
      } else {
        pr.AddMultiLotReduction(p, steps);
      }
      return true;
    }

    method BookExplicitPostings(trace: StateTrace, pr: PostingResolution, postings: seq<Posting>, txnDate: nat) returns (ok: bool)
      requires Tracks(trace)
      modifies this`state, this`diags, trace, pr, state.Values
      ensures Tracks(trace) && fresh(state.Values - old(state.Values))
      ensures var r := Pass1(old(RunOf(trace, pr)), postings, booking, txnDate);
              ok == r.Ok? && (ok ==> RunOf(trace, pr) == r.value)
    {
      ghost var start := RunOf(trace, pr);
      for i := 0 to |postings|
        invariant Tracks(trace) && fresh(state.Values - old(state.Values))
        invariant Pass1(start, postings, booking, txnDate) == Pass1(RunOf(trace, pr), postings[i..], booking, txnDate)
      {
        var p := postings[i];
        assert postings[i..][0] == p && postings[i..][1..] == postings[i + 1..];
        ok := BookNextPosting(trace, pr, p, txnDate);
        if !ok { return; }
      }
      return true;
    }

    method BookNextPosting(trace: StateTrace, pr: PostingResolution, p: Posting, txnDate: nat) returns (ok: bool)
      requires Tracks(trace)
      modifies this`state, this`diags, trace, pr, state.Values
      ensures Tracks(trace) && fresh(state.Values - old(state.Values))
      ensures var r := BookNext(old(RunOf(trace, pr)), p, booking, txnDate);
              ok == r.Ok? && (ok ==> RunOf(trace, pr) == r.value)
    {
      if p.amount.None? {
        pr.AddUnknown(p);
        assert Holds() == old(Holds());
        return true;
      }
      var r := BookInto(trace, pr, p, txnDate);
      ok := FileExplicit(trace, pr, p, r);
    }

    // ---------------------------------------------------------------- pass 2

    /** Sums the booked weights, collects the bids and forms the residual groups. */
    method GroupForResidual(pr: PostingResolution) returns (r: Result<(seq<Group>, seq<nat>), ()>)
      requires RefsInRange(pr.View())
      ensures r == Residuals(pr.View())
    {
      if |pr.unknownDesc| == 0 { return Ok(([], [])); }
      var sums := SumWeights(pr);
      if sums.Err? { return Err(()); }

      var bids: seq<Bid>, free: seq<nat> := [], [];
      for i := 0 to |pr.unknownDesc|
        invariant Bids(pr.unknownDesc, pr.dropped, []) == Bids(pr.unknownDesc[i..], pr.dropped, bids)
        invariant FreeUnknowns(pr.unknownDesc) == free + FreeUnknowns(pr.unknownDesc[i..])
      {
        var ref := pr.unknownDesc[i];
        assert pr.unknownDesc[i..][0] == ref && pr.unknownDesc[i..][1..] == pr.unknownDesc[i + 1..];
        if ref.currency == "" {
          free := free + [ref.at];
        } else if ref.currency !in pr.dropped {
          bids := AddBid(bids, ref.currency, ref.at);
        }
      }

      assert pr.unknownDesc[|pr.unknownDesc|..] == [];
      assert free == FreeUnknowns(pr.unknownDesc);
      var bidGroups := FormBidGroups(bids, sums.value);
      var openGroups := FormOpenGroups(bids, sums.value);
      return Ok((bidGroups + openGroups, free));
    }

    method SumWeights(pr: PostingResolution) returns (r: Result<Sums, ()>)
      requires RefsInRange(pr.View())
      ensures r == WeightSums(pr.postings, pr.bookedDesc, [])
    {
      var sums: Sums := [];
      for i := 0 to |pr.bookedDesc|
        invariant WeightSums(pr.postings, pr.bookedDesc, []) == WeightSums(pr.postings, pr.bookedDesc[i..], sums)
      {
        assert pr.bookedDesc[i..][1..] == pr.bookedDesc[i + 1..];
        match PostingWeight(pr.postings[pr.bookedDesc[i].at]) {
          case Err(_) => return Err(());
          case Ok(None) =>
          case Ok(Some(w)) => sums := AddWeight(sums, w);
        }
      }
      return Ok(sums);
    }

    method FormBidGroups(bids: seq<Bid>, sums: Sums) returns (groups: seq<Group>)
      ensures groups == BidGroups(bids, sums)
    {
      groups := [];
      for i := 0 to |bids|
        invariant BidGroups(bids, sums) == groups + BidGroups(bids[i..], sums)
      {
        assert bids[i..][1..] == bids[i + 1..] && bids[i..][0] == bids[i];
        groups := groups + [Group(bids[i].currency, bids[i].unknown, -SumFor(sums, bids[i].currency))];
      }
    }

    method FormOpenGroups(bids: seq<Bid>, sums: Sums) returns (groups: seq<Group>)
      ensures groups == OpenGroups(sums, bids)
    {
      groups := [];
      for i := 0 to |sums|
        invariant OpenGroups(sums, bids) == groups + OpenGroups(sums[i..], bids)
      {
        assert sums[i..][1..] == sums[i + 1..];
        if !Claimed(bids, sums[i].currency) && sums[i].number != 0.0 {
          groups := groups + [Group(sums[i].currency, [], -sums[i].number)];
        }
      }
    }

    /** Books unknown `at` as `candidate` under `currency` and promotes or drops it. */
    method BookCandidate(trace: StateTrace, pr: PostingResolution, at: nat, candidate: Posting, currency: string, txnDate: nat)
      returns (r: Result<Option<Diag>, ()>)
      requires Tracks(trace) && at < |pr.postings| && candidate.amount.Some?
      modifies this`state, this`diags, trace, pr, state.Values
      ensures Tracks(trace) && fresh(state.Values - old(state.Values))
      ensures match BookUnknown(old(RunOf(trace, pr)), at, candidate, currency, booking, txnDate)
              case Err(_) => r.Err?
              case Ok((next, d)) => r == Ok(d) && RunOf(trace, pr) == next
    {
      var outcome := BookInto(trace, pr, candidate, txnDate);
      r := FileCandidate(trace, pr, at, candidate, currency, outcome);
    }

    method FileCandidate(trace: StateTrace, pr: PostingResolution, at: nat, candidate: Posting, currency: string, outcome: Outcome)
      returns (r: Result<Option<Diag>, ()>)
      requires Tracks(trace) && at < |pr.postings| && candidate.amount.Some?
      modifies this`state, trace, pr
      ensures Tracks(trace) && fresh(state.Values - old(state.Values))
      ensures match FileUnknown(old(RunOf(trace, pr)), at, candidate, currency, outcome)
              case Err(_) => r.Err?
              case Ok((next, d)) => r == Ok(d) && RunOf(trace, pr) == next
    {
      var orig := pr.postings[at];
      match outcome {
        case Failed => return Err(());
        case Finding(code) =>
          pr.RecordUnknownFailed(at, currency);
          assert Holds() == old(Holds());
          var _ := PrepareForRollback(trace, pr, orig.account);
          return Ok(Some(Diag(code, orig.account)));
        case Augmented(lot) =>
          var ok := PromoteAugmentation(pr, at, candidate, currency, lot);
          assert Holds() == old(Holds());
          return if ok then Ok(None) else Err(());
        case Consumed(steps) =>
          var ok := PromoteReduction(pr, at, candidate, currency, steps);
          assert Holds() == old(Holds());
          return if ok then Ok(None) else Err(());
      }
    }

    method PromoteAugmentation(pr: PostingResolution, at: nat, candidate: Posting, currency: string, lot: Option<Lot>) returns (ok: bool)
      requires at < |pr.postings| && candidate.amount.Some?
      modifies pr
      ensures ok == (lot.None? || old(pr.postings[at]).amount.Some?)
      ensures ok ==>
                var orig := old(pr.postings[at]);
                var q := if lot.Some? then orig.(cost := AugmentCostFor(candidate.cost, lot.value))
                         else orig.(amount := candidate.amount);
                pr.View() == old(pr.View()).Promote(at, q, Record(q, lot, None, lot.None?), currency)
    {
      var orig := pr.postings[at];
      match lot {
        case Some(l) =>
          if orig.amount.None? { return false; }
          var q := orig.(cost := AugmentCostFor(candidate.cost, l));
          pr.Promote(at, q, Record(q, Some(l), None, false), currency);
        case None =>
          var q := orig.(amount := candidate.amount);
          pr.Promote(at, q, Record(q, None, None, true), currency);
      }
      return true;
    }

    method PromoteReduction(pr: PostingResolution, at: nat, candidate: Posting, currency: string, steps: seq<Step>) returns (ok: bool)
      requires at < |pr.postings| && candidate.amount.Some?
      modifies pr
      ensures ok == (|steps| <= 1)
      ensures ok ==>
                var q := old(pr.postings[at]).(amount := candidate.amount);
                pr.View() == if |steps| == 0
                             then old(pr.View()).Promote(at, q, Record(q, None, None, true), currency)
                             else old(pr.View()).Promote(at, WithLot(q, steps[0]), Record(q, None, Some(steps[0]), true), currency)
    {
      var q := pr.postings[at].(amount := candidate.amount);
      if |steps| > 1 { return false; }
      if |steps| == 0 {
        pr.Promote(at, q, Record(q, None, None, true), currency);
      } else {
        pr.Promote(at, WithLot(q, steps[0]), Record(q, None, Some(steps[0]), true), currency);
      }
      return true;
    }

    /** One residual group; extends the forwarded residuals or the failures. */
    method ResolveOneGroup(trace: StateTrace, pr: PostingResolution, g: Group, txnDate: nat, free0: seq<Amount>, failures0: seq<Failure>)
      returns (ok: bool, free: seq<Amount>, failures: seq<Failure>)
      requires Tracks(trace) && UnknownInRange(|pr.postings|, g.unknown)
      modifies this`state, this`diags, trace, pr, state.Values
      ensures Tracks(trace) && fresh(state.Values - old(state.Values))
      ensures var r := ResolveGroup(Resolved(old(RunOf(trace, pr)), free0, failures0), g, booking, txnDate);
              ok == r.Ok? && (ok ==> Resolved(RunOf(trace, pr), free, failures) == r.value)
    {
      ok, free, failures := true, free0, failures0;
      if |g.unknown| == 0 {
        if g.residual != 0.0 {
          free := free + [Amount(g.residual, g.currency)];
        }
        return;
      }
      if |g.unknown| > 1 {
        var ambiguous := AmbiguousFailures(pr, g.unknown, g.currency);
        failures := failures + ambiguous;
        return;
      }
      var at := g.unknown[0];
      var p := pr.postings[at];
      if p.amount.None? { ok := false; return; }
      if p.amount.value.number == 0.0 {
        failures := failures + [Failure(at, g.currency, Diag(UnresolvableInterpolation, p.account))];
        return;
      }
      var candidate := p.(cost := Some(SynthesizeCost(p.cost, Amount(g.residual, g.currency), txnDate)));
      var r := BookCandidate(trace, pr, at, candidate, g.currency, txnDate);
      match r {
        case Err(_) => ok := false;
        case Ok(None) =>
        case Ok(Some(d)) => failures := failures + [Failure(at, g.currency, d)];
      }
    }

    method AmbiguousFailures(pr: PostingResolution, unknown: seq<nat>, currency: string) returns (failures: seq<Failure>)
      requires UnknownInRange(|pr.postings|, unknown)
      ensures failures == Ambiguous(pr.postings, unknown, currency)
    {
      failures := [];
      for i := 0 to |unknown|
        invariant Ambiguous(pr.postings, unknown, currency) == failures + Ambiguous(pr.postings, unknown[i..], currency)
      {
        assert unknown[i..][1..] == unknown[i + 1..];
        failures := failures + [Failure(unknown[i], currency, Diag(UnresolvableInterpolation, pr.postings[unknown[i]].account))];
      }
    }

    method ResolveResidualGroups(trace: StateTrace, pr: PostingResolution, groups: seq<Group>, txnDate: nat)
      returns (ok: bool, free: seq<Amount>, failures: seq<Failure>)
      requires Tracks(trace) && GroupsInRange(|pr.postings|, groups)
      modifies this`state, this`diags, trace, pr, state.Values
      ensures Tracks(trace) && fresh(state.Values - old(state.Values))
      ensures var r := ResolveGroups(Resolved(old(RunOf(trace, pr)), [], []), groups, booking, txnDate);
              ok == r.Ok? && (ok ==> Resolved(RunOf(trace, pr), free, failures) == r.value)
    {
      ghost var start := Resolved(RunOf(trace, pr), [], []);
      free, failures := [], [];
      for i := 0 to |groups|
        invariant Tracks(trace) && fresh(state.Values - old(state.Values))
        invariant Resolving(start, groups, Resolved(RunOf(trace, pr), free, failures), i, booking, txnDate)
      {
        ghost var here := Resolved(RunOf(trace, pr), free, failures);
        assert groups[i] in groups;
        ok, free, failures := ResolveOneGroup(trace, pr, groups[i], txnDate, free, failures);
        ResolvingOne(start, groups, here, i, booking, txnDate);
        if !ok { return; }
      }
      ok := true;
    }

    /** Resolving the groups from `start` is resolving those from `i` on from `here`. */
    static ghost predicate Resolving(start: Resolved, groups: seq<Group>, here: Resolved, i: nat, methods: Methods, txnDate: nat) {
      && i <= |groups| && GroupsInRange(|start.run.pr.postings|, groups) && |here.run.pr.postings| == |start.run.pr.postings|
      && ResolveGroups(start, groups, methods, txnDate) == ResolveGroups(here, groups[i..], methods, txnDate)
    }

    static lemma {:induction false} ResolvingOne(start: Resolved, groups: seq<Group>, here: Resolved, i: nat, methods: Methods, txnDate: nat)
      requires Resolving(start, groups, here, i, methods, txnDate) && i < |groups|
      ensures groups[i] in groups
      ensures match ResolveGroup(here, groups[i], methods, txnDate)
              case Err(_) => ResolveGroups(start, groups, methods, txnDate).Err?
              case Ok(next) => Resolving(start, groups, next, i + 1, methods, txnDate)
    {
      assert groups[i..][0] == groups[i] && groups[i..][1..] == groups[i + 1..];
      assert groups[i] in groups;
    }

    method ApplyAllFailures(trace: StateTrace, pr: PostingResolution, failures: seq<Failure>)
      modifies this`diags, pr
      ensures RunOf(trace, pr) == ApplyFailures(old(RunOf(trace, pr)), failures)
    {
      ghost var start := RunOf(trace, pr);
      for i := 0 to |failures|
        invariant ApplyFailures(start, failures) == ApplyFailures(RunOf(trace, pr), failures[i..])
      {
        assert failures[i..][1..] == failures[i + 1..];
        ghost var here := RunOf(trace, pr);
        var f := failures[i];
        diags := diags + [f.diag];
        pr.RecordUnknownFailed(f.at, f.currency);
        assert Holds() == here.state;
        assert RunOf(trace, pr) == here.Report(f.diag).(pr := here.pr.RecordUnknownFailed(f.at, f.currency));
      }
    }

    /** A single free unknown absorbs the only residual left; anything else is a finding. */
    method ResolveFreeResiduals(trace: StateTrace, pr: PostingResolution, free: seq<nat>, residuals: seq<Amount>, txnDate: nat)
      returns (r: Result<seq<Diag>, ()>)
      requires Tracks(trace) && UnknownInRange(|pr.postings|, free)
      modifies this`state, this`diags, trace, pr, state.Values
      ensures Tracks(trace) && fresh(state.Values - old(state.Values))
      ensures match ResolveFree(old(RunOf(trace, pr)), free, residuals, booking, txnDate)
              case Err(_) => r.Err?
              case Ok((next, found)) => r == Ok(found) && RunOf(trace, pr) == next
    {
      if |free| == 0 { return Ok([]); }
      if |free| > 1 { return Ok(AmbiguousDiags(pr.postings, free)); }
      var p := pr.postings[free[0]];
      if |residuals| != 1 || (p.amount.Some? && p.amount.value.number == 0.0) {
        return Ok([Diag(UnresolvableInterpolation, p.account)]);
      }
      var candidate := FreeCandidate(p, residuals[0], txnDate);
      var booked := BookCandidate(trace, pr, free[0], candidate, residuals[0].currency, txnDate);
      match booked {
        case Err(_) => return Err(());
        case Ok(None) => return Ok([]);
        case Ok(Some(d)) => return Ok([d]);
      }
    }

    method FailAllFree(trace: StateTrace, pr: PostingResolution, free: seq<nat>)
      modifies pr
      ensures pr.View() == FailFree(old(pr.View()), free)
    {
      for i := 0 to |free|
        invariant FailFree(old(pr.View()), free) == FailFree(pr.View(), free[i..])
      {
        assert free[i..][1..] == free[i + 1..];
        pr.RecordUnknownFailed(free[i], "");
      }
    }

    method AbsorbFreeUnknown(trace: StateTrace, pr: PostingResolution, free: seq<nat>, residuals: seq<Amount>, txnDate: nat) returns (ok: bool)
      requires Tracks(trace) && UnknownInRange(|pr.postings|, free)
      modifies this`state, this`diags, trace, pr, state.Values
      ensures Tracks(trace) && fresh(state.Values - old(state.Values))
      ensures var r := AbsorbFree(old(RunOf(trace, pr)), free, residuals, booking, txnDate);
              ok == r.Ok? && (ok ==> RunOf(trace, pr) == r.value)
    {
      var found := ResolveFreeResiduals(trace, pr, free, residuals, txnDate);
      if found.Err? { return false; }
      if |found.value| > 0 {
        ReportFree(trace, pr, free, found.value);
      }
      return true;
    }

    method ReportFree(trace: StateTrace, pr: PostingResolution, free: seq<nat>, found: seq<Diag>)
      modifies this`diags, pr
      ensures var run := old(RunOf(trace, pr));
              RunOf(trace, pr) == run.(diags := run.diags + found, pr := FailFree(run.pr, free))
    {
      ghost var held := Holds();
      diags := diags + found;
      FailAllFree(trace, pr, free);
      assert Holds() == held;
    }

    method BookUnknowns(trace: StateTrace, pr: PostingResolution, txnDate: nat) returns (ok: bool)
      requires Tracks(trace) && RefsInRange(pr.View())
      modifies this`state, this`diags, trace, pr, state.Values
      ensures Tracks(trace) && fresh(state.Values - old(state.Values))
      ensures var r := Pass2(old(RunOf(trace, pr)), booking, txnDate);
              ok == r.Ok? && (ok ==> RunOf(trace, pr) == r.value)
    {
      var residuals := GroupForResidual(pr);
      if residuals.Err? { return false; }
      var (groups, free) := residuals.value;
      ResidualsInRange(pr.View());
      ok := Interpolate(trace, pr, groups, free, txnDate);
    }

    /** Resolves the groups, reports what failed and lets a free unknown absorb what is left. */
    method Interpolate(trace: StateTrace, pr: PostingResolution, groups: seq<Group>, free: seq<nat>, txnDate: nat) returns (ok: bool)
      requires Tracks(trace) && GroupsInRange(|pr.postings|, groups) && UnknownInRange(|pr.postings|, free)
      modifies this`state, this`diags, trace, pr, state.Values
      ensures Tracks(trace) && fresh(state.Values - old(state.Values))
      ensures var r := Interpolated(old(RunOf(trace, pr)), groups, free, booking, txnDate);
              ok == r.Ok? && (ok ==> RunOf(trace, pr) == r.value)
    {
      var freeResiduals, failures;
      ok, freeResiduals, failures := ResolveResidualGroups(trace, pr, groups, txnDate);
      if !ok { return; }
      ApplyAllFailures(trace, pr, failures);
      ok := AbsorbFreeUnknown(trace, pr, free, freeResiduals, txnDate);
    }

    // ---------------------------------------------------------------- finalize

    method ReverseBooking(inv: Inventory, b: BookedPosting)
      modifies inv
      ensures inv.positions == Added(old(inv.positions), Inverse(b))
    {
      match b.reduction {
        case None => inv.Add(Position(Amount(-b.units.number, b.units.currency), b.lot));
        case Some(step) =>
          inv.Add(Position(Amount(step.units, b.units.currency), if IsRealLot(step.lot) then Some(step.lot) else None));
      }
    }

    /** Drops the failed groups, undoing their bookings, and binds the sources of the rest. */
    method FinalizeBooked(trace: StateTrace, pr: PostingResolution) returns (booked: seq<BookedPosting>)
      requires Tracks(trace) && WellFormed(pr.View())
      modifies this`state, trace, state.Values
      ensures Tracks(trace) && fresh(state.Values - old(state.Values))
      ensures RunOf(trace, pr) == RolledBack(old(RunOf(trace, pr)), 0)
      ensures booked == Sourced(pr.View(), 0)
    {
      booked := [];
      ghost var start := RunOf(trace, pr);
      for j := 0 to |pr.booked|
        invariant Tracks(trace) && fresh(state.Values - old(state.Values))
        invariant Settled(start, RunOf(trace, pr), j, booked)
      {
        booked := SettleOne(trace, pr, start, j, booked);
      }
      AllSettled(start, RunOf(trace, pr), booked);
    }

    /** The run and the records once the first `j` records are undone or bound. */
    static ghost predicate Settled(start: Run, run: Run, j: nat, booked: seq<BookedPosting>) {
      && WellFormed(start.pr) && run.pr == start.pr && j <= |start.pr.booked|
      && RolledBack(run, j) == RolledBack(start, 0)
      && booked + Sourced(start.pr, j) == Sourced(start.pr, 0)
    }

    static lemma {:induction false} AllSettled(start: Run, run: Run, booked: seq<BookedPosting>)
      requires Settled(start, run, |start.pr.booked|, booked)
      ensures run == RolledBack(start, 0) && booked == Sourced(start.pr, 0)
    {
      assert booked + [] == booked;
    }

    /** Undoes one dropped record, or binds the source of a surviving one. */
    method SettleOne(trace: StateTrace, pr: PostingResolution, ghost start: Run, j: nat, settled: seq<BookedPosting>)
      returns (booked: seq<BookedPosting>)
      requires Tracks(trace) && j < |pr.booked| && Settled(start, RunOf(trace, pr), j, settled)
      modifies this`state, trace, state.Values
      ensures Tracks(trace) && fresh(state.Values - old(state.Values))
      ensures Settled(start, RunOf(trace, pr), j + 1, booked)
    {
      var ref, b := pr.bookedDesc[j], pr.booked[j];
      if ref.currency in pr.dropped {
        UndoBooked(trace, pr, b);
        booked := settled;
      } else {
        var source := SurvivorIndex(pr, ref.at);
        booked := settled + [b.(source := Some(source))];
      }
    }

    method UndoBooked(trace: StateTrace, ghost pr: PostingResolution, b: BookedPosting)
      requires Tracks(trace)
      modifies this`state, trace, state.Values
      ensures Tracks(trace) && fresh(state.Values - old(state.Values))
      ensures RunOf(trace, pr) == Undo(old(RunOf(trace, pr)), b)
    {
      var inv := PrepareForRollback(trace, pr, b.account);
      ghost var e := RunOf(trace, pr);
      ReverseBooking(inv, b);
      assert Holds() == e.state[b.account := inv.positions];
    }

    /** Where a surviving posting lands among the survivors. */
    method SurvivorIndex(pr: PostingResolution, at: nat) returns (r: nat)
      requires at <= |pr.postings|
      ensures r == |Survivors(pr.View(), at)|
    {
      r := 0;
      for i := 0 to at
        invariant r == |Survivors(pr.View(), i)|
      {
        if Survives(pr.View(), i) {
          r := r + 1;
        }
      }
    }

    method SurvivingPostings(pr: PostingResolution) returns (r: seq<Posting>)
      ensures r == Survivors(pr.View(), |pr.postings|)
    {
      r := [];
      for i := 0 to |pr.postings|
        invariant r == Survivors(pr.View(), i)
      {
        if Survives(pr.View(), i) {
          r := r + [pr.postings[i]];
        }
      }
    }

    method BindSources(pr: PostingResolution) returns (booked: seq<BookedPosting>)
      requires WellFormed(pr.View())
      ensures booked == Bound(pr.View(), 0)
    {
      booked := [];
      for j := 0 to |pr.booked|
        invariant Bound(pr.View(), 0) == booked + Bound(pr.View(), j)
      {
        booked := booked + [pr.booked[j].(source := Some(pr.bookedDesc[j].at))];
      }
    }

    /** Books one transaction; an error is a broken invariant and halts the ledger. */
    method VisitTxn(postings: seq<Posting>, txnDate: nat) returns (r: Result<Visit, ()>)
      requires Valid()
      modifies this`state, this`diags, state.Values
      ensures Valid() && fresh(state.Values - old(state.Values))
      ensures r.Ok? <==> VisitOf(old(Holds()), old(diags), postings, booking, txnDate).Ok?
      ensures r.Ok? ==>
                && r == VisitOf(old(Holds()), old(diags), postings, booking, txnDate)
                && Holds() == r.value.state && diags == r.value.diags
    {
      var flaw := StructureError(postings, false);
      if flaw.Some? {
        diags := diags + [flaw.value];
        assert Holds() == old(Holds());
        return Ok(Visit(Holds(), diags, postings, [], map[], map[]));
      }
      var trace := new StateTrace();
      var pr := new PostingResolution();
      assert RunOf(trace, pr) == Start(old(Holds()), old(diags));
      var ok := BookBothPasses(trace, pr, postings, txnDate);
      if !ok { return Err(()); }
      var visit := FinalizeVisit(trace, pr);
      return Ok(visit);
    }

    method BookBothPasses(trace: StateTrace, pr: PostingResolution, postings: seq<Posting>, txnDate: nat) returns (ok: bool)
      requires Tracks(trace) && RunOf(trace, pr) == Start(Holds(), diags)
      modifies this`state, this`diags, trace, pr, state.Values
      ensures Tracks(trace) && fresh(state.Values - old(state.Values))
      ensures var r := Passes(old(Holds()), old(diags), postings, booking, txnDate);
              ok == r.Ok? && (ok ==> RunOf(trace, pr) == r.value)
    {
      Pass1KeepsWellFormed(RunOf(trace, pr), postings, booking, txnDate);
      ok := BookExplicitPostings(trace, pr, postings, txnDate);
      if !ok { return; }
      ok := BookUnknowns(trace, pr, txnDate);
    }

    method FinalizeVisit(trace: StateTrace, pr: PostingResolution) returns (visit: Visit)
      requires Tracks(trace) && WellFormed(pr.View())
      modifies this`state, trace, state.Values
      ensures Valid() && fresh(state.Values - old(state.Values))
      ensures visit == Finalize(old(RunOf(trace, pr)))
      ensures Holds() == visit.state && diags == visit.diags
    {
      var postings, booked;
      if pr.dropped == {} {
        postings := pr.postings;
        booked := BindSources(pr);
      } else {
        postings := SurvivingPostings(pr);
        booked := FinalizeBooked(trace, pr);
      }
      visit := Diff(trace, pr, postings, booked);
    }

    /** The before and after snapshots of the accounts the transaction changed. */
    method Diff(trace: StateTrace, ghost pr: PostingResolution, postings: seq<Posting>, booked: seq<BookedPosting>) returns (visit: Visit)
      requires Tracks(trace)
      ensures visit == Finish(RunOf(trace, pr), postings, booked)
    {
      var held := Holds();
      var shown: set<string> := {};
      var todo := trace.before.Keys;
      while todo != {}
        invariant todo <= trace.before.Keys
        invariant shown == set a | a in trace.before && a !in todo && !Untouched(RunOf(trace, pr), a)
        decreases todo
      {
        var account :| account in todo;
        var was := match trace.before[account] case Some(ps) => ps case None => [];
        if !(account in trace.rolledBack && held[account] == was) {
          shown := shown + {account};
        }
        todo := todo - {account};
      }
      visit := Visit(held, diags, postings, booked, map a | a in shown :: trace.before[a], map a | a in shown :: held[a]);
    }

    /**
     Resets the reducer and books the directives one after another, until the visitor
     stops it. The visitor may decide on everything it has been shown.
     */
    method Walk(ds: seq<Directive>, visitor: Visitor) returns (r: Result<seq<Directive>, ()>, seen: seq<Visit>)
      modifies this, state.Values
      ensures Valid() && fresh(state.Values)
      ensures r.Ok? <==> Walked(FRESH_WALK, ds, visitor).Ok?
      ensures r.Ok? ==>
                var w := Walked(FRESH_WALK, ds, visitor).value;
                r.value == w.out && seen == w.seen && Holds() == w.state && booking == w.booking && diags == w.diags
    {
      state, booking, diags := map[], map[], [];
      var out: seq<Directive> := [];
      seen := [];
      for i := 0 to |ds|
        invariant Valid() && fresh(state.Values)
        invariant Walked(FRESH_WALK, ds, visitor)
                  == Walked(Reductions.Walk(Holds(), booking, diags, out, seen, false), ds[i..], visitor)
      {
        assert ds[i..][0] == ds[i] && ds[i..][1..] == ds[i + 1..];
        ghost var held := Holds();
        match ds[i] {
          case Open(account, rule) =>
            booking := booking[account := rule];
            assert Holds() == held;
            out := out + [ds[i]];
          case Transaction(date, postings) =>
            var visit := VisitTxn(postings, date);
            if visit.Err? { return Err(()), seen; }
            out := out + [Transaction(date, visit.value.postings)];
            if Showable(visit.value) {
              seen := seen + [visit.value];
              if !visitor(seen) { return Ok(out), seen; }
            }
          case Other(_) =>
            out := out + [ds[i]];
        }
      }
      return Ok(out), seen;
    }
  }
}
