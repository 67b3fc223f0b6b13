/**
 Booking is a fixed point on its own output. When every lot a transaction reduces
 can be found again by its booked cost, booking the expanded output from the same
 starting state takes the very same steps and gives the very same result.
 */
module FixedPoint {
  import opened Prelude
  import opened Amounts
  import opened Inventories
  import opened InventoryLaws
  import opened Costs
  import opened Bookings
  import opened BookingLaws
  import opened Resolutions
  import opened Reductions
  import opened Conservation

  // ------------------------------------------------------------------ finding one lot again

  /** The matcher a booked cost makes; it leaves an empty tag and a zero date open. */
  function Tight(lot: Lot): Matcher {
    NewMatcher(Some(Booked(lot, None, None)), "", Amount(0.0, ""))
  }

  /** Position `i` is the only one the booked cost of its lot selects. */
  ghost predicate Sole(ps: seq<Position>, c: string, i: nat) {
    && i < |ps| && ps[i].units.currency == c && ps[i].cost.Some? && ps[i].cost.value.currency != ""
    && forall j :: 0 <= j < |ps| && Selected(ps[j], c, Tight(ps[i].cost.value)) ==> j == i
  }

  /** The nonzero lots of that commodity and cost currency oppose `units`. */
  ghost predicate GroupOpposed(ps: seq<Position>, c: string, currency: string, units: real) {
    forall p :: p in ps && InGroup(p, c, currency) && p.units.number != 0.0 ==> Sign(p.units.number) == -Sign(units)
  }

  /** What taking `take` units from a position does to the map. */
  function TakeChange(p: Position, take: real): Change {
    Change(p.units.currency, p.cost, if p.units.number >= 0.0 then -take else take)
  }

  lemma {:induction false} OnlyCandidate(ps: seq<Position>, c: string, m: Matcher, i: nat, n: nat)
    requires n <= |ps| && i < |ps| && Selected(ps[i], c, m)
    requires forall j :: 0 <= j < |ps| && Selected(ps[j], c, m) ==> j == i
    ensures Candidates(ps, c, m, n) == if i < n then [i] else []
  {
    if n > 0 {
      OnlyCandidate(ps, c, m, i, n - 1);
    }
  }

  /** A booked reducing posting for a lot that can be found again takes just that lot. */
  lemma {:induction false} ChildBooks(ps: seq<Position>, q: Posting, rule: BookingMethod, txnDate: nat, i: nat, units: Amount, take: real)
    requires q.amount == Some(units) && take == Abs(units.number) && rule !in {Average, NoBooking}
    requires Sole(ps, units.currency, i) && q.cost == Some(Booked(ps[i].cost.value, None, None))
    requires 0.0 < take <= Abs(ps[i].units.number)
    requires Reduces(ps, units, ps[i].cost.value.currency, rule)
    ensures OutcomeOf(ps, q, rule, txnDate) == Consumed(Realized([PlainStep(ps[i].cost.value, take)], q.price, units))
    ensures BookedPositions(ps, q, rule, txnDate) == Compacted(ps[i := Shrunk(ps[i], take)])
    ensures BookChanges(ps, q, rule, txnDate) == [TakeChange(ps[i], take)]
  {
    var lot := ps[i].cost.value;
    var m := MatcherOf(q, units);
    assert m == Tight(lot);
    assert Selected(ps[i], units.currency, m);
    OnlyCandidate(ps, units.currency, m, i, |ps|);
    OneCandidateReduces(ps, units, m, rule, i);
    assert Hint(q) == lot.currency;
  }

  lemma {:induction false} OneCandidateReduces(ps: seq<Position>, units: Amount, m: Matcher, rule: BookingMethod, i: nat)
    requires Candidates(ps, units.currency, m, |ps|) == [i] && i < |ps|
    requires 0.0 < Abs(units.number) <= Abs(ps[i].units.number) && rule !in {Average, NoBooking}
    ensures ReduceResultOf(ps, units, m, rule) == Reduced([PlainStep(LotOf(ps[i]), Abs(units.number))])
    ensures ReducedPositions(ps, units, m, rule) == Compacted(ps[i := Shrunk(ps[i], Abs(units.number))])
    ensures ReduceChanges(ps, units, m, rule)
            == [TakeChange(ps[i], Abs(units.number))]
  {
    var cs, rest: seq<nat> := [i], [];
    assert cs[..0] == [] && cs[1..] == rest;
    assert Ordered(ps, rule == Lifo, cs[..0]) == [];
    assert Consumption(ps, units.currency, m, rule) == [i];
    assert Available(ps, cs) == Abs(ps[i].units.number);
    var remaining := Abs(units.number);
    assert Min(remaining, Abs(ps[i].units.number)) == remaining;
    assert Steps(ps, rest, 0.0) == [];
    assert Steps(ps, [i], remaining) == [PlainStep(LotOf(ps[i]), remaining)];
    assert Drained(ps, [i], remaining) == Drained(ps[i := Shrunk(ps[i], remaining)], rest, 0.0);
    assert StepChanges(ps, [i], remaining)
        == [TakeChange(ps[i], remaining)];
  }

  /** An opposed group makes a posting reduce. */
  lemma {:induction false} OpposedGroupReduces(ps: seq<Position>, units: Amount, currency: string, rule: BookingMethod, i: nat)
    requires i < |ps| && InGroup(ps[i], units.currency, currency)
    requires NoEmptySlot(ps) && GroupOpposed(ps, units.currency, currency, units.number)
    requires units.number != 0.0 && rule != NoBooking
    ensures Reduces(ps, units, currency, rule)
  {
    assert ps[i] in ps;
    var first := FirstInGroup(ps, units.currency, currency);
    assert first.Some?;
    var k :| 0 <= k < |ps| && ps[k] == first.value;
  }

  // ------------------------------------------------------------------ compaction and draining commute

  /** Where slot `o` of `d` sits after compaction, and that updates there commute with it. */
  lemma {:induction false} CompactedSlot(d: seq<Position>, o: nat, q: Position) returns (i: nat)
    requires o < |d| && d[o].units.number != 0.0
    ensures i < |Compacted(d)| && Compacted(d)[i] == d[o]
    ensures Compacted(Compacted(d)[i := q]) == Compacted(d[o := q])
    ensures forall j :: 0 <= j < |Compacted(d)| && j != i ==> exists k :: 0 <= k < |d| && k != o && d[k] == Compacted(d)[j]
  {
    var c := Compacted(d);
    if o == 0 {
      i := 0;
      assert d[0 := q][1..] == d[1..] && c[0 := q][1..] == Compacted(d[1..]);
      CompactingTwice(d[1..]);
      CompactedIsTheNonzeroPart(d[1..]);
      forall j | 0 <= j < |c| && j != 0 ensures exists k :: 0 <= k < |d| && k != o && d[k] == c[j] {
        assert c[j] == Compacted(d[1..])[j - 1] && Compacted(d[1..])[j - 1] in Compacted(d[1..]);
        var k :| 0 <= k < |d[1..]| && d[1..][k] == c[j];
        assert d[k + 1] == c[j];
      }
    } else {
      var rest := d[1..];
      var i0 := CompactedSlot(rest, o - 1, q);
      var cr := Compacted(rest);
      i := if d[0].units.number == 0.0 then i0 else i0 + 1;
      assert d[o := q][1..] == rest[o - 1 := q];
      if d[0].units.number != 0.0 {
        assert c[i := q][1..] == cr[i0 := q];
      }
      forall j | 0 <= j < |c| && j != i ensures exists k :: 0 <= k < |d| && k != o && d[k] == c[j] {
        if d[0].units.number != 0.0 && j == 0 {
          assert d[0] == c[0];
        } else {
          var j0 := if d[0].units.number == 0.0 then j else j - 1;
          assert cr[j0] == c[j];
          var k :| 0 <= k < |rest| && k != o - 1 && rest[k] == cr[j0];
          assert d[k + 1] == c[j];
        }
      }
    }
  }

  lemma {:induction false} CompactingTwice(d: seq<Position>)
    ensures Compacted(Compacted(d)) == Compacted(d)
  {
    CompactedIsTheNonzeroPart(d);
    CompactingNothing(Compacted(d));
  }

  lemma {:induction false} CompactingNothing(d: seq<Position>)
    requires NoEmptySlot(d)
    ensures Compacted(d) == d
  {
    if d != [] {
      assert forall k :: 0 <= k < |d[1..]| ==> d[1..][k] == d[k + 1];
      CompactingNothing(d[1..]);
    }
  }

  // ------------------------------------------------------------------ chains of bookings

  /** Booking posting `k` leads from run `k` to run `k + 1`. */
  ghost predicate Link(runs: seq<Run>, postings: seq<Posting>, methods: Methods, txnDate: nat, k: nat)
    requires k < |postings| < |runs|
  {
    BookNext(runs[k], postings[k], methods, txnDate) == Ok(runs[k + 1])
  }

  /** The runs pass 1 goes through when it books `postings`. */
  ghost predicate Chain(runs: seq<Run>, postings: seq<Posting>, methods: Methods, txnDate: nat) {
    |runs| == |postings| + 1 && forall k :: 0 <= k < |postings| ==> Link(runs, postings, methods, txnDate, k)
  }

  lemma {:induction false} ChainIsPass1(runs: seq<Run>, postings: seq<Posting>, methods: Methods, txnDate: nat)
    requires Chain(runs, postings, methods, txnDate)
    ensures Pass1(runs[0], postings, methods, txnDate) == Ok(runs[|postings|])
    decreases |postings|
  {
    if postings != [] {
      forall k | 0 <= k < |postings[1..]| ensures Link(runs[1..], postings[1..], methods, txnDate, k) {
        assert Link(runs, postings, methods, txnDate, k + 1);
      }
      ChainIsPass1(runs[1..], postings[1..], methods, txnDate);
      assert Link(runs, postings, methods, txnDate, 0);
    }
  }

  lemma {:induction false} ChainsJoin(r1: seq<Run>, p1: seq<Posting>, r2: seq<Run>, p2: seq<Posting>, methods: Methods, txnDate: nat)
    requires Chain(r1, p1, methods, txnDate) && Chain(r2, p2, methods, txnDate) && r1[|p1|] == r2[0]
    ensures Chain(r1[..|p1|] + r2, p1 + p2, methods, txnDate)
    ensures (r1[..|p1|] + r2)[0] == r1[0] && (r1[..|p1|] + r2)[|p1 + p2|] == r2[|p2|]
  {
    var runs, ps, n := r1[..|p1|] + r2, p1 + p2, |p1|;
    forall k | 0 <= k < |ps| ensures Link(runs, ps, methods, txnDate, k) {
      if k < n {
        assert Link(r1, p1, methods, txnDate, k);
        assert runs[k + 1] == r1[k + 1];
        LinkMoves(r1, p1, k, runs, ps, k, methods, txnDate);
      } else {
        assert Link(r2, p2, methods, txnDate, k - n);
        LinkMoves(r2, p2, k - n, runs, ps, k, methods, txnDate);
      }
    }
  }

  lemma {:induction false} LinkMoves(r1: seq<Run>, p1: seq<Posting>, j: nat, runs: seq<Run>, ps: seq<Posting>, k: nat, methods: Methods, txnDate: nat)
    requires j < |p1| < |r1| && k < |ps| < |runs| && Link(r1, p1, methods, txnDate, j)
    requires runs[k] == r1[j] && runs[k + 1] == r1[j + 1] && ps[k] == p1[j]
    ensures Link(runs, ps, methods, txnDate, k)
  {
  }

  lemma {:induction false} OneLink(run: Run, p: Posting, next: Run, methods: Methods, txnDate: nat)
    requires BookNext(run, p, methods, txnDate) == Ok(next)
    ensures Chain([run, next], [p], methods, txnDate)
  {
    assert Link([run, next], [p], methods, txnDate, 0);
  }

  // ------------------------------------------------------------------ one reduction, lot by lot

  /** Every lot in `order` can be found again by its booked cost and opposes `units`. */
  ghost predicate Traceable(d: seq<Position>, order: seq<nat>, c: string, units: real) {
    forall k :: 0 <= k < |order| ==>
      Sole(d, c, order[k]) && GroupOpposed(d, c, d[order[k]].cost.value.currency, units)
  }

  /** Changing only a number, and only towards zero, keeps lots traceable. */
  lemma {:induction false} ShrinkingKeepsTraceable(d: seq<Position>, o: nat, take: real, order: seq<nat>, c: string, units: real)
    requires o < |d| && 0.0 <= take <= Abs(d[o].units.number) && Traceable(d, order, c, units)
    ensures Traceable(d[o := Shrunk(d[o], take)], order, c, units)
  {
    var e := d[o := Shrunk(d[o], take)];
    forall k | 0 <= k < |order|
      ensures Sole(e, c, order[k]) && GroupOpposed(e, c, e[order[k]].cost.value.currency, units)
    {
      var lot := d[order[k]].cost.value;
      assert Sole(d, c, order[k]) && GroupOpposed(d, c, lot.currency, units);
      forall j | 0 <= j < |e| && Selected(e[j], c, Tight(lot)) ensures j == order[k] {
        assert Selected(d[j], c, Tight(lot));
      }
      forall p | p in e && InGroup(p, c, lot.currency) && p.units.number != 0.0
        ensures Sign(p.units.number) == -Sign(units)
      {
        var j :| 0 <= j < |e| && e[j] == p;
        assert d[j] in d && InGroup(d[j], c, lot.currency);
      }
    }
  }

  lemma {:induction false} CompactingKeepsSole(d: seq<Position>, o: nat, i: nat, c: string)
    requires Sole(d, c, o) && i < |Compacted(d)| && Compacted(d)[i] == d[o]
    requires forall j :: 0 <= j < |Compacted(d)| && j != i ==> exists k :: 0 <= k < |d| && k != o && d[k] == Compacted(d)[j]
    ensures Sole(Compacted(d), c, i)
  {
  }

  lemma {:induction false} RealizedOne(plain: Step, price: Option<Price>, units: Amount)
    ensures Realized([plain], price, units)
            == if price.None? || price.value.amount.currency == "" || SalePrice(price.value, units).None? then [plain]
               else [WithGain(plain, SalePrice(price.value, units).value, price.value.amount.currency)]
  {
    var none: seq<Step> := [];
    assert [plain][1..] == none;
  }

  /** The price of a child and the price of its parent realize the same step. */
  lemma {:induction false} ChildRealizesTheSame(p: Posting, plain: Step, step: Step)
    requires p.amount.Some? && p.amount.value.number != 0.0
    requires Realized([plain], p.price, p.amount.value) == [step]
    requires plain.salePrice.None?
    ensures var q := Child(p, step);
            Realized([plain], q.price, q.amount.value) == [step] && step.lot == plain.lot && step.units == plain.units
  {
    var q := Child(p, step);
    RealizedOne(plain, p.price, p.amount.value);
    RealizedOne(plain, q.price, q.amount.value);
    assert Realized([plain], p.price, p.amount.value)[0] == step;
  }

  lemma {:induction false} RealizedHead(steps: seq<Step>, price: Option<Price>, units: Amount)
    requires steps != []
    ensures Realized(steps, price, units) == Realized([steps[0]], price, units) + Realized(steps[1..], price, units)
  {
    assert [steps[0]][1..] == [];
    assert steps == [steps[0]] + steps[1..];
  }

  /** What booking the children of a reduction does to the run. */
  function AfterChildren(run: Run, p: Posting, steps: seq<Step>, ps: seq<Position>, changes: seq<Change>): Run
    requires p.amount.Some?
  {
    run.Put(p.account, ps).(
      pr := run.pr.AddChildren(p, steps),
      log := run.log + changes)
  }

  /** A child about to take `step` from slot `o`, whose lot can be found again and opposes it. */
  ghost predicate Takes(p: Posting, step: Step, d: seq<Position>, o: nat, rule: BookingMethod) {
    && p.amount.Some? && p.amount.value.number != 0.0 && rule !in {Average, NoBooking}
    && Sole(d, p.amount.value.currency, o)
    && GroupOpposed(d, p.amount.value.currency, d[o].cost.value.currency, p.amount.value.number)
    && d[o].units.number != 0.0 && 0.0 < step.units <= Abs(d[o].units.number)
    && Realized([PlainStep(d[o].cost.value, step.units)], p.price, p.amount.value) == [step]
  }

  /** The outcome of booking one child, wherever its lot now sits. */
  lemma {:induction false} ChildOutcome(p: Posting, step: Step, d: seq<Position>, o: nat, rule: BookingMethod, txnDate: nat)
    requires Takes(p, step, d, o, rule)
    ensures OutcomeOf(Compacted(d), Child(p, step), rule, txnDate) == Consumed([step])
    ensures BookedPositions(Compacted(d), Child(p, step), rule, txnDate) == Compacted(d[o := Shrunk(d[o], step.units)])
    ensures BookChanges(Compacted(d), Child(p, step), rule, txnDate) == [TakeChange(d[o], step.units)]
    ensures step.lot == d[o].cost.value
  {
    var q, ps := Child(p, step), Compacted(d);
    var i := ChildFound(p, q, d, o, rule, step.units);
    ChildRealizesTheSame(p, PlainStep(d[o].cost.value, step.units), step);
    ChildBooks(ps, q, rule, txnDate, i, q.amount.value, step.units);
  }

  /** Where the child finds its lot, and that it reduces there. */
  lemma {:induction false} ChildFound(p: Posting, q: Posting, d: seq<Position>, o: nat, rule: BookingMethod, take: real) returns (i: nat)
    requires p.amount.Some? && q.amount.Some? && p.amount.value.number != 0.0 && rule != NoBooking
    requires q.amount.value.currency == p.amount.value.currency && Sign(q.amount.value.number) == Sign(p.amount.value.number)
    requires Sole(d, p.amount.value.currency, o) && d[o].units.number != 0.0
    requires GroupOpposed(d, p.amount.value.currency, d[o].cost.value.currency, p.amount.value.number)
    ensures Sole(Compacted(d), p.amount.value.currency, i) && Compacted(d)[i] == d[o]
    ensures Reduces(Compacted(d), q.amount.value, d[o].cost.value.currency, rule)
    ensures Compacted(Compacted(d)[i := Shrunk(d[o], take)]) == Compacted(d[o := Shrunk(d[o], take)])
  {
    i := CompactedSlot(d, o, Shrunk(d[o], take));
    CompactingKeepsSole(d, o, i, p.amount.value.currency);
    CompactedIsTheNonzeroPart(d);
    GroupStaysOpposed(d, q, p, d[o].cost.value.currency);
    OpposedGroupReduces(Compacted(d), q.amount.value, d[o].cost.value.currency, rule, i);
  }

  lemma {:induction false} GroupStaysOpposed(d: seq<Position>, q: Posting, p: Posting, currency: string)
    requires p.amount.Some? && q.amount.Some? && Sign(q.amount.value.number) == Sign(p.amount.value.number)
    requires GroupOpposed(d, p.amount.value.currency, currency, p.amount.value.number)
    ensures GroupOpposed(Compacted(d), p.amount.value.currency, currency, q.amount.value.number)
  {
    CompactedIsTheNonzeroPart(d);
  }

  /** Booking one child takes its step. */
  lemma {:induction false} ChildStep(run: Run, p: Posting, step: Step, d: seq<Position>, o: nat, methods: Methods, txnDate: nat)
    requires Takes(p, step, d, o, MethodOf(methods, p.account))
    requires p.account in run.before && p.account in run.state && run.state[p.account] == Compacted(d)
    ensures BookNext(run, Child(p, step), methods, txnDate)
            == Ok(AfterChildren(run, p, [step], Compacted(d[o := Shrunk(d[o], step.units)]), [TakeChange(d[o], step.units)]))
  {
    var q, rule := Child(p, step), MethodOf(methods, p.account);
    ChildOutcome(p, step, d, o, rule, txnDate);
    var (done, r) := Booking(run, q, methods, txnDate);
    assert r == Consumed([step]);
    var none: seq<Step> := [];
    assert [step][1..] == none;
    var added := run.pr.AddBooked(q, Record(q, None, Some(step), false), step.lot.currency);
    assert run.pr.AddChildren(p, [step]) == added.AddChildren(p, none) == added;
    assert Filed(run.pr, q, None, [step]) == Ok(added);
  }

  lemma {:induction false} AddChildrenSplit(pr: Resolution, p: Posting, steps: seq<Step>)
    requires p.amount.Some? && steps != []
    ensures pr.AddChildren(p, steps) == pr.AddChildren(p, [steps[0]]).AddChildren(p, steps[1..])
  {
    var none: seq<Step> := [];
    assert [steps[0]][1..] == none;
  }

  /** A run about to book the children of a reduction along `order`. */
  ghost predicate Ready(run: Run, p: Posting, d: seq<Position>, order: seq<nat>, remaining: real, methods: Methods) {
    && p.amount.Some? && p.amount.value.number != 0.0 && remaining >= 0.0
    && MethodOf(methods, p.account) !in {Average, NoBooking}
    && p.account in run.before && p.account in run.state && run.state[p.account] == Compacted(d)
    && InRange(d, order) && Distinct(order)
    && Traceable(d, order, p.amount.value.currency, p.amount.value.number)
    && forall k :: 0 <= k < |order| ==> d[order[k]].units.number != 0.0
  }

  /** The lots after the first child took `take`. */
  function AfterFirst(d: seq<Position>, order: seq<nat>, take: real): seq<Position>
    requires order != [] && order[0] < |d|
  {
    d[order[0] := Shrunk(d[order[0]], take)]
  }

  lemma {:induction false} FirstIsReady(run: Run, p: Posting, d: seq<Position>, order: seq<nat>, remaining: real, head: Step, methods: Methods, txnDate: nat)
    returns (next: Run)
    requires Ready(run, p, d, order, remaining, methods) && order != [] && remaining != 0.0
    requires head.units == Min(remaining, Abs(d[order[0]].units.number))
    requires Realized([PlainStep(LotOf(d[order[0]]), head.units)], p.price, p.amount.value) == [head]
    ensures BookNext(run, Child(p, head), methods, txnDate) == Ok(next)
    ensures next == AfterChildren(run, p, [head], Compacted(AfterFirst(d, order, head.units)), [TakeChange(d[order[0]], head.units)])
  {
    assert Sole(d, p.amount.value.currency, order[0]);
    ChildStep(run, p, head, d, order[0], methods, txnDate);
    next := BookNext(run, Child(p, head), methods, txnDate).value;
  }

  /** The lots that the other children need stay as they were. */
  lemma {:induction false} OthersStayReady(d: seq<Position>, order: seq<nat>, take: real, c: string, units: real)
    requires InRange(d, order) && Distinct(order) && order != [] && Traceable(d, order, c, units)
    requires 0.0 <= take <= Abs(d[order[0]].units.number)
    requires forall k :: 0 <= k < |order| ==> d[order[k]].units.number != 0.0
    ensures var e := AfterFirst(d, order, take);
            && InRange(e, order[1..]) && Distinct(order[1..]) && Traceable(e, order[1..], c, units)
            && forall k :: 0 <= k < |order[1..]| ==> e[order[1..][k]].units.number != 0.0
  {
    var e := AfterFirst(d, order, take);
    ShrinkingKeepsTraceable(d, order[0], take, order, c, units);
    assert forall k :: 0 <= k < |order[1..]| ==> order[1..][k] == order[k + 1];
  }

  lemma {:induction false} FirstOfMany(d: seq<Position>, order: seq<nat>, remaining: real, take: real, e: seq<Position>)
    requires InRange(d, order) && Distinct(order) && order != [] && remaining != 0.0
    requires take == Min(remaining, Abs(d[order[0]].units.number)) && e == AfterFirst(d, order, take)
    ensures SameEnd(d, order, remaining, e, remaining - take, TakeChange(d[order[0]], take))
    ensures Steps(e, order[1..], remaining - take) == Steps(d, order[1..], remaining - take)
  {
    RestOfChildren(e, d, order, order[0], remaining - take);
  }

  /** The run after children taking `steps` drained `d` along `order`. */
  function RunAfter(run: Run, p: Posting, d: seq<Position>, order: seq<nat>, remaining: real, steps: seq<Step>): Run
    requires InRange(d, order) && p.amount.Some?
  {
    AfterChildren(run, p, steps, Compacted(Drained(d, order, remaining)), StepChanges(d, order, remaining))
  }

  /** Draining the rest of `order` from `e` ends where draining `order` from `d` does. */
  ghost predicate SameEnd(d: seq<Position>, order: seq<nat>, remaining: real, e: seq<Position>, left: real, change: Change) {
    && InRange(d, order) && order != [] && InRange(e, order[1..])
    && StepChanges(d, order, remaining) == [change] + StepChanges(e, order[1..], left)
    && Drained(d, order, remaining) == Drained(e, order[1..], left)
  }

  lemma {:induction false} ReadyAgain(run: Run, p: Posting, d: seq<Position>, order: seq<nat>, remaining: real, head: Step,
                   next: Run, e: seq<Position>, methods: Methods)
    requires Ready(run, p, d, order, remaining, methods) && order != [] && remaining != 0.0
    requires head.units == Min(remaining, Abs(d[order[0]].units.number)) && e == AfterFirst(d, order, head.units)
    requires next == AfterChildren(run, p, [head], Compacted(e), [TakeChange(d[order[0]], head.units)])
    ensures Ready(next, p, e, order[1..], remaining - head.units, methods)
  {
    OthersStayReady(d, order, head.units, p.amount.value.currency, p.amount.value.number);
  }

  /** The run after the first child, then the others, is the run after them all. */
  lemma {:induction false} ChainOfChildren(run: Run, p: Posting, d: seq<Position>, order: seq<nat>, remaining: real, head: Step, rest: seq<Step>,
                        next: Run, e: seq<Position>)
    requires p.amount.Some? && order != [] && InRange(d, order)
    requires next == AfterChildren(run, p, [head], Compacted(e), [TakeChange(d[order[0]], head.units)])
    requires SameEnd(d, order, remaining, e, remaining - head.units, TakeChange(d[order[0]], head.units))
    ensures RunAfter(next, p, e, order[1..], remaining - head.units, rest) == RunAfter(run, p, d, order, remaining, [head] + rest)
  {
    var end, changes := Compacted(Drained(d, order, remaining)), StepChanges(e, order[1..], remaining - head.units);
    ChildrenCompose(run, p, head, rest, Compacted(e), end, TakeChange(d[order[0]], head.units), changes);
  }

  /** The first child as a chain of its own. */
  lemma {:induction false} FirstLink(run: Run, p: Posting, d: seq<Position>, order: seq<nat>, remaining: real, head: Step, next: Run,
                  methods: Methods, txnDate: nat)
    requires Ready(run, p, d, order, remaining, methods) && order != [] && remaining != 0.0
    requires head.units == Min(remaining, Abs(d[order[0]].units.number))
    requires Realized([PlainStep(LotOf(d[order[0]]), head.units)], p.price, p.amount.value) == [head]
    requires next == AfterChildren(run, p, [head], Compacted(AfterFirst(d, order, head.units)), [TakeChange(d[order[0]], head.units)])
    ensures Chain([run, next], [Child(p, head)], methods, txnDate)
  {
    var n := FirstIsReady(run, p, d, order, remaining, head, methods, txnDate);
    OneLink(run, Child(p, head), n, methods, txnDate);
  }

  /** The children of `steps` book one by one over `runs`. */
  ghost predicate Rebook(run: Run, p: Posting, steps: seq<Step>, end: Run, runs: seq<Run>, methods: Methods, txnDate: nat) {
    p.amount.Some? && Chain(runs, Children(p, steps), methods, txnDate) && runs[0] == run && runs[|runs| - 1] == end
  }

  lemma {:induction false} FirstAndRest(run: Run, p: Posting, steps: seq<Step>, head: Step, rest: seq<Step>, next: Run, tail: seq<Run>, end: Run,
                     methods: Methods, txnDate: nat) returns (runs: seq<Run>)
    requires p.amount.Some? && steps == [head] + rest && Chain([run, next], [Child(p, head)], methods, txnDate)
    requires Rebook(next, p, rest, end, tail, methods, txnDate)
    ensures Rebook(run, p, steps, end, runs, methods, txnDate)
  {
    ChainsJoin([run, next], [Child(p, head)], tail, Children(p, rest), methods, txnDate);
    assert ([head] + rest)[1..] == rest;
    assert Children(p, [head] + rest) == [Child(p, head)] + Children(p, rest);
    runs := [run, next][..1] + tail;
  }

  /** Taking the rest along `order` gives `steps` and leads to `end`. */
  ghost predicate Taking(run: Run, p: Posting, d: seq<Position>, order: seq<nat>, remaining: real, steps: seq<Step>, end: Run, methods: Methods) {
    && Ready(run, p, d, order, remaining, methods)
    && steps == Realized(Steps(d, order, remaining), p.price, p.amount.value)
    && end == RunAfter(run, p, d, order, remaining, steps)
  }

  /** Booking all children in order takes the steps of the reduction one by one. */
  lemma {:induction false} ChildrenRebook(run: Run, p: Posting, d: seq<Position>, order: seq<nat>, remaining: real,
                                          steps: seq<Step>, end: Run, methods: Methods, txnDate: nat) returns (runs: seq<Run>)
    requires Taking(run, p, d, order, remaining, steps, end, methods)
    ensures Rebook(run, p, steps, end, runs, methods, txnDate)
    decreases |order|
  {
    if order == [] || remaining == 0.0 {
      runs := NothingRebooks(run, p, d, order, remaining, steps, end, methods, txnDate);
    } else {
      var head, rest, next, e := FirstRebooks(run, p, d, order, remaining, steps, end, methods, txnDate);
      var tail := ChildrenRebook(next, p, e, order[1..], remaining - head.units, rest, end, methods, txnDate);
      runs := FirstAndRest(run, p, steps, head, rest, next, tail, end, methods, txnDate);
    }
  }

  lemma {:induction false} NothingRebooks(run: Run, p: Posting, d: seq<Position>, order: seq<nat>, remaining: real,
                                          steps: seq<Step>, end: Run, methods: Methods, txnDate: nat) returns (runs: seq<Run>)
    requires Taking(run, p, d, order, remaining, steps, end, methods) && (order == [] || remaining == 0.0)
    ensures Rebook(run, p, steps, end, runs, methods, txnDate)
  {
    NoChildren(run, p, Compacted(d));
    runs := [run];
  }

  /** `head` is the first of `steps`, and `next` the run once the first child has taken it. */
  ghost predicate IsFirst(run: Run, p: Posting, d: seq<Position>, order: seq<nat>, remaining: real, steps: seq<Step>,
                          head: Step, rest: seq<Step>, next: Run)
    requires p.amount.Some? && InRange(d, order) && order != []
  {
    && steps == [head] + rest && head.units == Min(remaining, Abs(d[order[0]].units.number))
    && rest == Realized(Steps(d, order[1..], remaining - head.units), p.price, p.amount.value)
    && next == AfterChildren(run, p, [head], Compacted(AfterFirst(d, order, head.units)), [TakeChange(d[order[0]], head.units)])
  }

  lemma {:induction false} FirstBooks(run: Run, p: Posting, d: seq<Position>, order: seq<nat>, remaining: real, steps: seq<Step>,
                                      methods: Methods, txnDate: nat) returns (head: Step, rest: seq<Step>, next: Run)
    requires Ready(run, p, d, order, remaining, methods) && order != [] && remaining != 0.0
    requires steps == Realized(Steps(d, order, remaining), p.price, p.amount.value)
    ensures IsFirst(run, p, d, order, remaining, steps, head, rest, next)
    ensures Chain([run, next], [Child(p, head)], methods, txnDate)
    ensures Ready(next, p, AfterFirst(d, order, head.units), order[1..], remaining - head.units, methods)
  {
    head, rest := FirstStep(d, order, remaining, p.price, p.amount.value);
    next := AfterChildren(run, p, [head], Compacted(AfterFirst(d, order, head.units)), [TakeChange(d[order[0]], head.units)]);
    FirstLink(run, p, d, order, remaining, head, next, methods, txnDate);
    ReadyAgain(run, p, d, order, remaining, head, next, AfterFirst(d, order, head.units), methods);
  }

  lemma {:induction false} OthersFollow(run: Run, p: Posting, d: seq<Position>, order: seq<nat>, remaining: real, steps: seq<Step>,
                                        head: Step, rest: seq<Step>, next: Run)
    requires p.amount.Some? && InRange(d, order) && Distinct(order) && order != [] && remaining != 0.0
    requires IsFirst(run, p, d, order, remaining, steps, head, rest, next)
    ensures var e := AfterFirst(d, order, head.units);
            && InRange(e, order[1..]) && rest == Realized(Steps(e, order[1..], remaining - head.units), p.price, p.amount.value)
            && RunAfter(next, p, e, order[1..], remaining - head.units, rest) == RunAfter(run, p, d, order, remaining, steps)
  {
    var e := AfterFirst(d, order, head.units);
    FirstOfMany(d, order, remaining, head.units, e);
    ChainOfChildren(run, p, d, order, remaining, head, rest, next, e);
  }

  /** The first child books to where the others take their steps one by one. */
  lemma {:induction false} FirstRebooks(run: Run, p: Posting, d: seq<Position>, order: seq<nat>, remaining: real,
                                        steps: seq<Step>, end: Run, methods: Methods, txnDate: nat)
    returns (head: Step, rest: seq<Step>, next: Run, e: seq<Position>)
    requires Taking(run, p, d, order, remaining, steps, end, methods) && order != [] && remaining != 0.0
    ensures p.amount.Some? && steps == [head] + rest && Chain([run, next], [Child(p, head)], methods, txnDate)
    ensures Taking(next, p, e, order[1..], remaining - head.units, rest, end, methods)
  {
    head, rest, next := FirstBooks(run, p, d, order, remaining, steps, methods, txnDate);
    OthersFollow(run, p, d, order, remaining, steps, head, rest, next);
    e := AfterFirst(d, order, head.units);
  }

  lemma {:induction false} NoChildren(run: Run, p: Posting, ps: seq<Position>)
    requires p.amount.Some? && p.account in run.state && run.state[p.account] == ps
    ensures AfterChildren(run, p, [], ps, []) == run
  {
    assert run.log + [] == run.log && run.state[p.account := ps] == run.state;
  }

  lemma {:induction false} ChildrenCompose(run: Run, p: Posting, head: Step, rest: seq<Step>, mid: seq<Position>, end: seq<Position>,
                        change: Change, changes: seq<Change>)
    requires p.amount.Some?
    ensures AfterChildren(AfterChildren(run, p, [head], mid, [change]), p, rest, end, changes)
            == AfterChildren(run, p, [head] + rest, end, [change] + changes)
  {
    assert ([head] + rest)[1..] == rest;
    AddChildrenSplit(run.pr, p, [head] + rest);
    assert (run.log + [change]) + changes == run.log + ([change] + changes);
    assert run.state[p.account := mid][p.account := end] == run.state[p.account := end];
  }

  /** The first realized step of a reduction, and the realized rest. */
  lemma {:induction false} FirstStep(d: seq<Position>, order: seq<nat>, remaining: real, price: Option<Price>, units: Amount)
    returns (head: Step, rest: seq<Step>)
    requires InRange(d, order) && order != [] && remaining != 0.0
    ensures var take := Min(remaining, Abs(d[order[0]].units.number));
            && Realized([PlainStep(LotOf(d[order[0]]), take)], price, units) == [head]
            && head.units == take
            && rest == Realized(Steps(d, order[1..], remaining - take), price, units)
            && Realized(Steps(d, order, remaining), price, units) == [head] + rest
  {
    var take := Min(remaining, Abs(d[order[0]].units.number));
    var plain := PlainStep(LotOf(d[order[0]]), take);
    RealizedHead(Steps(d, order, remaining), price, units);
    assert Steps(d, order, remaining)[1..] == Steps(d, order[1..], remaining - take);
    RealizedOne(plain, price, units);
    head, rest := Realized([plain], price, units)[0], Realized(Steps(d, order[1..], remaining - take), price, units);
  }

  /** The later steps do not see the first one. */
  lemma {:induction false} RestOfChildren(e: seq<Position>, d: seq<Position>, order: seq<nat>, o: nat, remaining: real)
    requires order != [] && o == order[0] && InRange(d, order) && Distinct(order) && |e| == |d|
    requires forall j :: 0 <= j < |d| && j != o ==> e[j] == d[j]
    ensures InRange(e, order[1..]) && Distinct(order[1..])
    ensures forall k :: 0 <= k < |order[1..]| ==> e[order[1..][k]] == d[order[1..][k]]
    ensures Steps(e, order[1..], remaining) == Steps(d, order[1..], remaining)
    ensures StepChanges(e, order[1..], remaining) == StepChanges(d, order[1..], remaining)
  {
    assert forall k :: 0 <= k < |order[1..]| ==> order[1..][k] == order[k + 1];
    StepsReadOnlyTheirOwnSlots(e, d, order[1..], remaining);
  }
}
