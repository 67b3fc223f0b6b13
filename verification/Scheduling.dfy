/**
 The level-synchronised fetch: what one level does, as functions of the units. A
 source is asked once per level for all units that currently fall back to it.
 */
module Scheduling {
  datatype Pair = Pair(commodity: string, quoteCurrency: string)

  datatype SourceRef = SourceRef(source: string, symbol: string)

  datatype Request = Request(pair: Pair, sources: seq<SourceRef>)

  /** A request on its way down its fallback chain. */
  datatype Unit = Unit(req: Request, depth: nat, done: bool, got: bool)

  datatype Query = Query(pair: Pair, symbol: string)

  /** `rest` stands for the number and the date. */
  datatype Price = Price(pair: Pair, rest: int)

  datatype Code = SourceUnknown | ModeUnsupported | FetchError | FromSource(id: int)

  datatype Diag = Diag(code: Code, source: string, pair: Pair)

  /** What comes of asking a source: it is not known, cannot serve the mode, fails, or answers. */
  datatype Outcome =
    | NoSuchSource
    | CannotServe
    | Failed(diags: seq<Diag>)
    | Served(prices: seq<Price>, diags: seq<Diag>)

  /** `ask` gives the outcome for a source, a level and a batch of queries. */
  datatype Config = Config(requests: seq<Request>, concurrency: int, ask: (string, nat, seq<Query>) -> Outcome)

  /** How many calls may be in flight: a limit below one counts as one. */
  function Slots(c: Config): (r: nat)
    ensures r > 0
  {
    if c.concurrency <= 0 then 1 else c.concurrency
  }

  // ------------------------------------------------------------------ groups

  predicate Pending(u: Unit) {
    !u.done && u.depth < |u.req.sources|
  }

  function SourceOf(u: Unit): string
    requires Pending(u)
  {
    u.req.sources[u.depth].source
  }

  predicate In(u: Unit, source: string) {
    Pending(u) && SourceOf(u) == source
  }

  /** The units of one group, in order. */
  function Group(units: seq<Unit>, source: string): seq<Unit> {
    if units == [] then []
    else Group(units[..|units| - 1], source) + if In(units[|units| - 1], source) then [units[|units| - 1]] else []
  }

  /** The sources the pending units fall back to, each once. */
  function Sources(units: seq<Unit>): (r: seq<string>)
  {
    if units == [] then []
    else
      var front, u := Sources(units[..|units| - 1]), units[|units| - 1];
      if Pending(u) && SourceOf(u) !in front then front + [SourceOf(u)] else front
  }

  ghost predicate Distinct(xs: seq<string>) {
    forall i, j :: 0 <= i < j < |xs| ==> xs[i] != xs[j]
  }

  lemma {:induction false} SourcesLaws(units: seq<Unit>)
    ensures Distinct(Sources(units)) && |Sources(units)| <= |units|
    ensures forall s :: s in Sources(units) <==> exists i :: 0 <= i < |units| && In(units[i], s)
  {
    if units != [] {
      var n := |units| - 1;
      var front := units[..n];
      SourcesLaws(front);
      forall s ensures s in Sources(units) <==> exists i :: 0 <= i < |units| && In(units[i], s) {
        if s in Sources(front) {
          var i :| 0 <= i < n && In(front[i], s);
          assert In(units[i], s);
        }
      }
    }
  }

  function QueriesOf(group: seq<Unit>): seq<Query> {
    if group == [] then []
    else
      var u := group[|group| - 1];
      QueriesOf(group[..|group| - 1])
      + if Pending(u) then [Query(u.req.pair, u.req.sources[u.depth].symbol)] else []
  }

  function Answer(c: Config, units: seq<Unit>, level: nat, source: string): Outcome {
    c.ask(source, level, QueriesOf(Group(units, source)))
  }

  predicate Callable(r: Outcome) {
    r.Failed? || r.Served?
  }

  function PricesOf(r: Outcome): seq<Price> {
    if r.Served? then r.prices else []
  }

  /** One diagnostic per unit of a group that could not be served. */
  function PerUnit(code: Code, source: string, group: seq<Unit>): seq<Diag> {
    if group == [] then []
    else PerUnit(code, source, group[..|group| - 1]) + [Diag(code, source, group[|group| - 1].req.pair)]
  }

  function DiagsOf(r: Outcome, source: string, group: seq<Unit>): seq<Diag> {
    match r
    case NoSuchSource => PerUnit(SourceUnknown, source, group)
    case CannotServe => PerUnit(ModeUnsupported, source, group)
    case Failed(diags) => diags + PerUnit(FetchError, source, group)
    case Served(_, diags) => diags
  }

  predicate Prices(prices: seq<Price>, pair: Pair) {
    exists i :: 0 <= i < |prices| && prices[i].pair == pair
  }

  /** Whether the batch of the unit's source priced it. */
  predicate Hit(c: Config, units: seq<Unit>, level: nat, u: Unit) {
    Pending(u) && Prices(PricesOf(Answer(c, units, level, SourceOf(u))), u.req.pair)
  }

  // ------------------------------------------------------------------ one level

  /** A unit whose chain is exhausted before the level starts is done. */
  function Open(u: Unit): Unit {
    if !u.done && u.depth >= |u.req.sources| then u.(done := true) else u
  }

  /** A unit after the level: done when it was priced or its chain is exhausted. */
  function Advance(u: Unit): Unit {
    if u.done then u
    else if u.got then u.(done := true)
    else u.(depth := u.depth + 1, done := u.depth + 1 >= |u.req.sources|)
  }

  function AfterLevel(c: Config, units: seq<Unit>, level: nat): (r: seq<Unit>)
    ensures |r| == |units|
  {
    seq(|units|, i requires 0 <= i < |units| =>
      Open(Advance(units[i].(got := units[i].got || Hit(c, units, level, units[i])))))
  }

  function Fresh(requests: seq<Request>): (r: seq<Unit>)
    ensures |r| == |requests|
  {
    seq(|requests|, i requires 0 <= i < |requests| => Open(Unit(requests[i], 0, false, false)))
  }

  /** The units when level `k` starts. */
  function UnitsAt(c: Config, k: nat): (r: seq<Unit>)
    ensures |r| == |c.requests|
  {
    if k == 0 then Fresh(c.requests) else AfterLevel(c, UnitsAt(c, k - 1), k - 1)
  }

  /** Everything the sources contribute, in no particular order. */
  function AllFrom<T>(from: string -> seq<T>, sources: seq<string>): multiset<T> {
    if sources == [] then multiset{}
    else AllFrom(from, sources[..|sources| - 1]) + multiset(from(sources[|sources| - 1]))
  }

  /** The prices each source contributes at a level. */
  function PricesBy(c: Config, units: seq<Unit>, level: nat): string -> seq<Price> {
    s => PricesOf(Answer(c, units, level, s))
  }

  function DiagsBy(c: Config, units: seq<Unit>, level: nat): string -> seq<Diag> {
    s => DiagsOf(Answer(c, units, level, s), s, Group(units, s))
  }

  /** The prices and diagnostics collected before level `k`. */
  function PricesBefore(c: Config, k: nat): multiset<Price> {
    if k == 0 then multiset{}
    else PricesBefore(c, k - 1) + AllFrom(PricesBy(c, UnitsAt(c, k - 1), k - 1), Sources(UnitsAt(c, k - 1)))
  }

  function DiagsBefore(c: Config, k: nat): multiset<Diag> {
    if k == 0 then multiset{}
    else DiagsBefore(c, k - 1) + AllFrom(DiagsBy(c, UnitsAt(c, k - 1), k - 1), Sources(UnitsAt(c, k - 1)))
  }

  /** The longest fallback chain. */
  function LongestChain(requests: seq<Request>): (r: nat)
    ensures forall i :: 0 <= i < |requests| ==> |requests[i].sources| <= r
  {
    if requests == [] then 0
    else
      var front := LongestChain(requests[..|requests| - 1]);
      var own := |requests[|requests| - 1].sources|;
      if own > front then own else front
  }

  // ------------------------------------------------------------------ laws of the levels

  /** A unit that is still on its way at level `k` has come `k` sources down its chain. */
  ghost predicate OnLevel(u: Unit, req: Request, k: nat) {
    && u.req == req
    && (u.done || (u.depth == k < |req.sources| && !u.got))
    && (u.got ==> u.done && u.depth < k && u.depth < |req.sources|)
  }

  lemma {:induction false} PendingUnitsAreOnLevel(c: Config, k: nat)
    ensures forall i :: 0 <= i < |c.requests| ==> OnLevel(UnitsAt(c, k)[i], c.requests[i], k)
  {
    if k > 0 {
      PendingUnitsAreOnLevel(c, k - 1);
    }
  }

  /** No unit is pending once the longest chain is exhausted. */
  lemma {:induction false} ChainsEnd(c: Config, k: nat)
    requires k >= LongestChain(c.requests)
    ensures Sources(UnitsAt(c, k)) == []
  {
    PendingUnitsAreOnLevel(c, k);
    forall i | 0 <= i < |c.requests| ensures !Pending(UnitsAt(c, k)[i]) {
      assert OnLevel(UnitsAt(c, k)[i], c.requests[i], k);
    }
    NonePending(UnitsAt(c, k));
  }

  lemma {:induction false} NonePending(units: seq<Unit>)
    ensures Sources(units) == [] <==> forall i :: 0 <= i < |units| ==> !Pending(units[i])
  {
    if units != [] {
      NonePending(units[..|units| - 1]);
      assert forall i :: 0 <= i < |units| - 1 ==> units[..|units| - 1][i] == units[i];
    }
  }

  /** Whether unit `i` is priced by the batch of its `k`-th source at level `k`. */
  ghost predicate PricedAt(c: Config, i: nat, k: nat)
    requires i < |c.requests|
  {
    && k < |c.requests[i].sources|
    && Prices(PricesOf(Answer(c, UnitsAt(c, k), k, c.requests[i].sources[k].source)), c.requests[i].pair)
  }

  lemma {:induction false} UnitAfterLevel(c: Config, i: nat, k: nat)
    requires i < |c.requests|
    ensures var u, v := UnitsAt(c, k)[i], UnitsAt(c, k + 1)[i];
            && (u.done ==> v == u)
            && (!u.done ==>
                 && u.depth == k < |c.requests[i].sources| && u.req == c.requests[i] && !u.got
                 && if PricedAt(c, i, k) then v == u.(got := true, done := true)
                    else v == u.(depth := k + 1, done := k + 1 >= |c.requests[i].sources|))
  {
    PendingUnitsAreOnLevel(c, k);
    PendingUnitsAreOnLevel(c, k + 1);
    var u := UnitsAt(c, k)[i];
    assert OnLevel(u, c.requests[i], k);
  }

  ghost predicate Before(priced: nat -> bool, k: nat) {
    exists j: nat :: j < k && priced(j)
  }

  /**
   Still pending exactly while no batch priced the unit and its chain of `len` sources
   goes on; successful at the first batch that did.
   */
  ghost predicate StopsRight(priced: nat -> bool, len: nat, k: nat, u: Unit) {
    && (!u.done <==> !Before(priced, k) && k < len)
    && (u.got <==> Before(priced, k))
    && (u.got ==> priced(u.depth) && !Before(priced, u.depth))
  }

  lemma {:induction false} StopsRightNext(priced: nat -> bool, len: nat, k: nat, u: Unit, v: Unit)
    requires StopsRight(priced, len, k, u)
    requires u.done ==> v == u
    requires !u.done ==> u.depth == k < len && !u.got
    requires !u.done ==>
               if priced(k) then v == u.(got := true, done := true) else v == u.(depth := k + 1, done := k + 1 >= len)
    requires priced(k) ==> k < len
    ensures StopsRight(priced, len, k + 1, v)
  {
    assert Before(priced, k + 1) <==> Before(priced, k) || priced(k) by {
      if Before(priced, k) {
        var j: nat :| j < k && priced(j);
        assert j < k + 1 && priced(j);
      }
    }
  }

  /** Whether a batch of unit `i` priced it, by level. */
  ghost function Priced(c: Config, i: nat): nat -> bool
    requires i < |c.requests|
  {
    (k: nat) => PricedAt(c, i, k)
  }

  /**
   A unit is still pending at level `k` exactly when no earlier batch of its chain
   priced it and the chain goes on; it succeeds exactly at the first batch that does.
   */
  lemma {:induction false} UnitsStopAtTheFirstHit(c: Config, i: nat, k: nat)
    requires i < |c.requests|
    ensures StopsRight(Priced(c, i), |c.requests[i].sources|, k, UnitsAt(c, k)[i])
  {
    if k > 0 {
      UnitsStopAtTheFirstHit(c, i, k - 1);
      NextUnit(c, i, k - 1, Priced(c, i), UnitsAt(c, k - 1)[i], UnitsAt(c, k)[i]);
    }
  }

  lemma {:induction false} NextUnit(c: Config, i: nat, k: nat, priced: nat -> bool, u: Unit, v: Unit)
    requires i < |c.requests| && priced == Priced(c, i) && u == UnitsAt(c, k)[i] && v == UnitsAt(c, k + 1)[i]
    requires StopsRight(priced, |c.requests[i].sources|, k, u)
    ensures StopsRight(priced, |c.requests[i].sources|, k + 1, v)
  {
    UnitAfterLevel(c, i, k);
    assert priced(k) == PricedAt(c, i, k);
    StopsRightNext(priced, |c.requests[i].sources|, k, u, v);
  }
}
