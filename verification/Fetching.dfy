/**
 The fetch as a state machine: within a level one task per source, interleaved in any
 way; between levels a barrier. Every interleaving ends, calls each source at most
 once per level, never has more calls in flight than slots, and gives the same units
 and the same prices.
 */
module Fetching {
  import opened Scheduling

  /** A task waits for a slot, calls its source, has its answer, has marked its units, has handed in its results. */
  datatype Task = Waiting | Running | Returned | Ready | Merged

  datatype State = State(
    level: nat,
    units: seq<Unit>,
    tasks: map<string, Task>,
    prices: seq<Price>,
    diags: seq<Diag>,
    calls: seq<(nat, string)>,
    stopped: bool)

  function InFlight(tasks: map<string, Task>): set<string> {
    set s | s in tasks && tasks[s] == Running
  }

  function ToSet(xs: seq<string>): set<string> {
    set x | x in xs
  }

  /** A new level, or the end when nothing is pending. */
  function Begin(level: nat, units: seq<Unit>, prices: seq<Price>, diags: seq<Diag>, calls: seq<(nat, string)>): State {
    State(level, units, map s | s in ToSet(Sources(units)) :: Waiting, prices, diags, calls, Sources(units) == [])
  }

  function Init(c: Config): State {
    Begin(0, Fresh(c.requests), [], [], [])
  }

  /** The units of a source's group that its prices name are marked. */
  function Attributed(units: seq<Unit>, source: string, prices: seq<Price>): (r: seq<Unit>)
    ensures |r| == |units|
  {
    seq(|units|, i requires 0 <= i < |units| =>
      if In(units[i], source) && Prices(prices, units[i].req.pair) then units[i].(got := true) else units[i])
  }

  function AfterBarrier(units: seq<Unit>): seq<Unit> {
    seq(|units|, i requires 0 <= i < |units| => Open(Advance(units[i])))
  }

  predicate Is(s: State, source: string, t: Task) {
    !s.stopped && source in s.tasks && s.tasks[source] == t
  }

  function Moved(s: State, source: string, t: Task): State {
    s.(tasks := s.tasks[source := t])
  }

  /** One step of one task. */
  predicate TaskStep(c: Config, s: State, t: State, source: string) {
    var r := Answer(c, s.units, s.level, source);
    || (&& Is(s, source, Waiting) && Callable(r) && |InFlight(s.tasks)| < Slots(c)
        && t == Moved(s, source, Running).(calls := s.calls + [(s.level, source)]))
    || (Is(s, source, Waiting) && !Callable(r) && t == Moved(s, source, Ready))
    || (Is(s, source, Running) && t == Moved(s, source, Returned))
    || (Is(s, source, Returned) && t == Moved(s, source, Ready).(units := Attributed(s.units, source, PricesOf(r))))
    || (&& Is(s, source, Ready)
        && t == Moved(s, source, Merged).(
                  prices := s.prices + PricesOf(r),
                  diags := s.diags + DiagsOf(r, source, Group(s.units, source))))
  }

  predicate AllMerged(tasks: map<string, Task>) {
    forall s :: s in tasks ==> tasks[s] == Merged
  }

  /** The barrier at the end of a level. */
  predicate LevelStep(s: State, t: State) {
    !s.stopped && AllMerged(s.tasks) && t == Begin(s.level + 1, AfterBarrier(s.units), s.prices, s.diags, s.calls)
  }

  ghost predicate Next(c: Config, s: State, t: State) {
    LevelStep(s, t) || exists source :: TaskStep(c, s, t, source)
  }

  // ------------------------------------------------------------------ what marking leaves alone

  /** The same units but for whether they were priced. */
  ghost predicate SameButGot(xs: seq<Unit>, ys: seq<Unit>) {
    |xs| == |ys| && forall i :: 0 <= i < |xs| ==> xs[i].(got := false) == ys[i].(got := false)
  }

  lemma {:induction false} SameGroups(xs: seq<Unit>, ys: seq<Unit>, source: string)
    requires SameButGot(xs, ys)
    ensures SameButGot(Group(xs, source), Group(ys, source))
  {
    if xs != [] {
      var n := |xs| - 1;
      assert forall i :: 0 <= i < n ==> xs[..n][i] == xs[i] && ys[..n][i] == ys[i];
      SameGroups(xs[..n], ys[..n], source);
      assert xs[n].(got := false) == ys[n].(got := false);
    }
  }

  lemma {:induction false} SameQueries(xs: seq<Unit>, ys: seq<Unit>)
    requires SameButGot(xs, ys)
    ensures QueriesOf(xs) == QueriesOf(ys)
    ensures forall code, source :: PerUnit(code, source, xs) == PerUnit(code, source, ys)
  {
    if xs != [] {
      var n := |xs| - 1;
      assert forall i :: 0 <= i < n ==> xs[..n][i] == xs[i] && ys[..n][i] == ys[i];
      SameQueries(xs[..n], ys[..n]);
      assert xs[n].(got := false) == ys[n].(got := false);
    }
  }

  /** Marking units does not change what any source is asked, nor what it reports. */
  lemma {:induction false} SameAnswers(c: Config, xs: seq<Unit>, ys: seq<Unit>, level: nat, source: string)
    requires SameButGot(xs, ys)
    ensures Answer(c, xs, level, source) == Answer(c, ys, level, source)
    ensures forall r :: DiagsOf(r, source, Group(xs, source)) == DiagsOf(r, source, Group(ys, source))
  {
    SameGroups(xs, ys, source);
    SameQueries(Group(xs, source), Group(ys, source));
  }

  // ------------------------------------------------------------------ what is handed in

  /** What the merged tasks contribute. */
  function Collected<T>(from: string -> seq<T>, sources: seq<string>, tasks: map<string, Task>): multiset<T> {
    if sources == [] then multiset{}
    else
      var s := sources[|sources| - 1];
      Collected(from, sources[..|sources| - 1], tasks)
      + if s in tasks && tasks[s] == Merged then multiset(from(s)) else multiset{}
  }

  lemma {:induction false} CollectedElsewhere<T>(from: string -> seq<T>, sources: seq<string>, tasks: map<string, Task>, s: string, t: Task)
    requires s !in sources || (t != Merged && (s in tasks ==> tasks[s] != Merged))
    ensures Collected(from, sources, tasks[s := t]) == Collected(from, sources, tasks)
  {
    if sources != [] {
      CollectedElsewhere(from, sources[..|sources| - 1], tasks, s, t);
    }
  }

  lemma {:induction false} CollectedOneMore<T>(from: string -> seq<T>, sources: seq<string>, tasks: map<string, Task>, s: string)
    requires Distinct(sources) && s in sources && s in tasks && tasks[s] != Merged
    ensures Collected(from, sources, tasks[s := Merged]) == Collected(from, sources, tasks) + multiset(from(s))
  {
    var n := |sources| - 1;
    var front := sources[..n];
    if sources[n] == s {
      assert s !in front;
      CollectedElsewhere(from, front, tasks, s, Merged);
    } else {
      assert s in front;
      CollectedOneMore(from, front, tasks, s);
    }
  }

  lemma {:induction false} CollectedAll<T>(from: string -> seq<T>, sources: seq<string>, tasks: map<string, Task>)
    requires forall s :: s in sources ==> s in tasks && tasks[s] == Merged
    ensures Collected(from, sources, tasks) == AllFrom(from, sources)
  {
    if sources != [] {
      CollectedAll(from, sources[..|sources| - 1], tasks);
    }
  }

  lemma {:induction false} CollectedNone<T>(from: string -> seq<T>, sources: seq<string>, tasks: map<string, Task>)
    requires forall s :: s in tasks ==> tasks[s] != Merged
    ensures Collected(from, sources, tasks) == multiset{}
  {
    if sources != [] {
      CollectedNone(from, sources[..|sources| - 1], tasks);
    }
  }

  // ------------------------------------------------------------------ the invariant

  predicate Past(t: Task) {
    t == Ready || t == Merged
  }

  /** A unit as its group's task has left it so far. */
  predicate Marked(c: Config, base: seq<Unit>, level: nat, tasks: map<string, Task>, u: Unit, v: Unit) {
    v == u.(got := u.got || (Hit(c, base, level, u) && SourceOf(u) in tasks && Past(tasks[SourceOf(u)])))
  }

  ghost predicate UnitsInv(c: Config, base: seq<Unit>, s: State) {
    && |s.units| == |base|
    && forall i :: 0 <= i < |base| ==> Marked(c, base, s.level, s.tasks, base[i], s.units[i])
  }

  ghost predicate ResultsInv(c: Config, base: seq<Unit>, prices: multiset<Price>, diags: multiset<Diag>, s: State) {
    && multiset(s.prices) == prices + Collected(PricesBy(c, base, s.level), Sources(base), s.tasks)
    && multiset(s.diags) == diags + Collected(DiagsBy(c, base, s.level), Sources(base), s.tasks)
  }

  /** Exactly the callable tasks that have left the queue were called, at this level and the earlier ones. */
  ghost predicate CallsInv(c: Config, s: State) {
    && (forall i, j :: 0 <= i < j < |s.calls| ==> s.calls[i] != s.calls[j])
    && (forall x :: x in s.calls ==> x.0 <= s.level)
    && (forall x :: x in s.calls && x.0 == s.level ==> x.1 in s.tasks && s.tasks[x.1] != Waiting)
  }

  /** The state of a level that began with the units `base` and with those results. */
  ghost predicate Within(c: Config, base: seq<Unit>, prices: multiset<Price>, diags: multiset<Diag>, s: State) {
    && s.tasks.Keys == ToSet(Sources(base))
    && (s.stopped <==> Sources(base) == [])
    && UnitsInv(c, base, s) && ResultsInv(c, base, prices, diags, s) && CallsInv(c, s)
    && |InFlight(s.tasks)| <= Slots(c)
  }

  /** Level `k` has something to do. */
  ghost predicate GoesOn(c: Config, k: nat) {
    Sources(UnitsAt(c, k)) != []
  }

  ghost predicate Inv(c: Config, s: State) {
    && Within(c, UnitsAt(c, s.level), PricesBefore(c, s.level), DiagsBefore(c, s.level), s)
    && (forall k: nat :: k < s.level ==> GoesOn(c, k))
  }

  lemma {:induction false} MarkedUnitsAreSame(c: Config, base: seq<Unit>, s: State)
    requires UnitsInv(c, base, s)
    ensures SameButGot(s.units, base)
  {
    forall i | 0 <= i < |s.units| ensures s.units[i].(got := false) == base[i].(got := false) {
      assert Marked(c, base, s.level, s.tasks, base[i], s.units[i]);
    }
  }

  lemma {:induction false} InitInv(c: Config)
    ensures Inv(c, Init(c))
  {
    BeginInv(c, 0, UnitsAt(c, 0), [], [], []);
  }

  /** A level that begins with the units it should have satisfies the invariant. */
  lemma {:induction false} BeginInv(c: Config, level: nat, base: seq<Unit>, prices: seq<Price>, diags: seq<Diag>, calls: seq<(nat, string)>)
    requires base == UnitsAt(c, level) && multiset(prices) == PricesBefore(c, level) && multiset(diags) == DiagsBefore(c, level)
    requires forall i, j :: 0 <= i < j < |calls| ==> calls[i] != calls[j]
    requires forall x :: x in calls ==> x.0 < level
    requires forall k: nat :: k < level ==> GoesOn(c, k)
    ensures Inv(c, Begin(level, base, prices, diags, calls))
  {
    BeginWithin(c, level, base, multiset(prices), multiset(diags), prices, diags, calls);
  }

  lemma {:induction false} BeginWithin(c: Config, level: nat, base: seq<Unit>, p: multiset<Price>, d: multiset<Diag>,
                                       prices: seq<Price>, diags: seq<Diag>, calls: seq<(nat, string)>)
    requires multiset(prices) == p && multiset(diags) == d
    requires forall i, j :: 0 <= i < j < |calls| ==> calls[i] != calls[j]
    requires forall x :: x in calls ==> x.0 < level
    ensures Within(c, base, p, d, Begin(level, base, prices, diags, calls))
  {
    var s := Begin(level, base, prices, diags, calls);
    ResultsBegin(c, base, p, d, s);
    NoneInFlight(s.tasks);
    NoneMarked(c, base, level, s.tasks);
  }

  lemma {:induction false} ResultsBegin(c: Config, base: seq<Unit>, p: multiset<Price>, d: multiset<Diag>, s: State)
    requires multiset(s.prices) == p && multiset(s.diags) == d && forall x :: x in s.tasks ==> s.tasks[x] != Merged
    ensures ResultsInv(c, base, p, d, s)
  {
    NothingHandedIn(PricesBy(c, base, s.level), Sources(base), s.tasks, p, s.prices);
    NothingHandedIn(DiagsBy(c, base, s.level), Sources(base), s.tasks, d, s.diags);
  }

  lemma {:induction false} NoneInFlight(tasks: map<string, Task>)
    requires forall s :: s in tasks ==> tasks[s] == Waiting
    ensures |InFlight(tasks)| == 0
  {
    assert InFlight(tasks) == {};
  }

  lemma {:induction false} NothingHandedIn<T>(from: string -> seq<T>, sources: seq<string>, tasks: map<string, Task>, before: multiset<T>, have: seq<T>)
    requires multiset(have) == before && forall s :: s in tasks ==> tasks[s] != Merged
    ensures multiset(have) == before + Collected(from, sources, tasks)
  {
    CollectedNone(from, sources, tasks);
  }

  lemma {:induction false} NoneMarked(c: Config, base: seq<Unit>, level: nat, tasks: map<string, Task>)
    requires forall s :: s in tasks ==> tasks[s] == Waiting
    ensures forall i :: 0 <= i < |base| ==> Marked(c, base, level, tasks, base[i], base[i])
  {
  }

  // ------------------------------------------------------------------ every step keeps it

  /** Moving one task on changes the slots in use by no more than that task. */
  lemma {:induction false} SlotsAfter(tasks: map<string, Task>, s: string, t: Task)
    requires s in tasks
    ensures |InFlight(tasks[s := t])| <= |InFlight(tasks)| + if t == Running then 1 else 0
  {
    var before, after := InFlight(tasks), InFlight(tasks[s := t]);
    if t == Running {
      assert after == before + {s};
    } else {
      assert after == before - {s};
    }
  }

  /** A task that moves without marking or handing in keeps the units as they should be. */
  lemma {:induction false} UnitsKeptByMove(c: Config, base: seq<Unit>, s: State, source: string, t: Task, calls: seq<(nat, string)>)
    requires UnitsInv(c, base, s) && source in s.tasks && !Past(s.tasks[source])
    requires Past(t) ==> !Callable(Answer(c, s.units, s.level, source))
    ensures UnitsInv(c, base, Moved(s, source, t).(calls := calls))
  {
    var n := Moved(s, source, t);
    MarkedUnitsAreSame(c, base, s);
    SameAnswers(c, s.units, base, s.level, source);
    forall i | 0 <= i < |base| ensures Marked(c, base, s.level, n.tasks, base[i], n.units[i]) {
      assert Marked(c, base, s.level, s.tasks, base[i], s.units[i]);
    }
  }

  lemma {:induction false} UnitsKeptByMarking(c: Config, base: seq<Unit>, s: State, source: string, prices: seq<Price>)
    requires UnitsInv(c, base, s) && source in s.tasks && s.tasks[source] == Returned
    requires prices == PricesOf(Answer(c, s.units, s.level, source))
    ensures UnitsInv(c, base, Moved(s, source, Ready).(units := Attributed(s.units, source, prices)))
  {
    var n := Moved(s, source, Ready).(units := Attributed(s.units, source, prices));
    MarkedUnitsAreSame(c, base, s);
    SameAnswers(c, s.units, base, s.level, source);
    forall i | 0 <= i < |base| ensures Marked(c, base, s.level, n.tasks, base[i], n.units[i]) {
      assert Marked(c, base, s.level, s.tasks, base[i], s.units[i]);
    }
  }

  lemma {:induction false} UnitsKeptByMerging(c: Config, base: seq<Unit>, s: State, source: string, prices: seq<Price>, diags: seq<Diag>)
    requires UnitsInv(c, base, s) && source in s.tasks && s.tasks[source] == Ready
    ensures UnitsInv(c, base, Moved(s, source, Merged).(prices := prices, diags := diags))
  {
    var n := Moved(s, source, Merged);
    forall i | 0 <= i < |base| ensures Marked(c, base, s.level, n.tasks, base[i], n.units[i]) {
      assert Marked(c, base, s.level, s.tasks, base[i], s.units[i]);
    }
  }

  lemma {:induction false} ResultsKeptByMove(c: Config, base: seq<Unit>, p: multiset<Price>, d: multiset<Diag>, s: State,
                                             source: string, t: Task, units: seq<Unit>, calls: seq<(nat, string)>)
    requires ResultsInv(c, base, p, d, s) && source in s.tasks && s.tasks[source] != Merged && t != Merged
    ensures ResultsInv(c, base, p, d, Moved(s, source, t).(units := units, calls := calls))
  {
    CollectedElsewhere(PricesBy(c, base, s.level), Sources(base), s.tasks, source, t);
    CollectedElsewhere(DiagsBy(c, base, s.level), Sources(base), s.tasks, source, t);
  }

  lemma {:induction false} HandIn<T>(from: string -> seq<T>, sources: seq<string>, tasks: map<string, Task>, s: string,
                                     before: multiset<T>, have: seq<T>, more: seq<T>)
    requires Distinct(sources) && s in sources && s in tasks && tasks[s] != Merged && more == from(s)
    requires multiset(have) == before + Collected(from, sources, tasks)
    ensures multiset(have + more) == before + Collected(from, sources, tasks[s := Merged])
  {
    CollectedOneMore(from, sources, tasks, s);
  }

  lemma {:induction false} ResultsKeptByMerging(c: Config, base: seq<Unit>, p: multiset<Price>, d: multiset<Diag>, s: State,
                                                source: string, prices: seq<Price>, diags: seq<Diag>,
                                                pf: string -> seq<Price>, df: string -> seq<Diag>)
    requires ResultsInv(c, base, p, d, s) && Is(s, source, Ready) && source in Sources(base)
    requires pf == PricesBy(c, base, s.level) && df == DiagsBy(c, base, s.level)
    requires prices == pf(source) && diags == df(source)
    ensures ResultsInv(c, base, p, d, Moved(s, source, Merged).(prices := s.prices + prices, diags := s.diags + diags))
  {
    SourcesLaws(base);
    HandIn(pf, Sources(base), s.tasks, source, p, s.prices, prices);
    HandIn(df, Sources(base), s.tasks, source, d, s.diags, diags);
  }

  lemma {:induction false} CallsKept(c: Config, s: State, source: string, t: Task, units: seq<Unit>, prices: seq<Price>, diags: seq<Diag>)
    requires CallsInv(c, s) && source in s.tasks && t != Waiting
    ensures CallsInv(c, Moved(s, source, t).(units := units, prices := prices, diags := diags))
    ensures s.tasks[source] == Waiting ==> CallsInv(c, Moved(s, source, t).(calls := s.calls + [(s.level, source)]))
  {
    if s.tasks[source] == Waiting {
      var calls := s.calls + [(s.level, source)];
      forall i, j | 0 <= i < j < |calls| ensures calls[i] != calls[j] {
        if j == |s.calls| {
          assert s.calls[i] in s.calls;
        }
      }
    }
  }

  /** What a task hands in is what its source contributes to the level. */
  lemma {:induction false} HandedIn(c: Config, base: seq<Unit>, s: State, source: string)
    requires UnitsInv(c, base, s)
    ensures var r := Answer(c, s.units, s.level, source);
            && PricesOf(r) == PricesBy(c, base, s.level)(source)
            && DiagsOf(r, source, Group(s.units, source)) == DiagsBy(c, base, s.level)(source)
  {
    MarkedUnitsAreSame(c, base, s);
    SameAnswers(c, s.units, base, s.level, source);
  }

  lemma {:induction false} MergingKeepsWithin(c: Config, base: seq<Unit>, p: multiset<Price>, d: multiset<Diag>, s: State, t: State, source: string)
    requires Within(c, base, p, d, s) && TaskStep(c, s, t, source) && Is(s, source, Ready)
    ensures Within(c, base, p, d, t)
  {
    assert source in ToSet(Sources(base));
    SlotsAfter(s.tasks, source, Merged);
    HandedIn(c, base, s, source);
    var r := Answer(c, s.units, s.level, source);
    UnitsKeptByMerging(c, base, s, source, t.prices, t.diags);
    ResultsKeptByMerging(c, base, p, d, s, source, PricesOf(r), DiagsOf(r, source, Group(s.units, source)),
                         PricesBy(c, base, s.level), DiagsBy(c, base, s.level));
    CallsKept(c, s, source, Merged, s.units, t.prices, t.diags);
  }

  lemma {:induction false} MarkingKeepsWithin(c: Config, base: seq<Unit>, p: multiset<Price>, d: multiset<Diag>, s: State, t: State, source: string)
    requires Within(c, base, p, d, s) && TaskStep(c, s, t, source) && Is(s, source, Returned)
    ensures Within(c, base, p, d, t)
  {
    SlotsAfter(s.tasks, source, Ready);
    UnitsKeptByMarking(c, base, s, source, PricesOf(Answer(c, s.units, s.level, source)));
    ResultsKeptByMove(c, base, p, d, s, source, Ready, t.units, s.calls);
    CallsKept(c, s, source, Ready, t.units, s.prices, s.diags);
  }

  /** A task that starts its call, or finds that there is none to make, or gets its call back. */
  lemma {:induction false} MovingKeepsWithin(c: Config, base: seq<Unit>, p: multiset<Price>, d: multiset<Diag>, s: State, source: string,
                                             to: Task, calls: seq<(nat, string)>)
    requires Within(c, base, p, d, s) && source in s.tasks && s.tasks[source] in {Waiting, Running} && to in {Running, Returned, Ready}
    requires to == Ready ==> !Callable(Answer(c, s.units, s.level, source))
    requires to == Running ==> |InFlight(s.tasks)| < Slots(c)
    requires calls == s.calls || (s.tasks[source] == Waiting && calls == s.calls + [(s.level, source)])
    ensures Within(c, base, p, d, Moved(s, source, to).(calls := calls))
  {
    SlotsAfter(s.tasks, source, to);
    UnitsKeptByMove(c, base, s, source, to, calls);
    ResultsKeptByMove(c, base, p, d, s, source, to, s.units, calls);
    CallsKept(c, s, source, to, s.units, s.prices, s.diags);
  }

  lemma {:induction false} TaskStepKeepsInv(c: Config, s: State, t: State, source: string)
    requires Inv(c, s) && TaskStep(c, s, t, source)
    ensures Inv(c, t)
  {
    var base, p, d := UnitsAt(c, s.level), PricesBefore(c, s.level), DiagsBefore(c, s.level);
    if s.tasks[source] == Ready {
      MergingKeepsWithin(c, base, p, d, s, t, source);
    } else if s.tasks[source] == Returned {
      MarkingKeepsWithin(c, base, p, d, s, t, source);
    } else {
      MovingKeepsWithin(c, base, p, d, s, source, t.tasks[source], t.calls);
    }
  }

  /** When every task has merged, the barrier makes the units of the next level. */
  lemma {:induction false} BarrierUnits(c: Config, base: seq<Unit>, s: State)
    requires UnitsInv(c, base, s) && s.tasks.Keys == ToSet(Sources(base)) && AllMerged(s.tasks)
    ensures AfterBarrier(s.units) == AfterLevel(c, base, s.level)
  {
    SourcesLaws(base);
    var xs, ys := AfterBarrier(s.units), AfterLevel(c, base, s.level);
    forall i | 0 <= i < |base| ensures xs[i] == ys[i] {
      assert Marked(c, base, s.level, s.tasks, base[i], s.units[i]);
      if Pending(base[i]) {
        assert In(base[i], SourceOf(base[i]));
        assert SourceOf(base[i]) in ToSet(Sources(base));
      }
    }
  }

  lemma {:induction false} BarrierResults(c: Config, base: seq<Unit>, p: multiset<Price>, d: multiset<Diag>, s: State)
    requires ResultsInv(c, base, p, d, s) && s.tasks.Keys == ToSet(Sources(base)) && AllMerged(s.tasks)
    ensures multiset(s.prices) == p + AllFrom(PricesBy(c, base, s.level), Sources(base))
    ensures multiset(s.diags) == d + AllFrom(DiagsBy(c, base, s.level), Sources(base))
  {
    assert forall x :: x in Sources(base) ==> x in ToSet(Sources(base));
    CollectedAll(PricesBy(c, base, s.level), Sources(base), s.tasks);
    CollectedAll(DiagsBy(c, base, s.level), Sources(base), s.tasks);
  }

  /** What the barrier of one level makes is what the next level begins with. */
  lemma {:induction false} NextLevel(c: Config, level: nat, base: seq<Unit>, p: multiset<Price>, d: multiset<Diag>)
    requires base == UnitsAt(c, level) && p == PricesBefore(c, level) && d == DiagsBefore(c, level)
    ensures UnitsAt(c, level + 1) == AfterLevel(c, base, level)
    ensures PricesBefore(c, level + 1) == p + AllFrom(PricesBy(c, base, level), Sources(base))
    ensures DiagsBefore(c, level + 1) == d + AllFrom(DiagsBy(c, base, level), Sources(base))
  {
  }

  lemma {:induction false} LevelStepKeepsInv(c: Config, s: State, t: State)
    requires Inv(c, s) && LevelStep(s, t)
    ensures Inv(c, t)
  {
    var base, p, d := UnitsAt(c, s.level), PricesBefore(c, s.level), DiagsBefore(c, s.level);
    NextLevel(c, s.level, base, p, d);
    BarrierMakesNext(c, base, p, d, s, UnitsAt(c, s.level + 1), PricesBefore(c, s.level + 1), DiagsBefore(c, s.level + 1));
    NextLevelInv(c, s, UnitsAt(c, s.level + 1), PricesBefore(c, s.level + 1), DiagsBefore(c, s.level + 1));
  }

  lemma {:induction false} NextLevelInv(c: Config, s: State, base': seq<Unit>, p': multiset<Price>, d': multiset<Diag>)
    requires Inv(c, s) && !s.stopped
    requires base' == UnitsAt(c, s.level + 1) && p' == PricesBefore(c, s.level + 1) && d' == DiagsBefore(c, s.level + 1)
    requires AfterBarrier(s.units) == base' && multiset(s.prices) == p' && multiset(s.diags) == d'
    requires forall x :: x in s.calls ==> x.0 < s.level + 1
    ensures Inv(c, Begin(s.level + 1, AfterBarrier(s.units), s.prices, s.diags, s.calls))
  {
    LevelsGoOn(c, s);
    BeginInv(c, s.level + 1, base', s.prices, s.diags, s.calls);
  }

  lemma {:induction false} LevelsGoOn(c: Config, s: State)
    requires Inv(c, s) && !s.stopped
    ensures forall k: nat :: k < s.level + 1 ==> GoesOn(c, k)
  {
    assert GoesOn(c, s.level);
    forall k: nat | k < s.level + 1 ensures GoesOn(c, k) {
      assert k < s.level || k == s.level;
    }
  }

  lemma {:induction false} BarrierMakesNext(c: Config, base: seq<Unit>, p: multiset<Price>, d: multiset<Diag>, s: State,
                                            base': seq<Unit>, p': multiset<Price>, d': multiset<Diag>)
    requires Within(c, base, p, d, s) && AllMerged(s.tasks)
    requires base' == AfterLevel(c, base, s.level)
    requires p' == p + AllFrom(PricesBy(c, base, s.level), Sources(base))
    requires d' == d + AllFrom(DiagsBy(c, base, s.level), Sources(base))
    ensures AfterBarrier(s.units) == base' && multiset(s.prices) == p' && multiset(s.diags) == d'
    ensures forall x :: x in s.calls ==> x.0 < s.level + 1
  {
    BarrierUnits(c, base, s);
    BarrierResults(c, base, p, d, s);
  }

  // ------------------------------------------------------------------ runs

  /** A run from the start, one step after another. */
  ghost predicate Run(c: Config, states: seq<State>) {
    && |states| > 0 && states[0] == Init(c)
    && forall i :: 0 <= i < |states| - 1 ==> Next(c, states[i], states[i + 1])
  }

  lemma {:induction false} RunKeepsInv(c: Config, states: seq<State>, i: nat)
    requires Run(c, states) && i < |states|
    ensures Inv(c, states[i])
  {
    if i == 0 {
      InitInv(c);
    } else {
      RunKeepsInv(c, states, i - 1);
      var s, t := states[i - 1], states[i];
      assert Next(c, s, t);
      if LevelStep(s, t) {
        LevelStepKeepsInv(c, s, t);
      } else {
        var source :| TaskStep(c, s, t, source);
        TaskStepKeepsInv(c, s, t, source);
      }
    }
  }

  /**
   In every state of every run: no more calls are in flight than there are slots, no
   source has been called twice at one level, and every pending unit has come as far
   down its chain as there were levels.
   */
  lemma {:induction false} RunsAreSafe(c: Config, states: seq<State>, i: nat)
    requires Run(c, states) && i < |states|
    ensures |InFlight(states[i].tasks)| <= Slots(c)
    ensures forall j, k :: 0 <= j < k < |states[i].calls| ==> states[i].calls[j] != states[i].calls[k]
    ensures forall u :: u in states[i].units && !u.done ==> u.depth == states[i].level
  {
    RunKeepsInv(c, states, i);
    var s := states[i];
    var base := UnitsAt(c, s.level);
    PendingUnitsAreOnLevel(c, s.level);
    forall u | u in s.units && !u.done ensures u.depth == s.level {
      var j :| 0 <= j < |s.units| && s.units[j] == u;
      assert Marked(c, base, s.level, s.tasks, base[j], u);
      assert OnLevel(base[j], c.requests[j], s.level);
    }
  }

  /** No run enters more levels than the longest chain has sources. */
  lemma {:induction false} LevelsAreBounded(c: Config, states: seq<State>, i: nat)
    requires Run(c, states) && i < |states|
    ensures states[i].level <= LongestChain(c.requests)
  {
    RunKeepsInv(c, states, i);
    ChainsEnd(c, LongestChain(c.requests));
    assert LongestChain(c.requests) < states[i].level ==> GoesOn(c, LongestChain(c.requests));
  }

  /** All runs that have ended agree on the units, the prices and the diagnostics. */
  lemma {:induction false} InterleavingsAgree(c: Config, xs: seq<State>, ys: seq<State>)
    requires Run(c, xs) && Run(c, ys) && xs[|xs| - 1].stopped && ys[|ys| - 1].stopped
    ensures var x, y := xs[|xs| - 1], ys[|ys| - 1];
            && x.level == y.level && x.units == y.units
            && multiset(x.prices) == multiset(y.prices) && multiset(x.diags) == multiset(y.diags)
  {
    RunKeepsInv(c, xs, |xs| - 1);
    RunKeepsInv(c, ys, |ys| - 1);
    EndsAgree(c, xs[|xs| - 1], ys[|ys| - 1]);
  }

  lemma {:induction false} EndsAgree(c: Config, x: State, y: State)
    requires Inv(c, x) && Inv(c, y) && x.stopped && y.stopped
    ensures x.level == y.level && x.units == y.units
    ensures multiset(x.prices) == multiset(y.prices) && multiset(x.diags) == multiset(y.diags)
  {
    EndOfRun(c, x);
    EndOfRun(c, y);
    assert x.level == y.level by {
      assert x.level < y.level ==> GoesOn(c, x.level);
      assert y.level < x.level ==> GoesOn(c, y.level);
    }
  }

  /** What a run that has ended holds. */
  lemma {:induction false} EndOfRun(c: Config, s: State)
    requires Inv(c, s) && s.stopped
    ensures s.units == UnitsAt(c, s.level) && !GoesOn(c, s.level)
    ensures multiset(s.prices) == PricesBefore(c, s.level) && multiset(s.diags) == DiagsBefore(c, s.level)
  {
    var base := UnitsAt(c, s.level);
    assert s.tasks.Keys == ToSet(Sources(base)) == {};
    CollectedNone(PricesBy(c, base, s.level), Sources(base), s.tasks);
    CollectedNone(DiagsBy(c, base, s.level), Sources(base), s.tasks);
    forall i | 0 <= i < |base| ensures s.units[i] == base[i] {
      assert Marked(c, base, s.level, s.tasks, base[i], s.units[i]);
    }
  }

  /** At the end every request has been priced at the first source of its chain that could, or by none. */
  lemma {:induction false} EveryRequestIsSettled(c: Config, states: seq<State>, i: nat)
    requires Run(c, states) && states[|states| - 1].stopped && i < |c.requests|
    ensures |states[|states| - 1].units| == |c.requests|
    ensures var u, len := states[|states| - 1].units[i], |c.requests[i].sources|;
            && u.done && u.req == c.requests[i]
            && (u.got <==> Before(Priced(c, i), len))
            && (u.got ==> Priced(c, i)(u.depth) && !Before(Priced(c, i), u.depth))
  {
    var s := states[|states| - 1];
    RunKeepsInv(c, states, |states| - 1);
    EndOfRun(c, s);
    UnitsStopAtTheFirstHit(c, i, s.level);
    PendingUnitsAreOnLevel(c, s.level);
    NonePending(UnitsAt(c, s.level));
    var u := s.units[i];
    assert OnLevel(u, c.requests[i], s.level);
    SettledMeans(Priced(c, i), |c.requests[i].sources|, s.level, u);
  }

  lemma {:induction false} SettledMeans(priced: nat -> bool, len: nat, k: nat, u: Unit)
    requires StopsRight(priced, len, k, u) && u.done && (forall j: nat :: priced(j) ==> j < len)
    ensures u.got <==> Before(priced, len)
  {
    if Before(priced, k) {
      var j: nat :| j < k && priced(j);
      assert j < len && priced(j);
    }
    if Before(priced, len) && k >= len {
      var j: nat :| j < len && priced(j);
      assert j < k && priced(j);
    }
  }

  // ------------------------------------------------------------------ runs end

  function StepsLeft(t: Task): nat {
    match t
    case Waiting => 4
    case Running => 3
    case Returned => 2
    case Ready => 1
    case Merged => 0
  }

  function Work(sources: seq<string>, tasks: map<string, Task>): nat {
    if sources == [] then 0
    else
      var s := sources[|sources| - 1];
      Work(sources[..|sources| - 1], tasks) + if s in tasks then StepsLeft(tasks[s]) else 0
  }

  lemma {:induction false} WorkElsewhere(sources: seq<string>, tasks: map<string, Task>, s: string, t: Task)
    requires s !in sources
    ensures Work(sources, tasks[s := t]) == Work(sources, tasks)
  {
    if sources != [] {
      WorkElsewhere(sources[..|sources| - 1], tasks, s, t);
    }
  }

  lemma {:induction false} WorkShrinks(sources: seq<string>, tasks: map<string, Task>, s: string, t: Task)
    requires Distinct(sources) && s in sources && s in tasks
    ensures Work(sources, tasks[s := t]) == Work(sources, tasks) - StepsLeft(tasks[s]) + StepsLeft(t)
  {
    var n := |sources| - 1;
    if sources[n] == s {
      WorkElsewhere(sources[..n], tasks, s, t);
    } else {
      assert s in sources[..n];
      WorkShrinks(sources[..n], tasks, s, t);
    }
  }

  lemma {:induction false} WorkIsBounded(sources: seq<string>, tasks: map<string, Task>)
    ensures Work(sources, tasks) <= 4 * |sources|
  {
    if sources != [] {
      WorkIsBounded(sources[..|sources| - 1], tasks);
    }
  }

  /** An upper bound on the steps a level takes. */
  function PerLevel(c: Config): nat {
    4 * |c.requests| + 1
  }

  function Levels(n: nat, perLevel: nat): nat {
    if n == 0 then 0 else Levels(n - 1, perLevel) + perLevel
  }

  /** An upper bound on the steps still to come when `left` levels are left and this one has `work` to do. */
  function Budget(left: nat, work: nat, perLevel: nat): nat {
    if left == 0 then 0 else 1 + work + Levels(left - 1, perLevel)
  }

  function LevelsLeft(longest: nat, s: State): nat {
    if s.stopped || s.level >= longest then 0 else longest - s.level
  }

  function WorkAt(c: Config, s: State): nat {
    Work(Sources(UnitsAt(c, s.level)), s.tasks)
  }

  function Potential(c: Config, s: State): nat {
    Budget(LevelsLeft(LongestChain(c.requests), s), WorkAt(c, s), PerLevel(c))
  }

  lemma {:induction false} RunningHasLevelsLeft(c: Config, s: State)
    requires Inv(c, s) && !s.stopped
    ensures LevelsLeft(LongestChain(c.requests), s) > 0
  {
    if s.level >= LongestChain(c.requests) {
      ChainsEnd(c, s.level);
    }
  }

  lemma {:induction false} WorkOfLevel(c: Config, s: State)
    ensures WorkAt(c, s) < PerLevel(c)
  {
    SourcesLaws(UnitsAt(c, s.level));
    WorkIsBounded(Sources(UnitsAt(c, s.level)), s.tasks);
  }

  /** A step of a task moves that task on and stays on the level. */
  lemma {:induction false} TaskMovesOn(c: Config, s: State, t: State, source: string)
    requires TaskStep(c, s, t, source)
    ensures source in s.tasks && source in t.tasks && t.tasks == s.tasks[source := t.tasks[source]]
    ensures StepsLeft(t.tasks[source]) < StepsLeft(s.tasks[source])
    ensures t.level == s.level && t.stopped == s.stopped
  {
  }

  lemma {:induction false} TaskStepShrinks(base: seq<Unit>, tasks: map<string, Task>, source: string, to: Task)
    requires source in tasks && tasks.Keys == ToSet(Sources(base)) && StepsLeft(to) < StepsLeft(tasks[source])
    ensures Work(Sources(base), tasks[source := to]) < Work(Sources(base), tasks)
  {
    SourcesLaws(base);
    assert source in ToSet(Sources(base));
    WorkShrinks(Sources(base), tasks, source, to);
  }

  lemma {:induction false} TaskStepShrinksPotential(c: Config, s: State, t: State, source: string)
    requires Inv(c, s) && TaskStep(c, s, t, source)
    ensures Potential(c, t) < Potential(c, s)
  {
    RunningHasLevelsLeft(c, s);
    TaskMovesOn(c, s, t, source);
    TaskStepShrinks(UnitsAt(c, s.level), s.tasks, source, t.tasks[source]);
    BudgetShrinksWithWork(LongestChain(c.requests), s, t, WorkAt(c, s), WorkAt(c, t), PerLevel(c));
  }

  lemma {:induction false} BudgetShrinksWithWork(longest: nat, s: State, t: State, work: nat, work': nat, perLevel: nat)
    requires LevelsLeft(longest, s) > 0 && t.level == s.level && t.stopped == s.stopped && work' < work
    ensures Budget(LevelsLeft(longest, t), work', perLevel) < Budget(LevelsLeft(longest, s), work, perLevel)
  {
  }

  lemma {:induction false} BudgetShrinks(longest: nat, s: State, t: State, work: nat, work': nat, perLevel: nat)
    requires LevelsLeft(longest, s) > 0 && t.level == s.level + 1 && work' < perLevel
    ensures Budget(LevelsLeft(longest, t), work', perLevel) < Budget(LevelsLeft(longest, s), work, perLevel)
  {
  }

  lemma {:induction false} StepsShrinkPotential(c: Config, s: State, t: State)
    requires Inv(c, s) && Next(c, s, t)
    ensures Potential(c, t) < Potential(c, s)
  {
    if LevelStep(s, t) {
      RunningHasLevelsLeft(c, s);
      WorkOfLevel(c, t);
      BudgetShrinks(LongestChain(c.requests), s, t, WorkAt(c, s), WorkAt(c, t), PerLevel(c));
    } else {
      var source :| TaskStep(c, s, t, source);
      TaskStepShrinksPotential(c, s, t, source);
    }
  }

  /** Every run ends: its length is bounded by the longest chain and the number of requests. */
  lemma {:induction false} RunsAreBounded(c: Config, states: seq<State>)
    requires Run(c, states)
    ensures |states| <= 1 + Levels(LongestChain(c.requests), PerLevel(c))
  {
    RunShrinks(c, states, |states| - 1, Potential(c, Init(c)));
    WorkOfLevel(c, Init(c));
  }

  lemma {:induction false} RunShrinks(c: Config, states: seq<State>, i: nat, most: nat)
    requires Run(c, states) && i < |states| && most == Potential(c, states[0])
    ensures Potential(c, states[i]) + i <= most
  {
    if i > 0 {
      RunShrinks(c, states, i - 1, most);
      RunKeepsInv(c, states, i - 1);
      StepsShrinkPotential(c, states[i - 1], states[i]);
    }
  }

  /** No state of a run is stuck before the end. */
  lemma {:induction false} NoDeadlock(c: Config, s: State) returns (t: State)
    requires Inv(c, s) && !s.stopped
    ensures Next(c, s, t)
  {
    if AllMerged(s.tasks) {
      t := Begin(s.level + 1, AfterBarrier(s.units), s.prices, s.diags, s.calls);
      assert LevelStep(s, t);
    } else if source :| source in s.tasks && s.tasks[source] in {Running, Returned, Ready} {
      t := BegunGoesOn(c, s, source);
    } else {
      var source :| source in s.tasks && s.tasks[source] != Merged;
      t := WaitingGoesOn(c, s, source);
    }
  }

  lemma {:induction false} BegunGoesOn(c: Config, s: State, source: string) returns (t: State)
    requires Inv(c, s) && !s.stopped && source in s.tasks && s.tasks[source] in {Running, Returned, Ready}
    ensures Next(c, s, t)
  {
    var r := Answer(c, s.units, s.level, source);
    t := if s.tasks[source] == Running then Moved(s, source, Returned)
         else if s.tasks[source] == Returned then Moved(s, source, Ready).(units := Attributed(s.units, source, PricesOf(r)))
         else Moved(s, source, Merged).(prices := s.prices + PricesOf(r), diags := s.diags + DiagsOf(r, source, Group(s.units, source)));
    assert TaskStep(c, s, t, source);
  }

  lemma {:induction false} WaitingGoesOn(c: Config, s: State, source: string) returns (t: State)
    requires Inv(c, s) && !s.stopped && source in s.tasks && s.tasks[source] != Merged
    requires forall x :: x in s.tasks ==> s.tasks[x] !in {Running, Returned, Ready}
    ensures Next(c, s, t)
  {
    assert InFlight(s.tasks) == {};
    t := if Callable(Answer(c, s.units, s.level, source)) then Moved(s, source, Running).(calls := s.calls + [(s.level, source)])
         else Moved(s, source, Ready);
    assert TaskStep(c, s, t, source);
  }
}
