/**
 The fetch loop itself, which changes the units in place. It is one run of the state
 machine, the one that serves the sources of a level one after another.
 */
module Fetch {
  import opened Scheduling
  import opened Fetching

  function Opened(units: seq<Unit>): (r: seq<Unit>)
    ensures |r| == |units|
  {
    seq(|units|, i requires 0 <= i < |units| => Open(units[i]))
  }

  function Advanced(units: seq<Unit>): (r: seq<Unit>)
    ensures |r| == |units|
  {
    seq(|units|, i requires 0 <= i < |units| => Advance(units[i]))
  }

  /** Where the units of a source's group are. */
  function Indices(units: seq<Unit>, source: string): (r: seq<nat>)
    ensures forall i :: i in r <==> 0 <= i < |units| && In(units[i], source)
  {
    if units == [] then []
    else
      var n := |units| - 1;
      Indices(units[..n], source) + if In(units[n], source) then [n] else []
  }

  ghost predicate ByIndex(units: seq<Unit>, at: seq<nat>, group: seq<Unit>) {
    |at| == |group| && forall k :: 0 <= k < |at| ==> at[k] < |units| && units[at[k]] == group[k]
  }

  lemma {:induction false} IndicesGiveGroup(units: seq<Unit>, source: string)
    ensures ByIndex(units, Indices(units, source), Group(units, source))
  {
    if units != [] {
      var n := |units| - 1;
      IndicesGiveGroup(units[..n], source);
      assert ByIndex(units[..n], Indices(units[..n], source), Group(units[..n], source));
    }
  }

  lemma {:induction false} SameIndices(xs: seq<Unit>, ys: seq<Unit>, source: string)
    requires SameButGot(xs, ys)
    ensures Indices(xs, source) == Indices(ys, source)
  {
    if xs != [] {
      var n := |xs| - 1;
      assert forall i :: 0 <= i < n ==> xs[..n][i] == xs[i] && ys[..n][i] == ys[i];
      SameIndices(xs[..n], ys[..n], source);
      assert xs[n].(got := false) == ys[n].(got := false);
    }
  }

  ghost predicate GroupsOf(units: seq<Unit>, groups: map<string, seq<nat>>) {
    groups.Keys == ToSet(Sources(units)) && forall s :: s in groups ==> groups[s] == Indices(units, s)
  }

  /** Sorts the pending units into groups; a unit whose chain is exhausted is done. */
  method StartLevel(units: array<Unit>) returns (groups: map<string, seq<nat>>)
    modifies units
    ensures units[..] == Opened(old(units[..]))
    ensures GroupsOf(units[..], groups)
  {
    groups := map[];
    ghost var after := Opened(units[..]);
    var i := 0;
    while i < units.Length
      invariant i <= units.Length
      invariant units[..i] == after[..i] && units[i..] == old(units[i..])
      invariant GroupsOf(after[..i], groups)
    {
      var u := units[i];
      ghost var before := groups;
      assert u == old(units[..])[i];
      assert after[..i + 1][..i] == after[..i];
      if !u.done && u.depth >= |u.req.sources| {
        units[i] := u.(done := true);
      } else if !u.done {
        var name := u.req.sources[u.depth].source;
        groups := groups[name := (if name in groups then groups[name] else []) + [i]];
      }
      GroupsGrow(after[..i], after[i], before, groups);
      assert after[..i + 1] == after[..i] + [after[i]];
      i := i + 1;
    }
    assert after[..i] == after && units[..] == units[..i];
  }

  lemma {:induction false} OneMoreUnit(units: seq<Unit>, u: Unit, source: string)
    ensures Indices(units + [u], source) == Indices(units, source) + if In(u, source) then [|units|] else []
    ensures Sources(units + [u]) == Sources(units) || (Pending(u) && Sources(units + [u]) == Sources(units) + [SourceOf(u)])
    ensures Pending(u) ==> SourceOf(u) in Sources(units + [u])
  {
    assert (units + [u])[..|units|] == units;
  }

  lemma {:induction false} NoIndices(units: seq<Unit>, source: string)
    requires source !in Sources(units)
    ensures Indices(units, source) == []
  {
    SourcesLaws(units);
    if Indices(units, source) != [] {
      assert Indices(units, source)[0] in Indices(units, source);
    }
  }

  lemma {:induction false} GroupsGrow(units: seq<Unit>, u: Unit, groups: map<string, seq<nat>>, grown: map<string, seq<nat>>)
    requires GroupsOf(units, groups)
    requires !Pending(u) ==> grown == groups
    requires Pending(u) ==>
               var name := SourceOf(u);
               grown == groups[name := (if name in groups then groups[name] else []) + [|units|]]
    ensures GroupsOf(units + [u], grown)
  {
    if Pending(u) {
      OneMoreUnit(units, u, SourceOf(u));
      if SourceOf(u) !in groups {
        NoIndices(units, SourceOf(u));
      }
    } else {
      OneMoreUnit(units, u, "");
    }
    forall s | s in grown ensures grown[s] == Indices(units + [u], s) {
      OneMoreUnit(units, u, s);
    }
  }

  /** Marks the units of a group that the prices name. */
  method Attribute(prices: seq<Price>, units: array<Unit>, group: seq<nat>, ghost source: string)
    requires group == Indices(units[..], source)
    modifies units
    ensures units[..] == Attributed(old(units[..]), source, prices)
  {
    ghost var was := units[..];
    assert units[..] == Attributed(was, source, prices[..0]);
    for i := 0 to |prices|
      invariant units[..] == Attributed(was, source, prices[..i])
    {
      var j := 0;
      while j < |group|
        invariant j <= |group|
        invariant MarkedUpTo(was, source, prices, i, units[..], group[..j])
      {
        assert group[j] in Indices(was, source);
        if units[group[j]].req.pair == prices[i].pair {
          units[group[j]] := units[group[j]].(got := true);
        }
        j := j + 1;
      }
      PricesGrow(was, source, prices, i, units[..], group);
    }
    assert prices[..|prices|] == prices;
  }

  /** The first `i` prices have marked the whole group, the next one those units of it that are in `done`. */
  ghost predicate MarkedUpTo(was: seq<Unit>, source: string, prices: seq<Price>, i: nat, units: seq<Unit>, done: seq<nat>)
    requires i < |prices|
  {
    && |units| == |was|
    && forall k :: 0 <= k < |was| ==>
         units[k] == if In(was[k], source) && (Prices(prices[..i], was[k].req.pair) || (k in done && prices[i].pair == was[k].req.pair))
                     then was[k].(got := true) else was[k]
  }

  lemma {:induction false} PricesGrow(was: seq<Unit>, source: string, prices: seq<Price>, i: nat, units: seq<Unit>, group: seq<nat>)
    requires i < |prices| && group == Indices(was, source)
    requires MarkedUpTo(was, source, prices, i, units, group)
    ensures units == Attributed(was, source, prices[..i + 1])
  {
    forall k | 0 <= k < |was| ensures units[k] == Attributed(was, source, prices[..i + 1])[k] {
      OneMorePrice(prices, i, was[k].req.pair);
      assert In(was[k], source) <==> k in group;
    }
  }

  lemma {:induction false} OneMorePrice(prices: seq<Price>, i: nat, pair: Pair)
    requires i < |prices|
    ensures Prices(prices[..i + 1], pair) <==> Prices(prices[..i], pair) || prices[i].pair == pair
  {
    if Prices(prices[..i], pair) {
      var j :| 0 <= j < i && prices[..i][j].pair == pair;
      assert prices[..i + 1][j].pair == pair;
    }
    if prices[i].pair == pair {
      assert prices[..i + 1][i].pair == pair;
    }
    if Prices(prices[..i + 1], pair) && prices[i].pair != pair {
      var j :| 0 <= j < i + 1 && prices[..i + 1][j].pair == pair;
      assert prices[..i][j].pair == pair;
    }
  }

  method Reports(code: Code, source: string, units: array<Unit>, group: seq<nat>) returns (diags: seq<Diag>)
    requires group == Indices(units[..], source)
    ensures diags == PerUnit(code, source, Group(units[..], source))
  {
    ghost var affected := Group(units[..], source);
    IndicesGiveGroup(units[..], source);
    diags := [];
    for i := 0 to |group|
      invariant diags == PerUnit(code, source, affected[..i])
    {
      diags := diags + [Diag(code, source, units[group[i]].req.pair)];
      assert affected[..i + 1][..i] == affected[..i];
    }
    assert affected[..|group|] == affected;
  }

  lemma {:induction false} GroupIsPending(units: seq<Unit>, source: string)
    ensures forall u :: u in Group(units, source) ==> In(u, source)
  {
    if units != [] {
      GroupIsPending(units[..|units| - 1], source);
    }
  }

  method Queries(units: array<Unit>, group: seq<nat>, ghost source: string) returns (queries: seq<Query>)
    requires group == Indices(units[..], source)
    ensures queries == QueriesOf(Group(units[..], source))
  {
    ghost var asking := Group(units[..], source);
    IndicesGiveGroup(units[..], source);
    GroupIsPending(units[..], source);
    queries := [];
    for i := 0 to |group|
      invariant queries == QueriesOf(asking[..i])
    {
      assert asking[i] in asking;
      var u := units[group[i]];
      queries := queries + [Query(u.req.pair, u.req.sources[u.depth].symbol)];
      assert asking[..i + 1][..i] == asking[..i];
    }
    assert asking[..|group|] == asking;
  }

  /** Asks one source for its group, all at once, and marks the units it priced. */
  method DispatchSource(c: Config, level: nat, source: string, units: array<Unit>, group: seq<nat>)
    returns (prices: seq<Price>, diags: seq<Diag>)
    requires group == Indices(units[..], source)
    modifies units
    ensures var r := Answer(c, old(units[..]), level, source);
            && prices == PricesOf(r)
            && diags == DiagsOf(r, source, Group(old(units[..]), source))
            && units[..] == Attributed(old(units[..]), source, PricesOf(r))
  {
    prices, diags := [], [];
    var queries := Queries(units, group, source);
    match c.ask(source, level, queries) {
      case NoSuchSource =>
        diags := Reports(SourceUnknown, source, units, group);
      case CannotServe =>
        diags := Reports(ModeUnsupported, source, units, group);
      case Failed(own) =>
        var reports := Reports(FetchError, source, units, group);
        diags := own + reports;
      case Served(found, own) =>
        Attribute(found, units, group, source);
        prices, diags := found, own;
    }
  }

  /** Units that succeeded or have no source left are done; the others fall back to their next source. */
  method EndLevel(units: array<Unit>)
    modifies units
    ensures units[..] == Advanced(old(units[..]))
  {
    ghost var was := units[..];
    ghost var after := Advanced(was);
    for i := 0 to units.Length
      invariant units[..i] == after[..i]
      invariant forall k :: i <= k < units.Length ==> units[k] == was[k]
    {
      var u := units[i];
      if !u.done {
        if u.got {
          units[i] := u.(done := true);
        } else {
          units[i] := u.(depth := u.depth + 1, done := u.depth + 1 >= |u.req.sources|);
        }
      }
      assert after[..i + 1] == after[..i] + [after[i]];
    }
  }

  // ------------------------------------------------------------------ the loop is a run

  lemma {:induction false} RunExtends(c: Config, states: seq<State>, t: State)
    requires Run(c, states) && Next(c, states[|states| - 1], t)
    ensures Run(c, states + [t])
  {
  }

  /** A source that can be called is asked; nothing else is in flight. */
  lemma {:induction false} AskOne(c: Config, states: seq<State>, s: State, source: string, r: Outcome)
    returns (more: seq<State>, t: State)
    requires Run(c, states) && s == states[|states| - 1] && Is(s, source, Waiting) && InFlight(s.tasks) == {}
    requires r == Answer(c, s.units, s.level, source) && Callable(r)
    ensures Run(c, more) && t == more[|more| - 1] && |more| > |states|
    ensures t == Moved(s, source, Returned).(calls := s.calls + [(s.level, source)])
  {
    var running := Moved(s, source, Running).(calls := s.calls + [(s.level, source)]);
    assert TaskStep(c, s, running, source);
    RunExtends(c, states, running);
    t := Moved(running, source, Returned);
    assert TaskStep(c, running, t, source);
    RunExtends(c, states + [running], t);
    more := states + [running] + [t];
  }

  lemma {:induction false} MarkOne(c: Config, states: seq<State>, s: State, source: string, r: Outcome)
    returns (more: seq<State>, t: State)
    requires Run(c, states) && s == states[|states| - 1] && r == Answer(c, s.units, s.level, source)
    requires Is(s, source, Returned) || (Is(s, source, Waiting) && !Callable(r))
    ensures Run(c, more) && t == more[|more| - 1] && |more| > |states|
    ensures t == Moved(s, source, Ready).(units := Attributed(s.units, source, PricesOf(r)))
  {
    t := Moved(s, source, Ready).(units := Attributed(s.units, source, PricesOf(r)));
    if Is(s, source, Waiting) {
      assert Attributed(s.units, source, []) == s.units;
    }
    assert TaskStep(c, s, t, source);
    RunExtends(c, states, t);
    more := states + [t];
  }

  lemma {:induction false} HandInOne(c: Config, states: seq<State>, s: State, source: string, r: Outcome)
    returns (more: seq<State>, t: State)
    requires Run(c, states) && s == states[|states| - 1] && r == Answer(c, s.units, s.level, source) && Is(s, source, Ready)
    ensures Run(c, more) && t == more[|more| - 1] && |more| > |states|
    ensures t == Moved(s, source, Merged).(prices := s.prices + PricesOf(r), diags := s.diags + DiagsOf(r, source, Group(s.units, source)))
  {
    t := Moved(s, source, Merged).(prices := s.prices + PricesOf(r), diags := s.diags + DiagsOf(r, source, Group(s.units, source)));
    assert TaskStep(c, s, t, source);
    RunExtends(c, states, t);
    more := states + [t];
  }

  /** Serving one source with nothing else in flight. */
  lemma {:induction false} ServeOne(c: Config, states: seq<State>, s: State, source: string, units: seq<Unit>, r: Outcome, diags: seq<Diag>)
    returns (more: seq<State>, t: State)
    requires Run(c, states) && s == states[|states| - 1] && Is(s, source, Waiting) && InFlight(s.tasks) == {}
    requires r == Answer(c, s.units, s.level, source) && diags == DiagsOf(r, source, Group(s.units, source))
    requires units == Attributed(s.units, source, PricesOf(r))
    ensures Run(c, more) && t == more[|more| - 1]
    ensures t == Moved(s, source, Merged).(units := units, prices := s.prices + PricesOf(r), diags := s.diags + diags, calls := t.calls)
    ensures |more| > |states|
  {
    SameAfterMarking(c, s.units, units, s.level, source, PricesOf(r));
    more, t := states, s;
    if Callable(r) {
      more, t := AskOne(c, states, s, source, r);
    }
    more, t := MarkOne(c, more, t, source, r);
    more, t := HandInOne(c, more, t, source, r);
  }

  lemma {:induction false} SameAfterMarking(c: Config, xs: seq<Unit>, ys: seq<Unit>, level: nat, source: string, prices: seq<Price>)
    requires ys == Attributed(xs, source, prices)
    ensures Answer(c, ys, level, source) == Answer(c, xs, level, source)
    ensures forall r :: DiagsOf(r, source, Group(ys, source)) == DiagsOf(r, source, Group(xs, source))
    ensures prices == [] ==> ys == xs
  {
    SameAnswers(c, ys, xs, level, source);
  }

  /** Within a level: the sources in `waiting` have not been asked yet, the others have handed in. */
  ghost predicate Midway(c: Config, states: seq<State>, s: State, groups: map<string, seq<nat>>, waiting: set<string>,
                         units: seq<Unit>, prices: seq<Price>, diags: seq<Diag>, level: nat)
  {
    && Run(c, states) && s == states[|states| - 1] && !s.stopped
    && s.tasks == (map x | x in groups :: if x in waiting then Waiting else Merged)
    && s.units == units && s.prices == prices && s.diags == diags && s.level == level
    && forall x :: x in groups ==> groups[x] == Indices(units, x)
  }

  lemma {:induction false} NoGroups(units: seq<Unit>, groups: map<string, seq<nat>>)
    requires GroupsOf(units, groups)
    ensures groups == map[] <==> Sources(units) == []
  {
    if Sources(units) != [] {
      assert Sources(units)[0] in groups.Keys;
    }
  }

  lemma {:induction false} LevelBegins(c: Config, states: seq<State>, s: State, groups: map<string, seq<nat>>)
    requires Run(c, states) && s == states[|states| - 1] && s == Begin(s.level, s.units, s.prices, s.diags, s.calls)
    requires GroupsOf(s.units, groups) && groups != map[]
    ensures Midway(c, states, s, groups, groups.Keys, s.units, s.prices, s.diags, s.level)
  {
    NoGroups(s.units, groups);
    assert s.tasks == (map x | x in groups :: if x in groups.Keys then Waiting else Merged);
  }

  lemma {:induction false} SourceServed(c: Config, states: seq<State>, s: State, groups: map<string, seq<nat>>, waiting: set<string>,
                                        source: string, units: seq<Unit>, r: Outcome, diags: seq<Diag>)
    returns (more: seq<State>, t: State)
    requires Midway(c, states, s, groups, waiting, s.units, s.prices, s.diags, s.level)
    requires source in waiting && waiting <= groups.Keys
    requires r == Answer(c, s.units, s.level, source) && diags == DiagsOf(r, source, Group(s.units, source))
    requires units == Attributed(s.units, source, PricesOf(r))
    ensures Midway(c, more, t, groups, waiting - {source}, units, s.prices + PricesOf(r), s.diags + diags, s.level)
    ensures |more| > |states|
  {
    assert InFlight(s.tasks) == {};
    more, t := ServeOne(c, states, s, source, units, r, diags);
    assert t.tasks == (map x | x in groups :: if x in waiting - {source} then Waiting else Merged);
    forall x | x in groups ensures groups[x] == Indices(units, x) {
      SameIndices(s.units, units, x);
    }
  }

  lemma {:induction false} LevelEnds(c: Config, states: seq<State>, s: State, groups: map<string, seq<nat>>, t: State)
    requires Midway(c, states, s, groups, {}, s.units, s.prices, s.diags, s.level)
    requires t == Begin(s.level + 1, Opened(Advanced(s.units)), s.prices, s.diags, s.calls)
    ensures Run(c, states + [t])
  {
    assert AfterBarrier(s.units) == Opened(Advanced(s.units));
    assert LevelStep(s, t);
    RunExtends(c, states, t);
  }

  /** Serves the sources of a level and takes the units past the barrier. */
  method RunLevel(c: Config, level: nat, units: array<Unit>, groups: map<string, seq<nat>>, ghost begun: seq<State>)
    returns (prices: seq<Price>, diags: seq<Diag>, ghost states: seq<State>, ghost s: State)
    requires GroupsOf(units[..], groups) && groups != map[] && Run(c, begun)
    requires var b := begun[|begun| - 1]; b == Begin(level, units[..], b.prices, b.diags, b.calls)
    modifies units
    ensures var b := begun[|begun| - 1];
            && Midway(c, states, s, groups, {}, s.units, b.prices + prices, b.diags + diags, level)
            && units[..] == Advanced(s.units)
    ensures |states| >= |begun|
  {
    prices, diags := [], [];
    ghost var b := begun[|begun| - 1];
    states, s := begun, b;
    LevelBegins(c, states, s, groups);
    assert b.prices + prices == b.prices && b.diags + diags == b.diags;
    var waiting := groups.Keys;
    while waiting != {}
      invariant waiting <= groups.Keys && |states| >= |begun|
      invariant Midway(c, states, s, groups, waiting, units[..], b.prices + prices, b.diags + diags, level)
      decreases |waiting|
    {
      var source :| source in waiting;
      ghost var was := units[..];
      var found, own := DispatchSource(c, level, source, units, groups[source]);
      states, s := SourceServed(c, states, s, groups, waiting, source, units[..], Answer(c, was, level, source), own);
      Appended(b.prices, prices, found);
      Appended(b.diags, diags, own);
      prices, diags := prices + found, diags + own;
      waiting := waiting - {source};
    }
    EndLevel(units);
  }

  lemma {:induction false} Appended<T>(a: seq<T>, b: seq<T>, c: seq<T>)
    ensures (a + b) + c == a + (b + c)
  {
  }

  /** The run has come to the beginning of a level, with these units, prices and diagnostics. */
  ghost predicate Reached(c: Config, states: seq<State>, level: nat, units: seq<Unit>, prices: seq<Price>, diags: seq<Diag>) {
    Run(c, states) && states[|states| - 1] == Begin(level, units, prices, diags, states[|states| - 1].calls)
  }

  /** One level, and the run taken to the beginning of the next. */
  method NextLevel(c: Config, level: nat, units: array<Unit>, groups: map<string, seq<nat>>, prices: seq<Price>, diags: seq<Diag>,
                   ghost states: seq<State>)
    returns (found: seq<Price>, own: seq<Diag>, ghost more: seq<State>)
    requires GroupsOf(units[..], groups) && groups != map[]
    requires Reached(c, states, level, units[..], prices, diags)
    modifies units
    ensures Reached(c, more, level + 1, Opened(units[..]), prices + found, diags + own) && |more| > |states|
  {
    ghost var end;
    found, own, more, end := RunLevel(c, level, units, groups, states);
    ghost var next := Begin(level + 1, Opened(units[..]), prices + found, diags + own, end.calls);
    LevelEnds(c, more, end, groups, next);
    more := more + [next];
  }

  /**
   Fetches what the requests ask for. `none` tells that there is no price at all. The
   outcome is that of a run of the state machine that has ended.
   */
  method RunFetch(c: Config) returns (units: array<Unit>, prices: seq<Price>, diags: seq<Diag>, none: bool, ghost states: seq<State>)
    ensures fresh(units)
    ensures Run(c, states) && states[|states| - 1].stopped
    ensures units[..] == states[|states| - 1].units
    ensures prices == states[|states| - 1].prices && diags == states[|states| - 1].diags
    ensures none <==> prices == []
  {
    units := new Unit[|c.requests|](i requires 0 <= i < |c.requests| => Unit(c.requests[i], 0, false, false));
    prices, diags := [], [];
    var level := 0;
    assert Opened(units[..]) == Fresh(c.requests);
    var groups := StartLevel(units);
    states := [Init(c)];
    ghost var longest := 1 + Levels(LongestChain(c.requests), PerLevel(c));
    RunsAreBounded(c, states);
    while groups != map[]
      invariant fresh(units) && GroupsOf(units[..], groups)
      invariant Reached(c, states, level, units[..], prices, diags)
      decreases longest - |states|
    {
      var found, own;
      found, own, states := NextLevel(c, level, units, groups, prices, diags, states);
      prices, diags := prices + found, diags + own;
      level := level + 1;
      groups := StartLevel(units);
      RunsAreBounded(c, states);
    }
    NoGroups(units[..], groups);
    none := |prices| == 0;
  }
}
