/**
 What callers of the session can rely on, over whole runs: which load filled the cache
 and when it is fresh, whose outcome a caller returns, and what a subscriber was given.
 */
module SessionRuns {
  import opened Sessions
  import opened SessionSteps
  import opened SessionSafety

  lemma {:induction false} PlayedKeepsInv(ledger: Ledger, states: seq<State>, events: seq<Event>, i: nat)
    requires Played(ledger, states, events) && i < |states|
    ensures Inv(states[i])
  {
    PlayedIsRun(ledger, states, events);
    RunKeepsInv(ledger, states, i);
  }

  // ------------------------------------------------------------------ where the cache comes from

  /** Event `b` is the entry of thread `t` into a load, and `t` has been loading in every state since, up to state `i`. */
  ghost predicate LoadsSince(states: seq<State>, events: seq<Event>, b: nat, i: nat, t: Thread)
    requires |states| == |events| + 1 && i < |states|
  {
    && b < i && events[b].thread == t && events[b].action.Enter?
    && Decide(states[b].sh, events[b].action.force).Load?
    && forall m :: b < m <= i ==> IsLoading(states[m], t, states[b].sh.overlay)
  }

  predicate IsLoading(s: State, t: Thread, snap: Overlay) {
    t in s.threads && s.threads[t].Loading? && s.threads[t].snap == snap
  }

  /** What entering, publishing and writing do to loads and to the cache. */
  lemma {:induction false} EntersLoad(s: State, t: Thread, force: bool, channel: Channel)
    requires t !in s.threads
    ensures var n := ApplyEnter(s, t, force, channel);
            && t in n.threads
            && (n.threads[t].Loading? ==> Decide(s.sh, force).Load? && n.threads[t].snap == s.sh.overlay)
            && n.sh.valid == s.sh.valid && n.sh.cached == s.sh.cached && n.sh.overlay == s.sh.overlay
  {
  }

  lemma {:induction false} PublishEndsLoad(s: State, t: Thread, outcome: Outcome)
    requires Enabled(s, t, Publish(outcome))
    ensures var n := ApplyPublish(s, t, s.threads[t], outcome);
            && t in n.threads && n.threads == s.threads[t := n.threads[t]] && !n.threads[t].Loading?
            && n.sh.overlay == s.sh.overlay
            && (if outcome.Loaded? && !s.sh.closed then n.sh.valid && n.sh.cached == outcome.ledger
                else n.sh.valid == s.sh.valid && n.sh.cached == s.sh.cached)
  {
  }

  lemma {:induction false} WritesInvalidate(s: State, t: Thread, a: Action)
    requires Enabled(s, t, a) && IsOutside(a)
    ensures var n := ApplyOutside(s, a);
            && n.threads == s.threads && n.sh.cached == s.sh.cached
            && (n.sh.valid ==> s.sh.valid && n.sh.overlay == s.sh.overlay)
  {
  }

  /** Only a thread's own entry makes it load, and only with the overlay it finds. */
  lemma {:induction false} LoadingStep(s: State, e: Event, n: State, t: Thread)
    requires Stepped(s, e, n) && t in n.threads && n.threads[t].Loading?
    ensures if e.thread == t && e.action.Enter? then Decide(s.sh, e.action.force).Load? && n.threads[t].snap == s.sh.overlay
            else t in s.threads && s.threads[t] == n.threads[t]
  {
    ChangesOf(s, e.thread, e.action);
  }

  /** Nobody but thread `t` moves, and it begins to load only by entering, with the overlay it finds. */
  ghost predicate LoadsRightly(s: State, t: Thread, a: Action, n: State) {
    && (n.threads == s.threads || (t in n.threads && n.threads == s.threads[t := n.threads[t]]))
    && (n.threads != s.threads && n.threads[t].Loading? ==>
         a.Enter? && Decide(s.sh, a.force).Load? && n.threads[t].snap == s.sh.overlay)
    && (a.Enter? ==> t !in s.threads)
  }

  /** A cache that is valid has just been filled, or is as it was. */
  ghost predicate FillsRightly(s: State, a: Action, n: State) {
    n.sh.valid ==>
      && n.sh.overlay == s.sh.overlay
      && if a.Publish? && a.outcome.Loaded? && !s.sh.closed then n.sh.cached == a.outcome.ledger
         else s.sh.valid && n.sh.cached == s.sh.cached
  }

  /** What any step does to the loads and to the cache. */
  lemma {:induction false} ChangesOf(s: State, t: Thread, a: Action)
    requires Enabled(s, t, a)
    ensures LoadsRightly(s, t, a, Apply(s, t, a)) && FillsRightly(s, a, Apply(s, t, a))
  {
    if IsSend(a) || IsClose(a) || IsOwn(a) || IsUnlist(a) {
      LoadsUntouched(s, t, a);
    } else if IsOutside(a) {
      WritesInvalidate(s, t, a);
    } else if a.Enter? {
      EnterChanges(s, t, a.force, a.channel);
      EntersLoad(s, t, a.force, a.channel);
    } else {
      PublishEndsLoad(s, t, a.outcome);
    }
  }

  lemma {:induction false} EnteredAt(ledger: Ledger, states: seq<State>, events: seq<Event>, i: nat, t: Thread) returns (b: nat)
    requires Played(ledger, states, events) && i < |states| && t in states[i].threads && states[i].threads[t].Loading?
    ensures LoadsSince(states, events, b, i, t)
  {
    assert i > 0;
    assert StepAt(states, events, i - 1);
    LoadingStep(states[i - 1], events[i - 1], states[i], t);
    if events[i - 1].thread == t && events[i - 1].action.Enter? {
      b := i - 1;
    } else {
      b := EnteredAt(ledger, states, events, i - 1, t);
    }
  }

  /** The cache of state `i` is the ledger of the load that entered at event `b` and published at event `k`, or the first one. */
  ghost predicate FilledBy(states: seq<State>, events: seq<Event>, b: nat, k: nat, i: nat)
    requires |states| == |events| + 1 && i < |states|
  {
    && b <= k <= i
    && (k == 0 ==> b == 0 && states[i].sh.cached == states[0].sh.cached)
    && (k > 0 ==>
         && k < i && LoadsSince(states, events, b, k, events[k].thread)
         && events[k].action == Publish(Loaded(states[i].sh.cached)) && !states[k].sh.closed)
  }

  /** A step that neither fills the cache nor writes leaves a valid cache and its overlay as they were. */
  lemma {:induction false} CacheStep(s: State, e: Event, n: State)
    requires Stepped(s, e, n) && n.sh.valid
    ensures if e.action.Publish? && e.action.outcome.Loaded? && !s.sh.closed
            then n.sh.cached == e.action.outcome.ledger && n.sh.overlay == s.sh.overlay
            else s.sh.valid && n.sh.cached == s.sh.cached && n.sh.overlay == s.sh.overlay
  {
    ChangesOf(s, e.thread, e.action);
  }

  /**
   Every valid cache is the ledger of one load, and nothing was written since that load
   published: so the cache shows the current overlay exactly when the overlay was the
   same when that load began and when it published.
   */
  lemma {:induction false} CacheIsFreshIff(ledger: Ledger, states: seq<State>, events: seq<Event>, i: nat) returns (b: nat, k: nat)
    requires Played(ledger, states, events) && i < |states| && states[i].sh.valid
    ensures FilledBy(states, events, b, k, i)
    ensures states[i].sh.cached.of == states[b].sh.overlay && states[i].sh.overlay == states[k].sh.overlay
    ensures states[i].sh.cached.of == states[i].sh.overlay <==> states[b].sh.overlay == states[k].sh.overlay
  {
    if i == 0 {
      b, k := 0, 0;
    } else {
      assert StepAt(states, events, i - 1);
      var s, e := states[i - 1], events[i - 1];
      CacheStep(s, e, states[i]);
      if e.action.Publish? && e.action.outcome.Loaded? && !s.sh.closed {
        k := i - 1;
        b := EnteredAt(ledger, states, events, k, e.thread);
        assert IsLoading(states[k], e.thread, states[b].sh.overlay);
      } else {
        b, k := CacheIsFreshIff(ledger, states, events, i - 1);
      }
    }
  }

  /** The overlay is changed at no step that is taken while a load is in flight. */
  ghost predicate Quiet(states: seq<State>) {
    forall i :: 0 <= i < |states| - 1 ==> QuietAt(states, i)
  }

  predicate QuietAt(states: seq<State>, i: nat)
    requires i + 1 < |states|
  {
    states[i].sh.reloading ==> states[i + 1].sh.overlay == states[i].sh.overlay
  }

  /** What the overlay is while a thread loads, in a quiet run. */
  lemma {:induction false} QuietLoad(ledger: Ledger, states: seq<State>, events: seq<Event>, b: nat, m: nat, k: nat, t: Thread)
    requires Played(ledger, states, events) && Quiet(states) && k < |states| && LoadsSince(states, events, b, k, t) && b < m <= k
    ensures states[m].sh.overlay == states[b].sh.overlay
  {
    assert IsLoading(states[m], t, states[b].sh.overlay);
    if m == b + 1 {
      assert StepAt(states, events, b);
    } else {
      QuietLoad(ledger, states, events, b, m - 1, k, t);
      assert IsLoading(states[m - 1], t, states[b].sh.overlay);
      PlayedKeepsInv(ledger, states, events, m - 1);
      assert LoadOk(states[m - 1].sh, states[m - 1].channels, t, states[m - 1].threads[t]);
      assert QuietAt(states, m - 1);
    }
  }

  /** If the overlay is never changed while a load is in flight, a valid cache always shows the current overlay. */
  lemma {:induction false} QuietRunsAreFresh(ledger: Ledger, states: seq<State>, i: nat)
    requires Run(ledger, states) && Quiet(states) && i < |states| && states[i].sh.valid
    ensures states[i].sh.cached.of == states[i].sh.overlay
  {
    var events := RunIsPlayed(ledger, states);
    var b, k := CacheIsFreshIff(ledger, states, events, i);
    if k > 0 {
      QuietLoad(ledger, states, events, b, k, k, events[k].thread);
    }
  }

  /** The cache shows the current overlay when no write came since the snapshot of its load. */
  lemma {:induction false} FreshUnlessWritten(ledger: Ledger, states: seq<State>, i: nat)
    requires Run(ledger, states) && i < |states| && states[i].stamp == states[i].writes
    ensures states[i].sh.cached.of == states[i].sh.overlay
  {
    RunKeepsInv(ledger, states, i);
  }
}
