/**
 What reloads publish, what their callers return and what subscribers are given: the
 exact conditions under which callers that share a load agree, and under which a
 subscriber ends with the ledger of the cache.
 */
module SessionOutcomes {
  import opened Prelude
  import opened Sessions
  import opened SessionSteps
  import opened SessionSafety

  // ------------------------------------------------------------------ what is published

  /** What a thread carries is what its reload published, if it has. */
  predicate CarriesOutcome(outcomes: map<Channel, Outcome>, p: Phase) {
    && (p.Loading? ==> p.done !in outcomes)
    && (p.Finishing? ==> p.done in outcomes && outcomes[p.done] == p.outcome)
    && (Casts(p) ==> p.done in outcomes && outcomes[p.done] == Loaded(p.ledger))
  }

  /** The thread has a ledger to hand out or is handing it out. */
  predicate Casts(p: Phase) {
    p.Publishing? || Sends(p)
  }

  predicate GiftOk(outcomes: map<Channel, Outcome>, sub: Sub) {
    && (sub.given.Some? ==>
         var g := sub.given.value;
         g.reload in outcomes && outcomes[g.reload] == Loaded(g.ledger) && g.reload in sub.offered)
    && (sub.offered != {} ==> sub.given.Some?)
    && (sub.buffer.Some? ==> sub.given.Some? && sub.buffer.value == sub.given.value.ledger)
  }

  ghost predicate Published(s: State) {
    && (forall d :: d in s.outcomes ==> d in s.channels)
    && (forall d :: d in s.channels && s.channels[d].None? ==> d in s.outcomes)
    && (s.sh.last.Some? <==> s.latest.Some?)
    && (s.latest.Some? ==> s.latest.value in s.outcomes && s.sh.last == Some(s.outcomes[s.latest.value]))
    && (s.filled.Some? ==> s.filled.value in s.outcomes && s.outcomes[s.filled.value] == Loaded(s.sh.cached))
  }

  ghost predicate OutcomeInv(s: State) {
    && Published(s)
    && (forall t :: t in s.threads ==> CarriesOutcome(s.outcomes, s.threads[t]))
    && (forall x :: x in s.subs ==> GiftOk(s.outcomes, s.subs[x]))
  }

  lemma {:induction false} OutcomeInvEnter(s: State, t: Thread, force: bool, channel: Channel)
    requires OutcomeInv(s) && t !in s.threads && channel !in s.channels
    ensures OutcomeInv(ApplyEnter(s, t, force, channel))
  {
    var n := ApplyEnter(s, t, force, channel);
    forall u | u in n.threads ensures CarriesOutcome(n.outcomes, n.threads[u]) {
      if u != t {
        assert CarriesOutcome(s.outcomes, s.threads[u]);
      }
    }
  }

  lemma {:induction false} OutcomeInvPublish(s: State, t: Thread, outcome: Outcome)
    requires LoadInv(s) && OutcomeInv(s) && Enabled(s, t, Publish(outcome))
    ensures OutcomeInv(ApplyPublish(s, t, s.threads[t], outcome))
  {
    var n := ApplyPublish(s, t, s.threads[t], outcome);
    assert LoadOk(s.sh, s.channels, t, s.threads[t]) && CarriesOutcome(s.outcomes, s.threads[t]);
    forall u | u in n.threads ensures CarriesOutcome(n.outcomes, n.threads[u]) {
      if u != t {
        assert LoadOk(s.sh, s.channels, u, s.threads[u]) && CarriesOutcome(s.outcomes, s.threads[u]);
      }
    }
    forall x | x in n.subs ensures GiftOk(n.outcomes, n.subs[x]) {
      assert GiftOk(s.outcomes, s.subs[x]);
    }
  }

  /** Steps that publish nothing and change at most thread `t` and subscription `x`. */
  lemma {:induction false} OutcomeInvMove(s: State, n: State, t: Thread, x: SubId)
    requires OutcomeInv(s) && n.outcomes == s.outcomes && n.latest == s.latest && n.filled == s.filled
    requires n.sh.last == s.sh.last && n.sh.cached == s.sh.cached
    requires n.channels.Keys == s.channels.Keys && forall d :: d in n.channels && n.channels[d].None? ==> s.channels[d].None? || d in s.outcomes
    requires forall u :: u in n.threads ==> (u != t && u in s.threads && n.threads[u] == s.threads[u]) || CarriesOutcome(s.outcomes, n.threads[u])
    requires forall y :: y in n.subs ==> (y != x && y in s.subs && n.subs[y] == s.subs[y]) || GiftOk(s.outcomes, n.subs[y])
    ensures OutcomeInv(n)
  {
    forall u | u in n.threads ensures CarriesOutcome(n.outcomes, n.threads[u]) {
      if u != t && u in s.threads && n.threads[u] == s.threads[u] {
        assert CarriesOutcome(s.outcomes, s.threads[u]);
      }
    }
    forall y | y in n.subs ensures GiftOk(n.outcomes, n.subs[y]) {
      if y != x && y in s.subs && n.subs[y] == s.subs[y] {
        assert GiftOk(s.outcomes, s.subs[y]);
      }
    }
  }

  lemma {:induction false} OutcomeInvOutside(s: State, t: Thread, a: Action)
    requires OutcomeInv(s) && Enabled(s, t, a) && IsOutside(a)
    ensures OutcomeInv(ApplyOutside(s, a))
  {
    if a.Receive? {
      assert GiftOk(s.outcomes, s.subs[a.sub]);
    }
  }

  lemma {:induction false} OutcomeInvUnlist(s: State, t: Thread, a: Action)
    requires OutcomeInv(s) && IsUnlist(a)
    ensures OutcomeInv(ApplyUnlist(s, t, a))
  {
    OutcomeInvMove(s, ApplyUnlist(s, t, a), t, 0);
  }

  lemma {:induction false} OutcomeInvOwn(s: State, t: Thread, p: Phase, a: Action)
    requires LoadInv(s) && OutcomeInv(s) && t in s.threads && s.threads[t] == p && OwnReady(s, p, a)
    ensures OutcomeInv(ApplyOwn(s, t, p, a))
  {
    assert LoadOk(s.sh, s.channels, t, p) && CarriesOutcome(s.outcomes, p);
    OwnCarries(s, t, p, a);
    OutcomeInvMove(s, ApplyOwn(s, t, p, a), t, 0);
  }

  lemma {:induction false} OwnCarries(s: State, t: Thread, p: Phase, a: Action)
    requires LoadOk(s.sh, s.channels, t, p) && CarriesOutcome(s.outcomes, p) && OwnReady(s, p, a)
    ensures var n := ApplyOwn(s, t, p, a);
            && CarriesOutcome(s.outcomes, OwnPhase(s.sh, p, a)) && n.threads == s.threads[t := OwnPhase(s.sh, p, a)]
            && n.subs == s.subs && n.sh == s.sh && KeepsCache(s, n)
            && n.channels.Keys == s.channels.Keys
            && forall d :: d in n.channels && n.channels[d].None? ==> s.channels[d].None? || d in s.outcomes
  {
  }

  /** A step on a subscription keeps to the reload and hands out the same ledger to the same subscriptions. */
  predicate KeepsCast(p: Phase, q: Phase) {
    && (Sends(p) <==> Sends(q)) && (Closes(p) <==> Closes(q))
    && (Sends(p) ==> q.done == p.done && q.ledger == p.ledger && q.subs == p.subs)
  }

  /** Only a put changes what the subscription was given; nothing opens it again. */
  predicate GivesRightly(p: Phase, was: Sub, sub: Sub, a: Action) {
    && (was.closed ==> sub.closed)
    && if a.Put? then
         p.Putting? && sub.offered == was.offered + {p.done} && sub.given == Some(Gift(p.done, p.ledger)) && sub.buffer == Some(p.ledger)
       else sub.offered == was.offered && sub.given == was.given && (sub.buffer == None || sub.buffer == was.buffer)
  }

  lemma {:induction false} PhaseKeepsCast(p: Phase, sub: Sub, a: Action)
    requires At(p, a) && p.todo != []
    ensures KeepsCast(p, PhaseAfter(p, sub, a))
    ensures PhaseAfter(p, sub, a).todo == p.todo
            || (PhaseAfter(p, sub, a).todo == p.todo[1..] && (IsSend(a) ==> a.Put? || sub.closed))
  {
  }

  lemma {:induction false} SubIsGiven(t: Thread, p: Phase, sub: Sub, a: Action)
    requires At(p, a)
    ensures GivesRightly(p, sub, SubAfter(t, p, sub, a), a)
  {
  }

  lemma {:induction false} OutcomeInvOnSub(s: State, t: Thread, p: Phase, a: Action)
    requires OutcomeInv(s) && t in s.threads && s.threads[t] == p && At(p, a) && FacesOne(s, p)
    ensures OutcomeInv(ApplyOnSub(s, t, p, a))
  {
    var x := p.todo[0];
    assert CarriesOutcome(s.outcomes, p) && GiftOk(s.outcomes, s.subs[x]);
    PhaseKeepsCast(p, s.subs[x], a);
    SubIsGiven(t, p, s.subs[x], a);
    OutcomeInvMove(s, ApplyOnSub(s, t, p, a), t, x);
  }

  lemma {:induction false} OutcomeInvStep(s: State, t: Thread, a: Action)
    requires LoadInv(s) && OutcomeInv(s) && Enabled(s, t, a)
    ensures OutcomeInv(Apply(s, t, a))
  {
    if IsSend(a) || IsClose(a) {
      OutcomeInvOnSub(s, t, s.threads[t], a);
    } else if IsOwn(a) {
      OutcomeInvOwn(s, t, s.threads[t], a);
    } else {
      OutcomeInvOther(s, t, a);
    }
  }

  lemma {:induction false} OutcomeInvOther(s: State, t: Thread, a: Action)
    requires LoadInv(s) && OutcomeInv(s) && Enabled(s, t, a) && !(IsSend(a) || IsClose(a) || IsOwn(a))
    ensures OutcomeInv(Apply(s, t, a))
  {
    if IsOutside(a) {
      OutcomeInvOutside(s, t, a);
    } else if IsUnlist(a) {
      OutcomeInvUnlist(s, t, a);
    } else if a.Enter? {
      OutcomeInvEnter(s, t, a.force, a.channel);
    } else {
      OutcomeInvPublish(s, t, a.outcome);
    }
  }

  lemma {:induction false} RunKeepsOutcomes(ledger: Ledger, states: seq<State>, i: nat)
    requires Run(ledger, states) && i < |states|
    ensures OutcomeInv(states[i])
  {
    if i > 0 {
      RunKeepsOutcomes(ledger, states, i - 1);
      RunKeepsInv(ledger, states, i - 1);
      assert NextAt(states, i - 1);
      OutcomeInvNext(states[i - 1], states[i]);
    }
  }

  lemma {:induction false} OutcomeInvNext(s: State, n: State)
    requires Inv(s) && OutcomeInv(s) && Next(s, n)
    ensures OutcomeInv(n)
  {
    var e := StepOf(s, n);
    OutcomeInvStep(s, e.thread, e.action);
  }

  // ------------------------------------------------------------------ callers that share a load

  /**
   A caller that wakes returns what the reload that published last gave. So it agrees
   with the caller that ran the load it waited for exactly when those two outcomes are
   equal, and always when no later reload has published.
   */
  lemma {:induction false} CoalescedCallersAgreeIff(ledger: Ledger, states: seq<State>, i: nat, t: Thread)
    requires Run(ledger, states) && i < |states| && Enabled(states[i], t, Wake)
    ensures var s, done := states[i], states[i].threads[t].done;
            && done in s.outcomes && s.latest.Some? && s.latest.value in s.outcomes
            && Apply(s, t, Wake).threads[t] == Returned(Some(s.outcomes[s.latest.value]))
            && (Apply(s, t, Wake).threads[t] == Returned(Some(s.outcomes[done])) <==> s.outcomes[s.latest.value] == s.outcomes[done])
            && (s.latest == Some(done) ==> Apply(s, t, Wake).threads[t] == Returned(Some(s.outcomes[done])))
  {
    RunKeepsInv(ledger, states, i);
    RunKeepsOutcomes(ledger, states, i);
    var s := states[i];
    assert LoadOk(s.sh, s.channels, t, s.threads[t]);
    assert ChannelOk(s.sh, s.threads, s.threads[t].done, s.channels[s.threads[t].done]);
  }

  /** The caller that ran a load returns what that load gave. */
  lemma {:induction false} LoaderReturnsItsOutcome(ledger: Ledger, states: seq<State>, i: nat, t: Thread)
    requires Run(ledger, states) && i < |states| && Enabled(states[i], t, CloseDone)
    ensures var s, done := states[i], states[i].threads[t].done;
            done in s.outcomes && Apply(s, t, CloseDone).threads[t] == Returned(Some(s.outcomes[done]))
  {
    RunKeepsOutcomes(ledger, states, i);
    assert CarriesOutcome(states[i].outcomes, states[i].threads[t]);
  }

  /** Event `k` publishes the outcome of reload `done`. */
  ghost predicate PublishesAt(states: seq<State>, events: seq<Event>, k: nat, done: Channel)
    requires |states| == |events| + 1 && k < |events|
  {
    && events[k].action.Publish? && events[k].thread in states[k].threads
    && states[k].threads[events[k].thread].Loading? && states[k].threads[events[k].thread].done == done
  }

  /** What is recorded as the latest is the reload that published last. */
  lemma {:induction false} LatestIsLast(ledger: Ledger, states: seq<State>, events: seq<Event>, i: nat) returns (k: nat)
    requires Played(ledger, states, events) && i < |states|
    ensures states[i].latest.Some? ==> k < i && PublishesAt(states, events, k, states[i].latest.value)
    ensures forall m :: 0 <= m < i && (states[i].latest.Some? ==> k < m) ==> !events[m].action.Publish?
  {
    k := 0;
    if i > 0 {
      assert StepAt(states, events, i - 1);
      var s, e := states[i - 1], events[i - 1];
      k := LatestIsLast(ledger, states, events, i - 1);
      if e.action.Publish? {
        k := i - 1;
      } else {
        LatestStays(s, e.thread, e.action);
      }
    }
  }

  lemma {:induction false} LatestStays(s: State, t: Thread, a: Action)
    requires Enabled(s, t, a) && !a.Publish?
    ensures Apply(s, t, a).latest == s.latest
  {
    if !(a.Write? || a.Clear? || a.Enter?) {
      LoadsUntouched(s, t, a);
    }
  }
}
