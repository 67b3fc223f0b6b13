/**
 What the steps of the session keep: sends neither block nor hit a closed channel, every
 channel is closed once, and nothing that is live is skipped.
 */
module SessionSafety {
  import opened Prelude
  import opened Sessions
  import opened SessionSteps

  predicate Sends(p: Phase) {
    p.Sending? || p.Draining? || p.Putting?
  }

  predicate Closes(p: Phase) {
    p.Closing? || p.Entering? || p.Shutting?
  }

  predicate SubOk(threads: map<Thread, Phase>, x: SubId, sub: Sub) {
    && (sub.closed <==> sub.once.Finished?) && (sub.open <==> !sub.closed)
    && (sub.holder.Some? ==>
         sub.holder.value in threads && Holds(threads[sub.holder.value], x))
    && (sub.once.Busy? ==> sub.once.closer in threads && InClose(threads[sub.once.closer], x))
  }

  predicate Holds(p: Phase, x: SubId) {
    (p.Draining? || p.Putting? || p.Shutting?) && Faces(p, x)
  }

  predicate InClose(p: Phase, x: SubId) {
    (p.Entering? || p.Shutting?) && Faces(p, x)
  }

  /** The broadcast of reload `done` is through with this subscription. */
  predicate Handled(sub: Sub, done: Channel) {
    done in sub.offered || sub.closed
  }

  predicate SendOk(subs: map<SubId, Sub>, t: Thread, p: Phase)
    requires Sends(p)
  {
    && (forall x :: x in p.todo ==> x in subs)
    && (forall x :: x in p.subs && x !in p.todo ==> x in subs && Handled(subs[x], p.done))
    && (p.Draining? || p.Putting? ==> p.todo != [] && p.todo[0] in subs && HeldFor(subs[p.todo[0]], t, p))
  }

  predicate HeldFor(sub: Sub, t: Thread, p: Phase) {
    sub.holder == Some(t) && !sub.closed && (p.Putting? ==> sub.buffer.None?)
  }

  predicate CloseOk(subscribers: seq<SubId>, subs: map<SubId, Sub>, t: Thread, p: Phase)
    requires Closes(p)
  {
    && (forall x :: x in p.todo ==> x in subs && x !in subscribers)
    && (p.Entering? || p.Shutting? ==>
         && p.todo != [] && p.todo[0] in subs && subs[p.todo[0]].once == Busy(t)
         && (p.Shutting? ==> subs[p.todo[0]].holder == Some(t)))
  }

  predicate PhaseOk(subscribers: seq<SubId>, subs: map<SubId, Sub>, t: Thread, p: Phase) {
    && (Sends(p) ==> SendOk(subs, t, p))
    && (Closes(p) ==> CloseOk(subscribers, subs, t, p))
    && (p.Finishing? ==> forall x :: x in p.subs ==> x in subs && Handled(subs[x], p.done))
  }

  ghost predicate Listed(subscribers: seq<SubId>, subs: map<SubId, Sub>) {
    Distinct(subscribers) && forall x :: x in subscribers ==> x in subs && subs[x].once.NotYet?
  }

  ghost predicate SubInv(s: State) {
    && (forall t :: t in s.threads ==> PhaseOk(s.sh.subscribers, s.subs, t, s.threads[t]))
    && (forall x :: x in s.subs ==> SubOk(s.threads, x, s.subs[x]))
    && Listed(s.sh.subscribers, s.subs)
    && (s.sh.closed ==> s.sh.subscribers == [])
  }

  /** What a change of a subscription must leave to the other threads. */
  predicate Leaves(sub: Sub, sub': Sub, u: Thread) {
    && sub.offered <= sub'.offered && (sub.closed ==> sub'.closed)
    && (sub.holder == Some(u) ==> sub'.holder == Some(u) && sub'.closed == sub.closed && (sub.buffer.None? ==> sub'.buffer.None?))
    && (sub.once == Busy(u) ==> sub'.once == Busy(u))
  }

  lemma {:induction false} OtherPhaseOk(subscribers: seq<SubId>, subs: map<SubId, Sub>, u: Thread, p: Phase,
                                        subscribers': seq<SubId>, x: SubId, sub: Sub)
    requires PhaseOk(subscribers, subs, u, p) && x in subs && Leaves(subs[x], sub, u)
    requires forall y :: y in subscribers' ==> y in subscribers
    ensures PhaseOk(subscribers', subs[x := sub], u, p)
  {
  }

  /** Thread `t` moves on and changes subscription `x`. */
  lemma {:induction false} SubInvMove(s: State, t: Thread, p: Phase, x: SubId, sub: Sub)
    requires SubInv(s) && x in s.subs
    requires PhaseOk(s.sh.subscribers, s.subs[x := sub], t, p) && SubOk(s.threads[t := p], x, sub)
    requires forall u: Thread :: u != t ==> Leaves(s.subs[x], sub, u)
    requires x in s.sh.subscribers ==> sub.once.NotYet?
    requires t in s.threads && FacesOne(s, s.threads[t]) && s.threads[t].todo[0] == x
    ensures SubInv(With(Goes(s, t, p), x, sub))
  {
    var n := With(Goes(s, t, p), x, sub);
    forall u | u in n.threads ensures PhaseOk(n.sh.subscribers, n.subs, u, n.threads[u]) {
      if u != t {
        OtherPhaseOk(s.sh.subscribers, s.subs, u, s.threads[u], s.sh.subscribers, x, sub);
      }
    }
    forall y | y in n.subs ensures SubOk(n.threads, y, n.subs[y]) {
      if y != x {
        assert SubOk(s.threads, y, s.subs[y]);
      }
    }
  }

  predicate Idle(p: Phase) {
    !(p.Draining? || p.Putting? || p.Entering? || p.Shutting?)
  }

  /** Thread `t` moves on, changes no subscription and perhaps takes some off the list. */
  lemma {:induction false} SubInvOnly(s: State, t: Thread, p: Phase, sh: Shared<SubId>)
    requires SubInv(s) && (t in s.threads ==> Idle(s.threads[t]))
    requires PhaseOk(sh.subscribers, s.subs, t, p) && (sh.closed ==> sh.subscribers == [])
    requires Distinct(sh.subscribers) && forall x :: x in sh.subscribers ==> x in s.sh.subscribers
    ensures SubInv(Goes(s, t, p).(sh := sh))
  {
    var n := Goes(s, t, p).(sh := sh);
    forall u | u in n.threads ensures PhaseOk(n.sh.subscribers, n.subs, u, n.threads[u]) {
      if u != t {
        assert PhaseOk(s.sh.subscribers, s.subs, u, s.threads[u]);
      }
    }
    forall y | y in n.subs ensures SubOk(n.threads, y, n.subs[y]) {
      assert SubOk(s.threads, y, s.subs[y]);
    }
  }

  lemma {:induction false} SubInvReceive(s: State, x: SubId)
    requires SubInv(s) && x in s.subs
    ensures SubInv(With(s, x, s.subs[x].(buffer := None)))
  {
    var sub := s.subs[x].(buffer := None);
    var n := With(s, x, sub);
    assert SubOk(s.threads, x, s.subs[x]);
    forall u | u in n.threads ensures PhaseOk(n.sh.subscribers, n.subs, u, n.threads[u]) {
      OtherPhaseOk(s.sh.subscribers, s.subs, u, s.threads[u], s.sh.subscribers, x, sub);
    }
  }

  lemma {:induction false} SubInvSubscribe(s: State, x: SubId)
    requires SubInv(s) && x !in s.subs && !s.sh.closed
    ensures SubInv(With(s, x, Sub(None, true, false, None, NotYet, {}, None)).(sh := Subscribed(s.sh, x)))
  {
    var n := With(s, x, Sub(None, true, false, None, NotYet, {}, None)).(sh := Subscribed(s.sh, x));
    forall u | u in n.threads ensures PhaseOk(n.sh.subscribers, n.subs, u, n.threads[u]) {
      assert PhaseOk(s.sh.subscribers, s.subs, u, s.threads[u]);
    }
    forall y | y in n.subs ensures SubOk(n.threads, y, n.subs[y]) {
      if y != x {
        assert SubOk(s.threads, y, s.subs[y]);
      }
    }
  }

  /** A thread that has locked or begun to close a subscription is the one that did. */
  predicate Owns(t: Thread, sub: Sub, a: Action) {
    && (a.Drain? || a.Put? || a.Shut? ==> sub.holder == Some(t))
    && (a.LockToClose? || a.Shut? ==> sub.once == Busy(t))
    && (a.Drain? || a.Put? ==> !sub.closed)
  }

  lemma {:induction false} FacedIsOwned(subscribers: seq<SubId>, subs: map<SubId, Sub>, t: Thread, p: Phase, a: Action)
    requires PhaseOk(subscribers, subs, t, p) && At(p, a) && p.todo != [] && p.todo[0] in subs
    ensures Owns(t, subs[p.todo[0]], a)
  {
  }

  lemma {:induction false} SubAfterOk(threads: map<Thread, Phase>, t: Thread, p: Phase, x: SubId, sub: Sub, a: Action)
    requires SubOk(threads, x, sub) && t in threads && threads[t] == p && At(p, a) && Faces(p, x)
    requires Owns(t, sub, a) && Free(sub, a)
    ensures SubOk(threads[t := PhaseAfter(p, sub, a)], x, SubAfter(t, p, sub, a))
  {
  }

  lemma {:induction false} SubAfterLeaves(t: Thread, p: Phase, sub: Sub, a: Action, u: Thread)
    requires At(p, a) && Owns(t, sub, a) && Free(sub, a) && u != t && (sub.closed <==> sub.once.Finished?)
    ensures Leaves(sub, SubAfter(t, p, sub, a), u)
  {
  }

  lemma {:induction false} SendPhaseOk(subs: map<SubId, Sub>, t: Thread, p: Phase, a: Action)
    requires Sends(p) && SendOk(subs, t, p) && At(p, a) && IsSend(a) && p.todo != [] && p.todo[0] in subs
    requires Owns(t, subs[p.todo[0]], a) && Free(subs[p.todo[0]], a)
    ensures var x := p.todo[0];
            var q := PhaseAfter(p, subs[x], a);
            Sends(q) && SendOk(subs[x := SubAfter(t, p, subs[x], a)], t, q)
  {
  }

  lemma {:induction false} ClosePhaseOk(subscribers: seq<SubId>, subs: map<SubId, Sub>, t: Thread, p: Phase, a: Action)
    requires Closes(p) && CloseOk(subscribers, subs, t, p) && At(p, a) && IsClose(a) && p.todo != [] && p.todo[0] in subs
    ensures var x := p.todo[0];
            var q := PhaseAfter(p, subs[x], a);
            Closes(q) && CloseOk(subscribers, subs[x := SubAfter(t, p, subs[x], a)], t, q)
  {
  }

  /** A step on a subscription. */
  lemma {:induction false} SubInvOnSub(s: State, t: Thread, a: Action)
    requires SubInv(s) && Enabled(s, t, a) && (IsSend(a) || IsClose(a))
    ensures SubInv(ApplyOnSub(s, t, s.threads[t], a))
  {
    var p := s.threads[t];
    var x := p.todo[0];
    var sub := s.subs[x];
    assert PhaseOk(s.sh.subscribers, s.subs, t, p) && SubOk(s.threads, x, sub);
    FacedIsOwned(s.sh.subscribers, s.subs, t, p, a);
    SubAfterOk(s.threads, t, p, x, sub, a);
    PhaseAfterOk(s.sh.subscribers, s.subs, t, p, a);
    forall u: Thread | u != t ensures Leaves(sub, SubAfter(t, p, sub, a), u) {
      SubAfterLeaves(t, p, sub, a, u);
    }
    ListedIsNotClosing(s, t, p, a);
    SubInvMove(s, t, PhaseAfter(p, sub, a), x, SubAfter(t, p, sub, a));
  }

  lemma {:induction false} PhaseAfterOk(subscribers: seq<SubId>, subs: map<SubId, Sub>, t: Thread, p: Phase, a: Action)
    requires PhaseOk(subscribers, subs, t, p) && At(p, a) && p.todo != [] && p.todo[0] in subs
    requires Owns(t, subs[p.todo[0]], a) && Free(subs[p.todo[0]], a)
    ensures PhaseOk(subscribers, subs[p.todo[0] := SubAfter(t, p, subs[p.todo[0]], a)], t, PhaseAfter(p, subs[p.todo[0]], a))
  {
    if IsSend(a) {
      SendPhaseOk(subs, t, p, a);
    } else {
      ClosePhaseOk(subscribers, subs, t, p, a);
    }
  }

  /** What is still listed is not being closed. */
  lemma {:induction false} ListedIsNotClosing(s: State, t: Thread, p: Phase, a: Action)
    requires SubInv(s) && t in s.threads && s.threads[t] == p && At(p, a) && FacesOne(s, p)
    ensures p.todo[0] in s.sh.subscribers ==> SubAfter(t, p, s.subs[p.todo[0]], a).once.NotYet?
  {
    assert PhaseOk(s.sh.subscribers, s.subs, t, p);
  }

  lemma {:induction false} SubInvStep(s: State, t: Thread, a: Action)
    requires SubInv(s) && Enabled(s, t, a)
    ensures SubInv(Apply(s, t, a))
  {
    if IsSend(a) || IsClose(a) {
      SubInvOnSub(s, t, a);
    } else if IsOwn(a) {
      SubInvOwn(s, t, s.threads[t], a);
    } else if IsOutside(a) {
      SubInvOutside(s, t, a);
    } else if IsUnlist(a) {
      SubInvUnlist(s, t, a);
    } else if a.Enter? {
      SubInvEnter(s, t, a.force, a.channel);
    } else {
      SubInvPublish(s, t, a.outcome);
    }
  }

  lemma {:induction false} SubInvOutside(s: State, t: Thread, a: Action)
    requires SubInv(s) && Enabled(s, t, a) && IsOutside(a)
    ensures SubInv(ApplyOutside(s, a))
  {
    if a.Subscribe? {
      if !s.sh.closed {
        SubInvSubscribe(s, a.sub);
      }
    } else if a.Receive? {
      SubInvReceive(s, a.sub);
    }
  }

  /** A thread that begins to close subscriptions has taken them off the list. */
  lemma {:induction false} SubInvUnlist(s: State, t: Thread, a: Action)
    requires SubInv(s) && Enabled(s, t, a) && IsUnlist(a)
    ensures SubInv(ApplyUnlist(s, t, a))
  {
    var n := ApplyUnlist(s, t, a);
    if a.Cancel? {
      RemovedTakesOut(s.sh.subscribers, a.sub);
    }
    SubInvOnly(s, t, n.threads[t], n.sh);
  }

  /** What entering leaves alone, and where it leads. */
  lemma {:induction false} EnterChanges(s: State, t: Thread, force: bool, channel: Channel)
    requires t !in s.threads
    ensures var n := ApplyEnter(s, t, force, channel);
            && t in n.threads && n.threads == s.threads[t := n.threads[t]] && n.subs == s.subs
            && (n.threads[t].Refused? || n.threads[t].Returned? || n.threads[t].Waiting? || n.threads[t].Loading?)
            && n.sh.subscribers == s.sh.subscribers && n.sh.closed == s.sh.closed
  {
  }

  lemma {:induction false} SubInvEnter(s: State, t: Thread, force: bool, channel: Channel)
    requires SubInv(s) && t !in s.threads
    ensures SubInv(ApplyEnter(s, t, force, channel))
  {
    var n := ApplyEnter(s, t, force, channel);
    EnterChanges(s, t, force, channel);
    SubInvOnly(s, t, n.threads[t], n.sh);
    SubInvSame(Goes(s, t, n.threads[t]).(sh := n.sh), n);
  }

  lemma {:induction false} SubInvPublish(s: State, t: Thread, outcome: Outcome)
    requires SubInv(s) && Enabled(s, t, Publish(outcome))
    ensures SubInv(ApplyPublish(s, t, s.threads[t], outcome))
  {
    var n := ApplyPublish(s, t, s.threads[t], outcome);
    SubInvOnly(s, t, n.threads[t], n.sh);
    SubInvSame(Goes(s, t, n.threads[t]).(sh := n.sh), n);
  }

  lemma {:induction false} SubInvOwn(s: State, t: Thread, p: Phase, a: Action)
    requires SubInv(s) && t in s.threads && s.threads[t] == p && OwnReady(s, p, a)
    ensures SubInv(ApplyOwn(s, t, p, a))
  {
    assert PhaseOk(s.sh.subscribers, s.subs, t, p);
    var q := OwnPhase(s.sh, p, a);
    OwnPhaseOk(s, t, p, a);
    SubInvOnly(s, t, q, s.sh);
    SubInvSame(Goes(s, t, q).(sh := s.sh), ApplyOwn(s, t, p, a));
  }

  lemma {:induction false} OwnPhaseOk(s: State, t: Thread, p: Phase, a: Action)
    requires Listed(s.sh.subscribers, s.subs) && PhaseOk(s.sh.subscribers, s.subs, t, p) && OwnReady(s, p, a)
    ensures PhaseOk(s.sh.subscribers, s.subs, t, OwnPhase(s.sh, p, a)) && Idle(p)
  {
  }

  lemma {:induction false} SubInvSame(s: State, n: State)
    requires SubInv(s) && n.sh == s.sh && n.subs == s.subs && n.threads == s.threads
    ensures SubInv(n)
  {
  }

  // ------------------------------------------------------------------ freshness

  /** What was loaded since the last change of the overlay shows the current overlay. */
  ghost predicate FreshInv(s: State) {
    && s.stamp <= s.writes && (s.stamp == s.writes ==> s.sh.cached.of == s.sh.overlay)
    && forall t :: t in s.threads && s.threads[t].Loading? ==> LoadsFresh(s.sh.overlay, s.writes, s.threads[t])
  }

  predicate LoadsFresh(overlay: Overlay, writes: nat, p: Phase)
    requires p.Loading?
  {
    p.at <= writes && (p.at == writes ==> p.snap == overlay)
  }

  lemma {:induction false} FreshInvOutside(s: State, t: Thread, a: Action)
    requires FreshInv(s) && Enabled(s, t, a) && IsOutside(a)
    ensures FreshInv(ApplyOutside(s, a))
  {
    var n := ApplyOutside(s, a);
    forall u | u in n.threads && n.threads[u].Loading? ensures LoadsFresh(n.sh.overlay, n.writes, n.threads[u]) {
      assert LoadsFresh(s.sh.overlay, s.writes, s.threads[u]);
    }
  }

  lemma {:induction false} FreshInvPublish(s: State, t: Thread, outcome: Outcome)
    requires FreshInv(s) && Enabled(s, t, Publish(outcome))
    ensures FreshInv(ApplyPublish(s, t, s.threads[t], outcome))
  {
    assert LoadsFresh(s.sh.overlay, s.writes, s.threads[t]);
    var n := ApplyPublish(s, t, s.threads[t], outcome);
    forall u | u in n.threads && n.threads[u].Loading? ensures LoadsFresh(n.sh.overlay, n.writes, n.threads[u]) {
      assert LoadsFresh(s.sh.overlay, s.writes, s.threads[u]);
    }
  }

  /** What the other steps leave alone as far as freshness goes. */
  lemma {:induction false} FreshInvOther(s: State, n: State)
    requires FreshInv(s) && n.sh.overlay == s.sh.overlay && n.sh.cached == s.sh.cached && n.writes == s.writes && n.stamp == s.stamp
    requires forall u :: u in n.threads && n.threads[u].Loading? ==>
               || (u in s.threads && n.threads[u] == s.threads[u])
               || (n.threads[u].at == s.writes && n.threads[u].snap == s.sh.overlay)
    ensures FreshInv(n)
  {
    forall u | u in n.threads && n.threads[u].Loading? ensures LoadsFresh(n.sh.overlay, n.writes, n.threads[u]) {
      if u in s.threads && n.threads[u] == s.threads[u] {
        assert LoadsFresh(s.sh.overlay, s.writes, s.threads[u]);
      }
    }
  }

  /** What steps other than entering, publishing and writing leave alone. */
  ghost predicate KeepsCache(s: State, n: State) {
    && n.sh.overlay == s.sh.overlay && n.sh.cached == s.sh.cached && n.sh.valid == s.sh.valid && n.sh.last == s.sh.last
    && n.writes == s.writes && n.stamp == s.stamp
    && n.outcomes == s.outcomes && n.latest == s.latest && n.filled == s.filled
  }

  /** Nobody but thread `t` moves, and it does not begin to load. */
  ghost predicate MovesOne(s: State, n: State, t: Thread) {
    n.threads == s.threads || (t in n.threads && n.threads == s.threads[t := n.threads[t]] && !n.threads[t].Loading?)
  }

  lemma {:induction false} OnSubUntouched(s: State, t: Thread, p: Phase, a: Action)
    requires At(p, a) && FacesOne(s, p)
    ensures KeepsCache(s, ApplyOnSub(s, t, p, a)) && MovesOne(s, ApplyOnSub(s, t, p, a), t)
  {
    PhaseKeepsReload(p, s.subs[p.todo[0]], a);
  }

  lemma {:induction false} OwnUntouched(s: State, t: Thread, p: Phase, a: Action)
    requires OwnReady(s, p, a)
    ensures KeepsCache(s, ApplyOwn(s, t, p, a)) && MovesOne(s, ApplyOwn(s, t, p, a), t)
  {
  }

  lemma {:induction false} LoadsUntouched(s: State, t: Thread, a: Action)
    requires Enabled(s, t, a) && !(a.Write? || a.Clear? || a.Enter? || a.Publish?)
    ensures KeepsCache(s, Apply(s, t, a)) && MovesOne(s, Apply(s, t, a), t)
  {
    if IsSend(a) || IsClose(a) {
      OnSubUntouched(s, t, s.threads[t], a);
    } else if IsOwn(a) {
      OwnUntouched(s, t, s.threads[t], a);
    } else if IsOutside(a) {
      OutsideUntouched(s, t, a);
    }
  }

  lemma {:induction false} OutsideUntouched(s: State, t: Thread, a: Action)
    requires IsOutside(a) && !a.Write? && !a.Clear? && (a.Receive? ==> a.sub in s.subs)
    ensures KeepsCache(s, ApplyOutside(s, a)) && MovesOne(s, ApplyOutside(s, a), t)
  {
  }

  lemma {:induction false} FreshInvEnter(s: State, t: Thread, force: bool, channel: Channel)
    requires FreshInv(s) && t !in s.threads
    ensures FreshInv(ApplyEnter(s, t, force, channel))
  {
    FreshInvOther(s, ApplyEnter(s, t, force, channel));
  }

  lemma {:induction false} FreshInvStep(s: State, t: Thread, a: Action)
    requires FreshInv(s) && Enabled(s, t, a)
    ensures FreshInv(Apply(s, t, a))
  {
    if IsSend(a) || IsClose(a) || IsOwn(a) || IsUnlist(a) {
      FreshInvRest(s, t, a);
    } else if IsOutside(a) {
      FreshInvOutside(s, t, a);
    } else if a.Enter? {
      FreshInvEnter(s, t, a.force, a.channel);
    } else {
      FreshInvPublish(s, t, a.outcome);
    }
  }

  lemma {:induction false} FreshInvRest(s: State, t: Thread, a: Action)
    requires FreshInv(s) && Enabled(s, t, a) && !(IsOutside(a) || a.Enter? || a.Publish?)
    ensures FreshInv(Apply(s, t, a))
  {
    var n := Apply(s, t, a);
    LoadsUntouched(s, t, a);
    FreshInvOther(s, n);
  }

  // ------------------------------------------------------------------ every state of every run

  ghost predicate Inv(s: State) {
    LoadInv(s) && SubInv(s) && FreshInv(s)
  }

  lemma {:induction false} RunKeepsInv(ledger: Ledger, states: seq<State>, i: nat)
    requires Run(ledger, states) && i < |states|
    ensures Inv(states[i])
  {
    if i > 0 {
      RunKeepsInv(ledger, states, i - 1);
      assert NextAt(states, i - 1);
      InvStep(states[i - 1], states[i]);
    }
  }

  lemma {:induction false} InvStep(s: State, n: State)
    requires Inv(s) && Next(s, n)
    ensures Inv(n)
  {
    var e := StepOf(s, n);
    LoadInvStep(s, e.thread, e.action);
    SubInvStep(s, e.thread, e.action);
    FreshInvStep(s, e.thread, e.action);
  }

  /** At most one load is in flight, and exactly when the session says so. */
  lemma {:induction false} AtMostOneLoad(ledger: Ledger, states: seq<State>, i: nat, t: Thread, u: Thread)
    requires Run(ledger, states) && i < |states|
    requires t in states[i].threads && states[i].threads[t].Loading?
    requires u in states[i].threads && states[i].threads[u].Loading?
    ensures t == u && states[i].sh.reloading
  {
    RunKeepsInv(ledger, states, i);
    var s := states[i];
    assert LoadOk(s.sh, s.channels, t, s.threads[t]) && LoadOk(s.sh, s.channels, u, s.threads[u]);
  }

  /**
   A caller that waits, waits on a channel that is closed or that some thread which is
   carrying a reload through is going to close. Whoever returns, returns an outcome.
   */
  lemma {:induction false} WaitersAreServed(ledger: Ledger, states: seq<State>, i: nat, t: Thread)
    requires Run(ledger, states) && i < |states| && t in states[i].threads
    ensures var s, p := states[i], states[i].threads[t];
            && (p.Waiting? ==>
                 && p.done in s.channels
                 && (s.channels[p.done].None? || exists u :: u in s.threads && Loads(s.threads[u]) && s.threads[u].done == p.done))
            && (p.Returned? ==> p.result.Some?)
  {
    RunKeepsInv(ledger, states, i);
    var s, p := states[i], states[i].threads[t];
    assert LoadOk(s.sh, s.channels, t, p);
    if p.Waiting? {
      assert ChannelOk(s.sh, s.threads, p.done, s.channels[p.done]);
    }
  }

  /**
   A thread about to put a ledger into a subscription's channel finds it open and empty,
   so it neither blocks nor panics; a thread about to close a channel finds it open, so
   each channel is closed once.
   */
  lemma {:induction false} ChannelsAreUsedRight(ledger: Ledger, states: seq<State>, i: nat, t: Thread)
    requires Run(ledger, states) && i < |states| && t in states[i].threads
    ensures var s, p := states[i], states[i].threads[t];
            && (p.Putting? ==> FacesOne(s, p) && s.subs[p.todo[0]].open && s.subs[p.todo[0]].buffer.None?)
            && (p.Shutting? ==> FacesOne(s, p) && s.subs[p.todo[0]].open)
            && (p.Finishing? ==> p.done in s.channels && s.channels[p.done] == Some(t))
  {
    RunKeepsInv(ledger, states, i);
    var s, p := states[i], states[i].threads[t];
    assert LoadOk(s.sh, s.channels, t, p) && PhaseOk(s.sh.subscribers, s.subs, t, p);
    if FacesOne(s, p) {
      assert SubOk(s.threads, p.todo[0], s.subs[p.todo[0]]);
    }
  }

  /**
   When a reload is about to report its end, every subscription that was listed when its
   broadcast began has had the ledger put into its channel or is closed.
   */
  lemma {:induction false} NoSubscriberIsSkipped(ledger: Ledger, states: seq<State>, i: nat, t: Thread)
    requires Run(ledger, states) && i < |states| && t in states[i].threads && states[i].threads[t].Finishing?
    ensures var p := states[i].threads[t];
            forall x :: x in p.subs ==> x in states[i].subs && Handled(states[i].subs[x], p.done)
  {
    RunKeepsInv(ledger, states, i);
    assert PhaseOk(states[i].sh.subscribers, states[i].subs, t, states[i].threads[t]);
  }

  /** A subscription whose close has begun is on no list any more, so no later broadcast starts with it. */
  lemma {:induction false} CancelledIsUnlisted(ledger: Ledger, states: seq<State>, i: nat, x: SubId)
    requires Run(ledger, states) && i < |states| && x in states[i].subs
    requires !states[i].subs[x].once.NotYet? || states[i].sh.closed
             || exists t :: t in states[i].threads && Closes(states[i].threads[t]) && x in states[i].threads[t].todo
    ensures x !in states[i].sh.subscribers
  {
    RunKeepsInv(ledger, states, i);
    var s := states[i];
    if t :| t in s.threads && Closes(s.threads[t]) && x in s.threads[t].todo {
      assert PhaseOk(s.sh.subscribers, s.subs, t, s.threads[t]);
    }
  }

  // ------------------------------------------------------------------ after the close

  ghost predicate SameSession(x: Shared<SubId>, y: Shared<SubId>) {
    && y.closed && y.subscribers == [] && y.cached == x.cached && y.valid == x.valid && y.overlay == x.overlay
  }

  lemma {:induction false} ClosedOutside(s: State, a: Action)
    requires s.sh.closed && s.sh.subscribers == [] && IsOutside(a) && (a.Receive? ==> a.sub in s.subs)
    ensures SameSession(s.sh, ApplyOutside(s, a).sh)
  {
  }

  lemma {:induction false} ClosedUnlist(s: State, t: Thread, a: Action)
    requires s.sh.closed && s.sh.subscribers == [] && IsUnlist(a)
    ensures SameSession(s.sh, ApplyUnlist(s, t, a).sh)
  {
  }

  lemma {:induction false} ClosedEnter(s: State, t: Thread, force: bool, channel: Channel)
    requires s.sh.closed && s.sh.subscribers == []
    ensures SameSession(s.sh, ApplyEnter(s, t, force, channel).sh)
  {
  }

  lemma {:induction false} ClosedPublish(s: State, t: Thread, p: Phase, outcome: Outcome)
    requires s.sh.closed && s.sh.subscribers == [] && p.Loading?
    ensures SameSession(s.sh, ApplyPublish(s, t, p, outcome).sh)
  {
  }

  lemma {:induction false} ClosedThread(s: State, t: Thread, a: Action)
    requires s.sh.closed && s.sh.subscribers == [] && Enabled(s, t, a) && (IsSend(a) || IsClose(a) || IsOwn(a))
    ensures SameSession(s.sh, Apply(s, t, a).sh)
  {
  }

  lemma {:induction false} ClosedStaysPut(s: State, t: Thread, a: Action)
    requires s.sh.closed && s.sh.subscribers == [] && Enabled(s, t, a)
    ensures SameSession(s.sh, Apply(s, t, a).sh)
  {
    if IsSend(a) || IsClose(a) || IsOwn(a) {
      ClosedThread(s, t, a);
    } else if IsOutside(a) {
      ClosedOutside(s, a);
    } else if IsUnlist(a) {
      ClosedUnlist(s, t, a);
    } else if a.Enter? {
      ClosedEnter(s, t, a.force, a.channel);
    } else {
      ClosedPublish(s, t, s.threads[t], a.outcome);
    }
  }

  lemma {:induction false} ClosedStepFreezes(s: State, n: State)
    requires s.sh.closed && s.sh.subscribers == [] && Next(s, n)
    ensures SameSession(s.sh, n.sh)
  {
    var e := StepOf(s, n);
    ClosedStaysPut(s, e.thread, e.action);
  }

  lemma {:induction false} FrozenOnward(x: Shared<SubId>, s: State, n: State)
    requires SameSession(x, s.sh) && Next(s, n)
    ensures SameSession(x, n.sh)
  {
    ClosedStepFreezes(s, n);
  }

  lemma {:induction false} ClosedHasNoList(ledger: Ledger, states: seq<State>, i: nat)
    requires Run(ledger, states) && i < |states| && states[i].sh.closed
    ensures states[i].sh.subscribers == []
  {
    RunKeepsInv(ledger, states, i);
  }

  /** Once the session is closed neither its cache nor its overlay nor its list of subscribers ever changes. */
  lemma {:induction false} ClosedIsFrozen(ledger: Ledger, states: seq<State>, i: nat, j: nat)
    requires Run(ledger, states) && i <= j < |states| && states[i].sh.closed
    ensures SameSession(states[i].sh, states[j].sh)
  {
    if i == j {
      ClosedHasNoList(ledger, states, i);
    } else {
      ClosedIsFrozen(ledger, states, i, j - 1);
      assert NextAt(states, j - 1);
      FrozenOnward(states[i].sh, states[j - 1], states[j]);
    }
  }
}
