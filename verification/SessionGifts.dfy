/**
 Whether a subscriber holds the ledger of the cache: exactly when the reload that gave
 it its last ledger published what the cache was filled with, and always when
 broadcasts do not overlap.
 */
module SessionGifts {
  import opened Prelude
  import opened Sessions
  import opened SessionSteps
  import opened SessionSafety
  import opened SessionOutcomes

  /** The subscription is closed, or was given a ledger by reload `d`; `last` asks that it was the last one given. */
  predicate Served(last: bool, sub: Sub, d: Channel) {
    sub.closed || if last then sub.given.Some? && sub.given.value.reload == d else d in sub.offered
  }

  /** The broadcast of reload `d` still has to come to subscription `x`. */
  predicate Pending(s: State, d: Channel, x: SubId) {
    && d in s.channels && s.channels[d].Some? && s.channels[d].value in s.threads
    && var p := s.threads[s.channels[d].value];
       Sends(p) && p.done == d && x in p.todo
  }

  /** The reload has published and not yet begun its broadcast. */
  predicate AboutToCast(s: State, d: Channel) {
    && d in s.channels && s.channels[d].Some? && s.channels[d].value in s.threads
    && var p := s.threads[s.channels[d].value];
       p.Publishing? && p.done == d
  }

  ghost predicate Heard(s: State, last: bool, d: Channel)
    requires d in s.audience
  {
    forall x :: x in s.audience[d] ==> x in s.subs && (Served(last, s.subs[x], d) || Pending(s, d, x))
  }

  /** The reload that filled the cache has been, or is being, broadcast to those listed when its broadcast began. */
  ghost predicate CastInv(s: State, last: bool) {
    && (forall d :: d in s.audience ==> d in s.outcomes)
    && (s.filled.Some? ==>
         var d := s.filled.value;
         if d in s.audience then Heard(s, last, d) else AboutToCast(s, d))
  }

  /** Steps that leave the audience and the cache alone. */
  lemma {:induction false} CastInvMove(s: State, n: State, last: bool)
    requires CastInv(s, last) && n.filled == s.filled && n.audience == s.audience && n.outcomes == s.outcomes
    requires s.filled.Some? ==>
               var d := s.filled.value;
               && (AboutToCast(s, d) ==> AboutToCast(n, d))
               && (forall x :: x in s.subs ==> x in n.subs && (Served(last, s.subs[x], d) ==> Served(last, n.subs[x], d)))
               && (forall x :: x in s.subs && Pending(s, d, x) ==> Pending(n, d, x) || Served(last, n.subs[x], d))
    ensures CastInv(n, last)
  {
    if s.filled.Some? && s.filled.value in s.audience {
      var d := s.filled.value;
      forall x | x in n.audience[d] ensures x in n.subs && (Served(last, n.subs[x], d) || Pending(n, d, x)) {
        assert x in s.subs && (Served(last, s.subs[x], d) || Pending(s, d, x));
      }
    }
  }

  lemma {:induction false} CastInvEnter(s: State, t: Thread, last: bool, force: bool, channel: Channel)
    requires CastInv(s, last) && OutcomeInv(s) && t !in s.threads && channel !in s.channels
    ensures CastInv(ApplyEnter(s, t, force, channel), last)
  {
    var n := ApplyEnter(s, t, force, channel);
    CastInvMove(s, n, last);
  }

  lemma {:induction false} CastInvPublish(s: State, t: Thread, last: bool, outcome: Outcome)
    requires CastInv(s, last) && LoadInv(s) && OutcomeInv(s) && Enabled(s, t, Publish(outcome))
    ensures CastInv(ApplyPublish(s, t, s.threads[t], outcome), last)
  {
    var n := ApplyPublish(s, t, s.threads[t], outcome);
    assert LoadOk(s.sh, s.channels, t, s.threads[t]) && CarriesOutcome(s.outcomes, s.threads[t]);
    if outcome.Loaded? && !s.sh.closed {
      assert AboutToCast(n, n.filled.value);
    } else if s.filled.Some? && s.filled.value in s.audience {
      var d := s.filled.value;
      forall x | x in n.audience[d] ensures x in n.subs && (Served(last, n.subs[x], d) || Pending(n, d, x)) {
        assert x in s.subs && (Served(last, s.subs[x], d) || Pending(s, d, x));
      }
    }
  }

  lemma {:induction false} CastInvSnapshot(s: State, t: Thread, last: bool)
    requires CastInv(s, last) && LoadInv(s) && SubInv(s) && OutcomeInv(s) && Enabled(s, t, Snapshot)
    ensures CastInv(ApplyOwn(s, t, s.threads[t], Snapshot), last)
  {
    var n, p := ApplyOwn(s, t, s.threads[t], Snapshot), s.threads[t];
    assert LoadOk(s.sh, s.channels, t, p) && CarriesOutcome(s.outcomes, p);
    if s.filled.Some? {
      var d := s.filled.value;
      if d == p.done {
        forall x | x in n.audience[d] ensures x in n.subs && Pending(n, d, x) {
        }
      } else if d in s.audience {
        forall x | x in n.audience[d] ensures x in n.subs && (Served(last, n.subs[x], d) || Pending(n, d, x)) {
          assert x in s.subs && (Served(last, s.subs[x], d) || Pending(s, d, x));
        }
      }
    }
  }

  lemma {:induction false} CastInvOnSub(s: State, t: Thread, last: bool, p: Phase, a: Action)
    requires CastInv(s, last) && LoadInv(s) && t in s.threads && s.threads[t] == p && At(p, a) && FacesOne(s, p)
    requires last && a.Put? ==> s.filled == Some(p.done)
    ensures CastInv(ApplyOnSub(s, t, p, a), last)
  {
    assert LoadOk(s.sh, s.channels, t, p);
    PhaseKeepsCast(p, s.subs[p.todo[0]], a);
    SubIsGiven(t, p, s.subs[p.todo[0]], a);
    if s.filled.Some? {
      PendingOnSub(s, t, last, p, a, s.filled.value);
    }
    CastInvMove(s, ApplyOnSub(s, t, p, a), last);
  }

  /** What the broadcast of `d` still has to come to it comes to, or it has served it. */
  lemma {:induction false} PendingOnSub(s: State, t: Thread, last: bool, p: Phase, a: Action, d: Channel)
    requires LoadOk(s.sh, s.channels, t, p) && t in s.threads && s.threads[t] == p && At(p, a) && FacesOne(s, p)
    requires KeepsCast(p, PhaseAfter(p, s.subs[p.todo[0]], a))
    requires GivesRightly(p, s.subs[p.todo[0]], SubAfter(t, p, s.subs[p.todo[0]], a), a)
    requires var q := PhaseAfter(p, s.subs[p.todo[0]], a);
             q.todo == p.todo || (q.todo == p.todo[1..] && (IsSend(a) ==> a.Put? || s.subs[p.todo[0]].closed))
    requires last && a.Put? ==> d == p.done
    ensures var n := ApplyOnSub(s, t, p, a);
            && (AboutToCast(s, d) ==> AboutToCast(n, d))
            && (forall x :: x in s.subs ==> x in n.subs && (Served(last, s.subs[x], d) ==> Served(last, n.subs[x], d)))
            && (forall x :: x in s.subs && Pending(s, d, x) ==> Pending(n, d, x) || Served(last, n.subs[x], d))
  {
  }

  lemma {:induction false} CastInvOwn(s: State, t: Thread, last: bool, p: Phase, a: Action)
    requires CastInv(s, last) && LoadInv(s) && t in s.threads && s.threads[t] == p && OwnReady(s, p, a) && !a.Snapshot?
    ensures CastInv(ApplyOwn(s, t, p, a), last)
  {
    assert LoadOk(s.sh, s.channels, t, p);
    CastInvMove(s, ApplyOwn(s, t, p, a), last);
  }

  lemma {:induction false} CastInvOwnStep(s: State, t: Thread, last: bool, p: Phase, a: Action)
    requires CastInv(s, last) && Inv(s) && OutcomeInv(s) && t in s.threads && s.threads[t] == p && OwnReady(s, p, a)
    ensures CastInv(ApplyOwn(s, t, p, a), last)
  {
    if a.Snapshot? {
      CastInvSnapshot(s, t, last);
    } else {
      CastInvOwn(s, t, last, p, a);
    }
  }

  lemma {:induction false} CastInvUnlist(s: State, t: Thread, last: bool, a: Action)
    requires CastInv(s, last) && t !in s.threads && IsUnlist(a)
    ensures CastInv(ApplyUnlist(s, t, a), last)
  {
    CastInvMove(s, ApplyUnlist(s, t, a), last);
  }

  lemma {:induction false} CastInvOutside(s: State, t: Thread, last: bool, a: Action)
    requires CastInv(s, last) && Enabled(s, t, a) && IsOutside(a)
    ensures CastInv(ApplyOutside(s, a), last)
  {
    CastInvMove(s, ApplyOutside(s, a), last);
  }

  lemma {:induction false} CastInvStep(s: State, t: Thread, last: bool, a: Action)
    requires CastInv(s, last) && Inv(s) && OutcomeInv(s) && Enabled(s, t, a)
    requires last && a.Put? ==> s.filled == Some(s.threads[t].done)
    ensures CastInv(Apply(s, t, a), last)
  {
    if IsSend(a) || IsClose(a) {
      CastInvOnSub(s, t, last, s.threads[t], a);
    } else if IsOwn(a) {
      CastInvOwnStep(s, t, last, s.threads[t], a);
    } else {
      CastInvOther(s, t, last, a);
    }
  }

  lemma {:induction false} CastInvOther(s: State, t: Thread, last: bool, a: Action)
    requires CastInv(s, last) && Inv(s) && OutcomeInv(s) && Enabled(s, t, a) && !(IsSend(a) || IsClose(a) || IsOwn(a))
    ensures CastInv(Apply(s, t, a), last)
  {
    if IsOutside(a) {
      CastInvOutside(s, t, last, a);
    } else if IsUnlist(a) {
      CastInvUnlist(s, t, last, a);
    } else if a.Enter? {
      CastInvEnter(s, t, last, a.force, a.channel);
    } else {
      CastInvPublish(s, t, last, a.outcome);
    }
  }

  lemma {:induction false} RunKeepsCasts(ledger: Ledger, states: seq<State>, i: nat)
    requires Run(ledger, states) && i < |states|
    ensures CastInv(states[i], false)
  {
    if i > 0 {
      RunKeepsCasts(ledger, states, i - 1);
      RunKeepsInv(ledger, states, i - 1);
      RunKeepsOutcomes(ledger, states, i - 1);
      assert NextAt(states, i - 1);
      CastInvNext(states[i - 1], states[i]);
    }
  }

  lemma {:induction false} CastInvNext(s: State, n: State)
    requires CastInv(s, false) && Inv(s) && OutcomeInv(s) && Next(s, n)
    ensures CastInv(n, false)
  {
    var e := StepOf(s, n);
    CastInvStep(s, e.thread, false, e.action);
  }

  /** No broadcast is outstanding or under way. */
  ghost predicate AtRest(s: State) {
    forall t :: t in s.threads ==> !Casts(s.threads[t])
  }

  /** No two loads ever gave the same ledger. */
  ghost predicate DifferentLedgers(outcomes: map<Channel, Outcome>) {
    forall d, e :: d in outcomes && e in outcomes && d != e && outcomes[d].Loaded? ==> outcomes[d] != outcomes[e]
  }

  /**
   When nothing is being broadcast, an open subscription that was listed when the reload
   that filled the cache began its broadcast has been given a ledger. The last one it was
   given is that of the cache exactly when the reload that gave it published what filled
   the cache, and so, as long as no two loads give the same ledger, exactly when it was
   that very reload.
   */
  lemma {:induction false} SubscriberHoldsNewestIff(ledger: Ledger, states: seq<State>, i: nat, x: SubId)
    requires Run(ledger, states) && i < |states| && AtRest(states[i])
    requires states[i].filled.Some? && states[i].filled.value in states[i].audience
    requires x in states[i].audience[states[i].filled.value] && x in states[i].subs && !states[i].subs[x].closed
    ensures var s, d := states[i], states[i].filled.value;
            var given := s.subs[x].given;
            && given.Some? && given.value.reload in s.outcomes && d in s.outcomes
            && (given.value.ledger == s.sh.cached <==> s.outcomes[given.value.reload] == s.outcomes[d])
            && (DifferentLedgers(s.outcomes) ==> (given.value.ledger == s.sh.cached <==> given.value.reload == d))
            && (s.subs[x].buffer.Some? ==> s.subs[x].buffer == Some(given.value.ledger))
  {
    RunKeepsCasts(ledger, states, i);
    RunKeepsOutcomes(ledger, states, i);
    var s, d := states[i], states[i].filled.value;
    assert !AboutToCast(s, d) && !Pending(s, d, x);
    assert GiftOk(s.outcomes, s.subs[x]) && Served(false, s.subs[x], d);
  }

  /** Once nothing is being broadcast, the reload that filled the cache has begun its broadcast. */
  lemma {:induction false} NewestWasBroadcast(ledger: Ledger, states: seq<State>, i: nat)
    requires Run(ledger, states) && i < |states| && AtRest(states[i]) && states[i].filled.Some?
    ensures states[i].filled.value in states[i].audience
  {
    RunKeepsCasts(ledger, states, i);
    assert !AboutToCast(states[i], states[i].filled.value);
  }

  // ------------------------------------------------------------------ broadcasts that do not overlap

  /** At most one reload is being handed out. */
  ghost predicate OneCasts(s: State) {
    forall t, u :: t in s.threads && u in s.threads && Casts(s.threads[t]) && Casts(s.threads[u]) ==> t == u
  }

  /** What is handed out is what filled the cache, or there is nobody to hand it to. */
  predicate CastsNewest(s: State, p: Phase) {
    Casts(p) ==>
      || s.filled == Some(p.done)
      || (p.Publishing? && s.sh.closed)
      || (Sends(p) && p.subs == [] && p.todo == [])
  }

  ghost predicate NewestInv(s: State) {
    forall t :: t in s.threads ==> CastsNewest(s, s.threads[t])
  }

  /** A thread's step keeps to what it hands out. */
  lemma {:induction false} NewestInvMove(s: State, n: State, t: Thread)
    requires NewestInv(s) && n.filled == s.filled && (s.sh.closed ==> n.sh.closed)
    requires n.threads == s.threads || (t in n.threads && n.threads == s.threads[t := n.threads[t]] && CastsNewest(n, n.threads[t]))
    ensures NewestInv(n)
  {
    forall u | u in n.threads ensures CastsNewest(n, n.threads[u]) {
      if u in s.threads && n.threads[u] == s.threads[u] {
        assert CastsNewest(s, s.threads[u]);
      }
    }
  }

  lemma {:induction false} NewestInvPublish(s: State, t: Thread, outcome: Outcome)
    requires NewestInv(s) && Enabled(s, t, Publish(outcome)) && OneCasts(ApplyPublish(s, t, s.threads[t], outcome))
    ensures NewestInv(ApplyPublish(s, t, s.threads[t], outcome))
  {
    var n := ApplyPublish(s, t, s.threads[t], outcome);
    forall u | u in n.threads ensures CastsNewest(n, n.threads[u]) {
      if u != t {
        assert CastsNewest(s, s.threads[u]);
        if outcome.Loaded? {
          assert Casts(n.threads[t]);
        }
      }
    }
  }

  lemma {:induction false} NewestInvOnSub(s: State, t: Thread, p: Phase, a: Action)
    requires NewestInv(s) && t in s.threads && s.threads[t] == p && At(p, a) && FacesOne(s, p)
    ensures NewestInv(ApplyOnSub(s, t, p, a))
  {
    assert CastsNewest(s, p);
    PhaseKeepsCast(p, s.subs[p.todo[0]], a);
    NewestInvMove(s, ApplyOnSub(s, t, p, a), t);
  }

  lemma {:induction false} NewestInvOwn(s: State, t: Thread, p: Phase, a: Action)
    requires NewestInv(s) && SubInv(s) && t in s.threads && s.threads[t] == p && OwnReady(s, p, a)
    ensures NewestInv(ApplyOwn(s, t, p, a))
  {
    assert CastsNewest(s, p);
    NewestInvMove(s, ApplyOwn(s, t, p, a), t);
  }

  lemma {:induction false} NewestInvEnter(s: State, t: Thread, force: bool, channel: Channel)
    requires NewestInv(s) && t !in s.threads
    ensures NewestInv(ApplyEnter(s, t, force, channel))
  {
    EnterChanges(s, t, force, channel);
    NewestInvMove(s, ApplyEnter(s, t, force, channel), t);
  }

  lemma {:induction false} NewestInvUnlist(s: State, t: Thread, a: Action)
    requires NewestInv(s) && IsUnlist(a)
    ensures NewestInv(ApplyUnlist(s, t, a))
  {
    NewestInvMove(s, ApplyUnlist(s, t, a), t);
  }

  lemma {:induction false} NewestInvOutside(s: State, t: Thread, a: Action)
    requires NewestInv(s) && Enabled(s, t, a) && IsOutside(a)
    ensures NewestInv(ApplyOutside(s, a))
  {
    NewestInvMove(s, ApplyOutside(s, a), t);
  }

  lemma {:induction false} NewestInvStep(s: State, t: Thread, a: Action)
    requires NewestInv(s) && SubInv(s) && Enabled(s, t, a) && OneCasts(Apply(s, t, a))
    ensures NewestInv(Apply(s, t, a))
  {
    if IsSend(a) || IsClose(a) {
      NewestInvOnSub(s, t, s.threads[t], a);
    } else if IsOwn(a) {
      NewestInvOwn(s, t, s.threads[t], a);
    } else if IsOutside(a) {
      NewestInvOutside(s, t, a);
    } else if IsUnlist(a) {
      NewestInvUnlist(s, t, a);
    } else if a.Enter? {
      NewestInvEnter(s, t, a.force, a.channel);
    } else {
      NewestInvPublish(s, t, a.outcome);
    }
  }

  lemma {:induction false} SerialStep(s: State, n: State)
    requires NewestInv(s) && CastInv(s, true) && Inv(s) && OutcomeInv(s) && Next(s, n) && OneCasts(n)
    ensures NewestInv(n) && CastInv(n, true)
  {
    var e := StepOf(s, n);
    NewestInvStep(s, e.thread, e.action);
    if e.action.Put? {
      assert CastsNewest(s, s.threads[e.thread]);
    }
    CastInvStep(s, e.thread, true, e.action);
  }

  lemma {:induction false} InitIsSerial(ledger: Ledger)
    ensures NewestInv(Init(ledger)) && CastInv(Init(ledger), true)
  {
  }

  lemma {:induction false} RunKeepsNewest(ledger: Ledger, states: seq<State>, i: nat)
    requires Run(ledger, states) && i < |states| && forall m :: 0 <= m <= i ==> OneCasts(states[m])
    ensures NewestInv(states[i]) && CastInv(states[i], true)
  {
    if i == 0 {
      InitIsSerial(ledger);
    } else {
      RunKeepsNewest(ledger, states, i - 1);
      RunKeepsInv(ledger, states, i - 1);
      RunKeepsOutcomes(ledger, states, i - 1);
      assert NextAt(states, i - 1);
      SerialStep(states[i - 1], states[i]);
    }
  }

  /**
   As long as broadcasts do not overlap, an open subscription that was listed when the
   reload that filled the cache began its broadcast was last given the ledger of the
   cache, once nothing is being broadcast.
   */
  lemma {:induction false} SerialBroadcastsDeliverNewest(ledger: Ledger, states: seq<State>, i: nat, x: SubId)
    requires Run(ledger, states) && i < |states| && (forall m :: 0 <= m <= i ==> OneCasts(states[m]))
    requires AtRest(states[i]) && states[i].filled.Some? && states[i].filled.value in states[i].audience
    requires x in states[i].audience[states[i].filled.value] && x in states[i].subs && !states[i].subs[x].closed
    ensures states[i].subs[x].given == Some(Gift(states[i].filled.value, states[i].sh.cached))
  {
    RunKeepsNewest(ledger, states, i);
    RunKeepsOutcomes(ledger, states, i);
    var s, d := states[i], states[i].filled.value;
    assert !Pending(s, d, x);
    assert GiftOk(s.outcomes, s.subs[x]) && Served(true, s.subs[x], d);
  }
}
