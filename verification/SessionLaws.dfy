/**
 Where the concurrency of the session shows: the runs in which the cache goes stale, and
 coalesced callers or broadcasts part ways. And why every run can go on.
 */
module SessionLaws {
  import opened Prelude
  import opened Sessions
  import opened SessionSteps
  import opened SessionSafety

  // ------------------------------------------------------------------ runs, step by step

  lemma {:induction false} Extend(ledger: Ledger, states: seq<State>, s: State, t: Thread, a: Action) returns (more: seq<State>, n: State)
    requires Run(ledger, states) && s == states[|states| - 1] && Enabled(s, t, a)
    ensures Run(ledger, more) && more == states + [n] && n == Apply(s, t, a)
  {
    n := Apply(s, t, a);
    more := states + [n];
    assert Next(s, n);
    forall i | 0 <= i < |more| - 1 ensures NextAt(more, i) {
      if i < |states| - 1 {
        assert NextAt(states, i);
      }
    }
  }

  lemma {:induction false} ExtendByEntering(ledger: Ledger, states: seq<State>, s: State, t: Thread, force: bool, channel: Channel)
    returns (more: seq<State>, n: State)
    requires Run(ledger, states) && s == states[|states| - 1] && t !in s.threads && channel !in s.channels
    ensures Run(ledger, more) && more == states + [n] && n == ApplyEnter(s, t, force, channel)
  {
    more, n := Extend(ledger, states, s, t, Enter(force, channel));
  }

  lemma {:induction false} ExtendByPublishing(ledger: Ledger, states: seq<State>, s: State, t: Thread, p: Phase, outcome: Outcome)
    returns (more: seq<State>, n: State)
    requires Run(ledger, states) && s == states[|states| - 1] && t in s.threads && s.threads[t] == p && p.Loading?
    requires outcome.Loaded? ==> outcome.ledger.of == p.snap
    ensures Run(ledger, more) && more == states + [n] && n == ApplyPublish(s, t, p, outcome)
  {
    more, n := Extend(ledger, states, s, t, Publish(outcome));
  }

  lemma {:induction false} ExtendOwn(ledger: Ledger, states: seq<State>, s: State, t: Thread, p: Phase, a: Action)
    returns (more: seq<State>, n: State)
    requires Run(ledger, states) && s == states[|states| - 1] && t in s.threads && s.threads[t] == p && OwnReady(s, p, a)
    ensures Run(ledger, more) && more == states + [n] && n == ApplyOwn(s, t, p, a)
  {
    more, n := Extend(ledger, states, s, t, a);
  }

  lemma {:induction false} ExtendOnSub(ledger: Ledger, states: seq<State>, s: State, t: Thread, p: Phase, a: Action)
    returns (more: seq<State>, n: State)
    requires Run(ledger, states) && s == states[|states| - 1] && t in s.threads && s.threads[t] == p
    requires At(p, a) && FacesOne(s, p) && Free(s.subs[p.todo[0]], a)
    ensures Run(ledger, more) && more == states + [n] && n == ApplyOnSub(s, t, p, a)
  {
    more, n := Extend(ledger, states, s, t, a);
  }

  lemma {:induction false} ExtendOutside(ledger: Ledger, states: seq<State>, s: State, a: Action) returns (more: seq<State>, n: State)
    requires Run(ledger, states) && s == states[|states| - 1] && IsOutside(a) && OutsideReady(s, a)
    ensures Run(ledger, more) && more == states + [n] && n == ApplyOutside(s, a)
  {
    more, n := Extend(ledger, states, s, 0, a);
  }

  /** A write during a load is lost from the cache: it ends valid and without the write. */
  lemma {:induction false} WriteDuringLoadLeavesStaleCache()
    returns (ledger: Ledger, states: seq<State>)
    ensures Run(ledger, states)
    ensures var s := states[|states| - 1].sh; s.valid && s.cached.of != s.overlay
  {
    ledger := Ledger(map[], 0);
    states := [Init(ledger)];
    var s := Init(ledger);
    states, s := ExtendByEntering(ledger, states, s, 0, true, 0);
    states, s := ExtendOutside(ledger, states, s, Write("/a", "x"));
    states, s := ExtendByPublishing(ledger, states, s, 0, s.threads[0], Loaded(Ledger(map[], 1)));
    assert "/a" in s.sh.overlay;
  }

  /** One caller loads and one waits for it. */
  lemma {:induction false} TwoShareALoad() returns (ledger: Ledger, states: seq<State>, s: State)
    ensures Run(ledger, states) && |states| == 3 && s == states[2]
    ensures s == State(Shared(map[], ledger, true, false, [], true, 0, None), map[], map[0 := Some(0)],
                       map[0 := Loading(0, map[], 0), 1 := Waiting(0)], 0, 0, map[], None, None, map[])
  {
    ledger := Ledger(map[], 0);
    states := [Init(ledger)];
    s := Init(ledger);
    states, s := ExtendByEntering(ledger, states, s, 0, true, 0);
    states, s := ExtendByEntering(ledger, states, s, 1, true, 1);
  }

  /** The load fails and its channel is closed. */
  lemma {:induction false} OneWaitsForAFailedLoad() returns (ledger: Ledger, states: seq<State>, s: State)
    ensures Run(ledger, states) && |states| == 5 && s == states[4]
    ensures states[2].threads == map[0 := Loading(0, map[], 0), 1 := Waiting(0)]
    ensures !s.sh.closed && !s.sh.reloading && s.channels == map[0 := None]
    ensures s.threads == map[0 := Returned(Some(LoadFailed(1))), 1 := Waiting(0)]
  {
    ledger, states, s := TwoShareALoad();
    states, s := ExtendByPublishing(ledger, states, s, 0, s.threads[0], LoadFailed(1));
    states, s := ExtendOwn(ledger, states, s, 0, s.threads[0], CloseDone);
  }

  /** Two callers that share a load may return different outcomes: the one that waits reads that of a later load. */
  lemma {:induction false} CoalescedCallersMayDiffer() returns (ledger: Ledger, states: seq<State>)
    ensures Run(ledger, states) && |states| > 3
    ensures var shared := states[2].threads;
            0 in shared && 1 in shared && shared[0].Loading? && shared[1] == Waiting(shared[0].done)
    ensures var end := states[|states| - 1].threads;
            0 in end && 1 in end && end[0].Returned? && end[1].Returned? && end[0].result != end[1].result
  {
    var s;
    ledger, states, s := OneWaitsForAFailedLoad();
    states, s := ExtendByEntering(ledger, states, s, 2, true, 2);
    states, s := ExtendByPublishing(ledger, states, s, 2, s.threads[2], LoadFailed(2));
    states, s := ExtendOwn(ledger, states, s, 1, s.threads[1], Wake);
  }

  // ------------------------------------------------------------------ broadcasts

  /** A forced reload of an idle session, up to its broadcast. */
  lemma {:induction false} LoadToBroadcast(ledger: Ledger, states: seq<State>, s: State, t: Thread, channel: Channel, found: Ledger)
    returns (more: seq<State>, n: State)
    requires Run(ledger, states) && s == states[|states| - 1] && !s.sh.closed && !s.sh.reloading && found.of == s.sh.overlay
    requires t !in s.threads && channel !in s.channels
    ensures Run(ledger, more) && n == more[|more| - 1]
    ensures n.threads == s.threads[t := Sending(channel, found, s.sh.subscribers, s.sh.subscribers)] && n.subs == s.subs
    ensures channel in n.channels && forall d :: d in n.channels ==> d == channel || d in s.channels
    ensures n.sh == s.sh.(done := channel, last := Some(Loaded(found)), cached := found, valid := true)
  {
    more, n := ExtendByEntering(ledger, states, s, t, true, channel);
    more, n := ExtendByPublishing(ledger, more, n, t, n.threads[t], Loaded(found));
    more, n := ExtendOwn(ledger, more, n, t, n.threads[t], Snapshot);
  }

  /** A broadcast to one open subscription whose lock is free. */
  lemma {:induction false} BroadcastToOne(ledger: Ledger, states: seq<State>, s: State, t: Thread, x: SubId)
    returns (more: seq<State>, n: State)
    requires Run(ledger, states) && s == states[|states| - 1] && x in s.subs && s.subs[x].holder.None? && !s.subs[x].closed
    requires t in s.threads && s.threads[t].Sending? && s.threads[t].todo == [x]
    ensures Run(ledger, more) && n == more[|more| - 1]
    ensures var p := s.threads[t];
            && n.threads == s.threads[t := Finishing(p.done, Loaded(p.ledger), p.subs)] && n.sh == s.sh
            && n.subs == s.subs[x := s.subs[x].(buffer := Some(p.ledger), offered := s.subs[x].offered + {p.done}, given := Some(Gift(p.done, p.ledger)))]
  {
    more, n := ExtendOnSub(ledger, states, s, t, s.threads[t], LockToSend);
    more, n := ExtendOnSub(ledger, more, n, t, n.threads[t], Drain);
    more, n := ExtendOnSub(ledger, more, n, t, n.threads[t], Put);
    more, n := ExtendOwn(ledger, more, n, t, n.threads[t], EndBroadcast);
  }

  /** The broadcast of an earlier reload may overtake: a subscriber ends with an older ledger than the cache. */
  lemma {:induction false} BroadcastsMayBeReordered() returns (ledger: Ledger, states: seq<State>)
    ensures Run(ledger, states)
    ensures var s := states[|states| - 1];
            && (forall t :: t in s.threads ==> s.threads[t].Finishing?)
            && s.sh.subscribers == [0] && 0 in s.subs && s.subs[0].open
            && s.subs[0].buffer.Some? && s.sh.cached != s.subs[0].buffer.value
  {
    ledger := Ledger(map[], 0);
    states := [Init(ledger)];
    var s := Init(ledger);
    states, s := ExtendOutside(ledger, states, s, Subscribe(0));
    states, s := LoadToBroadcast(ledger, states, s, 0, 0, Ledger(map[], 1));
    states, s := LoadToBroadcast(ledger, states, s, 1, 1, Ledger(map[], 2));
    states, s := BroadcastToOne(ledger, states, s, 1, 0);
    states, s := BroadcastToOne(ledger, states, s, 0, 0);
  }

  // ------------------------------------------------------------------ progress

  predicate Ended(p: Phase) {
    p.Refused? || p.Returned? || p.GaveUp? || p.Over?
  }

  /** A step by which a thread that has begun goes on without being cancelled. */
  predicate GoesOn(a: Action) {
    !(a.Write? || a.Clear? || a.Enter? || a.Subscribe? || a.Cancel? || a.CloseSession? || a.Receive? || a.GiveUp?)
  }

  lemma {:induction false} HolderCanStep(s: State, x: SubId) returns (u: Thread, a: Action)
    requires Inv(s) && x in s.subs && s.subs[x].holder.Some?
    ensures GoesOn(a) && Enabled(s, u, a)
  {
    assert SubOk(s.threads, x, s.subs[x]);
    u := s.subs[x].holder.value;
    assert PhaseOk(s.sh.subscribers, s.subs, u, s.threads[u]);
    a := if s.threads[u].Draining? then Drain else if s.threads[u].Putting? then Put else Shut;
  }

  lemma {:induction false} CloserCanStep(s: State, t: Thread) returns (u: Thread, a: Action)
    requires Inv(s) && t in s.threads && Closes(s.threads[t])
    ensures GoesOn(a) && Enabled(s, u, a)
  {
    var p := s.threads[t];
    assert PhaseOk(s.sh.subscribers, s.subs, t, p);
    u := t;
    if p.Shutting? {
      a := Shut;
    } else if p.Entering? {
      if s.subs[p.todo[0]].holder.Some? {
        u, a := HolderCanStep(s, p.todo[0]);
      } else {
        a := LockToClose;
      }
    } else if p.todo == [] {
      a := EndClosing;
    } else if s.subs[p.todo[0]].once.Busy? {
      assert SubOk(s.threads, p.todo[0], s.subs[p.todo[0]]);
      u, a := BusyCanStep(s, p.todo[0]);
    } else {
      a := EnterOnce;
    }
  }

  lemma {:induction false} BusyCanStep(s: State, x: SubId) returns (u: Thread, a: Action)
    requires Inv(s) && x in s.subs && s.subs[x].once.Busy?
    ensures GoesOn(a) && Enabled(s, u, a)
  {
    assert SubOk(s.threads, x, s.subs[x]);
    u := s.subs[x].once.closer;
    assert PhaseOk(s.sh.subscribers, s.subs, u, s.threads[u]);
    if s.threads[u].Shutting? {
      a := Shut;
    } else if s.subs[x].holder.Some? {
      u, a := HolderCanStep(s, x);
    } else {
      a := LockToClose;
    }
  }

  lemma {:induction false} LoaderCanStep(s: State, t: Thread) returns (u: Thread, a: Action)
    requires Inv(s) && t in s.threads && Loads(s.threads[t])
    ensures GoesOn(a) && Enabled(s, u, a)
  {
    var p := s.threads[t];
    assert PhaseOk(s.sh.subscribers, s.subs, t, p);
    u := t;
    if p.Sending? && p.todo != [] && s.subs[p.todo[0]].holder.Some? {
      u, a := HolderCanStep(s, p.todo[0]);
    } else {
      a := if p.Loading? then Publish(LoadFailed(0))
           else if p.Publishing? then Snapshot
           else if p.Draining? then Drain
           else if p.Putting? then Put
           else if p.Finishing? then CloseDone
           else if p.todo == [] then EndBroadcast
           else LockToSend;
    }
  }

  lemma {:induction false} SomeoneCanStep(s: State, t: Thread) returns (u: Thread, a: Action)
    requires Inv(s) && t in s.threads && !Ended(s.threads[t])
    ensures GoesOn(a) && Enabled(s, u, a)
  {
    var p := s.threads[t];
    assert LoadOk(s.sh, s.channels, t, p);
    if p.Waiting? {
      assert ChannelOk(s.sh, s.threads, p.done, s.channels[p.done]);
      if s.channels[p.done].None? {
        u, a := t, Wake;
      } else {
        u, a := LoaderCanStep(s, s.channels[p.done].value);
      }
    } else if Loads(p) {
      u, a := LoaderCanStep(s, t);
    } else {
      u, a := CloserCanStep(s, t);
    }
  }

  /** In every state of every run: as long as some thread has not ended, some thread can step, even if nobody gives up. */
  lemma {:induction false} NoDeadlock(ledger: Ledger, states: seq<State>, i: nat, t: Thread) returns (u: Thread, a: Action)
    requires Run(ledger, states) && i < |states| && t in states[i].threads && !Ended(states[i].threads[t])
    ensures GoesOn(a) && Enabled(states[i], u, a)
  {
    RunKeepsInv(ledger, states, i);
    u, a := SomeoneCanStep(states[i], t);
  }

  // ------------------------------------------------------------------ termination

  /** At most how many steps the thread has before it when `n` subscriptions are listed. */
  function Ahead(n: nat, p: Phase): nat {
    match p
    case Loading(_, _, _) => 3 * n + 6
    case Publishing(_, _) => 3 * n + 5
    case Sending(_, _, _, todo) => 3 * |todo| + 4
    case Draining(_, _, _, todo) => 3 * |todo| + 3
    case Putting(_, _, _, todo) => 3 * |todo| + 2
    case Closing(todo) => 3 * |todo| + 3
    case Entering(todo) => 3 * |todo| + 2
    case Shutting(todo) => 3 * |todo| + 1
    case Finishing(_, _, _) => 1
    case Waiting(_) => 1
    case _ => 0
  }

  /** The step of thread `t` from `s` to `n` takes it nearer to its end and moves nobody else. */
  ghost predicate GoesNearer(s: State, n: State, t: Thread) {
    && t in s.threads && t in n.threads && n.threads == s.threads[t := n.threads[t]]
    && n.sh.subscribers == s.sh.subscribers
    && Ahead(|s.sh.subscribers|, n.threads[t]) < Ahead(|s.sh.subscribers|, s.threads[t])
  }

  lemma {:induction false} OnSubGoesNearer(s: State, t: Thread, p: Phase, a: Action)
    requires t in s.threads && s.threads[t] == p && At(p, a) && FacesOne(s, p)
    ensures GoesNearer(s, ApplyOnSub(s, t, p, a), t)
  {
  }

  lemma {:induction false} OwnGoesNearer(s: State, t: Thread, p: Phase, a: Action)
    requires t in s.threads && s.threads[t] == p && OwnReady(s, p, a)
    ensures GoesNearer(s, ApplyOwn(s, t, p, a), t)
  {
  }

  /** Every step of a thread brings that thread nearer to its end, and moves no other. */
  lemma {:induction false} StepsComeToAnEnd(s: State, t: Thread, a: Action)
    requires Enabled(s, t, a) && GoesOn(a)
    ensures GoesNearer(s, Apply(s, t, a), t)
  {
    if IsSend(a) || IsClose(a) {
      OnSubGoesNearer(s, t, s.threads[t], a);
    } else if IsOwn(a) {
      OwnGoesNearer(s, t, s.threads[t], a);
    } else {
      assert GoesNearer(s, ApplyPublish(s, t, s.threads[t], a.outcome), t);
    }
  }

  /** At most how many steps the threads `ts` have before them. */
  ghost function AllAhead(n: nat, threads: map<Thread, Phase>, ts: set<Thread>): nat
    requires ts <= threads.Keys
  {
    if ts == {} then 0
    else
      var t :| t in ts;
      Ahead(n, threads[t]) + AllAhead(n, threads, ts - {t})
  }

  lemma {:induction false} AllAheadWithout(n: nat, threads: map<Thread, Phase>, ts: set<Thread>, t: Thread)
    requires ts <= threads.Keys && t in ts
    ensures AllAhead(n, threads, ts) == Ahead(n, threads[t]) + AllAhead(n, threads, ts - {t})
  {
    var u :| u in ts && AllAhead(n, threads, ts) == Ahead(n, threads[u]) + AllAhead(n, threads, ts - {u});
    if u != t {
      AllAheadWithout(n, threads, ts - {u}, t);
      AllAheadWithout(n, threads, ts - {t}, u);
      assert ts - {u} - {t} == ts - {t} - {u};
    }
  }

  lemma {:induction false} AllAheadSame(n: nat, threads: map<Thread, Phase>, threads': map<Thread, Phase>, ts: set<Thread>)
    requires ts <= threads.Keys && ts <= threads'.Keys && forall t :: t in ts ==> threads[t] == threads'[t]
    ensures AllAhead(n, threads, ts) == AllAhead(n, threads', ts)
  {
    if ts != {} {
      var t :| t in ts;
      AllAheadWithout(n, threads, ts, t);
      AllAheadWithout(n, threads', ts, t);
      AllAheadSame(n, threads, threads', ts - {t});
    }
  }

  /** At most how many steps lie ahead when nobody comes from outside. */
  ghost function Remaining(s: State): nat {
    AllAhead(|s.sh.subscribers|, s.threads, s.threads.Keys)
  }

  lemma {:induction false} NearerIsLess(s: State, n: State, t: Thread)
    requires GoesNearer(s, n, t)
    ensures Remaining(n) < Remaining(s)
  {
    var k, ts := |s.sh.subscribers|, s.threads.Keys;
    assert n.threads.Keys == ts;
    AllAheadWithout(k, s.threads, ts, t);
    AllAheadWithout(k, n.threads, ts, t);
    AllAheadSame(k, s.threads, n.threads, ts - {t});
  }

  ghost predicate GoingAt(states: seq<State>, i: nat)
    requires i + 1 < |states|
  {
    exists t, a :: GoesOn(a) && Enabled(states[i], t, a) && states[i + 1] == Apply(states[i], t, a)
  }

  lemma {:induction false} GoingIsLess(states: seq<State>, i: nat)
    requires i + 1 < |states| && GoingAt(states, i)
    ensures Remaining(states[i + 1]) < Remaining(states[i])
  {
    var t, a :| GoesOn(a) && Enabled(states[i], t, a) && states[i + 1] == Apply(states[i], t, a);
    StepsComeToAnEnd(states[i], t, a);
    NearerIsLess(states[i], states[i + 1], t);
  }

  ghost predicate CanGoOn(s: State) {
    exists t, a :: GoesOn(a) && Enabled(s, t, a)
  }

  predicate AllEnded(s: State) {
    forall t :: t in s.threads ==> Ended(s.threads[t])
  }

  /**
   Every continuation ends, and ends well: from state `i` of a run on, as long as nobody
   comes from outside or gives up, only so many steps can follow, however they interleave;
   and when none can follow, exactly then all threads have ended.
   */
  lemma {:induction false} EveryContinuationEnds(ledger: Ledger, states: seq<State>, i: nat)
    requires Run(ledger, states) && i < |states| && forall k :: i <= k < |states| - 1 ==> GoingAt(states, k)
    ensures |states| - 1 - i + Remaining(states[|states| - 1]) <= Remaining(states[i])
    ensures AllEnded(states[|states| - 1]) <==> !CanGoOn(states[|states| - 1])
    decreases |states| - i
  {
    if i + 1 < |states| {
      assert GoingAt(states, i);
      GoingIsLess(states, i);
      EveryContinuationEnds(ledger, states, i + 1);
    } else {
      var s := states[i];
      if t :| t in s.threads && !Ended(s.threads[t]) {
        var u, a := NoDeadlock(ledger, states, i, t);
      }
      if t, a :| GoesOn(a) && Enabled(s, t, a) {
        EndedIsStill(s, t, a);
      }
    }
  }

  lemma {:induction false} EndedIsStill(s: State, t: Thread, a: Action)
    requires GoesOn(a) && Enabled(s, t, a)
    ensures t in s.threads && !Ended(s.threads[t])
  {
    StepsComeToAnEnd(s, t, a);
  }
}
