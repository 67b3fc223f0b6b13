/**
 The session under concurrency: every critical section, channel operation and lock
 operation is one step of one thread, and the steps of the threads interleave freely.
 */
module SessionSteps {
  import opened Prelude
  import opened Sessions

  type Thread = nat

  type SubId = nat

  /** Who runs the close of a subscription, or that it has run. */
  datatype Once = NotYet | Busy(closer: Thread) | Finished

  /** The ledger of a reload put into a subscription's channel. */
  datatype Gift = Gift(reload: Channel, ledger: Ledger)

  /**
   A subscription: its channel of capacity one, its lock and its once-only close.
   `offered` collects the reloads whose ledger was put into the channel, `given` is the
   last such gift.
   */
  datatype Sub = Sub(buffer: Option<Ledger>, open: bool, closed: bool, holder: Option<Thread>, once: Once,
                     offered: set<Channel>, given: Option<Gift>)

  /**
   Where a thread is. A reload waits for another one, loads, has published, sends to the
   subscriptions in `todo` (lock, drain, put) and finally closes its channel; a cancel
   and the close of the session close the subscriptions in `todo`.
   */
  datatype Phase =
    | Waiting(done: Channel)
    | Loading(done: Channel, snap: Overlay, at: nat)
    | Publishing(done: Channel, ledger: Ledger)
    | Sending(done: Channel, ledger: Ledger, subs: seq<SubId>, todo: seq<SubId>)
    | Draining(done: Channel, ledger: Ledger, subs: seq<SubId>, todo: seq<SubId>)
    | Putting(done: Channel, ledger: Ledger, subs: seq<SubId>, todo: seq<SubId>)
    | Finishing(done: Channel, outcome: Outcome, subs: seq<SubId>)
    | Closing(todo: seq<SubId>)
    | Entering(todo: seq<SubId>)
    | Shutting(todo: seq<SubId>)
    | Refused
    | Returned(result: Option<Outcome>)
    | GaveUp
    | Over

  /**
   `channels` maps a reload's channel to the thread that is going to close it, or to
   nothing once it is closed. `writes` counts the changes of the overlay, `stamp` is its
   value at the snapshot the cache was loaded from. `outcomes` records what each reload
   published, `latest` the one that published last, `filled` the one that filled the cache
   last, and `audience` the subscriptions listed when each broadcast began.
   */
  datatype State = State(
    sh: Shared<SubId>,
    subs: map<SubId, Sub>,
    channels: map<Channel, Option<Thread>>,
    threads: map<Thread, Phase>,
    writes: nat,
    stamp: nat,
    outcomes: map<Channel, Outcome>,
    latest: Option<Channel>,
    filled: Option<Channel>,
    audience: map<Channel, seq<SubId>>)

  datatype Action =
    | Write(path: string, content: string)
    | Clear(path: string)
    | Enter(force: bool, channel: Channel)
    | GiveUp
    | Wake
    | Publish(outcome: Outcome)
    | Snapshot
    | LockToSend
    | Drain
    | Put
    | EndBroadcast
    | CloseDone
    | Subscribe(sub: SubId)
    | Cancel(sub: SubId)
    | CloseSession
    | EnterOnce
    | LockToClose
    | Shut
    | EndClosing
    | Receive(sub: SubId)

  function Init(ledger: Ledger): State {
    State(Shared(map[], ledger, true, false, [], false, 0, None), map[], map[], map[], 0, 0,
          map[], None, None, map[])
  }

  predicate HasTodo(p: Phase) {
    p.Sending? || p.Draining? || p.Putting? || p.Closing? || p.Entering? || p.Shutting?
  }

  /** The thread deals with subscription `x` next. */
  predicate Faces(p: Phase, x: SubId) {
    HasTodo(p) && p.todo != [] && p.todo[0] == x
  }

  predicate FacesOne(s: State, p: Phase) {
    HasTodo(p) && p.todo != [] && p.todo[0] in s.subs
  }

  function Goes(s: State, t: Thread, p: Phase): State {
    s.(threads := s.threads[t := p])
  }

  function With(s: State, x: SubId, sub: Sub): State {
    s.(subs := s.subs[x := sub])
  }

  // ------------------------------------------------------------------ steps on one subscription

  /** A step of a broadcast: lock, drain, put. */
  predicate IsSend(a: Action) {
    a.LockToSend? || a.Drain? || a.Put?
  }

  /** A step that closes a subscription. */
  predicate IsClose(a: Action) {
    a.EnterOnce? || a.LockToClose? || a.Shut?
  }

  /** The phase the step starts from. */
  predicate At(p: Phase, a: Action) {
    match a
    case LockToSend => p.Sending?
    case Drain => p.Draining?
    case Put => p.Putting?
    case EnterOnce => p.Closing?
    case LockToClose => p.Entering?
    case Shut => p.Shutting?
    case _ => false
  }

  /** Whether the step does not block on the subscription. */
  predicate Free(sub: Sub, a: Action) {
    match a
    case LockToSend => sub.holder.None?
    case Put => sub.buffer.None?
    case EnterOnce => !sub.once.Busy?
    case LockToClose => sub.holder.None?
    case _ => true
  }

  /** Where the thread is after the step; a closed subscription is skipped. */
  function PhaseAfter(p: Phase, sub: Sub, a: Action): Phase
    requires At(p, a) && p.todo != []
  {
    match a
    case LockToSend =>
      if sub.closed then Sending(p.done, p.ledger, p.subs, p.todo[1..]) else Draining(p.done, p.ledger, p.subs, p.todo)
    case Drain => Putting(p.done, p.ledger, p.subs, p.todo)
    case Put => Sending(p.done, p.ledger, p.subs, p.todo[1..])
    case EnterOnce => if sub.once.Finished? then Closing(p.todo[1..]) else Entering(p.todo)
    case LockToClose => Shutting(p.todo)
    case Shut => Closing(p.todo[1..])
  }

  /** What the step makes of the subscription. */
  function SubAfter(t: Thread, p: Phase, sub: Sub, a: Action): Sub
    requires At(p, a)
  {
    match a
    case LockToSend => if sub.closed then sub else sub.(holder := Some(t))
    case Drain => sub.(buffer := None)
    case Put =>
      sub.(buffer := Some(p.ledger), holder := None, offered := sub.offered + {p.done}, given := Some(Gift(p.done, p.ledger)))
    case EnterOnce => if sub.once.Finished? then sub else sub.(once := Busy(t))
    case LockToClose => sub.(holder := Some(t))
    case Shut => sub.(open := false, closed := true, holder := None, once := Finished)
  }

  function ApplyOnSub(s: State, t: Thread, p: Phase, a: Action): State
    requires At(p, a) && FacesOne(s, p)
  {
    var x := p.todo[0];
    With(Goes(s, t, PhaseAfter(p, s.subs[x], a)), x, SubAfter(t, p, s.subs[x], a))
  }

  // ------------------------------------------------------------------ steps of one thread alone

  predicate IsOwn(a: Action) {
    a.GiveUp? || a.Wake? || a.Snapshot? || a.EndBroadcast? || a.CloseDone? || a.EndClosing?
  }

  predicate OwnReady(s: State, p: Phase, a: Action) {
    match a
    case GiveUp => p.Waiting?
    case Wake => p.Waiting? && p.done in s.channels && s.channels[p.done].None?
    case Snapshot => p.Publishing?
    case EndBroadcast => p.Sending? && p.todo == []
    case CloseDone => p.Finishing?
    case EndClosing => p.Closing? && p.todo == []
    case _ => false
  }

  function OwnPhase(sh: Shared<SubId>, p: Phase, a: Action): Phase
    requires a.Snapshot? ==> p.Publishing?
    requires a.EndBroadcast? ==> p.Sending?
    requires a.CloseDone? ==> p.Finishing?
  {
    match a
    case GiveUp => GaveUp
    case Wake => Returned(sh.last)
    case Snapshot => Sending(p.done, p.ledger, sh.subscribers, sh.subscribers)
    case EndBroadcast => Finishing(p.done, Loaded(p.ledger), p.subs)
    case CloseDone => Returned(Some(p.outcome))
    case _ => Over
  }

  function ApplyOwn(s: State, t: Thread, p: Phase, a: Action): State
    requires OwnReady(s, p, a)
  {
    var n := Goes(s, t, OwnPhase(s.sh, p, a));
    if a.CloseDone? then n.(channels := s.channels[p.done := None])
    else if a.Snapshot? then n.(audience := s.audience[p.done := s.sh.subscribers])
    else n
  }

  // ------------------------------------------------------------------ steps from outside

  /** A write, a new subscription or a receive: no thread of the session moves. */
  predicate IsOutside(a: Action) {
    a.Write? || a.Clear? || a.Subscribe? || a.Receive?
  }

  function ApplyOutside(s: State, a: Action): State
    requires IsOutside(a) && (a.Receive? ==> a.sub in s.subs)
  {
    match a
    case Write(path, content) =>
      s.(sh := Written(s.sh, path, content), writes := if s.sh.closed then s.writes else s.writes + 1)
    case Clear(path) =>
      s.(sh := Cleared(s.sh, path), writes := if s.sh.closed || path !in s.sh.overlay then s.writes else s.writes + 1)
    case Subscribe(x) =>
      if s.sh.closed then s else With(s, x, Sub(None, true, false, None, NotYet, {}, None)).(sh := Subscribed(s.sh, x))
    case Receive(x) => With(s, x, s.subs[x].(buffer := None))
  }

  /** A thread begins to close subscriptions that it takes off the list. */
  predicate IsUnlist(a: Action) {
    a.Cancel? || a.CloseSession?
  }

  function ApplyUnlist(s: State, t: Thread, a: Action): State
    requires IsUnlist(a)
  {
    match a
    case Cancel(x) => Goes(s, t, Closing([x])).(sh := Cancelled(s.sh, x))
    case CloseSession => Goes(s, t, Closing(s.sh.subscribers)).(sh := Closed(s.sh))
  }

  // ------------------------------------------------------------------ loads

  function FirstPhase(s: State, force: bool, channel: Channel): Phase {
    match Decide(s.sh, force)
    case Refuse => Refused
    case Serve(ledger) => Returned(Some(Loaded(ledger)))
    case Await(done) => Waiting(done)
    case Load(snap) => Loading(channel, snap, s.writes)
  }

  function ApplyEnter(s: State, t: Thread, force: bool, channel: Channel): State {
    Goes(s, t, FirstPhase(s, force, channel)).(
      sh := Entered(s.sh, force, channel),
      channels := if Decide(s.sh, force).Load? then s.channels[channel := Some(t)] else s.channels)
  }

  function ApplyPublish(s: State, t: Thread, p: Phase, outcome: Outcome): State
    requires p.Loading?
  {
    var next := if outcome.Loaded? then Publishing(p.done, outcome.ledger) else Finishing(p.done, outcome, []);
    Goes(s, t, next).(sh := Published(s.sh, outcome), stamp := if outcome.Loaded? && !s.sh.closed then p.at else s.stamp,
                       outcomes := s.outcomes[p.done := outcome], latest := Some(p.done),
                       filled := if outcome.Loaded? && !s.sh.closed then Some(p.done) else s.filled)
  }

  // ------------------------------------------------------------------ the machine

  /** Whether thread `t` can take the step. A step that would block is not enabled. */
  predicate Enabled(s: State, t: Thread, a: Action) {
    if IsOutside(a) then OutsideReady(s, a)
    else if IsUnlist(a) || a.Enter? then t !in s.threads && BeginReady(s, a)
    else t in s.threads && Ready(s, s.threads[t], a)
  }

  predicate OutsideReady(s: State, a: Action) {
    && (a.Subscribe? ==> a.sub !in s.subs)
    && (a.Receive? ==> a.sub in s.subs && s.subs[a.sub].buffer.Some?)
  }

  predicate BeginReady(s: State, a: Action) {
    && (a.Enter? ==> a.channel !in s.channels)
    && (a.Cancel? ==> a.sub in s.subs)
  }

  predicate Ready(s: State, p: Phase, a: Action) {
    if IsSend(a) || IsClose(a) then At(p, a) && FacesOne(s, p) && Free(s.subs[p.todo[0]], a)
    else if a.Publish? then p.Loading? && (a.outcome.Loaded? ==> a.outcome.ledger.of == p.snap)
    else OwnReady(s, p, a)
  }

  /** The state after the step. */
  function Apply(s: State, t: Thread, a: Action): State
    requires Enabled(s, t, a)
  {
    if IsSend(a) || IsClose(a) then ApplyOnSub(s, t, s.threads[t], a)
    else if IsOwn(a) then ApplyOwn(s, t, s.threads[t], a)
    else if IsOutside(a) then ApplyOutside(s, a)
    else if IsUnlist(a) then ApplyUnlist(s, t, a)
    else if a.Enter? then ApplyEnter(s, t, a.force, a.channel)
    else ApplyPublish(s, t, s.threads[t], a.outcome)
  }

  ghost predicate Next(s: State, n: State) {
    exists t, a :: Enabled(s, t, a) && n == Apply(s, t, a)
  }

  ghost predicate NextAt(states: seq<State>, i: nat)
    requires i + 1 < |states|
  {
    Next(states[i], states[i + 1])
  }

  /** A run of the session from its first load on. */
  ghost predicate Run(ledger: Ledger, states: seq<State>) {
    && |states| > 0 && states[0] == Init(ledger) && ledger.of == map[]
    && forall i :: 0 <= i < |states| - 1 ==> NextAt(states, i)
  }

  /** One step: who took it, and which. */
  datatype Event = Event(thread: Thread, action: Action)

  /** The run in which the steps were these. */
  ghost predicate Played(ledger: Ledger, states: seq<State>, events: seq<Event>) {
    && |states| == |events| + 1 && states[0] == Init(ledger) && ledger.of == map[]
    && forall i :: 0 <= i < |events| ==> StepAt(states, events, i)
  }

  predicate StepAt(states: seq<State>, events: seq<Event>, i: nat)
    requires i < |events| && |states| == |events| + 1
  {
    Stepped(states[i], events[i], states[i + 1])
  }

  predicate Stepped(s: State, e: Event, n: State) {
    Enabled(s, e.thread, e.action) && n == Apply(s, e.thread, e.action)
  }

  lemma {:induction false} PlayedIsRun(ledger: Ledger, states: seq<State>, events: seq<Event>)
    requires Played(ledger, states, events)
    ensures Run(ledger, states)
  {
    forall i | 0 <= i < |states| - 1 ensures NextAt(states, i) {
      assert StepAt(states, events, i);
    }
  }

  /** Every run was played by some steps. */
  lemma {:induction false} RunIsPlayed(ledger: Ledger, states: seq<State>) returns (events: seq<Event>)
    requires Run(ledger, states)
    ensures Played(ledger, states, events)
    decreases |states|
  {
    if |states| == 1 {
      events := [];
    } else {
      var n := |states| - 1;
      var front := states[..n];
      forall i | 0 <= i < |front| - 1 ensures NextAt(front, i) {
        assert NextAt(states, i);
      }
      events := RunIsPlayed(ledger, front);
      assert NextAt(states, n - 1);
      var e := StepOf(states[n - 1], states[n]);
      PlayedOneMore(ledger, front, events, e, states[n]);
      events := events + [e];
      assert states == front + [states[n]];
    }
  }

  lemma {:induction false} StepOf(s: State, n: State) returns (e: Event)
    requires Next(s, n)
    ensures Stepped(s, e, n)
  {
    var t, a :| Enabled(s, t, a) && n == Apply(s, t, a);
    e := Event(t, a);
  }

  lemma {:induction false} PlayedOneMore(ledger: Ledger, states: seq<State>, events: seq<Event>, e: Event, n: State)
    requires Played(ledger, states, events) && Stepped(states[|states| - 1], e, n)
    ensures Played(ledger, states + [n], events + [e])
  {
    forall i | 0 <= i < |events| + 1 ensures StepAt(states + [n], events + [e], i) {
      if i < |events| {
        assert StepAt(states, events, i);
      }
    }
  }

  // ------------------------------------------------------------------ loads and their channels

  /** The thread carries a reload through and is going to close its channel. */
  predicate Loads(p: Phase) {
    p.Loading? || p.Publishing? || p.Sending? || p.Draining? || p.Putting? || p.Finishing?
  }

  /** What holds of a thread as far as loads go. */
  predicate LoadOk(sh: Shared<SubId>, channels: map<Channel, Option<Thread>>, t: Thread, p: Phase) {
    && (p.Waiting? ==> p.done in channels)
    && (p.Loading? ==> sh.reloading && sh.done == p.done)
    && (Loads(p) ==> p.done in channels && channels[p.done] == Some(t))
    && (Loads(p) && !p.Loading? ==> sh.last.Some?)
    && (p.Returned? ==> p.result.Some?)
  }

  predicate ChannelOk(sh: Shared<SubId>, threads: map<Thread, Phase>, d: Channel, owner: Option<Thread>) {
    && (owner.None? ==> sh.last.Some?)
    && (owner.Some? ==>
         var t := owner.value;
         t in threads && Loads(threads[t]) && threads[t].done == d && (sh.reloading && sh.done == d ==> threads[t].Loading?))
  }

  ghost predicate LoadInv(s: State) {
    && (forall t :: t in s.threads ==> LoadOk(s.sh, s.channels, t, s.threads[t]))
    && (forall d :: d in s.channels ==> ChannelOk(s.sh, s.threads, d, s.channels[d]))
    && (s.sh.reloading ==> s.sh.done in s.channels && s.channels[s.sh.done].Some?)
  }

  /** A thread moves on within a reload, or ends without having one. */
  lemma {:induction false} LoadInvMove(s: State, t: Thread, p: Phase)
    requires LoadInv(s)
    requires LoadOk(s.sh, s.channels, t, p)
    requires t in s.threads && Loads(s.threads[t]) ==> Loads(p) && p.done == s.threads[t].done && (s.threads[t].Loading? ==> p.Loading?)
    ensures LoadInv(Goes(s, t, p))
  {
    var n := Goes(s, t, p);
    forall u | u in n.threads ensures LoadOk(n.sh, n.channels, u, n.threads[u]) {
      if u != t {
        assert u in s.threads;
      }
    }
    forall d | d in n.channels ensures ChannelOk(n.sh, n.threads, d, n.channels[d]) {
      assert ChannelOk(s.sh, s.threads, d, s.channels[d]);
    }
  }

  lemma {:induction false} LoadInvEnter(s: State, t: Thread, force: bool, channel: Channel)
    requires LoadInv(s) && Enabled(s, t, Enter(force, channel))
    ensures LoadInv(ApplyEnter(s, t, force, channel))
  {
    var n := ApplyEnter(s, t, force, channel);
    if Decide(s.sh, force).Load? {
      forall u | u in n.threads ensures LoadOk(n.sh, n.channels, u, n.threads[u]) {
        if u != t {
          assert LoadOk(s.sh, s.channels, u, s.threads[u]);
        }
      }
      forall d | d in n.channels ensures ChannelOk(n.sh, n.threads, d, n.channels[d]) {
        if d != channel {
          assert ChannelOk(s.sh, s.threads, d, s.channels[d]);
        }
      }
    } else {
      LoadInvMove(s, t, n.threads[t]);
    }
  }

  lemma {:induction false} LoadInvPublish(s: State, t: Thread, outcome: Outcome)
    requires LoadInv(s) && Enabled(s, t, Publish(outcome))
    ensures LoadInv(ApplyPublish(s, t, s.threads[t], outcome))
  {
    var n := ApplyPublish(s, t, s.threads[t], outcome);
    assert LoadOk(s.sh, s.channels, t, s.threads[t]);
    forall u | u in n.threads ensures LoadOk(n.sh, n.channels, u, n.threads[u]) {
      if u != t {
        assert LoadOk(s.sh, s.channels, u, s.threads[u]);
      }
    }
    forall d | d in n.channels ensures ChannelOk(n.sh, n.threads, d, n.channels[d]) {
      assert ChannelOk(s.sh, s.threads, d, s.channels[d]);
    }
  }

  lemma {:induction false} LoadInvCloseDone(s: State, t: Thread)
    requires LoadInv(s) && Enabled(s, t, CloseDone)
    ensures LoadInv(ApplyOwn(s, t, s.threads[t], CloseDone))
  {
    var n := ApplyOwn(s, t, s.threads[t], CloseDone);
    assert LoadOk(s.sh, s.channels, t, s.threads[t]);
    forall u | u in n.threads ensures LoadOk(n.sh, n.channels, u, n.threads[u]) {
      if u != t {
        assert LoadOk(s.sh, s.channels, u, s.threads[u]);
      }
    }
    forall d | d in n.channels ensures ChannelOk(n.sh, n.threads, d, n.channels[d]) {
      assert ChannelOk(s.sh, s.threads, d, s.channels[d]);
    }
  }

  /** The fields loads depend on. */
  ghost predicate SameLoads(s: State, n: State) {
    n.channels == s.channels && n.threads == s.threads
    && n.sh.reloading == s.sh.reloading && n.sh.done == s.sh.done && n.sh.last == s.sh.last
  }

  lemma {:induction false} LoadInvSame(s: State, n: State)
    requires LoadInv(s) && SameLoads(s, n)
    ensures LoadInv(n)
  {
    forall t | t in n.threads ensures LoadOk(n.sh, n.channels, t, n.threads[t]) {
      assert LoadOk(s.sh, s.channels, t, s.threads[t]);
    }
    forall d | d in n.channels ensures ChannelOk(n.sh, n.threads, d, n.channels[d]) {
      assert ChannelOk(s.sh, s.threads, d, s.channels[d]);
    }
  }

  /** A step on a subscription keeps to the reload. */
  lemma {:induction false} PhaseKeepsReload(p: Phase, sub: Sub, a: Action)
    requires At(p, a) && p.todo != []
    ensures var q := PhaseAfter(p, sub, a);
            && !p.Loading? && !q.Loading? && !q.Waiting? && !q.Returned?
            && (Loads(q) <==> Loads(p)) && (Loads(p) ==> q.done == p.done)
  {
  }

  lemma {:induction false} LoadInvOnSub(s: State, t: Thread, a: Action)
    requires LoadInv(s) && Enabled(s, t, a) && (IsSend(a) || IsClose(a))
    ensures LoadInv(ApplyOnSub(s, t, s.threads[t], a))
  {
    var p := s.threads[t];
    var q := PhaseAfter(p, s.subs[p.todo[0]], a);
    assert LoadOk(s.sh, s.channels, t, p);
    PhaseKeepsReload(p, s.subs[p.todo[0]], a);
    LoadInvMove(s, t, q);
    LoadInvSame(Goes(s, t, q), ApplyOnSub(s, t, p, a));
  }

  lemma {:induction false} LoadInvOwn(s: State, t: Thread, a: Action)
    requires LoadInv(s) && Enabled(s, t, a) && IsOwn(a) && !a.CloseDone?
    ensures LoadInv(ApplyOwn(s, t, s.threads[t], a))
  {
    var p := s.threads[t];
    var q := OwnPhase(s.sh, p, a);
    assert LoadOk(s.sh, s.channels, t, p);
    if a.Wake? {
      assert ChannelOk(s.sh, s.threads, p.done, s.channels[p.done]);
    }
    LoadInvMove(s, t, q);
    LoadInvSame(Goes(s, t, q), ApplyOwn(s, t, p, a));
  }

  lemma {:induction false} LoadInvUnlist(s: State, t: Thread, a: Action)
    requires LoadInv(s) && Enabled(s, t, a) && IsUnlist(a)
    ensures LoadInv(ApplyUnlist(s, t, a))
  {
    var n := ApplyUnlist(s, t, a);
    LoadInvMove(s, t, n.threads[t]);
    LoadInvSame(Goes(s, t, n.threads[t]), n);
  }

  lemma {:induction false} LoadInvOutside(s: State, t: Thread, a: Action)
    requires LoadInv(s) && Enabled(s, t, a) && IsOutside(a)
    ensures LoadInv(ApplyOutside(s, a))
  {
    LoadInvSame(s, ApplyOutside(s, a));
  }

  lemma {:induction false} LoadInvStep(s: State, t: Thread, a: Action)
    requires LoadInv(s) && Enabled(s, t, a)
    ensures LoadInv(Apply(s, t, a))
  {
    if IsSend(a) || IsClose(a) {
      LoadInvOnSub(s, t, a);
    } else if a.CloseDone? {
      LoadInvCloseDone(s, t);
    } else if IsOwn(a) {
      LoadInvOwn(s, t, a);
    } else if IsOutside(a) {
      LoadInvOutside(s, t, a);
    } else if IsUnlist(a) {
      LoadInvUnlist(s, t, a);
    } else if a.Enter? {
      LoadInvEnter(s, t, a.force, a.channel);
    } else {
      LoadInvPublish(s, t, a.outcome);
    }
  }
}
