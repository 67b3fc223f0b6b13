/**
 The session: a cached ledger kept in step with editor overlays. Each critical section
 is a function of the fields the session lock guards, and a method that changes them.
 */
module Sessions {
  import opened Prelude

  type Overlay = map<string, string>

  /** What a load gives: `of` is the overlay it saw, `disk` stands for the files it read. */
  datatype Ledger = Ledger(of: Overlay, disk: nat)

  datatype Outcome = Loaded(ledger: Ledger) | LoadFailed(error: nat)

  type Channel = nat

  /** The guarded fields; `S` is how subscribers are named. */
  datatype Shared<S> = Shared(
    overlay: Overlay,
    cached: Ledger,
    valid: bool,
    closed: bool,
    subscribers: seq<S>,
    reloading: bool,
    done: Channel,
    last: Option<Outcome>)

  /** What a caller of a reload does next. */
  datatype Decision = Refuse | Serve(ledger: Ledger) | Await(done: Channel) | Load(snap: Overlay)

  function Decide<S>(sh: Shared<S>, force: bool): Decision {
    if sh.closed then Refuse
    else if !force && sh.valid then Serve(sh.cached)
    else if sh.reloading then Await(sh.done)
    else Load(sh.overlay)
  }

  function Entered<S>(sh: Shared<S>, force: bool, done: Channel): Shared<S> {
    if Decide(sh, force).Load? then sh.(reloading := true, done := done) else sh
  }

  function Published<S>(sh: Shared<S>, outcome: Outcome): Shared<S> {
    var ended := sh.(reloading := false, last := Some(outcome));
    if outcome.Loaded? && !sh.closed then ended.(cached := outcome.ledger, valid := true) else ended
  }

  function Written<S>(sh: Shared<S>, path: string, content: string): Shared<S> {
    if sh.closed then sh else sh.(overlay := sh.overlay[path := content], valid := false)
  }

  function Cleared<S>(sh: Shared<S>, path: string): Shared<S> {
    if sh.closed || path !in sh.overlay then sh else sh.(overlay := sh.overlay - {path}, valid := false)
  }

  function Subscribed<S>(sh: Shared<S>, sub: S): Shared<S> {
    if sh.closed then sh else sh.(subscribers := sh.subscribers + [sub])
  }

  /** The first occurrence gives its place to the last element. */
  function Removed<S(==)>(subs: seq<S>, sub: S): seq<S> {
    if sub !in subs then subs
    else
      var i := FirstAt(subs, sub);
      subs[i := subs[|subs| - 1]][..|subs| - 1]
  }

  function FirstAt<S(==)>(subs: seq<S>, sub: S): (i: nat)
    requires sub in subs
    ensures i < |subs| && subs[i] == sub && sub !in subs[..i]
  {
    if subs[0] == sub then 0 else 1 + FirstAt(subs[1..], sub)
  }

  function Cancelled<S(==)>(sh: Shared<S>, sub: S): Shared<S> {
    sh.(subscribers := Removed(sh.subscribers, sub))
  }

  function Closed<S>(sh: Shared<S>): Shared<S> {
    sh.(closed := true, subscribers := [])
  }

  ghost predicate Distinct<S(!new)>(xs: seq<S>) {
    forall i, j :: 0 <= i < j < |xs| ==> xs[i] != xs[j]
  }

  /** Cancelling takes out exactly the one subscriber. */
  lemma {:induction false} RemovedTakesOut<S(!new)>(subs: seq<S>, sub: S)
    requires Distinct(subs)
    ensures Distinct(Removed(subs, sub))
    ensures forall x :: x in Removed(subs, sub) <==> x in subs && x != sub
  {
    if sub in subs {
      var i, n := FirstAt(subs, sub), |subs| - 1;
      var r := Removed(subs, sub);
      assert forall k :: 0 <= k < n ==> r[k] == if k == i then subs[n] else subs[k];
      forall x ensures x in r <==> x in subs && x != sub {
        if x in subs && x != sub {
          var k :| 0 <= k < |subs| && subs[k] == x;
          assert r[if k == n then i else k] == x;
        }
      }
    }
  }

  // ------------------------------------------------------------------ subscribers

  /** A subscription: a channel of capacity one. */
  class Subscriber {
    var buffer: Option<Ledger>
    var closed: bool

    constructor ()
      ensures buffer == None && !closed
    {
      buffer, closed := None, false;
    }

    /** The latest ledger wins; after the close nothing is sent. */
    method Send(ledger: Ledger)
      modifies this
      ensures closed == old(closed)
      ensures buffer == if closed then old(buffer) else Some(ledger)
    {
      if closed {
        return;
      }
      if buffer.Some? {
        buffer := None;
      }
      buffer := Some(ledger);
    }

    method Close()
      modifies this
      ensures closed && buffer == old(buffer)
    {
      closed := true;
    }
  }

  /** Its methods are the critical sections; the load itself runs between `Begin` and `Finish`. */
  class Session {
    var overlay: Overlay
    var cached: Ledger
    var valid: bool
    var closed: bool
    var subscribers: seq<Subscriber>
    var reloading: bool
    var done: Channel
    var last: Option<Outcome>

    ghost function View(): Shared<Subscriber>
      reads this
    {
      Shared(overlay, cached, valid, closed, subscribers, reloading, done, last)
    }

    /** A session after its first load. */
    constructor (ledger: Ledger)
      requires ledger.of == map[]
      ensures View() == Shared(map[], ledger, true, false, [], false, 0, None)
    {
      overlay, cached, valid, closed, subscribers := map[], ledger, true, false, [];
      reloading, done, last := false, 0, None;
    }

    method SetOverlay(absolute: bool, path: string, content: string) returns (ok: bool)
      modifies this
      ensures View() == if absolute then Written(old(View()), path, content) else old(View())
      ensures ok <==> absolute && !old(closed)
    {
      if !absolute || closed {
        return false;
      }
      overlay := overlay[path := content];
      valid := false;
      return true;
    }

    method ClearOverlay(path: string) returns (ok: bool)
      modifies this
      ensures View() == Cleared(old(View()), path)
      ensures ok <==> !old(closed)
    {
      if closed {
        return false;
      }
      if path in overlay {
        overlay := overlay - {path};
        valid := false;
      }
      return true;
    }

    /** The first critical section of a reload. `channel` is the one a load would use. */
    method Begin(force: bool, channel: Channel) returns (d: Decision)
      modifies this
      ensures View() == Entered(old(View()), force, channel) && d == Decide(old(View()), force)
    {
      if closed {
        return Refuse;
      }
      if !force && valid {
        return Serve(cached);
      }
      if reloading {
        return Await(done);
      }
      reloading := true;
      done := channel;
      return Load(overlay);
    }

    /** The second critical section of a reload, after the load. */
    method Finish(outcome: Outcome)
      modifies this
      ensures View() == Published(old(View()), outcome)
    {
      reloading := false;
      last := Some(outcome);
      if outcome.Loaded? && !closed {
        cached := outcome.ledger;
        valid := true;
      }
    }

    method Subscribe() returns (sub: Subscriber)
      modifies this
      ensures fresh(sub) && sub.buffer == None && sub.closed == old(closed)
      ensures View() == Subscribed(old(View()), sub)
    {
      sub := new Subscriber();
      if closed {
        sub.Close();
        return;
      }
      subscribers := subscribers + [sub];
    }

    method Cancel(sub: Subscriber)
      modifies this, sub
      ensures View() == Cancelled(old(View()), sub) && sub.closed
    {
      var i := 0;
      while i < |subscribers| && subscribers[i] != sub
        invariant i <= |subscribers| && sub !in subscribers[..i]
      {
        i := i + 1;
      }
      if i < |subscribers| {
        FirstIsUnique(subscribers, sub, i);
        subscribers := subscribers[i := subscribers[|subscribers| - 1]];
        subscribers := subscribers[..|subscribers| - 1];
      }
      sub.Close();
    }

    /** Every subscriber that is not closed holds the ledger afterwards. */
    method Broadcast(ledger: Ledger)
      modifies subscribers
      ensures forall s :: s in subscribers ==> s.closed == old(s.closed)
      ensures forall s :: s in subscribers ==> s.buffer == if s.closed then old(s.buffer) else Some(ledger)
    {
      for i := 0 to |subscribers|
        invariant forall s :: s in subscribers ==> s.closed == old(s.closed)
        invariant forall s :: s in subscribers ==>
                    s.buffer == if !s.closed && s in subscribers[..i] then Some(ledger) else old(s.buffer)
      {
        subscribers[i].Send(ledger);
      }
    }

    method Close()
      modifies this, subscribers
      ensures View() == Closed(old(View()))
      ensures forall s :: s in old(subscribers) ==> s.closed && s.buffer == old(s.buffer)
    {
      var subs := subscribers;
      closed := true;
      subscribers := [];
      for i := 0 to |subs|
        invariant View() == Closed(old(View()))
        invariant forall s :: s in subs ==> s.buffer == old(s.buffer) && (s in subs[..i] ==> s.closed)
      {
        subs[i].Close();
      }
    }
  }

  lemma {:induction false} FirstIsUnique<S>(subs: seq<S>, sub: S, i: nat)
    requires i < |subs| && subs[i] == sub && sub !in subs[..i]
    ensures sub in subs && FirstAt(subs, sub) == i
  {
  }
}
