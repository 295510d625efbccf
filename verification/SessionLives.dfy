/**
 How long sessions live over whole runs: what the garbage collection spares and takes, and what a
 new manager or a disconnect does to the calls of the old connection.
 */
module SessionLives {
  import opened Wrappers
  import opened SessionState
  import opened SessionRuns
  import opened CallOutcomes
  import T = SessionTables

  // ---------------------------------------------------------------- the garbage collection

  // A sweep takes exactly the sessions without a promise whose last activity is more than 600
  // seconds ago, leaves the others as they are, and takes each out of the bucket of its target.
  lemma SweepTakesIff(s: State, now: int, k: string)
    requires Inv(s) && k in s.store
    ensures var r := Step(s, Sweep(now)); var session := s.store[k];
      && (k !in r.store <==> !session.promise && session.stamp.Some? && now > session.stamp.value + 600)
      && (k in r.store ==> r.store[k] == session)
      && (k !in r.store && session.target.Some? && session.target.value != "" ==>
            session.target.value !in r.index || k !in r.index[session.target.value])
  {
    T.StoreEvolves(s, Sweep(now), k);
    var r := Step(s, Sweep(now));
    if k !in r.store && s.store[k].target.Some? && s.store[k].target.value != "" {
      var dead := set x | x in s.store && Expired(s.store[x], now);
      assert k in Gone(s.store, dead, s.store[k].target.value);
    }
  }

  // The events that mark session k as active at time t.
  predicate Marks(e: Event, k: string, t: int) {
    match e
    case CallPromise(sid, _, _, now) => sid == k && now == t
    case CallForget(sid, _, _, now) => sid == k && now == t
    case Touch(sid, now) => sid == k && now == t
    case _ => false
  }

  ghost predicate ActiveSince(s: State, k: string, t: int) {
    k in s.store ==> s.store[k].promise || s.store[k].stamp.None? || s.store[k].stamp.value >= t
  }

  // Time does not run back before t, and no sweep is later than t + 600.
  predicate Within(e: Event, k: string, t: int) {
    match e
    case CallPromise(sid, _, _, now) => sid == k ==> now >= t
    case CallForget(sid, _, _, now) => sid == k ==> now >= t
    case Touch(sid, now) => sid == k ==> now >= t
    case HeartbeatMsg(sid, now) => sid == k ==> now >= t
    case Sweep(now) => now <= t + 600
    case _ => true
  }

  // No sweep of the run takes the session.
  ghost predicate Spared(s: State, es: seq<Event>, k: string)
    requires IsRun(s, es)
    decreases |es|
  {
    es == [] || (
      && (es[0].Sweep? && k in s.store ==> k in Step(s, es[0]).store)
      && Spared(Step(s, es[0]), es[1..], k))
  }

  lemma ActiveStep(s: State, e: Event, k: string, t: int)
    requires Inv(s) && Enabled(s, e) && ActiveSince(s, k, t) && Within(e, k, t)
    ensures ActiveSince(Step(s, e), k, t)
    ensures e.Sweep? && k in s.store ==> k in Step(s, e).store
  {
    T.StoreEvolves(s, e, k);
  }

  lemma {:induction false} ActiveIsSpared(s: State, es: seq<Event>, k: string, t: int)
    requires Inv(s) && IsRun(s, es) && ActiveSince(s, k, t)
    requires forall e <- es :: Within(e, k, t)
    ensures Spared(s, es, k)
    decreases |es|
  {
    if es != [] {
      assert es[0] in es && forall e <- es[1..] :: e in es;
      StepKeepsInv(s, es[0]);
      ActiveStep(s, es[0], k, t);
      ActiveIsSpared(Step(s, es[0]), es[1..], k, t);
    }
  }

  // MAIN: a session that began or was called into at time t is spared by every sweep of every run up
  // to 600 seconds later.
  lemma RecentSessionsAreSpared(s: State, e: Event, es: seq<Event>, k: string, t: int)
    requires Inv(s) && Enabled(s, e) && Marks(e, k, t) && IsRun(Step(s, e), es)
    requires forall x <- es :: Within(x, k, t)
    ensures Spared(Step(s, e), es, k)
  {
    StepKeepsInv(s, e);
    T.StoreEvolves(s, e, k);
    ActiveIsSpared(Step(s, e), es, k, t);
  }

  // A session without a promise, not active since t, or one made again by a nested call.
  ghost predicate IdleSince(s: State, k: string, t: int) {
    && k in s.calls
    && (k in s.store ==>
          (!s.store[k].promise && s.store[k].stamp == Some(t)) || s.store[k] == Session(None, false, true, None))
  }

  lemma IdleStep(s: State, e: Event, k: string, t: int)
    requires Inv(s) && Enabled(s, e) && IdleSince(s, k, t)
    requires !e.Touch? || e.sid != k
    ensures IdleSince(Step(s, e), k, t)
  {
    T.StoreEvolves(s, e, k);
    T.TimersFollow(s, e, k);
  }

  lemma {:induction false} IdleStays(s: State, es: seq<Event>, k: string, t: int)
    requires Inv(s) && IsRun(s, es) && IdleSince(s, k, t)
    requires forall e <- es :: !e.Touch? || e.sid != k
    ensures IdleSince(Run(s, es), k, t)
    decreases |es|
  {
    if es != [] {
      assert es[0] in es && forall e <- es[1..] :: e in es;
      StepKeepsInv(s, es[0]);
      IdleStep(s, es[0], k, t);
      IdleStays(Step(s, es[0]), es[1..], k, t);
    }
  }

  // MAIN: a call's session without a promise that is not called into any more goes with the first
  // sweep later than that, whatever else the run does (a parent made again is the one exception).
  lemma IdleSessionsGo(s: State, es: seq<Event>, k: string, t: int, now: int)
    requires Inv(s) && IsRun(s, es) && k in s.calls && k in s.store && !s.store[k].promise
    requires s.store[k].stamp == Some(t) && now > t + 600
    requires forall e <- es :: !e.Touch? || e.sid != k
    ensures var r := Step(Run(s, es), Sweep(now));
      k in r.store ==> r.store[k] == Session(None, false, true, None)
  {
    IdleStays(s, es, k, t);
    RunKeepsInv(s, es);
    T.StoreEvolves(Run(s, es), Sweep(now), k);
  }

  // ---------------------------------------------------------------- a new manager

  lemma {:induction false} ManagerRemembered(s: State, es: seq<Event>)
    requires IsRun(s, es) && forall e <- es :: !e.Connected?
    ensures Run(s, es).conn.manager == s.conn.manager && Run(s, es).conn.silent == s.conn.silent
    decreases |es|
  {
    if es != [] {
      assert es[0] in es && forall e <- es[1..] :: e in es;
      ConnectionEvolvesAlone(s, es[0]);
      ManagerRemembered(Step(s, es[0]), es[1..]);
    }
  }

  // MAIN: when the connection comes back with another manager, no session that targets the one of
  // the connection before is left, and no call to it with a session stays unsettled.
  lemma ManagerChangeRejects(s: State, a: string, es: seq<Event>, b: string, k: string)
    requires Inv(s) && !s.conn.silent && a != "" && b != "" && a != b
    requires var t := Step(s, Connected(Some(a))); IsRun(t, es)
    requires forall e <- es :: !e.Connected?
    requires var u := Run(Step(s, Connected(Some(a))), es); k in u.store && u.store[k].target == Some("*/" + a)
    ensures var u := Run(Step(s, Connected(Some(a))), es); var r := Step(u, Connected(Some(b)));
      k !in r.store && (u.store[k].promise ==> k in r.calls && !r.calls[k].outcome.Pending?)
  {
    var t := Step(s, Connected(Some(a)));
    StepKeepsInv(s, Connected(Some(a)));
    ConnectionEvolvesAlone(s, Connected(Some(a)));
    ManagerRemembered(t, es);
    RunKeepsInv(t, es);
    var u := Run(t, es);
    T.StoreEvolves(u, Connected(Some(b)), k);
    if u.store[k].promise { StepSettlesByVerdict(u, Connected(Some(b)), k); }
  }

  // ---------------------------------------------------------------- a disconnect

  // MAIN: after the user's disconnect the end of the listening task rejects every call that has a
  // session, whatever happened in between, unless the connection was opened again.
  lemma DisconnectRejects(s: State, es: seq<Event>, reason: string, k: string)
    requires Inv(s) && IsRun(Step(s, UserDisconnect), es) && forall e <- es :: !e.Opened?
    requires var u := Run(Step(s, UserDisconnect), es); k in u.store && u.store[k].promise
    ensures var u := Run(Step(s, UserDisconnect), es); var r := Step(u, ListenEnds(reason));
      k !in r.store && k in r.calls && !r.calls[k].outcome.Pending?
  {
    var t := Step(s, UserDisconnect);
    StepKeepsInv(s, UserDisconnect);
    StaysClosed(t, es);
    RunKeepsInv(t, es);
    T.StoreEvolves(Run(t, es), ListenEnds(reason), k);
    StepSettlesByVerdict(Run(t, es), ListenEnds(reason), k);
  }

  lemma {:induction false} StaysClosed(s: State, es: seq<Event>)
    requires IsRun(s, es) && s.conn.closed && forall e <- es :: !e.Opened?
    ensures Run(s, es).conn.closed
    decreases |es|
  {
    if es != [] {
      assert es[0] in es && forall e <- es[1..] :: e in es;
      ConnectionEvolvesAlone(s, es[0]);
      StaysClosed(Step(s, es[0]), es[1..]);
    }
  }
}
