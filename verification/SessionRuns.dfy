/**
 What every run of the session engine keeps: the invariant of its tables, calls and timers.
 */
module SessionRuns {
  import opened Wrappers
  import opened SessionState

  // ---------------------------------------------------------------- the invariant

  // Every session with a target is listed under it (the converse is false: keys can be stale).
  ghost predicate IndexComplete(s: State) {
    && (forall t | t in s.index :: s.index[t] != {})
    && (forall k | k in s.store && s.store[k].target.Some? ::
          s.store[k].target.value in s.index && k in s.index[s.store[k].target.value])
  }

  // A promise session belongs to an unsettled call, or to one whose send failed.
  ghost predicate PromisesOpen(s: State) {
    forall k | PromiseSession(s, k) ::
      && k in s.calls && s.calls[k].promise
      && s.store[k].target == Some(s.calls[k].target)
      && (s.calls[k].outcome.Pending? || s.calls[k].sent.SentFailed?)
  }

  // An unsettled promise call whose session is gone: no reply can reach it any more.
  ghost predicate Orphan(s: State, k: string)
    requires k in s.calls
  {
    s.calls[k].promise && s.calls[k].outcome.Pending? && !PromiseSession(s, k)
  }

  ghost predicate CallOk(s: State, k: string)
    requires k in s.calls
  {
    var c := s.calls[k];
    && (c.timer.started <==> !c.timer.task.NoTask?)
    && (c.promise && c.outcome.Pending? ==> !c.sent.SentFailed?)
    && (c.promise && c.outcome.Pending? && c.sent.SentOk? && PromiseSession(s, k) ==> c.timer == RUNNING)
    && (!c.promise ==> c.timer == IDLE)
    && (!c.promise && c.outcome.Pending? ==> c.sent.Unsent?)
    && (c.doomed ==> !c.sent.SentOk? && !c.outcome.Resolved?)
    && (c.doomed && c.sent.Unsent? ==> s.conn.closed)
  }

  ghost predicate CallsOk(s: State) {
    forall k | k in s.calls :: CallOk(s, k)
  }

  // Closed and notified: what is still unsettled can only fail to be sent, expects no reply, or
  // had lost its session before.
  ghost predicate ClosedOk(s: State) {
    s.conn.closed && s.conn.notified ==>
      forall k | k in s.calls && s.calls[k].outcome.Pending? ::
        Orphan(s, k) || (s.calls[k].sent.Unsent? && (s.calls[k].doomed || !s.calls[k].promise))
  }

  ghost predicate LoopsOk(conn: Conn) {
    forall i | 0 <= i < |conn.loops| :: conn.loops[i] <= FLOAT_LIMIT
  }

  ghost predicate Inv(s: State) {
    IndexComplete(s) && PromisesOpen(s) && CallsOk(s) && ClosedOk(s) && LoopsOk(s.conn)
  }

  ghost predicate TimersOk(s: State) {
    forall k | k in s.calls :: s.calls[k].timer.started <==> !s.calls[k].timer.task.NoTask?
  }

  // What the code relies on.
  ghost predicate TablesOk(s: State) {
    IndexComplete(s) && PromisesOpen(s) && TimersOk(s)
  }

  lemma InvTables(s: State)
    requires Inv(s)
    ensures TablesOk(s)
  {
    forall k | k in s.calls ensures s.calls[k].timer.started <==> !s.calls[k].timer.task.NoTask? {
      assert CallOk(s, k);
    }
  }

  lemma InitialInv(silent: bool)
    ensures Inv(Initial(silent))
  {
  }

  // ---------------------------------------------------------------- steps keep it

  lemma DeleteKeepsIndex(s: State, key: string)
    requires IndexComplete(s)
    ensures IndexComplete(DeleteSession(s, key))
  {
  }

  lemma DeleteAllKeepsIndex(s: State, keys: set<string>)
    requires IndexComplete(s)
    ensures IndexComplete(s.(store := s.store - keys, index := RemoveAllFromIndex(s.store, s.index, keys)))
  {
    forall k | k in s.store && k !in keys && s.store[k].target.Some?
      ensures k in s.index[s.store[k].target.value] - Gone(s.store, keys, s.store[k].target.value)
    {
    }
  }

  lemma WrappedCallbackInv(s: State, key: string, o: Outcome)
    requires Inv(s) && !o.Pending?
    requires key in s.calls && s.calls[key].doomed ==> !o.Resolved?
    ensures Inv(WrappedCallback(s, key, o))
  {
    DeleteKeepsIndex(s, key);
  }

  lemma CleanupByIndexInv(s: State, client: string)
    requires Inv(s)
    ensures Inv(CleanupByIndex(s, client))
  {
  }

  lemma RejectAllInv(s: State, reason: string)
    requires IndexComplete(s) && PromisesOpen(s) && CallsOk(s) && LoopsOk(s.conn)
    ensures Inv(RejectAll(s, reason))
    ensures forall k | k in s.calls && s.calls[k].promise ::
              !RejectAll(s, reason).calls[k].outcome.Pending? || Orphan(RejectAll(s, reason), k)
  {
    DeleteAllKeepsIndex(s, PromiseKeys(s, s.store.Keys));
  }

  lemma ConnectionLostInv(s: State, reason: string)
    requires IndexComplete(s) && PromisesOpen(s) && CallsOk(s) && LoopsOk(s.conn)
    requires s.conn.reconnect && !s.conn.closed ==> ClosedOk(s)
    ensures Inv(ConnectionLost(s, reason))
  {
    RejectAllInv(s, LostReason(reason));
  }

  lemma RemoveNamedInv(s: State, key: string, error: string)
    requires Inv(s) && key in s.store
    ensures Inv(RemoveNamed(s, key, error))
  {
    if error != "" { WrappedCallbackInv(s, key, Rejected(ConnectionError(error))); }
    var r := RemoveNamed(s, key, error);
    forall k | k in r.calls ensures CallOk(r, k) {
      assert CallOk(s, k);
    }
  }

  lemma PeerNotFoundInv(s: State, session: Option<string>, peer: string, error: string)
    requires Inv(s)
    ensures Inv(PeerNotFound(s, session, peer, error))
  {
    if session.Some? && session.value in s.store {
      RemoveNamedInv(s, session.value, error);
      CleanupByIndexInv(RemoveNamed(s, session.value, error), peer);
    } else {
      CleanupByIndexInv(s, peer);
    }
  }

  lemma BeginCallInv(s: State, sid: string, target: string, promise: bool, live: bool, now: int)
    requires Inv(s) && sid !in s.calls && sid !in s.store
    ensures Inv(BeginCall(s, sid, target, promise, live, now))
  {
    var r := BeginCall(s, sid, target, promise, live, now);
    assert IndexComplete(r);
    assert PromisesOpen(r);
    forall k | k in r.calls ensures CallOk(r, k) {
      if k != sid { assert CallOk(s, k); }
    }
  }

  lemma BeginNestedInv(s: State, sid: string, parent: string, target: string)
    requires Inv(s) && sid !in s.calls && sid !in s.store && sid != parent
    ensures Inv(BeginNested(s, sid, parent, target))
  {
    var r := BeginNested(s, sid, parent, target);
    assert IndexComplete(r);
    assert PromisesOpen(r) by {
      forall k | PromiseSession(r, k) ensures PromiseSession(s, k) {}
    }
    forall k | k in r.calls ensures CallOk(r, k) {
      if k != sid { assert CallOk(s, k); }
    }
  }

  lemma PromiseSentInv(s: State, sid: string)
    requires Inv(s) && Enabled(s, SendOk(sid)) && s.calls[sid].promise
    ensures Inv(SendSucceeded(s, sid))
  {
    var r := SendSucceeded(s, sid);
    assert CallOk(s, sid);
    assert forall k :: PromiseSession(r, k) <==> PromiseSession(s, k);
    forall k | k in r.calls ensures CallOk(r, k) {
      assert CallOk(s, k);
    }
  }

  lemma ForgetSentInv(s: State, sid: string)
    requires Inv(s) && Enabled(s, SendOk(sid)) && !s.calls[sid].promise
    ensures Inv(SendSucceeded(s, sid))
  {
    var r := SendSucceeded(s, sid);
    DeleteKeepsIndex(s.(calls := r.calls), sid);
    assert CallOk(s, sid);
    assert forall k :: PromiseSession(r, k) <==> PromiseSession(s, k);
    forall k | k in r.calls ensures CallOk(r, k) {
      assert CallOk(s, k);
    }
  }

  lemma SendSucceededInv(s: State, sid: string)
    requires Inv(s) && Enabled(s, SendOk(sid))
    ensures Inv(SendSucceeded(s, sid))
  {
    if s.calls[sid].promise { PromiseSentInv(s, sid); } else { ForgetSentInv(s, sid); }
  }

  lemma SendFailedInv(s: State, sid: string)
    requires Inv(s) && Enabled(s, SendFail(sid))
    ensures Inv(SendFailedStep(s, sid))
  {
    var r := SendFailedStep(s, sid);
    forall k | k in r.calls ensures CallOk(r, k) {
      assert CallOk(s, k);
    }
  }

  lemma TimerExpiredInv(s: State, sid: string)
    requires Inv(s) && Enabled(s, TimerFires(sid))
    ensures Inv(TimerExpired(s, sid))
  {
    var r := TimerExpired(s, sid);
    DeleteKeepsIndex(s.(calls := r.calls), sid);
    forall k | k in r.calls ensures CallOk(r, k) {
      assert CallOk(s, k);
    }
  }

  lemma ResetTimerInv(s: State, sid: string)
    requires Inv(s) && (sid in s.calls ==> !s.calls[sid].doomed)
    ensures Inv(ResetTimer(s, sid))
  {
    var r := ResetTimer(s, sid);
    forall k | k in r.calls ensures CallOk(r, k) {
      assert CallOk(s, k);
    }
  }

  lemma TouchInv(s: State, sid: string, now: int)
    requires Inv(s)
    ensures Inv(TouchSession(s, sid, now))
  {
    var r := TouchSession(s, sid, now);
    assert forall k :: PromiseSession(r, k) <==> PromiseSession(s, k);
    forall k | k in r.calls ensures CallOk(r, k) {
      assert CallOk(s, k);
    }
  }

  lemma GcInv(s: State, now: int)
    requires Inv(s)
    ensures Inv(GcSweep(s, now))
  {
    var r := GcSweep(s, now);
    DeleteAllKeepsIndex(s, set k | k in s.store && Expired(s.store[k], now));
    assert forall k :: PromiseSession(r, k) <==> PromiseSession(s, k);
    forall k | k in r.calls ensures CallOk(r, k) {
      assert CallOk(s, k);
    }
  }

  lemma ManagerSeenInv(s: State, manager: Option<string>)
    requires Inv(s)
    ensures Inv(ManagerSeen(s, manager))
  {
    if s.conn.manager.Some? {
      CleanupByIndexInv(s, ManagerTarget(s.conn.manager.value));
    }
  }

  lemma CloseAndNotifyInv(s: State, i: nat, reason: string)
    requires Inv(s) && i < |s.conn.loops|
    ensures Inv(CloseAndNotify(s, i, reason))
  {
    ConnectionLostInv(s.(conn := s.conn.(closed := true, loops := WithoutLoop(s.conn.loops, i))), reason);
  }

  lemma ReopenInv(s: State)
    requires Inv(s)
    ensures Inv(Reopen(s))
  {
    var r := Reopen(s);
    assert forall k :: PromiseSession(r, k) <==> PromiseSession(s, k);
    forall k | k in r.calls ensures CallOk(r, k) {
      assert CallOk(s, k);
    }
  }

  lemma SocketLostInv(s: State, reason: string, seed: nat)
    requires Inv(s) && Enabled(s, SocketLost(reason, seed))
    ensures Inv(Step(s, SocketLost(reason, seed)))
  {
    ConnectionLostInv(s, reason);
    NewFlagsInv(ConnectionLost(s, reason), Step(s, SocketLost(reason, seed)).conn);
  }

  // Changed flags that let no call look better than it is.
  lemma NewFlagsInv(s: State, conn: Conn)
    requires Inv(s) && LoopsOk(conn)
    requires s.conn.closed ==> conn.closed
    requires conn.closed && conn.notified ==> s.conn.closed && s.conn.notified
    ensures Inv(s.(conn := conn))
  {
    var r := s.(conn := conn);
    assert forall k :: PromiseSession(r, k) <==> PromiseSession(s, k);
    forall k | k in r.calls ensures CallOk(r, k) {
      assert CallOk(s, k);
    }
  }

  // The events of a call itself.
  predicate OfCall(e: Event) {
    e.CallPromise? || e.CallForget? || e.CallNested? || e.SendOk? || e.SendFail? || e.TimerFires?
  }

  lemma CallEventInv(s: State, e: Event)
    requires Inv(s) && Enabled(s, e) && OfCall(e)
    ensures Inv(Step(s, e))
  {
    match e
    case CallPromise(sid, target, live, now) => BeginCallInv(s, sid, target, true, live, now);
    case CallForget(sid, target, live, now) => BeginCallInv(s, sid, target, false, live, now);
    case CallNested(sid, parent, target) => BeginNestedInv(s, sid, parent, target);
    case SendOk(sid) => SendSucceededInv(s, sid);
    case SendFail(sid) => SendFailedInv(s, sid);
    case TimerFires(sid) => TimerExpiredInv(s, sid);
  }

  // The events of its session.
  predicate OfSession(e: Event) {
    || e.ReplyResolve? || e.ReplyReject? || e.HeartbeatMsg? || e.ChunkBeat? || e.Touch? || e.PeerMissing?
    || e.ClientGone? || e.Sweep?
  }

  lemma SessionEventInv(s: State, e: Event)
    requires Inv(s) && Enabled(s, e) && OfSession(e)
    ensures Inv(Step(s, e))
  {
    match e
    case ReplyResolve(sid, payload) => WrappedCallbackInv(s, sid, Resolved(payload));
    case ReplyReject(sid, payload) => WrappedCallbackInv(s, sid, Rejected(RemoteError(payload)));
    case HeartbeatMsg(sid, now) => ResetTimerInv(s, sid); TouchInv(ResetTimer(s, sid), sid, now);
    case ChunkBeat(sid) => ResetTimerInv(s, sid);
    case Touch(sid, now) => TouchInv(s, sid, now);
    case PeerMissing(session, peer, error) => PeerNotFoundInv(s, session, peer, error);
    case ClientGone(client) => CleanupByIndexInv(s, client);
    case Sweep(now) => GcInv(s, now);
  }

  lemma ConnectionEventInv(s: State, e: Event)
    requires Inv(s) && Enabled(s, e) && !OfCall(e) && !OfSession(e)
    ensures Inv(Step(s, e))
  {
    match e
    case Connected(manager) => ManagerSeenInv(s, manager);
    case Opened => ReopenInv(s);
    case SocketLost(reason, seed) => SocketLostInv(s, reason, seed);
    case ListenEnds(reason) => ConnectionLostInv(s, reason);
    case LoopRefused(i, reason) => CloseAndNotifyInv(s, i, REFUSED + reason);
    case LoopGaveUp(i) => CloseAndNotifyInv(s, i, GAVE_UP);
    case AttemptFailed(_) => NewFlagsInv(s, Step(s, e).conn);
    case LoopEnds(_) => NewFlagsInv(s, Step(s, e).conn);
    case UserDisconnect => NewFlagsInv(s, Step(s, e).conn);
  }

  lemma StepKeepsInv(s: State, e: Event)
    requires Inv(s) && Enabled(s, e)
    ensures Inv(Step(s, e))
  {
    if OfCall(e) { CallEventInv(s, e); }
    else if OfSession(e) { SessionEventInv(s, e); }
    else { ConnectionEventInv(s, e); }
  }

  // ---------------------------------------------------------------- runs

  ghost predicate IsRun(s: State, es: seq<Event>)
    decreases |es|
  {
    es == [] || (Enabled(s, es[0]) && IsRun(Step(s, es[0]), es[1..]))
  }

  ghost function Run(s: State, es: seq<Event>): State
    requires IsRun(s, es)
    decreases |es|
  {
    if es == [] then s else Run(Step(s, es[0]), es[1..])
  }

  lemma {:induction false} RunKeepsInv(s: State, es: seq<Event>)
    requires Inv(s) && IsRun(s, es)
    ensures Inv(Run(s, es))
    decreases |es|
  {
    if es != [] {
      StepKeepsInv(s, es[0]);
      RunKeepsInv(Step(s, es[0]), es[1..]);
    }
  }
}
