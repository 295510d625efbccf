/**
 The life of a session, of a call's record and of a timer, told as three tables: which event makes,
 changes or removes a session, what it writes into the record of a call, and what it does to the
 timer. Nothing here names the functions that compute the tables; each table holds of every event
 in every state the invariant allows.
 */
module SessionTables {
  import opened Wrappers
  import opened SessionState
  import opened SessionRuns

  // ---------------------------------------------------------------- sessions

  // A session goes in one step exactly by one of these events.
  predicate Vanishes(s: State, e: Event, k: string)
    requires k in s.store
  {
    var session := s.store[k];
    match e
    case SendOk(sid) =>
      k == sid && sid in s.calls && !s.calls[sid].promise && !s.calls[sid].nested && !session.live && !session.promise
    case ReplyResolve(sid, _) => k == sid && session.promise
    case ReplyReject(sid, _) => k == sid && session.promise
    case TimerFires(sid) => k == sid
    case PeerMissing(named, peer, _) => named == Some(k) || (peer != "" && session.target == Some(peer))
    case ClientGone(client) => session.target == Some(client)
    case Connected(manager) =>
      && !s.conn.silent && manager.Some? && manager.value != ""
      && s.conn.manager.Some? && s.conn.manager != manager
      && session.target == Some("*/" + s.conn.manager.value)
    case Sweep(now) => !session.promise && session.stamp.Some? && now > session.stamp.value + 600
    case SocketLost(_, _) => session.promise && (!s.conn.reconnect || s.conn.closed)
    case ListenEnds(_) => session.promise && (!s.conn.reconnect || s.conn.closed)
    case LoopRefused(_, _) => session.promise
    case LoopGaveUp(_) => session.promise
    case _ => false
  }

  // What stays of a session that does not go.
  function Stays(e: Event, k: string, session: Session): Session {
    match e
    case Touch(sid, now) => if sid == k then session.(stamp := Some(now)) else session
    case HeartbeatMsg(sid, now) => if sid == k && session.promise then session.(stamp := Some(now)) else session
    case CallNested(_, parent, _) => if parent == k then session.(live := true) else session
    case _ => session
  }

  // A new session.
  function Made(e: Event, k: string): Option<Session> {
    match e
    case CallPromise(sid, target, live, now) =>
      if sid == k then Some(Session(Some(target), true, live, Some(now))) else None
    case CallForget(sid, target, live, now) =>
      if sid == k then Some(Session(Some(target), false, live, Some(now))) else None
    case CallNested(_, parent, _) => if parent == k then Some(Session(None, false, true, None)) else None
    case _ => None
  }

  // The store after one event, key by key.
  ghost predicate Evolves(s: State, e: Event, r: State, k: string) {
    if k in s.store then
      (k in r.store <==> !Vanishes(s, e, k)) && (k in r.store ==> r.store[k] == Stays(e, k, s.store[k]))
    else
      (k in r.store <==> Made(e, k).Some?) && (k in r.store ==> Made(e, k) == Some(r.store[k]))
  }

  lemma CallEventEvolves(s: State, e: Event, k: string)
    requires Inv(s) && Enabled(s, e) && OfCall(e)
    ensures Evolves(s, e, Step(s, e), k)
  {
  }

  lemma PeerMissingEvolves(s: State, e: Event, k: string)
    requires Inv(s) && Enabled(s, e) && e.PeerMissing?
    ensures Evolves(s, e, Step(s, e), k)
  {
    if e.session.Some? && e.session.value in s.store {
      var d := RemoveNamed(s, e.session.value, e.error);
      RemoveNamedInv(s, e.session.value, e.error);
      assert d.store == s.store - {e.session.value};
      CleanupEvolves(d, e.peer, k);
    } else {
      CleanupEvolves(s, e.peer, k);
    }
  }

  // The clean-up of one target, through the index.
  lemma CleanupEvolves(s: State, client: string, k: string)
    requires Inv(s)
    ensures k in CleanupByIndex(s, client).store <==> k in s.store && s.store[k].target != Some(client)
    ensures k in CleanupByIndex(s, client).store ==> CleanupByIndex(s, client).store[k] == s.store[k]
  {
  }

  lemma SessionEventEvolves(s: State, e: Event, k: string)
    requires Inv(s) && Enabled(s, e) && OfSession(e)
    ensures Evolves(s, e, Step(s, e), k)
  {
    if e.PeerMissing? { PeerMissingEvolves(s, e, k); }
    else if e.ClientGone? { CleanupEvolves(s, e.client, k); }
    else if e.ReplyResolve? || e.ReplyReject? { assert PromiseSession(s, e.sid) ==> e.sid in s.calls; }
  }

  lemma ConnectionEventEvolves(s: State, e: Event, k: string)
    requires Inv(s) && Enabled(s, e) && !OfCall(e) && !OfSession(e)
    ensures Evolves(s, e, Step(s, e), k)
  {
    if e.Connected? && s.conn.manager.Some? { CleanupEvolves(s, ManagerTarget(s.conn.manager.value), k); }
  }

  // MAIN: which sessions an event makes, changes and removes, for every event and every key.
  lemma StoreEvolves(s: State, e: Event, k: string)
    requires Inv(s) && Enabled(s, e)
    ensures Evolves(s, e, Step(s, e), k)
  {
    if OfCall(e) { CallEventEvolves(s, e, k); }
    else if OfSession(e) { SessionEventEvolves(s, e, k); }
    else { ConnectionEventEvolves(s, e, k); }
  }

  // ---------------------------------------------------------------- calls

  // The record of a new call.
  function Begun(s: State, e: Event, k: string): Option<Call> {
    var idle := TimerState(false, NoTask);
    match e
    case CallPromise(sid, target, _, _) =>
      if sid == k then Some(Call(target, true, Pending, idle, Unsent, false, s.conn.closed)) else None
    case CallForget(sid, target, _, _) =>
      if sid == k then Some(Call(target, false, Pending, idle, Unsent, false, s.conn.closed)) else None
    case CallNested(sid, _, target) =>
      if sid == k then Some(Call(target, false, Pending, idle, Unsent, true, s.conn.closed)) else None
    case _ => None
  }

  // The records after one event: a new one for a new call, what was sent for an old one. A call that
  // has not been sent when the connection opens again is no longer doomed.
  ghost predicate RecordsFollow(s: State, e: Event, r: State, k: string) {
    if k !in s.calls then
      (k in r.calls <==> Begun(s, e, k).Some?) && (k in r.calls ==> Begun(s, e, k) == Some(r.calls[k]))
    else
      && k in r.calls
      && var c := r.calls[k];
      && c.target == s.calls[k].target && c.promise == s.calls[k].promise && c.nested == s.calls[k].nested
      && c.sent == (if e == SendOk(k) then SentOk else if e == SendFail(k) then SentFailed else s.calls[k].sent)
      && (c.doomed <==> s.calls[k].doomed && !(e.Opened? && s.calls[k].sent.Unsent?))
  }

  predicate Begins(e: Event) { e.CallPromise? || e.CallForget? || e.CallNested? }

  lemma BeginRecords(s: State, e: Event, k: string)
    requires Enabled(s, e) && Begins(e)
    ensures RecordsFollow(s, e, Step(s, e), k)
  {
  }

  lemma SendOkRecords(s: State, e: Event, k: string)
    requires Enabled(s, e) && e.SendOk?
    ensures RecordsFollow(s, e, Step(s, e), k)
  {
  }

  lemma SendFailRecords(s: State, e: Event, k: string)
    requires Enabled(s, e) && e.SendFail?
    ensures RecordsFollow(s, e, Step(s, e), k)
  {
  }

  lemma TimerRecords(s: State, e: Event, k: string)
    requires Enabled(s, e) && e.TimerFires?
    ensures RecordsFollow(s, e, Step(s, e), k)
  {
  }

  lemma OwnRecords(s: State, e: Event, k: string)
    requires Enabled(s, e) && (e.SendOk? || e.SendFail? || e.TimerFires?)
    ensures RecordsFollow(s, e, Step(s, e), k)
  {
    if e.SendOk? { SendOkRecords(s, e, k); }
    else if e.SendFail? { SendFailRecords(s, e, k); }
    else { TimerRecords(s, e, k); }
  }

  // A clean-up settles calls and stops timers, and writes nothing else.
  predicate SameRecord(c: Call, d: Call) { c.(outcome := d.outcome, timer := d.timer) == d }

  lemma CleanupRecords(s: State, client: string, k: string)
    ensures var r := CleanupByIndex(s, client).calls; k in r <==> k in s.calls
    ensures var r := CleanupByIndex(s, client).calls; k in r ==> SameRecord(r[k], s.calls[k])
  {
  }

  lemma NamedRecords(s: State, key: string, error: string, k: string)
    ensures var r := RemoveNamed(s, key, error).calls; k in r <==> k in s.calls
    ensures var r := RemoveNamed(s, key, error).calls; k in r ==> SameRecord(r[k], s.calls[k])
  {
  }

  lemma PeerMissingRecords(s: State, e: Event, k: string)
    requires Enabled(s, e) && e.PeerMissing?
    ensures RecordsFollow(s, e, Step(s, e), k)
  {
    if e.session.Some? && e.session.value in s.store {
      NamedRecords(s, e.session.value, e.error, k);
      CleanupRecords(RemoveNamed(s, e.session.value, e.error), e.peer, k);
    } else {
      CleanupRecords(s, e.peer, k);
    }
  }

  lemma SessionEventRecords(s: State, e: Event, k: string)
    requires Enabled(s, e) && OfSession(e)
    ensures RecordsFollow(s, e, Step(s, e), k)
  {
    if e.PeerMissing? { PeerMissingRecords(s, e, k); }
  }

  // The losses that may reject everything.
  predicate MayReject(e: Event) { e.SocketLost? || e.ListenEnds? || e.LoopRefused? || e.LoopGaveUp? }

  lemma LossRecords(s: State, e: Event, k: string)
    requires Enabled(s, e) && MayReject(e)
    ensures RecordsFollow(s, e, Step(s, e), k)
  {
  }

  lemma ConnectionEventRecords(s: State, e: Event, k: string)
    requires Enabled(s, e) && !OfCall(e) && !OfSession(e) && !MayReject(e)
    ensures RecordsFollow(s, e, Step(s, e), k)
  {
    if e.Connected? && s.conn.manager.Some? { CleanupRecords(s, "*/" + s.conn.manager.value, k); }
  }

  // MAIN: what an event writes into the record of a call, for every event and every call.
  lemma CallsFollow(s: State, e: Event, k: string)
    requires Enabled(s, e)
    ensures RecordsFollow(s, e, Step(s, e), k)
  {
    if Begins(e) { BeginRecords(s, e, k); }
    else if OfCall(e) { OwnRecords(s, e, k); }
    else if OfSession(e) { SessionEventRecords(s, e, k); }
    else if MayReject(e) { LossRecords(s, e, k); }
    else { ConnectionEventRecords(s, e, k); }
  }

  // ---------------------------------------------------------------- timers

  // The timer of call k waits from the beginning again.
  predicate Restarts(s: State, e: Event, k: string)
    requires k in s.calls
  {
    match e
    case SendOk(sid) => k == sid && s.calls[k].promise
    case HeartbeatMsg(sid, _) => k == sid && k in s.store && s.store[k].promise
    case ChunkBeat(sid) => k == sid && k in s.store && s.store[k].promise
    case _ => false
  }

  // It stops: the call failed to be sent, timed out, or lost its session.
  predicate Stops(s: State, e: Event, k: string)
    requires k in s.calls
  {
    e == SendFail(k) || e == TimerFires(k) || (k in s.store && s.store[k].promise && Vanishes(s, e, k))
  }

  ghost predicate TimerFollows(s: State, e: Event, r: State, k: string)
    requires k in s.calls
  {
    && k in r.calls
    && (Restarts(s, e, k) ==> r.calls[k].timer.started && r.calls[k].timer.task.Waiting?)
    && (Stops(s, e, k) ==> !r.calls[k].timer.task.Waiting?)
    && (!Restarts(s, e, k) && !Stops(s, e, k) ==> r.calls[k].timer == s.calls[k].timer)
  }

  lemma CallEventTimer(s: State, e: Event, k: string)
    requires Inv(s) && Enabled(s, e) && OfCall(e) && k in s.calls
    ensures TimerFollows(s, e, Step(s, e), k)
  {
    assert CallOk(s, k);
  }

  lemma CleanupTimer(s: State, client: string, k: string)
    requires Inv(s) && k in s.calls
    ensures var r := CleanupByIndex(s, client);
      && k in r.calls
      && (PromiseSession(s, k) && s.store[k].target == Some(client) ==> !r.calls[k].timer.task.Waiting?)
      && (!(PromiseSession(s, k) && s.store[k].target == Some(client)) ==> r.calls[k] == s.calls[k])
  {
    assert CallOk(s, k);
  }

  lemma NamedTimer(s: State, key: string, error: string, k: string)
    requires Inv(s) && key in s.store && k in s.calls
    ensures var r := RemoveNamed(s, key, error);
      && k in r.calls
      && (PromiseSession(s, k) && k == key ==> !r.calls[k].timer.task.Waiting?)
      && (!(PromiseSession(s, k) && k == key) ==> r.calls[k] == s.calls[k])
  {
    assert CallOk(s, k);
  }

  lemma PeerMissingTimer(s: State, e: Event, k: string)
    requires Inv(s) && Enabled(s, e) && e.PeerMissing? && k in s.calls
    ensures TimerFollows(s, e, Step(s, e), k)
  {
    if e.session.Some? && e.session.value in s.store {
      var d := RemoveNamed(s, e.session.value, e.error);
      RemoveNamedInv(s, e.session.value, e.error);
      NamedTimer(s, e.session.value, e.error, k);
      assert d.store == s.store - {e.session.value};
      CleanupTimer(d, e.peer, k);
    } else {
      CleanupTimer(s, e.peer, k);
    }
  }

  lemma ReplyTimer(s: State, e: Event, k: string)
    requires Inv(s) && Enabled(s, e) && (e.ReplyResolve? || e.ReplyReject?) && k in s.calls
    ensures TimerFollows(s, e, Step(s, e), k)
  {
    assert CallOk(s, k);
  }

  lemma SessionEventTimer(s: State, e: Event, k: string)
    requires Inv(s) && Enabled(s, e) && OfSession(e) && k in s.calls
    ensures TimerFollows(s, e, Step(s, e), k)
  {
    if e.PeerMissing? { PeerMissingTimer(s, e, k); }
    else if e.ClientGone? { CleanupTimer(s, e.client, k); }
    else if e.ReplyResolve? || e.ReplyReject? { ReplyTimer(s, e, k); }
    else { assert CallOk(s, k); }
  }

  lemma ConnectionEventTimer(s: State, e: Event, k: string)
    requires Inv(s) && Enabled(s, e) && !OfCall(e) && !OfSession(e) && k in s.calls
    ensures TimerFollows(s, e, Step(s, e), k)
  {
    assert CallOk(s, k);
    if e.Connected? && s.conn.manager.Some? { CleanupTimer(s, ManagerTarget(s.conn.manager.value), k); }
  }

  // MAIN: what an event does to the timer of a call, for every event and every call.
  lemma TimersFollow(s: State, e: Event, k: string)
    requires Inv(s) && Enabled(s, e) && k in s.calls
    ensures TimerFollows(s, e, Step(s, e), k)
  {
    if OfCall(e) { CallEventTimer(s, e, k); }
    else if OfSession(e) { SessionEventTimer(s, e, k); }
    else { ConnectionEventTimer(s, e, k); }
  }
}
