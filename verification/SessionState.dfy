/**
 The state of one RPC client as far as pending calls are concerned, and the
 effect of every event on it: `_object_store` (its sessions), `_target_id_index`,
 the future and the timer of each call, and the flags of the connection.

 Promise sessions are top-level, so a session is a record here; the nested
 containers of the same store are the subject of ObjectStore.dfy.
 */
module SessionState {
  import opened Wrappers

  // The futures of the calls. `resolve` and `reject` ignore a future that is done.
  datatype Error =
    | SendError
    | TimeoutError
    | ConnectionError(reason: string)
    | RemoteError(payload: string)

  datatype Outcome = Pending | Resolved(payload: string) | Rejected(error: Error)

  // `Timer._task`: absent, waiting for the timeout, or finished after firing.
  datatype Task = NoTask | Waiting | Finished

  datatype TimerState = TimerState(started: bool, task: Task)

  const IDLE := TimerState(false, NoTask)
  const RUNNING := TimerState(true, Waiting)

  datatype Sent = Unsent | SentOk | SentFailed

  // `nested`: made under a parent session. `doomed`: the call was made while the connection was
  // closed, so that emit_message can only raise for it.
  datatype Call = Call(
    target: string,
    promise: bool,
    outcome: Outcome,
    timer: TimerState,
    sent: Sent,
    nested: bool,
    doomed: bool)

  // `promise`: the entries resolve, reject, heartbeat, timer and _promise_manager,
  // which _encode_promise writes together. `live`: a callable or a nested dict.
  // `stamp`: _last_activity_at.
  datatype Session = Session(target: Option<string>, promise: bool, live: bool, stamp: Option<int>)

  type Store = map<string, Session>
  type Index = map<string, set<string>>
  type Calls = map<string, Call>

  // `notified`: on_connection_lost has run since `_closed` was set.
  // `loops`: the retry counters of the running reconnect loops. `silent`: set once, for the client.
  datatype Conn = Conn(
    reconnect: bool,
    closed: bool,
    notified: bool,
    loops: seq<nat>,
    manager: Option<string>,
    silent: bool)

  datatype State = State(store: Store, index: Index, calls: Calls, conn: Conn)

  const SESSION_TTL := 600

  // `2 ** retry` no longer converts to a float from this retry on (see ReconnectLoop).
  const FLOAT_LIMIT := 1024
  const MAX_RETRY := 1000000

  // ---------------------------------------------------------------- futures and timers

  function Settle(c: Call, o: Outcome): Call {
    if c.outcome.Pending? then c.(outcome := o) else c
  }

  function Start(t: TimerState): TimerState {
    if !t.started then RUNNING else Reset(t)
  }

  function Clear(t: TimerState): TimerState {
    if t.task != NoTask && t.started then IDLE else t
  }

  function Reset(t: TimerState): TimerState {
    if t.task.NoTask? then RUNNING else t.(task := Waiting)
  }

  // What every wrapped resolve/reject does to the call: settle it, stop its timer.
  function Conclude(c: Call, o: Outcome): Call {
    Settle(c, o).(timer := if c.timer.started then Clear(c.timer) else c.timer)
  }

  function ConcludeAll(calls: Calls, sids: set<string>, o: Outcome): Calls {
    map k | k in calls :: if k in sids then Conclude(calls[k], o) else calls[k]
  }

  // ---------------------------------------------------------------- the index

  function AddToIndex(index: Index, target: string, key: string): Index {
    index[target := (if target in index then index[target] else {}) + {key}]
  }

  // `_remove_from_target_id_index`: reads the target from the store.
  function RemoveFromIndex(store: Store, index: Index, key: string): Index {
    if key in store && store[key].target.Some? && store[key].target.value != "" && store[key].target.value in index then
      var t := store[key].target.value;
      var rest := index[t] - {key};
      if rest == {} then index - {t} else index[t := rest]
    else index
  }

  // The net effect of RemoveFromIndex on several keys of the store.
  function Gone(store: Store, keys: set<string>, target: string): set<string> {
    set k | k in keys && k in store && target != "" && store[k].target == Some(target)
  }

  function RemoveAllFromIndex(store: Store, index: Index, keys: set<string>): Index {
    map t | t in index && (index[t] - Gone(store, keys, t) != {} || Gone(store, keys, t) == {}) ::
      index[t] - Gone(store, keys, t)
  }

  // ---------------------------------------------------------------- sessions

  function DeleteSession(s: State, key: string): State {
    s.(index := RemoveFromIndex(s.store, s.index, key), store := s.store - {key})
  }

  predicate PromiseSession(s: State, key: string) {
    key in s.store && s.store[key].promise
  }

  // A wrapped resolve or reject of session `key` is called.
  function WrappedCallback(s: State, key: string, o: Outcome): State {
    if PromiseSession(s, key) && key in s.calls then
      DeleteSession(s.(calls := s.calls[key := Conclude(s.calls[key], o)]), key)
    else s
  }

  function ClearTimer(s: State, key: string): State {
    if PromiseSession(s, key) && key in s.calls && s.calls[key].timer.started then
      s.(calls := s.calls[key := s.calls[key].(timer := Clear(s.calls[key].timer))])
    else s
  }

  // `_cleanup_session_entry`; an empty reason is falsy and rejects nothing.
  function CleanupEntry(s: State, key: string, reason: string): State {
    if reason != "" && PromiseSession(s, key)
    then WrappedCallback(s, key, Rejected(ConnectionError(reason)))
    else ClearTimer(s, key)
  }

  function PromiseKeys(s: State, keys: set<string>): set<string> {
    set k | k in keys && PromiseSession(s, k)
  }

  // The keys that the index lists for `client` and that really have that target.
  function IndexedSessions(s: State, client: string): set<string> {
    if client in s.index then set k | k in s.index[client] && k in s.store && s.store[k].target == Some(client) else {}
  }

  function ClientReason(client: string): string { "Client disconnected: " + client }

  function LostReason(reason: string): string {
    "Connection lost: " + if reason == "" then "unknown reason" else reason
  }

  // `_cleanup_sessions_for_client`, through the index.
  function CleanupByIndex(s: State, client: string): State {
    var hit := IndexedSessions(s, client);
    s.(store := s.store - hit,
       index := s.index - {client},
       calls := ConcludeAll(s.calls, PromiseKeys(s, hit), Rejected(ConnectionError(ClientReason(client)))))
  }

  // `_reject_pending_calls`.
  function RejectAll(s: State, reason: string): State {
    var hit := PromiseKeys(s, s.store.Keys);
    s.(store := s.store - hit,
       index := RemoveAllFromIndex(s.store, s.index, hit),
       calls := ConcludeAll(s.calls, hit, Rejected(ConnectionError(reason))))
  }

  // `on_connection_lost`: pending calls are kept while a reconnect may still succeed.
  function ConnectionLost(s: State, reason: string): State {
    if s.conn.reconnect && !s.conn.closed then s
    else
      var r := RejectAll(s, LostReason(reason));
      r.(conn := r.conn.(notified := true))
  }

  predicate Expired(session: Session, now: int) {
    session.stamp.Some? && now - session.stamp.value > SESSION_TTL && !session.promise
  }

  // One sweep of `_session_gc_loop`: sessions with a promise are always skipped.
  function GcSweep(s: State, now: int): State {
    var dead := set k | k in s.store && Expired(s.store[k], now);
    s.(store := s.store - dead, index := RemoveAllFromIndex(s.store, s.index, dead))
  }

  function TouchSession(s: State, key: string, now: int): State {
    if key in s.store then s.(store := s.store[key := s.store[key].(stamp := Some(now))]) else s
  }

  // The first half of `_handle_peer_not_found`: the session named in the message.
  // Its index entry is looked up after the deletion, so it is not found any more.
  function RemoveNamed(s: State, key: string, error: string): State {
    var c := CleanupEntry(s, key, error);
    var d := c.(store := c.store - {key});
    d.(index := RemoveFromIndex(d.store, d.index, key))
  }

  // `_handle_peer_not_found`: the session named in the message, then the peer's others.
  function PeerNotFound(s: State, session: Option<string>, peer: string, error: string): State {
    var s1 := if session.Some? && session.value in s.store then RemoveNamed(s, session.value, error) else s;
    if peer != "" then CleanupByIndex(s1, peer) else s1
  }

  // ---------------------------------------------------------------- calls

  function NewCall(s: State, target: string, promise: bool, nested: bool): Call {
    Call(target, promise, Pending, IDLE, Unsent, nested, s.conn.closed)
  }

  // `RemoteFunction.__call__` up to the creation of the emit task.
  function BeginCall(s: State, sid: string, target: string, promise: bool, live: bool, now: int): State {
    s.(store := s.store[sid := Session(Some(target), promise, live, Some(now))],
       index := AddToIndex(s.index, target, sid),
       calls := s.calls[sid := NewCall(s, target, promise, false)])
  }

  // The same for a nested session id: the parent is created when it is gone, without
  // a target, and is indexed under the target of the nested call.
  function BeginNested(s: State, sid: string, parent: string, target: string): State {
    var p := if parent in s.store then s.store[parent].(live := true) else Session(None, false, true, None);
    s.(store := s.store[parent := p],
       index := AddToIndex(s.index, target, parent),
       calls := s.calls[sid := NewCall(s, target, false, true)])
  }

  // `handle_result` after the emit task finished.
  function SendSucceeded(s: State, sid: string): State
    requires sid in s.calls
  {
    var c := s.calls[sid].(sent := SentOk);
    if c.promise then
      s.(calls := s.calls[sid := c.(timer := Start(c.timer))])
    else
      var s1 := s.(calls := s.calls[sid := Settle(c, Resolved(""))]);
      if !c.nested && sid in s1.store && !s1.store[sid].live && !s1.store[sid].promise then DeleteSession(s1, sid)
      else s1
  }

  // The send failed: the raw `reject` settles the future, the session stays.
  function SendFailedStep(s: State, sid: string): State
    requires sid in s.calls
  {
    var c := s.calls[sid].(sent := SentFailed);
    s.(calls := s.calls[sid := Conclude(c, Rejected(SendError))])
  }

  // `timeout_callback`, after the timer's task finished waiting.
  function TimerExpired(s: State, sid: string): State
    requires sid in s.calls
  {
    var c := Settle(s.calls[sid], Rejected(TimeoutError)).(timer := TimerState(s.calls[sid].timer.started, Finished));
    var s1 := s.(calls := s.calls[sid := c]);
    if sid in s1.store then DeleteSession(ClearTimer(s1, sid), sid) else s1
  }

  function Reply(s: State, sid: string, o: Outcome): State {
    WrappedCallback(s, sid, o)
  }

  // The timer of the session is reset, if it has one.
  function ResetTimer(s: State, sid: string): State {
    if PromiseSession(s, sid) && sid in s.calls then
      s.(calls := s.calls[sid := s.calls[sid].(timer := Reset(s.calls[sid].timer))])
    else s
  }

  // The heartbeat callback; the incoming call marks the session as active.
  function Heartbeat(s: State, sid: string, now: int): State {
    if PromiseSession(s, sid) && sid in s.calls then TouchSession(ResetTimer(s, sid), sid, now) else s
  }

  function ManagerTarget(manager: string): string { "*/" + manager }

  // `on_connected` with the manager id of the new connection.
  function ManagerSeen(s: State, manager: Option<string>): State {
    if s.conn.silent || manager.None? || manager.value == "" then s
    else
      var last := s.conn.manager;
      var s1 := if last.Some? && last != manager then CleanupByIndex(s, ManagerTarget(last.value)) else s;
      s1.(conn := s1.conn.(manager := manager))
  }

  // ---------------------------------------------------------------- events

  datatype Event =
    | CallPromise(sid: string, target: string, live: bool, now: int)
    | CallForget(sid: string, target: string, live: bool, now: int)
    | CallNested(sid: string, parent: string, target: string)
    | SendOk(sid: string)
    | SendFail(sid: string)
    | ReplyResolve(sid: string, payload: string)
    | ReplyReject(sid: string, payload: string)
    | HeartbeatMsg(sid: string, now: int)
    | ChunkBeat(sid: string)
    | Touch(sid: string, now: int)
    | TimerFires(sid: string)
    | PeerMissing(session: Option<string>, peer: string, error: string)
    | ClientGone(client: string)
    | Connected(manager: Option<string>)
    | Sweep(now: int)
    // the connection
    | Opened
    | SocketLost(reason: string, seed: nat)
    | AttemptFailed(loop: nat)
    | LoopEnds(loop: nat)
    | LoopRefused(loop: nat, reason: string)
    | LoopGaveUp(loop: nat)
    | UserDisconnect
    | ListenEnds(reason: string)

  function WithoutLoop(loops: seq<nat>, i: nat): seq<nat>
    requires i < |loops|
  {
    loops[..i] + loops[i + 1..]
  }

  const REFUSED := "Server refused reconnection: "
  const GAVE_UP := "Max reconnection attempts exceeded"

  // The loop sets `_closed` and notifies the RPC layer in one atomic step.
  function CloseAndNotify(s: State, i: nat, reason: string): State
    requires i < |s.conn.loops|
  {
    ConnectionLost(s.(conn := s.conn.(closed := true, loops := WithoutLoop(s.conn.loops, i))), reason)
  }

  // `_listen` resets `_closed`: calls not yet emitted can be sent again.
  function Reopen(s: State): State {
    s.(conn := s.conn.(reconnect := true, closed := false, notified := false),
       calls := map k | k in s.calls :: if s.calls[k].sent.Unsent? then s.calls[k].(doomed := false) else s.calls[k])
  }

  // When an event can happen. A session id is fresh (a uuid); a send is reported once;
  // a reply or a heartbeat answers a message that could be sent; a timer fires while it waits.
  predicate Enabled(s: State, e: Event) {
    match e
    case CallPromise(sid, _, _, _) => sid !in s.calls && sid !in s.store
    case CallForget(sid, _, _, _) => sid !in s.calls && sid !in s.store
    case CallNested(sid, parent, _) => sid !in s.calls && sid !in s.store && sid != parent
    case SendOk(sid) => sid in s.calls && s.calls[sid].sent.Unsent? && !s.calls[sid].doomed
    case SendFail(sid) => sid in s.calls && s.calls[sid].sent.Unsent?
    case ReplyResolve(sid, _) => sid in s.calls ==> !s.calls[sid].doomed
    case ReplyReject(sid, _) => sid in s.calls ==> !s.calls[sid].doomed
    case HeartbeatMsg(sid, _) => sid in s.calls ==> !s.calls[sid].doomed
    case ChunkBeat(sid) => sid in s.calls ==> !s.calls[sid].doomed
    case TimerFires(sid) => sid in s.calls && s.calls[sid].timer.task.Waiting?
    case AttemptFailed(i) => i < |s.conn.loops| && s.conn.loops[i] < FLOAT_LIMIT
    case LoopEnds(i) => i < |s.conn.loops|
    case LoopRefused(i, _) => i < |s.conn.loops|
    case LoopGaveUp(i) => i < |s.conn.loops| && s.conn.loops[i] >= MAX_RETRY && !s.conn.closed
    case SocketLost(_, seed) => !s.conn.closed && seed <= FLOAT_LIMIT
    case _ => true
  }

  function Step(s: State, e: Event): State
    requires Enabled(s, e)
  {
    match e
    case CallPromise(sid, target, live, now) => BeginCall(s, sid, target, true, live, now)
    case CallForget(sid, target, live, now) => BeginCall(s, sid, target, false, live, now)
    case CallNested(sid, parent, target) => BeginNested(s, sid, parent, target)
    case SendOk(sid) => SendSucceeded(s, sid)
    case SendFail(sid) => SendFailedStep(s, sid)
    case ReplyResolve(sid, payload) => Reply(s, sid, Resolved(payload))
    case ReplyReject(sid, payload) => Reply(s, sid, Rejected(RemoteError(payload)))
    case HeartbeatMsg(sid, now) => Heartbeat(s, sid, now)
    case ChunkBeat(sid) => ResetTimer(s, sid)
    case Touch(sid, now) => TouchSession(s, sid, now)
    case TimerFires(sid) => TimerExpired(s, sid)
    case PeerMissing(session, peer, error) => PeerNotFound(s, session, peer, error)
    case ClientGone(client) => CleanupByIndex(s, client)
    case Connected(manager) => ManagerSeen(s, manager)
    case Sweep(now) => GcSweep(s, now)
    case Opened => Reopen(s)
    case SocketLost(reason, seed) =>
      var s1 := ConnectionLost(s, reason);
      s1.(conn := s1.conn.(loops := s1.conn.loops + [seed]))
    case AttemptFailed(i) => s.(conn := s.conn.(loops := s.conn.loops[i := s.conn.loops[i] + 1]))
    case LoopEnds(i) => s.(conn := s.conn.(loops := WithoutLoop(s.conn.loops, i)))
    case LoopRefused(i, reason) => CloseAndNotify(s, i, REFUSED + reason)
    case LoopGaveUp(i) => CloseAndNotify(s, i, GAVE_UP)
    case UserDisconnect => s.(conn := s.conn.(closed := true, notified := false))
    case ListenEnds(reason) => ConnectionLost(s, reason)
  }

  function Initial(silent: bool): State {
    State(map[], map[], map[], Conn(false, false, false, [], None, silent))
  }
}
