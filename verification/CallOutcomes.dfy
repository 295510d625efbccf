/**
 How calls end. The outcome of a call is decided by the first event that can end it, whatever
 the bookkeeping went through; and what is left of a call whose session was taken away.
 */
module CallOutcomes {
  import opened Wrappers
  import opened SessionState
  import opened SessionRuns

  // ---------------------------------------------------------------- what ends a call

  predicate LossRejects(conn: Conn) {
    !conn.reconnect || conn.closed
  }

  // All that matters about an unsettled call. `orphan`: it expects a reply and its session is gone.
  datatype Fate = Fate(target: string, promise: bool, orphan: bool)

  // The outcome an event gives to an unsettled call, told without store, index or timer.
  function Verdict(e: Event, sid: string, f: Fate, conn: Conn): Option<Outcome> {
    match e
    case SendOk(x) => if x == sid && !f.promise then Some(Resolved("")) else None
    case SendFail(x) => if x == sid then Some(Rejected(SendError)) else None
    case TimerFires(x) => if x == sid then Some(Rejected(TimeoutError)) else None
    case _ => if f.promise && !f.orphan then SessionVerdict(e, sid, f.target, conn) else None
  }

  // The text of a rejection by a clean-up, and of one by a loss of the connection.
  function Disconnected(client: string): Option<Outcome> {
    Some(Rejected(ConnectionError("Client disconnected: " + client)))
  }

  function Lost(reason: string): Option<Outcome> {
    Some(Rejected(ConnectionError("Connection lost: " + if reason == "" then "unknown reason" else reason)))
  }

  // What reaches a call through its session.
  function SessionVerdict(e: Event, sid: string, target: string, conn: Conn): Option<Outcome> {
    match e
    case ReplyResolve(x, payload) => if x == sid then Some(Resolved(payload)) else None
    case ReplyReject(x, payload) => if x == sid then Some(Rejected(RemoteError(payload))) else None
    case PeerMissing(x, peer, error) =>
      if x == Some(sid) then if error == "" then None else Some(Rejected(ConnectionError(error)))
      else if peer == target != "" then Disconnected(peer)
      else None
    case ClientGone(client) => if client == target then Disconnected(client) else None
    case Connected(manager) =>
      if !conn.silent && manager.Some? && manager.value != "" && conn.manager.Some? && conn.manager != manager
         && target == "*/" + conn.manager.value
      then Disconnected(target) else None
    case SocketLost(reason, _) => if LossRejects(conn) then Lost(reason) else None
    case ListenEnds(reason) => if LossRejects(conn) then Lost(reason) else None
    case LoopRefused(_, reason) => Lost("Server refused reconnection: " + reason)
    case LoopGaveUp(_) => Lost("Max reconnection attempts exceeded")
    case _ => None
  }

  // A peer_not_found message for this very call, without an error text.
  predicate Takes(e: Event, sid: string) {
    e.PeerMissing? && e.session == Some(sid) && e.error == ""
  }

  function NextFate(f: Fate, e: Event, sid: string): Fate {
    f.(orphan := f.orphan || (f.promise && Takes(e, sid)))
  }

  function After(o: Outcome, verdict: Option<Outcome>): Outcome {
    if o.Pending? && verdict.Some? then verdict.value else o
  }

  ghost function FateOf(s: State, sid: string): Fate
    requires sid in s.calls
  {
    Fate(s.calls[sid].target, s.calls[sid].promise, Orphan(s, sid))
  }

  // From s to r the call sid gets this verdict, and if it stays unsettled, this fate.
  ghost predicate Goes(s: State, r: State, sid: string, verdict: Option<Outcome>, taken: bool)
    requires sid in s.calls
  {
    && sid in r.calls
    && r.calls[sid].target == s.calls[sid].target && r.calls[sid].promise == s.calls[sid].promise
    && r.calls[sid].outcome == After(s.calls[sid].outcome, verdict)
    && (r.calls[sid].outcome.Pending? ==> (Orphan(r, sid) <==> Orphan(s, sid) || (taken && s.calls[sid].promise)))
  }

  lemma CleanupVerdict(s: State, client: string, sid: string)
    requires Inv(s) && sid in s.calls
    ensures Goes(s, CleanupByIndex(s, client), sid,
              if PromiseSession(s, sid) && client == s.calls[sid].target
              then Some(Rejected(ConnectionError(ClientReason(client)))) else None, false)
  {
    assert CallOk(s, sid);
  }

  lemma RejectAllVerdict(s: State, reason: string, sid: string)
    requires PromisesOpen(s) && sid in s.calls && CallOk(s, sid)
    ensures Goes(s, RejectAll(s, reason), sid,
              if PromiseSession(s, sid) then Some(Rejected(ConnectionError(reason))) else None, false)
  {
  }

  lemma CallbackVerdict(s: State, x: string, o: Outcome, sid: string)
    requires Inv(s) && sid in s.calls && !o.Pending?
    ensures Goes(s, WrappedCallback(s, x, o), sid, if PromiseSession(s, sid) && x == sid then Some(o) else None, false)
  {
    assert CallOk(s, sid);
  }

  lemma RemoveNamedVerdict(s: State, x: string, error: string, sid: string)
    requires Inv(s) && sid in s.calls && x in s.store
    ensures Goes(s, RemoveNamed(s, x, error), sid,
              if PromiseSession(s, sid) && x == sid && error != ""
              then Some(Rejected(ConnectionError(error))) else None,
              x == sid && error == "")
  {
    if error != "" { CallbackVerdict(s, x, Rejected(ConnectionError(error)), sid); }
  }

  // What one event does to one call.
  ghost predicate Decides(s: State, e: Event, sid: string)
    requires Enabled(s, e) && sid in s.calls
  {
    Goes(s, Step(s, e), sid, Verdict(e, sid, FateOf(s, sid), s.conn), Takes(e, sid))
  }

  lemma NamedDecides(s: State, e: Event, sid: string)
    requires Inv(s) && sid in s.calls && e.PeerMissing? && e.session.Some? && e.session.value in s.store
    ensures Decides(s, e, sid)
  {
    assert CallOk(s, sid);
    var d := RemoveNamed(s, e.session.value, e.error);
    RemoveNamedInv(s, e.session.value, e.error);
    RemoveNamedVerdict(s, e.session.value, e.error, sid);
    CleanupVerdict(d, e.peer, sid);
  }

  lemma UnnamedDecides(s: State, e: Event, sid: string)
    requires Inv(s) && sid in s.calls && e.PeerMissing? && !(e.session.Some? && e.session.value in s.store)
    ensures Decides(s, e, sid)
  {
    assert CallOk(s, sid);
    CleanupVerdict(s, e.peer, sid);
  }

  lemma PeerNotFoundDecides(s: State, e: Event, sid: string)
    requires Inv(s) && sid in s.calls && e.PeerMissing?
    ensures Decides(s, e, sid)
  {
    if e.session.Some? && e.session.value in s.store { NamedDecides(s, e, sid); } else { UnnamedDecides(s, e, sid); }
  }

  // A client gone, or a new manager: the clean-up of one target.
  lemma CleanupDecides(s: State, e: Event, sid: string)
    requires Inv(s) && sid in s.calls && (e.ClientGone? || e.Connected?)
    ensures Decides(s, e, sid)
  {
    assert CallOk(s, sid);
    if e.ClientGone? {
      CleanupVerdict(s, e.client, sid);
    } else if s.conn.manager.Some? {
      CleanupVerdict(s, ManagerTarget(s.conn.manager.value), sid);
    }
  }

  lemma ReplyDecides(s: State, e: Event, sid: string)
    requires Inv(s) && Enabled(s, e) && sid in s.calls && (e.ReplyResolve? || e.ReplyReject?)
    ensures Decides(s, e, sid)
  {
    assert CallOk(s, sid);
    CallbackVerdict(s, e.sid, if e.ReplyResolve? then Resolved(e.payload) else Rejected(RemoteError(e.payload)), sid);
  }

  lemma LostDecides(s: State, e: Event, sid: string)
    requires Inv(s) && Enabled(s, e) && sid in s.calls && (e.SocketLost? || e.ListenEnds?)
    ensures Decides(s, e, sid)
  {
    assert CallOk(s, sid);
    RejectAllVerdict(s, LostReason(e.reason), sid);
  }

  lemma RefusedDecides(s: State, e: Event, sid: string)
    requires Inv(s) && Enabled(s, e) && sid in s.calls && e.LoopRefused?
    ensures Decides(s, e, sid)
  {
    assert CallOk(s, sid);
    var closed := s.(conn := s.conn.(closed := true, loops := WithoutLoop(s.conn.loops, e.loop)));
    assert PromiseSession(closed, sid) == PromiseSession(s, sid) && CallOk(closed, sid);
    RejectAllVerdict(closed, LostReason(REFUSED + e.reason), sid);
  }

  lemma SendOkDecides(s: State, e: Event, sid: string)
    requires Inv(s) && Enabled(s, e) && sid in s.calls && e.SendOk?
    ensures Decides(s, e, sid)
  {
    assert CallOk(s, sid);
    if s.calls[e.sid].promise { assert Step(s, e).store == s.store; }
  }

  lemma SendFailDecides(s: State, e: Event, sid: string)
    requires Inv(s) && Enabled(s, e) && sid in s.calls && e.SendFail?
    ensures Decides(s, e, sid)
  {
    assert CallOk(s, sid);
    assert Step(s, e).store == s.store;
  }

  lemma TimerDecides(s: State, e: Event, sid: string)
    requires Inv(s) && Enabled(s, e) && sid in s.calls && e.TimerFires?
    ensures Decides(s, e, sid)
  {
    assert CallOk(s, sid);
  }

  // The events that end no call and take no session.
  predicate Silent(e: Event) { BeginsCall(e) || KeepsSession(e) || OnlyFlags(e) }

  predicate BeginsCall(e: Event) { e.CallPromise? || e.CallForget? || e.CallNested? }

  predicate KeepsSession(e: Event) { e.HeartbeatMsg? || e.ChunkBeat? || e.Touch? || e.Sweep? }

  predicate OnlyFlags(e: Event) { e.Opened? || e.AttemptFailed? || e.LoopEnds? || e.UserDisconnect? }

  lemma BeginDecides(s: State, e: Event, sid: string)
    requires Inv(s) && Enabled(s, e) && sid in s.calls && BeginsCall(e)
    ensures Decides(s, e, sid)
  {
  }

  lemma KeepDecides(s: State, e: Event, sid: string)
    requires Inv(s) && Enabled(s, e) && sid in s.calls && KeepsSession(e)
    ensures Decides(s, e, sid)
  {
  }

  lemma FlagsDecide(s: State, e: Event, sid: string)
    requires Inv(s) && Enabled(s, e) && sid in s.calls && OnlyFlags(e)
    ensures Decides(s, e, sid)
  {
  }

  lemma SilentDecides(s: State, e: Event, sid: string)
    requires Inv(s) && Enabled(s, e) && sid in s.calls && Silent(e)
    ensures Decides(s, e, sid)
  {
    if BeginsCall(e) { BeginDecides(s, e, sid); }
    else if KeepsSession(e) { KeepDecides(s, e, sid); }
    else { FlagsDecide(s, e, sid); }
  }

  predicate Own(e: Event) { e.SendOk? || e.SendFail? || e.TimerFires? }

  lemma OwnDecides(s: State, e: Event, sid: string)
    requires Inv(s) && Enabled(s, e) && sid in s.calls && Own(e)
    ensures Decides(s, e, sid)
  {
    if e.SendOk? { SendOkDecides(s, e, sid); }
    else if e.SendFail? { SendFailDecides(s, e, sid); }
    else { TimerDecides(s, e, sid); }
  }

  // What comes from the peer, or from the server about it.
  predicate FromPeer(e: Event) {
    e.ReplyResolve? || e.ReplyReject? || e.PeerMissing? || e.ClientGone? || e.Connected?
  }

  lemma FromPeerDecides(s: State, e: Event, sid: string)
    requires Inv(s) && Enabled(s, e) && sid in s.calls && FromPeer(e)
    ensures Decides(s, e, sid)
  {
    if e.PeerMissing? { PeerNotFoundDecides(s, e, sid); }
    else if e.ClientGone? || e.Connected? { CleanupDecides(s, e, sid); }
    else { ReplyDecides(s, e, sid); }
  }

  lemma LossDecides(s: State, e: Event, sid: string)
    requires Inv(s) && Enabled(s, e) && sid in s.calls
    requires e.SocketLost? || e.ListenEnds? || e.LoopRefused? || e.LoopGaveUp?
    ensures Decides(s, e, sid)
  {
    if e.LoopGaveUp? { assert false; }
    else if e.LoopRefused? { RefusedDecides(s, e, sid); }
    else { LostDecides(s, e, sid); }
  }

  // One step settles a call exactly as its verdict says, never touches a settled one, and
  // takes the session of an unsettled one only by the message for it without a text.
  lemma StepSettlesByVerdict(s: State, e: Event, sid: string)
    requires Inv(s) && Enabled(s, e) && sid in s.calls
    ensures Goes(s, Step(s, e), sid, Verdict(e, sid, FateOf(s, sid), s.conn), Takes(e, sid))
  {
    if Silent(e) { SilentDecides(s, e, sid); }
    else if Own(e) { OwnDecides(s, e, sid); }
    else if FromPeer(e) { FromPeerDecides(s, e, sid); }
    else { LossDecides(s, e, sid); }
  }

  // ---------------------------------------------------------------- over runs

  // The connection evolves by itself.
  function StepConn(conn: Conn, e: Event): Conn {
    match e
    case Connected(manager) =>
      if conn.silent || manager.None? || manager.value == "" then conn else conn.(manager := manager)
    case Opened => conn.(reconnect := true, closed := false, notified := false)
    case SocketLost(_, seed) =>
      var lost := if LossRejects(conn) then conn.(notified := true) else conn;
      lost.(loops := conn.loops + [seed])
    case ListenEnds(_) => if LossRejects(conn) then conn.(notified := true) else conn
    case AttemptFailed(i) => if i < |conn.loops| then conn.(loops := conn.loops[i := conn.loops[i] + 1]) else conn
    case LoopEnds(i) => if i < |conn.loops| then conn.(loops := WithoutLoop(conn.loops, i)) else conn
    case LoopRefused(i, _) =>
      if i < |conn.loops| then conn.(closed := true, notified := true, loops := WithoutLoop(conn.loops, i)) else conn
    case LoopGaveUp(i) =>
      if i < |conn.loops| then conn.(closed := true, notified := true, loops := WithoutLoop(conn.loops, i)) else conn
    case UserDisconnect => conn.(closed := true, notified := false)
    case _ => conn
  }

  lemma ConnectionEvolvesAlone(s: State, e: Event)
    requires Enabled(s, e)
    ensures Step(s, e).conn == StepConn(s.conn, e)
  {
  }

  // The verdict of the first event of a run that ends the call.
  function FirstVerdict(es: seq<Event>, sid: string, f: Fate, conn: Conn): Outcome {
    if es == [] then Pending
    else
      match Verdict(es[0], sid, f, conn)
      case Some(o) => o
      case None => FirstVerdict(es[1..], sid, NextFate(f, es[0], sid), StepConn(conn, es[0]))
  }

  // MAIN: over every interleaving, a call's outcome is the verdict of the first event that
  // ends it, and stays that for ever.
  lemma {:induction false} OutcomeIsFirstVerdict(s: State, es: seq<Event>, sid: string)
    requires Inv(s) && IsRun(s, es) && sid in s.calls
    ensures sid in Run(s, es).calls
    ensures Run(s, es).calls[sid].outcome
            == if s.calls[sid].outcome.Pending? then FirstVerdict(es, sid, FateOf(s, sid), s.conn)
               else s.calls[sid].outcome
    decreases |es|
  {
    if es != [] {
      StepKeepsInv(s, es[0]);
      StepSettlesByVerdict(s, es[0], sid);
      ConnectionEvolvesAlone(s, es[0]);
      OutcomeIsFirstVerdict(Step(s, es[0]), es[1..], sid);
    }
  }

  // In every reachable state a promise session belongs to an unsettled call or to a failed send.
  lemma StoredPromisesAreOpen(silent: bool, es: seq<Event>, key: string)
    requires IsRun(Initial(silent), es) && PromiseSession(Run(Initial(silent), es), key)
    ensures var r := Run(Initial(silent), es);
            key in r.calls && (r.calls[key].outcome.Pending? || r.calls[key].sent.SentFailed?)
  {
    InitialInv(silent);
    RunKeepsInv(Initial(silent), es);
  }

  // ---------------------------------------------------------------- stranded calls

  predicate Taken(es: seq<Event>, sid: string) {
    exists i | 0 <= i < |es| :: Takes(es[i], sid)
  }

  lemma TakenSplit(es: seq<Event>, sid: string)
    requires es != []
    ensures Taken(es, sid) <==> Takes(es[0], sid) || Taken(es[1..], sid)
  {
    if i :| 0 <= i < |es| && Takes(es[i], sid) {
      if i > 0 { assert Takes(es[1..][i - 1], sid); }
    }
    if i :| 0 <= i < |es[1..]| && Takes(es[1..][i], sid) { assert Takes(es[i + 1], sid); }
  }

  // MAIN: while a call with a session stays unsettled, it loses the session exactly when a
  // peer_not_found message for it comes without an error text.
  lemma {:induction false} SessionLostIffTaken(s: State, es: seq<Event>, sid: string)
    requires Inv(s) && IsRun(s, es) && sid in s.calls && s.calls[sid].promise
    requires sid in Run(s, es).calls && Run(s, es).calls[sid].outcome.Pending?
    ensures s.calls[sid].outcome.Pending?
    ensures Orphan(Run(s, es), sid) <==> Orphan(s, sid) || Taken(es, sid)
    decreases |es|
  {
    if es != [] {
      StepKeepsInv(s, es[0]);
      StepSettlesByVerdict(s, es[0], sid);
      TakenSplit(es, sid);
      SessionLostIffTaken(Step(s, es[0]), es[1..], sid);
    }
  }

  // Nothing will end this call: its message is out, its session gone, its timer stopped.
  ghost predicate Stranded(s: State, sid: string) {
    sid in s.calls && Orphan(s, sid) && s.calls[sid].sent.SentOk? && s.calls[sid].timer == IDLE
  }

  lemma StrandedStep(s: State, e: Event, sid: string)
    requires Inv(s) && Enabled(s, e) && Stranded(s, sid)
    ensures Stranded(Step(s, e), sid)
  {
    StepSettlesByVerdict(s, e, sid);
  }

  // MAIN: a stranded call is never settled, whatever happens afterwards.
  lemma {:induction false} StrandedForEver(s: State, es: seq<Event>, sid: string)
    requires Inv(s) && IsRun(s, es) && Stranded(s, sid)
    ensures Stranded(Run(s, es), sid)
    decreases |es|
  {
    if es != [] {
      StepKeepsInv(s, es[0]);
      StrandedStep(s, es[0], sid);
      StrandedForEver(Step(s, es[0]), es[1..], sid);
    }
  }

  // A message for an unsettled call deletes its session and stops its timer. It strands the
  // call exactly when it has no text and the call's message is out; a call not sent yet is
  // still ended by its send or, once sent, by the timer that then starts.
  lemma PeerErrorStrandsIff(s: State, sid: string, peer: string, error: string)
    requires Inv(s) && sid in s.calls && PromiseSession(s, sid) && s.calls[sid].outcome.Pending?
    ensures var r := Step(s, PeerMissing(Some(sid), peer, error));
            && sid in r.calls && sid !in r.store
            && (r.calls[sid].outcome.Pending? <==> error == "")
            && (Stranded(r, sid) <==> error == "" && s.calls[sid].sent.SentOk?)
            && !r.calls[sid].timer.task.Waiting?
  {
    assert CallOk(s, sid);
    PeerNotFoundDecides(s, PeerMissing(Some(sid), peer, error), sid);
  }

  lemma {:induction false} KindStays(s: State, es: seq<Event>, sid: string)
    requires Inv(s) && IsRun(s, es) && sid in s.calls
    ensures sid in Run(s, es).calls && Run(s, es).calls[sid].promise == s.calls[sid].promise
    decreases |es|
  {
    if es != [] {
      StepKeepsInv(s, es[0]);
      StepSettlesByVerdict(s, es[0], sid);
      KindStays(Step(s, es[0]), es[1..], sid);
    }
  }

  lemma NewCallsAreNoOrphans(s: State, e: Event, sid: string)
    requires Enabled(s, e) && sid !in s.calls && sid in Step(s, e).calls
    ensures !Orphan(Step(s, e), sid)
  {
  }

  lemma {:induction false} OrphansWereTaken(s: State, es: seq<Event>, sid: string)
    requires Inv(s) && IsRun(s, es) && sid !in s.calls
    requires sid in Run(s, es).calls && Orphan(Run(s, es), sid)
    ensures Taken(es, sid)
    decreases |es|
  {
    StepKeepsInv(s, es[0]);
    TakenSplit(es, sid);
    var r := Step(s, es[0]);
    if sid in r.calls {
      NewCallsAreNoOrphans(s, es[0], sid);
      KindStays(r, es[1..], sid);
      SessionLostIffTaken(r, es[1..], sid);
    } else {
      OrphansWereTaken(r, es[1..], sid);
    }
  }

  // MAIN: in every reachable state an unsettled call still waits to be sent, or has its session
  // and a running timer, or is one that a message without an error text was about.
  lemma NoCallIsStranded(silent: bool, es: seq<Event>, sid: string)
    requires IsRun(Initial(silent), es)
    requires var r := Run(Initial(silent), es); sid in r.calls && r.calls[sid].outcome.Pending?
    ensures var r := Run(Initial(silent), es); var c := r.calls[sid];
            || c.sent.Unsent?
            || (c.promise && PromiseSession(r, sid) && c.timer == RUNNING && Enabled(r, TimerFires(sid)))
            || (c.promise && Taken(es, sid))
  {
    InitialInv(silent);
    RunKeepsInv(Initial(silent), es);
    var r := Run(Initial(silent), es);
    assert CallOk(r, sid);
    if Orphan(r, sid) { OrphansWereTaken(Initial(silent), es, sid); }
  }

  // ---------------------------------------------------------------- late events

  // Once its session is gone, nothing but its own timer can still reach a call.
  lemma LateEventsAreIgnored(s: State, sid: string, payload: string, now: int)
    requires Inv(s) && sid !in s.store
    ensures Step(s, Touch(sid, now)) == s
    ensures Enabled(s, ReplyResolve(sid, payload)) ==> Step(s, ReplyResolve(sid, payload)) == s
    ensures Enabled(s, ReplyReject(sid, payload)) ==> Step(s, ReplyReject(sid, payload)) == s
    ensures Enabled(s, HeartbeatMsg(sid, now)) ==> Step(s, HeartbeatMsg(sid, now)) == s
    ensures Enabled(s, TimerFires(sid)) ==>
              var r := Step(s, TimerFires(sid));
              && r.store == s.store && r.index == s.index && r.conn == s.conn
              && r.calls.Keys == s.calls.Keys
              && (forall k | k in s.calls && k != sid :: r.calls[k] == s.calls[k])
              && (!s.calls[sid].outcome.Pending? ==> r.calls[sid].outcome == s.calls[sid].outcome)
  {
    if sid in s.calls { assert CallOk(s, sid); }
  }

  // ---------------------------------------------------------------- losing the connection

  // What happens while the server is away and reconnecting is under way, until it is back.
  predicate Outage(e: Event) {
    e.SocketLost? || e.ListenEnds? || e.AttemptFailed? || e.LoopEnds? || e.Opened?
  }

  // A run as it would have been without any outage.
  function Kept(es: seq<Event>): seq<Event> {
    if es == [] then [] else (if Outage(es[0]) then [] else [es[0]]) + Kept(es[1..])
  }

  // The connection is not given up: nobody disconnects, and no loop is refused or gives up.
  predicate Persists(es: seq<Event>) {
    forall e <- es :: !e.UserDisconnect? && !e.LoopRefused? && !e.LoopGaveUp?
  }

  ghost predicate Alike(conn: Conn, conn': Conn) {
    && conn.reconnect && !conn.closed && conn'.reconnect && !conn'.closed
    && conn.manager == conn'.manager && conn.silent == conn'.silent
  }

  lemma OutageVerdict(e: Event, sid: string, f: Fate, conn: Conn, conn': Conn)
    requires Alike(conn, conn') && Outage(e)
    ensures Verdict(e, sid, f, conn).None? && NextFate(f, e, sid) == f && Alike(StepConn(conn, e), conn')
  {
  }

  lemma OtherVerdict(e: Event, sid: string, f: Fate, conn: Conn, conn': Conn)
    requires Alike(conn, conn') && !Outage(e) && Persists([e])
    ensures Verdict(e, sid, f, conn) == Verdict(e, sid, f, conn')
    ensures Alike(StepConn(conn, e), StepConn(conn', e))
  {
    assert e in [e];
  }

  lemma {:induction false} OutagesDecideNothing(es: seq<Event>, sid: string, f: Fate, conn: Conn, conn': Conn)
    requires Alike(conn, conn') && Persists(es)
    ensures FirstVerdict(es, sid, f, conn) == FirstVerdict(Kept(es), sid, f, conn')
    decreases |es|
  {
    if es != [] {
      var e := es[0];
      assert e in es && forall x <- es[1..] :: x in es;
      if Outage(e) {
        OutageVerdict(e, sid, f, conn, conn');
        assert Kept(es) == Kept(es[1..]);
        OutagesDecideNothing(es[1..], sid, f, StepConn(conn, e), conn');
      } else {
        OtherVerdict(e, sid, f, conn, conn');
        assert Kept(es) == [e] + Kept(es[1..]) && Kept(es)[1..] == Kept(es[1..]);
        OutagesDecideNothing(es[1..], sid, NextFate(f, e, sid), StepConn(conn, e), StepConn(conn', e));
      }
    }
  }

  // MAIN: pending calls outlive every outage. In any run from a state that reconnects, with replies,
  // timers, new calls and lost sockets in any order, a call ends as the run without its outages
  // would end it, unless the connection is given up.
  lemma OutagesChangeNoOutcome(s: State, es: seq<Event>, sid: string)
    requires Inv(s) && IsRun(s, es) && sid in s.calls && s.calls[sid].outcome.Pending?
    requires s.conn.reconnect && !s.conn.closed && Persists(es)
    ensures sid in Run(s, es).calls
    ensures Run(s, es).calls[sid].outcome == FirstVerdict(Kept(es), sid, FateOf(s, sid), s.conn)
  {
    OutcomeIsFirstVerdict(s, es, sid);
    OutagesDecideNothing(es, sid, FateOf(s, sid), s.conn, s.conn);
  }

  // And while nothing else happens, an outage changes no session, index entry or timer either.
  ghost predicate Untouched(s: State, r: State) {
    && r.store == s.store && r.index == s.index && r.calls.Keys == s.calls.Keys
    && forall k | k in s.calls :: r.calls[k].(doomed := s.calls[k].doomed) == s.calls[k]
  }

  lemma OutageStep(s: State, e: Event)
    requires Enabled(s, e) && Outage(e) && s.conn.reconnect && !s.conn.closed
    ensures var r := Step(s, e); Untouched(s, r) && r.conn.reconnect && !r.conn.closed
  {
  }

  lemma UntouchedTwice(a: State, b: State, c: State)
    requires Untouched(a, b) && Untouched(b, c)
    ensures Untouched(a, c)
  {
    forall k | k in a.calls ensures c.calls[k].(doomed := a.calls[k].doomed) == a.calls[k] {
      assert b.calls[k].(doomed := a.calls[k].doomed) == a.calls[k];
      assert c.calls[k].(doomed := b.calls[k].doomed) == b.calls[k];
    }
  }

  lemma {:induction false} OutageKeepsCalls(s: State, es: seq<Event>)
    requires IsRun(s, es) && s.conn.reconnect && !s.conn.closed
    requires forall e <- es :: Outage(e)
    ensures Untouched(s, Run(s, es)) && Run(s, es).conn.reconnect && !Run(s, es).conn.closed
    decreases |es|
  {
    if es != [] {
      OutageStep(s, es[0]);
      OutageKeepsCalls(Step(s, es[0]), es[1..]);
      UntouchedTwice(s, Step(s, es[0]), Run(Step(s, es[0]), es[1..]));
    }
  }

  // MAIN: in every reachable state that is closed and notified, each promise call is settled,
  // except calls made since the closing whose send has not been attempted yet, which
  // can end only by failing, and calls that a message without an error text was about.
  lemma ClosedMeansSettled(silent: bool, es: seq<Event>, sid: string)
    requires IsRun(Initial(silent), es)
    requires var r := Run(Initial(silent), es);
      r.conn.closed && r.conn.notified && sid in r.calls && r.calls[sid].promise
    ensures var r := Run(Initial(silent), es); var c := r.calls[sid];
            && (!c.doomed && c.outcome.Pending? ==> Taken(es, sid))
            && (c.doomed ==> !c.outcome.Resolved? && !Enabled(r, SendOk(sid)))
            && (c.doomed && c.sent != Unsent && c.outcome.Pending? ==> Taken(es, sid))
  {
    InitialInv(silent);
    RunKeepsInv(Initial(silent), es);
    var r := Run(Initial(silent), es);
    assert CallOk(r, sid);
    if Orphan(r, sid) { OrphansWereTaken(Initial(silent), es, sid); }
  }

  // The give-up branch of the retry loop is never taken: the counter cannot get there.
  lemma GiveUpIsUnreachable(silent: bool, es: seq<Event>, i: nat)
    requires IsRun(Initial(silent), es)
    ensures !Enabled(Run(Initial(silent), es), LoopGaveUp(i))
  {
    InitialInv(silent);
    RunKeepsInv(Initial(silent), es);
  }
}
