/**
 The index of sessions by target. It is complete in every reachable state, so that cleaning up
 through it is a scan of the store; it is not sound, and here is exactly when it stops being so.
 */
module SessionIndex {
  import opened Wrappers
  import opened SessionState
  import opened SessionRuns

  // ---------------------------------------------------------------- the index refines a scan

  function SessionsOf(s: State, client: string): set<string> {
    set k | k in s.store && s.store[k].target == Some(client)
  }

  // MAIN: cleaning up through the index does what a scan of the whole store would do.
  lemma CleanupRefinesScan(s: State, client: string)
    requires TablesOk(s)
    ensures IndexedSessions(s, client) == SessionsOf(s, client)
    ensures var r := CleanupByIndex(s, client); var hit := SessionsOf(s, client);
            && r.store == s.store - hit
            && SessionsOf(r, client) == {}
            && (forall k | k in hit && s.store[k].promise ::
                  && k in r.calls
                  && r.calls[k].outcome == Settle(s.calls[k], Rejected(ConnectionError(ClientReason(client)))).outcome
                  && !r.calls[k].timer.started)
            && (forall k | k in s.calls && !(k in hit && s.store[k].promise) ::
                  k in r.calls && r.calls[k] == s.calls[k])
            && (forall t | t in s.index && t != client :: t in r.index && r.index[t] == s.index[t])
  {
  }

  // ---------------------------------------------------------------- stale keys

  // MAIN: after a peer_not_found message for a session, its key stays in the index exactly when
  // no reject callback took it out (none is there, or the text is empty) and the peer is
  // another one.
  lemma StaleKeyIff(s: State, key: string, peer: string, error: string)
    requires TablesOk(s) && key in s.store && s.store[key].target.Some? && s.store[key].target.value != ""
    ensures var t := s.store[key].target.value;
            var r := PeerNotFound(s, Some(key), peer, error);
            && key !in r.store
            && ((t in r.index && key in r.index[t]) <==> (!s.store[key].promise || error == "") && peer != t)
  {
    var t := s.store[key].target.value;
    assert t in s.index && key in s.index[t];
    var d := RemoveNamed(s, key, error);
    assert key !in d.store;
  }

  // Every key listed is a session of that target.
  ghost predicate IndexSound(s: State) {
    forall t, k | t in s.index && k in s.index[t] :: k in s.store && s.store[k].target == Some(t)
  }

  // Targets are client ids, never empty.
  ghost predicate TargetsNamed(s: State) {
    forall k | k in s.store :: s.store[k].target != Some("")
  }

  // The steps that leave a key behind, or list one that does not belong: a message for a session
  // without a reject callback or without a text, from another peer; and a nested call whose
  // parent is gone or is the session of another target.
  predicate SpoilsIndex(s: State, e: Event) {
    match e
    case PeerMissing(session, peer, error) =>
      && session.Some? && session.value in s.store
      && (!s.store[session.value].promise || error == "")
      && s.store[session.value].target.Some? && s.store[session.value].target.value != peer
    case CallNested(_, parent, target) => !(parent in s.store && s.store[parent].target == Some(target))
    case _ => false
  }

  lemma CleanupSound(s: State, client: string)
    requires IndexSound(s)
    ensures IndexSound(CleanupByIndex(s, client))
  {
  }

  lemma DeleteSound(s: State, key: string)
    requires IndexSound(s) && TargetsNamed(s)
    ensures IndexSound(DeleteSession(s, key))
  {
  }

  lemma DeleteAllSound(s: State, keys: set<string>)
    requires IndexSound(s) && TargetsNamed(s)
    ensures IndexSound(s.(store := s.store - keys, index := RemoveAllFromIndex(s.store, s.index, keys)))
  {
    var r := s.(store := s.store - keys, index := RemoveAllFromIndex(s.store, s.index, keys));
    forall t, k | t in r.index && k in r.index[t] ensures k in r.store && r.store[k].target == Some(t) {
      assert k in s.index[t] && k !in Gone(s.store, keys, t);
    }
  }

  // Sound up to one key, which no bucket but that of `target` lists.
  ghost predicate SoundBut(s: State, key: string, target: Option<string>) {
    && (forall t, k | t in s.index && k in s.index[t] && k != key :: k in s.store && s.store[k].target == Some(t))
    && (forall t | t in s.index && key in s.index[t] :: target == Some(t))
  }

  lemma NamedSoundBut(s: State, key: string, error: string)
    requires IndexSound(s) && key in s.store
    ensures SoundBut(RemoveNamed(s, key, error), key, s.store[key].target)
    ensures key !in RemoveNamed(s, key, error).store
  {
    var d := RemoveNamed(s, key, error);
    forall t, k | t in d.index && k in d.index[t]
      ensures t in s.index && k in s.index[t] && (k != key ==> k in d.store && d.store[k] == s.store[k])
    {
    }
  }

  lemma CleanupSoundBut(s: State, client: string, key: string, target: Option<string>)
    requires SoundBut(s, key, target)
    ensures SoundBut(CleanupByIndex(s, client), key, target)
  {
  }

  lemma PeerNotFoundSoundIff(s: State, e: Event)
    requires TablesOk(s) && IndexSound(s) && TargetsNamed(s) && e.PeerMissing?
    ensures IndexSound(Step(s, e)) <==> !SpoilsIndex(s, e)
  {
    if e.session.Some? && e.session.value in s.store {
      var key, r := e.session.value, Step(s, e);
      NamedSoundBut(s, key, e.error);
      CleanupSoundBut(RemoveNamed(s, key, e.error), e.peer, key, s.store[key].target);
      assert SoundBut(r, key, s.store[key].target);
      if s.store[key].target.Some? { StaleKeyIff(s, key, e.peer, e.error); }
      SoundIffUnlisted(r, key, s.store[key].target);
    } else {
      CleanupSound(s, e.peer);
    }
  }

  lemma SoundIffUnlisted(s: State, key: string, target: Option<string>)
    requires SoundBut(s, key, target) && key !in s.store
    ensures IndexSound(s) <==> !(target.Some? && target.value in s.index && key in s.index[target.value])
  {
  }

  lemma CallSound(s: State, e: Event)
    requires IndexSound(s) && Enabled(s, e) && (e.CallPromise? || e.CallForget?)
    ensures IndexSound(Step(s, e))
  {
  }

  lemma NestedSoundIff(s: State, e: Event)
    requires IndexSound(s) && Enabled(s, e) && e.CallNested?
    ensures IndexSound(Step(s, e)) <==> !SpoilsIndex(s, e)
  {
    var r := Step(s, e);
    assert e.parent in r.index[e.target] && e.parent in r.store;
    assert r.store[e.parent].target == if e.parent in s.store then s.store[e.parent].target else None;
    forall t, k | t in r.index && k in r.index[t] && !(t == e.target && k == e.parent)
      ensures k in r.store && r.store[k].target == Some(t)
    {
      assert t in s.index && k in s.index[t];
    }
  }

  // IndexSound speaks of store and index alone.
  lemma SameTables(s: State, r: State)
    requires IndexSound(s) && r.store == s.store && r.index == s.index
    ensures IndexSound(r)
  {
  }

  lemma CallbackSound(s: State, key: string, o: Outcome)
    requires IndexSound(s) && TargetsNamed(s)
    ensures IndexSound(WrappedCallback(s, key, o))
  {
    DeleteSound(s, key);
  }

  lemma OwnEventSound(s: State, e: Event)
    requires IndexSound(s) && TargetsNamed(s) && Enabled(s, e)
    requires e.SendOk? || e.SendFail? || e.TimerFires? || e.HeartbeatMsg? || e.ChunkBeat? || e.Touch?
    ensures IndexSound(Step(s, e))
  {
    match e
    case SendOk(sid) => DeleteSound(s, sid);
    case TimerFires(sid) => DeleteSound(s, sid);
    case _ =>
  }

  lemma LossSound(s: State, reason: string)
    requires IndexSound(s) && TargetsNamed(s)
    ensures IndexSound(ConnectionLost(s, reason))
  {
    DeleteAllSound(s, PromiseKeys(s, s.store.Keys));
  }

  lemma ConnectionEventSound(s: State, e: Event)
    requires IndexSound(s) && TargetsNamed(s) && Enabled(s, e)
    requires e.Opened? || e.SocketLost? || e.ListenEnds? || e.AttemptFailed? || e.LoopEnds? || e.LoopRefused?
          || e.LoopGaveUp? || e.UserDisconnect?
    ensures IndexSound(Step(s, e))
  {
    if e.SocketLost? {
      LossSound(s, e.reason);
      SameTables(ConnectionLost(s, e.reason), Step(s, e));
    } else if e.ListenEnds? {
      LossSound(s, e.reason);
    } else if e.LoopRefused? || e.LoopGaveUp? {
      var closed := s.(conn := s.conn.(closed := true, loops := WithoutLoop(s.conn.loops, e.loop)));
      SameTables(s, closed);
      LossSound(closed, if e.LoopRefused? then REFUSED + e.reason else GAVE_UP);
    } else {
      SameTables(s, Step(s, e));
    }
  }

  // MAIN: each step keeps a sound index sound, except exactly those two.
  lemma SoundnessLostIff(s: State, e: Event)
    requires TablesOk(s) && IndexSound(s) && TargetsNamed(s) && Enabled(s, e)
    ensures IndexSound(Step(s, e)) <==> !SpoilsIndex(s, e)
  {
    match e
    case PeerMissing(_, _, _) => PeerNotFoundSoundIff(s, e);
    case CallNested(_, _, _) => NestedSoundIff(s, e);
    case CallPromise(_, _, _, _) => CallSound(s, e);
    case CallForget(_, _, _, _) => CallSound(s, e);
    case ReplyResolve(sid, payload) => CallbackSound(s, sid, Resolved(payload));
    case ReplyReject(sid, payload) => CallbackSound(s, sid, Rejected(RemoteError(payload)));
    case SendOk(_) => OwnEventSound(s, e);
    case SendFail(_) => OwnEventSound(s, e);
    case TimerFires(_) => OwnEventSound(s, e);
    case HeartbeatMsg(_, _) => OwnEventSound(s, e);
    case ChunkBeat(_) => OwnEventSound(s, e);
    case Touch(_, _) => OwnEventSound(s, e);
    case ClientGone(client) => CleanupSound(s, client);
    case Connected(_) => if s.conn.manager.Some? { CleanupSound(s, ManagerTarget(s.conn.manager.value)); }
    case Sweep(now) => DeleteAllSound(s, set k | k in s.store && Expired(s.store[k], now));
    case _ => ConnectionEventSound(s, e);
  }
}
