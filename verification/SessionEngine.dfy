/**
 The session bookkeeping of `RPC` as it is written: dictionaries updated in place, loops over
 snapshots of keys, and reject callbacks that delete sessions while a loop is running.
 Each method is proved to do what the function of SessionState says, so that everything
 proved about runs in SessionRuns holds of this code.
 */
module SessionEngine {
  import opened Wrappers
  import opened SessionState
  import opened SessionIndex
  import opened SessionRuns

  lemma RemoveNone(store: Store, index: Index)
    ensures RemoveAllFromIndex(store, index, {}) == index
  {
    forall t ensures Gone(store, {}, t) == {} {}
    forall t | t in index ensures index[t] - Gone(store, {}, t) == index[t] {}
  }

  // One more key removed from the index, after those in `done`.
  lemma RemoveOneMore(store: Store, index: Index, done: set<string>, key: string)
    requires key in store && key !in done
    ensures RemoveFromIndex(store - done, RemoveAllFromIndex(store, index, done), key)
         == RemoveAllFromIndex(store, index, done + {key})
  {
    var before := RemoveAllFromIndex(store, index, done);
    var after := RemoveAllFromIndex(store, index, done + {key});
    forall t ensures t != "" && store[key].target == Some(t) ==>
      Gone(store, done + {key}, t) == Gone(store, done, t) + {key}
    {
    }
    forall t ensures !(t != "" && store[key].target == Some(t)) ==>
      Gone(store, done + {key}, t) == Gone(store, done, t)
    {
    }
    if store[key].target.Some? && store[key].target.value != "" && store[key].target.value in before {
      var t := store[key].target.value;
      assert before[t] - {key} == index[t] - Gone(store, done + {key}, t);
    }
    assert RemoveFromIndex(store - done, before, key) == after;
  }

  lemma RemoveNamedTables(s: State, key: string, error: string)
    requires TablesOk(s) && key in s.store
    ensures TablesOk(RemoveNamed(s, key, error))
  {
    DeleteKeepsIndex(CleanupEntry(s, key, error), key);
  }

  // ---------------------------------------------------------------- the loops, half way

  ghost function Hit(s: State, client: string, done: set<string>): set<string> {
    set k | k in done && k in s.store && s.store[k].target == Some(client)
  }

  lemma HitStep(s: State, client: string, done: set<string>, key: string)
    requires key !in done
    ensures Hit(s, client, done + {key})
         == Hit(s, client, done) + (if key in s.store && s.store[key].target == Some(client) then {key} else {})
  {
  }

  // CleanupByIndex when only the keys in `done` have been visited.
  ghost function Partial(s: State, client: string, done: set<string>): State {
    var hit := Hit(s, client, done);
    s.(store := s.store - hit,
       index := s.index - {client},
       calls := ConcludeAll(s.calls, PromiseKeys(s, hit), Rejected(ConnectionError(ClientReason(client)))))
  }

  // The state on the way, in either form: the client's bucket is gone or shrinks.
  ghost predicate InPlace(s: State, v: State, client: string, done: set<string>) {
    && var p := Partial(s, client, done);
    && v.store == p.store && v.calls == p.calls && v.conn == p.conn
    && v.index - {client} == p.index
    && TimersOk(v)
  }

  // One more session of the client, visited.
  lemma HitOne(s: State, client: string, done: set<string>, key: string)
    requires TablesOk(s) && key !in done && key in s.store && s.store[key].target == Some(client)
    ensures var c := CleanupEntry(Partial(s, client, done), key, ClientReason(client));
            c.(store := c.store - {key}) == Partial(s, client, done + {key})
  {
    var p := Partial(s, client, done);
    assert ClientReason(client) != "" by { assert |ClientReason(client)| > 0; }
    var hit := Hit(s, client, done);
    var more := Hit(s, client, done + {key});
    HitStep(s, client, done, key);
    if s.store[key].promise { assert PromiseKeys(s, more) == PromiseKeys(s, hit) + {key}; }
    else { assert PromiseKeys(s, more) == PromiseKeys(s, hit); }
    var c := CleanupEntry(p, key, ClientReason(client));
    assert c.store - {key} == s.store - more;
    assert c.index == s.index - {client};
    assert c.calls == Partial(s, client, done + {key}).calls;
  }

  lemma PartialTimers(s: State, client: string, done: set<string>)
    requires TimersOk(s)
    ensures TimersOk(Partial(s, client, done))
  {
    var p := Partial(s, client, done);
    forall k | k in p.calls ensures p.calls[k].timer.started <==> !p.calls[k].timer.task.NoTask? {
      assert s.calls[k].timer.started <==> !s.calls[k].timer.task.NoTask?;
    }
  }

  lemma PartialStep(s: State, client: string, done: set<string>, key: string)
    requires TablesOk(s) && key !in done
    ensures var p := Partial(s, client, done);
            if key in p.store && p.store[key].target == Some(client) then
              var c := CleanupEntry(p, key, ClientReason(client));
              c.(store := c.store - {key}) == Partial(s, client, done + {key})
            else p == Partial(s, client, done + {key})
    ensures TimersOk(Partial(s, client, done + {key}))
  {
    PartialTimers(s, client, done + {key});
    HitStep(s, client, done, key);
    if key in s.store && s.store[key].target == Some(client) { HitOne(s, client, done, key); }
  }

  // The live bucket still lists every key not visited yet.
  ghost predicate BucketKept(s: State, v: State, client: string, done: set<string>) {
    client in s.index ==> forall k | k in s.index[client] && k !in done :: client in v.index && k in v.index[client]
  }

  lemma NothingDone(s: State, client: string)
    requires TablesOk(s)
    ensures Hit(s, client, {}) == {}
    ensures client in s.index ==>
      && InPlace(s, s, client, {}) && BucketKept(s, s, client, {})
      && InPlace(s, s.(index := s.index - {client}), client, {})
    ensures client !in s.index ==> CleanupByIndex(s, client) == s && SessionsOf(s, client) == {}
  {
    CleanupRefinesScan(s, client);
    var p := Partial(s, client, {});
    assert Hit(s, client, {}) == {};
    assert p.calls == s.calls;
  }

  lemma AllDone(s: State, v: State, client: string, done: set<string>)
    requires TablesOk(s) && client in s.index && (forall k :: k in done <==> k in s.index[client])
    requires InPlace(s, v, client, done) && client !in v.index
    ensures v == CleanupByIndex(s, client)
    ensures Hit(s, client, done) == SessionsOf(s, client)
  {
    CleanupRefinesScan(s, client);
    assert Hit(s, client, done) == IndexedSessions(s, client);
    assert v.index - {client} == v.index;
  }

  lemma InPlaceStep(s: State, v: State, client: string, done: set<string>, key: string)
    requires TablesOk(s) && key !in done && InPlace(s, v, client, done)
    ensures key in v.store && v.store[key].target == Some(client) <==>
              key in s.store && s.store[key].target == Some(client)
    ensures var c := CleanupEntry(v, key, ClientReason(client));
            var w := if key in v.store && v.store[key].target == Some(client) then c.(store := c.store - {key}) else v;
            && InPlace(s, w, client, done + {key})
            && (client !in v.index ==> client !in w.index)
            && (BucketKept(s, v, client, done) ==> BucketKept(s, w, client, done + {key}))
  {
    PartialStep(s, client, done, key);
    var p := Partial(s, client, done);
    if key in v.store && v.store[key].target == Some(client) {
      var c, d := CleanupEntry(v, key, ClientReason(client)), CleanupEntry(p, key, ClientReason(client));
      assert c.store - {key} == d.store - {key} && c.calls == d.calls;
      assert c.index - {client} == v.index - {client};
    }
  }

  // RejectAll when only the keys in `done` have been visited.
  ghost function PartialReject(s: State, reason: string, done: set<string>): State {
    var hit := PromiseKeys(s, done);
    s.(store := s.store - hit,
       index := RemoveAllFromIndex(s.store, s.index, hit),
       calls := ConcludeAll(s.calls, hit, Rejected(ConnectionError(reason))))
  }

  lemma NothingRejected(s: State, reason: string)
    ensures PartialReject(s, reason, {}) == s && PromiseKeys(s, {}) == {}
  {
    assert PromiseKeys(s, {}) == {};
    RemoveNone(s.store, s.index);
    assert PartialReject(s, reason, {}).calls == s.calls;
  }

  lemma PartialRejectTimers(s: State, reason: string, done: set<string>)
    requires TimersOk(s)
    ensures TimersOk(PartialReject(s, reason, done))
  {
    var p := PartialReject(s, reason, done);
    forall k | k in p.calls ensures p.calls[k].timer.started <==> !p.calls[k].timer.task.NoTask? {
      assert s.calls[k].timer.started <==> !s.calls[k].timer.task.NoTask?;
    }
  }

  lemma PartialRejectPromise(s: State, reason: string, done: set<string>, key: string)
    requires PromisesOpen(s) && reason != "" && PromiseSession(s, key) && key !in done
    ensures CleanupEntry(PartialReject(s, reason, done), key, reason) == PartialReject(s, reason, done + {key})
  {
    var p := PartialReject(s, reason, done);
    var hit := PromiseKeys(s, done);
    assert PromiseKeys(s, done + {key}) == hit + {key};
    RemoveOneMore(s.store, s.index, hit, key);
    assert s.store - hit - {key} == s.store - (hit + {key});
    var o := Rejected(ConnectionError(reason));
    assert ConcludeAll(s.calls, hit, o)[key := Conclude(s.calls[key], o)] == ConcludeAll(s.calls, hit + {key}, o);
  }

  lemma PartialRejectStep(s: State, reason: string, done: set<string>, key: string)
    requires PromisesOpen(s) && TimersOk(s) && reason != "" && key in s.store && key !in done
    ensures key in PartialReject(s, reason, done).store && PartialReject(s, reason, done).store[key] == s.store[key]
    ensures CleanupEntry(PartialReject(s, reason, done), key, reason) == PartialReject(s, reason, done + {key})
    ensures |PromiseKeys(s, done + {key})| == |PromiseKeys(s, done)| + if s.store[key].promise then 1 else 0
  {
    if s.store[key].promise {
      assert PromiseKeys(s, done + {key}) == PromiseKeys(s, done) + {key};
      PartialRejectPromise(s, reason, done, key);
    } else {
      assert PromiseKeys(s, done + {key}) == PromiseKeys(s, done);
    }
  }

  // ---------------------------------------------------------------- the code

  class RPC {
    var objectStore: Store
    var targetIdIndex: Index
    var calls: Calls
    var conn: Conn

    ghost function View(): State
      reads this
    {
      State(objectStore, targetIdIndex, calls, conn)
    }

    constructor (silent: bool)
      ensures View() == Initial(silent)
    {
      objectStore, targetIdIndex, calls, conn := map[], map[], map[], Conn(false, false, false, [], None, silent);
    }

    method RemoveFromTargetIdIndex(sessionId: string)
      modifies this`targetIdIndex
      ensures targetIdIndex == RemoveFromIndex(objectStore, old(targetIdIndex), sessionId)
    {
      if sessionId in objectStore {
        var target := objectStore[sessionId].target;
        if target.Some? && target.value != "" && target.value in targetIdIndex {
          targetIdIndex := targetIdIndex[target.value := targetIdIndex[target.value] - {sessionId}];
          if targetIdIndex[target.value] == {} {
            targetIdIndex := targetIdIndex - {target.value};
          }
        }
      }
    }

    method ClearSessionTimer(key: string)
      modifies this`calls
      ensures View() == ClearTimer(old(View()), key)
    {
      if key in objectStore && objectStore[key].promise && key in calls && calls[key].timer.started {
        calls := calls[key := calls[key].(timer := Clear(calls[key].timer))];
      }
    }

    method DeleteSessionCompletely(key: string)
      modifies this`objectStore, this`targetIdIndex, this`calls
      ensures View() == DeleteSession(ClearTimer(old(View()), key), key)
    {
      RemoveFromTargetIdIndex(key);
      ClearSessionTimer(key);
      objectStore := objectStore - {key};
    }

    // The future is settled unless it is done, and the timer stopped.
    method ConcludeCall(key: string, o: Outcome)
      requires key in calls
      modifies this`calls
      ensures calls == old(calls)[key := Conclude(old(calls)[key], o)]
    {
      calls := calls[key := Settle(calls[key], o)];
      if calls[key].timer.started {
        calls := calls[key := calls[key].(timer := Clear(calls[key].timer))];
      }
    }

    // The resolve or reject entry of a promise session. The promise manager cleans up on both.
    method InvokeCallback(key: string, o: Outcome)
      requires TimersOk(View())
      modifies this`objectStore, this`targetIdIndex, this`calls
      ensures View() == WrappedCallback(old(View()), key, o)
    {
      if key in objectStore && objectStore[key].promise && key in calls {
        ConcludeCall(key, o);
        DeleteSessionCompletely(key);
      }
    }

    method CleanupSessionEntry(key: string, reason: string)
      requires TimersOk(View())
      modifies this`objectStore, this`targetIdIndex, this`calls
      ensures View() == CleanupEntry(old(View()), key, reason)
    {
      if reason != "" && key in objectStore && objectStore[key].promise {
        InvokeCallback(key, Rejected(ConnectionError(reason)));
      } else {
        ClearSessionTimer(key);
      }
    }

    // The loop body shared by both forms of the clean-up.
    method CleanupOne(client: string, key: string, ghost s: State, ghost done: set<string>) returns (cleaned: bool)
      requires TablesOk(s) && key !in done && InPlace(s, View(), client, done)
      modifies this`objectStore, this`targetIdIndex, this`calls
      ensures InPlace(s, View(), client, done + {key})
      ensures client !in old(targetIdIndex) ==> client !in targetIdIndex
      ensures BucketKept(s, old(View()), client, done) ==> BucketKept(s, View(), client, done + {key})
      ensures cleaned <==> key in s.store && s.store[key].target == Some(client)
    {
      ghost var v := View();
      InPlaceStep(s, v, client, done, key);
      cleaned := false;
      if key in objectStore && objectStore[key].target == Some(client) {
        CleanupSessionEntry(key, ClientReason(client));
        objectStore := objectStore - {key};
        cleaned := true;
      }
    }

    // Takes the bucket out of the index first; the reject callbacks delete sessions meanwhile.
    method CleanupSessionsForClient(client: string) returns (cleaned: nat)
      requires TablesOk(View())
      modifies this`objectStore, this`targetIdIndex, this`calls
      ensures View() == CleanupByIndex(old(View()), client)
      ensures cleaned == |SessionsOf(old(View()), client)|
    {
      ghost var s := View();
      NothingDone(s, client);
      cleaned := 0;
      if client !in targetIdIndex { return; }
      var todo := targetIdIndex[client];
      targetIdIndex := targetIdIndex - {client};
      ghost var done: set<string> := {};
      while todo != {}
        invariant done + todo == s.index[client] && done !! todo
        invariant client !in targetIdIndex && InPlace(s, View(), client, done)
        invariant cleaned == |Hit(s, client, done)|
        decreases todo
      {
        var key :| key in todo;
        var one := CleanupOne(client, key, s, done);
        HitStep(s, client, done, key);
        if one { cleaned := cleaned + 1; }
        done, todo := done + {key}, todo - {key};
      }
      AllDone(s, View(), client, done);
    }

    // `_cleanupSessionsForClient` of the JavaScript client: it iterates the live bucket, whose
    // keys the callbacks delete one by one, and drops the bucket at the end.
    method CleanupSessionsInPlace(client: string, order: seq<string>) returns (cleaned: nat)
      requires TablesOk(View())
      requires client in targetIdIndex ==> (forall k :: k in order <==> k in targetIdIndex[client])
      requires forall i, j | 0 <= i < j < |order| :: order[i] != order[j]
      modifies this`objectStore, this`targetIdIndex, this`calls
      ensures View() == CleanupByIndex(old(View()), client)
      ensures cleaned == |SessionsOf(old(View()), client)|
    {
      ghost var s := View();
      NothingDone(s, client);
      cleaned := 0;
      if client !in targetIdIndex { return; }
      ghost var done: set<string> := {};
      for i := 0 to |order|
        invariant forall k :: k in done <==> k in order[..i]
        invariant InPlace(s, View(), client, done) && BucketKept(s, View(), client, done)
        invariant cleaned == |Hit(s, client, done)|
      {
        var key := order[i];
        assert key !in done;
        assert order[..i + 1] == order[..i] + [key];
        HitStep(s, client, done, key);
        // a Set iterator skips a key that was deleted before it got there
        if client in targetIdIndex && key in targetIdIndex[client] {
          var one := CleanupOne(client, key, s, done);
          if one { cleaned := cleaned + 1; }
        } else {
          assert false;  // no callback deletes another session than its own
        }
        done := done + {key};
      }
      assert order[..|order|] == order;
      targetIdIndex := targetIdIndex - {client};
      AllDone(s, View(), client, done);
    }

    method RejectOne(key: string, reason: string, ghost s: State, ghost done: set<string>) returns (promise: bool)
      requires PromisesOpen(s) && TimersOk(s) && reason != "" && key in s.store && key !in done
      requires View() == PartialReject(s, reason, done)
      modifies this`objectStore, this`targetIdIndex, this`calls
      ensures View() == PartialReject(s, reason, done + {key})
      ensures |PromiseKeys(s, done + {key})| == |PromiseKeys(s, done)| + if promise then 1 else 0
    {
      PartialRejectTimers(s, reason, done);
      PartialRejectStep(s, reason, done, key);
      promise := false;
      if key in objectStore {
        promise := objectStore[key].promise;
        CleanupSessionEntry(key, reason);
      }
    }

    // Snapshot of the keys; every promise session is rejected, which deletes it.
    method RejectPendingCalls(reason: string) returns (rejected: nat)
      requires PromisesOpen(View()) && TimersOk(View()) && reason != ""
      modifies this`objectStore, this`targetIdIndex, this`calls
      ensures View() == RejectAll(old(View()), reason)
      ensures rejected == |PromiseKeys(old(View()), old(objectStore).Keys)|
    {
      ghost var s := View();
      var keys := objectStore.Keys;
      NothingRejected(s, reason);
      rejected := RejectKeys(keys, reason, s);
    }

    method RejectKeys(keys: set<string>, reason: string, ghost s: State) returns (rejected: nat)
      requires PromisesOpen(s) && TimersOk(s) && reason != "" && keys <= s.store.Keys
      requires View() == PartialReject(s, reason, {}) && PromiseKeys(s, {}) == {}
      modifies this`objectStore, this`targetIdIndex, this`calls
      ensures View() == PartialReject(s, reason, keys)
      ensures rejected == |PromiseKeys(s, keys)|
    {
      rejected := 0;
      var todo := keys;
      assert keys - todo == {};
      while todo != {}
        invariant todo <= keys
        invariant View() == PartialReject(s, reason, keys - todo)
        invariant rejected == |PromiseKeys(s, keys - todo)|
        decreases todo
      {
        var key :| key in todo;
        assert keys - (todo - {key}) == (keys - todo) + {key};
        var one := RejectOne(key, reason, s, keys - todo);
        if one { rejected := rejected + 1; }
        todo := todo - {key};
      }
      assert keys - {} == keys;
    }

    // One round of the GC loop: collect the expired keys, then delete them.
    method SessionGc(now: int)
      requires TimersOk(View())
      modifies this`objectStore, this`targetIdIndex
      ensures View() == GcSweep(old(View()), now)
      ensures objectStore.Keys <= old(objectStore.Keys)
      ensures forall k | k in old(objectStore) :: var session := old(objectStore)[k];
        && (k !in objectStore <==> !session.promise && session.stamp.Some? && now > session.stamp.value + 600)
        && (k in objectStore ==> objectStore[k] == session)
    {
      ghost var s := View();
      var dead := set k | k in objectStore && objectStore[k].stamp.Some?
        && now - objectStore[k].stamp.value > SESSION_TTL && !objectStore[k].promise;
      assert dead == set k | k in s.store && Expired(s.store[k], now);
      var todo := dead;
      ghost var done: set<string> := {};
      RemoveNone(s.store, s.index);
      while todo != {}
        invariant done + todo == dead && done !! todo
        invariant View() == s.(store := s.store - done, index := RemoveAllFromIndex(s.store, s.index, done))
        decreases todo
      {
        var key :| key in todo;
        RemoveOneMore(s.store, s.index, done, key);
        RemoveFromTargetIdIndex(key);
        objectStore := objectStore - {key};
        done, todo := done + {key}, todo - {key};
      }
      assert done == dead;
    }

    method HandlePeerNotFound(session: Option<string>, peer: string, error: string)
      requires TablesOk(View())
      modifies this`objectStore, this`targetIdIndex, this`calls
      ensures View() == PeerNotFound(old(View()), session, peer, error)
    {
      ghost var s := View();
      if session.Some? && session.value in objectStore {
        CleanupSessionEntry(session.value, error);
        if session.value in objectStore {
          objectStore := objectStore - {session.value};
        }
        RemoveFromTargetIdIndex(session.value);
        assert View() == RemoveNamed(s, session.value, error);
        RemoveNamedTables(s, session.value, error);
      }
      if peer != "" {
        var n := CleanupSessionsForClient(peer);
      }
    }

    method OnConnectionLost(reason: string)
      requires PromisesOpen(View()) && TimersOk(View())
      modifies this
      ensures View() == ConnectionLost(old(View()), reason)
    {
      if conn.reconnect && !conn.closed { return; }
      var n := RejectPendingCalls(LostReason(reason));
      conn := conn.(notified := true);
    }

    method OnConnected(manager: Option<string>)
      requires TablesOk(View())
      modifies this
      ensures View() == ManagerSeen(old(View()), manager)
    {
      if !conn.silent && manager.Some? && manager.value != "" {
        if conn.manager.Some? && conn.manager != manager {
          var n := CleanupSessionsForClient(ManagerTarget(conn.manager.value));
        }
        conn := conn.(manager := manager);
      }
    }

    method AddKey(target: string, key: string)
      modifies this`targetIdIndex
      ensures targetIdIndex == AddToIndex(old(targetIdIndex), target, key)
    {
      if target !in targetIdIndex { targetIdIndex := targetIdIndex[target := {}]; }
      targetIdIndex := targetIdIndex[target := targetIdIndex[target] + {key}];
    }

    method StartCall(sid: string, target: string, promise: bool, live: bool, now: int)
      requires sid !in objectStore && sid !in calls
      modifies this`objectStore, this`targetIdIndex, this`calls
      ensures View() == BeginCall(old(View()), sid, target, promise, live, now)
    {
      var store := Session(None, false, false, Some(now));
      store := store.(target := Some(target));
      AddKey(target, sid);
      objectStore := objectStore[sid := store.(live := live, promise := promise)];
      calls := calls[sid := Call(target, promise, Pending, IDLE, Unsent, false, conn.closed)];
    }

    method StartNestedCall(sid: string, parent: string, target: string)
      requires sid !in calls
      modifies this`objectStore, this`targetIdIndex, this`calls
      ensures View() == BeginNested(old(View()), sid, parent, target)
    {
      if parent !in objectStore { objectStore := objectStore[parent := Session(None, false, false, None)]; }
      objectStore := objectStore[parent := objectStore[parent].(live := true)];
      AddKey(target, parent);
      calls := calls[sid := Call(target, false, Pending, IDLE, Unsent, true, conn.closed)];
    }

    // The done-callback of the emit task.
    method HandleResult(sid: string, failed: bool)
      requires sid in calls && TimersOk(View())
      modifies this`objectStore, this`targetIdIndex, this`calls
      ensures View() == if failed then SendFailedStep(old(View()), sid) else SendSucceeded(old(View()), sid)
    {
      var c := calls[sid];
      if failed {
        c := Settle(c, Rejected(SendError));
        if c.timer.started { c := c.(timer := Clear(c.timer)); }
        calls := calls[sid := c.(sent := SentFailed)];
      } else if c.promise {
        calls := calls[sid := c.(timer := Start(c.timer), sent := SentOk)];
      } else {
        calls := calls[sid := Settle(c, Resolved("")).(sent := SentOk)];
        if !c.nested && sid in objectStore && !objectStore[sid].live && !objectStore[sid].promise {
          RemoveFromTargetIdIndex(sid);
          objectStore := objectStore - {sid};
        }
      }
    }

    method TimeoutCallback(sid: string)
      requires sid in calls && calls[sid].timer.task.Waiting? && TimersOk(View())
      modifies this`objectStore, this`targetIdIndex, this`calls
      ensures View() == TimerExpired(old(View()), sid)
    {
      var c := Settle(calls[sid], Rejected(TimeoutError));
      calls := calls[sid := c.(timer := c.timer.(task := Finished))];
      if sid in objectStore {
        ClearSessionTimer(sid);
        RemoveFromTargetIdIndex(sid);
        objectStore := objectStore - {sid};
      }
    }

    // `timer.reset()`, as the heartbeat callback and the chunk operations do it.
    method ResetSessionTimer(sid: string)
      modifies this`calls
      ensures View() == ResetTimer(old(View()), sid)
    {
      if sid in objectStore && objectStore[sid].promise && sid in calls {
        calls := calls[sid := calls[sid].(timer := Reset(calls[sid].timer))];
      }
    }

    method HandleHeartbeat(sid: string, now: int)
      modifies this`objectStore, this`calls
      ensures View() == Heartbeat(old(View()), sid, now)
    {
      if sid in objectStore && objectStore[sid].promise && sid in calls {
        TouchActivity(sid, now);
        ResetSessionTimer(sid);
      }
    }

    method TouchActivity(sid: string, now: int)
      modifies this`objectStore
      ensures View() == TouchSession(old(View()), sid, now)
    {
      if sid in objectStore {
        objectStore := objectStore[sid := objectStore[sid].(stamp := Some(now))];
      }
    }

    // The connection is open again: what waits to be emitted can be sent.
    method HandleOpened()
      modifies this`conn, this`calls
      ensures View() == Reopen(old(View()))
    {
      conn := conn.(reconnect := true, closed := false, notified := false);
      calls := map k | k in calls :: if calls[k].sent.Unsent? then calls[k].(doomed := false) else calls[k];
    }

    // The loop sets `_closed` and calls the disconnected handler.
    method HandleRefused(loop: nat, reason: string)
      requires TablesOk(View()) && loop < |conn.loops|
      modifies this
      ensures View() == CloseAndNotify(old(View()), loop, REFUSED + reason)
    {
      conn := conn.(closed := true, loops := WithoutLoop(conn.loops, loop));
      OnConnectionLost(REFUSED + reason);
    }

    // The events of the connection: the reconnect loops and the listen task.
    method HandleConnectionEvent(e: Event)
      requires TablesOk(View()) && Enabled(View(), e)
      requires e.Opened? || e.SocketLost? || e.AttemptFailed? || e.LoopEnds? || e.LoopRefused?
            || e.UserDisconnect? || e.ListenEnds?
      modifies this
      ensures View() == Step(old(View()), e)
    {
      match e
      case Opened => HandleOpened();
      case SocketLost(reason, seed) =>
        OnConnectionLost(reason);
        conn := conn.(loops := conn.loops + [seed]);
      case AttemptFailed(i) => conn := conn.(loops := conn.loops[i := conn.loops[i] + 1]);
      case LoopEnds(i) => conn := conn.(loops := WithoutLoop(conn.loops, i));
      case LoopRefused(i, reason) => HandleRefused(i, reason);
      case UserDisconnect => conn := conn.(closed := true, notified := false);
      case ListenEnds(reason) => OnConnectionLost(reason);
    }

    // The events of a call itself.
    method HandleCallEvent(e: Event)
      requires TablesOk(View()) && Enabled(View(), e) && OfCall(e)
      modifies this
      ensures View() == Step(old(View()), e)
    {
      match e
      case CallPromise(sid, target, live, now) => StartCall(sid, target, true, live, now);
      case CallForget(sid, target, live, now) => StartCall(sid, target, false, live, now);
      case CallNested(sid, parent, target) => StartNestedCall(sid, parent, target);
      case SendOk(sid) => HandleResult(sid, false);
      case SendFail(sid) => HandleResult(sid, true);
      case TimerFires(sid) => TimeoutCallback(sid);
    }

    // The events of its session.
    method HandleSessionEvent(e: Event)
      requires TablesOk(View()) && Enabled(View(), e) && OfSession(e)
      modifies this
      ensures View() == Step(old(View()), e)
    {
      match e
      case ReplyResolve(sid, payload) => InvokeCallback(sid, Resolved(payload));
      case ReplyReject(sid, payload) => InvokeCallback(sid, Rejected(RemoteError(payload)));
      case HeartbeatMsg(sid, now) => HandleHeartbeat(sid, now);
      case ChunkBeat(sid) => ResetSessionTimer(sid);
      case Touch(sid, now) => TouchActivity(sid, now);
      case PeerMissing(session, peer, error) => HandlePeerNotFound(session, peer, error);
      case ClientGone(client) => var n := CleanupSessionsForClient(client);
      case Sweep(now) => SessionGc(now);
    }

    // MAIN: the code, event by event, is the step function; so it keeps its invariant.
    method Dispatch(e: Event)
      requires Inv(View()) && Enabled(View(), e)
      modifies this
      ensures View() == Step(old(View()), e)
      ensures Inv(View())
    {
      StepKeepsInv(View(), e);
      InvTables(View());
      if OfCall(e) { HandleCallEvent(e); }
      else if OfSession(e) { HandleSessionEvent(e); }
      else if e.Connected? { OnConnected(e.manager); }
      else if e.LoopGaveUp? { assert false; }
      else { HandleConnectionEvent(e); }
    }
  }
}
