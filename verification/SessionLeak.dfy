/**
 The session that a nested call leaves behind. When its parent is gone, the parent is made again,
 without target, time stamp or promise; nothing that cleans sessions up ever looks at such a
 session. Here is exactly what still frees it. The nested calls are those that expect no reply:
 their own entry under the parent is never deleted.
 */
module SessionLeak {
  import opened Wrappers
  import opened SessionState
  import opened SessionRuns

  // A session that no clean-up recognises as anybody's.
  ghost predicate Leaked(s: State, key: string) {
    key in s.store && s.store[key] == Session(None, false, true, None)
  }

  lemma RecreatedParentLeaks(s: State, sid: string, parent: string, target: string)
    requires Enabled(s, CallNested(sid, parent, target))
    ensures parent !in s.store ==> Leaked(Step(s, CallNested(sid, parent, target)), parent)
  {
  }

  // The events that end its being leaked: a call to one of its entries marks it as active, so that
  // the sweep can find it later; a peer_not_found message names it; or it has the id of a call
  // whose timer still runs.
  predicate Frees(e: Event, key: string) {
    match e
    case Touch(sid, _) => sid == key
    case PeerMissing(session, _, _) => session == Some(key)
    case TimerFires(sid) => sid == key
    case _ => false
  }

  lemma LeakSurvivesCleanups(s: State, key: string, client: string, reason: string, now: int)
    requires Leaked(s, key)
    ensures Leaked(CleanupByIndex(s, client), key)
    ensures Leaked(RejectAll(s, reason), key)
    ensures Leaked(GcSweep(s, now), key)
  {
  }

  lemma ConnectionLeaves(s: State, e: Event, key: string)
    requires Leaked(s, key) && Enabled(s, e) && !OfCall(e) && !OfSession(e)
    ensures Leaked(Step(s, e), key)
  {
    match e
    case Connected(_) => if s.conn.manager.Some? {
      LeakSurvivesCleanups(s, key, ManagerTarget(s.conn.manager.value), "", 0);
    }
    case SocketLost(reason, _) => LeakSurvivesCleanups(s, key, "", LostReason(reason), 0);
    case ListenEnds(reason) => LeakSurvivesCleanups(s, key, "", LostReason(reason), 0);
    case LoopRefused(i, reason) =>
      var closed := s.(conn := s.conn.(closed := true, loops := WithoutLoop(s.conn.loops, i)));
      LeakSurvivesCleanups(closed, key, "", LostReason(REFUSED + reason), 0);
    case LoopGaveUp(i) =>
      var closed := s.(conn := s.conn.(closed := true, loops := WithoutLoop(s.conn.loops, i)));
      LeakSurvivesCleanups(closed, key, "", LostReason(GAVE_UP), 0);
    case _ =>
  }

  lemma PeerFreesIff(s: State, e: Event, key: string)
    requires Leaked(s, key) && e.PeerMissing?
    ensures Leaked(Step(s, e), key) <==> !Frees(e, key)
  {
    if e.session.Some? && e.session.value in s.store {
      var d := RemoveNamed(s, e.session.value, e.error);
      assert d.store == s.store - {e.session.value};
      if e.session.value != key { LeakSurvivesCleanups(d, key, e.peer, "", 0); }
    } else {
      LeakSurvivesCleanups(s, key, e.peer, "", 0);
    }
  }

  lemma SessionEventFreesIff(s: State, e: Event, key: string)
    requires Leaked(s, key) && Enabled(s, e) && OfSession(e)
    ensures Leaked(Step(s, e), key) <==> !Frees(e, key)
  {
    match e
    case PeerMissing(_, _, _) => PeerFreesIff(s, e, key);
    case ClientGone(client) => LeakSurvivesCleanups(s, key, client, "", 0);
    case Sweep(now) => LeakSurvivesCleanups(s, key, "", "", now);
    case _ =>
  }

  lemma CallEventFreesIff(s: State, e: Event, key: string)
    requires Leaked(s, key) && Enabled(s, e) && OfCall(e)
    ensures Leaked(Step(s, e), key) <==> !Frees(e, key)
  {
  }

  // MAIN: one step frees a leaked session exactly when it is one of those three.
  lemma FreedIff(s: State, e: Event, key: string)
    requires Leaked(s, key) && Enabled(s, e)
    ensures Leaked(Step(s, e), key) <==> !Frees(e, key)
  {
    if OfCall(e) { CallEventFreesIff(s, e, key); }
    else if OfSession(e) { SessionEventFreesIff(s, e, key); }
    else { ConnectionLeaves(s, e, key); }
  }

  // No call has the id, or one whose message was reported and whose timer stands still.
  ghost predicate Quiet(s: State, key: string) {
    key in s.calls ==> !s.calls[key].sent.Unsent? && !s.calls[key].timer.task.Waiting?
  }

  lemma QuietStep(s: State, e: Event, key: string)
    requires Leaked(s, key) && Quiet(s, key) && Enabled(s, e)
    ensures Quiet(Step(s, e), key)
    ensures e != TimerFires(key)
  {
    if e.PeerMissing? && e.session.Some? && e.session.value in s.store {
      assert RemoveNamed(s, e.session.value, e.error).calls.Keys == s.calls.Keys;
    }
  }

  // MAIN: in every run, whatever is lost, cleaned up or swept, a leaked session whose id is nobody's
  // any more stays, until a call to it or a peer_not_found message names it.
  lemma {:induction false} LeakedForEver(s: State, es: seq<Event>, key: string)
    requires Leaked(s, key) && Quiet(s, key) && IsRun(s, es)
    requires forall e <- es :: !e.Touch? || e.sid != key
    requires forall e <- es :: !e.PeerMissing? || e.session != Some(key)
    ensures Leaked(Run(s, es), key)
    decreases |es|
  {
    if es != [] {
      assert es[0] in es && forall e <- es[1..] :: e in es;
      QuietStep(s, es[0], key);
      FreedIff(s, es[0], key);
      LeakedForEver(Step(s, es[0]), es[1..], key);
    }
  }
}
