/**
 The reconnect loop as a component of the composed machine: every behaviour of the loop is a
 sequence of events that the machine allows, ended by the event for its exit.
 */
module ReconnectEvents {
  import opened Wrappers
  import opened SessionState
  import opened SessionRuns
  import opened CallOutcomes
  import opened ReconnectLoop

  // How the machine sees the end of the loop. A successful attempt opens the connection first.
  function EndOf(exit: Exit, i: nat, reason: string): seq<Event> {
    match exit
    case Reconnected => [Opened, LoopEnds(i)]
    case Refused => [LoopRefused(i, reason)]
    case GaveUp => [LoopGaveUp(i)]
    case _ => [LoopEnds(i)]
  }

  // The events of loop i from retry on: one for each failed attempt that is waited out.
  function Trace(w: World, retry: nat, i: nat, reason: string): seq<Event>
    decreases MAX_RETRY - retry
  {
    if retry < MAX_RETRY && w.attempt(retry).Failed? && Delay(retry).Some? && w.waited(retry).Elapsed?
    then [AttemptFailed(i)] + Trace(w, retry + 1, i, reason)
    else EndOf(LoopExit(w, retry, MAX_RETRY), i, reason)
  }

  // The events of a loop need nothing but the flags and counters of the connection.
  predicate Allowed(conn: Conn, e: Event) {
    match e
    case Opened => true
    case AttemptFailed(i) => i < |conn.loops| && conn.loops[i] < FLOAT_LIMIT
    case LoopEnds(i) => i < |conn.loops|
    case LoopRefused(i, _) => i < |conn.loops|
    case _ => false
  }

  predicate AllAllowed(conn: Conn, es: seq<Event>)
    decreases |es|
  {
    es == [] || (Allowed(conn, es[0]) && AllAllowed(StepConn(conn, es[0]), es[1..]))
  }

  function RunConn(conn: Conn, es: seq<Event>): Conn
    decreases |es|
  {
    if es == [] then conn else RunConn(StepConn(conn, es[0]), es[1..])
  }

  lemma AllowedIsEnabled(s: State, e: Event)
    requires Allowed(s.conn, e)
    ensures Enabled(s, e) && Step(s, e).conn == StepConn(s.conn, e)
  {
    ConnectionEvolvesAlone(s, e);
  }

  lemma {:induction false} AllowedIsRun(s: State, es: seq<Event>)
    requires AllAllowed(s.conn, es)
    ensures IsRun(s, es) && Run(s, es).conn == RunConn(s.conn, es)
    decreases |es|
  {
    if es != [] {
      AllowedIsEnabled(s, es[0]);
      AllowedIsRun(Step(s, es[0]), es[1..]);
    }
  }

  // Loop i is over, and the connection is closed if the server refused.
  ghost predicate LoopOver(before: Conn, after: Conn, i: nat, exit: Exit)
    requires i < |before.loops|
  {
    && after.loops == WithoutLoop(before.loops, i)
    && (exit.Refused? ==> after.closed && after.notified)
    && (exit.Reconnected? ==> after.reconnect && !after.closed)
    && (!exit.Refused? && !exit.Reconnected? ==>
          after.closed == before.closed && after.notified == before.notified && after.reconnect == before.reconnect)
  }

  lemma EndIsAllowed(conn: Conn, exit: Exit, i: nat, reason: string)
    requires i < |conn.loops| && !exit.GaveUp?
    ensures var es := EndOf(exit, i, reason);
      AllAllowed(conn, es) && LoopOver(conn, RunConn(conn, es), i, exit)
  {
    if exit.Reconnected? {
      var open := StepConn(conn, Opened);
      var es := EndOf(exit, i, reason);
      assert es[1..] == [LoopEnds(i)] && es[1..][1..] == [];
      assert RunConn(conn, es) == RunConn(open, es[1..]) == StepConn(open, LoopEnds(i));
    }
  }

  lemma AttemptAllowed(conn: Conn, i: nat, rest: seq<Event>, exit: Exit)
    requires i < |conn.loops| && conn.loops[i] < FLOAT_LIMIT
    requires var next := StepConn(conn, AttemptFailed(i));
      AllAllowed(next, rest) && LoopOver(next, RunConn(next, rest), i, exit)
    ensures var es := [AttemptFailed(i)] + rest;
      AllAllowed(conn, es) && LoopOver(conn, RunConn(conn, es), i, exit)
  {
    var es := [AttemptFailed(i)] + rest;
    assert es[1..] == rest;
    assert WithoutLoop(StepConn(conn, AttemptFailed(i)).loops, i) == WithoutLoop(conn.loops, i);
  }

  lemma {:induction false} TraceIsAllowed(conn: Conn, w: World, retry: nat, i: nat, reason: string)
    requires i < |conn.loops| && conn.loops[i] == retry <= FLOAT_LIMIT
    ensures var es := Trace(w, retry, i, reason);
      AllAllowed(conn, es) && LoopOver(conn, RunConn(conn, es), i, LoopExit(w, retry, MAX_RETRY))
    decreases MAX_RETRY - retry
  {
    var exit := LoopExit(w, retry, MAX_RETRY);
    if w.attempt(retry).Failed? && Delay(retry).Some? && w.waited(retry).Elapsed? {
      TraceIsAllowed(StepConn(conn, AttemptFailed(i)), w, retry + 1, i, reason);
      AttemptAllowed(conn, i, Trace(w, retry + 1, i, reason), exit);
    } else {
      NeverGivesUp(w, retry, MAX_RETRY);
      EndIsAllowed(conn, exit, i, reason);
    }
  }

  // MAIN: whatever the server and the waits do, the loop that the machine has at its counter goes
  // through events the machine allows, and leaves the connection as its exit says. So what holds
  // of all runs of the machine holds with this loop in it.
  lemma LoopIsARun(s: State, w: World, retry: nat, i: nat, reason: string)
    requires i < |s.conn.loops| && s.conn.loops[i] == retry <= FLOAT_LIMIT
    ensures var es := Trace(w, retry, i, reason);
      IsRun(s, es) && LoopOver(s.conn, Run(s, es).conn, i, LoopExit(w, retry, MAX_RETRY))
  {
    TraceIsAllowed(s.conn, w, retry, i, reason);
    AllowedIsRun(s, Trace(w, retry, i, reason));
  }

  // MAIN: what the loop leaves behind, by what the attempts do. When every attempt before number n
  // failed and was waited out, a refusal closes the connection and notifies the RPC layer, a
  // success leaves it open, and anything else that ends the loop leaves it as it was.
  lemma LoopEndsByAttempt(s: State, w: World, seed: nat, n: nat, i: nat, reason: string)
    requires i < |s.conn.loops| && s.conn.loops[i] == seed && n <= 1024 && FailedUntil(w, seed, n)
    ensures var es := Trace(w, seed, i, reason);
      && IsRun(s, es)
      && var after := Run(s, es).conn;
      && (w.attempt(n).Aborted? ==> after.closed && after.notified)
      && (w.attempt(n).Established? ==> after.reconnect && !after.closed)
      && (w.attempt(n).NotSupported? || (w.attempt(n).Failed? && (n == 1024 || w.waited(n) != Elapsed)) ==>
            after.closed == s.conn.closed && after.notified == s.conn.notified && after.reconnect == s.conn.reconnect)
      && (!w.attempt(n).Failed? || n == 1024 || w.waited(n) != Elapsed ==>
            after.loops == s.conn.loops[..i] + s.conn.loops[i + 1..])
  {
    LoopIsARun(s, w, seed, i, reason);
    ExitByAttempt(w, seed, n, MAX_RETRY);
  }

  // The loops that a run starts, and those it ends.
  function Started(es: seq<Event>): nat {
    if es == [] then 0 else (if es[0].SocketLost? then 1 else 0) + Started(es[1..])
  }

  function Ended(es: seq<Event>): nat {
    if es == [] then 0
    else (if es[0].LoopEnds? || es[0].LoopRefused? || es[0].LoopGaveUp? then 1 else 0) + Ended(es[1..])
  }

  // Every loss of the socket starts one loop, and every loop ends once: no other event adds one or
  // takes one away.
  lemma {:induction false} LoopsBalance(s: State, es: seq<Event>)
    requires IsRun(s, es)
    ensures |Run(s, es).conn.loops| + Ended(es) == |s.conn.loops| + Started(es)
    decreases |es|
  {
    if es != [] {
      ConnectionEvolvesAlone(s, es[0]);
      LoopsBalance(Step(s, es[0]), es[1..]);
    }
  }

  // MAIN: from the loss of the socket on: with the counter the flap control seeded, the loop that
  // starts with it goes through the events of its trace, which closes the connection, opens it or
  // leaves it as its attempts say.
  lemma LostSocketLeadsToLoop(s: State, lost: string, seed: nat, w: World, n: nat, reason: string)
    requires Enabled(s, SocketLost(lost, seed)) && n <= 1024 && FailedUntil(w, seed, n)
    ensures var i := |s.conn.loops|; var t := Step(s, SocketLost(lost, seed));
      var es := Trace(w, seed, i, reason);
      && IsRun(t, es)
      && var after := Run(t, es).conn;
      && (w.attempt(n).Aborted? ==> after.closed && after.notified && after.loops == s.conn.loops)
      && (w.attempt(n).Established? ==> after.reconnect && !after.closed && after.loops == s.conn.loops)
      && (w.attempt(n).NotSupported? ==> !after.closed && after.loops == s.conn.loops)
  {
    var t := Step(s, SocketLost(lost, seed));
    ConnectionEvolvesAlone(s, SocketLost(lost, seed));
    assert t.conn.loops == s.conn.loops + [seed];
    assert t.conn.loops[..|s.conn.loops|] + t.conn.loops[|s.conn.loops| + 1..] == s.conn.loops;
    LoopEndsByAttempt(t, w, seed, n, |s.conn.loops|, reason);
  }

  // And a refusal leaves no call with a session unsettled.
  lemma RefusalRejects(s: State, w: World, seed: nat, n: nat, i: nat, reason: string, k: string)
    requires Inv(s) && i < |s.conn.loops| && s.conn.loops[i] == seed && n <= 1024 && FailedUntil(w, seed, n)
    requires w.attempt(n).Aborted? && PromiseSession(s, k)
    ensures var es := Trace(w, seed, i, reason);
      && IsRun(s, es)
      && k in Run(s, es).calls && !Run(s, es).calls[k].outcome.Pending?
  {
    LoopIsARun(s, w, seed, i, reason);
    RefusedTrace(w, seed, n, i, reason);
    var es := Trace(w, seed, i, reason);
    OutcomeIsFirstVerdict(s, es, k);
    assert CallOk(s, k);
    VerdictAfterFailures(n - seed, i, reason, k, FateOf(s, k), s.conn);
  }

  function Failures(n: nat, i: nat, reason: string): seq<Event> {
    if n == 0 then [LoopRefused(i, reason)] else [AttemptFailed(i)] + Failures(n - 1, i, reason)
  }

  lemma {:induction false} RefusedTrace(w: World, seed: nat, n: nat, i: nat, reason: string)
    requires FailedUntil(w, seed, n) && n <= 1024 && w.attempt(n).Aborted?
    ensures Trace(w, seed, i, reason) == Failures(n - seed, i, reason)
    decreases n - seed
  {
    if seed < n {
      assert FailedUntil(w, seed + 1, n);
      RefusedTrace(w, seed + 1, n, i, reason);
    }
  }

  lemma {:induction false} VerdictAfterFailures(n: nat, i: nat, reason: string, k: string, f: Fate, conn: Conn)
    requires f.promise && !f.orphan
    ensures FirstVerdict(Failures(n, i, reason), k, f, conn).Rejected?
    decreases n
  {
    var es := Failures(n, i, reason);
    if n > 0 {
      assert es[1..] == Failures(n - 1, i, reason);
      assert NextFate(f, es[0], k) == f;
      VerdictAfterFailures(n - 1, i, reason, k, f, StepConn(conn, es[0]));
    }
  }
}
