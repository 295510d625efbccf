/**
 Heartbeats against the call timer, in logical time.

 The caller's timer runs for its timeout from its start or its last reset. The callee sends a
 heartbeat when the call arrives and again one interval after each send has gone through. The
 interval travels with the call, in one of two forms.
 */
module Heartbeat {
  import opened Wrappers

  // ---------------------------------------------------------------- the timer

  // When the timer expires if resets arrive at the times `beats`: at the first deadline that
  // no reset comes before.
  function Expiry(deadline: real, timeout: real, beats: seq<real>): real
    decreases |beats|
  {
    if beats == [] || beats[0] >= deadline then deadline
    else Expiry(beats[0] + timeout, timeout, beats[1..])
  }

  predicate Sorted(times: seq<real>) { forall i, j | 0 <= i < j < |times| :: times[i] <= times[j] }

  function Last(start: real, beats: seq<real>): real {
    if beats == [] then start else beats[|beats| - 1]
  }

  // Each reset, counting the start as one, comes within `timeout` of the one before.
  predicate GapsBelow(start: real, timeout: real, beats: seq<real>) {
    && (beats != [] ==> beats[0] < start + timeout)
    && (forall i | 0 < i < |beats| :: beats[i] < beats[i - 1] + timeout)
  }

  lemma GapsTail(start: real, timeout: real, beats: seq<real>)
    requires beats != []
    ensures GapsBelow(start, timeout, beats) <==>
              beats[0] < start + timeout && GapsBelow(beats[0], timeout, beats[1..])
  {
    var t := beats[1..];
    forall i | GapsBelow(beats[0], timeout, t) && 0 < i < |beats| ensures beats[i] < beats[i - 1] + timeout {
      assert i > 1 ==> t[i - 1] < t[i - 2] + timeout;
    }
  }

  // MAIN: the timer outlives all resets exactly when no gap reaches the timeout, and it then
  // expires exactly one timeout after the last of them; otherwise it expires no later than the
  // last one came.
  lemma {:induction false} ExpiresAfterLastIff(start: real, timeout: real, beats: seq<real>)
    requires timeout > 0.0 && Sorted(beats)
    ensures GapsBelow(start, timeout, beats) ==> Expiry(start + timeout, timeout, beats) == Last(start, beats) + timeout
    ensures !GapsBelow(start, timeout, beats) ==> Expiry(start + timeout, timeout, beats) <= Last(start, beats)
    decreases |beats|
  {
    if beats != [] {
      GapsTail(start, timeout, beats);
      if beats[0] < start + timeout {
        ExpiresAfterLastIff(beats[0], timeout, beats[1..]);
      }
    }
  }

  // And in the other case it expires at the first gap: one timeout after the last reset before it.
  lemma {:induction false} ExpiresAtFirstGap(start: real, timeout: real, beats: seq<real>, i: nat)
    requires i < |beats| && GapsBelow(start, timeout, beats[..i])
    requires beats[i] >= Last(start, beats[..i]) + timeout
    ensures Expiry(start + timeout, timeout, beats) == Last(start, beats[..i]) + timeout
    decreases i
  {
    if i > 0 {
      var before, rest := beats[..i], beats[1..];
      GapsTail(start, timeout, before);
      assert before[1..] == rest[..i - 1];
      assert Last(start, before) == Last(beats[0], rest[..i - 1]);
      ExpiresAtFirstGap(beats[0], timeout, rest, i - 1);
    }
  }

  /** The timer as an object. `task` is the deadline of the sleeping job. */
  class Timer {
    const timeout: real
    var task: Option<real>
    var started: bool

    ghost predicate Valid() reads this { started <==> task.Some? }

    constructor (timeout: real)
      ensures Valid() && this.timeout == timeout && !started
    {
      this.timeout := timeout;
      task, started := None, false;
    }

    method Start(now: real)
      requires Valid()
      modifies this
      ensures Valid() && task == Some(now + timeout)
      decreases if started then 1 else 0
    {
      if !started {
        task, started := Some(now + timeout), true;
      } else {
        Reset(now);
      }
    }

    method Reset(now: real)
      requires Valid()
      modifies this
      ensures Valid() && task == Some(now + timeout)
      decreases if task.Some? then 0 else 1
    {
      if task == None {
        Start(now);
      } else {
        task := Some(now + timeout);
      }
    }

    method Clear()
      requires Valid()
      modifies this
      ensures Valid() && task == None
    {
      if task.Some? && started { task, started := None, false; }
    }

    // The timer over a whole call: started once, then reset by each beat until it fires.
    method Watch(start: real, beats: seq<real>) returns (fired: real)
      requires Valid() && !started
      modifies this
      ensures fired == Expiry(start + timeout, timeout, beats)
    {
      Start(start);
      var i := 0;
      while i < |beats| && beats[i] < task.value
        invariant i <= |beats| && Valid() && started
        invariant Expiry(start + timeout, timeout, beats) == Expiry(task.value, timeout, beats[i..])
        decreases |beats| - i
      {
        Reset(beats[i]);
        assert beats[i..][1..] == beats[i + 1..];
        i := i + 1;
      }
      fired := task.value;
    }
  }

  // ---------------------------------------------------------------- the heartbeats

  // Heartbeats leave at `sent`, each one interval after the one before has gone through, which
  // takes at most `slack`, and arrive in order within `latency`.
  ghost predicate Schedule(sent: seq<real>, beats: seq<real>, interval: real, slack: real, latency: real) {
    && |sent| == |beats| && Sorted(beats)
    && (forall i | 0 <= i < |sent| :: sent[i] <= beats[i] <= sent[i] + latency)
    && (forall i | 0 < i < |sent| :: sent[i - 1] + interval <= sent[i] <= sent[i - 1] + interval + slack)
  }

  lemma BeatsKeepAlive(start: real, timeout: real, sent: seq<real>, beats: seq<real>,
                       interval: real, slack: real, latency: real)
    requires timeout > 0.0 && Schedule(sent, beats, interval, slack, latency)
    requires beats != [] ==> beats[0] < start + timeout
    requires interval + slack + latency < timeout
    ensures Expiry(start + timeout, timeout, beats) == Last(start, beats) + timeout
  {
    forall i | 0 < i < |beats| ensures beats[i] < beats[i - 1] + timeout {
      assert sent[i - 1] <= beats[i - 1];
    }
    ExpiresAfterLastIff(start, timeout, beats);
  }

  // The timer survives every schedule within these bounds whose first heartbeat is in time.
  ghost predicate Sound(timeout: real, interval: real, slack: real, latency: real) {
    forall start: real, sent: seq<real>, beats: seq<real> ::
      Schedule(sent, beats, interval, slack, latency) && (beats != [] ==> beats[0] < start + timeout) ==>
        Expiry(start + timeout, timeout, beats) == Last(start, beats) + timeout
  }

  // MAIN: a timer is safe under every schedule within the given bounds exactly when the
  // interval, the time to send and the latency together stay below its timeout.
  lemma HeartbeatIsSoundIff(timeout: real, interval: real, slack: real, latency: real)
    requires timeout > 0.0 && interval >= 0.0 && slack >= 0.0 && latency >= 0.0
    ensures Sound(timeout, interval, slack, latency) <==> interval + slack + latency < timeout
  {
    if interval + slack + latency < timeout {
      forall start: real, sent: seq<real>, beats: seq<real> |
          Schedule(sent, beats, interval, slack, latency) && (beats != [] ==> beats[0] < start + timeout)
        ensures Expiry(start + timeout, timeout, beats) == Last(start, beats) + timeout
      {
        BeatsKeepAlive(start, timeout, sent, beats, interval, slack, latency);
      }
    } else {
      var sent := [0.0, interval + slack];
      var beats := [0.0, interval + slack + latency];
      assert Schedule(sent, beats, interval, slack, latency);
      ExpiresAfterLastIff(0.0, timeout, beats);
      assert Expiry(0.0 + timeout, timeout, beats) != Last(0.0, beats) + timeout;
    }
  }

  // ---------------------------------------------------------------- the calls

  // The two forms of `_rpromise`: "*", which every encoded method has, and True, which the client
  // gives to the calls it makes itself (ping and get_service).
  datatype Form = Star | Full

  // The timeouts of a client, and whether the called method belongs to an `_rintf_` service.
  datatype CallTerms = CallTerms(form: Form, rintf: bool, methodTimeout: real, rintfTimeout: real)

  function EffectiveTimeout(c: CallTerms): real {
    if c.rintf then c.rintfTimeout else c.methodTimeout
  }

  // With "*" the message holds half the effective timeout; with True the encoded promise holds half
  // the method timeout.
  function Interval(c: CallTerms): real {
    match c.form
    case Star => EffectiveTimeout(c) / 2.0
    case Full => c.methodTimeout / 2.0
  }

  // MAIN: a call is kept alive exactly when sending and latency fit between its interval and its
  // timeout: into half of the timeout it runs on for every call to an encoded method, of an
  // `_rintf_` service or not, and for every ordinary call.
  lemma CallsAreSafeIff(c: CallTerms, slack: real, latency: real)
    requires c.methodTimeout > 0.0 && c.rintfTimeout > 0.0 && slack >= 0.0 && latency >= 0.0
    ensures Sound(EffectiveTimeout(c), Interval(c), slack, latency) <==>
              slack + latency < if c.form.Full? && c.rintf then c.rintfTimeout - c.methodTimeout / 2.0
                                else if c.rintf then c.rintfTimeout / 2.0
                                else c.methodTimeout / 2.0
    ensures EffectiveTimeout(c) == if c.rintf then c.rintfTimeout else c.methodTimeout
  {
    HeartbeatIsSoundIff(EffectiveTimeout(c), Interval(c), slack, latency);
  }
}
