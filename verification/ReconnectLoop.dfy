/**
 The reconnect loop of the websocket connection and its flap control: how the retry
 counter is seeded, how long the loop waits, and how it can end.

 Delays are real numbers. A delay is `1.0 * 2 ** retry`, and converting an integer of
 1024 bits or more to a float raises OverflowError, outside the loop's try block.
 */
module ReconnectLoop {
  import opened Wrappers
  import opened SessionState

  const MAX_DELAY := 60.0
  const MAX_JITTER := 0.1
  const FLAP_WINDOW := 5.0
  const MIN_DELAY := 1.0
  const RETRY_FLOOR := 0.1

  function Pow2(n: nat): (p: nat)
    ensures p >= 1
  {
    if n == 0 then 1 else 2 * Pow2(n - 1)
  }

  function Min(a: real, b: real): real { if a <= b then a else b }

  function Max(a: real, b: real): real { if a >= b then a else b }

  // min(base_delay * 2 ** exponent, max_delay); None when the power does not fit a float.
  function Delay(exponent: nat): Option<real> {
    if exponent >= FLOAT_LIMIT then None else Some(Min(Pow2(exponent) as real, MAX_DELAY))
  }

  predicate IsJitter(j: real) { -MAX_JITTER <= j <= MAX_JITTER }

  function Jittered(delay: real, jitter: real, floor: real): real { Max(floor, delay + jitter * delay) }

  lemma ProductNotNegative(a: real, b: real)
    requires a >= 0.0 && b >= 0.0
    ensures a * b >= 0.0
  {
  }

  lemma Distribute(a: real, b: real, c: real)
    ensures (a - b) * c == a * c - b * c
  {
  }

  lemma JitterBounds(delay: real, jitter: real)
    requires IsJitter(jitter) && 0.0 <= delay
    ensures -0.1 * delay <= jitter * delay <= 0.1 * delay
  {
    ProductNotNegative(0.1 - jitter, delay);
    ProductNotNegative(jitter - -0.1, delay);
    Distribute(0.1, jitter, delay);
    Distribute(jitter, -0.1, delay);
  }

  // Within a tenth of the delay, and not below the floor.
  predicate WithinTenth(delay: real, floor: real, wait: real) {
    Max(floor, 0.9 * delay) <= wait <= Max(floor, 1.1 * delay)
  }

  lemma SumBounds(delay: real, j: real, floor: real)
    requires 0.0 <= delay && -0.1 * delay <= j <= 0.1 * delay
    ensures WithinTenth(delay, floor, Max(floor, delay + j))
  {
  }

  lemma JitteredBounds(delay: real, jitter: real, floor: real)
    requires IsJitter(jitter) && 0.0 <= delay
    ensures WithinTenth(delay, floor, Jittered(delay, jitter, floor))
  {
    JitterBounds(delay, jitter);
    SumBounds(delay, jitter * delay, floor);
  }

  lemma DelayBounds(exponent: nat)
    ensures Delay(exponent).Some? <==> exponent < FLOAT_LIMIT
    ensures Delay(exponent).Some? ==> 1.0 <= Delay(exponent).value <= MAX_DELAY
  {
  }

  // ---------------------------------------------------------------- the loop

  // What one attempt does, and what happened during the wait after a failed one.
  datatype Attempt = Established | NotSupported | Aborted | Failed
  datatype Waited = Elapsed | WaitCancelled | RestoredMeanwhile | ClosedMeanwhile

  datatype World = World(attempt: nat -> Attempt, waited: nat -> Waited, jitter: nat -> real)

  datatype Exit = Reconnected | Unsupported | Refused | Cancelled | Restored | Closed | GaveUp | Overflowed

  ghost predicate Sane(w: World) {
    forall i: nat :: IsJitter(w.jitter(i))
  }

  // How a loop that starts at `retry` ends.
  function LoopExit(w: World, retry: nat, maxRetry: nat): Exit
    decreases maxRetry - retry
  {
    if retry >= maxRetry then GaveUp
    else
      match w.attempt(retry)
      case Established => Reconnected
      case NotSupported => Unsupported
      case Aborted => Refused
      case Failed =>
        if Delay(retry).None? then Overflowed
        else
          match w.waited(retry)
          case WaitCancelled => Cancelled
          case RestoredMeanwhile => Restored
          case ClosedMeanwhile => Closed
          case Elapsed => LoopExit(w, retry + 1, maxRetry)
  }

  predicate IsRetryWait(retry: nat, wait: real) {
    Delay(retry).Some? && WithinTenth(Delay(retry).value, RETRY_FLOOR, wait)
  }

  // Every attempt from seed to before n failed and was waited out.
  ghost predicate FailedUntil(w: World, seed: nat, n: nat) {
    seed <= n && forall k | seed <= k < n :: w.attempt(k).Failed? && w.waited(k).Elapsed?
  }

  // What the last attempt, and the wait after it, make of the loop.
  ghost predicate EndsBy(w: World, n: nat, exit: Exit) {
    && (exit.Reconnected? <==> w.attempt(n).Established?)
    && (exit.Unsupported? <==> w.attempt(n).NotSupported?)
    && (exit.Refused? <==> w.attempt(n).Aborted?)
    && (exit.Overflowed? <==> w.attempt(n).Failed? && n >= 1024)
    && (exit.Cancelled? <==> w.attempt(n).Failed? && n < 1024 && w.waited(n).WaitCancelled?)
    && (exit.Restored? <==> w.attempt(n).Failed? && n < 1024 && w.waited(n).RestoredMeanwhile?)
    && (exit.Closed? <==> w.attempt(n).Failed? && n < 1024 && w.waited(n).ClosedMeanwhile?)
  }

  // MAIN: `reconnect_with_retry` from its main loop on; the waits are returned in order, and `last` is the
  // counter at the end: of the attempt that ended the loop, or of the limit.
  method ReconnectWithRetry(w: World, seed: nat, maxRetry: nat) returns (exit: Exit, waits: seq<real>, last: nat)
    requires Sane(w)
    ensures FailedUntil(w, seed, last)
    ensures last < maxRetry ==> EndsBy(w, last, exit) && !exit.GaveUp?
    ensures last >= maxRetry ==> exit.GaveUp? && (last == seed || last == maxRetry)
    ensures exit == LoopExit(w, seed, maxRetry)
    ensures last - seed <= |waits| <= last - seed + 1
    ensures forall i | 0 <= i < |waits| :: IsRetryWait(seed + i, waits[i])
  {
    last := seed;
    waits := [];
    while last < maxRetry
      invariant FailedUntil(w, seed, last) && |waits| == last - seed
      invariant last <= maxRetry || last == seed
      invariant LoopExit(w, seed, maxRetry) == LoopExit(w, last, maxRetry)
      invariant forall i | 0 <= i < |waits| :: IsRetryWait(seed + i, waits[i])
      decreases maxRetry - last
    {
      match w.attempt(last)
      case Established => return Reconnected, waits, last;
      case NotSupported => return Unsupported, waits, last;
      case Aborted => return Refused, waits, last;
      case Failed =>
      var delay := Delay(last);
      if delay.None? { return Overflowed, waits, last; }
      DelayBounds(last);
      JitteredBounds(delay.value, w.jitter(last), RETRY_FLOOR);
      var wait := Jittered(delay.value, w.jitter(last), RETRY_FLOOR);
      assert IsRetryWait(seed + |waits|, wait);
      waits := waits + [wait];
      match w.waited(last)
      case WaitCancelled => return Cancelled, waits, last;
      case RestoredMeanwhile => return Restored, waits, last;
      case ClosedMeanwhile => return Closed, waits, last;
      case Elapsed =>
      last := last + 1;
    }
    exit := GaveUp;
  }

  // A wait after a failed attempt, in seconds.
  lemma RetryWaitBounds(retry: nat, wait: real)
    requires IsRetryWait(retry, wait)
    ensures retry < 1024
    ensures 0.9 * Min(Pow2(retry) as real, 60.0) <= wait <= 1.1 * Min(Pow2(retry) as real, 60.0)
  {
  }

  // The same of the recursive form: which attempt leads to which exit.
  lemma {:induction false} ExitByAttempt(w: World, seed: nat, n: nat, maxRetry: nat)
    requires FailedUntil(w, seed, n) && n < maxRetry && n <= 1024
    ensures EndsBy(w, n, LoopExit(w, seed, maxRetry)) || (w.attempt(n).Failed? && w.waited(n).Elapsed? && n < 1024)
    decreases n - seed
  {
    if seed < n { ExitByAttempt(w, seed + 1, n, maxRetry); }
  }

  ghost predicate ServerGone(w: World) {
    forall i: nat :: w.attempt(i).Failed? && w.waited(i).Elapsed?
  }

  // MAIN: against a server that stays away the loop gives up, and tells the RPC layer, if and
  // only if its retry limit does not exceed the largest power that fits a float; otherwise its
  // task ends in an OverflowError.
  lemma {:induction false} GivesUpIffLimitFits(w: World, seed: nat, maxRetry: nat)
    requires ServerGone(w) && seed <= FLOAT_LIMIT && seed <= maxRetry
    ensures LoopExit(w, seed, maxRetry) == if maxRetry <= FLOAT_LIMIT then GaveUp else Overflowed
    decreases maxRetry - seed
  {
    assert w.attempt(seed).Failed? && w.waited(seed).Elapsed?;
    if seed < maxRetry && seed < FLOAT_LIMIT {
      GivesUpIffLimitFits(w, seed + 1, maxRetry);
    }
  }

  // With the limit the code has, no behaviour of the world makes it give up.
  lemma {:induction false} NeverGivesUp(w: World, seed: nat, maxRetry: nat)
    requires seed <= FLOAT_LIMIT < maxRetry
    ensures LoopExit(w, seed, maxRetry) != GaveUp
    decreases maxRetry - seed
  {
    if w.attempt(seed).Failed? && seed < FLOAT_LIMIT && w.waited(seed).Elapsed? {
      NeverGivesUp(w, seed + 1, maxRetry);
    }
  }

  // ---------------------------------------------------------------- flap control

  // `alive`: how long the last connection lived; None before the first one.
  predicate Flap(alive: Option<real>) { alive.Some? && alive.value < FLAP_WINDOW }

  // The wait before the first attempt: none for retry 0; None when the task dies instead.
  function FirstWait(retry: nat, jitter: real): Option<real> {
    if retry == 0 then Some(0.0)
    else
      match Delay(retry - 1)
      case None => None
      case Some(d) => Some(Jittered(d, jitter, MIN_DELAY))
  }

  class FlapControl {
    var flapCount: nat

    constructor ()
      ensures flapCount == 0
    {
      flapCount := 0;
    }

    // `_next_reconnect_retry`.
    method NextReconnectRetry(alive: Option<real>) returns (retry: nat)
      modifies this
      ensures flapCount == NextCount(old(flapCount), alive)
      ensures retry == Seed(flapCount)
    {
      if alive.Some? && alive.value < FLAP_WINDOW {
        flapCount := flapCount + 1;
      } else {
        flapCount := 0;
      }
      retry := if flapCount - 1 >= 0 then flapCount - 1 else 0;
    }

    // `reconnect_with_retry` from the beginning: the seeded retry, the first wait when it is
    // not zero, and the main loop. `closed`: the connection was closed before the task ran.
    method Reconnect(alive: Option<real>, closed: bool, jitter: real, waited: Waited, w: World, maxRetry: nat)
      returns (exit: Exit, first: Option<real>, waits: seq<real>)
      requires Sane(w) && IsJitter(jitter)
      modifies this
      ensures flapCount == NextCount(old(flapCount), alive)
      ensures exit == ReconnectExit(Seed(flapCount), closed, waited, w, maxRetry)
      ensures !closed ==> first == FirstWait(Seed(flapCount), jitter)
      ensures forall i | 0 <= i < |waits| :: IsRetryWait(Seed(flapCount) + i, waits[i])
    {
      var retry := NextReconnectRetry(alive);
      first, waits := Some(0.0), [];
      if closed { return Closed, first, waits; }
      if retry > 0 {
        var delay := Delay(retry - 1);
        if delay.None? { return Overflowed, None, waits; }
        first := Some(Jittered(delay.value, jitter, MIN_DELAY));
        match waited
        case WaitCancelled => return Cancelled, first, waits;
        case ClosedMeanwhile => return Closed, first, waits;
        case RestoredMeanwhile => return Restored, first, waits;
        case Elapsed =>
      }
      var last;
      exit, waits, last := ReconnectWithRetry(w, retry, maxRetry);
    }
  }

  // How the whole task ends.
  function ReconnectExit(seed: nat, closed: bool, waited: Waited, w: World, maxRetry: nat): Exit {
    if closed then Closed
    else if seed > 0 && Delay(seed - 1).None? then Overflowed
    else if seed > 0 && waited != Elapsed then
      match waited
      case WaitCancelled => Cancelled
      case ClosedMeanwhile => Closed
      case _ => Restored
    else LoopExit(w, seed, maxRetry)
  }

  // What comes before the main loop: a closed connection ends the task at once, and with a seeded
  // counter the first wait may end it.
  lemma ReconnectExitTable(seed: nat, closed: bool, waited: Waited, w: World, maxRetry: nat)
    ensures var exit := ReconnectExit(seed, closed, waited, w, maxRetry);
      && (closed ==> exit.Closed?)
      && (!closed && seed == 0 ==> exit == LoopExit(w, 0, maxRetry))
      && (!closed && seed > 1024 ==> exit.Overflowed?)
      && (!closed && 0 < seed <= 1024 ==>
            && (waited.WaitCancelled? ==> exit.Cancelled?)
            && (waited.ClosedMeanwhile? ==> exit.Closed?)
            && (waited.RestoredMeanwhile? ==> exit.Restored?)
            && (waited.Elapsed? ==> exit == LoopExit(w, seed, maxRetry)))
  {
  }

  // With the limit the code has, whatever the number of flaps and the world, the task never
  // takes the branch that gives up and notifies the RPC layer.
  lemma MaxRetryIsNeverReached(seed: nat, closed: bool, waited: Waited, w: World)
    ensures ReconnectExit(seed, closed, waited, w, MAX_RETRY) != GaveUp
    ensures !closed && waited.Elapsed? && ServerGone(w) ==>
              ReconnectExit(seed, closed, waited, w, MAX_RETRY) == Overflowed
  {
    if seed <= FLOAT_LIMIT {
      NeverGivesUp(w, seed, MAX_RETRY);
      if ServerGone(w) { GivesUpIffLimitFits(w, seed, MAX_RETRY); }
    }
  }

  function NextCount(count: nat, alive: Option<real>): nat {
    if Flap(alive) then count + 1 else 0
  }

  function Seed(count: nat): nat { if count == 0 then 0 else count - 1 }

  // The first waits of a run of reconnects, one for each connection lost.
  function Waits(count: nat, lives: seq<Option<real>>, jitters: seq<real>): (ws: seq<Option<real>>)
    requires |jitters| == |lives|
    ensures |ws| == |lives|
    decreases |lives|
  {
    if lives == [] then []
    else
      var c := NextCount(count, lives[0]);
      [FirstWait(Seed(c), jitters[0])] + Waits(c, lives[1..], jitters[1..])
  }

  function Total(waits: seq<Option<real>>): real
    requires forall w <- waits :: w.Some?
  {
    if waits == [] then 0.0 else waits[0].value + Total(waits[1..])
  }

  // The k-th of consecutive flaps after a healthy connection (count 0), k from 0.
  lemma {:induction false} FlapWait(count: nat, lives: seq<Option<real>>, jitters: seq<real>, k: nat)
    requires |jitters| == |lives| && k < |lives|
    requires forall i | 0 <= i <= k :: Flap(lives[i])
    ensures Waits(count, lives, jitters)[k] == FirstWait(count + k, jitters[k])
    decreases k
  {
    if k > 0 {
      FlapWait(count + 1, lives[1..], jitters[1..], k - 1);
    }
  }

  lemma {:induction false} HealthyConnectionResets(count: nat, lives: seq<Option<real>>, jitters: seq<real>, k: nat)
    requires |jitters| == |lives| && k < |lives| && (lives[k].None? || lives[k].value >= 5.0)
    ensures Waits(count, lives, jitters)[k] == Some(0.0)
    ensures Waits(count, lives, jitters)[k + 1..] == Waits(0, lives[k + 1..], jitters[k + 1..])
    decreases k
  {
    if k > 0 {
      HealthyConnectionResets(NextCount(count, lives[0]), lives[1..], jitters[1..], k - 1);
      assert lives[1..][k..] == lives[k + 1..] && jitters[1..][k..] == jitters[k + 1..];
    }
  }

  // MAIN: of n consecutive flaps the first reconnects at once, each later one waits between
  // max(1, 0.9 * d) and 1.1 * d seconds for d = min(2^(k-1), 60), so together they wait at least n - 1
  // seconds; the task dies instead exactly from flap 1025 on (counting from 0).
  lemma FlapsAreSpacedOut(lives: seq<Option<real>>, jitters: seq<real>, k: nat)
    requires |jitters| == |lives| && k < |lives|
    requires forall i | 0 <= i < |lives| :: lives[i].Some? && lives[i].value < 5.0 && IsJitter(jitters[i])
    ensures var w := Waits(0, lives, jitters)[k];
            && (w.Some? <==> k <= 1024)
            && (k == 0 ==> w == Some(0.0))
            && (0 < k <= 1024 ==>
              var d := Min(Pow2(k - 1) as real, 60.0); Max(1.0, 0.9 * d) <= w.value <= 1.1 * d)
  {
    FlapWait(0, lives, jitters, k);
    if 0 < k <= FLOAT_LIMIT {
      DelayBounds(k - 1);
      JitteredBounds(Delay(k - 1).value, jitters[k], MIN_DELAY);
    }
  }

  lemma {:induction false} TotalAtLeast(waits: seq<Option<real>>)
    requires forall w <- waits :: w.Some? && w.value >= 1.0
    ensures Total(waits) >= |waits| as real
  {
    if waits != [] { TotalAtLeast(waits[1..]); }
  }

  lemma FlapsCannotStorm(lives: seq<Option<real>>, jitters: seq<real>)
    requires |jitters| == |lives| && 0 < |lives| <= 1025
    requires forall i | 0 <= i < |lives| :: lives[i].Some? && lives[i].value < 5.0 && IsJitter(jitters[i])
    ensures var ws := Waits(0, lives, jitters);
            (forall w <- ws :: w.Some?) && Total(ws) >= (|lives| - 1) as real
  {
    var ws := Waits(0, lives, jitters);
    forall k | 0 <= k < |ws| ensures ws[k].Some? && (k > 0 ==> ws[k].value >= 1.0) {
      FlapsAreSpacedOut(lives, jitters, k);
    }
    FlapsAreSpacedOut(lives, jitters, 0);
    TotalAtLeast(ws[1..]);
  }
}
