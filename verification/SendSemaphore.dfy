/**
 The semaphore of the JavaScript sender. `run` checks the count, perhaps waits, and only then
 counts itself in; a finishing task hands its slot to a waiter that resumes some time later.
 */
module SendSemaphore {
  datatype Event = RunTask | Finish(task: nat) | Resume

  // Tasks are numbered in the order of their `run` calls: 0 .. submitted - 1.
  // `woken`: waiters whose promise is resolved but which have not run on yet.
  datatype State = State(
    max: nat,
    current: nat,
    queue: seq<nat>,
    woken: seq<nat>,
    started: seq<nat>,
    running: set<nat>,
    submitted: nat)

  predicate Enabled(s: State, e: Event) {
    match e
    case RunTask => true
    case Finish(t) => t in s.running
    case Resume => s.woken != []
  }

  function Begin(s: State, t: nat): State {
    s.(current := s.current + 1, started := s.started + [t], running := s.running + {t})
  }

  function Step(s: State, e: Event): State
    requires Enabled(s, e)
  {
    match e
    case RunTask =>
      var s1 := s.(submitted := s.submitted + 1);
      if s.current >= s.max then s1.(queue := s.queue + [s.submitted]) else Begin(s1, s.submitted)
    case Finish(t) =>
      var s1 := s.(current := if s.current > 0 then s.current - 1 else 0, running := s.running - {t});
      if s.queue == [] then s1 else s1.(queue := s.queue[1..], woken := s.woken + [s.queue[0]])
    case Resume => Begin(s.(woken := s.woken[1..]), s.woken[0])
  }

  // 0, 1, ..., n - 1
  function UpTo(n: nat): seq<nat> { seq(n, i => i) }

  ghost predicate Inv(s: State) {
    && s.current == |s.running|
    && (forall t | t in s.running :: t in s.started)
    && s.current + |s.woken| <= s.max
    && (s.queue != [] ==> s.current + |s.woken| == s.max)
    && s.started + s.woken + s.queue == UpTo(s.submitted)
  }

  function Initial(max: nat): State { State(max, 0, [], [], [], {}, 0) }

  lemma UpToNext(n: nat)
    ensures UpTo(n + 1) == UpTo(n) + [n]
  {
  }

  lemma NotStartedYet(s: State, i: nat)
    requires Inv(s) && i < |s.woken|
    ensures s.woken[i] !in s.running
  {
    var all := s.started + s.woken + s.queue;
    assert all[|s.started| + i] == s.woken[i];
    forall j | 0 <= j < |s.started| ensures s.started[j] != s.woken[i] {
      assert all[j] == s.started[j];
    }
  }

  // Finishing and resuming always keep the invariant.
  lemma SlotsAreHandedOn(s: State, e: Event)
    requires Inv(s) && Enabled(s, e) && !e.RunTask?
    ensures Inv(Step(s, e))
  {
    match e
    case Finish(t) =>
      if s.queue != [] {
        assert s.started + (s.woken + [s.queue[0]]) + s.queue[1..] == s.started + s.woken + s.queue;
      }
    case Resume =>
      NotStartedYet(s, 0);
      assert (s.started + [s.woken[0]]) + s.woken[1..] + s.queue == s.started + s.woken + s.queue;
  }

  predicate CallIsSafe(s: State) { s.current >= s.max || s.woken == [] }

  // MAIN: a `run` call keeps the limit and the order exactly when no woken waiter is about to
  // take a slot that the call sees free.
  lemma RunKeepsInvIff(s: State)
    requires Inv(s)
    ensures Inv(Step(s, RunTask)) <==> CallIsSafe(s)
  {
    var r := Step(s, RunTask);
    UpToNext(s.submitted);
    var n := s.submitted;
    if s.current >= s.max {
      assert s.started + s.woken + (s.queue + [n]) == (s.started + s.woken + s.queue) + [n];
    } else {
      if n in s.running {
        var j :| 0 <= j < |s.started| && s.started[j] == n;
        assert (s.started + s.woken + s.queue)[j] == n;
      }
      if s.woken == [] {
        assert s.queue == [];
        assert (s.started + [n]) + s.woken + s.queue == (s.started + s.woken + s.queue) + [n];
      } else {
        var before, after := s.started + s.woken + s.queue, (s.started + [n]) + s.woken + s.queue;
        assert before[|s.started|] == s.woken[0] == UpTo(n)[|s.started|] == |s.started|;
        assert after[|s.started|] == n;
      }
    }
  }

  // MAIN: the limit alone is kept exactly when the call waits, or a slot is left over for it
  // beside the woken waiters; between that and a safe call only the order is lost.
  lemma LimitKeptIff(s: State)
    requires Inv(s)
    ensures var r := Step(s, RunTask);
      r.current + |r.woken| <= r.max <==> s.current >= s.max || s.current + |s.woken| < s.max
  {
  }

  // Then the waiters that were woken before are overtaken, and start after the new task.
  lemma OrderLostIff(s: State)
    requires Inv(s)
    ensures var r := Step(s, RunTask);
      r.started + r.woken + r.queue == UpTo(r.submitted) <==> CallIsSafe(s)
  {
    RunKeepsInvIff(s);
    var r := Step(s, RunTask);
    var n := s.submitted;
    if s.current < s.max && s.woken != [] {
      var before, after := s.started + s.woken + s.queue, r.started + r.woken + r.queue;
      assert before[|s.started|] == UpTo(n)[|s.started|] == |s.started|;
      assert after[|s.started|] == n && UpTo(n + 1)[|s.started|] == |s.started|;
    }
  }

  ghost predicate IsRun(s: State, es: seq<Event>)
    decreases |es|
  {
    es == [] || (Enabled(s, es[0]) && (es[0].RunTask? ==> CallIsSafe(s)) && IsRun(Step(s, es[0]), es[1..]))
  }

  ghost function Run(s: State, es: seq<Event>): State
    requires IsRun(s, es)
    decreases |es|
  {
    if es == [] then s else Run(Step(s, es[0]), es[1..])
  }

  lemma {:induction false} RunsKeepInv(s: State, es: seq<Event>)
    requires Inv(s) && IsRun(s, es)
    ensures Inv(Run(s, es)) && Run(s, es).max == s.max
    decreases |es|
  {
    if es != [] {
      if es[0].RunTask? { RunKeepsInvIff(s); } else { SlotsAreHandedOn(s, es[0]); }
      RunsKeepInv(Step(s, es[0]), es[1..]);
    }
  }

  // n run calls in a row.
  function Submit(s: State, n: nat): State
    decreases n
  {
    if n == 0 then s else Submit(Step(s, RunTask), n - 1)
  }

  lemma {:induction false} SubmitKeeps(s: State, n: nat)
    requires Inv(s) && s.woken == []
    ensures Inv(Submit(s, n)) && Submit(s, n).woken == [] && Submit(s, n).max == s.max
    ensures Submit(s, n).submitted == s.submitted + n
    decreases n
  {
    if n > 0 {
      RunKeepsInvIff(s);
      SubmitKeeps(Step(s, RunTask), n - 1);
    }
  }

  lemma RunTaskFirst(s: State, es: seq<Event>)
    requires CallIsSafe(s) && IsRun(Step(s, RunTask), es)
    ensures IsRun(s, [RunTask] + es) && Run(s, [RunTask] + es) == Run(Step(s, RunTask), es)
  {
    assert ([RunTask] + es)[1..] == es;
  }

  // Submitting a whole batch first, as the sender does, is always safe.
  lemma {:induction false} BatchIsSafe(s: State, n: nat)
    requires Inv(s) && s.woken == []
    ensures var es := seq(n, i => RunTask);
      IsRun(s, es) && Run(s, es) == Submit(s, n)
    ensures Inv(Submit(s, n))
    decreases n
  {
    SubmitKeeps(s, n);
    if n > 0 {
      RunKeepsInvIff(s);
      BatchIsSafe(Step(s, RunTask), n - 1);
      RunTaskFirst(s, seq(n - 1, i => RunTask));
      assert seq(n, i => RunTask) == [RunTask] + seq(n - 1, i => RunTask);
    }
  }

  // How many finishes and resumes are still to come.
  function Remaining(s: State): nat { 2 * |s.queue| + 2 * |s.woken| + s.current }

  // MAIN: a batch is never stranded: as long as a task has not finished, something can happen,
  // every such step comes nearer to the end, and at the end each task ran once, in order.
  lemma NoTaskIsStranded(s: State)
    requires Inv(s) && s.max > 0
    ensures forall e | Enabled(s, e) && !e.RunTask? :: Remaining(Step(s, e)) < Remaining(s)
    ensures (forall e: Event | !e.RunTask? :: !Enabled(s, e)) ==>
              s.started == UpTo(s.submitted) && s.running == {} && s.queue == []
  {
    if forall e: Event | !e.RunTask? :: !Enabled(s, e) {
      assert !Enabled(s, Resume);
      forall t ensures t !in s.running { assert !Enabled(s, Finish(t)); }
      assert s.running == {};
      assert s.started + s.woken + s.queue == s.started;
    }
  }

  lemma {:induction false} WorkIsBounded(s: State, es: seq<Event>)
    requires Inv(s) && s.max > 0 && IsRun(s, es) && RunTask !in es
    ensures |es| + Remaining(Run(s, es)) <= Remaining(s)
    ensures Run(s, es).submitted == s.submitted
    decreases |es|
  {
    if es != [] {
      assert es[0] != RunTask;
      NoTaskIsStranded(s);
      SlotsAreHandedOn(s, es[0]);
      WorkIsBounded(Step(s, es[0]), es[1..]);
    }
  }

  // MAIN: the sender's use, from beginning to end. A batch of n tasks is submitted; then every
  // run of finishes and resumptions keeps the limit and takes at most 2 * n of them, and
  // when none is possible any more, every task has started once, in order, and none runs.
  lemma BatchRunsToTheEnd(max: nat, n: nat, es: seq<Event>)
    requires max > 0 && RunTask !in es && IsRun(Submit(Initial(max), n), es)
    ensures var r := Run(Submit(Initial(max), n), es);
      && r.current + |r.woken| <= max
      && |es| <= 2 * n
      && ((forall e: Event | !e.RunTask? :: !Enabled(r, e)) ==> r.started == UpTo(n) && r.running == {})
  {
    SubmitKeeps(Initial(max), n);
    var s := Submit(Initial(max), n);
    RemainingAtMost(s);
    RunsKeepInv(s, es);
    WorkIsBounded(s, es);
    NoTaskIsStranded(Run(s, es));
  }

  lemma RemainingAtMost(s: State)
    requires Inv(s)
    ensures Remaining(s) <= 2 * s.submitted
  {
    assert |s.started| + |s.woken| + |s.queue| == |UpTo(s.submitted)|;
    RunningAmong(s.running, s.started);
  }

  lemma {:induction false} RunningAmong(running: set<nat>, started: seq<nat>)
    requires forall t | t in running :: t in started
    ensures |running| <= |started|
    decreases |started|
  {
    if started == [] {
      assert running == {};
    } else {
      var last := started[|started| - 1];
      RunningAmong(running - {last}, started[..|started| - 1]);
      assert running <= (running - {last}) + {last};
    }
  }

  // A call between a finish and the resumption it caused overtakes the waiter and breaks the limit.
  lemma OvertakingBreaksTheLimit()
    ensures var s := Step(Step(Step(Initial(1), RunTask), RunTask), Finish(0));
            && Inv(s) && !CallIsSafe(s)
            && var r := Step(Step(s, RunTask), Resume);
            r.current == 2 && r.max == 1 && r.started == [0, 2, 1]
  {
    assert Inv(Initial(1));
    RunKeepsInvIff(Initial(1));
    RunKeepsInvIff(Step(Initial(1), RunTask));
    SlotsAreHandedOn(Step(Step(Initial(1), RunTask), RunTask), Finish(0));
  }

  /** The object itself, with the bookkeeping of its tasks as ghost fields. */
  class Semaphore {
    const max: nat
    var queue: seq<nat>
    var current: nat
    ghost var woken: seq<nat>
    ghost var started: seq<nat>
    ghost var running: set<nat>
    ghost var submitted: nat

    ghost function View(): State
      reads this
    {
      State(max, current, queue, woken, started, running, submitted)
    }

    constructor (max: nat)
      ensures View() == Initial(max)
    {
      this.max, queue, current, woken, started, running, submitted := max, [], 0, [], [], {}, 0;
    }

    // The part of `run` before the first await; `waits` when the slot has to be awaited.
    method RunTaskNow(task: nat) returns (waits: bool)
      requires task == submitted
      modifies this
      ensures View() == Step(old(View()), RunTask)
      ensures waits <==> old(current) >= max
    {
      submitted := submitted + 1;
      waits := current >= max;
      if waits {
        queue := queue + [task];
      } else {
        current := current + 1;
        started, running := started + [task], running + {task};
      }
    }

    // After the wait.
    method ResumeWaiter()
      requires Enabled(View(), Resume)
      modifies this
      ensures View() == Step(old(View()), Resume)
    {
      current := current + 1;
      started, running, woken := started + [woken[0]], running + {woken[0]}, woken[1..];
    }

    // The finally block, after success or failure alike.
    method Release(ghost task: nat)
      requires Enabled(View(), Finish(task)) && current > 0
      modifies this
      ensures View() == Step(old(View()), Finish(task))
    {
      current := current - 1;
      running := running - {task};
      if |queue| > 0 {
        woken := woken + [queue[0]];
        queue := queue[1..];
      }
    }
  }
}
