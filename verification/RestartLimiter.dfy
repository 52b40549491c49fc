/**
 The sliding-window limit on restarting one worker. Only the supervisor thread touches this
 state, so a run is a sequence of its actions on the worker, with clock readings that never go
 backwards.
 */
module RestartLimiter {
  import opened Core

  datatype Policy = Policy(limit: nat, window: int, backoff: int) {
    predicate Valid() { window > 0 && backoff >= 0 }
  }

  /** restart_times and next_restart_at. */
  datatype Limiter = Limiter(times: seq<int>, next: Option<int>)

  /** The popleft loop: drop the attempts before the cutoff from the front. */
  function Prune(times: seq<int>, cutoff: int): (r: seq<int>)
    ensures |r| <= |times| && r == times[|times| - |r|..]
    ensures forall i :: 0 <= i < |times| - |r| ==> times[i] < cutoff
    ensures r != [] ==> r[0] >= cutoff
  {
    if times != [] && times[0] < cutoff then Prune(times[1..], cutoff) else times
  }

  lemma PruneStep(times: seq<int>, cutoff: int)
    ensures Prune(times, cutoff) == if times != [] && times[0] < cutoff then Prune(times[1..], cutoff) else times
  {
  }

  /** _schedule_restart. */
  function Schedule(l: Limiter, now: int, policy: Policy): Limiter {
    var kept := Prune(l.times, now - policy.window);
    Limiter(kept, if |kept| >= policy.limit then None else Some(now + policy.backoff))
  }

  /** The start of _restart_worker. */
  function Attempt(l: Limiter, at: int): Limiter {
    Limiter(l.times + [at], None)
  }

  // ---------- one worker under the supervisor ----------

  /** How a restart ends: the worker is ready; the launch failed; the pool was closing before it;
      or the pool started closing while it was waited for, which may have stopped the worker. */
  datatype Outcome = Ready | FailedAt(time: int) | Abandoned | Interrupted(stopped: bool)

  /** One pass of the supervisor loop over the worker: the clock read at the start of the pass,
      whether the process is dead, and, for a restart, the clock at its start and how it ends. */
  datatype Visit = Visit(now: int, dead: bool, at: int, outcome: Outcome)

  /** attempts is the whole history, which the program does not keep. */
  datatype Supervised = Supervised(limiter: Limiter, alive: bool, clock: int, attempts: seq<int>)

  /** The clock does not go backwards. */
  predicate Timed(s: Supervised, v: Visit) {
    s.clock <= v.now <= v.at && (v.outcome.FailedAt? ==> v.at <= v.outcome.time)
  }

  predicate Due(s: Supervised, now: int) {
    !s.alive && s.limiter.next.Some? && now >= s.limiter.next.value
  }

  function Restart(s: Supervised, at: int, outcome: Outcome, policy: Policy): Supervised {
    var l := Attempt(s.limiter, at);
    match outcome
    case Ready => Supervised(l, true, at, s.attempts + [at])
    case Abandoned => Supervised(l, false, at, s.attempts + [at])
    case Interrupted(_) => Supervised(l, false, at, s.attempts + [at])
    case FailedAt(t) => Supervised(Schedule(l, t, policy), false, t, s.attempts + [at])
  }

  function Act(s: Supervised, v: Visit, policy: Policy): Supervised {
    if s.alive && v.dead then Supervised(Schedule(s.limiter, v.now, policy), false, v.now, s.attempts)
    else if Due(s, v.now) then Restart(s, v.at, v.outcome, policy)
    else s.(clock := v.now)
  }

  ghost predicate Run(states: seq<Supervised>, visits: seq<Visit>, policy: Policy) {
    && policy.Valid() && |states| == |visits| + 1
    && states[0].limiter == Limiter([], None) && states[0].alive && states[0].attempts == []
    && forall i {:trigger visits[i]} :: 0 <= i < |visits| ==>
         Timed(states[i], visits[i]) && states[i + 1] == Act(states[i], visits[i], policy)
  }

  // ---------- the invariant ----------

  predicate Sorted(xs: seq<int>) {
    forall i, j :: 0 <= i <= j < |xs| ==> xs[i] <= xs[j]
  }

  /** An attempt and the one limit attempts before it are more than a window apart. */
  predicate Spaced(xs: seq<int>, policy: Policy) {
    forall i :: policy.limit <= i < |xs| ==> xs[i] - xs[i - policy.limit] > policy.window
  }

  predicate BackedOff(xs: seq<int>, policy: Policy) {
    forall i :: 0 < i < |xs| ==> xs[i] - xs[i - 1] >= policy.backoff
  }

  /** The first n attempts are before a moment. */
  predicate Before(xs: seq<int>, n: int, time: int) {
    forall i :: 0 <= i < n && i < |xs| ==> xs[i] < time
  }

  predicate NoneAfter(xs: seq<int>, time: int) {
    forall i :: 0 <= i < |xs| ==> xs[i] <= time
  }

  predicate Tail(xs: seq<int>, ys: seq<int>) {
    |ys| <= |xs| && ys == xs[|xs| - |ys|..]
  }

  /** The deque holds the last attempts; those it has dropped are older than the window. */
  ghost predicate History(l: Limiter, attempts: seq<int>, clock: int, policy: Policy) {
    && Tail(attempts, l.times)
    && Before(attempts, |attempts| - |l.times|, clock - policy.window)
    && Sorted(attempts) && NoneAfter(attempts, clock)
  }

  ghost predicate Inv(s: Supervised, policy: Policy) {
    && History(s.limiter, s.attempts, s.clock, policy)
    && Spaced(s.attempts, policy) && BackedOff(s.attempts, policy)
    && (s.limiter.next.Some? ==>
          && |s.limiter.times| < policy.limit
          && s.limiter.next.value <= s.clock + policy.backoff
          && (s.attempts != [] ==> s.limiter.next.value >= s.attempts[|s.attempts| - 1] + policy.backoff))
  }

  lemma LaterHistory(l: Limiter, attempts: seq<int>, clock: int, now: int, policy: Policy)
    requires History(l, attempts, clock, policy) && clock <= now
    ensures History(l, attempts, now, policy)
  {
  }

  lemma PrunedAre(times: seq<int>, cutoff: int, i: nat)
    requires i < |times| - |Prune(times, cutoff)|
    ensures times[i] < cutoff
  {
  }

  lemma TailOfTail(xs: seq<int>, ys: seq<int>, zs: seq<int>)
    requires Tail(xs, ys) && Tail(ys, zs)
    ensures Tail(xs, zs)
  {
  }

  lemma TailAt(xs: seq<int>, ys: seq<int>, i: nat)
    requires Tail(xs, ys) && |xs| - |ys| <= i < |xs|
    ensures xs[i] == ys[i - (|xs| - |ys|)]
  {
  }

  lemma DroppedAt(l: Limiter, attempts: seq<int>, cutoff: int, i: nat)
    requires Tail(attempts, l.times)
    requires |attempts| - |l.times| <= i < |attempts| - |Prune(l.times, cutoff)|
    ensures attempts[i] < cutoff
  {
    TailAt(attempts, l.times, i);
    PrunedAre(l.times, cutoff, i - (|attempts| - |l.times|));
  }

  lemma DroppedAreOld(l: Limiter, attempts: seq<int>, clock: int, now: int, policy: Policy)
    requires History(l, attempts, clock, policy) && clock <= now
    ensures Before(attempts, |attempts| - |Prune(l.times, now - policy.window)|, now - policy.window)
    ensures NoneAfter(attempts, now)
  {
    hide Sorted, Prune;
    forall i: nat | |attempts| - |l.times| <= i < |attempts| - |Prune(l.times, now - policy.window)|
      ensures attempts[i] < now - policy.window
    {
      DroppedAt(l, attempts, now - policy.window, i);
    }
  }

  lemma PruneIsTail(times: seq<int>, cutoff: int)
    ensures Tail(times, Prune(times, cutoff))
  {
  }

  lemma ScheduleKeeps(l: Limiter, attempts: seq<int>, clock: int, now: int, policy: Policy)
    requires History(l, attempts, clock, policy) && clock <= now
    ensures History(Schedule(l, now, policy), attempts, now, policy)
  {
    hide Prune, Sorted, Before, NoneAfter, Tail;
    DroppedAreOld(l, attempts, clock, now, policy);
    PruneIsTail(l.times, now - policy.window);
    TailOfTail(attempts, l.times, Prune(l.times, now - policy.window));
  }

  lemma AttemptHistory(s: Supervised, at: int, policy: Policy)
    requires policy.Valid() && Inv(s, policy) && s.clock <= at
    ensures History(Attempt(s.limiter, at), s.attempts + [at], at, policy)
  {
    hide Spaced, BackedOff;
    LaterHistory(s.limiter, s.attempts, s.clock, at, policy);
    var dropped := |s.attempts| - |s.limiter.times|;
    assert (s.attempts + [at])[dropped..] == s.attempts[dropped..] + [at];
  }

  lemma AttemptSpaced(s: Supervised, at: int, policy: Policy)
    requires policy.Valid() && Inv(s, policy) && s.limiter.next.Some? && s.clock <= at && s.limiter.next.value <= at
    ensures Spaced(s.attempts + [at], policy) && BackedOff(s.attempts + [at], policy)
  {
    hide Sorted;
    var xs := s.attempts + [at];
    var n := |s.attempts|;
    if policy.limit <= n {
      assert n - policy.limit < n - |s.limiter.times|;
      assert at - s.attempts[n - policy.limit] > policy.window;
    }
  }

  lemma ScheduleActs(s: Supervised, now: int, policy: Policy)
    requires policy.Valid() && Inv(s, policy) && s.clock <= now
    ensures Inv(Supervised(Schedule(s.limiter, now, policy), false, now, s.attempts), policy)
  {
    ScheduleKeeps(s.limiter, s.attempts, s.clock, now, policy);
    LastAttempt(s.limiter, s.attempts, s.clock, policy);
    hide Prune, History, Spaced, BackedOff;
  }

  lemma LastAttempt(l: Limiter, attempts: seq<int>, clock: int, policy: Policy)
    requires History(l, attempts, clock, policy)
    ensures attempts != [] ==> attempts[|attempts| - 1] <= clock
  {
  }

  lemma AttemptActs(s: Supervised, at: int, policy: Policy)
    requires policy.Valid() && Inv(s, policy) && s.limiter.next.Some? && s.clock <= at && s.limiter.next.value <= at
    ensures forall alive :: Inv(Supervised(Attempt(s.limiter, at), alive, at, s.attempts + [at]), policy)
  {
    AttemptHistory(s, at, policy);
    AttemptSpaced(s, at, policy);
    hide History, Spaced, BackedOff;
  }

  lemma WaitActs(s: Supervised, now: int, policy: Policy)
    requires policy.Valid() && Inv(s, policy) && s.clock <= now
    ensures Inv(s.(clock := now), policy)
  {
    LaterHistory(s.limiter, s.attempts, s.clock, now, policy);
    hide History, Spaced, BackedOff;
  }

  lemma ActKeeps(s: Supervised, v: Visit, policy: Policy)
    requires policy.Valid() && Inv(s, policy) && Timed(s, v)
    ensures Inv(Act(s, v, policy), policy)
  {
    hide Inv, Schedule;
    if s.alive && v.dead {
      ScheduleActs(s, v.now, policy);
    } else if Due(s, v.now) {
      AttemptActs(s, v.at, policy);
      if v.outcome.FailedAt? {
        ScheduleActs(Supervised(Attempt(s.limiter, v.at), false, v.at, s.attempts + [v.at]), v.outcome.time, policy);
      }
    } else {
      WaitActs(s, v.now, policy);
    }
  }

  lemma {:induction false} RunInv(states: seq<Supervised>, visits: seq<Visit>, policy: Policy, i: nat)
    requires Run(states, visits, policy) && i < |states|
    ensures Inv(states[i], policy)
  {
    if i > 0 {
      RunInv(states, visits, policy, i - 1);
      assert Timed(states[i - 1], visits[i - 1]);
      ActKeeps(states[i - 1], visits[i - 1], policy);
    }
  }

  // ---------- the guarantees ----------

  /** How many attempts fall into a closed interval. */
  function CountIn(xs: seq<int>, lo: int, hi: int): nat {
    if xs == [] then 0
    else CountIn(xs[..|xs| - 1], lo, hi) + if lo <= xs[|xs| - 1] <= hi then 1 else 0
  }

  lemma {:induction false} CountSuffix(xs: seq<int>, lo: int, hi: int, m: nat)
    requires m <= |xs| && forall i :: 0 <= i < m ==> xs[i] < lo
    ensures CountIn(xs, lo, hi) <= |xs| - m
    ensures (forall i :: m <= i < |xs| ==> lo <= xs[i] <= hi) ==> CountIn(xs, lo, hi) == |xs| - m
  {
    if xs != [] {
      var init := xs[..|xs| - 1];
      if m <= |init| {
        CountSuffix(init, lo, hi, m);
      } else {
        CountSuffix(init, lo, hi, |init|);
      }
    }
  }

  lemma {:induction false} SpacedBound(xs: seq<int>, policy: Policy, lo: int)
    requires Sorted(xs) && Spaced(xs, policy)
    ensures CountIn(xs, lo, lo + policy.window) <= policy.limit
  {
    if xs != [] {
      var n := |xs| - 1;
      if lo <= xs[n] <= lo + policy.window && policy.limit <= n {
        assert xs[n] - xs[n - policy.limit] > policy.window;
        assert forall i :: 0 <= i < n - policy.limit + 1 ==> xs[i] <= xs[n - policy.limit];
        CountSuffix(xs, lo, lo + policy.window, n - policy.limit + 1);
      } else if lo <= xs[n] <= lo + policy.window {
        CountSuffix(xs, lo, lo + policy.window, 0);
      } else {
        SpacedBound(xs[..n], policy, lo);
      }
    }
  }

  /** Over every run, no closed interval as long as the window holds more restart attempts of the
      worker than the limit, although old attempts are only forgotten when the next restart is
      scheduled; and consecutive attempts are at least the backoff apart. */
  lemma RestartsBounded(states: seq<Supervised>, visits: seq<Visit>, policy: Policy, i: nat, lo: int)
    requires Run(states, visits, policy) && i < |states|
    ensures CountIn(states[i].attempts, lo, lo + policy.window) <= policy.limit
    ensures BackedOff(states[i].attempts, policy)
  {
    RunInv(states, visits, policy, i);
    SpacedBound(states[i].attempts, policy, lo);
  }

  lemma KeptCounts(l: Limiter, attempts: seq<int>, now: int, policy: Policy)
    requires History(l, attempts, now, policy) && (l.times != [] ==> l.times[0] >= now - policy.window)
    ensures CountIn(attempts, now - policy.window, now) == |l.times|
  {
    var m := |attempts| - |l.times|;
    forall i | m <= i < |attempts| ensures now - policy.window <= attempts[i] <= now {
      assert attempts[m] == l.times[0];
      assert attempts[m] <= attempts[i];
    }
    CountSuffix(attempts, now - policy.window, now, m);
  }

  /** The pruned deque decides exactly as the whole history would: a restart is refused if and
      only if the last window already holds as many attempts as the limit. */
  lemma RefusedIff(s: Supervised, now: int, policy: Policy)
    requires Inv(s, policy) && s.clock <= now
    ensures Schedule(s.limiter, now, policy).next.None? <==>
              CountIn(s.attempts, now - policy.window, now) >= policy.limit
  {
    ScheduleKeeps(s.limiter, s.attempts, s.clock, now, policy);
    hide History, CountIn, Spaced, BackedOff;
    KeptCounts(Schedule(s.limiter, now, policy), s.attempts, now, policy);
  }

  /** A worker that was refused a restart is never restarted again. */
  lemma {:induction false} RefusedForever(states: seq<Supervised>, visits: seq<Visit>, policy: Policy, i: nat, j: nat)
    requires Run(states, visits, policy) && i <= j < |states|
    requires !states[i].alive && states[i].limiter.next.None?
    ensures !states[j].alive && states[j].limiter == states[i].limiter && states[j].attempts == states[i].attempts
    decreases j - i
  {
    if i < j {
      RefusedForever(states, visits, policy, i, j - 1);
      assert Timed(states[j - 1], visits[j - 1]);
    }
  }

  // ---------- the backoff ----------

  /** What is scheduled, by the whole history. */
  lemma ScheduleNext(s: Supervised, now: int, policy: Policy)
    requires Inv(s, policy) && s.clock <= now
    ensures Schedule(s.limiter, now, policy).next ==
              if CountIn(s.attempts, now - policy.window, now) < policy.limit then Some(now + policy.backoff) else None
  {
    hide Inv, Prune, CountIn;
    RefusedIff(s, now, policy);
  }

  /** The visit finds the worker dead at the moment m, or its launch fails at m. */
  predicate FailsAt(s: Supervised, v: Visit, s': Supervised, m: int) {
    || (s.alive && v.dead && m == v.now)
    || (|s'.attempts| > |s.attempts| && v.outcome == FailedAt(m))
  }

  /** A scheduled restart is not due before then. */
  predicate NotBefore(s: Supervised, m: int, policy: Policy) {
    m <= s.clock && (s.limiter.next.Some? ==> s.limiter.next.value >= m + policy.backoff)
  }

  lemma FailureSchedules(s: Supervised, v: Visit, m: int, policy: Policy)
    requires policy.Valid() && Inv(s, policy) && Timed(s, v) && FailsAt(s, v, Act(s, v, policy), m)
    ensures var s' := Act(s, v, policy);
      && NotBefore(s', m, policy) && !s'.alive
      && s'.limiter.next == if CountIn(s'.attempts, m - policy.window, m) < policy.limit then Some(m + policy.backoff)
                            else None
  {
    hide Inv, Prune, CountIn;
    if s.alive && v.dead {
      ScheduleNext(s, v.now, policy);
    } else {
      AttemptActs(s, v.at, policy);
      ScheduleNext(Supervised(Attempt(s.limiter, v.at), false, v.at, s.attempts + [v.at]), m, policy);
    }
  }

  lemma NotBeforeStays(s: Supervised, v: Visit, m: int, policy: Policy)
    requires policy.Valid() && Timed(s, v) && NotBefore(s, m, policy)
    ensures NotBefore(Act(s, v, policy), m, policy)
  {
    hide Prune;
  }

  lemma {:induction false} NotBeforeFrom(states: seq<Supervised>, visits: seq<Visit>, policy: Policy, i: nat, j: nat,
                                         m: int)
    requires Run(states, visits, policy) && i < j < |states| && FailsAt(states[i], visits[i], states[i + 1], m)
    ensures NotBefore(states[j], m, policy)
  {
    hide Act, NotBefore, Timed;
    assert Timed(states[j - 1], visits[j - 1]) && states[j - 1 + 1] == Act(states[j - 1], visits[j - 1], policy);
    if j == i + 1 {
      RunInv(states, visits, policy, i);
      FailureSchedules(states[i], visits[i], m, policy);
    } else {
      NotBeforeFrom(states, visits, policy, i, j - 1, m);
      NotBeforeStays(states[j - 1], visits[j - 1], m, policy);
    }
  }

  /** Over every run, after a worker was found dead, or its launch failed, no attempt to restart it
      begins before the backoff is over. */
  lemma BackoffKept(states: seq<Supervised>, visits: seq<Visit>, policy: Policy, i: nat, j: nat, m: int)
    requires Run(states, visits, policy) && i < j < |visits| && FailsAt(states[i], visits[i], states[i + 1], m)
    requires |states[j + 1].attempts| > |states[j].attempts|
    ensures states[j + 1].attempts == states[j].attempts + [visits[j].at]
    ensures visits[j].at >= visits[j].now >= m + policy.backoff
  {
    NotBeforeFrom(states, visits, policy, i, j, m);
    assert Timed(states[j], visits[j]);
    hide Schedule;
  }

  lemma {:induction false} WaitsUntil(states: seq<Supervised>, visits: seq<Visit>, policy: Policy, i: nat, j: nat,
                                      m: int)
    requires Run(states, visits, policy) && i < j < |states| && FailsAt(states[i], visits[i], states[i + 1], m)
    requires CountIn(states[i + 1].attempts, m - policy.window, m) < policy.limit
    requires forall k :: i < k < j ==> visits[k].now < m + policy.backoff
    ensures !states[j].alive && states[j].limiter.next == Some(m + policy.backoff)
    ensures states[j].attempts == states[i + 1].attempts
  {
    hide FailsAt, CountIn, Schedule;
    assert Timed(states[j - 1], visits[j - 1]) && states[j - 1 + 1] == Act(states[j - 1], visits[j - 1], policy);
    if j == i + 1 {
      RunInv(states, visits, policy, i);
      hide Act, Timed;
      FailureSchedules(states[i], visits[i], m, policy);
    } else {
      WaitsUntil(states, visits, policy, i, j - 1, m);
    }
  }

  /** If the last window does not hold as many attempts as the limit, the first visit that finds the
      backoff over begins the next attempt. */
  lemma FirstVisitRestarts(states: seq<Supervised>, visits: seq<Visit>, policy: Policy, i: nat, j: nat, m: int)
    requires Run(states, visits, policy) && i < j < |visits| && FailsAt(states[i], visits[i], states[i + 1], m)
    requires CountIn(states[i + 1].attempts, m - policy.window, m) < policy.limit
    requires (forall k :: i < k < j ==> visits[k].now < m + policy.backoff) && visits[j].now >= m + policy.backoff
    ensures states[j + 1].attempts == states[i + 1].attempts + [visits[j].at]
  {
    WaitsUntil(states, visits, policy, i, j, m);
    assert Timed(states[j], visits[j]);
    hide Schedule, FailsAt, CountIn;
  }

  /** If it does, there is no further attempt. */
  lemma FullNeverRestarts(states: seq<Supervised>, visits: seq<Visit>, policy: Policy, i: nat, j: nat, m: int)
    requires Run(states, visits, policy) && i < j < |states| && FailsAt(states[i], visits[i], states[i + 1], m)
    requires CountIn(states[i + 1].attempts, m - policy.window, m) >= policy.limit
    ensures states[j].attempts == states[i + 1].attempts && !states[j].alive
  {
    hide Schedule, FailsAt, CountIn, Act, Timed, Inv;
    RunInv(states, visits, policy, i);
    assert Timed(states[i], visits[i]) && states[i + 1] == Act(states[i], visits[i], policy);
    FailureSchedules(states[i], visits[i], m, policy);
    RefusedForever(states, visits, policy, i + 1, j);
  }
}
