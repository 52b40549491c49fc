/** What the supervisor does to the pool and to a worker's restart limiter, as functions. */
module Supervisor {
  import opened Core
  import opened SmoothRoundRobin
  import opened PoolModel
  import opened PoolInvariant
  import Restarts = RestartLimiter

  datatype SafetyMode = Shutdown | Degrade | Restart

  /** How stopping the other workers' processes ends: all of them are stopped, or a process object
      that is closed already makes it raise after some of them. */
  datatype Halt = Through | Met(stopped: set<WorkerId>)

  /** _handle_worker_exit: the worker's requests are taken; in shutdown mode the other processes
      are stopped as well, and when that gets through all other requests are taken. */
  function AfterExit<F>(p: Pool<F>, w: WorkerId, mode: SafetyMode, halt: Halt): (Pool<F>, set<F>) {
    var (q, taken) := HandleExit(p, w);
    if !mode.Shutdown? then (q, taken)
    else
      var r := q.(accepting := false, closing := true);
      match halt
      case Met(stopped) => (StoppedIn(r, stopped), taken)
      case Through =>
        var (x, rest) := FailAll(StoppedIn(r, r.workers.Keys - {w}));
        (x, taken + rest)
  }

  function LimiterAfterExit(l: Restarts.Limiter, now: int, mode: SafetyMode, policy: Restarts.Policy)
    : Restarts.Limiter
  {
    if mode.Restart? then Restarts.Schedule(l, now, policy) else l
  }

  /** _restart_worker past its guard. */
  function AfterRestart<F>(p: Pool<F>, w: WorkerId, outcome: Restarts.Outcome): Pool<F> {
    match outcome
    case Ready => ResetWeight(SetAlive(Relaunch(p, w), w, true), w.group)
    case FailedAt(_) => SetAlive(Relaunch(p, w), w, false)
    case Abandoned => p
    case Interrupted(_) => SetAlive(Relaunch(p, w), w, false)
  }

  function LimiterAfterRestart(l: Restarts.Limiter, at: int, outcome: Restarts.Outcome, policy: Restarts.Policy)
    : Restarts.Limiter
  {
    match outcome
    case FailedAt(t) => Restarts.Schedule(Restarts.Attempt(l, at), t, policy)
    case _ => Restarts.Attempt(l, at)
  }

  predicate RestartDue(alive: bool, l: Restarts.Limiter, now: int) {
    !alive && l.next.Some? && now >= l.next.value
  }

  /** One pass of the supervisor loop over a worker of an open pool. */
  function AfterVisit<F>(p: Pool<F>, w: WorkerId, l: Restarts.Limiter, v: Restarts.Visit, mode: SafetyMode,
                         policy: Restarts.Policy, halt: Halt)
    : (Pool<F>, set<F>, Restarts.Limiter)
    requires w in p.workers
  {
    if p.workers[w].alive && v.dead then
      var (q, taken) := AfterExit(p, w, mode, halt);
      (q, taken, LimiterAfterExit(l, v.now, mode, policy))
    else if RestartDue(p.workers[w].alive, l, v.now) then
      (AfterRestart(p, w, v.outcome), {}, LimiterAfterRestart(l, v.at, v.outcome, policy))
    else (p, {}, l)
  }

  /** In restart mode a pass is a step of the limiter's own machine. */
  lemma VisitActs<F>(p: Pool<F>, w: WorkerId, l: Restarts.Limiter, v: Restarts.Visit, policy: Restarts.Policy,
                     clock: int, attempts: seq<int>)
    requires w in p.workers && !p.closing
    ensures var (q, _, l') := AfterVisit(p, w, l, v, Restart, policy, Through);
            var s := Restarts.Act(Restarts.Supervised(l, p.workers[w].alive, clock, attempts), v, policy);
      w in q.workers && l' == s.limiter && q.workers[w].alive == s.alive
  {
    hide Restarts.Schedule, AfterExit, AfterRestart;
    if p.workers[w].alive && v.dead {
      ExitKills(p, w);
    } else {
      RestartRevives(p, w, v.outcome);
    }
  }

  lemma ExitKills<F>(p: Pool<F>, w: WorkerId)
    requires w in p.workers && p.workers[w].alive
    ensures var q := AfterExit(p, w, Restart, Through).0; w in q.workers && !q.workers[w].alive
  {
    hide FailAll, FuturesOf;
  }

  lemma RestartRevives<F>(p: Pool<F>, w: WorkerId, outcome: Restarts.Outcome)
    requires w in p.workers && !p.closing
    ensures var q := AfterRestart(p, w, outcome);
      w in q.workers && q.workers[w].alive == if outcome.Abandoned? then p.workers[w].alive else outcome.Ready?
  {
  }

  // ---------- what an exit and a restart leave ----------

  /** The worker is dead and without work, its requests are out of the books, and its group starts
      afresh in the round robin; nothing else has changed. */
  ghost predicate Exited<F>(p: Pool<F>, w: WorkerId, q: Pool<F>) {
    && w in q.workers && q.workers == p.workers[w := q.workers[w]]
    && !q.workers[w].alive && q.workers[w].outstanding == 0
    && (w in p.workers ==> q.workers[w].generation == p.workers[w].generation)
    && q.assignments == (map t | t in p.assignments && p.assignments[t].worker != w :: p.assignments[t])
    && q.futures == (map t | t in p.futures && t in q.assignments :: p.futures[t])
    && (forall g :: At(q.smooth, g) == if g == w.group then 0 else At(p.smooth, g))
    && q == p.(workers := q.workers, assignments := q.assignments, futures := q.futures, smooth := q.smooth)
  }

  /** In degrade and restart mode an exit takes the worker's requests and leaves all others. */
  lemma ExitTakesOwn<F>(p: Pool<F>, w: WorkerId, mode: SafetyMode, halt: Halt)
    requires PoolInv(p) && w in p.workers && p.workers[w].alive && !mode.Shutdown?
    ensures var (q, failed) := AfterExit(p, w, mode, halt);
      && Exited(p, w, q)
      && failed == set t | t in p.assignments && p.assignments[t].worker == w :: p.futures[t]
  {
    hide PoolInv, HandleExit, Exited;
    OwnTaken(p, w);
  }

  lemma OwnTaken<F>(p: Pool<F>, w: WorkerId)
    requires PoolInv(p) && w in p.workers && p.workers[w].alive
    ensures p.assignments.Keys == p.futures.Keys
    ensures var (q, taken) := HandleExit(p, w);
      && Exited(p, w, q)
      && taken == set t | t in p.assignments && p.assignments[t].worker == w :: p.futures[t]
  {
    hide PoolInv;
    OwnedHere(p, w);
    var q := HandleExit(p, w).0;
    assert q.futures.Keys == p.futures.Keys - Owned(p, Assignment(w, p.workers[w].generation));
  }

  lemma OwnedHere<F>(p: Pool<F>, w: WorkerId)
    requires PoolInv(p) && w in p.workers
    ensures p.assignments.Keys == p.futures.Keys
    ensures forall t :: t in p.assignments ==>
              (p.assignments[t].worker == w <==> p.assignments[t] == Assignment(w, p.workers[w].generation))
  {
    forall t | t in p.assignments
      ensures p.assignments[t].worker == w <==> p.assignments[t] == Assignment(w, p.workers[w].generation)
    {
      assert TaskBooked(p, t);
    }
  }

  /** In shutdown mode the pool takes no more requests; unless stopping the others raises, every
      request fails, the books are empty and no worker is left alive. */
  lemma ExitEndsPool<F>(p: Pool<F>, w: WorkerId, halt: Halt)
    requires PoolInv(p) && w in p.workers && p.workers[w].alive
    ensures var (q, failed) := AfterExit(p, w, Shutdown, halt);
      && !q.accepting && q.closing && q.groups == p.groups && q.workers.Keys == p.workers.Keys
      && (halt.Through? ==>
            && failed == p.futures.Values && q.futures == map[] && q.assignments == map[]
            && forall v :: v in q.workers ==> !q.workers[v].alive && q.workers[v].outstanding == 0)
      && (halt.Met? ==>
            && failed == (set t | t in p.assignments && p.assignments[t].worker == w :: p.futures[t])
            && forall v :: v in q.workers ==>
                 (q.workers[v].alive <==> p.workers[v].alive && v != w && v !in halt.stopped))
  {
    hide PoolInv;
    OwnTaken(p, w);
    AllFail(p, w);
    hide HandleExit;
  }

  lemma AllFail<F>(p: Pool<F>, w: WorkerId)
    requires w in p.workers && p.workers[w].alive
    ensures var (q, taken) := HandleExit(p, w); taken + q.futures.Values == p.futures.Values
  {
    var (q, taken) := HandleExit(p, w);
    forall f ensures f in taken + q.futures.Values <==> f in p.futures.Values {
      if f in p.futures.Values {
        var t :| t in p.futures && p.futures[t] == f;
        if t in q.futures { assert q.futures[t] == f; }
      }
    }
  }

  /** A restart that comes to a launch makes the worker's next incarnation, which serves when READY
      comes, and then its group starts afresh in the round robin; nothing else changes. */
  lemma RestartLeaves<F>(p: Pool<F>, w: WorkerId, outcome: Restarts.Outcome)
    requires w in p.workers && !p.closing
    ensures var q := AfterRestart(p, w, outcome);
      && q == p.(workers := q.workers, smooth := q.smooth)
      && w in q.workers && q.workers == p.workers[w := q.workers[w]]
      && (outcome.Abandoned? ==> q == p)
      && (!outcome.Abandoned? ==> q.workers[w] == Worker(p.workers[w].generation + 1, outcome.Ready?, 0))
      && forall g :: At(q.smooth, g) == if g == w.group && outcome.Ready? then 0 else At(p.smooth, g)
  {
  }

  /** In shutdown and degrade mode no restart is ever scheduled. */
  lemma OnlyRestartSchedules<F>(p: Pool<F>, w: WorkerId, l: Restarts.Limiter, v: Restarts.Visit, mode: SafetyMode,
                                policy: Restarts.Policy, halt: Halt)
    requires w in p.workers && !mode.Restart? && l.next.None?
    ensures AfterVisit(p, w, l, v, mode, policy, halt).2 == l
    ensures !(p.workers[w].alive && v.dead) ==> AfterVisit(p, w, l, v, mode, policy, halt).0 == p
  {
  }
}
