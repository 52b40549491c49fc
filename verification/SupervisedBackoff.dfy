/** When the supervisor restarts a worker, over every run of the supervised pool: not before the
    backoff is over, and in the first pass after it that visits the worker. */
module SupervisedBackoff {
  import opened Core
  import opened SmoothRoundRobin
  import opened PoolModel
  import opened PoolInvariant
  import opened StaleResults
  import opened SupervisedPool
  import opened SupervisedInvariant
  import opened SupervisedGuarantees
  import P = PoolRuns
  import R = RestartLimiter

  predicate RestartMode(s: World, w: WorkerId) {
    w.group in s.modes && s.modes[w.group].Restart?
  }

  /** The supervisor finds the worker dead in a pass that began at m, or its launch fails at m. */
  predicate FailsAt(s: World, e: Event, w: WorkerId, m: int) {
    || (e == SeeExit(w) && m == s.now)
    || (e.LaunchFails? && e.time == m && s.doing.Waiting? && s.doing.here && s.doing.worker == w && !s.sys.pool.closing)
  }

  // ---------- not before ----------

  /** The worker's next restart is not due before the backoff after m is over. */
  predicate NotBefore(s: World, w: WorkerId, m: int, backoff: int) {
    && w in s.watches && m <= s.watches[w].last
    && (s.watches[w].limiter.next.Some? ==> s.watches[w].limiter.next.value >= m + backoff)
  }

  lemma ScheduledNext(s: World, w: WorkerId, now: int)
    requires w in s.watches && RestartMode(s, w)
    ensures var x := Scheduled(s, w, now);
      x.last == now && (x.limiter.next.Some? ==> x.limiter.next.value == now + PolicyOf(s, w).backoff)
  {
    hide R.Prune;
  }

  /** What a step does to a watch. */
  lemma WatchNext(s: World, e: Event, w: WorkerId)
    requires w in s.watches
    ensures NextWatch(s, e, w) ==
              if FailsAt(s, e, w, s.now) && e.SeeExit? then Scheduled(s, w, s.now)
              else if e.LaunchFails? && FailsAt(s, e, w, e.time) then Scheduled(s, w, e.time)
              else if e.BeginRestart? && e.worker == w then
                Watch(R.Attempt(s.watches[w].limiter, e.at), s.watches[w].attempts + [e.at], e.at)
              else s.watches[w]
  {
    hide Scheduled, R.Attempt;
  }

  lemma FailureNotBefore(s: World, e: Event, w: WorkerId, m: int)
    requires Inv(s) && Enabled(s, e) && FailsAt(s, e, w, m) && RestartMode(s, w) && InTable(Apply(s, e), w)
    ensures NotBefore(Apply(s, e), w, m, PolicyOf(s, w).backoff)
  {
    FailingIsWatched(s, e, w, m);
    NextState(s, e);
    hide Apply, Inv, Enabled, NextWatch, NextSys, Scheduled;
    WatchNext(s, e, w);
    ScheduledNext(s, w, m);
  }

  lemma FailingIsWatched(s: World, e: Event, w: WorkerId, m: int)
    requires Inv(s) && Enabled(s, e) && FailsAt(s, e, w, m)
    ensures w in s.watches
  {
    hide P.Inv, P.Enabled;
  }

  lemma NotBeforeStays(s: World, e: Event, w: WorkerId, m: int, backoff: int)
    requires Inv(s) && Enabled(s, e) && NotBefore(s, w, m, backoff) && InTable(s, w) && InTable(Apply(s, e), w)
    requires RestartMode(s, w) && PolicyOf(s, w).backoff == backoff
    ensures NotBefore(Apply(s, e), w, m, backoff)
  {
    hide Apply, WatchInv, NextWatch, NextSys, Scheduled, P.Inv, CallInv, P.Enabled, GenerationOf;
    assert WorkerInv(s, w);
    NextState(s, e);
    LaterAction(s, e, w);
    hide Inv, WorkerInv, Enabled;
    WatchNext(s, e, w);
    if e.SeeExit? && e.worker == w { ScheduledNext(s, w, s.now); }
    if e.LaunchFails? { ScheduledNext(s, w, e.time); }
  }

  /** The supervisor's actions on a worker are in the order of the clock. */
  lemma LaterAction(s: World, e: Event, w: WorkerId)
    requires WorkerInv(s, w) && InTable(s, w) && Enabled(s, e)
    ensures e == SeeExit(w) ==> s.watches[w].last <= s.now
    ensures e.LaunchFails? ==> s.watches[w].last <= e.time
    ensures e.BeginRestart? && e.worker == w ==> s.watches[w].last <= e.at
  {
    hide WatchInv, P.Enabled, GenerationOf;
  }

  lemma ModeKept(s: World, e: Event, w: WorkerId)
    requires Inv(s) && InTable(s, w) && RestartMode(s, w)
    ensures RestartMode(Apply(s, e), w) && PolicyOf(Apply(s, e), w) == PolicyOf(s, w)
  {
    NextState(s, e);
    ModeStays(s, e, w);
    hide Apply, Inv, NextModes;
  }

  lemma {:induction false} NotBeforeFrom(states: seq<World>, events: seq<Event>, i: nat, j: nat, w: WorkerId, m: int)
    requires Run(states, events) && i < j < |states| && FailsAt(states[i], events[i], w, m) && RestartMode(states[i], w)
    requires forall k :: i <= k <= j ==> InTable(states[k], w)
    ensures NotBefore(states[j], w, m, PolicyOf(states[i], w).backoff)
    ensures RestartMode(states[j], w) && PolicyOf(states[j], w) == PolicyOf(states[i], w)
  {
    hide Inv, Apply, Enabled, InTable, NotBefore, RestartMode, PolicyOf, FailsAt;
    RunStep(states, events, j - 1);
    assert InTable(states[j - 1], w) && InTable(states[j], w);
    if j == i + 1 {
      FailureNotBefore(states[i], events[i], w, m);
    } else {
      NotBeforeFrom(states, events, i, j - 1, w, m);
      NotBeforeStays(states[j - 1], events[j - 1], w, m, PolicyOf(states[i], w).backoff);
    }
    ModeKept(states[j - 1], events[j - 1], w);
  }

  /** However other threads interleave: after a worker in restart mode was found dead, or its launch
      failed, no attempt to restart it begins before the backoff is over. */
  lemma BackoffKept(states: seq<World>, events: seq<Event>, i: nat, j: nat, w: WorkerId, m: int)
    requires Run(states, events) && i < j < |events| && FailsAt(states[i], events[i], w, m) && RestartMode(states[i], w)
    requires forall k :: i <= k <= j ==> InTable(states[k], w)
    requires events[j].BeginRestart? && events[j].worker == w
    ensures events[j].at >= states[j].now >= m + PolicyOf(states[i], w).backoff
  {
    hide Inv, Apply, InTable, RestartMode, PolicyOf, FailsAt;
    NotBeforeFrom(states, events, i, j, w, m);
    RunStep(states, events, j);
    PassBefore(states[j]);
    hide P.Enabled;
  }

  lemma PassBefore(s: World)
    requires Inv(s)
    ensures s.now <= s.clock
  {
    hide P.Inv;
  }

  // ---------- in the first pass after it ----------

  /** Nobody but the supervisor, when READY comes, marks a worker alive. */
  lemma AliveStep(s: P.Sys, e: P.Event, w: WorkerId)
    requires w in s.pool.workers && !s.pool.workers[w].alive && P.Inv(s)
    requires w in P.Apply(s, e).pool.workers && e != P.Ready(w)
    ensures !P.Apply(s, e).pool.workers[w].alive
  {
    assert PoolInv(s.pool);
    hide P.Inv, PoolInv, P.Apply, Execute, Register, Unregister, HandleExit;
    match e {
      case Exec(t, h, o) =>
        PoolAfter(s, e);
        ExecuteWorkers(s.pool, t, h, s.created, o, w);
      case Load(g, hs, n) =>
        PoolAfter(s, e);
        LoadKillsOnly(s.pool, g, hs, n, w);
      case Unload(g) =>
        PoolAfter(s, e);
        UnloadKillsOnly(s.pool, g, w);
      case Exit(v) =>
        PoolAfter(s, e);
        ExitKillsOnly(s.pool, v, w);
      case Result(t, a) =>
        PoolAfter(s, e);
      case _ => RestKillsOnly(s, e, w);
    }
  }

  lemma RestKillsOnly(s: P.Sys, e: P.Event, w: WorkerId)
    requires w in s.pool.workers && !s.pool.workers[w].alive && e != P.Ready(w)
    requires w in P.Apply(s, e).pool.workers
    requires !e.Exec? && !e.Load? && !e.Unload? && !e.Exit? && !e.Result?
    ensures !P.Apply(s, e).pool.workers[w].alive
  {
    hide Execute, Register, Unregister, HandleExit, Receive;
  }

  lemma LoadKillsOnly(p: Pool<nat>, g: GroupName, hs: seq<HandlerName>, n: nat, w: WorkerId)
    requires PoolInv(p) && w in p.workers && w in Register(p, g, hs, n).workers && !p.workers[w].alive
    ensures !Register(p, g, hs, n).workers[w].alive
  {
    WorkerGroups(p, w);
    GroupsKeepGenerations(p, g, hs, n, w);
    hide PoolInv;
  }

  lemma UnloadKillsOnly(p: Pool<nat>, g: GroupName, w: WorkerId)
    requires w in p.workers && w in Unregister(p, g).0.workers && !p.workers[w].alive
    ensures !Unregister(p, g).0.workers[w].alive
  {
    hide DropRoutes, RemoveName, GroupTasks, FuturesOf;
  }

  lemma ExitKillsOnly(p: Pool<nat>, v: WorkerId, w: WorkerId)
    requires w in p.workers && w in HandleExit(p, v).0.workers && !p.workers[w].alive
    ensures !HandleExit(p, v).0.workers[w].alive
  {
    hide Owned, FuturesOf;
  }

  predicate Dead(s: World, w: WorkerId) {
    InTable(s, w) && !s.sys.pool.workers[w].alive
  }

  /** A worker that is launched and has not reported READY is not alive. */
  predicate WaitsDead(s: World) {
    s.doing.Waiting? && s.doing.here ==> Dead(s, s.doing.worker)
  }

  lemma DeadStays(s: World, e: Event, w: WorkerId)
    requires Inv(s) && Enabled(s, e) && Dead(s, w) && InTable(Apply(s, e), w)
    requires !(e.BecomeReady? && s.doing.Waiting? && s.doing.worker == w)
    ensures Dead(Apply(s, e), w)
  {
    hide Apply, P.Inv, P.Apply, P.Enabled;
    NextState(s, e);
    assert P.Inv(s.sys);
    hide Inv;
    if PoolStep(s, e).Some? {
      NotReady(s, e, w);
      hide Enabled, PoolStep;
      AliveStep(s.sys, PoolStep(s, e).value, w);
    }
  }

  lemma NotReady(s: World, e: Event, w: WorkerId)
    requires Enabled(s, e) && !(e.BecomeReady? && s.doing.Waiting? && s.doing.worker == w)
    ensures PoolStep(s, e) != Some(P.Ready(w))
  {
    hide P.Enabled;
  }

  lemma WaitsDeadStays(s: World, e: Event)
    requires Inv(s) && Enabled(s, e) && WaitsDead(s)
    ensures WaitsDead(Apply(s, e))
  {
    NextState(s, e);
    if e.BeginRestart? && e.launched {
      LaunchedDead(s, e.worker, e.at, e.anew);
    } else if s.doing.Waiting? && s.doing.here && !e.BecomeReady? {
      hide Apply, Inv, Enabled, NextSys;
      if NextDoing(s, e).Waiting? && NextDoing(s, e).here {
        StillHere(s, e);
        DeadStays(s, e, s.doing.worker);
      }
    } else {
      hide Apply, Inv, NextSys, P.Enabled;
    }
  }

  lemma StillHere(s: World, e: Event)
    requires Inv(s) && Enabled(s, e) && s.doing.Waiting? && s.doing.here && !e.BeginRestart?
    requires NextDoing(s, e).Waiting? && NextDoing(s, e).here
    ensures NextDoing(s, e).worker == s.doing.worker && InTable(Apply(s, e), s.doing.worker)
  {
    hide P.Inv, P.Enabled, NextSys, Apply, NextTodo;
    VisitsKeep(s, e);
    NextState(s, e);
    SameWorker(s, e);
    hide Inv, Enabled, NextDoing;
  }

  lemma SameWorker(s: World, e: Event)
    requires Enabled(s, e) && s.doing.Waiting? && !e.BeginRestart? && NextDoing(s, e).Waiting?
    ensures NextDoing(s, e).worker == s.doing.worker
  {
    hide P.Enabled, NextSys;
  }

  lemma LaunchedDead(s: World, w: WorkerId, at: int, anew: bool)
    requires Inv(s) && Enabled(s, BeginRestart(w, at, true, anew))
    ensures Dead(Apply(s, BeginRestart(w, at, true, anew)), w)
  {
    NextState(s, BeginRestart(w, at, true, anew));
    hide Apply, Inv;
  }

  lemma {:induction false} RunWaitsDead(states: seq<World>, events: seq<Event>, i: nat)
    requires Run(states, events) && i < |states|
    ensures WaitsDead(states[i])
  {
    hide Inv, Apply, Enabled, WaitsDead;
    if i == 0 {
      StartsLooking(states[0]);
    } else {
      RunWaitsDead(states, events, i - 1);
      RunStep(states, events, i - 1);
      WaitsDeadStays(states[i - 1], events[i - 1]);
    }
  }

  lemma StartsLooking(s: World)
    requires Start(s)
    ensures WaitsDead(s)
  {
  }

  /** The next restart of the worker is due then, and nothing else is under way for it. */
  predicate DueThen(s: World, w: WorkerId, next: Option<int>, attempts: seq<int>) {
    && Dead(s, w) && w in s.watches && s.watches[w].limiter.next == next && s.watches[w].attempts == attempts
    && !(s.doing.Waiting? && s.doing.worker == w)
  }

  /** What _schedule_restart decides, by the whole history of the worker. */
  lemma ScheduledDue(s: World, w: WorkerId, now: int)
    requires w in s.watches && RestartMode(s, w)
    requires WatchInv(s.watches[w], PolicyOf(s, w)) && s.watches[w].last <= now
    ensures var x, policy := Scheduled(s, w, now), PolicyOf(s, w);
      && x.attempts == s.watches[w].attempts
      && x.limiter.next == if R.CountIn(x.attempts, now - policy.window, now) < policy.limit
                           then Some(now + policy.backoff) else None
  {
    hide R.Inv, R.CountIn, R.Schedule;
    var x := s.watches[w];
    R.ScheduleNext(R.Supervised(x.limiter, false, x.last, x.attempts), now, PolicyOf(s, w));
  }

  function DueAfter(s: World, w: WorkerId, m: int, attempts: seq<int>): Option<int> {
    var policy := PolicyOf(s, w);
    if R.CountIn(attempts, m - policy.window, m) < policy.limit then Some(m + policy.backoff) else None
  }

  lemma FailureSchedules(s: World, e: Event, w: WorkerId, m: int)
    requires Inv(s) && Enabled(s, e) && FailsAt(s, e, w, m) && RestartMode(s, w) && WaitsDead(s)
    requires InTable(s, w) && InTable(Apply(s, e), w)
    ensures w in s.watches && DueThen(Apply(s, e), w, DueAfter(s, w, m, s.watches[w].attempts), s.watches[w].attempts)
  {
    hide Inv, Apply, Enabled, Scheduled, R.CountIn, Dead, WatchInv, WaitsDead, PolicyOf, RestartMode, FailsAt, InTable,
         NextDoing;
    FailedOrder(s, e, w, m);
    FailedDead(s, e, w, m);
    FailedLooking(s, e, w, m);
    FailedWatch(s, e, w, m);
    ScheduledDue(s, w, m);
  }

  lemma FailedOrder(s: World, e: Event, w: WorkerId, m: int)
    requires Inv(s) && Enabled(s, e) && FailsAt(s, e, w, m) && InTable(s, w)
    ensures w in s.watches && WatchInv(s.watches[w], PolicyOf(s, w)) && s.watches[w].last <= m
  {
    assert WorkerInv(s, w);
    LaterAction(s, e, w);
    hide Inv, Enabled, WatchInv, PolicyOf;
  }

  lemma FailedLooking(s: World, e: Event, w: WorkerId, m: int)
    requires Enabled(s, e) && FailsAt(s, e, w, m) && RestartMode(s, w)
    ensures !NextDoing(s, e).Waiting?
  {
    hide P.Enabled;
  }

  lemma FailedWatch(s: World, e: Event, w: WorkerId, m: int)
    requires w in s.watches && FailsAt(s, e, w, m) && InTable(Apply(s, e), w)
    ensures w in Apply(s, e).watches && Apply(s, e).watches[w] == Scheduled(s, w, m)
    ensures Apply(s, e).doing == NextDoing(s, e)
  {
    NextState(s, e);
    hide Apply, NextWatch, NextSys, Scheduled, NextDoing;
    WatchNext(s, e, w);
  }

  lemma FailedDead(s: World, e: Event, w: WorkerId, m: int)
    requires Inv(s) && Enabled(s, e) && FailsAt(s, e, w, m) && WaitsDead(s) && InTable(Apply(s, e), w)
    ensures Dead(Apply(s, e), w)
  {
    if e.SeeExit? {
      SeenDead(s, w);
    } else {
      DeadStays(s, e, w);
    }
    hide Apply, Enabled, Inv;
  }

  lemma SeenDead(s: World, w: WorkerId)
    requires Inv(s) && Enabled(s, SeeExit(w))
    ensures InTable(Apply(s, SeeExit(w)), w) ==> Dead(Apply(s, SeeExit(w)), w)
  {
    NextState(s, SeeExit(w));
    hide Apply, Inv, Owned, FuturesOf;
  }

  lemma DueStays(s: World, e: Event, w: WorkerId, next: Option<int>, attempts: seq<int>)
    requires Inv(s) && Enabled(s, e) && DueThen(s, w, next, attempts) && InTable(Apply(s, e), w)
    requires !(e.BeginRestart? && e.worker == w)
    ensures DueThen(Apply(s, e), w, next, attempts)
  {
    hide Apply, Inv, NextWatch, NextSys, Scheduled, P.Enabled;
    DeadNotSeen(s, e, w);
    NotWaiting(s, e, w);
    hide Enabled, NextDoing;
    DeadStays(s, e, w);
    NextState(s, e);
    hide Dead;
    WatchNext(s, e, w);
  }

  lemma NotWaiting(s: World, e: Event, w: WorkerId)
    requires Enabled(s, e) && !(s.doing.Waiting? && s.doing.worker == w) && !(e.BeginRestart? && e.worker == w)
    ensures !(NextDoing(s, e).Waiting? && NextDoing(s, e).worker == w)
  {
    hide P.Enabled, NextSys;
  }

  lemma DeadNotSeen(s: World, e: Event, w: WorkerId)
    requires Enabled(s, e) && Dead(s, w)
    ensures e != SeeExit(w)
  {
    hide P.Enabled;
  }

  lemma {:induction false} DueFrom(states: seq<World>, events: seq<Event>, i: nat, j: nat, w: WorkerId, m: int)
    requires Run(states, events) && i < j < |states| && FailsAt(states[i], events[i], w, m) && RestartMode(states[i], w)
    requires forall k :: i <= k <= j ==> InTable(states[k], w)
    requires forall k :: i < k < j ==> !(events[k].BeginRestart? && events[k].worker == w)
    ensures w in states[i].watches
    ensures var attempts := states[i].watches[w].attempts;
      DueThen(states[j], w, DueAfter(states[i], w, m, attempts), attempts)
  {
    hide Inv, Apply, Enabled, InTable, DueThen, RestartMode, DueAfter, FailsAt, WaitsDead;
    RunStep(states, events, j - 1);
    assert InTable(states[j - 1], w) && InTable(states[j], w);
    if j == i + 1 {
      RunWaitsDead(states, events, i);
      FailureSchedules(states[i], events[i], w, m);
    } else {
      DueFrom(states, events, i, j - 1, w, m);
      var attempts := states[i].watches[w].attempts;
      DueStays(states[j - 1], events[j - 1], w, DueAfter(states[i], w, m, attempts), attempts);
    }
  }

  /** After such a moment and until the next attempt, the supervisor can begin to restart the worker
      if and only if the last window holds fewer attempts than the limit and the backoff is over for
      the pass it is in; whenever a pass that began then comes to the worker, that is what it does. */
  lemma RestartsIffDue(states: seq<World>, events: seq<Event>, i: nat, j: nat, w: WorkerId, m: int, at: int)
    requires Run(states, events) && i < j < |states| && FailsAt(states[i], events[i], w, m) && RestartMode(states[i], w)
    requires forall k :: i <= k <= j ==> InTable(states[k], w)
    requires forall k :: i < k < j ==> !(events[k].BeginRestart? && events[k].worker == w)
    requires states[j].doing.Looking? && w in states[j].todo && states[j].clock <= at
    ensures w in states[i].watches
    ensures var policy := PolicyOf(states[i], w);
            var recent := R.CountIn(states[i].watches[w].attempts, m - policy.window, m);
            var launched := !states[j].sys.pool.closing;
      Enabled(states[j], BeginRestart(w, at, launched, launched)) <==>
        recent < policy.limit && states[j].now >= m + policy.backoff
    ensures !Enabled(states[j], SeeExit(w))
  {
    hide Inv, Apply, Run, FailsAt, RestartMode;
    DueFrom(states, events, i, j, w, m);
    DueMeans(states[j], w, at, DueAfter(states[i], w, m, states[i].watches[w].attempts), states[i].watches[w].attempts);
  }

  lemma DueMeans(s: World, w: WorkerId, at: int, next: Option<int>, attempts: seq<int>)
    requires DueThen(s, w, next, attempts) && s.doing.Looking? && w in s.todo && s.clock <= at
    ensures var launched := !s.sys.pool.closing;
      Enabled(s, BeginRestart(w, at, launched, launched)) <==> next.Some? && s.now >= next.value
    ensures !Enabled(s, SeeExit(w))
  {
  }
}
