/** What every step of the supervised pool keeps. */
module SupervisedInvariant {
  import opened Core
  import opened SmoothRoundRobin
  import opened PoolModel
  import opened PoolInvariant
  import opened StaleResults
  import opened SupervisedPool
  import P = PoolRuns
  import R = RestartLimiter
  import C = PoolClose

  // ---------- the invariant ----------

  /** The limiter is in order with respect to the whole history of its worker. */
  ghost predicate WatchInv(x: Watch, policy: R.Policy) {
    policy.Valid() && R.Inv(R.Supervised(x.limiter, false, x.last, x.attempts), policy)
  }

  /** The supervisor's last action on a worker is no later than now, and no later than the start of
      the pass if the pass has still to visit the worker; a worker was launched once plus at most
      once an attempt. */
  ghost predicate WorkerInv(s: World, w: WorkerId) {
    InTable(s, w) ==>
      && w in s.watches && w.group in s.modes && ValidMode(s.modes[w.group])
      && WatchInv(s.watches[w], PolicyOf(s, w))
      && s.watches[w].last <= s.clock && (w in s.todo ==> s.watches[w].last <= s.now)
      && GenerationOf(s.sys.pool, w) <= 1 + |s.watches[w].attempts|
  }

  predicate PastFailing(calls: map<nat, Call>, c: nat) {
    c in calls && (calls[c].Emptied? || calls[c].Ended?)
  }

  /** The futures a call took are held by it or done, and it has got past _fail_all_pending. */
  ghost predicate CallInv(s: World, c: nat) {
    && (c in s.sys.took <==> PastFailing(s.calls, c))
    && (c in s.sys.took ==> s.sys.took[c] <= s.sys.held + s.sys.done)
  }

  ghost predicate Inv(s: World) {
    && P.Inv(s.sys) && (forall w :: WorkerInv(s, w)) && (forall c :: CallInv(s, c))
    && s.watches.Keys == s.sys.pool.workers.Keys && s.now <= s.clock
    && (s.calls != map[] ==> s.sys.pool.closing)
    && s.todo <= s.sys.pool.workers.Keys && WaitInv(s)
  }

  /** A worker whose restart is waiting for READY has been visited in this pass. */
  predicate WaitInv(s: World) {
    s.doing.Waiting? && s.doing.here ==> InTable(s, s.doing.worker) && s.doing.worker !in s.todo
  }

  // ---------- one watch ----------

  lemma NewWatch(now: int, policy: R.Policy)
    requires policy.Valid()
    ensures WatchInv(Watch(R.Limiter([], None), [], now), policy)
  {
  }

  lemma ScheduleKeeps(x: Watch, now: int, policy: R.Policy)
    requires WatchInv(x, policy) && x.last <= now
    ensures WatchInv(x.(limiter := R.Schedule(x.limiter, now, policy), last := now), policy)
  {
    hide R.Inv, R.Schedule;
    R.ScheduleActs(R.Supervised(x.limiter, false, x.last, x.attempts), now, policy);
  }

  lemma AttemptKeeps(x: Watch, at: int, policy: R.Policy)
    requires WatchInv(x, policy) && x.last <= at && x.limiter.next.Some? && x.limiter.next.value <= at
    ensures WatchInv(Watch(R.Attempt(x.limiter, at), x.attempts + [at], at), policy)
  {
    hide R.Inv;
    R.AttemptActs(R.Supervised(x.limiter, false, x.last, x.attempts), at, policy);
  }

  /** The clock reading a step gives to a worker's last action. */
  lemma ScheduledWatch(s: World, w: WorkerId, now: int)
    requires w in s.watches && ValidMode(if w.group in s.modes then s.modes[w.group] else Degrade)
    requires WatchInv(s.watches[w], PolicyOf(s, w)) && s.watches[w].last <= now
    ensures WatchInv(Scheduled(s, w, now), PolicyOf(s, w)) && Scheduled(s, w, now).last <= now
    ensures Scheduled(s, w, now).attempts == s.watches[w].attempts
  {
    hide WatchInv, R.Schedule;
    ScheduleKeeps(s.watches[w], now, PolicyOf(s, w));
  }

  /** One step of one watch, whichever thread takes it. */
  lemma WatchKeeps(s: World, e: Event, w: WorkerId)
    requires WorkerInv(s, w) && InTable(s, w) && Enabled(s, e) && s.now <= s.clock && WaitInv(s)
    ensures var x := NextWatch(s, e, w);
      && WatchInv(x, PolicyOf(s, w)) && x.last <= NextClock(s, e)
      && (w in s.todo && w in NextTodo(s, e) ==> x.last <= s.now)
  {
    hide WatchInv, R.Schedule, R.Attempt, P.Enabled, NextSys;
    match e
    case SeeExit(v) => if v == w { ScheduledWatch(s, w, s.now); }
    case BeginRestart(v, at, _, _) => if v == w { AttemptKeeps(s.watches[w], at, PolicyOf(s, w)); }
    case LaunchFails(t, _) => ScheduledWatch(s, w, t);
    case _ =>
  }

  // ---------- one step ----------

  /** A worker's generation goes up with a launch only, and a new worker has been launched once. */
  lemma GenerationStep(s: World, e: Event, w: WorkerId)
    requires P.Inv(s.sys) && Enabled(s, e) && w in NextSys(s, e).pool.workers
    ensures var launched := e.BeginRestart? && e.launched && e.worker == w;
      GenerationOf(NextSys(s, e).pool, w) ==
        if InTable(s, w) then GenerationOf(s.sys.pool, w) + if launched then 1 else 0 else 1
  {
    hide P.Inv, GenerationOf, P.Apply;
    match PoolStep(s, e)
    case None =>
    case Some(step) =>
      if !InTable(s, w) {
        NewGeneration(s.sys, step, w);
      } else if step.Restart? {
        LaunchRaisesGeneration(s.sys.pool, step.worker, w);
        RestartPool(s.sys, step.worker);
      } else {
        OthersKeepGenerations(s.sys, step, w);
      }
  }

  lemma NewGeneration(s: P.Sys, e: P.Event, w: WorkerId)
    requires w !in s.pool.workers && w in P.Apply(s, e).pool.workers
    ensures e.Load? && e.group == w.group && CanRegister(s.pool, e.group) && GenerationOf(P.Apply(s, e).pool, w) == 1
  {
    hide P.Apply;
    if !(e.Load? && e.group == w.group) { NobodyElseAppears(s, e, w); }
    LoadPool(s, e.group, e.handlers, e.count);
    hide AddRoutes;
  }

  lemma LoadPool(s: P.Sys, g: GroupName, hs: seq<HandlerName>, n: nat)
    ensures P.Apply(s, P.Load(g, hs, n)).pool == Register(s.pool, g, hs, n)
  {
    hide Register;
  }

  /** The mode of a group stays for as long as the group does. */
  lemma ModeStays(s: World, e: Event, w: WorkerId)
    requires P.Inv(s.sys) && InTable(s, w)
    ensures w.group in s.modes ==> w.group in NextModes(s, e) && NextModes(s, e)[w.group] == s.modes[w.group]
  {
    WorkerGroups(s.sys.pool, w);
    hide P.Inv;
  }

  lemma AttemptsGrow(s: World, e: Event, w: WorkerId)
    ensures |NextWatch(s, e, w).attempts| ==
              |WatchOf(s, w).attempts| + if e.BeginRestart? && e.worker == w then 1 else 0
  {
    hide R.Schedule, PolicyOf;
  }

  /** A worker that stays. */
  lemma WorkerKeeps(s: World, e: Event, w: WorkerId)
    requires P.Inv(s.sys) && WorkerInv(s, w) && s.now <= s.clock && WaitInv(s) && Enabled(s, e) && InTable(s, w)
    requires s.clock <= NextClock(s, e)
    ensures WorkerInv(Apply(s, e), w)
  {
    hide Apply, P.Inv, P.Enabled, WatchInv, NextWatch, NextTodo, NextModes, NextSys, NextDoing, NextCalls, NextGone,
         NextClock, WaitInv;
    NextState(s, e);
    if w in NextSys(s, e).pool.workers {
      GenerationStep(s, e, w);
      ModeStays(s, e, w);
      WatchKeeps(s, e, w);
      AttemptsGrow(s, e, w);
      TodoShrinks(s, e, w);
      hide Enabled, GenerationOf;
    }
  }

  lemma TodoShrinks(s: World, e: Event, w: WorkerId)
    ensures w in NextTodo(s, e) ==> w in s.todo || e.BeginPass?
    ensures !InTable(s, w) ==> e.BeginPass? ==> w !in NextTodo(s, e)
    ensures e.BeginPass? ==> NextWatch(s, e, w) == WatchOf(s, w) && NextClock(s, e) == e.time
  {
    hide NextSys;
  }

  /** A worker that has just been loaded. */
  lemma WorkerAppears(s: World, e: Event, w: WorkerId)
    requires Inv(s) && Enabled(s, e) && !InTable(s, w)
    ensures WorkerInv(Apply(s, e), w)
  {
    NextState(s, e);
    if w in NextSys(s, e).pool.workers {
      assert P.Inv(s.sys) && w !in s.watches && w !in s.todo;
      hide Apply, Inv, P.Inv, P.Enabled, WatchInv, NextTodo, NextSys, NextDoing, NextCalls, NextGone;
      GenerationStep(s, e, w);
      AppearsLoaded(s, e, w);
      TodoShrinks(s, e, w);
      hide Enabled, GenerationOf;
      NewWatch(s.clock, PolicyOf(Apply(s, e), w));
    }
  }

  lemma AppearsLoaded(s: World, e: Event, w: WorkerId)
    requires !InTable(s, w) && w in NextSys(s, e).pool.workers && Enabled(s, e)
    ensures e.Load? && e.group == w.group && CanRegister(s.sys.pool, e.group) && ValidMode(e.mode)
  {
    hide P.Apply, P.Enabled;
    match PoolStep(s, e)
    case None =>
    case Some(step) => NewGeneration(s.sys, step, w);
  }

  /** Only unloading its group takes a worker out of the table. */
  lemma OnlyUnloadRemoves(s: P.Sys, e: P.Event, w: WorkerId)
    requires w in s.pool.workers && !(e.Unload? && e.group == w.group && !s.pool.closing)
    ensures w in P.Apply(s, e).pool.workers
  {
    if e.Exec? { ExecuteKeepsWorker(s.pool, e.task, e.handler, s.created, e.oracle, w); }
    hide Execute, AddRoutes, DropRoutes, RemoveName, GroupTasks, FuturesOf, Owned;
  }

  lemma ExecuteKeepsWorker(p: Pool<nat>, t: TaskId, h: HandlerName, f: nat, o: Oracle, w: WorkerId)
    requires w in p.workers
    ensures w in Execute(p, t, h, f, o).0.workers
  {
    hide Execute, Routed;
    ExecuteShape(p, t, h, f, o);
    match Execute(p, t, h, f, o).1
    case Rejected(_) =>
    case Assigned(v) => assert v in p.workers;
  }

  /** Whom the supervisor has still to visit, and whom it waits for, are in the table. */
  lemma VisitsKeep(s: World, e: Event)
    requires s.todo <= s.sys.pool.workers.Keys && WaitInv(s) && Enabled(s, e)
    ensures NextTodo(s, e) <= NextSys(s, e).pool.workers.Keys && WaitInv(Apply(s, e))
  {
    NextState(s, e);
    hide Apply, P.Apply, P.Enabled;
    if PoolStep(s, e).Some? && !e.Other? {
      forall w | InTable(s, w) ensures w in NextSys(s, e).pool.workers {
        OnlyUnloadRemoves(s.sys, PoolStep(s, e).value, w);
      }
    }
  }

  // ---------- calls of close ----------

  /** What futures are held for, over one step of the pool. */
  lemma TookStep(s: P.Sys, e: P.Event, c: nat)
    requires P.Inv(s) && P.Enabled(s, e) && (c in s.took ==> s.took[c] <= s.held + s.done)
    ensures var s' := P.Apply(s, e);
      && (c in s'.took <==> c in s.took || e == P.FailPending(Some(c)))
      && (c in s'.took ==> s'.took[c] <= s'.held + s'.done)
  {
    C.StepHolds(s, e);
    TookAfter(s, e, c);
    hide P.Inv, P.Enabled, P.Apply, C.Taken;
  }

  lemma TookAfter(s: P.Sys, e: P.Event, c: nat)
    requires P.Enabled(s, e)
    ensures var s' := P.Apply(s, e);
      && (c in s'.took <==> c in s.took || e == P.FailPending(Some(c)))
      && (e == P.FailPending(Some(c)) ==> s'.took[c] == C.Taken(s, e))
      && (c in s.took ==> s'.took[c] == s.took[c])
  {
    hide Execute, Receive, HandleExit, Unregister, FailAll, Relaunch, Register, BeginClose, SetAlive, ResetWeight;
  }

  /** A call gets past _fail_all_pending by going through it. */
  lemma CallMoves(s: World, e: Event, c: nat)
    requires Enabled(s, e)
    ensures PastFailing(NextCalls(s, e), c) <==> PastFailing(s.calls, c) || e == CallFails(c)
    ensures PoolStep(s, e) == Some(P.FailPending(Some(c))) <==> e == CallFails(c)
  {
    hide P.Enabled, SupervisorCan;
    if CallOf(e) != Some(c) {
      OtherCalls(s, e, c);
    } else {
      CallGuard(s, e);
    }
    hide Enabled;
  }

  lemma CallKeeps(s: World, e: Event, c: nat)
    requires P.Inv(s.sys) && CallInv(s, c) && Enabled(s, e)
    ensures CallInv(Apply(s, e), c)
  {
    NextState(s, e);
    if PoolStep(s, e).Some? { TookStep(s.sys, PoolStep(s, e).value, c); }
    CallMoves(s, e, c);
    hide Apply, P.Inv, P.Apply, Enabled, NextCalls, PoolStep, PastFailing;
  }

  lemma CallsClose(s: World, e: Event)
    requires P.Inv(s.sys) && Enabled(s, e) && (s.calls != map[] ==> s.sys.pool.closing)
    ensures NextCalls(s, e) != map[] ==> NextSys(s, e).pool.closing
    ensures s.sys.pool.closing ==> NextSys(s, e).pool.closing
  {
    if PoolStep(s, e).Some? && s.sys.pool.closing { C.ClosingStep(s.sys, PoolStep(s, e).value); }
    hide P.Inv, P.Enabled;
  }

  // ---------- the whole ----------

  lemma SysKeeps(s: World, e: Event)
    requires P.Inv(s.sys) && Enabled(s, e)
    ensures P.Inv(NextSys(s, e)) && s.clock <= NextClock(s, e)
  {
    if PoolStep(s, e).Some? { P.StepKeeps(s.sys, PoolStep(s, e).value); }
    hide P.Inv, P.Apply, P.Enabled;
  }

  lemma PassBegan(s: World, e: Event)
    requires s.now <= s.clock && s.clock <= NextClock(s, e)
    ensures Apply(s, e).now <= NextClock(s, e)
  {
    NextState(s, e);
    hide Apply;
  }

  lemma WorkersKeep(s: World, e: Event)
    requires Inv(s) && Enabled(s, e) && s.clock <= NextClock(s, e)
    ensures forall w :: WorkerInv(Apply(s, e), w)
  {
    forall w ensures WorkerInv(Apply(s, e), w) {
      if InTable(s, w) {
        WorkerKeeps(s, e, w);
      } else {
        WorkerAppears(s, e, w);
      }
    }
  }

  /** Every step of the supervisor, of a call of close and of any other thread keeps the
      invariant. */
  lemma StepKeeps(s: World, e: Event)
    requires Inv(s) && Enabled(s, e)
    ensures Inv(Apply(s, e))
  {
    hide Apply, WorkerInv, CallInv, WaitInv, P.Inv, Enabled, NextSys, NextCalls, NextTodo, NextClock;
    NextState(s, e);
    SysKeeps(s, e);
    CallsClose(s, e);
    VisitsKeep(s, e);
    WorkersKeep(s, e);
    forall c ensures CallInv(Apply(s, e), c) { CallKeeps(s, e, c); }
    PassBegan(s, e);
  }

  lemma StartInv(s: World)
    requires Start(s)
    ensures Inv(s)
  {
    hide P.Inv, P.Start, WorkerInv, CallInv;
    var specs :| P.Start(s.sys, specs);
    P.StartInv(s.sys, specs);
    forall w ensures WorkerInv(s, w) { StartWorker(s, specs, w); }
    forall c ensures CallInv(s, c) { StartCall(s, specs, c); }
  }

  lemma StartCall(s: World, specs: seq<GroupSpec>, c: nat)
    requires P.Start(s.sys, specs) && s.calls == map[]
    ensures CallInv(s, c)
  {
    hide Constructed, ValidSpecs;
  }

  lemma StartWorker(s: World, specs: seq<GroupSpec>, w: WorkerId)
    requires P.Start(s.sys, specs) && P.Inv(s.sys) && s.now == s.clock
    requires s.modes.Keys == (set g | g in s.sys.pool.groups) && forall g :: g in s.modes ==> ValidMode(s.modes[g])
    requires s.watches == map v | v in s.sys.pool.workers :: Watch(R.Limiter([], None), [], s.clock)
    ensures WorkerInv(s, w)
  {
    if InTable(s, w) {
      WorkerGroups(s.sys.pool, w);
      FirstGeneration(specs, w);
      NewWatch(s.clock, PolicyOf(s, w));
      hide P.Inv, Constructed, ValidSpecs, WatchInv;
    }
  }

  lemma {:induction false} FirstGeneration(specs: seq<GroupSpec>, w: WorkerId)
    requires w in Constructed<nat>(specs).workers
    ensures Constructed<nat>(specs).workers[w].generation == 1
  {
    if specs != [] {
      var init, last := specs[..|specs| - 1], specs[|specs| - 1];
      assert w !in NewWorkers(last.name, last.count) ==> w in Constructed<nat>(init).workers;
      if w !in NewWorkers(last.name, last.count) { FirstGeneration(init, w); }
    }
  }

  lemma {:induction false} RunInv(states: seq<World>, events: seq<Event>, i: nat)
    requires Run(states, events) && i < |states|
    ensures Inv(states[i])
  {
    hide Inv, Apply, Enabled, Start;
    if i == 0 {
      StartInv(states[0]);
    } else {
      RunInv(states, events, i - 1);
      assert Step(states[i - 1], events[i - 1], states[i - 1 + 1]);
      StepKeeps(states[i - 1], events[i - 1]);
    }
  }
}
