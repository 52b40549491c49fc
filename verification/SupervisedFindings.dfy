/** Runs in which a pool can never be closed, and what then stays pending. */
module SupervisedFindings {
  import opened Core
  import opened SmoothRoundRobin
  import opened PoolModel
  import opened PoolInvariant
  import opened StaleResults
  import opened SupervisedPool
  import opened SupervisedInvariant
  import opened SupervisedClose
  import P = PoolRuns
  import R = RestartLimiter
  import F = PoolFindings

  // ---------- a restart that fails before close, or during it ----------

  const Twice := R.Policy(1, 60, 1)

  function Beginning(g: GroupName, h: HandlerName): World {
    var w := WorkerId(g, 0);
    World(F.One(g, h), map[g := Restart(Twice)], 0, 0, {}, Looking, map[w := Watch(R.Limiter([], None), [], 0)], {},
          map[])
  }

  /** The only worker dies and is launched again. */
  function Relaunched(g: GroupName): seq<Event> {
    var w := WorkerId(g, 0);
    [BeginPass(0), SeeExit(w), BeginPass(1), BeginRestart(w, 1, true, true)]
  }

  /** The restart fails, then close is called. */
  function FailsBefore(g: GroupName): seq<Event> {
    Relaunched(g) + [LaunchFails(1, true), CallClose(0)]
  }

  /** close is called and has asked the process when the restart fails. */
  function FailsDuring(g: GroupName): seq<Event> {
    Relaunched(g) + [CallClose(0), CallAsks(0, WorkerId(g, 0)), CallAsked(0), LaunchFails(1, true)]
  }

  lemma OnlyWorker(g: GroupName, h: HandlerName)
    ensures F.One(g, h).pool.workers.Keys == {WorkerId(g, 0)} && F.One(g, h).pool.groups == [g]
  {
    var specs := [GroupSpec(g, [h], 1)];
    assert Constructed<nat>(specs[..0]).workers == map[] && Constructed<nat>(specs[..0]).groups == [];
    hide AddRoutes;
  }

  lemma OneStarts(g: GroupName, h: HandlerName)
    ensures P.Start(F.One(g, h), [GroupSpec(g, [h], 1)])
  {
    hide Constructed;
  }

  lemma Starts(g: GroupName, h: HandlerName)
    ensures Start(Beginning(g, h))
  {
    OnlyWorker(g, h);
    OneStarts(g, h);
    hide F.One, P.Start;
    assert forall x :: x in F.One(g, h).pool.groups <==> x == g;
  }

  /** An open pool between two workers of no pass, with one worker and no call of close. */
  predicate Calm(s: World, w: WorkerId) {
    && !s.sys.pool.closing && !s.sys.pool.closeComplete && s.calls == map[] && s.gone == {} && s.doing == Looking
    && s.sys.pool.workers.Keys == {w} && w in s.watches && PolicyOf(s, w) == Twice && w.group in s.modes
    && s.modes[w.group].Restart?
  }

  lemma BeginsCalm(g: GroupName, h: HandlerName)
    ensures var s, w := Beginning(g, h), WorkerId(g, 0);
      Calm(s, w) && s.clock == 0 && s.sys.pool.workers[w].alive && s.watches[w].limiter == R.Limiter([], None)
  {
    OnlyWorker(g, h);
    F.OneServes(g, h);
    hide P.Inv, F.One;
  }

  lemma PassStep(s: World, w: WorkerId, t: int) returns (s': World)
    requires Calm(s, w) && s.clock <= t
    ensures Step(s, BeginPass(t), s') && Calm(s', w) && s'.clock == t && s'.now == t && w in s'.todo
    ensures s'.sys == s.sys && s'.watches[w] == s.watches[w]
  {
    s' := Apply(s, BeginPass(t));
    NextState(s, BeginPass(t));
    hide Apply;
  }

  lemma ExitLeaves(p: Pool<nat>, w: WorkerId)
    requires w in p.workers
    ensures var q := HandleExit(p, w).0;
      && q.workers.Keys == p.workers.Keys && !q.workers[w].alive
      && q.closing == p.closing && q.closeComplete == p.closeComplete
  {
    hide Owned, FuturesOf;
  }

  lemma ExitPool(s: P.Sys, w: WorkerId)
    ensures P.Apply(s, P.Exit(w)).pool == HandleExit(s.pool, w).0 && P.Enabled(s, P.Exit(w))
  {
    hide HandleExit;
  }

  lemma FirstSchedule()
    ensures R.Schedule(R.Limiter([], None), 0, Twice) == R.Limiter([], Some(1))
  {
  }

  lemma ExitStep(s: World, w: WorkerId) returns (s': World)
    requires Calm(s, w) && w in s.todo && s.now == 0 && s.clock == 0
    requires s.sys.pool.workers[w].alive && s.watches[w].limiter == R.Limiter([], None)
    ensures Step(s, SeeExit(w), s') && Calm(s', w) && s'.clock == 0
    ensures !s'.sys.pool.workers[w].alive && s'.watches[w].limiter.next == Some(1)
  {
    s' := Apply(s, SeeExit(w));
    NextState(s, SeeExit(w));
    ExitLeaves(s.sys.pool, w);
    ExitPool(s.sys, w);
    FirstSchedule();
    hide Apply, HandleExit, P.Apply, P.Enabled, R.Schedule;
  }

  /** A restart is waiting for READY, and nobody has called close. */
  predicate Restarting(s: World, w: WorkerId) {
    && !s.sys.pool.closing && !s.sys.pool.closeComplete && s.calls == map[] && s.gone == {} && s.clock == 1
    && s.sys.pool.workers.Keys == {w} && s.doing == Waiting(w, true, true)
  }

  lemma RestartStep(s: World, w: WorkerId) returns (s': World)
    requires Calm(s, w) && w in s.todo && s.now == 1 && s.clock == 1
    requires !s.sys.pool.workers[w].alive && s.watches[w].limiter.next == Some(1)
    ensures Step(s, BeginRestart(w, 1, true, true), s') && Restarting(s', w)
  {
    s' := Apply(s, BeginRestart(w, 1, true, true));
    NextState(s, BeginRestart(w, 1, true, true));
    hide Apply, R.Attempt;
  }

  lemma RelaunchHappens(g: GroupName, h: HandlerName) returns (states: seq<World>)
    ensures Run(states, Relaunched(g)) && Restarting(states[4], WorkerId(g, 0))
  {
    hide Step, Start, Beginning, Calm, Restarting, PolicyOf;
    var w := WorkerId(g, 0);
    Starts(g, h);
    BeginsCalm(g, h);
    var s1 := PassStep(Beginning(g, h), w, 0);
    var s2 := ExitStep(s1, w);
    var s3 := PassStep(s2, w, 1);
    var s4 := RestartStep(s3, w);
    states := [Beginning(g, h), s1, s2, s3, s4];
  }

  /** One more step of a run. */
  lemma RunOn(states: seq<World>, events: seq<Event>, e: Event, s: World)
    requires Run(states, events) && Step(states[|events|], e, s)
    ensures Run(states + [s], events + [e]) && (states + [s])[|events + [e]|] == s
  {
    hide Step, Start;
  }

  lemma FailStep(s: World, w: WorkerId) returns (s1: World, s2: World)
    requires Restarting(s, w)
    ensures Step(s, LaunchFails(1, true), s1) && Step(s1, CallClose(0), s2)
    ensures s2.sys.pool.closing && !Complete(s2) && !Passable(s2)
  {
    s1 := Apply(s, LaunchFails(1, true));
    NextState(s, LaunchFails(1, true));
    s2 := Apply(s1, CallClose(0));
    NextState(s1, CallClose(0));
    hide Apply;
    assert GoneAt(s2, w);
    assert s2.calls == map[0 := Asking({})];
  }

  /** After a restart that failed no call of close can ever end. */
  lemma FailedRestartBlocksClose(g: GroupName, h: HandlerName) returns (states: seq<World>)
    ensures Run(states, FailsBefore(g)) && states[6].sys.pool.closing && !CanEnd(states[6])
  {
    hide Step, Start, Restarting, Passable, Complete, CanEnd;
    states := RelaunchHappens(g, h);
    var s1, s2 := FailStep(states[4], WorkerId(g, 0));
    RunOn(states, Relaunched(g), LaunchFails(1, true), s1);
    RunOn(states + [s1], Relaunched(g) + [LaunchFails(1, true)], CallClose(0), s2);
    assert FailsBefore(g) == Relaunched(g) + [LaunchFails(1, true)] + [CallClose(0)];
    states := states + [s1] + [s2];
    CloseEndsIff(states, FailsBefore(g), 6);
  }

  lemma CallBegins(s: World, w: WorkerId) returns (s1: World)
    requires Restarting(s, w)
    ensures Step(s, CallClose(0), s1) && s1.sys.pool.closing && !Complete(s1) && s1.calls == map[0 := Asking({})]
    ensures s1.gone == {} && s1.clock == 1 && s1.sys.pool.workers.Keys == {w} && s1.doing == Waiting(w, true, true)
  {
    s1 := Apply(s, CallClose(0));
    NextState(s, CallClose(0));
    hide Apply;
  }

  lemma AsksOne(s: World, w: WorkerId) returns (s': World)
    requires s.calls == map[0 := Asking({})] && s.gone == {} && s.sys.pool.workers.Keys == {w}
    ensures Step(s, CallAsks(0, w), s') && s'.calls == map[0 := Asking({w})]
    ensures s'.sys == s.sys && s'.gone == {} && s'.clock == s.clock && s'.doing == s.doing
  {
    s' := Apply(s, CallAsks(0, w));
    NextState(s, CallAsks(0, w));
    assert {} + {w} == {w};
    hide Apply;
  }

  lemma NoMoreToAsk(s: World, w: WorkerId)
    requires s.calls == map[0 := Asking({w})] && s.sys.pool.workers.Keys == {w}
    ensures Enabled(s, CallAsked(0))
  {
  }

  lemma AsksNoMore(s: World, w: WorkerId) returns (s': World)
    requires s.calls == map[0 := Asking({w})] && s.gone == {} && s.sys.pool.workers.Keys == {w}
    ensures Step(s, CallAsked(0), s') && s'.calls == map[0 := Stopping({})]
    ensures s'.sys == s.sys && s'.gone == {} && s'.clock == s.clock && s'.doing == s.doing
  {
    hide Apply, Enabled, NextTodo, NextWatch, NextModes;
    s' := Apply(s, CallAsked(0));
    NextState(s, CallAsked(0));
    NoMoreToAsk(s, w);
  }

  lemma CallGoesOn(s: World, w: WorkerId) returns (s1: World, s2: World)
    requires s.calls == map[0 := Asking({})] && s.gone == {} && s.sys.pool.workers.Keys == {w}
    ensures Step(s, CallAsks(0, w), s1) && Step(s1, CallAsked(0), s2) && s2.calls == map[0 := Stopping({})]
    ensures s2.sys == s.sys && Complete(s2) == Complete(s) && s2.gone == {} && s2.clock == s.clock
    ensures s2.doing == s.doing
  {
    s1 := AsksOne(s, w);
    s2 := AsksNoMore(s1, w);
    hide Step;
  }

  lemma FailMeanwhile(s: World, w: WorkerId) returns (s': World)
    requires s.sys.pool.closing && !Complete(s) && s.calls == map[0 := Stopping({})] && s.gone == {} && s.clock == 1
    requires s.sys.pool.workers.Keys == {w} && s.doing == Waiting(w, true, true)
    ensures Step(s, LaunchFails(1, true), s') && s'.sys.pool.closing && !Complete(s') && !Passable(s')
    ensures Enabled(s', CallRaises(0, w))
  {
    s' := Apply(s, LaunchFails(1, true));
    NextState(s, LaunchFails(1, true));
    hide Apply;
    assert GoneAt(s', w);
  }

  /** A restart that is waiting when close is called and fails before close stops the worker: the
      call raises although no process object was closed when it began, and none can ever end. */
  lemma RestartInFlightBlocksClose(g: GroupName, h: HandlerName) returns (states: seq<World>)
    ensures Run(states, FailsDuring(g)) && states[4].gone == {} && !states[4].sys.pool.closing
    ensures states[8].sys.pool.closing && Enabled(states[8], CallRaises(0, WorkerId(g, 0))) && !CanEnd(states[8])
  {
    hide Step, Start, Passable, Complete, CanEnd, Enabled;
    var w := WorkerId(g, 0);
    states := RelaunchHappens(g, h);
    var s1 := CallBegins(states[4], w);
    var s2, s3 := CallGoesOn(s1, w);
    var s4 := FailMeanwhile(s3, w);
    var es := Relaunched(g);
    RunOn(states, es, CallClose(0), s1);
    RunOn(states + [s1], es + [CallClose(0)], CallAsks(0, w), s2);
    RunOn(states + [s1] + [s2], es + [CallClose(0)] + [CallAsks(0, w)], CallAsked(0), s3);
    RunOn(states + [s1] + [s2] + [s3], es + [CallClose(0)] + [CallAsks(0, w)] + [CallAsked(0)], LaunchFails(1, true),
          s4);
    assert FailsDuring(g) == es + [CallClose(0)] + [CallAsks(0, w)] + [CallAsked(0)] + [LaunchFails(1, true)];
    states := states + [s1] + [s2] + [s3] + [s4];
    CloseEndsIff(states, FailsDuring(g), 8);
  }

  // ---------- shutdown mode ----------

  /** No call of close is stopping the workers or past that. */
  predicate NoneStopping(s: World) {
    forall c :: c in s.calls ==> !s.calls[c].Stopping? && !s.calls[c].Emptied?
  }

  lemma GoneBlocks(s: World, w: WorkerId)
    requires s.sys.pool.closing && !Complete(s) && NoneStopping(s) && GoneAt(s, w)
    ensures Blocked(s)
  {
  }

  lemma ShutdownStep(s: World, e: Event)
    requires Inv(s) && Enabled(s, e) && e.ShutdownStops? && e.closes
    requires s.sys.pool.closing && !Complete(s) && NoneStopping(s)
    ensures Blocked(Apply(s, e))
  {
    CallsClose(s, e);
    PoolIncomplete(s.sys, PoolStep(s, e).value);
    OnlyUnloadRemoves(s.sys, PoolStep(s, e).value, e.worker);
    NextState(s, e);
    hide Apply, Inv, P.Apply, P.Enabled, Blocked;
    GoneBlocks(Apply(s, e), e.worker);
  }

  /** A failure in shutdown mode stops another worker while no call of close is stopping the
      workers: from then on none can end. */
  lemma ShutdownBlocksClose(states: seq<World>, events: seq<Event>, i: nat)
    requires Run(states, events) && i < |events| && events[i].ShutdownStops? && events[i].closes
    requires states[i].sys.pool.closing && !Complete(states[i]) && NoneStopping(states[i])
    ensures !CanEnd(states[i + 1])
  {
    RunInv(states, events, i);
    RunInv(states, events, i + 1);
    assert Step(states[i], events[i], states[i + 1]);
    hide Apply, Inv, Enabled, Blocked, NoneStopping, Complete;
    ShutdownStep(states[i], events[i]);
    BlockedForEver(states[i + 1]);
  }

  /** The shutdown has met a closed process object: the supervisor thread has ended without failing
      what is pending, and no call of close will. */
  ghost predicate Abandoned(s: World) {
    Blocked(s) && s.doing.Over?
  }

  lemma RaiseAbandons(s: World)
    requires Enabled(s, SupervisorRaises) && s.doing.ShuttingDown?
    requires s.sys.pool.closing && !Complete(s) && NoneStopping(s)
    ensures Abandoned(Apply(s, SupervisorRaises)) && Apply(s, SupervisorRaises).sys == s.sys
  {
    NextState(s, SupervisorRaises);
    var w :| w in s.sys.pool.workers && GoneAt(s, w);
    hide Apply, P.Enabled, Blocked;
    GoneBlocks(Apply(s, SupervisorRaises), w);
  }

  lemma PendingStep(s: World, e: Event, t: TaskId)
    requires Inv(s) && Enabled(s, e) && Abandoned(s) && t in s.sys.pool.futures
    requires !(e.Other? && e.step.Result? && e.step.task == t)
    ensures Abandoned(Apply(s, e)) && t in Apply(s, e).sys.pool.futures
    ensures Apply(s, e).sys.pool.futures[t] == s.sys.pool.futures[t]
  {
    BlockedStays(s, e);
    PendingSys(s, e, t);
    NextState(s, e);
    hide Apply, Inv, Blocked, NextSys;
    NotFailed(s, e);
  }

  lemma PendingSys(s: World, e: Event, t: TaskId)
    requires Inv(s) && Enabled(s, e) && Abandoned(s) && t in s.sys.pool.futures
    requires !(e.Other? && e.step.Result? && e.step.task == t)
    ensures t in NextSys(s, e).pool.futures && NextSys(s, e).pool.futures[t] == s.sys.pool.futures[t]
  {
    NotFailed(s, e);
    assert P.Inv(s.sys) && s.sys.pool.closing;
    hide Inv, P.Inv, P.Enabled, P.Apply, Blocked, Enabled;
    if PoolStep(s, e).Some? {
      PoolGuard(s, e);
      ResultsAreOther(s, e, t);
      hide PoolStep;
      PoolPending(s.sys, PoolStep(s, e).value, t);
    }
  }

  lemma ResultsAreOther(s: World, e: Event, t: TaskId)
    requires PoolStep(s, e).Some?
    ensures PoolStep(s, e).value.Result? && PoolStep(s, e).value.task == t ==>
              e.Other? && e.step.Result? && e.step.task == t
  {
  }

  /** Neither the supervisor nor a call of close gets to failing what is pending. */
  lemma NotFailed(s: World, e: Event)
    requires Enabled(s, e) && Abandoned(s)
    ensures PoolStep(s, e).Some? ==> !PoolStep(s, e).value.FailPending? && !PoolStep(s, e).value.Exit?
    ensures NextDoing(s, e).Over?
  {
    hide P.Enabled, NextSys;
  }

  lemma PoolPending(s: P.Sys, e: P.Event, t: TaskId)
    requires P.Inv(s) && s.pool.closing && t in s.pool.futures && !(e.Result? && e.task == t)
    requires !e.FailPending? && !e.Exit?
    ensures t in P.Apply(s, e).pool.futures && P.Apply(s, e).pool.futures[t] == s.pool.futures[t]
  {
    if e.Exec? { ExecutePending(s.pool, e.task, e.handler, s.created, e.oracle, t); }
    hide Execute, P.Inv, AddRoutes, DropRoutes, GroupTasks, FuturesOf, Owned;
  }

  lemma ExecutePending(p: Pool<nat>, u: TaskId, h: HandlerName, f: nat, o: Oracle, t: TaskId)
    requires t in p.futures
    ensures var q := Execute(p, u, h, f, o).0; t in q.futures && q.futures[t] == p.futures[t]
  {
    hide Execute, Routed;
    ExecuteShape(p, u, h, f, o);
    match Execute(p, u, h, f, o).1
    case Rejected(_) =>
    case Assigned(v) =>
      assert v in p.workers && u !in p.futures;
  }

  /** What is pending when the shutdown raises stays pending for ever, unless its own result still
      arrives: neither the supervisor nor any call of close fails it. */
  lemma {:induction false} PendingForEver(states: seq<World>, events: seq<Event>, i: nat, j: nat, t: TaskId)
    requires Run(states, events) && i <= j < |states| && Abandoned(states[i]) && t in states[i].sys.pool.futures
    requires forall k :: i <= k < j ==> !(events[k].Other? && events[k].step.Result? && events[k].step.task == t)
    ensures Abandoned(states[j]) && t in states[j].sys.pool.futures
    ensures states[j].sys.pool.futures[t] == states[i].sys.pool.futures[t]
    decreases j - i
  {
    hide Inv, Apply, Enabled, Abandoned;
    if i < j {
      PendingForEver(states, events, i, j - 1, t);
      RunInv(states, events, j - 1);
      assert Step(states[j - 1], events[j - 1], states[j - 1 + 1]);
      PendingStep(states[j - 1], events[j - 1], t);
    }
  }
}
