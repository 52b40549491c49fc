/** How often the supervisor launches a worker, over every run of the supervised pool. */
module SupervisedGuarantees {
  import opened Core
  import opened SmoothRoundRobin
  import opened PoolModel
  import opened PoolInvariant
  import opened StaleResults
  import opened SupervisedPool
  import opened SupervisedInvariant
  import P = PoolRuns
  import R = RestartLimiter

  /** A launch of the worker by a restart that began between two moments. */
  predicate LaunchOf(e: Event, w: WorkerId, lo: int, hi: int) {
    e.BeginRestart? && e.worker == w && e.launched && lo <= e.at <= hi
  }

  function LaunchesIn(events: seq<Event>, w: WorkerId, i: nat, j: nat, lo: int, hi: int): nat
    requires i <= j <= |events|
    decreases j - i
  {
    if i == j then 0
    else
      var launched := LaunchOf(events[j - 1], w, lo, hi);
      LaunchesIn(events, w, i, j - 1, lo, hi) + if launched then 1 else 0
  }

  lemma RunStep(states: seq<World>, events: seq<Event>, i: nat)
    requires Run(states, events) && i < |events|
    ensures Inv(states[i]) && Inv(states[i + 1]) && Enabled(states[i], events[i])
    ensures states[i + 1] == Apply(states[i], events[i])
  {
    RunInv(states, events, i);
    RunInv(states, events, i + 1);
    assert Step(states[i], events[i], states[i + 1]);
    hide Inv, Apply, Enabled;
  }

  /** One more attempt in the history, or none. */
  lemma CountNext(xs: seq<int>, at: int, lo: int, hi: int)
    ensures R.CountIn(xs + [at], lo, hi) == R.CountIn(xs, lo, hi) + if lo <= at <= hi then 1 else 0
  {
    assert (xs + [at])[..|xs|] == xs;
  }

  /** A step adds to the history of a worker that stays what it launches. */
  lemma HistoryStep(s: World, e: Event, w: WorkerId, lo: int, hi: int)
    requires Inv(s) && Enabled(s, e) && InTable(s, w) && InTable(Apply(s, e), w)
    ensures w in s.watches && w in Apply(s, e).watches
    ensures R.CountIn(s.watches[w].attempts, lo, hi) + (if LaunchOf(e, w, lo, hi) then 1 else 0)
            <= R.CountIn(Apply(s, e).watches[w].attempts, lo, hi)
  {
    NextState(s, e);
    hide Apply, P.Inv, Enabled, R.CountIn, NextSys;
    AttemptsNext(s, e, w);
    if e.BeginRestart? && e.worker == w { CountNext(s.watches[w].attempts, e.at, lo, hi); }
  }

  lemma AttemptsNext(s: World, e: Event, w: WorkerId)
    requires w in s.watches
    ensures NextWatch(s, e, w).attempts ==
              if e.BeginRestart? && e.worker == w then s.watches[w].attempts + [e.at] else s.watches[w].attempts
  {
    hide R.Schedule, PolicyOf;
  }

  lemma {:induction false} LaunchesAreAttempts(states: seq<World>, events: seq<Event>, i: nat, j: nat, w: WorkerId,
                                               lo: int, hi: int)
    requires Run(states, events) && i <= j < |states|
    requires forall k :: i <= k <= j ==> InTable(states[k], w)
    ensures w in states[j].watches
    ensures LaunchesIn(events, w, i, j, lo, hi) <= R.CountIn(states[j].watches[w].attempts, lo, hi)
    decreases j - i
  {
    hide Inv, Apply, Enabled, InTable, R.CountIn, LaunchOf;
    RunInv(states, events, j);
    assert InTable(states[j], w);
    WatchedWhilePresent(states[j], w);
    if i < j {
      LaunchesAreAttempts(states, events, i, j - 1, w, lo, hi);
      RunStep(states, events, j - 1);
      assert InTable(states[j - 1], w);
      HistoryStep(states[j - 1], events[j - 1], w, lo, hi);
    }
  }

  lemma WatchedWhilePresent(s: World, w: WorkerId)
    requires Inv(s) && InTable(s, w)
    ensures w in s.watches && R.Sorted(s.watches[w].attempts) && R.Spaced(s.watches[w].attempts, PolicyOf(s, w))
  {
    assert WorkerInv(s, w);
    hide P.Inv;
  }

  /** No closed interval as long as the window holds more attempts on a worker than the limit,
      whether they came to a launch or not. */
  lemma AttemptsBounded(states: seq<World>, events: seq<Event>, i: nat, w: WorkerId, lo: int)
    requires Run(states, events) && i < |states| && InTable(states[i], w)
    ensures w in states[i].watches
    ensures var policy := PolicyOf(states[i], w);
      R.CountIn(states[i].watches[w].attempts, lo, lo + policy.window) <= policy.limit
  {
    RunInv(states, events, i);
    WatchedWhilePresent(states[i], w);
    hide Inv, R.Sorted, R.Spaced, R.CountIn;
    R.SpacedBound(states[i].watches[w].attempts, PolicyOf(states[i], w), lo);
  }

  /** Whatever the other threads do in between, and however long a pass of the supervisor takes:
      of the launches of a worker that stays in the table, at most as many as the limit begin
      within any closed interval as long as the window. */
  lemma LaunchesBounded(states: seq<World>, events: seq<Event>, i: nat, j: nat, w: WorkerId, lo: int)
    requires Run(states, events) && i <= j < |states|
    requires forall k :: i <= k <= j ==> InTable(states[k], w)
    ensures var policy := PolicyOf(states[j], w);
      LaunchesIn(events, w, i, j, lo, lo + policy.window) <= policy.limit
  {
    hide Inv, InTable, PolicyOf, R.CountIn, LaunchOf, LaunchesIn, Start, Enabled, Apply;
    assert InTable(states[j], w);
    AttemptsBounded(states, events, j, w, lo);
    LaunchesAreAttempts(states, events, i, j, w, lo, lo + PolicyOf(states[j], w).window);
  }

  function Launched(e: Event, w: WorkerId): nat {
    if e.BeginRestart? && e.worker == w && e.launched then 1 else 0
  }

  function AllLaunches(events: seq<Event>, w: WorkerId, i: nat, j: nat): nat
    requires i <= j <= |events|
    decreases j - i
  {
    if i == j then 0 else AllLaunches(events, w, i, j - 1) + Launched(events[j - 1], w)
  }

  /** A worker's generation counts these launches, one for each. */
  lemma {:induction false} GenerationIsLaunches(states: seq<World>, events: seq<Event>, i: nat, j: nat, w: WorkerId)
    requires Run(states, events) && i <= j < |states|
    requires forall k :: i <= k <= j ==> InTable(states[k], w)
    ensures GenerationOf(states[j].sys.pool, w) == GenerationOf(states[i].sys.pool, w) + AllLaunches(events, w, i, j)
    decreases j - i
  {
    hide Inv, Apply, Enabled, InTable, GenerationOf;
    if i < j {
      GenerationIsLaunches(states, events, i, j - 1, w);
      RunStep(states, events, j - 1);
      assert InTable(states[j - 1], w) && InTable(states[j], w);
      LaunchStep(states[j - 1], events[j - 1], w);
    }
  }

  lemma LaunchStep(s: World, e: Event, w: WorkerId)
    requires Inv(s) && Enabled(s, e) && InTable(s, w) && InTable(Apply(s, e), w)
    ensures GenerationOf(Apply(s, e).sys.pool, w) == GenerationOf(s.sys.pool, w) + Launched(e, w)
  {
    NextState(s, e);
    hide Apply, NextSys, Enabled, GenerationOf, P.Inv;
    GenerationStep(s, e, w);
  }

  /** A worker of a group that is not in restart mode stays in its first incarnation. */
  lemma NeverRestarted(states: seq<World>, events: seq<Event>, i: nat, w: WorkerId)
    requires Run(states, events) && i < |states| && InTable(states[i], w)
    requires w.group in states[i].modes ==> !states[i].modes[w.group].Restart?
    ensures GenerationOf(states[i].sys.pool, w) == 1
  {
    RunInv(states, events, i);
    WatchedWhilePresent(states[i], w);
    assert WorkerInv(states[i], w);
    var xs := states[i].watches[w].attempts;
    if xs != [] { NoneSpaced(xs, PolicyOf(states[i], w)); }
  }

  lemma NoneSpaced(xs: seq<int>, policy: R.Policy)
    requires xs != [] && policy.limit == 0 && policy.window >= 0
    ensures !R.Spaced(xs, policy)
  {
    assert xs[0] - xs[0 - policy.limit] == 0;
  }

  // ---------- the end of supervision ----------

  /** Once an exception has ended the supervisor thread no worker is launched any more, whatever
      happens to it and however the pool goes on. */
  lemma {:induction false} NoneAfterTheEnd(states: seq<World>, events: seq<Event>, i: nat, j: nat, w: WorkerId)
    requires Run(states, events) && i <= j < |states| && states[i].doing.Over?
    requires forall k :: i <= k <= j ==> InTable(states[k], w)
    ensures states[j].doing.Over?
    ensures GenerationOf(states[j].sys.pool, w) == GenerationOf(states[i].sys.pool, w)
    decreases j - i
  {
    hide Inv, Apply, Enabled, InTable, GenerationOf;
    if i < j {
      NoneAfterTheEnd(states, events, i, j - 1, w);
      RunStep(states, events, j - 1);
      assert InTable(states[j - 1], w) && InTable(states[j], w);
      LaunchStep(states[j - 1], events[j - 1], w);
      OverStays(states[j - 1], events[j - 1], w);
    }
  }

  lemma OverStays(s: World, e: Event, w: WorkerId)
    requires Enabled(s, e) && s.doing.Over?
    ensures Apply(s, e).doing.Over? && Launched(e, w) == 0
  {
    NextState(s, e);
    hide Apply, P.Enabled, NextSys;
  }

  /** Unloading a group while one of its workers is being restarted can end the thread: the
      process object the restart is about to stop has been closed by the unload. */
  lemma UnloadCanEndSupervision(s: World, g: GroupName)
    requires Inv(s) && s.doing.Waiting? && s.doing.here && s.doing.worker.group == g && !s.sys.pool.closing
    ensures var e := Other(P.Unload(g));
            var s' := Apply(s, e);
      && Enabled(s, e) && Enabled(s', SupervisorRaises) && Apply(s', SupervisorRaises).doing.Over?
  {
    var s' := Apply(s, Other(P.Unload(g)));
    NextState(s, Other(P.Unload(g)));
    UnloadRemoves(s.sys, s.doing.worker);
    hide P.Inv, Apply, P.Apply;
    NextState(s', SupervisorRaises);
  }

  lemma UnloadRemoves(s: P.Sys, w: WorkerId)
    requires P.Inv(s) && w in s.pool.workers && !s.pool.closing
    ensures w !in P.Apply(s, P.Unload(w.group)).pool.workers
  {
    WorkerGroups(s.pool, w);
    UnloadOpen(s.pool, w.group);
    hide P.Conserved, GroupTasks, FuturesOf, DropRoutes, RemoveName;
  }

  lemma UnloadOpen(p: Pool<nat>, g: GroupName)
    requires PoolInv(p) && g in p.groups && !p.closing
    ensures g in p.groupHandlers && !p.closeComplete
  {
  }
}
