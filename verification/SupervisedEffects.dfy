/** What the supervisor's bookkeeping means, event by event: whose process objects are closed, whom a
    pass has still to visit, and what follows an exit in shutdown mode. */
module SupervisedEffects {
  import opened Core
  import opened SmoothRoundRobin
  import opened PoolModel
  import opened PoolInvariant
  import opened SupervisedPool
  import opened SupervisedInvariant
  import opened SupervisedGuarantees
  import P = PoolRuns

  // ---------- closed process objects ----------

  /** The step closes the worker's process object. */
  predicate Closes(s: World, e: Event, w: WorkerId) {
    || (e.CallStops? && e.worker == w && e.closes)
    || (e.ShutdownStops? && e.worker == w && e.closes)
    || (e.LaunchFails? && e.closes && s.doing.Waiting? && s.doing.here && s.doing.worker == w)
  }

  /** The worker gets a new process object, or leaves the table. */
  predicate Renews(s: World, e: Event, w: WorkerId) {
    (e.BeginRestart? && e.worker == w && e.anew) || w !in Apply(s, e).sys.pool.workers
  }

  ghost predicate GoneInTable(s: World) {
    forall w :: w in s.gone ==> InTable(s, w)
  }

  lemma GoneStep(s: World, e: Event, w: WorkerId)
    requires Inv(s) && Enabled(s, e) && GoneInTable(s)
    ensures w in Apply(s, e).gone <==> Closes(s, e, w) || (w in s.gone && !Renews(s, e, w))
  {
    hide Inv, Enabled, NextSys, NextGone, Closes, Apply;
    NextGoneIs(s, e, w);
    AfterIs(s, e);
    if Closes(s, e, w) { StopsPresent(s, e, w); }
    if w in s.gone && !e.Other? { StaysInTable(s, e, w); }
  }

  lemma NextGoneIs(s: World, e: Event, w: WorkerId)
    ensures w in NextGone(s, e) <==>
              || Closes(s, e, w)
              || (w in s.gone && !(e.BeginRestart? && e.worker == w && e.anew)
                  && (e.Other? ==> w in NextSys(s, e).pool.workers))
  {
    hide NextSys;
  }

  lemma AfterIs(s: World, e: Event)
    ensures Apply(s, e).gone == NextGone(s, e) && Apply(s, e).sys == NextSys(s, e) && Apply(s, e).todo == NextTodo(s, e)
  {
    hide NextSys, NextGone, NextTodo;
    NextState(s, e);
  }

  /** A process that is stopped belongs to a worker in the table, and is not renewed by that. */
  lemma StopsPresent(s: World, e: Event, w: WorkerId)
    requires Inv(s) && Enabled(s, e) && Closes(s, e, w)
    ensures InTable(s, w) && !e.BeginRestart? && !e.Other?
  {
    hide P.Inv, P.Enabled;
  }

  /** Only unloading takes a worker out of the table. */
  lemma StaysInTable(s: World, e: Event, w: WorkerId)
    requires Enabled(s, e) && InTable(s, w) && !e.Other?
    ensures InTable(Apply(s, e), w)
  {
    NextState(s, e);
    if PoolStep(s, e).Some? { OnlyUnloadRemoves(s.sys, PoolStep(s, e).value, w); }
    hide Apply, P.Apply, P.Enabled;
  }

  lemma GoneStays(s: World, e: Event)
    requires Inv(s) && Enabled(s, e) && GoneInTable(s)
    ensures GoneInTable(Apply(s, e))
  {
    forall w | w in Apply(s, e).gone ensures InTable(Apply(s, e), w) {
      GoneStep(s, e, w);
      if Closes(s, e, w) {
        StopsPresent(s, e, w);
        StaysInTable(s, e, w);
      }
    }
    hide Apply, Inv, Enabled;
  }

  lemma {:induction false} RunGone(states: seq<World>, events: seq<Event>, i: nat)
    requires Run(states, events) && i < |states|
    ensures GoneInTable(states[i])
  {
    hide Inv, Apply, Enabled;
    if i > 0 {
      RunGone(states, events, i - 1);
      RunStep(states, events, i - 1);
      GoneStays(states[i - 1], events[i - 1]);
    }
  }

  /** A worker's process object is closed exactly when a call of close, a shutdown or a launch that
      failed has closed it, and since then the worker was neither launched again nor unloaded. */
  lemma {:induction false} GoneIffClosed(states: seq<World>, events: seq<Event>, i: nat, w: WorkerId)
    requires Run(states, events) && i < |states|
    ensures w in states[i].gone <==>
              exists k :: 0 <= k < i && Closes(states[k], events[k], w)
                          && forall j :: k < j < i ==> !Renews(states[j], events[j], w)
  {
    hide Inv, Apply, Enabled, Closes, Renews, GoneInTable;
    if i > 0 {
      GoneIffClosed(states, events, i - 1, w);
      RunStep(states, events, i - 1);
      RunGone(states, events, i - 1);
      GoneStep(states[i - 1], events[i - 1], w);
      if k :| 0 <= k < i && Closes(states[k], events[k], w)
              && forall j :: k < j < i ==> !Renews(states[j], events[j], w) {
        if k < i - 1 { assert !Renews(states[i - 1], events[i - 1], w); }
      }
    }
  }

  // ---------- the passes ----------

  predicate Visits(e: Event, w: WorkerId) {
    (e.SeeExit? || e.BeginRestart?) && e.worker == w
  }

  lemma TodoStep(s: World, e: Event, w: WorkerId)
    requires Inv(s) && Enabled(s, e)
    ensures w in Apply(s, e).todo <==>
              InTable(Apply(s, e), w)
              && if e.BeginPass? then InTable(s, w) else w in s.todo && !Visits(e, w)
  {
    assert s.todo <= s.sys.pool.workers.Keys;
    hide Inv, Enabled, NextSys, NextTodo;
    NextTodoIs(s, e, w);
    AfterIs(s, e);
    if InTable(s, w) && !e.Other? { StaysInTable(s, e, w); }
  }

  lemma NextTodoIs(s: World, e: Event, w: WorkerId)
    ensures w in NextTodo(s, e) <==>
              if e.BeginPass? then InTable(s, w)
              else w in s.todo && !Visits(e, w) && (e.Other? ==> w in NextSys(s, e).pool.workers)
  {
    hide NextSys;
  }

  /** The pass that began at step k has not come to the worker yet, which has stayed. */
  ghost predicate Unvisited(states: seq<World>, events: seq<Event>, k: nat, i: nat, w: WorkerId)
    requires k < i <= |events| < |states|
  {
    && events[k].BeginPass? && InTable(states[k], w)
    && (forall j :: k < j < i ==> !events[j].BeginPass? && !Visits(events[j], w))
    && forall j :: k < j <= i ==> InTable(states[j], w)
  }

  lemma UnvisitedNext(states: seq<World>, events: seq<Event>, k: nat, i: nat, w: WorkerId)
    requires k < i <= |events| < |states|
    ensures k == i - 1 ==>
              (Unvisited(states, events, k, i, w) <==>
               events[k].BeginPass? && InTable(states[k], w) && InTable(states[i], w))
    ensures k < i - 1 ==>
              (Unvisited(states, events, k, i, w) <==>
               && Unvisited(states, events, k, i - 1, w)
               && !events[i - 1].BeginPass? && !Visits(events[i - 1], w) && InTable(states[i], w))
  {
    hide InTable, Visits;
  }

  /** A worker is still to be visited exactly when it was in the table when the pass began, has not
      been visited in it, and has stayed. */
  lemma {:induction false} TodoIff(states: seq<World>, events: seq<Event>, i: nat, w: WorkerId)
    requires Run(states, events) && i < |states|
    ensures w in states[i].todo <==> exists k :: 0 <= k < i && Unvisited(states, events, k, i, w)
  {
    hide Inv, Apply, Enabled, Visits, InTable, Unvisited;
    if i > 0 {
      TodoIff(states, events, i - 1, w);
      RunStep(states, events, i - 1);
      TodoStep(states[i - 1], events[i - 1], w);
      forall k | 0 <= k < i
        ensures Unvisited(states, events, k, i, w) <==>
                  if events[i - 1].BeginPass? then k == i - 1 && InTable(states[k], w) && InTable(states[i], w)
                  else k < i - 1 && Unvisited(states, events, k, i - 1, w) && !Visits(events[i - 1], w)
                       && InTable(states[i], w)
      {
        UnvisitedNext(states, events, k, i, w);
      }
      if w in states[i].todo {
        if events[i - 1].BeginPass? {
          assert Unvisited(states, events, i - 1, i, w);
        } else {
          var k :| 0 <= k < i - 1 && Unvisited(states, events, k, i - 1, w);
          assert Unvisited(states, events, k, i, w);
        }
      }
    }
  }

  lemma VisitsTodo(s: World, e: Event, w: WorkerId)
    requires Enabled(s, e) && Visits(e, w)
    ensures w in s.todo && !e.BeginPass?
  {
    hide P.Enabled;
  }

  /** Between two visits of the supervisor to a worker a new pass began. */
  lemma OnceAPass(states: seq<World>, events: seq<Event>, i: nat, j: nat, w: WorkerId)
    requires Run(states, events) && i < j < |events| && Visits(events[i], w) && Visits(events[j], w)
    ensures exists k :: i < k < j && events[k].BeginPass?
  {
    hide Inv, Apply, Enabled, InTable, Visits;
    RunStep(states, events, i);
    RunStep(states, events, j);
    VisitsTodo(states[i], events[i], w);
    VisitsTodo(states[j], events[j], w);
    TodoIff(states, events, j, w);
    hide Run;
    var k :| 0 <= k < j && Unvisited(states, events, k, j, w);
  }

  // ---------- shutdown mode ----------

  predicate ShutdownMode(s: World, w: WorkerId) {
    w.group in s.modes && s.modes[w.group].Shutdown?
  }

  lemma ExitLeadsTo(s: World, w: WorkerId)
    requires Enabled(s, SeeExit(w))
    ensures Apply(s, SeeExit(w)).doing == if ShutdownMode(s, w) then Failing(w) else Looking
  {
    NextState(s, SeeExit(w));
    hide Apply, P.Enabled, NextSys;
  }

  lemma FailingStays(s: World, e: Event, w: WorkerId)
    requires Enabled(s, e) && s.doing == Failing(w) && !e.BeginShutdown?
    ensures Apply(s, e).doing == Failing(w) && !e.BeginPass? && !e.SeeExit? && !e.BeginRestart?
  {
    NextState(s, e);
    hide Apply, P.Enabled, NextSys;
  }

  lemma ShutdownCloses(s: World, w: WorkerId)
    requires Inv(s) && s.doing == Failing(w)
    ensures Enabled(s, BeginShutdown)
    ensures var s' := Apply(s, BeginShutdown);
      s'.sys.pool.closing && !s'.sys.pool.accepting && s'.doing == ShuttingDown(w, {})
  {
    NextState(s, BeginShutdown);
    hide Apply;
  }

  /** After an exit in shutdown mode the supervisor does nothing before it closes the pool to requests,
      which it can do at any time; in the other modes it goes on with its pass. */
  lemma {:induction false} ShutdownFollows(states: seq<World>, events: seq<Event>, i: nat, j: nat, w: WorkerId)
    requires Run(states, events) && i < j < |states| && events[i] == SeeExit(w) && ShutdownMode(states[i], w)
    requires forall k :: i < k < j ==> !events[k].BeginShutdown?
    ensures states[j].doing == Failing(w) && Enabled(states[j], BeginShutdown)
    ensures var closed := Apply(states[j], BeginShutdown).sys.pool; closed.closing && !closed.accepting
    ensures forall k :: i < k < j ==> !events[k].BeginPass? && !events[k].SeeExit? && !events[k].BeginRestart?
  {
    hide Inv, Apply, Enabled, ShutdownMode;
    RunStep(states, events, j - 1);
    RunInv(states, events, j);
    if j == i + 1 {
      ExitLeadsTo(states[i], w);
    } else {
      ShutdownFollows(states, events, i, j - 1, w);
      FailingStays(states[j - 1], events[j - 1], w);
    }
    ShutdownCloses(states[j], w);
  }

  lemma OthersGoOn(states: seq<World>, events: seq<Event>, i: nat, w: WorkerId)
    requires Run(states, events) && i < |events| && events[i] == SeeExit(w) && !ShutdownMode(states[i], w)
    ensures states[i + 1].doing == Looking
    ensures states[i + 1].sys.pool.closing == states[i].sys.pool.closing
    ensures states[i + 1].sys.pool.accepting == states[i].sys.pool.accepting
  {
    hide Inv;
    RunStep(states, events, i);
    ExitLeadsTo(states[i], w);
    ExitKeepsOpen(states[i], w);
  }

  lemma ExitKeepsOpen(s: World, w: WorkerId)
    ensures var p := Apply(s, SeeExit(w)).sys.pool;
      p.closing == s.sys.pool.closing && p.accepting == s.sys.pool.accepting
  {
    NextState(s, SeeExit(w));
    hide Apply, Owned, FuturesOf;
  }
}
