/** What stopping processes achieves, and in which order the supervisor does what an exit or READY
    asks of it. */
module SupervisedStops {
  import opened Core
  import opened SmoothRoundRobin
  import opened PoolModel
  import opened PoolInvariant
  import opened SupervisedPool
  import opened SupervisedInvariant
  import opened SupervisedGuarantees
  import opened SupervisedBackoff
  import opened SupervisedEffects
  import P = PoolRuns
  import C = PoolClose

  // ---------- stopped workers are dead ----------

  /** A call of close or a shutdown stops the worker's process. */
  predicate Stops(e: Event, w: WorkerId) {
    (e.CallStops? || e.ShutdownStops?) && e.worker == w
  }

  /** READY comes for the worker. */
  predicate Revives(s: World, e: Event, w: WorkerId) {
    e.BecomeReady? && s.doing.Waiting? && s.doing.worker == w
  }

  lemma StopKills(s: World, e: Event, w: WorkerId)
    requires Inv(s) && Enabled(s, e) && Stops(e, w)
    ensures s.sys.pool.closing && Dead(Apply(s, e), w)
  {
    NextState(s, e);
    hide Apply, Inv;
  }

  /** While the pool is closing no worker leaves the table. */
  lemma StaysWhileClosing(s: World, e: Event, w: WorkerId)
    requires Inv(s) && Enabled(s, e) && s.sys.pool.closing && InTable(s, w)
    ensures InTable(Apply(s, e), w) && Apply(s, e).sys.pool.closing
  {
    NextState(s, e);
    hide Apply, P.Inv, Enabled, P.Apply;
    if PoolStep(s, e).Some? {
      C.ClosingStep(s.sys, PoolStep(s, e).value);
      OnlyUnloadRemoves(s.sys, PoolStep(s, e).value, w);
    }
  }

  /** A worker that was stopped stays in the table and is dead until READY comes for it. */
  lemma {:induction false} StoppedDead(states: seq<World>, events: seq<Event>, i: nat, j: nat, w: WorkerId)
    requires Run(states, events) && i < j < |states| && Stops(events[i], w)
    ensures InTable(states[j], w) && states[j].sys.pool.closing
    ensures (forall k :: i < k < j ==> !Revives(states[k], events[k], w)) ==> Dead(states[j], w)
  {
    hide Inv, Apply, Enabled, Dead, Revives, Stops;
    RunStep(states, events, j - 1);
    if j == i + 1 {
      StopKills(states[i], events[i], w);
      DeadInTable(states[j], w);
      StopKills(states[i], events[i], w);
      ClosingKept(states[i], events[i]);
    } else {
      StoppedDead(states, events, i, j - 1, w);
      StaysWhileClosing(states[j - 1], events[j - 1], w);
      if forall k :: i < k < j ==> !Revives(states[k], events[k], w) { DeadOn(states[j - 1], events[j - 1], w); }
    }
  }

  lemma DeadInTable(s: World, w: WorkerId)
    ensures Dead(s, w) ==> InTable(s, w)
  {
  }

  lemma ClosingKept(s: World, e: Event)
    requires Inv(s) && Enabled(s, e) && s.sys.pool.closing
    ensures Apply(s, e).sys.pool.closing
  {
    NextState(s, e);
    hide Apply, P.Inv, Enabled, P.Apply;
    if PoolStep(s, e).Some? { C.ClosingStep(s.sys, PoolStep(s, e).value); }
  }

  lemma DeadOn(s: World, e: Event, w: WorkerId)
    requires Inv(s) && Enabled(s, e) && Dead(s, w) && !Revives(s, e, w) && InTable(Apply(s, e), w)
    ensures Dead(Apply(s, e), w)
  {
    DeadStays(s, e, w);
  }

  lemma StoppingNext(s: World, e: Event, c: nat, w: WorkerId)
    requires Enabled(s, e)
    ensures StoppingAt(Apply(s, e), c) && w in Apply(s, e).calls[c].stopped ==>
              (StoppingAt(s, c) && w in s.calls[c].stopped) || (e.CallStops? && e.call == c && e.worker == w)
  {
    NextState(s, e);
    hide Apply, NextSys, P.Enabled;
  }

  /** Whom a call of close counts as stopped it has stopped. */
  lemma {:induction false} StoppedBy(states: seq<World>, events: seq<Event>, i: nat, c: nat, w: WorkerId)
    requires Run(states, events) && i < |states| && StoppingAt(states[i], c) && w in states[i].calls[c].stopped
    ensures exists k :: 0 <= k < i && events[k].CallStops? && events[k].call == c && events[k].worker == w
  {
    hide Inv, Apply, Enabled;
    if i > 0 {
      RunStep(states, events, i - 1);
      StoppingNext(states[i - 1], events[i - 1], c, w);
      if !(events[i - 1].CallStops? && events[i - 1].call == c && events[i - 1].worker == w) {
        StoppedBy(states, events, i - 1, c, w);
      }
    }
  }

  /** When a call of close goes on to fail what is pending, every worker in the table is dead, but for
      those that reported READY after the call had stopped them. */
  lemma CloseKills(states: seq<World>, events: seq<Event>, i: nat, c: nat, w: WorkerId)
    requires Run(states, events) && i < |events| && events[i] == CallFails(c) && InTable(states[i], w)
    ensures exists k :: 0 <= k < i && events[k].CallStops? && events[k].call == c && events[k].worker == w
                        && (Dead(states[i], w) || exists m :: k < m < i && Revives(states[m], events[m], w))
  {
    RunStep(states, events, i);
    AllStopped(states[i], c, w);
    hide Inv, Apply, Enabled, Dead, Revives;
    StoppedBy(states, events, i, c, w);
    var k :| 0 <= k < i && events[k].CallStops? && events[k].call == c && events[k].worker == w;
    StoppedDead(states, events, k, i, w);
  }

  lemma AllStopped(s: World, c: nat, w: WorkerId)
    requires Enabled(s, CallFails(c)) && InTable(s, w)
    ensures StoppingAt(s, c) && w in s.calls[c].stopped
  {
  }

  // ---------- READY ----------

  lemma ReadyLeadsTo(s: World)
    requires Inv(s) && Enabled(s, BecomeReady)
    ensures s.doing.Waiting?
    ensures Apply(s, BecomeReady).doing == Clearing(s.doing.worker.group)
    ensures s.doing.here ==> !Dead(Apply(s, BecomeReady), s.doing.worker)
  {
    NextState(s, BecomeReady);
    hide Apply;
  }

  lemma ClearingStays(s: World, e: Event, g: GroupName)
    requires Enabled(s, e) && s.doing == Clearing(g) && e != ClearWeight
    ensures Apply(s, e).doing == Clearing(g) && !e.BeginPass? && !e.SeeExit? && !e.BeginRestart?
  {
    NextState(s, e);
    hide Apply, P.Enabled, NextSys;
  }

  lemma Clears(s: World, g: GroupName)
    requires s.doing == Clearing(g)
    ensures Enabled(s, ClearWeight) && At(Apply(s, ClearWeight).sys.pool.smooth, g) == 0
  {
    NextState(s, ClearWeight);
    hide Apply;
  }

  /** READY makes the worker alive, and the supervisor does nothing before it has cleared the smooth
      weight of its group, which it can do at any time. */
  lemma {:induction false} ReadyClears(states: seq<World>, events: seq<Event>, i: nat, j: nat)
    requires Run(states, events) && i < j < |states| && events[i] == BecomeReady
    requires forall k :: i < k < j ==> events[k] != ClearWeight
    ensures states[i].doing.Waiting?
    ensures states[i].doing.here ==> !Dead(states[i + 1], states[i].doing.worker)
    ensures Enabled(states[j], ClearWeight)
    ensures var g := states[i].doing.worker.group;
      states[j].doing == Clearing(g) && At(Apply(states[j], ClearWeight).sys.pool.smooth, g) == 0
    ensures forall k :: i < k < j ==> !events[k].BeginPass? && !events[k].SeeExit? && !events[k].BeginRestart?
  {
    hide Inv, Apply, Enabled, Dead;
    RunStep(states, events, j - 1);
    if j == i + 1 {
      ReadyLeadsTo(states[i]);
    } else {
      ReadyClears(states, events, i, j - 1);
      ClearingStays(states[j - 1], events[j - 1], states[i].doing.worker.group);
    }
    Clears(states[j], states[i].doing.worker.group);
  }

  // ---------- shutdown mode ----------

  /** From the exit of w on, the supervisor is about to shut the pool down, or has stopped some of the
      other workers. */
  ghost predicate Shutting(states: seq<World>, events: seq<Event>, i: nat, j: nat, w: WorkerId)
    requires i < j < |states| && j <= |events|
  {
    || (states[j].doing == Failing(w) && forall k :: i < k < j ==> !events[k].ShutdownStops?)
    || (states[j].doing.ShuttingDown? && states[j].doing.worker == w && w !in states[j].doing.stopped
        && forall v :: v in states[j].doing.stopped <==> StopsIn(events, i, j, v))
  }

  ghost predicate StopsIn(events: seq<Event>, i: nat, j: nat, v: WorkerId)
    requires j <= |events|
  {
    exists k :: i < k < j && events[k].ShutdownStops? && events[k].worker == v
  }

  lemma ShuttingStep(s: World, e: Event, w: WorkerId)
    requires Enabled(s, e) && !e.ShutdownFails? && !e.SupervisorRaises?
    requires s.doing == Failing(w) || (s.doing.ShuttingDown? && s.doing.worker == w)
    ensures var s' := Apply(s, e);
      if e.BeginShutdown? then s.doing == Failing(w) && s'.doing == ShuttingDown(w, {})
      else if e.ShutdownStops? then
        s.doing.ShuttingDown? && e.worker != w && e.worker !in s.doing.stopped
        && s'.doing == ShuttingDown(w, s.doing.stopped + {e.worker})
      else s'.doing == s.doing
  {
    NextState(s, e);
    hide Apply, P.Enabled, NextSys;
  }

  lemma {:induction false} ShuttingFrom(states: seq<World>, events: seq<Event>, i: nat, j: nat, w: WorkerId)
    requires Run(states, events) && i < j < |states| && events[i] == SeeExit(w) && ShutdownMode(states[i], w)
    requires forall k :: i < k < j ==> !events[k].ShutdownFails? && !events[k].SupervisorRaises?
    ensures j <= |events| && Shutting(states, events, i, j, w)
  {
    hide Inv, Apply, Enabled, ShutdownMode;
    RunStep(states, events, j - 1);
    if j == i + 1 {
      ExitLeadsTo(states[i], w);
    } else {
      ShuttingFrom(states, events, i, j - 1, w);
      ShuttingStep(states[j - 1], events[j - 1], w);
      StopsNext(events, i, j);
    }
  }

  lemma StopsNext(events: seq<Event>, i: nat, j: nat)
    requires i + 1 < j <= |events|
    ensures forall v :: StopsIn(events, i, j, v) <==>
              StopsIn(events, i, j - 1, v) || (events[j - 1].ShutdownStops? && events[j - 1].worker == v)
  {
  }

  /** A shutdown after the exit of w stops every other worker in the table, each once and w never,
      before it fails what is pending. */
  lemma ShutdownStopsOthers(states: seq<World>, events: seq<Event>, i: nat, j: nat, w: WorkerId, v: WorkerId)
    requires Run(states, events) && i < j < |events| && events[i] == SeeExit(w) && ShutdownMode(states[i], w)
    requires forall k :: i < k < j ==> !events[k].ShutdownFails? && !events[k].SupervisorRaises?
    ensures events[j].ShutdownStops? ==> events[j].worker != w && !StopsIn(events, i, j, events[j].worker)
    ensures events[j].ShutdownFails? && InTable(states[j], v) && v != w ==> StopsIn(events, i, j, v)
  {
    hide Inv, Apply, ShutdownMode;
    RunStep(states, events, j);
    ShuttingFrom(states, events, i, j, w);
    hide StopsIn, P.Enabled;
  }
}
