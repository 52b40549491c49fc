/** Two runs that show where the guarantees of the pool end. */
module PoolFindings {
  import opened Core
  import opened SmoothRoundRobin
  import opened PoolModel
  import opened PoolInvariant
  import opened PoolDispatch
  import opened PoolRuns
  import opened StaleResults

  /** One worker serving one handler. */
  function One(g: GroupName, h: HandlerName): Sys {
    Sys(Constructed([GroupSpec(g, [h], 1)]), 0, {}, {}, {}, map[])
  }

  /** Open, with one group of one worker in its first incarnation. */
  ghost predicate Serving(s: Sys, g: GroupName, h: HandlerName) {
    && Inv(s) && s.pool.accepting && !s.pool.closing && !s.pool.closeComplete && s.pool.groups == [g]
    && g in s.pool.groupHandlers && s.pool.groupHandlers[g] == [h]
    && WorkerId(g, 0) in s.pool.workers
    && s.pool.workers[WorkerId(g, 0)].generation == 1 && s.pool.workers[WorkerId(g, 0)].alive
  }

  lemma ServingTakes(s: Sys, g: GroupName, h: HandlerName, t: TaskId)
    requires Serving(s, g, h) && t.text != "" && s.pool.futures == map[]
    ensures var w := WorkerId(g, 0);
      var s' := Apply(s, Exec(t, h, Oracle({w}, {w})));
      && Serving(s', g, h) && s'.created == s.created + 1 && s'.held == s.held && s'.took == s.took
      && s'.pool.futures == map[t := s.created]
      && t in s'.pool.assignments && s'.pool.assignments[t] == Assignment(w, 1)
  {
    var w, p := WorkerId(g, 0), s.pool;
    var o := Oracle({w}, {w});
    assert Available(p, h, o, w);
    hide Execute, PoolInv, Conserved, Deploys, Routed, Available, Booked, Routing;
    AssignedIff(p, t, h, s.created, o);
    ExecuteShape(p, t, h, s.created, o);
    ExecCreates(s, t, h, o);
    ExecuteFlags(p, t, h, s.created, o);
    assert Execute(p, t, h, s.created, o).1.worker == w;
  }

  lemma ServingUnloads(s: Sys, g: GroupName, h: HandlerName, t: TaskId)
    requires Serving(s, g, h) && t in s.pool.futures && s.pool.futures == map[t := 0] && s.held == {}
    ensures var s' := Apply(s, Unload(g));
      && Inv(s') && s'.created == s.created && s'.held == {0} && s'.took == s.took && s'.pool.futures == map[]
      && s'.pool.accepting && !s'.pool.closing && !s'.pool.closeComplete && s'.pool.groups == []
      && WorkerId(g, 0) !in s'.pool.workers
  {
    UnloadTakes(s, g);
    TheTask(s.pool, g, t);
    hide PoolInv, Conserved, DropRoutes, GroupTasks;
  }

  lemma TheTask(p: Pool<nat>, g: GroupName, t: TaskId)
    requires PoolInv(p) && p.groups == [g] && t in p.futures && p.futures.Keys == {t}
    ensures GroupTasks(p, g) == {t}
  {
    InvKeys(p);
    assert TaskBooked(p, t);
    WorkerGroups(p, p.assignments[t].worker);
    hide PoolInv, Booked, Routing;
  }

  lemma LoadServes(s: Sys, g: GroupName, h: HandlerName)
    requires Inv(s) && s.pool.accepting && !s.pool.closing && !s.pool.closeComplete && s.pool.groups == []
    ensures var s' := Apply(s, Load(g, [h], 1));
      Serving(s', g, h) && s'.created == s.created && s'.held == s.held && s'.pool.futures == s.pool.futures
  {
    StepKeeps(s, Load(g, [h], 1));
    assert WorkerId(g, 0) in NewWorkers(g, 1);
    hide PoolInv, Conserved, AddRoutes;
  }

  lemma OneServes(g: GroupName, h: HandlerName)
    ensures Serving(One(g, h), g, h) && One(g, h).pool.futures == map[]
  {
    var specs := [GroupSpec(g, [h], 1)];
    ConstructedKeeps<nat>(specs);
    assert WorkerId(g, 0) in NewWorkers(g, 1);
    assert Constructed<nat>(specs[..0]).groups == [];
    hide PoolInv, AddRoutes;
  }

  /** Exactly what the condition of StaleIsInert excludes does happen: a task is assigned, its
      group is unloaded and loaded again, the task id is executed again, and the message of the
      first incarnation takes the future of the second execution. */
  lemma StaleResultTaken(g: GroupName, h: HandlerName, t: TaskId)
    requires t.text != ""
    ensures var w := WorkerId(g, 0);
      var exec := Exec(t, h, Oracle({w}, {w}));
      var old1 := Apply(Apply(One(g, h), exec), Unload(g));
      var now := Apply(Apply(old1, Load(g, [h], 1)), exec);
      && Spent(old1, Assignment(w, 1)) && old1.held == {0}
      && now.pool.futures == map[t := 1] && Apply(now, Result(t, Assignment(w, 1))).held == {0, 1}
  {
    OneServes(g, h);
    FirstNumber(g, h);
    hide Apply, Serving, One, Inv;
    var w := WorkerId(g, 0);
    var exec := Exec(t, h, Oracle({w}, {w}));
    var s0 := One(g, h);
    ServingTakes(s0, g, h, t);
    var s1 := Apply(s0, exec);
    ServingUnloads(s1, g, h, t);
    var s2 := Apply(s1, Unload(g));
    LoadServes(s2, g, h);
    var s3 := Apply(s2, Load(g, [h], 1));
    ServingTakes(s3, g, h, t);
    ResultTaken(Apply(s3, exec), t, Assignment(w, 1), 1);
  }

  lemma FirstNumber(g: GroupName, h: HandlerName)
    ensures One(g, h).created == 0 && One(g, h).held == {} && One(g, h).took == map[]
  {
  }

  lemma ResultTaken(s: Sys, t: TaskId, a: Assignment, f: nat)
    requires t in s.pool.assignments && s.pool.assignments[t] == a && s.pool.futures == map[t := f]
    ensures Apply(s, Result(t, a)).held == s.held + {f}
  {
  }

  /** close does not wait for a future that another thread has taken: here it completes while the
      future of an unloaded group is still unresolved. */
  lemma CloseLeavesTakenFuture(g: GroupName, h: HandlerName, t: TaskId)
    requires t.text != ""
    ensures var w := WorkerId(g, 0);
      var taken := Apply(Apply(One(g, h), Exec(t, h, Oracle({w}, {w}))), Unload(g));
      var failed := Apply(Apply(taken, Closing), FailPending(Some(0)));
      && Enabled(Apply(taken, Closing), FailPending(Some(0))) && Enabled(failed, Closed(0))
      && Apply(failed, Closed(0)).pool.closeComplete
      && Apply(failed, Closed(0)).held == {0} && 0 !in Apply(failed, Closed(0)).done
  {
    OneServes(g, h);
    FirstNumber(g, h);
    var w := WorkerId(g, 0);
    var exec := Exec(t, h, Oracle({w}, {w}));
    hide Apply, Serving, One, Inv, Enabled;
    ServingTakes(One(g, h), g, h, t);
    ServingUnloads(Apply(One(g, h), exec), g, h, t);
    ClosesHolding(Apply(Apply(One(g, h), exec), Unload(g)));
  }

  lemma ClosesHolding(s: Sys)
    requires Inv(s) && !s.pool.closeComplete && s.took == map[] && s.held == {0} && s.pool.futures == map[]
    ensures var failed := Apply(Apply(s, Closing), FailPending(Some(0)));
      && Enabled(Apply(s, Closing), FailPending(Some(0))) && Enabled(failed, Closed(0))
      && Apply(failed, Closed(0)).pool.closeComplete
      && Apply(failed, Closed(0)).held == {0} && 0 !in Apply(failed, Closed(0)).done
  {
    assert s.pool.futures.Values == {};
    hide PoolInv;
  }
}
