/** Messages from an earlier incarnation of a worker. */
module StaleResults {
  import opened Core
  import opened SmoothRoundRobin
  import opened PoolModel
  import opened PoolInvariant
  import opened PoolRuns

  /** The incarnation is over: its worker is gone, or was launched again, or has been found dead. */
  ghost predicate Spent(s: Sys, a: Assignment) {
    a.worker in s.pool.workers ==>
      var w := s.pool.workers[a.worker];
      a.generation < w.generation
      || (a.generation == w.generation && !w.alive && a.worker !in s.starting && AssignedTo(s.pool, a.worker) == {})
  }

  /** A message from an incarnation that is over changes nothing, whatever task it names. */
  lemma SpentIsInert(s: Sys, t: TaskId, a: Assignment)
    requires PoolInv(s.pool) && Spent(s, a)
    ensures Receive(s.pool, t, a) == (s.pool, None)
    ensures Apply(s, Result(t, a)) == s
  {
    assert TaskBooked(s.pool, t);
    assert t in AssignedTo(s.pool, a.worker) <==> t in s.pool.assignments && s.pool.assignments[t].worker == a.worker;
    assert s.held + {} == s.held;
  }

  lemma ExecSpent(s: Sys, e: Event, a: Assignment)
    requires Inv(s) && Spent(s, a) && e.Exec? && a.worker in s.pool.workers
    ensures Spent(Apply(s, e), a)
  {
    hide PoolInv, Conserved, Dispatch;
    var p, f, o := s.pool, s.created, e.oracle;
    ExecuteKeeps(p, e.task, e.handler, f, o);
    ExecuteWorkers(p, e.task, e.handler, f, o, a.worker);
  }

  /** Executing leaves generations and liveness alone and loads only workers that are alive. */
  lemma ExecuteWorkers(p: Pool<nat>, t: TaskId, h: HandlerName, f: nat, o: Oracle, w: WorkerId)
    requires PoolInv(p) && w in p.workers
    ensures var q := Execute(p, t, h, f, o).0;
      && w in q.workers && q.workers[w].generation == p.workers[w].generation
      && q.workers[w].alive == p.workers[w].alive
      && (!p.workers[w].alive ==> AssignedTo(q, w) == AssignedTo(p, w))
  {
    InvKeys(p);
    hide Execute, PoolInv, AssignedTo;
    ExecuteShape(p, t, h, f, o);
    var (q, out) := Execute(p, t, h, f, o);
    match out
    case Rejected(_) => assert AssignedTo(q, w) == AssignedTo(p, w) by { SmoothAssigned(p, q, w); }
    case Assigned(v) => AssignWorkers(p, p.(futures := p.futures[t := f], smooth := q.smooth), t, v, w);
  }

  lemma SmoothAssigned(p: Pool<nat>, q: Pool<nat>, w: WorkerId)
    requires q.assignments == p.assignments
    ensures AssignedTo(q, w) == AssignedTo(p, w)
  {
  }

  lemma AssignWorkers(p: Pool<nat>, p1: Pool<nat>, t: TaskId, v: WorkerId, w: WorkerId)
    requires p1.workers == p.workers && p1.assignments == p.assignments && w in p.workers
    requires v in p.workers && p.workers[v].alive && t !in p.assignments
    ensures var q := Assign(p1, t, v);
      && w in q.workers && q.workers[w].generation == p.workers[w].generation
      && q.workers[w].alive == p.workers[w].alive
      && (!p.workers[w].alive ==> AssignedTo(q, w) == AssignedTo(p, w))
  {
    AssignCount(p1, t, v, w);
    assert AssignedTo(p1, w) == AssignedTo(p, w);
  }

  lemma StepSpent(s: Sys, e: Event, a: Assignment)
    requires Inv(s) && Enabled(s, e) && Spent(s, a)
    requires e.Load? ==> e.group != a.worker.group
    ensures Spent(Apply(s, e), a)
  {
    if e.Exec? {
      if a.worker in s.pool.workers {
        ExecSpent(s, e, a);
      } else {
        ExecNone(s, e, a.worker);
      }
    } else {
      hide PoolInv, Conserved, Execute, Spent, Apply, Enabled;
      match e
      case Result(t, b) => ResultSpent(s, t, b, a);
      case Exit(w) => ExitSpent(s, w, a);
      case Unload(g) => UnloadSpent(s, g, a);
      case Restart(w) => RestartSpent(s, w, a);
      case Ready(w) => ReadySpent(s, w, a);
      case _ => OtherSpent(s, e, a);
    }
  }

  lemma RestartSpent(s: Sys, w: WorkerId, a: Assignment)
    requires Enabled(s, Restart(w)) && Spent(s, a)
    ensures Spent(Apply(s, Restart(w)), a)
  {
    assert AssignedTo(Relaunch(s.pool, w), a.worker) == AssignedTo(s.pool, a.worker);
  }

  lemma ReadySpent(s: Sys, w: WorkerId, a: Assignment)
    requires Enabled(s, Ready(w)) && Spent(s, a)
    ensures Spent(Apply(s, Ready(w)), a)
  {
    assert AssignedTo(SetAlive(s.pool, w, true), a.worker) == AssignedTo(s.pool, a.worker);
  }

  lemma OtherSpent(s: Sys, e: Event, a: Assignment)
    requires Enabled(s, e) && Spent(s, a) && (e.Load? ==> e.group != a.worker.group)
    requires e.Resolve? || e.ClearWeight? || e.Stopped? || e.Load? || e.Closing? || e.FailPending? || e.Closed?
    ensures Spent(Apply(s, e), a)
  {
    hide AddRoutes;
    assert !e.FailPending? ==> AssignedTo(Apply(s, e).pool, a.worker) == AssignedTo(s.pool, a.worker);
    assert e.FailPending? ==> AssignedTo(Apply(s, e).pool, a.worker) == {};
  }

  lemma ExecNone(s: Sys, e: Event, w: WorkerId)
    requires e.Exec? && w !in s.pool.workers
    ensures w !in Apply(s, e).pool.workers
  {
    hide Execute;
    ExecuteShape(s.pool, e.task, e.handler, s.created, e.oracle);
  }

  lemma ResultSpent(s: Sys, t: TaskId, b: Assignment, a: Assignment)
    requires Spent(s, a)
    ensures Spent(Apply(s, Result(t, b)), a)
  {
    var q := Receive(s.pool, t, b).0;
    assert AssignedTo(q, a.worker) <= AssignedTo(s.pool, a.worker);
  }

  lemma ExitSpent(s: Sys, w: WorkerId, a: Assignment)
    requires Spent(s, a)
    ensures Spent(Apply(s, Exit(w)), a)
  {
    var q := HandleExit(s.pool, w).0;
    assert AssignedTo(q, a.worker) <= AssignedTo(s.pool, a.worker);
  }

  lemma UnloadSpent(s: Sys, g: GroupName, a: Assignment)
    requires Spent(s, a)
    ensures Spent(Apply(s, Unload(g)), a)
  {
    var q := Unregister(s.pool, g).0;
    assert AssignedTo(q, a.worker) <= AssignedTo(s.pool, a.worker);
  }

  /** Handling an exit, launching again and unloading each end the incarnation. */
  lemma IncarnationEnds(s: Sys, e: Event, a: Assignment)
    requires Inv(s) && Enabled(s, e) && a.worker in s.pool.workers
    requires a.generation == s.pool.workers[a.worker].generation
    requires (e == Exit(a.worker) && s.pool.workers[a.worker].alive)
             || (e == Restart(a.worker) && !s.pool.closing)
             || (e == Unload(a.worker.group) && !s.pool.closing)
    ensures Spent(Apply(s, e), a)
  {
    if e.Exit? { HandleExitKeeps(s.pool, a.worker); }
  }

  /** Once an incarnation of a worker is over, no message from it ever changes a future, an
      assignment or a count, as long as the group's name is not loaded again. */
  lemma {:induction false} StaleIsInert(states: seq<Sys>, events: seq<Event>, i: nat, j: nat, a: Assignment, t: TaskId)
    requires Run(states, events) && i <= j < |states| && Spent(states[i], a)
    requires forall k :: i <= k < j && events[k].Load? ==> events[k].group != a.worker.group
    ensures Spent(states[j], a) && Apply(states[j], Result(t, a)) == states[j]
    decreases j - i
  {
    hide Apply, Spent, PoolInv, Conserved;
    RunInv(states, events, j);
    if i < j {
      StaleIsInert(states, events, i, j - 1, a, t);
      RunInv(states, events, j - 1);
      assert Enabled(states[j - 1], events[j - 1]);
      StepSpent(states[j - 1], events[j - 1], a);
    }
    SpentIsInert(states[j], t, a);
  }

  lemma WorkerGroups(p: Pool<nat>, w: WorkerId)
    requires PoolInv(p) && w in p.workers
    ensures w.group in p.groups
  {
  }

  lemma GroupsKeepGenerations(p: Pool<nat>, g: GroupName, hs: seq<HandlerName>, n: nat, w: WorkerId)
    requires w in p.workers && w.group in p.groups
    ensures w in Register(p, g, hs, n).workers && Register(p, g, hs, n).workers[w] == p.workers[w]
    ensures w in Unregister(p, g).0.workers ==> Unregister(p, g).0.workers[w] == p.workers[w]
  {
    hide AddRoutes, DropRoutes, GroupTasks, FuturesOf, RemoveName;
  }

  lemma ExitKeepsGenerations(p: Pool<nat>, v: WorkerId, w: WorkerId)
    requires w in p.workers
    ensures w in HandleExit(p, v).0.workers && HandleExit(p, v).0.workers[w].generation == p.workers[w].generation
  {
    hide Owned, FuturesOf;
  }

  lemma ReceiveKeepsGenerations(p: Pool<nat>, t: TaskId, a: Assignment, w: WorkerId)
    requires w in p.workers
    ensures w in Receive(p, t, a).0.workers && Receive(p, t, a).0.workers[w].generation == p.workers[w].generation
  {
  }

  function GenerationOf(p: Pool<nat>, w: WorkerId): nat {
    if w in p.workers then p.workers[w].generation else 0
  }

  lemma PoolAfter(s: Sys, e: Event)
    ensures match e
            case Exec(t, h, o) => Apply(s, e).pool == Execute(s.pool, t, h, s.created, o).0
            case Exit(w) => Apply(s, e).pool == HandleExit(s.pool, w).0
            case Result(t, a) => Apply(s, e).pool == Receive(s.pool, t, a).0
            case Load(g, hs, n) => Apply(s, e).pool == Register(s.pool, g, hs, n)
            case Unload(g) => Apply(s, e).pool == Unregister(s.pool, g).0
            case _ => true
  {
    hide Execute, Unregister, Register, HandleExit, Receive;
  }

  lemma WorkKeepsGenerations(s: Sys, e: Event, w: WorkerId)
    requires Inv(s) && w in s.pool.workers && (e.Exec? || e.Exit? || e.Result? || e.Load? || e.Unload?)
    requires w in Apply(s, e).pool.workers
    ensures GenerationOf(Apply(s, e).pool, w) == GenerationOf(s.pool, w)
  {
    assert PoolInv(s.pool);
    PoolAfter(s, e);
    hide Inv, Execute, PoolInv, Unregister, Register, HandleExit, Receive, Apply;
    match e
    case Exec(t, h, o) => ExecuteWorkers(s.pool, t, h, s.created, o, w);
    case Unload(g) =>
      WorkerGroups(s.pool, w);
      GroupsKeepGenerations(s.pool, g, [], 0, w);
    case Load(g, hs, n) =>
      WorkerGroups(s.pool, w);
      GroupsKeepGenerations(s.pool, g, hs, n, w);
    case Exit(v) => ExitKeepsGenerations(s.pool, v, w);
    case Result(t, a) => ReceiveKeepsGenerations(s.pool, t, a, w);
    case _ =>
  }

  /** A launch is the only step that changes a generation while the worker stays. */
  lemma OthersKeepGenerations(s: Sys, e: Event, w: WorkerId)
    requires Inv(s) && w in s.pool.workers && !e.Restart? && w in Apply(s, e).pool.workers
    ensures GenerationOf(Apply(s, e).pool, w) == GenerationOf(s.pool, w)
  {
    hide Inv;
    if e.Exec? || e.Exit? || e.Result? || e.Load? || e.Unload? {
      hide Apply, GenerationOf;
      WorkKeepsGenerations(s, e, w);
    }
  }

  /** Only loading its group's name puts a worker into the table. */
  lemma NobodyElseAppears(s: Sys, e: Event, w: WorkerId)
    requires w in Apply(s, e).pool.workers && !(e.Load? && e.group == w.group)
    ensures w in s.pool.workers
  {
    if e.Exec? { ExecuteNoNew(s.pool, e.task, e.handler, s.created, e.oracle, w); }
    hide Execute, AddRoutes, DropRoutes, RemoveName, GroupTasks, FuturesOf, Owned;
  }

  lemma ExecuteNoNew(p: Pool<nat>, t: TaskId, h: HandlerName, f: nat, o: Oracle, w: WorkerId)
    requires w in Execute(p, t, h, f, o).0.workers
    ensures w in p.workers
  {
    hide Execute, Routed;
    ExecuteShape(p, t, h, f, o);
    match Execute(p, t, h, f, o).1
    case Rejected(_) =>
    case Assigned(v) => assert v in p.workers;
  }

  /** How often a worker was launched between two moments; a restart of a closing pool is none. */
  function Launches(states: seq<Sys>, events: seq<Event>, w: WorkerId, i: nat, j: nat): nat
    requires i <= j <= |events| < |states|
    decreases j - i
  {
    if i == j then 0
    else
      var launched := events[j - 1] == Restart(w) && !states[j - 1].pool.closing;
      Launches(states, events, w, i, j - 1) + if launched then 1 else 0
  }

  /** As long as its group's name is not loaded again, a worker's generation never falls: it has
      grown by exactly the number of its launches. */
  lemma {:induction false} GenerationCountsLaunches(states: seq<Sys>, events: seq<Event>, i: nat, j: nat, w: WorkerId)
    requires Run(states, events) && i <= j < |states| && w in states[j].pool.workers
    requires forall k :: i <= k < j && events[k].Load? ==> events[k].group != w.group
    ensures w in states[i].pool.workers
    ensures GenerationOf(states[j].pool, w) == GenerationOf(states[i].pool, w) + Launches(states, events, w, i, j)
    decreases j - i
  {
    hide Apply, Enabled, Inv, GenerationOf;
    if i < j {
      var s, e := states[j - 1], events[j - 1];
      assert Enabled(s, e) && states[j] == Apply(s, e);
      NobodyElseAppears(s, e, w);
      GenerationCountsLaunches(states, events, i, j - 1, w);
      RunInv(states, events, j - 1);
      if e.Restart? {
        LaunchRaisesGeneration(s.pool, e.worker, w);
        RestartPool(s, e.worker);
      } else {
        OthersKeepGenerations(s, e, w);
      }
    }
  }

  /** A launch raises the generation of its worker by one, and no other. */
  lemma LaunchRaisesGeneration(p: Pool<nat>, v: WorkerId, w: WorkerId)
    requires w in p.workers
    ensures GenerationOf(Relaunch(p, v), w) == GenerationOf(p, w) + if w == v && !p.closing then 1 else 0
  {
    if p.closing || v !in p.workers {
    } else if w == v {
    } else {
    }
  }

  lemma RestartPool(s: Sys, v: WorkerId)
    ensures Apply(s, Restart(v)).pool == Relaunch(s.pool, v)
  {
    hide Relaunch;
  }

  // ---------- loading a name again ----------

  /** Loading the name again revives exactly the incarnations of workers the new group has. */
  lemma LoadRevives(s: Sys, a: Assignment, hs: seq<HandlerName>, n: nat)
    requires Inv(s) && CanRegister(s.pool, a.worker.group)
    ensures Spent(Apply(s, Load(a.worker.group, hs, n)), a) <==> a.worker.index >= n || a.generation == 0
  {
    var q := Register(s.pool, a.worker.group, hs, n);
    if a.worker.index < n {
      assert a.worker in NewWorkers(a.worker.group, n);
    } else {
      assert a.worker !in s.pool.workers;
    }
  }
}
