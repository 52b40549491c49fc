/**
 Which messages can still have an effect: those of an incarnation that is not over, as long as its
 group can be given work, and those that name a pending assignment now.
 */
module LiveResults {
  import opened Core
  import opened SmoothRoundRobin
  import opened PoolModel
  import opened PoolInvariant
  import opened PoolDispatch
  import opened PoolRuns
  import opened StaleResults

  /** The state after some steps. */
  function After(s: Sys, events: seq<Event>): Sys
    decreases |events|
  {
    if events == [] then s else After(Apply(s, events[0]), events[1..])
  }

  /** Steps that can be taken one after the other without loading the group's name. */
  predicate Possible(s: Sys, events: seq<Event>, g: GroupName)
    decreases |events|
  {
    events == []
    || (Enabled(s, events[0]) && !(events[0].Load? && events[0].group == g)
        && Possible(Apply(s, events[0]), events[1..], g))
  }

  /** After these steps a message of the incarnation takes the task's future. */
  predicate Takes(s: Sys, events: seq<Event>, t: TaskId, a: Assignment) {
    Possible(s, events, a.worker.group) && Receive(After(s, events).pool, t, a).1.Some?
  }

  /** Some continuation that does not load the group's name again lets a message of the incarnation
      take a future. */
  ghost predicate CanTake(s: Sys, a: Assignment) {
    exists events, t :: Takes(s, events, t, a)
  }

  /** Some task is assigned to the incarnation. */
  ghost predicate Named(p: Pool<nat>, a: Assignment) {
    exists t :: t in p.assignments && p.assignments[t] == a
  }

  /** The pool takes requests and the group deploys some handler. */
  predicate Open(p: Pool<nat>, g: GroupName) {
    p.accepting && g in p.groupHandlers && p.groupHandlers[g] != []
  }

  /** A message of an incarnation can take a future, now or after any steps other than loading its
      group's name, exactly when a task is assigned to it, or it is not over and its group can be
      given work. */
  lemma CanTakeIff(s: Sys, a: Assignment)
    requires Inv(s)
    ensures CanTake(s, a) <==> Named(s.pool, a) || (Open(s.pool, a.worker.group) && !Spent(s, a))
  {
    hide Inv, Open, Spent, CanTake, Named;
    if Named(s.pool, a) {
      NamedTakes(s, a);
    } else if Open(s.pool, a.worker.group) && !Spent(s, a) {
      LiveTakes(s, a);
    } else {
      IdleCannot(s, a);
    }
  }

  /** After loading a name again into an open pool, exactly the incarnations that the new group's
      workers are yet to reach can take futures again. */
  lemma LoadRevivesEffects(s: Sys, a: Assignment, hs: seq<HandlerName>, n: nat)
    requires Inv(s) && CanRegister(s.pool, a.worker.group) && DistinctHandlers(hs) && hs != []
    ensures CanTake(Apply(s, Load(a.worker.group, hs, n)), a) <==> a.worker.index < n && a.generation > 0
  {
    var e := Load(a.worker.group, hs, n);
    LoadRevives(s, a, hs, n);
    StepKeeps(s, e);
    LoadOpens(s, a.worker.group, hs, n);
    CanTakeIff(Apply(s, e), a);
    NamedIsLive(Apply(s, e), a);
    hide Apply, Inv, Spent, CanTake, Named;
  }

  lemma LoadOpens(s: Sys, g: GroupName, hs: seq<HandlerName>, n: nat)
    requires CanRegister(s.pool, g) && hs != []
    ensures Open(Apply(s, Load(g, hs, n)).pool, g)
  {
    hide AddRoutes, NewWorkers;
  }

  lemma NamedIsLive(s: Sys, a: Assignment)
    requires Inv(s)
    ensures Spent(s, a) ==> !Named(s.pool, a)
  {
    forall t | Spent(s, a) && t in s.pool.assignments ensures s.pool.assignments[t] != a {
      SpentIsInert(s, t, a);
      InvKeys(s.pool);
      hide Inv, Spent, Apply;
    }
  }

  // ---------- taking ----------

  lemma NamedTakes(s: Sys, a: Assignment)
    requires Inv(s) && Named(s.pool, a)
    ensures CanTake(s, a)
  {
    var t :| t in s.pool.assignments && s.pool.assignments[t] == a;
    InvKeys(s.pool);
    hide Inv;
    assert Takes(s, [], t, a);
  }

  /** A step first, and then what is possible after it. */
  lemma Before(s: Sys, e: Event, a: Assignment)
    requires Enabled(s, e) && !e.Load? && CanTake(Apply(s, e), a)
    ensures CanTake(s, a)
  {
    hide Enabled, Apply;
    var events, t :| Takes(Apply(s, e), events, t, a);
    assert ([e] + events)[1..] == events;
    assert Takes(s, [e] + events, t, a);
  }

  /** The task ids in use are finitely many. */
  lemma FreshTask(used: set<TaskId>) returns (t: TaskId)
    ensures t !in used && t.text != ""
  {
    var n := Longest(used);
    t := TaskId(seq(n + 1, _ => 'x'));
  }

  lemma Longest(used: set<TaskId>) returns (n: nat)
    ensures forall t :: t in used ==> |t.text| <= n
    decreases used
  {
    if used == {} { return 0; }
    var t :| t in used;
    n := Longest(used - {t});
    if |t.text| > n { n := |t.text|; }
  }

  /** A live worker in an open group can be given a task. */
  lemma AliveTakes(s: Sys, a: Assignment)
    requires Inv(s) && Open(s.pool, a.worker.group) && a.worker in s.pool.workers
    requires s.pool.workers[a.worker].generation == a.generation && s.pool.workers[a.worker].alive
    ensures CanTake(s, a)
  {
    var t := FreshTask(s.pool.futures.Keys);
    var e := Exec(t, s.pool.groupHandlers[a.worker.group][0], Oracle({a.worker}, {a.worker}));
    ExecCreates(s, t, e.handler, e.oracle);
    OnlyOneTakes(s.pool, t, e.handler, s.created, a.worker);
    NamedAfter(s, t, e.handler, a);
    hide Inv, Apply, CanTake, Named;
    NamedTakes(Apply(s, e), a);
    Before(s, e, a);
  }

  lemma NamedAfter(s: Sys, t: TaskId, h: HandlerName, a: Assignment)
    requires var q := Execute(s.pool, t, h, s.created, Oracle({a.worker}, {a.worker})).0;
      t in q.assignments && q.assignments[t] == a
    ensures Named(Apply(s, Exec(t, h, Oracle({a.worker}, {a.worker}))).pool, a)
  {
    hide Execute;
  }

  /** The only worker that accepts gets the task. */
  lemma OnlyOneTakes(p: Pool<nat>, t: TaskId, h: HandlerName, f: nat, w: WorkerId)
    requires PoolInv(p) && p.accepting && Deploys(p, w.group, h) && w in p.workers && p.workers[w].alive
    requires t !in p.futures && t.text != ""
    ensures var q := Execute(p, t, h, f, Oracle({w}, {w})).0;
      t in q.assignments && q.assignments[t] == Assignment(w, p.workers[w].generation)
  {
    var o := Oracle({w}, {w});
    assert Available(p, h, o, w);
    hide Execute, PoolInv, Deploys, Routed, Available;
    AssignedIff(p, t, h, f, o);
    ExecuteShape(p, t, h, f, o);
    assert Execute(p, t, h, f, o).1.worker == w;
  }

  /** An incarnation that is not over is that of a live worker, of one being started, or one that
      further launches lead to. */
  lemma {:induction false} LiveTakes(s: Sys, a: Assignment)
    requires Inv(s) && Open(s.pool, a.worker.group) && !Spent(s, a)
    ensures CanTake(s, a)
    decreases a.generation - s.pool.workers[a.worker].generation
  {
    var w := a.worker;
    var worker := s.pool.workers[w];
    hide Apply, PoolInv, Conserved, CanTake;
    if a.generation > worker.generation {
      Launched(s, a);
      var dead := Apply(s, Exit(w));
      LiveTakes(Apply(dead, Restart(w)), a);
      Before(dead, Restart(w), a);
      Before(s, Exit(w), a);
    } else if worker.alive {
      AliveTakes(s, a);
    } else if w in s.starting {
      BecomesReady(s, a);
      AliveTakes(Apply(s, Ready(w)), a);
      Before(s, Ready(w), a);
    } else {
      DeadHasNone(s, w);
      assert false;
    }
  }

  lemma DeadHasNone(s: Sys, w: WorkerId)
    requires Inv(s) && s.pool.accepting && w in s.pool.workers && !s.pool.workers[w].alive
    ensures AssignedTo(s.pool, w) == {}
  {
    forall t | t in s.pool.assignments ensures s.pool.assignments[t].worker != w { assert TaskBooked(s.pool, t); }
  }

  /** Its exit handled, the worker is launched again: one generation nearer. */
  lemma Launched(s: Sys, a: Assignment)
    requires Inv(s) && Open(s.pool, a.worker.group) && a.worker in s.pool.workers
    requires a.generation > s.pool.workers[a.worker].generation
    ensures var w := a.worker;
      var dead := Apply(s, Exit(w));
      var started := Apply(dead, Restart(w));
      && Enabled(s, Exit(w)) && Enabled(dead, Restart(w))
      && Inv(started) && Open(started.pool, w.group) && !Spent(started, a) && w in started.pool.workers
      && started.pool.workers[w].generation == s.pool.workers[w].generation + 1
  {
    var w := a.worker;
    var dead := Apply(s, Exit(w));
    StepKeeps(s, Exit(w));
    assert w in dead.pool.workers && !dead.pool.workers[w].alive;
    StepKeeps(dead, Restart(w));
    hide PoolInv, Conserved, Owned, FuturesOf;
    OpenIsNotClosing(s);
  }

  lemma OpenIsNotClosing(s: Sys)
    requires Inv(s) && s.pool.accepting
    ensures !s.pool.closing && !s.pool.closeComplete
  {
  }

  lemma BecomesReady(s: Sys, a: Assignment)
    requires Inv(s) && Open(s.pool, a.worker.group) && a.worker in s.pool.workers && a.worker in s.starting
    requires s.pool.workers[a.worker].generation == a.generation
    ensures var s' := Apply(s, Ready(a.worker));
      && Enabled(s, Ready(a.worker)) && Inv(s') && Open(s'.pool, a.worker.group) && a.worker in s'.pool.workers
      && s'.pool.workers[a.worker].generation == a.generation && s'.pool.workers[a.worker].alive
  {
    StepKeeps(s, Ready(a.worker));
    hide PoolInv, Conserved;
  }

  // ---------- taking nothing ----------

  /** Nothing is assigned to the incarnation, and nothing can be. */
  ghost predicate Idle(s: Sys, a: Assignment) {
    !Named(s.pool, a) && (Spent(s, a) || !Open(s.pool, a.worker.group))
  }

  /** Only executing assigns, and only in an open group. */
  lemma OnlyExecAssigns(s: Sys, e: Event, a: Assignment)
    requires Inv(s) && Enabled(s, e) && Named(Apply(s, e).pool, a)
    ensures Named(s.pool, a) || Open(s.pool, a.worker.group)
  {
    if e.Exec? {
      hide PoolInv, Conserved, Execute;
      ExecOpens(s.pool, e.task, e.handler, s.created, e.oracle);
      ExecuteShape(s.pool, e.task, e.handler, s.created, e.oracle);
    } else {
      OthersAssignNothing(s, e);
      hide Inv, Apply, Enabled;
      var t :| t in Apply(s, e).pool.assignments && Apply(s, e).pool.assignments[t] == a;
    }
  }

  lemma OthersAssignNothing(s: Sys, e: Event)
    requires !e.Exec?
    ensures forall t :: t in Apply(s, e).pool.assignments ==>
              t in s.pool.assignments && Apply(s, e).pool.assignments[t] == s.pool.assignments[t]
  {
    hide AddRoutes, DropRoutes, RemoveName, GroupTasks, FuturesOf, Owned;
  }

  lemma ExecOpens(p: Pool<nat>, t: TaskId, h: HandlerName, f: nat, o: Oracle)
    requires PoolInv(p)
    ensures var out := Execute(p, t, h, f, o).1; out.Assigned? ==> Open(p, out.worker.group)
  {
    hide Execute, PoolInv;
    ExecuteKeeps(p, t, h, f, o);
    ExecuteShape(p, t, h, f, o);
  }

  /** A group that cannot be given work stays so until its name is loaded. */
  lemma StaysShut(s: Sys, e: Event, g: GroupName)
    requires Inv(s) && Enabled(s, e) && !Open(s.pool, g) && !(e.Load? && e.group == g)
    ensures !Open(Apply(s, e).pool, g)
  {
    if e.Exec? {
      hide Execute, PoolInv, Conserved;
      ExecuteFlags(s.pool, e.task, e.handler, s.created, e.oracle);
      ExecuteShape(s.pool, e.task, e.handler, s.created, e.oracle);
    } else {
      hide PoolInv, Conserved, AddRoutes, DropRoutes, RemoveName, GroupTasks, FuturesOf, Owned;
    }
  }

  lemma IdleCannot(s: Sys, a: Assignment)
    requires Inv(s) && Idle(s, a)
    ensures !CanTake(s, a)
  {
    forall events, t ensures !Takes(s, events, t, a) {
      hide Inv, Idle;
      if Possible(s, events, a.worker.group) { IdleTakesNothing(s, events, t, a); }
    }
  }

  lemma IdleStays(s: Sys, e: Event, a: Assignment)
    requires Inv(s) && Enabled(s, e) && Idle(s, a) && !(e.Load? && e.group == a.worker.group)
    ensures Inv(Apply(s, e)) && Idle(Apply(s, e), a)
  {
    hide Inv, Apply, Enabled, Spent, Named, Open;
    StepKeeps(s, e);
    if Spent(s, a) {
      StepSpent(s, e, a);
      NamedIsLive(Apply(s, e), a);
    } else {
      StaysShut(s, e, a.worker.group);
      if Named(Apply(s, e).pool, a) { OnlyExecAssigns(s, e, a); }
    }
  }

  lemma {:induction false} IdleTakesNothing(s: Sys, events: seq<Event>, t: TaskId, a: Assignment)
    requires Inv(s) && Idle(s, a) && Possible(s, events, a.worker.group)
    ensures Receive(After(s, events).pool, t, a).1.None?
    decreases |events|
  {
    hide Inv, Apply, Enabled, Spent;
    if events != [] {
      IdleStays(s, events[0], a);
      IdleTakesNothing(Apply(s, events[0]), events[1..], t, a);
    }
  }
}
